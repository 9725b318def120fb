/** `DittoMigrationApplication`: the calls the application makes on the sync
    client, recorded as a trace, together with the log it writes and the disk
    metrics it publishes. The sync client itself is opaque: only the order and
    arguments of the calls made on it are modelled, and the result of the
    `__collections` query is an input. */
module MigrationApp {
  import opened Strings
  import opened Logging
  import opened DiskUsage

  /** One backend deployment: the four build-configuration values. */
  datatype Credentials = Credentials(appId: string, token: string, webSocketUrl: string, authUrl: string)

  /** A call made on the sync client library. */
  datatype SdkCall =
    | SetMinimumLogLevelDebug
    /** Building the online-playground identity and constructing the client
        from it, recorded as one call: building the identity has no effect of
        its own, so it is recorded where the client is constructed, after the
        log level is set. */
    | CreateClient(appId: string, token: string, enableCloudSync: bool,
                   customAuthUrl: string, persistenceDirectory: string)
    | DisableSyncWithV3
    | SetTransportConfig(websocketUrls: seq<string>)
    | StartSync
    | RegisterSubscription(query: string)
    | ObservePresence
    | ObserveDiskUsage
    | Execute(query: string)
    | Close

  /** The application's state: the credentials of the current client, the
      log, every call made on the client library so far, and the last
      published disk metrics. */
  datatype App = App(client: Credentials, log: LogUtil, trace: seq<SdkCall>, metrics: DiskUsageMetrics)

  /** Every client the application creates keeps its data in this directory
      under the application's files directory. */
  const PersistenceDirectory: string := "ditto_migration"
  const SelectPrefix: string := "SELECT * FROM "
  const InternalPrefix: string := "__"
  const CollectionsQuery: string := "SELECT * FROM __collections"

  const RestartMessage: string := "*** Restarting Ditto with new App ID\n---------"
  const StopMessage: string := "Stopping Ditto sync"
  const StartSyncMessage: string := "Starting Ditto sync and subscribing to __collections"
  const AttemptSubscribeMessage: string := "Attempting to subscribe to all collections"
  const RetrieveMessage: string := "Retrieving all collection names"
  const NoCollectionsMessage: string := "Did not find any non internal collections!"
  const ConnectedMessage: string := "is connected to cloud"
  const NotConnectedMessage: string := "is NOT connected to cloud!!"

  /** The four lines `initDitto` logs; the auth URL is not among them. */
  function InitLines(c: Credentials): seq<string> {
    [ "Attempting to init Ditto with:",
      "appId: " + c.appId,
      "token: " + c.token,
      "websocket URL: " + c.webSocketUrl ]
  }

  /** The message `initDitto` logs, as one text. */
  function InitMessage(c: Credentials): (r: string)
    ensures r == JoinLines(InitLines(c))
  {
    var header, appId, token, url :=
      "Attempting to init Ditto with:", "appId: " + c.appId, "token: " + c.token,
      "websocket URL: " + c.webSocketUrl;
    JoinFourLines(header, appId, token, url);
    header + "\n" + appId + "\n" + token + "\n" + url
  }

  /** Read line by line, the init message gives back the app ID, the token and
      the websocket URL, when none of them holds a line break. */
  lemma InitMessageLines(c: Credentials)
    requires NoLineBreak(c.appId) && NoLineBreak(c.token) && NoLineBreak(c.webSocketUrl)
    ensures SplitLines(InitMessage(c)) == InitLines(c)
    ensures SplitLines(InitMessage(c))[1][7..] == c.appId
    ensures SplitLines(InitMessage(c))[2][7..] == c.token
    ensures SplitLines(InitMessage(c))[3][15..] == c.webSocketUrl
  {
    var ls := InitLines(c);
    NoLineBreakConcat("appId: ", c.appId);
    NoLineBreakConcat("token: ", c.token);
    NoLineBreakConcat("websocket URL: ", c.webSocketUrl);
    assert forall i :: 0 <= i < |ls| ==> NoLineBreak(ls[i]);
    SplitJoinLines(ls);
  }

  /** The two lines reporting the collections found. */
  function FoundLines(names: seq<string>): seq<string> {
    [ "Found " + NatToString(|names|) + " collection(s):", ListToString(names) ]
  }

  /** The message reporting the collections found, as one text. */
  function FoundMessage(names: seq<string>): (r: string)
    ensures r == JoinLines(FoundLines(names))
  {
    "Found " + NatToString(|names|) + " collection(s):\n" + ListToString(names)
  }

  /** Read line by line, the report has exactly two lines: the count, and the
      names as Kotlin prints a list, when no name holds a line break. */
  lemma FoundMessageLines(names: seq<string>)
    requires forall i :: 0 <= i < |names| ==> NoLineBreak(names[i])
    ensures SplitLines(FoundMessage(names)) == FoundLines(names)
    ensures SplitLines(FoundMessage(names))[1] == ListToString(names)
  {
    var ls := FoundLines(names);
    var count := NatToString(|names|);
    assert NoLineBreak(count) by {
      forall i | 0 <= i < |count| ensures count[i] != '\n' {
        assert IsDigit(count[i]);
      }
    }
    NoLineBreakConcat("Found ", count);
    NoLineBreakConcat("Found " + count, " collection(s):");
    assert forall i :: 0 <= i < |ls| ==> NoLineBreak(ls[i]);
    SplitJoinLines(ls);
  }

  /** The line reporting what the `__collections` query left after filtering:
      the count and names at DEBUG, or an error when nothing is left. */
  function ReportLine(names: seq<string>): LogMessage {
    if |names| > 0 then LogMessage(Debug, FoundMessage(names)) else LogMessage(Error, NoCollectionsMessage)
  }

  function StartingSubscriptionMessage(name: string): string {
    "Starting subscription for " + name
  }

  // ---------------------------------------------------------------------
  // Collection names and subscription queries

  /** Internal collections are those whose name begins with "__". */
  predicate IsInternal(name: string) {
    StartsWith(name, InternalPrefix)
  }

  /** `filterNot { it.startsWith("__") }`. */
  function FilterInternal(names: seq<string>): (r: seq<string>)
    ensures |r| <= |names|
    ensures forall i :: 0 <= i < |r| ==> !IsInternal(r[i])
    ensures forall n :: n in names && !IsInternal(n) ==> n in r
    ensures forall n :: n in r ==> n in names
  {
    if |names| == 0 then []
    else if IsInternal(names[0]) then FilterInternal(names[1..])
    else [names[0]] + FilterInternal(names[1..])
  }

  /** The filter works piecewise, so kept names keep their relative order. */
  lemma {:induction false} FilterInternalConcat(a: seq<string>, b: seq<string>)
    ensures FilterInternal(a + b) == FilterInternal(a) + FilterInternal(b)
    decreases |a|
  {
    if |a| > 0 {
      assert (a + b)[1..] == a[1..] + b;
      FilterInternalConcat(a[1..], b);
    } else {
      assert a + b == b;
    }
  }

  /** Each name appears in the result exactly as often as in the input when it
      is not internal, and never when it is. */
  lemma {:induction false} FilterInternalCounts(names: seq<string>, n: string)
    ensures multiset(FilterInternal(names))[n] == if IsInternal(n) then 0 else multiset(names)[n]
    decreases |names|
  {
    if |names| > 0 {
      var rest := names[1..];
      FilterInternalCounts(rest, n);
      assert names == [names[0]] + rest;
      assert multiset(names) == multiset([names[0]]) + multiset(rest);
      if IsInternal(names[0]) {
        assert FilterInternal(names) == FilterInternal(rest);
        assert !IsInternal(n) ==> names[0] != n;
      } else {
        assert FilterInternal(names) == [names[0]] + FilterInternal(rest);
        assert multiset(FilterInternal(names)) == multiset([names[0]]) + multiset(FilterInternal(rest));
      }
    }
  }

  /** Filtering twice removes nothing more. */
  lemma {:induction false} FilterInternalIdempotent(names: seq<string>)
    ensures FilterInternal(FilterInternal(names)) == FilterInternal(names)
    decreases |names|
  {
    if |names| > 0 {
      FilterInternalIdempotent(names[1..]);
      if !IsInternal(names[0]) {
        assert ([names[0]] + FilterInternal(names[1..]))[1..] == FilterInternal(names[1..]);
      }
    }
  }

  /** The query subscribing to one collection. */
  function SubscriptionQuery(name: string): (q: string)
    ensures StartsWith(q, SelectPrefix)
  {
    StartsWithIffPrefixConcat(SelectPrefix + name, SelectPrefix);
    SelectPrefix + name
  }

  /** The collection a subscription query selects from. */
  function QueriedCollection(q: string): string
    requires StartsWith(q, SelectPrefix)
  {
    q[|SelectPrefix|..]
  }

  /** A subscription query names its collection: the name can be read back. */
  lemma QueryNamesCollection(name: string)
    ensures QueriedCollection(SubscriptionQuery(name)) == name
  {
    assert (SelectPrefix + name)[|SelectPrefix|..] == name;
  }

  /** The `__collections` subscription is the query for that collection. */
  lemma CollectionsQueryIsSubscription()
    ensures CollectionsQuery == SubscriptionQuery("__collections")
  {
  }

  /** One subscription call per name, in list order. */
  function SubscriptionCalls(names: seq<string>): (calls: seq<SdkCall>)
    ensures |calls| == |names|
    ensures forall i :: 0 <= i < |names| ==> calls[i] == RegisterSubscription(SubscriptionQuery(names[i]))
  {
    seq(|names|, i requires 0 <= i < |names| => RegisterSubscription(SubscriptionQuery(names[i])))
  }

  function SubscriptionMessages(names: seq<string>): (ms: seq<LogMessage>)
    ensures |ms| == |names|
    ensures forall i :: 0 <= i < |names| ==> ms[i] == LogMessage(Debug, StartingSubscriptionMessage(names[i]))
  {
    seq(|names|, i requires 0 <= i < |names| => LogMessage(Debug, StartingSubscriptionMessage(names[i])))
  }

  lemma SubscriptionsCons(names: seq<string>)
    requires |names| > 0
    ensures SubscriptionCalls(names) == [RegisterSubscription(SubscriptionQuery(names[0]))] + SubscriptionCalls(names[1..])
    ensures SubscriptionMessages(names)
         == [LogMessage(Debug, StartingSubscriptionMessage(names[0]))] + SubscriptionMessages(names[1..])
  {
  }

  /** The "found" report opens with the count, which can be read back from it. */
  lemma FoundMessageReportsCount(names: seq<string>)
    ensures var count := NatToString(|names|);
            && StartsWith(FoundMessage(names), "Found " + count + " collection(s):\n")
            && ParseNat(FoundMessage(names)[6..6 + |count|]) == |names|
  {
    var count := NatToString(|names|);
    var head := "Found " + count + " collection(s):\n";
    var m := FoundMessage(names);
    assert m == head + ListToString(names);
    StartsWithIffPrefixConcat(m, head);
    assert m[6..6 + |count|] == count;
    ParseNatToString(|names|);
  }

  // ---------------------------------------------------------------------
  // Client lifecycle

  /** The calls `initDitto` makes for one deployment: the log level, then the
      client built from the identity (which is created, without effect, before
      the log level is set), then the two configuration calls. */
  function InitCalls(c: Credentials): seq<SdkCall> {
    [ SetMinimumLogLevelDebug,
      CreateClient(c.appId, c.token, false, c.authUrl, PersistenceDirectory),
      DisableSyncWithV3,
      SetTransportConfig([c.webSocketUrl]) ]
  }

  /** The calls `startDittoSync` makes. */
  const SyncCalls: seq<SdkCall> := [StartSync, RegisterSubscription(CollectionsQuery), ObservePresence]

  /** `initDitto`: log the credentials in use, then create a client for them
      with cloud sync off, the v3 sync protocol off, and a transport
      configuration holding only the deployment's websocket URL. */
  function InitDitto(app: App, c: Credentials): (app': App)
    ensures app'.client == c && app'.metrics == app.metrics
    ensures app'.trace == app.trace + InitCalls(c)
    ensures app'.log.messages == app.log.messages + [LogMessage(Debug, InitMessage(c))]
    ensures Published(app'.log)
  {
    app.(client := c, log := LogDebug(app.log, InitMessage(c)), trace := app.trace + InitCalls(c))
  }

  /** `startDittoSync`: start syncing, subscribe to `__collections`, and start
      observing presence, in that order. */
  function StartDittoSync(app: App): (app': App)
    ensures app'.client == app.client && app'.metrics == app.metrics
    ensures app'.trace == app.trace + [StartSync, RegisterSubscription(SubscriptionQuery("__collections")), ObservePresence]
    ensures app'.log.messages == app.log.messages + [LogMessage(Debug, StartSyncMessage)]
    ensures Published(app'.log)
  {
    CollectionsQueryIsSubscription();
    app.(log := LogDebug(app.log, StartSyncMessage), trace := app.trace + SyncCalls)
  }

  /** `closeDitto`: log a line and close the current client. */
  function CloseDitto(app: App): (app': App)
    ensures app'.client == app.client && app'.metrics == app.metrics
    ensures app'.trace == app.trace + [Close]
    ensures app'.log.messages == app.log.messages + [LogMessage(Debug, StopMessage)]
    ensures Published(app'.log)
  {
    app.(log := LogDebug(app.log, StopMessage), trace := app.trace + [Close])
  }

  /** `onCreate`: create a client for the existing deployment, start syncing,
      and start observing disk usage. */
  function OnCreate(existing: Credentials): (app: App)
    ensures app.client == existing
    ensures app.trace == InitCalls(existing) + SyncCalls + [ObserveDiskUsage]
    ensures app.log.messages == [LogMessage(Debug, InitMessage(existing)), LogMessage(Debug, StartSyncMessage)]
    ensures Published(app.log)
    ensures app.metrics == ZeroMetrics()
  {
    var created := App(existing, NewLogUtil(), [], ZeroMetrics());
    var synced := StartDittoSync(InitDitto(created, existing));
    synced.(trace := synced.trace + [ObserveDiskUsage])
  }

  /** A disk-usage observation: publish the store size from the "ditto_store"
      child and the replication size from the "ditto_replication" child. */
  function OnDiskUsage(app: App, item: DiskUsageItem): (app': App)
    ensures app'.metrics.storeSizeInMb == CalculateSizeInMb(item, "ditto_store")
    ensures app'.metrics.replicationSizeInMb == CalculateSizeInMb(item, "ditto_replication")
    ensures app'.client == app.client && app'.log == app.log && app'.trace == app.trace
  {
    app.(metrics := MetricsOf(item))
  }

  /** A presence observation: a debug line when connected to the cloud, an
      error line when not. */
  function OnPresence(app: App, connectedToCloud: bool): (app': App)
    ensures connectedToCloud ==> app'.log.messages == app.log.messages + [LogMessage(Debug, ConnectedMessage)]
    ensures !connectedToCloud ==> app'.log.messages == app.log.messages + [LogMessage(Error, NotConnectedMessage)]
    ensures Published(app'.log)
    ensures app'.client == app.client && app'.trace == app.trace && app'.metrics == app.metrics
  {
    if connectedToCloud then app.(log := LogDebug(app.log, ConnectedMessage))
    else app.(log := LogError(app.log, NotConnectedMessage))
  }

  // ---------------------------------------------------------------------
  // Subscribing to every collection

  /** The result of `getAllCollectionNames`. */
  datatype Names = Names(app: App, names: seq<string>)

  /** `getAllCollectionNames`: query `__collections` (whose rows' names are
      `stored`), drop the internal names, and report how many are left; an
      empty result is reported as an error. */
  function GetAllCollectionNames(app: App, stored: seq<string>): (r: Names)
    ensures r.names == FilterInternal(stored)
    ensures r.app.client == app.client && r.app.metrics == app.metrics
    ensures r.app.trace == app.trace + [Execute(CollectionsQuery)]
    ensures |r.app.log.messages| == |app.log.messages| + 2
    ensures r.app.log.messages[..|app.log.messages| + 1] == app.log.messages + [LogMessage(Debug, RetrieveMessage)]
    ensures r.app.log.messages[|app.log.messages| + 1] == ReportLine(r.names)
    ensures Published(r.app.log)
  {
    var queried := app.(log := LogDebug(app.log, RetrieveMessage), trace := app.trace + [Execute(CollectionsQuery)]);
    var names := FilterInternal(stored);
    var reported := if |names| > 0 then LogDebug(queried.log, FoundMessage(names))
                    else LogError(queried.log, NoCollectionsMessage);
    assert reported.messages[..|app.log.messages| + 1] == queried.log.messages;
    Names(queried.(log := reported), names)
  }

  /** The last line `getAllCollectionNames` logs: an error when no collection
      is left, otherwise a debug line that opens with the count, from which the
      count can be read back. */
  lemma CollectionCountReported(app: App, stored: seq<string>)
    ensures var r := GetAllCollectionNames(app, stored);
            var last := r.app.log.messages[|r.app.log.messages| - 1];
            && (|r.names| == 0 <==> last.level == Error)
            && (|r.names| == 0 ==> last.message == NoCollectionsMessage)
            && (|r.names| > 0 ==>
                  var count := NatToString(|r.names|);
                  && StartsWith(last.message, "Found " + count + " collection(s):\n")
                  && ParseNat(last.message[6..6 + |count|]) == |r.names|)
  {
    var r := GetAllCollectionNames(app, stored);
    FoundMessageReportsCount(r.names);
  }

  /** One iteration of that `forEach`: log the name and subscribe to it. */
  function SubscribeOne(app: App, name: string): (app': App)
    ensures app'.client == app.client && app'.metrics == app.metrics
    ensures app'.trace == app.trace + [RegisterSubscription(SubscriptionQuery(name))]
    ensures app'.log.messages == app.log.messages + [LogMessage(Debug, StartingSubscriptionMessage(name))]
    ensures Published(app'.log)
  {
    app.(log := LogDebug(app.log, StartingSubscriptionMessage(name)),
         trace := app.trace + [RegisterSubscription(SubscriptionQuery(name))])
  }

  /** The `forEach` of `subscribeToAllCollections`: for each name, log it and
      subscribe to it. */
  function SubscribeEach(app: App, names: seq<string>): (app': App)
    ensures app'.client == app.client && app'.metrics == app.metrics
    ensures app'.trace == app.trace + SubscriptionCalls(names)
    ensures app'.log.messages == app.log.messages + SubscriptionMessages(names)
    ensures Published(app.log) || |names| > 0 ==> Published(app'.log)
    decreases |names|
  {
    if |names| == 0 then app
    else
      var one := SubscribeOne(app, names[0]);
      var rest := SubscribeEach(one, names[1..]);
      SubscriptionsCons(names);
      AppendAssoc(app.trace, [RegisterSubscription(SubscriptionQuery(names[0]))], SubscriptionCalls(names[1..]));
      AppendAssoc(app.log.messages, [LogMessage(Debug, StartingSubscriptionMessage(names[0]))],
                  SubscriptionMessages(names[1..]));
      rest
  }

  lemma AppendAssoc<T>(a: seq<T>, b: seq<T>, c: seq<T>)
    ensures a + b + c == a + (b + c)
  {
  }

  /** `subscribeToAllCollections`: query the collection names, then register
      one `SELECT * FROM <name>` subscription per non-internal name, in the
      order the query returned them. */
  function SubscribeToAllCollections(app: App, stored: seq<string>): (app': App)
    ensures app'.client == app.client && app'.metrics == app.metrics
    ensures app'.trace == app.trace + [Execute(CollectionsQuery)] + SubscriptionCalls(FilterInternal(stored))
    ensures |app'.log.messages| == |app.log.messages| + 3 + |FilterInternal(stored)|
    ensures app'.log.messages[..|app.log.messages| + 2]
         == app.log.messages + [LogMessage(Debug, AttemptSubscribeMessage), LogMessage(Debug, RetrieveMessage)]
    ensures app'.log.messages[|app.log.messages| + 2] == ReportLine(FilterInternal(stored))
    ensures app'.log.messages[|app.log.messages| + 3..] == SubscriptionMessages(FilterInternal(stored))
    ensures Published(app'.log)
  {
    var announced := app.(log := LogDebug(app.log, AttemptSubscribeMessage));
    var found := GetAllCollectionNames(announced, stored);
    var app' := SubscribeEach(found.app, found.names);
    assert app'.log.messages[..|app.log.messages| + 2] == found.app.log.messages[..|app.log.messages| + 2];
    assert app'.log.messages[|app.log.messages| + 2] == found.app.log.messages[|app.log.messages| + 2];
    app'
  }

  /** The same operation written as the source's loop over the names. */
  method SubscribeToAllCollectionsLoop(app: App, stored: seq<string>) returns (app': App)
    ensures app' == SubscribeToAllCollections(app, stored)
  {
    var announced := app.(log := LogDebug(app.log, AttemptSubscribeMessage));
    var found := GetAllCollectionNames(announced, stored);
    var names := found.names;
    app' := found.app;
    var i := 0;
    while i < |names|
      invariant 0 <= i <= |names|
      invariant Published(app'.log)
      invariant SubscribeEach(app', names[i..]) == SubscribeEach(found.app, names)
    {
      assert names[i..][1..] == names[i + 1..];
      app' := SubscribeOne(app', names[i]);
      i := i + 1;
    }
  }

  // ---------------------------------------------------------------------
  // Migration

  /** `restartDittoWithNewAppId`: close the current client, create one for the
      new deployment, start it syncing, and subscribe again to every
      collection found in the (shared) local store. */
  function RestartDittoWithNewAppId(app: App, newCredentials: Credentials, stored: seq<string>): (app': App)
    ensures app'.client == newCredentials && app'.metrics == app.metrics
    ensures Published(app'.log)
  {
    var announced := app.(log := LogDebug(app.log, RestartMessage));
    SubscribeToAllCollections(StartDittoSync(InitDitto(CloseDitto(announced), newCredentials)), stored)
  }

  /** The state a restart reaches just before it subscribes again: the old
      client closed, the new one created and syncing. */
  function RestartedClient(app: App, newCredentials: Credentials): (app': App)
    ensures app'.trace == app.trace + [Close] + InitCalls(newCredentials) + SyncCalls
    ensures app'.log.messages
         == app.log.messages
            + [ LogMessage(Debug, RestartMessage),
                LogMessage(Debug, StopMessage),
                LogMessage(Debug, InitMessage(newCredentials)),
                LogMessage(Debug, StartSyncMessage) ]
    ensures app'.client == newCredentials && app'.metrics == app.metrics
  {
    var announced := app.(log := LogDebug(app.log, RestartMessage));
    StartDittoSync(InitDitto(CloseDitto(announced), newCredentials))
  }

  /** A restart is that state followed by subscribing to every collection. */
  lemma RestartSubscribesAfterRestartedClient(app: App, newCredentials: Credentials, stored: seq<string>)
    ensures RestartDittoWithNewAppId(app, newCredentials, stored)
         == SubscribeToAllCollections(RestartedClient(app, newCredentials), stored)
  {
  }

  /** The calls a restart makes, in order: close the old client, create and
      configure the client for the NEW deployment, start sync with the
      `__collections` subscription, then query and subscribe to each
      non-internal collection. */
  lemma RestartTrace(app: App, newCredentials: Credentials, stored: seq<string>)
    ensures RestartDittoWithNewAppId(app, newCredentials, stored).trace
         == app.trace + [Close]
            + [ SetMinimumLogLevelDebug,
                CreateClient(newCredentials.appId, newCredentials.token, false,
                             newCredentials.authUrl, PersistenceDirectory),
                DisableSyncWithV3,
                SetTransportConfig([newCredentials.webSocketUrl]) ]
            + [StartSync, RegisterSubscription(CollectionsQuery), ObservePresence]
            + [Execute(CollectionsQuery)]
            + SubscriptionCalls(FilterInternal(stored))
  {
    RestartSubscribesAfterRestartedClient(app, newCredentials, stored);
  }

  /** The log lines a restart writes, in order: the announcement, the close,
      the new credentials, the start of sync, the subscribe announcement, the
      retrieval, the report of what was found, and one line per collection. */
  lemma RestartLog(app: App, newCredentials: Credentials, stored: seq<string>)
    ensures var n := |app.log.messages|;
            var log := RestartDittoWithNewAppId(app, newCredentials, stored).log.messages;
            && |log| == n + 7 + |FilterInternal(stored)|
            && log[..n + 6]
               == app.log.messages
                  + [ LogMessage(Debug, RestartMessage),
                      LogMessage(Debug, StopMessage),
                      LogMessage(Debug, InitMessage(newCredentials)),
                      LogMessage(Debug, StartSyncMessage),
                      LogMessage(Debug, AttemptSubscribeMessage),
                      LogMessage(Debug, RetrieveMessage) ]
            && log[n + 6] == ReportLine(FilterInternal(stored))
            && log[n + 7..] == SubscriptionMessages(FilterInternal(stored))
  {
    var n := |app.log.messages|;
    var mid := RestartedClient(app, newCredentials);
    RestartSubscribesAfterRestartedClient(app, newCredentials, stored);
    var log := SubscribeToAllCollections(mid, stored).log.messages;
    var restarted := [ LogMessage(Debug, RestartMessage), LogMessage(Debug, StopMessage),
                       LogMessage(Debug, InitMessage(newCredentials)), LogMessage(Debug, StartSyncMessage) ];
    var subscribing := [LogMessage(Debug, AttemptSubscribeMessage), LogMessage(Debug, RetrieveMessage)];
    assert mid.log.messages == app.log.messages + restarted;
    assert |mid.log.messages| == n + 4;
    assert log[..n + 6] == (app.log.messages + restarted) + subscribing;
    assert (app.log.messages + restarted) + subscribing == app.log.messages + (restarted + subscribing);
  }

  /** A restart keeps the calls made before it and creates the new client
      right after closing the old one. */
  lemma RestartCreatesNewClient(app: App, newCredentials: Credentials, stored: seq<string>)
    ensures var t := RestartDittoWithNewAppId(app, newCredentials, stored).trace;
            && |t| > |app.trace| + 2
            && t[..|app.trace|] == app.trace
            && t[|app.trace|] == Close
            && t[|app.trace| + 2] == CreateClient(newCredentials.appId, newCredentials.token, false,
                                                  newCredentials.authUrl, PersistenceDirectory)
  {
    var n := |app.trace|;
    var mid := RestartedClient(app, newCredentials);
    RestartSubscribesAfterRestartedClient(app, newCredentials, stored);
    var t := SubscribeToAllCollections(mid, stored).trace;
    var a1 := app.trace + [Close];
    var a2 := a1 + InitCalls(newCredentials);
    assert mid.trace == a2 + SyncCalls;
    assert t[..|mid.trace|] == mid.trace;
    assert t[..n] == mid.trace[..n] == a2[..n] == a1[..n] == app.trace;
    assert t[n] == mid.trace[n] == a2[n] == a1[n] == Close;
    assert t[n + 2] == mid.trace[n + 2] == a2[n + 2] == InitCalls(newCredentials)[1];
  }

  /** The client created on start-up and the one created on restart keep
      their data in the same directory, which is what carries the local data
      across the migration. */
  lemma ClientsShareStorage(existing: Credentials, newCredentials: Credentials, stored: seq<string>)
    ensures var app := OnCreate(existing);
            var restarted := RestartDittoWithNewAppId(app, newCredentials, stored);
            && restarted.trace[1] == CreateClient(existing.appId, existing.token, false, existing.authUrl, PersistenceDirectory)
            && restarted.trace[|app.trace| + 2] == CreateClient(newCredentials.appId, newCredentials.token, false,
                                                                newCredentials.authUrl, PersistenceDirectory)
  {
    var app := OnCreate(existing);
    RestartCreatesNewClient(app, newCredentials, stored);
    var t := RestartDittoWithNewAppId(app, newCredentials, stored).trace;
    assert t[1] == t[..|app.trace|][1] == app.trace[1];
  }
}
