# Android data-migration app: a Dafny model

This project models the logic of a small Android application. The app moves a
device from one sync-backend deployment to another. It creates a sync client
for the existing deployment and subscribes to every non-internal collection.
It shows the sync log and the local disk usage. On a button press it closes the
client and creates a new one for the new deployment. The new client uses the
same local storage directory, and the app subscribes to every collection again.

The sync client library is closed and is not modelled. Each call the app makes
on it becomes an `SdkCall` event in a trace. The rows returned by the
`__collections` query are an input (`stored: seq<string>`). The
build-configuration values are a `Credentials` record passed in by the caller.

Modules (the last four follow the source files; `Strings` and `Nullable` hold
the Kotlin library behaviour they rely on):

- `Strings` (`strings.dfy`) covers Kotlin's `startsWith`, `endsWith`, decimal
  `Int` rendering and `List.toString`.
- `Nullable` and `DiskUsage` (`disk_usage.dfy`) cover the disk-usage tree,
  `calculateSizeInMb` with Kotlin's truncating `/`, and the `DiskUsageMetrics`
  record of `data/DiskUsageMetrics.kt`.
- `Logging` (`log_util.dfy`) covers `LogUtil`, an append-only log together with
  the value it publishes to observers.
- `ViewModel` (`view_model.dfy`) covers `UiState`, the two button actions, the
  two flow-driven updates, and the view's rule that a disabled button cannot
  be pressed.
- `MigrationApp` (`application.dfy`) covers `DittoMigrationApplication`:
  start-up, the collection filter, subscriptions, restart with the new
  deployment, and the disk-usage and presence observers.

`LogLevel` has exactly two constructors, `Debug` and `Error`, so every log
entry carries one of those two levels.

## Model

| member | source | states |
|---|---|---|
| Strings.StartsWithIffPrefixConcat | app/src/main/java/live/ditto/dittomigrationandroid/DittoMigrationApplication.kt:162 | a name starts with a prefix exactly when it is that prefix followed by some rest |
| Strings.EndsWithIffConcatSuffix | app/src/main/java/live/ditto/dittomigrationandroid/util/DittoDiskUsageExt.kt:6 | a path ends with a suffix exactly when it is some front followed by that suffix |
| Strings.ParseNatToString | app/src/main/java/live/ditto/dittomigrationandroid/DittoMigrationApplication.kt:167 | the decimal rendering of the collection count parses back to the count |
| Strings.NatToStringInjective | app/src/main/java/live/ditto/dittomigrationandroid/DittoMigrationApplication.kt:167 | different counts are rendered as different strings |
| Strings.NatToString | app/src/main/java/live/ditto/dittomigrationandroid/DittoMigrationApplication.kt:167 | the count is rendered as one or more decimal digits, with a leading zero only for the count 0 |
| Strings.ListToString | app/src/main/java/live/ditto/dittomigrationandroid/DittoMigrationApplication.kt:168 | the name list is rendered between "[" and "]"; an empty list as "[]", one name n as "[n]"; no line break appears unless a name holds one |
| DiskUsage.TruncDiv | app/src/main/java/live/ditto/dittomigrationandroid/util/DittoDiskUsageExt.kt:8 | Kotlin `/` by a positive divisor rounds toward zero: for a >= 0, q*d <= a < q*d + d; for a < 0, q*d - d < a <= q*d |
| DiskUsage.TruncDivOdd | app/src/main/java/live/ditto/dittomigrationandroid/util/DittoDiskUsageExt.kt:8 | truncating division commutes with negation |
| DiskUsage.TruncDivUnique | app/src/main/java/live/ditto/dittomigrationandroid/util/DittoDiskUsageExt.kt:8 | for a non-negative dividend, any q with q*d <= a < q*d + d is the quotient |
| DiskUsage.BytesToMb | app/src/main/java/live/ditto/dittomigrationandroid/util/DittoDiskUsageExt.kt:8 | for b >= 0 bytes the result r is the whole number of MiB: r*1048576 <= b < (r+1)*1048576 |
| DiskUsage.BytesToMbMonotone | app/src/main/java/live/ditto/dittomigrationandroid/util/DittoDiskUsageExt.kt:8 | more bytes never give fewer megabytes |
| DiskUsage.FirstMatchIndex | app/src/main/java/live/ditto/dittomigrationandroid/util/DittoDiskUsageExt.kt:6 | the index returned is of a child ending with the suffix, with no match before it; no index means no child matches |
| DiskUsage.CalculateSizeInMb | app/src/main/java/live/ditto/dittomigrationandroid/util/DittoDiskUsageExt.kt:5-10 | result is 0 when the children are null or none matches; otherwise it is the first matching child's size in whole MiB |
| DiskUsage.LaterChildrenIgnored | app/src/main/java/live/ditto/dittomigrationandroid/util/DittoDiskUsageExt.kt:6 | once a child matches, any children appended after it, matching or not, leave the result unchanged |
| DiskUsage.SizeInMbBounds | app/src/main/java/live/ditto/dittomigrationandroid/util/DittoDiskUsageExt.kt:8 | for a non-negative first-match size b, the result r satisfies r*2^20 <= b < (r+1)*2^20 |
| DiskUsage.ZeroMetrics | app/src/main/java/live/ditto/dittomigrationandroid/data/DiskUsageMetrics.kt:3-6 | default metrics have both sizes 0 |
| Logging.NewLogUtil | app/src/main/java/live/ditto/dittomigrationandroid/util/LogUtil.kt:11-14 | the log starts empty and the flow publishes it |
| Logging.LevelIsDebugOrError | app/src/main/java/live/ditto/dittomigrationandroid/util/LogUtil.kt:54-57 | every message's level is DEBUG or ERROR |
| Logging.UpdateFlow | app/src/main/java/live/ditto/dittomigrationandroid/util/LogUtil.kt:38-42 | afterwards the published value is the internal list, and the list is unchanged |
| Logging.LogDebug | app/src/main/java/live/ditto/dittomigrationandroid/util/LogUtil.kt:16-25 | the log grows by exactly one entry (DEBUG, message) at the end; the old log is a prefix; the flow publishes the new list |
| Logging.LogError | app/src/main/java/live/ditto/dittomigrationandroid/util/LogUtil.kt:27-36 | the log grows by exactly one entry (ERROR, message) at the end; the old log is a prefix; the flow publishes the new list |
| Logging.PerformAllAppends | app/src/main/java/live/ditto/dittomigrationandroid/util/LogUtil.kt:16-36 | any run of log calls appends one entry per call in call order, never touches earlier entries, and leaves the flow publishing the list |
| Logging.LogFromStart | app/src/main/java/live/ditto/dittomigrationandroid/util/LogUtil.kt:11-36 | from a fresh logger the log is exactly the calls' entries, and it is published |
| ViewModel.InitialUiState | app/src/main/java/live/ditto/dittomigrationandroid/viewmodel/DataMigrationViewModel.kt:91-96 | start enabled, restart disabled, empty log, zero metrics |
| ViewModel.StartSubscriptions | app/src/main/java/live/ditto/dittomigrationandroid/viewmodel/DataMigrationViewModel.kt:49-59 | start is disabled and restart enabled; logs and metrics are unchanged; exactly one subscribe request is launched |
| ViewModel.RestartSubscriptionsWithNewApp | app/src/main/java/live/ditto/dittomigrationandroid/viewmodel/DataMigrationViewModel.kt:61-70 | restart is disabled; the start flag, logs and metrics are unchanged; exactly one restart request is launched |
| ViewModel.OnLogMessages | app/src/main/java/live/ditto/dittomigrationandroid/viewmodel/DataMigrationViewModel.kt:28-36 | a log emission replaces the shown log; both flags and the metrics are unchanged |
| ViewModel.OnDiskUsageMetrics | app/src/main/java/live/ditto/dittomigrationandroid/viewmodel/DataMigrationViewModel.kt:38-46 | a disk-usage emission replaces the shown metrics; both flags and the log are unchanged |
| ViewModel.GatedStep | app/src/main/java/live/ditto/dittomigrationandroid/view/DittoMigrationApp.kt:82-105 | a press on a disabled button leaves the state unchanged and launches nothing; a press on an enabled button is exactly that button's action; a log or disk-usage emission is handled as the view model handles it and launches nothing |
| ViewModel.RunKeepsButtonsExclusive | app/src/main/java/live/ditto/dittomigrationandroid/viewmodel/DataMigrationViewModel.kt:53-69 | any sequence of events, gated by the view or not, keeps start and restart from both being enabled |
| ViewModel.ReachableButtonsExclusive | app/src/main/java/live/ditto/dittomigrationandroid/viewmodel/DataMigrationViewModel.kt:53-96 | in every state reachable from the initial one, start and restart are never both enabled |
| ViewModel.StartStaysDisabled | app/src/main/java/live/ditto/dittomigrationandroid/viewmodel/DataMigrationViewModel.kt:53-69 | once start is disabled, no sequence of events enables it again |
| ViewModel.GatedRequestsArePrefix | app/src/main/java/live/ditto/dittomigrationandroid/view/DittoMigrationApp.kt:82-105 | through the screen, the launched requests are a prefix of [subscribe, restart]: each happens at most once, and restart only after subscribe |
| MigrationApp.FilterInternal | app/src/main/java/live/ditto/dittomigrationandroid/DittoMigrationApplication.kt:160-162 | no kept name starts with "__"; every name not starting with "__" is kept; nothing new is added |
| MigrationApp.FilterInternalConcat | app/src/main/java/live/ditto/dittomigrationandroid/DittoMigrationApplication.kt:162 | filtering a concatenation is the concatenation of the filtered parts, so kept names stay in their original relative order |
| MigrationApp.FilterInternalCounts | app/src/main/java/live/ditto/dittomigrationandroid/DittoMigrationApplication.kt:162 | each non-internal name occurs in the result exactly as often as in the input; internal names never occur |
| MigrationApp.FilterInternalIdempotent | app/src/main/java/live/ditto/dittomigrationandroid/DittoMigrationApplication.kt:162 | filtering an already filtered list changes nothing |
| MigrationApp.SubscriptionQuery | app/src/main/java/live/ditto/dittomigrationandroid/DittoMigrationApplication.kt:58 | every subscription query starts with "SELECT * FROM " |
| MigrationApp.QueryNamesCollection | app/src/main/java/live/ditto/dittomigrationandroid/DittoMigrationApplication.kt:58 | the collection name can be read back from its subscription query |
| MigrationApp.CollectionsQueryIsSubscription | app/src/main/java/live/ditto/dittomigrationandroid/DittoMigrationApplication.kt:178-180 | the `__collections` subscription is the subscription query for that collection |
| MigrationApp.FoundMessageReportsCount | app/src/main/java/live/ditto/dittomigrationandroid/DittoMigrationApplication.kt:165-170 | the "found" message opens with "Found <count> collection(s):", and the count parses back from it |
| MigrationApp.FoundMessage | app/src/main/java/live/ditto/dittomigrationandroid/DittoMigrationApplication.kt:165-170 | the report is two lines joined by a line break: "Found <count> collection(s):" and the Kotlin rendering of the name list |
| MigrationApp.FoundMessageLines | app/src/main/java/live/ditto/dittomigrationandroid/DittoMigrationApplication.kt:165-170 | cut at line breaks, the report gives back exactly those two lines, the second being the rendered name list, when no name holds a line break |
| MigrationApp.InitMessage | app/src/main/java/live/ditto/dittomigrationandroid/DittoMigrationApplication.kt:91-98 | the init message is four lines joined by line breaks: the header, then "appId: ", "token: " and "websocket URL: " each followed by its value; the auth URL is not logged |
| MigrationApp.InitMessageLines | app/src/main/java/live/ditto/dittomigrationandroid/DittoMigrationApplication.kt:91-98 | cut at line breaks, the init message gives back those four lines, and the app ID, token and websocket URL read back from lines 2-4, when none holds a line break |
| MigrationApp.InitDitto | app/src/main/java/live/ditto/dittomigrationandroid/DittoMigrationApplication.kt:85-136 | the current client becomes the given deployment; the calls appended are: log level, client with cloud sync off in the shared directory, v3 off, and only that websocket URL |
| MigrationApp.StartDittoSync | app/src/main/java/live/ditto/dittomigrationandroid/DittoMigrationApplication.kt:138-151 | appends start sync, then the `__collections` subscription, then the presence observer, and logs one debug line |
| MigrationApp.CloseDitto | app/src/main/java/live/ditto/dittomigrationandroid/DittoMigrationApplication.kt:80-83 | logs one debug line and appends a close of the current client |
| MigrationApp.OnCreate | app/src/main/java/live/ditto/dittomigrationandroid/DittoMigrationApplication.kt:32-52 | start-up makes the existing deployment's client, starts sync, then observes disk usage; metrics start at zero |
| MigrationApp.OnDiskUsage | app/src/main/java/live/ditto/dittomigrationandroid/DittoMigrationApplication.kt:42-51 | store size comes from the "ditto_store" child and replication size from the "ditto_replication" child; nothing else changes |
| MigrationApp.OnPresence | app/src/main/java/live/ditto/dittomigrationandroid/DittoMigrationApplication.kt:143-150 | when connected, one debug line is appended; otherwise one error line; the trace is unchanged |
| MigrationApp.GetAllCollectionNames | app/src/main/java/live/ditto/dittomigrationandroid/DittoMigrationApplication.kt:157-176 | one `__collections` query is executed; the names returned are the filtered rows; a non-empty result is reported at DEBUG, an empty one at ERROR |
| MigrationApp.CollectionCountReported | app/src/main/java/live/ditto/dittomigrationandroid/DittoMigrationApplication.kt:164-173 | the last line is an error exactly when no collection is left; otherwise it opens with the count, which parses back to the count |
| MigrationApp.SubscribeOne | app/src/main/java/live/ditto/dittomigrationandroid/DittoMigrationApplication.kt:57-58 | logs one line naming the collection and registers exactly one subscription for it |
| MigrationApp.SubscribeEach | app/src/main/java/live/ditto/dittomigrationandroid/DittoMigrationApplication.kt:56-59 | registers exactly one `SELECT * FROM n` per name n, in list order, with one log line each |
| MigrationApp.SubscribeToAllCollections | app/src/main/java/live/ditto/dittomigrationandroid/DittoMigrationApplication.kt:54-60 | appends one query of `__collections`, then one subscription per non-internal name in order; the log gets the announcement, the retrieval line, the report (count and names at DEBUG, or the ERROR line when nothing is left) and one line per name |
| MigrationApp.SubscribeToAllCollectionsLoop | app/src/main/java/live/ditto/dittomigrationandroid/DittoMigrationApplication.kt:54-60 | the source's loop over the names gives the same result as the recursive definition |
| MigrationApp.RestartDittoWithNewAppId | app/src/main/java/live/ditto/dittomigrationandroid/DittoMigrationApplication.kt:62-78 | after a restart the current client is the new deployment's; metrics are unchanged |
| MigrationApp.RestartSubscribesAfterRestartedClient | app/src/main/java/live/ditto/dittomigrationandroid/DittoMigrationApplication.kt:76-77 | a restart is exactly the restarted client followed by subscribing to all collections |
| MigrationApp.RestartTrace | app/src/main/java/live/ditto/dittomigrationandroid/DittoMigrationApplication.kt:62-83 | the restart calls are, in order: close the old client; create and configure the client with the NEW credentials; start sync with the `__collections` subscription; query; one subscription per non-internal name |
| MigrationApp.RestartedClient | app/src/main/java/live/ditto/dittomigrationandroid/DittoMigrationApplication.kt:62-76 | before subscribing again, a restart has closed the old client, created and configured the NEW deployment's client and started sync, logging four lines in that order |
| MigrationApp.RestartLog | app/src/main/java/live/ditto/dittomigrationandroid/DittoMigrationApplication.kt:62-78 | a restart logs, in order: the announcement, stopping, the new credentials, starting sync, the subscribe announcement, the retrieval line, the report (DEBUG count or ERROR), and one line per non-internal collection |
| MigrationApp.RestartCreatesNewClient | app/src/main/java/live/ditto/dittomigrationandroid/DittoMigrationApplication.kt:69-75 | a restart keeps the earlier calls, closes the old client first, and creates the new deployment's client two calls later |
| MigrationApp.ClientsShareStorage | app/src/main/java/live/ditto/dittomigrationandroid/DittoMigrationApplication.kt:109-111 | the start-up client and the restart client are created in the same persistence directory |

## Left out

- The sync client library. This covers client construction, identity,
  transport, `startSync`, `close`, `registerSubscription`, `execute` and the
  observers. Each of these is only an event in the trace.
- What the library does with the data. This includes the contents of the
  `__collections` rows: the `as String` cast is assumed to succeed, and the
  rows enter the model as a list of names.
- Coroutines and flow delivery. The button actions launch their work in the
  background, so each action is modelled as its immediate state change plus a
  `Request`, not as the work completing.
- StateFlow de-duplication. `LogUtil` republishes the same list instance, so a
  real collector may never see a new value. Reading the code, the screen can
  still update, because `UiState.logMessages` holds that same live snapshot
  list. The model treats the published value as equal to the internal list.
- Android `Log.d` / `Log.e` output. It is a side channel and is not part of
  the app's state.
- `trimIndent`. The three multi-line messages are modelled as the text
  `trimIndent` yields when the interpolated values contain no line breaks.
- ViewModel.GatedRequestsArePrefix: assumes the screen is recomposed with the
  new button flags before the next press. The `enabled` flag a button reads is
  the last composed state, so two quick taps before recomposition could call
  `startSubscriptions` twice and launch the subscription work twice.
- Client calls that throw. Every client call is assumed to return normally.
  In the source a throwing call ends the operation at that call: for example
  a collection name that is not a plain identifier makes the unquoted
  `SELECT * FROM <name>` query fail (DittoMigrationApplication.kt:58), and
  `execute` (:159), `startSync` (:140) and the client constructor (:125) can
  throw too. MigrationApp.SubscribeEach, MigrationApp.SubscribeToAllCollections
  and MigrationApp.RestartTrace describe the run in which no call throws.
- Interleaving between operations. Each application operation is modelled as
  running uninterrupted, from its first log line to its last call. In the
  source, presence callbacks (the log lines at DittoMigrationApplication.kt:143
  and :148) and other launched work, such as an overlapping restart that
  reassigns `ditto` (DataMigrationViewModel.kt:56 and :58), can add log lines
  and client calls while `execute` (:159) is suspended.
- The order between log lines and client calls. The log and the trace are
  separate sequences, so the model fixes the order within each of them but
  not how a log line interleaves with a client call.
- DiskUsage.TruncDiv: sizes are unbounded integers, not 32-bit `Int`s.
  Division by 2^20 cannot overflow, and the sizes come from the library.
- The Compose screen layout and its auto-scroll, `MainActivity` permissions
  and lifecycle, and the Gradle loading of the property files. These are UI,
  platform and build concerns. The view's rule that a disabled button ignores
  presses is modelled (`ViewModel.GatedStep`).
- The persistence directory is modelled by its name, `"ditto_migration"`. The
  model does not model that it sits under the app's files directory.
