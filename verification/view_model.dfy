/** `DataMigrationViewModel`: the screen state, the two button actions and the
    two flow-driven updates, plus the view's rule that a disabled button
    cannot be pressed. */
module ViewModel {
  import opened Logging
  import opened DiskUsage

  datatype UiState = UiState(
    enableStartSubscriptionsButton: bool,
    enableRestartSubscriptionsButton: bool,
    logMessages: seq<LogMessage>,
    diskUsageMetrics: DiskUsageMetrics)

  /** The work a button action launches on the application, in the background. */
  datatype Request = SubscribeToAllCollections | RestartDittoWithNewAppId

  /** What the screen receives: a press of either button, or a new value on
      the log flow or on the disk-usage flow. */
  datatype UiEvent =
    | StartPressed
    | RestartPressed
    | LogsEmitted(logs: seq<LogMessage>)
    | DiskUsageEmitted(metrics: DiskUsageMetrics)

  /** A new state and the requests launched on the way to it. */
  datatype Transition = Transition(state: UiState, requests: seq<Request>)

  /** The default-constructed `UiState`. */
  function InitialUiState(): (s: UiState)
    ensures s.enableStartSubscriptionsButton && !s.enableRestartSubscriptionsButton
    ensures |s.logMessages| == 0
    ensures s.diskUsageMetrics.storeSizeInMb == 0 && s.diskUsageMetrics.replicationSizeInMb == 0
  {
    UiState(true, false, [], ZeroMetrics())
  }

  /** `startSubscriptions`: launch the subscription work, disable start and
      enable restart; logs and metrics stay as they are. */
  function StartSubscriptions(s: UiState): (t: Transition)
    ensures !t.state.enableStartSubscriptionsButton && t.state.enableRestartSubscriptionsButton
    ensures t.state.logMessages == s.logMessages && t.state.diskUsageMetrics == s.diskUsageMetrics
    ensures t.requests == [SubscribeToAllCollections]
  {
    Transition(s.(enableStartSubscriptionsButton := false, enableRestartSubscriptionsButton := true),
               [SubscribeToAllCollections])
  }

  /** `restartSubscriptionsWithNewApp`: launch the restart and disable restart;
      the start flag, logs and metrics stay as they are. */
  function RestartSubscriptionsWithNewApp(s: UiState): (t: Transition)
    ensures !t.state.enableRestartSubscriptionsButton
    ensures t.state.enableStartSubscriptionsButton == s.enableStartSubscriptionsButton
    ensures t.state.logMessages == s.logMessages && t.state.diskUsageMetrics == s.diskUsageMetrics
    ensures t.requests == [RestartDittoWithNewAppId]
  {
    Transition(s.(enableRestartSubscriptionsButton := false), [RestartDittoWithNewAppId])
  }

  /** A value on the log flow replaces the shown log and nothing else. */
  function OnLogMessages(s: UiState, logs: seq<LogMessage>): (s': UiState)
    ensures s'.logMessages == logs
    ensures s'.enableStartSubscriptionsButton == s.enableStartSubscriptionsButton
    ensures s'.enableRestartSubscriptionsButton == s.enableRestartSubscriptionsButton
    ensures s'.diskUsageMetrics == s.diskUsageMetrics
  {
    s.(logMessages := logs)
  }

  /** A value on the disk-usage flow replaces the shown metrics and nothing else. */
  function OnDiskUsageMetrics(s: UiState, m: DiskUsageMetrics): (s': UiState)
    ensures s'.diskUsageMetrics == m
    ensures s'.enableStartSubscriptionsButton == s.enableStartSubscriptionsButton
    ensures s'.enableRestartSubscriptionsButton == s.enableRestartSubscriptionsButton
    ensures s'.logMessages == s.logMessages
  {
    s.(diskUsageMetrics := m)
  }

  /** One event handled by the view model, whatever the button flags say. */
  function Step(s: UiState, e: UiEvent): Transition {
    match e
    case StartPressed => StartSubscriptions(s)
    case RestartPressed => RestartSubscriptionsWithNewApp(s)
    case LogsEmitted(logs) => Transition(OnLogMessages(s, logs), [])
    case DiskUsageEmitted(m) => Transition(OnDiskUsageMetrics(s, m), [])
  }

  /** One event as the screen delivers it: a press on a disabled button is
      swallowed by the button itself. */
  function GatedStep(s: UiState, e: UiEvent): (t: Transition)
    ensures e.StartPressed? && !s.enableStartSubscriptionsButton ==> t == Transition(s, [])
    ensures e.RestartPressed? && !s.enableRestartSubscriptionsButton ==> t == Transition(s, [])
    ensures e.StartPressed? && s.enableStartSubscriptionsButton ==> t == StartSubscriptions(s)
    ensures e.RestartPressed? && s.enableRestartSubscriptionsButton ==> t == RestartSubscriptionsWithNewApp(s)
    ensures e.LogsEmitted? || e.DiskUsageEmitted? ==> t == Step(s, e) && t.requests == []
  {
    match e
    case StartPressed =>
      if s.enableStartSubscriptionsButton then StartSubscriptions(s) else Transition(s, [])
    case RestartPressed =>
      if s.enableRestartSubscriptionsButton then RestartSubscriptionsWithNewApp(s) else Transition(s, [])
    case _ => Step(s, e)
  }

  function Run(s: UiState, es: seq<UiEvent>, gated: bool): Transition
    decreases |es|
  {
    if |es| == 0 then Transition(s, [])
    else
      var t := if gated then GatedStep(s, es[0]) else Step(s, es[0]);
      var rest := Run(t.state, es[1..], gated);
      Transition(rest.state, t.requests + rest.requests)
  }

  /** The two buttons are never enabled together. */
  predicate ButtonsExclusive(s: UiState) {
    !(s.enableStartSubscriptionsButton && s.enableRestartSubscriptionsButton)
  }

  /** Every event, gated or not, keeps the buttons exclusive. */
  lemma {:induction false} RunKeepsButtonsExclusive(s: UiState, es: seq<UiEvent>, gated: bool)
    requires ButtonsExclusive(s)
    ensures ButtonsExclusive(Run(s, es, gated).state)
    decreases |es|
  {
    if |es| > 0 {
      var t := if gated then GatedStep(s, es[0]) else Step(s, es[0]);
      RunKeepsButtonsExclusive(t.state, es[1..], gated);
    }
  }

  /** In every state reachable from the initial one, start and restart are
      not both enabled. */
  lemma ReachableButtonsExclusive(es: seq<UiEvent>, gated: bool)
    ensures ButtonsExclusive(Run(InitialUiState(), es, gated).state)
  {
    RunKeepsButtonsExclusive(InitialUiState(), es, gated);
  }

  /** Once the start button is disabled, nothing enables it again. */
  lemma {:induction false} StartStaysDisabled(s: UiState, es: seq<UiEvent>, gated: bool)
    requires !s.enableStartSubscriptionsButton
    ensures !Run(s, es, gated).state.enableStartSubscriptionsButton
    decreases |es|
  {
    if |es| > 0 {
      var t := if gated then GatedStep(s, es[0]) else Step(s, es[0]);
      StartStaysDisabled(t.state, es[1..], gated);
    }
  }

  /** Where the buttons stand in the screen's own use: fresh, after start,
      or after restart. */
  predicate Phase(s: UiState, issued: seq<Request>) {
    || (issued == [] && s.enableStartSubscriptionsButton && !s.enableRestartSubscriptionsButton)
    || (issued == [SubscribeToAllCollections]
        && !s.enableStartSubscriptionsButton && s.enableRestartSubscriptionsButton)
    || (issued == [SubscribeToAllCollections, RestartDittoWithNewAppId]
        && !s.enableStartSubscriptionsButton && !s.enableRestartSubscriptionsButton)
  }

  lemma {:induction false} GatedRunPhases(s: UiState, issued: seq<Request>, es: seq<UiEvent>)
    requires Phase(s, issued)
    ensures Phase(Run(s, es, true).state, issued + Run(s, es, true).requests)
    decreases |es|
  {
    if |es| > 0 {
      var t := GatedStep(s, es[0]);
      assert Phase(t.state, issued + t.requests);
      GatedRunPhases(t.state, issued + t.requests, es[1..]);
      assert issued + t.requests + Run(t.state, es[1..], true).requests
          == issued + (t.requests + Run(t.state, es[1..], true).requests);
    }
  }

  /** Through the screen, subscribing is requested at most once, restarting at
      most once, and restarting only after subscribing: the requests of any
      run are a prefix of [subscribe, restart]. */
  lemma GatedRequestsArePrefix(es: seq<UiEvent>)
    ensures Run(InitialUiState(), es, true).requests <= [SubscribeToAllCollections, RestartDittoWithNewAppId]
  {
    GatedRunPhases(InitialUiState(), [], es);
    assert [] + Run(InitialUiState(), es, true).requests == Run(InitialUiState(), es, true).requests;
  }
}
