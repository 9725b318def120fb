/** `LogUtil`: an append-only list of log messages together with the value it
    publishes to observers. */
module Logging {

  /** The two severities a message can carry. */
  datatype LogLevel = Debug | Error

  datatype LogMessage = LogMessage(level: LogLevel, message: string)

  /** The internal list and the value currently published on the flow. */
  datatype LogUtil = LogUtil(messages: seq<LogMessage>, published: seq<LogMessage>)

  /** Observers see exactly the internal list. */
  predicate Published(l: LogUtil) {
    l.published == l.messages
  }

  /** A fresh `LogUtil`: nothing logged, and the flow starts out publishing
      the (empty) list. */
  function NewLogUtil(): (l: LogUtil)
    ensures |l.messages| == 0 && Published(l)
  {
    LogUtil([], [])
  }

  /** Every message carries one of exactly two levels. */
  lemma LevelIsDebugOrError(m: LogMessage)
    ensures m.level == Debug || m.level == Error
  {
  }

  /** `updateFlow`: republish the whole internal list. */
  function UpdateFlow(l: LogUtil): (l': LogUtil)
    ensures Published(l') && l'.messages == l.messages
  {
    l.(published := l.messages)
  }

  /** The common body of `logDebug` and `logError`: append one message, then
      republish. */
  function Append(l: LogUtil, level: LogLevel, message: string): (l': LogUtil)
    ensures |l'.messages| == |l.messages| + 1
    ensures l'.messages[..|l.messages|] == l.messages
    ensures l'.messages[|l.messages|] == LogMessage(level, message)
    ensures Published(l')
  {
    UpdateFlow(l.(messages := l.messages + [LogMessage(level, message)]))
  }

  /** `logDebug(message)`: one more entry, at the end, at level DEBUG. */
  function LogDebug(l: LogUtil, message: string): (l': LogUtil)
    ensures |l'.messages| == |l.messages| + 1
    ensures l'.messages[..|l.messages|] == l.messages
    ensures l'.messages[|l.messages|] == LogMessage(Debug, message)
    ensures Published(l')
  {
    Append(l, Debug, message)
  }

  /** `logError(message)`: one more entry, at the end, at level ERROR. */
  function LogError(l: LogUtil, message: string): (l': LogUtil)
    ensures |l'.messages| == |l.messages| + 1
    ensures l'.messages[..|l.messages|] == l.messages
    ensures l'.messages[|l.messages|] == LogMessage(Error, message)
    ensures Published(l')
  {
    Append(l, Error, message)
  }

  /** A call on the logger, for reasoning about sequences of calls. */
  datatype LogCall = DebugCall(text: string) | ErrorCall(text: string)

  function Entry(c: LogCall): LogMessage {
    match c
    case DebugCall(t) => LogMessage(Debug, t)
    case ErrorCall(t) => LogMessage(Error, t)
  }

  function Perform(l: LogUtil, c: LogCall): LogUtil {
    match c
    case DebugCall(t) => LogDebug(l, t)
    case ErrorCall(t) => LogError(l, t)
  }

  function PerformAll(l: LogUtil, calls: seq<LogCall>): LogUtil
    decreases |calls|
  {
    if |calls| == 0 then l else PerformAll(Perform(l, calls[0]), calls[1..])
  }

  /** The entries a sequence of calls produces, in call order. */
  function Entries(calls: seq<LogCall>): (es: seq<LogMessage>)
    ensures |es| == |calls|
    ensures forall i :: 0 <= i < |calls| ==> es[i] == Entry(calls[i])
  {
    seq(|calls|, i requires 0 <= i < |calls| => Entry(calls[i]))
  }

  /** Any run of log calls appends exactly one entry per call, in call order,
      never changes an earlier entry, and leaves the flow publishing the list
      (when it published it before the run, or the run is not empty). */
  lemma {:induction false} PerformAllAppends(l: LogUtil, calls: seq<LogCall>)
    ensures PerformAll(l, calls).messages == l.messages + Entries(calls)
    ensures Published(l) || |calls| > 0 ==> Published(PerformAll(l, calls))
    decreases |calls|
  {
    if |calls| > 0 {
      var l1 := Perform(l, calls[0]);
      assert l1.messages == l.messages + [Entry(calls[0])];
      PerformAllAppends(l1, calls[1..]);
      assert Entries(calls) == [Entry(calls[0])] + Entries(calls[1..]);
    }
  }

  /** From a fresh logger, the log is exactly the entries of the calls made. */
  lemma LogFromStart(calls: seq<LogCall>)
    ensures PerformAll(NewLogUtil(), calls).messages == Entries(calls)
    ensures Published(PerformAll(NewLogUtil(), calls))
  {
    PerformAllAppends(NewLogUtil(), calls);
  }
}
