/**
 * Preparing, executing and finalizing one tool call
 * (packages/agent/src/tool-execution.ts).  Tools, hooks and the abort signal are
 * oracles: a script says what each of them answers for a call.
 */
module ToolExecution {
  import opened Base
  import opened AgentTypes

  datatype BeforeHook =
    | NoBefore
    | Allows
    | Blocks(reason: Option<nat>, terminate: Option<bool>)
    | BeforeThrows(error: nat)

  datatype AfterHook =
    | NoAfter
    | Keeps
    | Overrides(content: Option<Body>, details: Option<nat>, usage: Option<nat>, terminate: Option<bool>,
        isError: Option<bool>)
    | AfterThrows(error: nat)

  datatype ToolRun = Returns(result: ToolResult) | RunThrows(error: nat)

  /**
   * One call's script.  The tool invokes its update callback with `callbacks`, the
   * first `settledAfter` of them before its promise settles, the rest too late.
   */
  datatype CallScript = CallScript(
    found: bool, sequentialTool: bool, argumentError: Option<nat>, before: BeforeHook, abortedAtPrepare: bool,
    callbacks: seq<nat>, settledAfter: nat, run: ToolRun, after: AfterHook, abortedAfter: bool)

  datatype Preparation = Immediate(result: ToolResult, isError: bool) | Prepared

  datatype Finalized = Finalized(call: ToolCall, result: ToolResult, isError: bool)

  function ErrorResult(body: Body): ToolResult {
    ToolResult(body, 0, None, None)
  }

  function Prepare(call: ToolCall, s: CallScript): Preparation {
    if !s.found then Immediate(ErrorResult(NotFound(call.name)), true)
    else if s.argumentError.Some? then Immediate(ErrorResult(Thrown(s.argumentError.value)), true)
    else if s.before.BeforeThrows? then Immediate(ErrorResult(Thrown(s.before.error)), true)
    else if s.abortedAtPrepare then Immediate(ErrorResult(OperationAborted), true)
    else if s.before.Blocks? then
      Immediate(ErrorResult(Blocked(s.before.reason)).(
                  terminate := if s.before.terminate == Some(true) then Some(true) else None), true)
    else Prepared
  }

  /** The updates that reach the event stream: those before the tool settles. */
  function Accepted(s: CallScript): seq<nat> {
    if s.settledAfter < |s.callbacks| then s.callbacks[..s.settledAfter] else s.callbacks
  }

  function Executed(s: CallScript): (ToolResult, bool) {
    match s.run
    case Returns(result) => (result, false)
    case RunThrows(error) => (ErrorResult(Thrown(error)), true)
  }

  function OrElse<T>(override: Option<T>, original: Option<T>): Option<T> {
    if override.Some? then override else original
  }

  /** The after hook replaces what it sets, or fails the call. */
  function FinalizeExecuted(call: ToolCall, s: CallScript, result: ToolResult, isError: bool): (r: Finalized)
    ensures r.call == call
  {
    match s.after
    case Overrides(content, details, usage, terminate, overrideError) =>
      Finalized(call,
                ToolResult(if content.Some? then content.value else result.content,
                           if details.Some? then details.value else result.details,
                           OrElse(usage, result.usage), OrElse(terminate, result.terminate)),
                if overrideError.Some? then overrideError.value else isError)
    case AfterThrows(error) => Finalized(call, ErrorResult(Thrown(error)), true)
    case _ => Finalized(call, result, isError)
  }

  function Finalize(call: ToolCall, s: CallScript): (r: Finalized)
    ensures r.call == call
  {
    FinalizeExecuted(call, s, Executed(s).0, Executed(s).1)
  }

  /** What a call comes to: its preparation's outcome, or its finalized execution. */
  function Outcome(call: ToolCall, s: CallScript): (r: Finalized)
    ensures r.call == call
  {
    match Prepare(call, s)
    case Immediate(result, isError) => Finalized(call, result, isError)
    case Prepared => Finalize(call, s)
  }

  function Updates(call: ToolCall, s: CallScript): seq<nat> {
    if Prepare(call, s).Prepared? then Accepted(s) else []
  }

  function ResultMessage(f: Finalized): ToolResultMessage {
    ToolResultMessage(f.call.id, f.call.name, f.result.content, f.result.details, f.result.usage, f.isError)
  }

  /** A batch ends the run early only if it has calls and every one asks for it. */
  predicate TerminatesBatch(finalized: seq<Finalized>) {
    finalized != [] && forall k :: 0 <= k < |finalized| ==> finalized[k].result.terminate == Some(true)
  }

  function EndEvent(f: Finalized): Event {
    ToolEnd(f.call.id, f.call.name, f.result, f.isError)
  }

  function UpdateEvents(call: ToolCall, updates: seq<nat>): seq<Event>
  {
    seq(|updates|, k requires 0 <= k < |updates| => ToolUpdate(call, updates[k]))
  }

  /** A call's own events: start, accepted updates, end. */
  function CallEvents(call: ToolCall, s: CallScript): seq<Event>
  {
    [ToolStart(call)] + UpdateEvents(call, Updates(call, s)) + [EndEvent(Outcome(call, s))]
  }

  /** A blocked or failed call never runs its tool, and only a blocking hook can make it terminate. */
  lemma ImmediateOutcome(call: ToolCall, s: CallScript)
    requires Prepare(call, s).Immediate?
    ensures Updates(call, s) == [] && Outcome(call, s).isError
    ensures Outcome(call, s).result.terminate.Some? <==>
              s.found && s.argumentError.None? && !s.abortedAtPrepare && s.before.Blocks?
                  && s.before.terminate == Some(true)
  {
  }

  /** Which error a call that does not run its tool comes back with: the first obstacle decides. */
  lemma ObstacleOutcome(call: ToolCall, s: CallScript)
    ensures !s.found ==> Fails(call, s, NotFound(call.name))
    ensures s.found && s.argumentError.Some? ==> Fails(call, s, Thrown(s.argumentError.value))
    ensures s.found && s.argumentError.None? && s.before.BeforeThrows? ==> Fails(call, s, Thrown(s.before.error))
    ensures s.found && s.argumentError.None? && !s.before.BeforeThrows? && s.abortedAtPrepare ==>
              Fails(call, s, OperationAborted)
    ensures s.found && s.argumentError.None? && s.before.Blocks? && !s.abortedAtPrepare ==>
              Fails(call, s, Blocked(s.before.reason))
  {
  }

  /** The call comes back as an error with this text and nothing of its tool. */
  predicate Fails(call: ToolCall, s: CallScript, body: Body) {
    var f := Outcome(call, s);
    f.isError && f.result.content == body && f.result.details == 0 && f.result.usage == None && Updates(call, s) == []
  }

  /** Nothing keeps the tool from running. */
  predicate Runs(s: CallScript) {
    && s.found && s.argumentError.None? && !s.abortedAtPrepare && !s.before.BeforeThrows? && !s.before.Blocks?
  }

  /** A call whose tool runs comes back with what the tool returned, as far as the after hook leaves it alone. */
  lemma RunOutcome(call: ToolCall, s: CallScript)
    requires Runs(s)
    ensures var f := Outcome(call, s);
      var (ran, failed) := match s.run case Returns(r) => (r, false)
                                       case RunThrows(e) => (ToolResult(Thrown(e), 0, None, None), true);
      match s.after
      case NoAfter => f.result == ran && f.isError == failed
      case Keeps => f.result == ran && f.isError == failed
      case AfterThrows(e) => f.result == ToolResult(Thrown(e), 0, None, None) && f.isError
      case Overrides(content, details, usage, terminate, isError) =>
        && (if content.Some? then f.result.content == content.value else f.result.content == ran.content)
        && (if details.Some? then f.result.details == details.value else f.result.details == ran.details)
        && (if usage.Some? then f.result.usage == usage else f.result.usage == ran.usage)
        && (if terminate.Some? then f.result.terminate == terminate else f.result.terminate == ran.terminate)
        && (if isError.Some? then f.isError == isError.value else f.isError == failed)
    ensures |Updates(call, s)| == Min(s.settledAfter, |s.callbacks|)
    ensures forall k :: 0 <= k < |Updates(call, s)| ==> Updates(call, s)[k] == s.callbacks[k]
  {
  }

  /** A call starts once, first, and ends once, last; only its accepted updates come between. */
  lemma CallEventsShape(call: ToolCall, s: CallScript, k: nat)
    requires k < |CallEvents(call, s)|
    ensures |CallEvents(call, s)| == |Updates(call, s)| + 2
    ensures CallEvents(call, s)[k].ToolStart? <==> k == 0
    ensures CallEvents(call, s)[k].ToolEnd? <==> k == |CallEvents(call, s)| - 1
    ensures CallEvents(call, s)[k].ToolUpdate? ==>
              1 <= k <= s.settledAfter && k <= |s.callbacks|
                  && CallEvents(call, s)[k] == ToolUpdate(call, s.callbacks[k - 1])
    ensures CallEvents(call, s)[0] == ToolStart(call)
    ensures var f := Outcome(call, s);
      CallEvents(call, s)[|CallEvents(call, s)|-1] == ToolEnd(call.id, call.name, f.result, f.isError)
  {
  }

  /** A result and the event before it report the same outcome. */
  lemma ResultSays(f: Finalized)
    ensures EndEvent(f) == ToolEnd(f.call.id, f.call.name, f.result, f.isError)
    ensures ResultMessage(f) == ToolResultMessage(f.call.id, f.call.name, f.result.content, f.result.details,
                                                  f.result.usage, f.isError)
  {
  }
}
