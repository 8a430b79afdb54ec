/**
 * Executing the tool calls of one assistant message: truncated, one after the other,
 * or in parallel (packages/agent/src/agent-loop.ts).
 */
module ToolBatch {
  import opened Base
  import opened AgentTypes
  import opened EventWord
  import opened ToolExecution
  import opened LiveState

  /** Every event of a batch, with the source position of the call it belongs to. */
  type Log = seq<(nat, Event)>

  ghost function Untag(log: Log): seq<Event>
  {
    seq(|log|, k requires 0 <= k < |log| => log[k].1)
  }

  predicate IsToolEvent(e: Event) {
    e.ToolStart? || e.ToolUpdate? || e.ToolEnd?
  }

  /** The tool events of the call at position `i`, in the order they were emitted. */
  ghost function Project(log: Log, i: nat): seq<Event> {
    if log == [] then []
    else Project(log[..|log|-1], i) +
         (if log[|log|-1].0 == i && IsToolEvent(log[|log|-1].1) then [log[|log|-1].1] else [])
  }

  /** `log` extends `log0` by event `e` of the call at position `tag`. */
  ghost predicate Extends(log: Log, log0: Log, tag: nat, e: Event) {
    && Untag(log) == Untag(log0) + [e]
    && forall i: nat :: Project(log, i) == Project(log0, i) + (if tag == i && IsToolEvent(e) then [e] else [])
  }

  lemma LogSnoc(log: Log, tag: nat, e: Event)
    ensures Extends(log + [(tag, e)], log, tag, e)
  {
    assert (log + [(tag, e)])[..|log|] == log;
  }

  /** `log` extends `log0` by events of the call at position `tag` only, and these are they. */
  ghost predicate Adds(log: Log, log0: Log, tag: nat, events: seq<Event>) {
    && log0 <= log && (forall k :: |log0| <= k < |log| ==> log[k].0 == tag)
    && Untag(log) == Untag(log0) + events
  }

  lemma AddsNothing(log: Log, tag: nat)
    ensures Adds(log, log, tag, [])
  {
    assert Untag(log) + [] == Untag(log);
  }

  lemma AddsOne(log: Log, tag: nat, e: Event)
    ensures Adds(log + [(tag, e)], log, tag, [e])
  {
  }

  lemma AddsMore(log0: Log, first: seq<Event>, log1: Log, second: seq<Event>, log: Log, tag: nat)
    requires Adds(log1, log0, tag, first) && Adds(log, log1, tag, second)
    ensures Adds(log, log0, tag, first + second)
  {
    assert Untag(log0) + (first + second) == Untag(log0) + first + second;
    forall k | |log0| <= k < |log| ensures log[k].0 == tag {
      if k < |log1| { assert log[k] == log1[k]; }
    }
  }

  /** All events of a call come before any of a later one. */
  ghost predicate InOrder(log: Log) {
    forall i, j :: 0 <= i < j < |log| ==> log[i].0 <= log[j].0
  }

  /** The log is in order and has reached the call at position `n`. */
  ghost predicate InOrderBelow(log: Log, n: nat) {
    InOrder(log) && forall k :: 0 <= k < |log| ==> log[k].0 < n
  }

  lemma InOrderMore(log: Log, log0: Log, n: nat, events: seq<Event>)
    requires InOrderBelow(log0, n) && Adds(log, log0, n, events)
    ensures InOrderBelow(log, n + 1)
  {
    assert forall k :: 0 <= k < |log0| ==> log[k] == log0[k];
  }

  /** What the state object has seen since `start` is the log. */
  ghost predicate Logged(state: AgentStateCell, start: seq<Event>, log: Log)
    reads state
  {
    state.Valid() && state.events == start + Untag(log)
  }

  /** A turn whose assistant message has ended and whose tools have not started. */
  predicate ReadyForBatch(w: Tracker) {
    !w.Bad? && w.phase.InTurn? && w.open.None? && w.running == multiset{} && w.started == []
  }

  /** The word after a batch with these results. */
  function AfterBatch(w: Tracker, results: seq<ToolResultMessage>): (v: Tracker)
    requires !w.Bad?
    ensures v.Tracker?
  {
    w.(all := w.all + ResultMessages(results), turn := w.turn + ResultMessages(results), started := ResultIds(results))
  }

  function Outcomes(calls: seq<ToolCall>, script: nat -> CallScript, n: nat): seq<Finalized>
    requires n <= |calls|
  {
    seq(n, k requires 0 <= k < n => Outcome(calls[k], script(k)))
  }

  function Results(calls: seq<ToolCall>, script: nat -> CallScript, n: nat): seq<ToolResultMessage>
    requires n <= |calls|
  {
    seq(n, k requires 0 <= k < n => ResultMessage(Outcome(calls[k], script(k))))
  }

  predicate NoneAborted(script: nat -> CallScript, n: nat) {
    forall k: nat :: k < n ==> !script(k).abortedAfter
  }

  /** The batch handles the calls up to the first one after which the signal is aborted. */
  ghost predicate IsCut(calls: seq<ToolCall>, script: nat -> CallScript, n: nat) {
    && n <= |calls|
    && (n == 0 || NoneAborted(script, n - 1))
    && (n < |calls| ==> n > 0 && script(n - 1).abortedAfter)
  }

  /** How the loops over the calls keep track of the cut. */
  ghost predicate Cutting(calls: seq<ToolCall>, script: nat -> CallScript, n: nat, cut: bool) {
    if cut then 0 < n <= |calls| && NoneAborted(script, n - 1) && script(n - 1).abortedAfter
    else n <= |calls| && NoneAborted(script, n)
  }

  lemma CuttingStep(calls: seq<ToolCall>, script: nat -> CallScript, n: nat)
    requires n < |calls| && Cutting(calls, script, n, false)
    ensures Cutting(calls, script, n + 1, script(n).abortedAfter)
  {
  }

  lemma CuttingDone(calls: seq<ToolCall>, script: nat -> CallScript, n: nat, cut: bool)
    requires Cutting(calls, script, n, cut) && (n == |calls| || cut)
    ensures IsCut(calls, script, n)
  {
  }

  lemma CutIsUnique(calls: seq<ToolCall>, script: nat -> CallScript, m: nat, n: nat)
    requires IsCut(calls, script, m) && IsCut(calls, script, n)
    ensures m == n
  {
    var least := if m < n then m else n;
    assert least < |calls| ==> least > 0 && script(least - 1).abortedAfter;
  }

  /** The log holds exactly the events of the first `n` calls, each call's in its own order. */
  ghost predicate Handled(log: Log, calls: seq<ToolCall>, script: nat -> CallScript, n: nat)
    requires n <= |calls|
  {
    && (forall i :: 0 <= i < n ==> Project(log, i) == CallEvents(calls[i], script(i)))
    && (forall i: nat :: n <= i ==> Project(log, i) == [])
  }

  /** What both execution modes promise about their results, flag and events. */
  ghost predicate BatchDone(calls: seq<ToolCall>, script: nat -> CallScript, results: seq<ToolResultMessage>,
      terminate: bool, log: Log) {
    && IsCut(calls, script, |results|)
    && results == Results(calls, script, |results|)
    && terminate == TerminatesBatch(Outcomes(calls, script, |results|))
    && Handled(log, calls, script, |results|)
  }

  /**
   * Any two executions of the same calls agree: same results in the same order, same
   * flag, and the same events of each call.
   */
  lemma BatchesAgree(calls: seq<ToolCall>, script: nat -> CallScript, r1: seq<ToolResultMessage>, t1: bool, log1: Log,
      r2: seq<ToolResultMessage>, t2: bool, log2: Log)
    requires BatchDone(calls, script, r1, t1, log1) && BatchDone(calls, script, r2, t2, log2)
    ensures r1 == r2 && t1 == t2 && forall i: nat :: Project(log1, i) == Project(log2, i)
  {
    CutIsUnique(calls, script, |r1|, |r2|);
  }

  lemma ResultsSnoc(results: seq<ToolResultMessage>, r: ToolResultMessage)
    ensures ResultMessages(results + [r]) == ResultMessages(results) + [Result(r)]
    ensures ResultIds(results + [r]) == ResultIds(results) + [r.toolCallId]
  {
  }

  lemma HandledStep(log: Log, log0: Log, calls: seq<ToolCall>, script: nat -> CallScript, n: nat)
    requires n < |calls| && Handled(log0, calls, script, n)
    requires Project(log, n) == CallEvents(calls[n], script(n))
    requires forall i: nat :: i != n ==> Project(log, i) == Project(log0, i)
    ensures Handled(log, calls, script, n + 1)
  {
    hide Project, CallEvents;
  }

  lemma NothingYet(state: AgentStateCell, calls: seq<ToolCall>, script: nat -> CallScript)
    requires state.Valid()
    ensures Logged(state, state.events, [])
    ensures Handled([], calls, script, 0) && Cutting(calls, script, 0, false)
    ensures Outcomes(calls, script, 0) == [] && Results(calls, script, 0) == []
  {
    assert state.events + [] == state.events;
  }

  lemma DoneAt(calls: seq<ToolCall>, script: nat -> CallScript, n: nat, log: Log)
    requires n <= |calls| && IsCut(calls, script, n) && Handled(log, calls, script, n)
    ensures |Results(calls, script, n)| == n
    ensures BatchDone(calls, script, Results(calls, script, n), TerminatesBatch(Outcomes(calls, script, n)), log)
  {
    hide Handled, IsCut, TerminatesBatch, Outcome;
  }

  lemma NotHandled(log: Log, calls: seq<ToolCall>, script: nat -> CallScript, n: nat)
    requires n <= |calls| && Handled(log, calls, script, n)
    ensures Project(log, n) == []
  {
  }

  lemma OutcomesStep(calls: seq<ToolCall>, script: nat -> CallScript, n: nat)
    requires n < |calls|
    ensures Outcomes(calls, script, n + 1) == Outcomes(calls, script, n) + [Outcome(calls[n], script(n))]
    ensures Results(calls, script, n + 1) == Results(calls, script, n) + [ResultMessage(Outcome(calls[n], script(n)))]
  {
    hide Outcome, ResultMessage;
  }

  lemma AfterBatchStep(w: Tracker, results: seq<ToolResultMessage>, r: ToolResultMessage)
    requires !w.Bad?
    ensures var v := AfterBatch(w, results);
      AfterBatch(w, results + [r]) ==
      v.(started := v.started + [r.toolCallId], all := v.all + [Result(r)], turn := v.turn + [Result(r)])
  {
    ResultsSnoc(results, r);
    var rs := ResultMessages(results);
    assert w.all + (rs + [Result(r)]) == w.all + rs + [Result(r)];
    assert w.turn + (rs + [Result(r)]) == w.turn + rs + [Result(r)];
  }

  lemma AfterBatchQuiet(w: Tracker, results: seq<ToolResultMessage>)
    requires ReadyForBatch(w)
    ensures var v := AfterBatch(w, results);
      v.phase.InTurn? && v.open.None? && v.running == multiset{} && v.started == ResultIds(results)
  {
  }

  lemma AfterBatchInit(w: Tracker)
    requires ReadyForBatch(w)
    ensures AfterBatch(w, []) == w
  {
    assert w.all + ResultMessages([]) == w.all && w.turn + ResultMessages([]) == w.turn;
  }

  // ------------------------------------------------------------------
  // Pieces shared by the modes
  // ------------------------------------------------------------------

  /** Emits one event of the call at position `tag`. */
  method Emit(state: AgentStateCell, e: Event, ghost tag: nat, ghost start: seq<Event>, ghost log0: Log)
    returns (ghost log: Log)
    requires Logged(state, start, log0)
    modifies state
    ensures Logged(state, start, log) && state.base == old(state.base) && state.isStreaming == old(state.isStreaming)
    ensures Scan(state.events) == Track(old(Scan(state.events)), e)
    ensures Extends(log, log0, tag, e) && Adds(log, log0, tag, [e])
    ensures NeverEndsTwin(state.events) == (old(NeverEndsTwin(state.events)) && !EndsTwin(old(Scan(state.events)), e))
  {
    hide Scan, ReduceAll, Project, Track, NeverEndsTwin, EndsTwin;
    state.ProcessEvents(e);
    LogSnoc(log0, tag, e);
    AddsOne(log0, tag, e);
    log := log0 + [(tag, e)];
    assert start + (Untag(log0) + [e]) == start + Untag(log0) + [e];
  }

  /** `executePreparedToolCall`: updates are accepted until the tool settles. */
  method ExecutePrepared(state: AgentStateCell, call: ToolCall, s: CallScript, ghost tag: nat, ghost start: seq<Event>,
      ghost log0: Log)
    returns (result: ToolResult, isError: bool, ghost log: Log)
    requires Logged(state, start, log0)
    requires var w := Scan(state.events); !w.Bad? && w.phase.InTurn? && w.open.None? && call.id in w.running
    modifies state
    ensures Logged(state, start, log) && state.base == old(state.base) && state.isStreaming == old(state.isStreaming)
    ensures Scan(state.events) == old(Scan(state.events))
    ensures (result, isError) == Executed(s)
    ensures Project(log, tag) == Project(log0, tag) + UpdateEvents(call, Accepted(s))
    ensures Adds(log, log0, tag, UpdateEvents(call, Accepted(s)))
    ensures forall i: nat :: i != tag ==> Project(log, i) == Project(log0, i)
    ensures NeverEndsTwin(state.events) == old(NeverEndsTwin(state.events))
  {
    hide Scan, ReduceAll, Project, NeverEndsTwin, Adds;
    log := log0;
    AddsNothing(log0, tag);
    var acceptingUpdates := true;
    var i := 0;
    ghost var emitted: seq<nat> := [];
    while i < |s.callbacks|
      invariant 0 <= i <= |s.callbacks|
      invariant acceptingUpdates <==> i <= s.settledAfter
      invariant emitted == s.callbacks[..if i <= s.settledAfter then i else s.settledAfter]
      invariant Logged(state, start, log) && state.base == old(state.base)
          && state.isStreaming == old(state.isStreaming)
      invariant Scan(state.events) == old(Scan(state.events))
      invariant NeverEndsTwin(state.events) == old(NeverEndsTwin(state.events))
      invariant Project(log, tag) == Project(log0, tag) + UpdateEvents(call, emitted)
      invariant forall j: nat :: j != tag ==> Project(log, j) == Project(log0, j)
      invariant Adds(log, log0, tag, UpdateEvents(call, emitted))
    {
      ghost var before := log;
      if i == s.settledAfter { acceptingUpdates := false; }
      if acceptingUpdates {
        log := Emit(state, ToolUpdate(call, s.callbacks[i]), tag, start, log);
        assert UpdateEvents(call, emitted + [s.callbacks[i]]) ==
            UpdateEvents(call, emitted) + [ToolUpdate(call, s.callbacks[i])];
        AddsMore(log0, UpdateEvents(call, emitted), before, [ToolUpdate(call, s.callbacks[i])], log, tag);
        emitted := emitted + [s.callbacks[i]];
      }
      i := i + 1;
    }
    assert emitted == Accepted(s);
    match s.run {
      case Returns(r) => result, isError := r, false;
      case RunThrows(error) => result, isError := ErrorResult(Thrown(error)), true;
    }
  }

  /** `emitToolResultMessage`. */
  method EmitResultMessage(state: AgentStateCell, r: ToolResultMessage, ghost tag: nat, ghost start: seq<Event>,
      ghost log0: Log)
    returns (ghost log: Log)
    requires Logged(state, start, log0)
    requires var w := Scan(state.events); !w.Bad? && w.phase.InTurn? && w.open.None? && w.running == multiset{}
    modifies state
    ensures Logged(state, start, log) && state.base == old(state.base) && state.isStreaming == old(state.isStreaming)
    ensures var w := old(Scan(state.events));
      Scan(state.events) == w.(all := w.all + [Result(r)], turn := w.turn + [Result(r)])
    ensures forall i: nat :: Project(log, i) == Project(log0, i)
    ensures Adds(log, log0, tag, [MessageStart(Result(r)), MessageEnd(Result(r))])
    ensures NeverEndsTwin(state.events) == old(NeverEndsTwin(state.events))
  {
    hide Scan, ReduceAll, Project, NeverEndsTwin, Adds;
    ghost var log1;
    log1 := Emit(state, MessageStart(Result(r)), tag, start, log0);
    log := Emit(state, MessageEnd(Result(r)), tag, start, log1);
    AddsMore(log0, [MessageStart(Result(r))], log1, [MessageEnd(Result(r))], log, tag);
    assert [MessageStart(Result(r))] + [MessageEnd(Result(r))] == [MessageStart(Result(r)), MessageEnd(Result(r))];
  }

  // ------------------------------------------------------------------
  // One after the other
  // ------------------------------------------------------------------

  /** What a call that is handled on its own adds to the stream: its events, then its result message. */
  function RoundEvents(call: ToolCall, s: CallScript): seq<Event> {
    var result := Result(ResultMessage(Outcome(call, s)));
    CallEvents(call, s) + [MessageStart(result), MessageEnd(result)]
  }

  /** One call after the other. */
  function SequentialEvents(calls: seq<ToolCall>, script: nat -> CallScript, n: nat): seq<Event>
    requires n <= |calls|
  {
    if n == 0 then [] else SequentialEvents(calls, script, n - 1) + RoundEvents(calls[n-1], script(n - 1))
  }

  /** The log is that of the first `n` calls, one after the other. */
  ghost predicate OneByOne(log: Log, calls: seq<ToolCall>, script: nat -> CallScript, n: nat)
    requires n <= |calls|
  {
    InOrderBelow(log, n) && Untag(log) == SequentialEvents(calls, script, n)
  }

  lemma NothingOneByOne(calls: seq<ToolCall>, script: nat -> CallScript)
    ensures OneByOne([], calls, script, 0)
  {
  }

  lemma OneByOneMore(log: Log, log0: Log, calls: seq<ToolCall>, script: nat -> CallScript, n: nat)
    requires n < |calls| && OneByOne(log0, calls, script, n)
    requires Adds(log, log0, n, RoundEvents(calls[n], script(n)))
    ensures OneByOne(log, calls, script, n + 1)
  {
    hide RoundEvents;
    InOrderMore(log, log0, n, RoundEvents(calls[n], script(n)));
  }

  method ExecuteSequential(state: AgentStateCell, calls: seq<ToolCall>, script: nat -> CallScript)
    returns (results: seq<ToolResultMessage>, terminate: bool, ghost log: Log)
    requires state.Valid() && ReadyForBatch(Scan(state.events))
    modifies state
    ensures Logged(state, old(state.events), log) && state.base == old(state.base)
        && state.isStreaming == old(state.isStreaming)
    ensures Scan(state.events) == AfterBatch(old(Scan(state.events)), results)
    ensures BatchDone(calls, script, results, terminate, log)
    ensures |results| <= |calls| && OneByOne(log, calls, script, |results|)
    ensures NeverEndsTwin(state.events) == old(NeverEndsTwin(state.events))
  {
    hide OneByOne, RoundEvents, Adds, InOrderBelow, SequentialEvents;
    NothingOneByOne(calls, script);
    hide Logged, BatchDone, Scan, ReduceAll, Project, CallEvents, Outcome, Handled, Outcomes, Results, TerminatesBatch,
        ResultMessages, ResultIds, Untag, ResultMessage, Cutting, IsCut, AfterBatch, Track, NeverEndsTwin;
    ghost var start, w0 := state.events, Scan(state.events);
    log, results := [], [];
    AfterBatchInit(w0);
    NothingYet(state, calls, script);
    var finalizedCalls: seq<Finalized> := [];
    var i, aborted := 0, false;
    while i < |calls| && !aborted
      invariant 0 <= i <= |calls| && |results| == i
      invariant Logged(state, start, log) && state.base == old(state.base)
          && state.isStreaming == old(state.isStreaming)
      invariant Scan(state.events) == AfterBatch(w0, results)
      invariant NeverEndsTwin(state.events) == old(NeverEndsTwin(state.events))
      invariant results == Results(calls, script, i) && finalizedCalls == Outcomes(calls, script, i)
      invariant Cutting(calls, script, i, aborted)
      invariant Handled(log, calls, script, i) && OneByOne(log, calls, script, i)
    {
      var finalized;
      ghost var before := log;
      finalized, log := HandleNext(state, calls, script, i, results, w0, start, log);
      finalizedCalls, results := finalizedCalls + [finalized], results + [ResultMessage(finalized)];
      OneByOneMore(log, before, calls, script, i);
      OutcomesStep(calls, script, i);
      CuttingStep(calls, script, i);
      i, aborted := i + 1, script(i).abortedAfter;
    }
    CuttingDone(calls, script, i, aborted);
    terminate := TerminatesBatch(finalizedCalls);
    DoneAt(calls, script, i, log);
  }

  /** One round of the loop: the call at position `i`, up to its result message. */
  method HandleNext(state: AgentStateCell, calls: seq<ToolCall>, script: nat -> CallScript, i: nat,
      ghost results: seq<ToolResultMessage>, ghost w0: Tracker, ghost start: seq<Event>, ghost log0: Log)
    returns (finalized: Finalized, ghost log: Log)
    requires Logged(state, start, log0) && ReadyForBatch(w0) && i < |calls|
    requires Handled(log0, calls, script, i) && Scan(state.events) == AfterBatch(w0, results)
    modifies state
    ensures Logged(state, start, log) && state.base == old(state.base) && state.isStreaming == old(state.isStreaming)
    ensures finalized == Outcome(calls[i], script(i))
    ensures Handled(log, calls, script, i + 1)
    ensures Scan(state.events) == AfterBatch(w0, results + [ResultMessage(finalized)])
    ensures Adds(log, log0, i, RoundEvents(calls[i], script(i)))
    ensures NeverEndsTwin(state.events) == old(NeverEndsTwin(state.events))
  {
    hide Scan, ReduceAll, Project, CallEvents, Outcome, Logged, ResultMessages, ResultIds, AfterBatch, Track, Handled,
        NeverEndsTwin, Adds;
    AfterBatchQuiet(w0, results);
    NotHandled(log0, calls, script, i);
    ghost var log1;
    finalized, log1 := ExecuteOne(state, calls[i], script(i), i, start, log0);
    log := EmitResultMessage(state, ResultMessage(finalized), i, start, log1);
    ghost var result := Result(ResultMessage(finalized));
    AddsMore(log0, CallEvents(calls[i], script(i)), log1, [MessageStart(result), MessageEnd(result)], log, i);
    AfterBatchStep(w0, results, ResultMessage(finalized));
    HandledStep(log, log0, calls, script, i);
  }

  lemma StartRuns(w: Tracker, call: ToolCall)
    requires !w.Bad? && w.phase.InTurn? && w.open.None? && w.running == multiset{}
    ensures var v := Track(w, ToolStart(call)); !v.Bad? && v.phase.InTurn? && v.open.None? && call.id in v.running
  {
  }

  lemma StartThenEnd(w: Tracker, call: ToolCall, f: Finalized)
    requires !w.Bad? && w.phase.InTurn? && w.open.None? && w.running == multiset{} && f.call == call
    ensures Track(Track(w, ToolStart(call)), EndEvent(f)) == w.(started := w.started + [call.id])
    ensures !EndsTwin(Track(w, ToolStart(call)), EndEvent(f)) && !EndsTwin(w, ToolStart(call))
  {
  }

  lemma AssembleEvents(call: ToolCall, s: CallScript)
    ensures match Prepare(call, s)
      case Immediate(result, isError) =>
        && Outcome(call, s) == Finalized(call, result, isError)
        && CallEvents(call, s) == [] + [ToolStart(call)] + [EndEvent(Outcome(call, s))]
      case Prepared =>
        && Outcome(call, s) == Finalize(call, s)
        && CallEvents(call, s) ==
            [] + [ToolStart(call)] + UpdateEvents(call, Accepted(s)) + [EndEvent(Outcome(call, s))]
  {
    hide Finalize, Accepted;
    assert UpdateEvents(call, []) == [];
  }

  /** Start, prepare, execute, finalize and end one call. */
  method ExecuteOne(state: AgentStateCell, call: ToolCall, s: CallScript, ghost tag: nat, ghost start: seq<Event>,
      ghost log0: Log)
    returns (finalized: Finalized, ghost log: Log)
    requires Logged(state, start, log0)
    requires var w := Scan(state.events); !w.Bad? && w.phase.InTurn? && w.open.None? && w.running == multiset{}
    requires Project(log0, tag) == []
    modifies state
    ensures Logged(state, start, log) && state.base == old(state.base) && state.isStreaming == old(state.isStreaming)
    ensures var w := old(Scan(state.events)); Scan(state.events) == w.(started := w.started + [call.id])
    ensures finalized == Outcome(call, s)
    ensures Project(log, tag) == CallEvents(call, s) && Adds(log, log0, tag, CallEvents(call, s))
    ensures forall i: nat :: i != tag ==> Project(log, i) == Project(log0, i)
    ensures NeverEndsTwin(state.events) == old(NeverEndsTwin(state.events))
  {
    hide Scan, ReduceAll, Project, Track, CallEvents, Outcome, FinalizeExecuted, Executed, UpdateEvents, Logged,
        NeverEndsTwin, EndsTwin, Adds;
    ghost var w := Scan(state.events);
    StartRuns(w, call);
    log := Emit(state, ToolStart(call), tag, start, log0);
    ghost var log1, started := log, [] + [ToolStart(call)];
    assert started == [ToolStart(call)];
    var preparation := Prepare(call, s);
    if preparation.Immediate? {
      finalized := Finalized(call, preparation.result, preparation.isError);
    } else {
      var result, isError;
      result, isError, log := ExecutePrepared(state, call, s, tag, start, log);
      finalized := FinalizeExecuted(call, s, result, isError);
      AddsMore(log0, started, log1, UpdateEvents(call, Accepted(s)), log, tag);
      started := started + UpdateEvents(call, Accepted(s));
    }
    StartThenEnd(w, call, finalized);
    AssembleEvents(call, s);
    log1 := log;
    log := Emit(state, EndEvent(finalized), tag, start, log1);
    AddsMore(log0, started, log1, [EndEvent(finalized)], log, tag);
  }

  // ------------------------------------------------------------------
  // A truncated message: nothing runs
  // ------------------------------------------------------------------

  function NotRun(call: ToolCall): Finalized {
    Finalized(call, ErrorResult(Truncated(call.name)), true)
  }

  function TruncatedResults(calls: seq<ToolCall>, n: nat): seq<ToolResultMessage>
    requires n <= |calls|
  {
    seq(n, k requires 0 <= k < n => ResultMessage(NotRun(calls[k])))
  }

  /** Every call only starts and ends, with an error. */
  ghost predicate Refused(log: Log, calls: seq<ToolCall>, n: nat)
    requires n <= |calls|
  {
    && (forall i :: 0 <= i < n ==> Project(log, i) == [ToolStart(calls[i]), EndEvent(NotRun(calls[i]))])
    && (forall i: nat :: n <= i ==> Project(log, i) == [])
  }

  lemma RefusedStep(log: Log, log0: Log, calls: seq<ToolCall>, n: nat)
    requires n < |calls| && Refused(log0, calls, n)
    requires Project(log, n) == [ToolStart(calls[n]), EndEvent(NotRun(calls[n]))]
    requires forall i: nat :: i != n ==> Project(log, i) == Project(log0, i)
    ensures Refused(log, calls, n + 1)
    ensures TruncatedResults(calls, n + 1) == TruncatedResults(calls, n) + [ResultMessage(NotRun(calls[n]))]
  {
    hide Project, ResultMessage;
  }

  /** Starts a call and ends it at once with a settled outcome. */
  method StartAndEnd(state: AgentStateCell, finalized: Finalized, ghost tag: nat, ghost start: seq<Event>,
      ghost log0: Log)
    returns (ghost log: Log)
    requires Logged(state, start, log0)
    requires var w := Scan(state.events); !w.Bad? && w.phase.InTurn? && w.open.None? && w.running == multiset{}
    requires Project(log0, tag) == []
    modifies state
    ensures Logged(state, start, log) && state.base == old(state.base) && state.isStreaming == old(state.isStreaming)
    ensures var w := old(Scan(state.events)); Scan(state.events) == w.(started := w.started + [finalized.call.id])
    ensures Project(log, tag) == [ToolStart(finalized.call), EndEvent(finalized)]
    ensures forall i: nat :: i != tag ==> Project(log, i) == Project(log0, i)
    ensures NeverEndsTwin(state.events) == old(NeverEndsTwin(state.events))
  {
    hide Scan, ReduceAll, Project, NeverEndsTwin, Adds;
    StartThenEnd(Scan(state.events), finalized.call, finalized);
    log := Emit(state, ToolStart(finalized.call), tag, start, log0);
    log := Emit(state, EndEvent(finalized), tag, start, log);
  }

  method FailToolCalls(state: AgentStateCell, calls: seq<ToolCall>)
    returns (results: seq<ToolResultMessage>, terminate: bool, ghost log: Log)
    requires state.Valid() && ReadyForBatch(Scan(state.events))
    modifies state
    ensures Logged(state, old(state.events), log) && state.base == old(state.base)
        && state.isStreaming == old(state.isStreaming)
    ensures Scan(state.events) == AfterBatch(old(Scan(state.events)), results)
    ensures results == TruncatedResults(calls, |calls|) && !terminate && |results| == |calls|
    ensures forall k :: 0 <= k < |calls| ==>
        results[k] == ToolResultMessage(calls[k].id, calls[k].name, Truncated(calls[k].name), 0, None, true)
    ensures Refused(log, calls, |calls|)
    ensures NeverEndsTwin(state.events) == old(NeverEndsTwin(state.events))
  {
    ghost var start, w0 := state.events, Scan(state.events);
    log := [];
    results := [];
    AfterBatchInit(w0);
    assert Refused(log, calls, 0) && results == TruncatedResults(calls, 0);
    hide Scan, ReduceAll, Project, Refused, TruncatedResults, ResultMessages, ResultIds, Untag, ResultMessage,
        AfterBatch, Track, NeverEndsTwin, Adds;
    for i := 0 to |calls|
      invariant |results| == i
      invariant Logged(state, start, log) && state.base == old(state.base)
          && state.isStreaming == old(state.isStreaming)
      invariant Scan(state.events) == AfterBatch(w0, results)
      invariant NeverEndsTwin(state.events) == old(NeverEndsTwin(state.events))
      invariant results == TruncatedResults(calls, i) && Refused(log, calls, i)
    {
      ghost var log0, before := log, results;
      AfterBatchQuiet(w0, results);
      var finalized := NotRun(calls[i]);
      log := StartAndEnd(state, finalized, i, start, log);
      log := EmitResultMessage(state, ResultMessage(finalized), i, start, log);
      results := results + [ResultMessage(finalized)];
      AfterBatchStep(w0, before, ResultMessage(finalized));
      RefusedStep(log, log0, calls, i);
    }
    terminate := false;
    TruncatedAre(calls);
  }

  lemma TruncatedAre(calls: seq<ToolCall>)
    ensures |TruncatedResults(calls, |calls|)| == |calls|
    ensures forall k :: 0 <= k < |calls| ==>
        TruncatedResults(calls, |calls|)[k] ==
        ToolResultMessage(calls[k].id, calls[k].name, Truncated(calls[k].name), 0, None, true)
  {
  }
}
