/**
 * Parallel tool execution (packages/agent/src/agent-loop.ts, `executeToolCallsParallel`):
 * calls are prepared in order, then run under an arbitrary scheduler.
 */
module ParallelBatch {
  import opened Base
  import opened AgentTypes
  import opened EventWord
  import opened ToolExecution
  import opened LiveState
  import opened ToolBatch

  // ------------------------------------------------------------------
  // One call under the scheduler
  // ------------------------------------------------------------------

  /** The updates accepted once the tool has invoked its callback `invoked` times. */
  function AcceptedSoFar(s: CallScript, invoked: nat): seq<nat>
    requires invoked <= |s.callbacks|
  {
    s.callbacks[..if invoked <= s.settledAfter then invoked else s.settledAfter]
  }

  /** A call's events and outcome slot after `invoked` callbacks. */
  ghost predicate Entry(events: seq<Event>, call: ToolCall, s: CallScript, invoked: nat, slot: Option<Finalized>) {
    && invoked <= |s.callbacks|
    && (slot.Some? ==> events == CallEvents(call, s) && slot.value == Outcome(call, s))
    && (slot.None? ==>
          && Prepare(call, s).Prepared?
          && events == [ToolStart(call)] + UpdateEvents(call, AcceptedSoFar(s, invoked)))
  }

  lemma EntryStart(call: ToolCall, s: CallScript)
    requires Prepare(call, s).Prepared?
    ensures Entry([ToolStart(call)], call, s, 0, None)
  {
    assert [ToolStart(call)] + UpdateEvents(call, []) == [ToolStart(call)];
  }

  lemma EntryUpdate(events: seq<Event>, call: ToolCall, s: CallScript, invoked: nat)
    requires Entry(events, call, s, invoked, None) && invoked < |s.callbacks| && invoked < s.settledAfter
    ensures Entry(events + [ToolUpdate(call, s.callbacks[invoked])], call, s, invoked + 1, None)
  {
    var now, next := AcceptedSoFar(s, invoked), AcceptedSoFar(s, invoked + 1);
    assert next == now + [s.callbacks[invoked]];
    assert UpdateEvents(call, next) == UpdateEvents(call, now) + [ToolUpdate(call, s.callbacks[invoked])];
  }

  /** A callback after the tool has settled changes nothing. */
  lemma EntryLate(events: seq<Event>, call: ToolCall, s: CallScript, invoked: nat, slot: Option<Finalized>)
    requires Entry(events, call, s, invoked, slot) && invoked < |s.callbacks|
    requires slot.None? ==> s.settledAfter <= invoked
    ensures Entry(events, call, s, invoked + 1, slot)
  {
    hide CallEvents, Outcome;
  }

  lemma EntryEnd(events: seq<Event>, call: ToolCall, s: CallScript, invoked: nat)
    requires Entry(events, call, s, invoked, None)
    requires invoked == |s.callbacks| || s.settledAfter <= invoked
    ensures Entry(events + [EndEvent(Finalize(call, s))], call, s, invoked, Some(Finalize(call, s)))
  {
    assert AcceptedSoFar(s, invoked) == Accepted(s);
  }

  lemma EntryImmediate(call: ToolCall, s: CallScript)
    requires Prepare(call, s).Immediate?
    ensures Outcome(call, s) == Finalized(call, Prepare(call, s).result, Prepare(call, s).isError)
    ensures CallEvents(call, s) == [ToolStart(call), EndEvent(Outcome(call, s))]
    ensures Entry([ToolStart(call), EndEvent(Outcome(call, s))], call, s, 0, Some(Outcome(call, s)))
  {
    assert UpdateEvents(call, []) == [];
  }

  // ------------------------------------------------------------------
  // The whole batch under the scheduler
  // ------------------------------------------------------------------

  type Slots = seq<Option<Finalized>>

  /** The ids of the calls without an outcome. */
  ghost function Unfinished(calls: seq<ToolCall>, slots: Slots): multiset<CallId>
    requires |slots| <= |calls|
  {
    if slots == [] then multiset{}
    else
      var last := |slots| - 1;
      Unfinished(calls, slots[..last]) + (if slots[last].None? then multiset{calls[last].id} else multiset{})
  }

  lemma UnfinishedSnoc(calls: seq<ToolCall>, slots: Slots, slot: Option<Finalized>)
    requires |slots| < |calls|
    ensures Unfinished(calls, slots + [slot]) ==
            Unfinished(calls, slots) + (if slot.None? then multiset{calls[|slots|].id} else multiset{})
  {
    assert (slots + [slot])[..|slots|] == slots;
  }

  lemma TakeFirst(a: multiset<CallId>, b: multiset<CallId>, id: CallId)
    requires id in a
    ensures a - multiset{id} + b == a + b - multiset{id}
  {
  }

  lemma UnfinishedLast(calls: seq<ToolCall>, slots: Slots)
    requires 0 < |slots| <= |calls|
    ensures var last := |slots| - 1;
      Unfinished(calls, slots) ==
      Unfinished(calls, slots[..last]) + (if slots[last].None? then multiset{calls[last].id} else multiset{})
  {
  }

  lemma {:induction false} FinishOne(calls: seq<ToolCall>, slots: Slots, i: nat, f: Finalized)
    requires i < |slots| <= |calls| && slots[i].None?
    ensures calls[i].id in Unfinished(calls, slots)
    ensures Unfinished(calls, slots[i := Some(f)]) == Unfinished(calls, slots) - multiset{calls[i].id}
  {
    hide Unfinished;
    var last := |slots| - 1;
    var init, done := slots[..last], slots[i := Some(f)];
    UnfinishedLast(calls, slots);
    UnfinishedLast(calls, done);
    if i == last {
      assert done[..last] == init;
    } else {
      FinishOne(calls, init, i, f);
      assert done[..last] == init[i := Some(f)];
      if slots[last].None? {
        TakeFirst(Unfinished(calls, init), multiset{calls[last].id}, calls[i].id);
      }
    }
  }

  lemma {:induction false} AllFinished(calls: seq<ToolCall>, slots: Slots)
    requires |slots| <= |calls| && forall i :: 0 <= i < |slots| ==> slots[i].Some?
    ensures Unfinished(calls, slots) == multiset{}
  {
    if slots != [] { AllFinished(calls, slots[..|slots|-1]); }
  }

  /** No two calls of the batch share an id. */
  predicate DistinctIds(calls: seq<ToolCall>) {
    forall i, j :: 0 <= i < j < |calls| ==> calls[i].id != calls[j].id
  }

  /** Then no id runs twice. */
  lemma {:induction false} UnfinishedOnce(calls: seq<ToolCall>, slots: Slots, id: CallId)
    requires |slots| <= |calls| && DistinctIds(calls)
    ensures Unfinished(calls, slots)[id] <= 1
    ensures (forall i :: 0 <= i < |slots| ==> calls[i].id != id) ==> Unfinished(calls, slots)[id] == 0
  {
    if slots != [] { UnfinishedOnce(calls, slots[..|slots|-1], id); }
  }

  function Ids(calls: seq<ToolCall>, n: nat): seq<CallId>
    requires n <= |calls|
  {
    seq(n, k requires 0 <= k < n => calls[k].id)
  }

  lemma IdsStep(calls: seq<ToolCall>, n: nat)
    requires n < |calls|
    ensures Ids(calls, n + 1) == Ids(calls, n) + [calls[n].id]
  {
  }

  /** The word while the calls of the batch are starting and running. */
  ghost function RunningWord(w: Tracker, calls: seq<ToolCall>, slots: Slots): Tracker
    requires !w.Bad? && |slots| <= |calls|
  {
    w.(running := Unfinished(calls, slots), started := Ids(calls, |slots|))
  }

  lemma WordInit(w: Tracker, calls: seq<ToolCall>)
    requires ReadyForBatch(w)
    ensures RunningWord(w, calls, []) == w
  {
  }

  lemma WordStart(w: Tracker, calls: seq<ToolCall>, slots: Slots)
    requires ReadyForBatch(w) && |slots| < |calls|
    ensures Track(RunningWord(w, calls, slots), ToolStart(calls[|slots|])) == RunningWord(w, calls, slots + [None])
  {
    UnfinishedSnoc(calls, slots, None);
    IdsStep(calls, |slots|);
  }

  lemma WordDone(w: Tracker, calls: seq<ToolCall>, slots: Slots)
    requires ReadyForBatch(w) && |slots| <= |calls| && forall i :: 0 <= i < |slots| ==> slots[i].Some?
    ensures RunningWord(w, calls, slots) == w.(started := Ids(calls, |slots|))
  {
    AllFinished(calls, slots);
  }

  lemma WordUpdate(w: Tracker, calls: seq<ToolCall>, slots: Slots, i: nat, partial: nat)
    requires ReadyForBatch(w) && i < |slots| <= |calls| && slots[i].None?
    ensures Track(RunningWord(w, calls, slots), ToolUpdate(calls[i], partial)) == RunningWord(w, calls, slots)
  {
    FinishOne(calls, slots, i, Finalized(calls[i], ErrorResult(OperationAborted), true));
  }

  lemma WordEnd(w: Tracker, calls: seq<ToolCall>, slots: Slots, i: nat, f: Finalized)
    requires ReadyForBatch(w) && i < |slots| <= |calls| && slots[i].None? && f.call == calls[i]
    ensures Track(RunningWord(w, calls, slots), EndEvent(f)) == RunningWord(w, calls, slots[i := Some(f)])
    ensures DistinctIds(calls) ==> !EndsTwin(RunningWord(w, calls, slots), EndEvent(f))
  {
    hide Unfinished, Ids, DistinctIds;
    FinishOne(calls, slots, i, f);
    if DistinctIds(calls) { UnfinishedOnce(calls, slots, calls[i].id); }
  }

  lemma ResultsIds(calls: seq<ToolCall>, script: nat -> CallScript, n: nat)
    requires n <= |calls|
    ensures ResultIds(Results(calls, script, n)) == Ids(calls, n)
  {
    forall k | 0 <= k < n ensures ResultIds(Results(calls, script, n))[k] == Ids(calls, n)[k] {
      assert Results(calls, script, n)[k].toolCallId == Outcome(calls[k], script(k)).call.id;
    }
  }

  ghost predicate Progressed(log: Log, calls: seq<ToolCall>, script: nat -> CallScript, invoked: seq<nat>,
      slots: Slots) {
    && |invoked| == |slots| <= |calls|
    && (forall i :: 0 <= i < |slots| ==> Entry(Project(log, i), calls[i], script(i), invoked[i], slots[i]))
    && (forall i: nat :: |slots| <= i ==> Project(log, i) == [])
  }

  /** What is left to schedule: callbacks and outcomes. */
  ghost function Remaining(script: nat -> CallScript, invoked: seq<nat>, slots: Slots): int
    requires |invoked| == |slots|
  {
    if slots == [] then 0
    else
      var last := |slots| - 1;
      Remaining(script, invoked[..last], slots[..last]) + |script(last).callbacks| - invoked[last] +
      (if slots[last].None? then 1 else 0)
  }

  lemma {:induction false} RemainingNonNegative(script: nat -> CallScript, invoked: seq<nat>, slots: Slots)
    requires |invoked| == |slots| && forall i :: 0 <= i < |slots| ==> invoked[i] <= |script(i).callbacks|
    ensures Remaining(script, invoked, slots) >= 0
  {
    if slots != [] {
      RemainingNonNegative(script, invoked[..|slots|-1], slots[..|slots|-1]);
    }
  }

  lemma {:induction false} RemainingStep(script: nat -> CallScript, invoked: seq<nat>, slots: Slots, i: nat,
      called: nat, slot: Option<Finalized>)
    requires |invoked| == |slots| && i < |slots|
    requires (called == invoked[i] + 1 && slot == slots[i]) || (called == invoked[i] && slots[i].None? && slot.Some?)
    ensures Remaining(script, invoked[i := called], slots[i := slot]) == Remaining(script, invoked, slots) - 1
  {
    var last := |slots| - 1;
    if i == last {
      assert invoked[i := called][..last] == invoked[..last] && slots[i := slot][..last] == slots[..last];
    } else {
      RemainingStep(script, invoked[..last], slots[..last], i, called, slot);
      assert invoked[i := called][..last] == invoked[..last][i := called];
      assert slots[i := slot][..last] == slots[..last][i := slot];
    }
  }

  lemma ProgressedStart(log: Log, log0: Log, calls: seq<ToolCall>, script: nat -> CallScript, invoked: seq<nat>,
      slots: Slots, slot: Option<Finalized>)
    requires Progressed(log0, calls, script, invoked, slots) && |slots| < |calls|
    requires Entry(Project(log, |slots|), calls[|slots|], script(|slots|), 0, slot)
    requires forall i: nat :: i != |slots| ==> Project(log, i) == Project(log0, i)
    ensures Progressed(log, calls, script, invoked + [0], slots + [slot])
  {
    hide Entry, Project;
  }

  lemma ProgressedStep(log: Log, log0: Log, calls: seq<ToolCall>, script: nat -> CallScript, invoked: seq<nat>,
      slots: Slots, i: nat, called: nat, slot: Option<Finalized>)
    requires Progressed(log0, calls, script, invoked, slots) && i < |slots|
    requires Entry(Project(log, i), calls[i], script(i), called, slot)
    requires forall k: nat :: k != i ==> Project(log, k) == Project(log0, k)
    ensures Progressed(log, calls, script, invoked[i := called], slots[i := slot])
  {
    hide Entry, Project;
  }

  lemma EntryOf(log: Log, calls: seq<ToolCall>, script: nat -> CallScript, invoked: seq<nat>, slots: Slots, i: nat)
    requires Progressed(log, calls, script, invoked, slots) && i < |slots|
    ensures Entry(Project(log, i), calls[i], script(i), invoked[i], slots[i])
    ensures invoked[i] <= |script(i).callbacks|
  {
    hide Project, CallEvents, Outcome;
  }

  lemma RemainingBound(log: Log, calls: seq<ToolCall>, script: nat -> CallScript, invoked: seq<nat>, slots: Slots)
    requires Progressed(log, calls, script, invoked, slots)
    ensures Remaining(script, invoked, slots) >= 0
  {
    forall i | 0 <= i < |slots| ensures invoked[i] <= |script(i).callbacks| {
      EntryOf(log, calls, script, invoked, slots, i);
    }
    RemainingNonNegative(script, invoked, slots);
  }

  lemma NotStarted(log: Log, calls: seq<ToolCall>, script: nat -> CallScript, invoked: seq<nat>, slots: Slots)
    requires Progressed(log, calls, script, invoked, slots)
    ensures Project(log, |slots|) == []
  {
  }

  /** Once every call has its outcome, the slots are the outcomes in source order. */
  lemma ProgressedDone(log: Log, calls: seq<ToolCall>, script: nat -> CallScript, invoked: seq<nat>, slots: Slots)
    requires Progressed(log, calls, script, invoked, slots)
    requires forall i :: 0 <= i < |slots| ==> slots[i].Some?
    ensures Handled(log, calls, script, |slots|)
    ensures forall i :: 0 <= i < |slots| ==> slots[i].value == Outcome(calls[i], script(i))
  {
    hide Project, CallEvents, Outcome;
  }

  /** Calls start, and at most end, in the log so far. */
  ghost predicate OnlyPrepared(log: Log) {
    forall k :: 0 <= k < |log| ==> log[k].1.ToolStart? || log[k].1.ToolEnd?
  }

  /** Nothing starts any more after `log0`. */
  ghost predicate NoMoreStarts(log: Log, log0: Log) {
    log0 <= log && forall k :: |log0| <= k < |log| ==> !log[k].1.ToolStart?
  }

  /** Every call has started before any update or message. */
  ghost predicate StartsFirst(log: Log) {
    forall i, j :: 0 <= i < j < |log| && log[j].1.ToolStart? ==> log[i].1.ToolStart? || log[i].1.ToolEnd?
  }

  lemma PreparedMore(log: Log, log0: Log, tag: nat, e: Event)
    requires OnlyPrepared(log0) && Adds(log, log0, tag, [e]) && (e.ToolStart? || e.ToolEnd?)
    ensures OnlyPrepared(log)
  {
    assert |Untag(log)| == |log0| + 1 && Untag(log)[|log0|] == e;
    assert forall k :: 0 <= k < |log0| ==> log[k] == log0[k];
  }

  lemma NoStartInit(log: Log)
    ensures NoMoreStarts(log, log) && OnlyPrepared([])
  {
  }

  lemma NoStartMore(log: Log, log1: Log, log0: Log, tag: nat, events: seq<Event>)
    requires NoMoreStarts(log1, log0) && Adds(log, log1, tag, events)
    requires forall k :: 0 <= k < |events| ==> !events[k].ToolStart?
    ensures NoMoreStarts(log, log0)
  {
    forall k | |log0| <= k < |log| ensures !log[k].1.ToolStart? {
      if k < |log1| { assert log[k] == log1[k]; } else { assert Untag(log)[k] == events[k - |log1|]; }
    }
  }

  lemma NoStartMessage(log: Log, log1: Log, log0: Log, tag: nat, r: ToolResultMessage)
    requires NoMoreStarts(log1, log0) && Adds(log, log1, tag, [MessageStart(Result(r)), MessageEnd(Result(r))])
    ensures NoMoreStarts(log, log0)
  {
    NoStartMore(log, log1, log0, tag, [MessageStart(Result(r)), MessageEnd(Result(r))]);
  }

  lemma NoStartChain(log: Log, log1: Log, log0: Log)
    requires NoMoreStarts(log, log1) && NoMoreStarts(log1, log0)
    ensures NoMoreStarts(log, log0)
  {
    forall k | |log0| <= k < |log| ensures !log[k].1.ToolStart? {
      if k < |log1| { assert log[k] == log1[k]; }
    }
  }

  lemma StartedFirst(log: Log, prepared: Log)
    requires OnlyPrepared(prepared) && NoMoreStarts(log, prepared)
    ensures StartsFirst(log)
  {
    forall i, j | 0 <= i < j < |log| && log[j].1.ToolStart? ensures log[i].1.ToolStart? || log[i].1.ToolEnd? {
      assert j < |prepared| && log[i] == prepared[i];
    }
  }

  /** A call that can still be scheduled: it runs, or its tool has callbacks left (too late). */
  predicate Schedulable(s: CallScript, invoked: nat, slot: Option<Finalized>) {
    slot.None? || invoked < |s.callbacks|
  }

  // ------------------------------------------------------------------
  // The method, in its three phases
  // ------------------------------------------------------------------

  /** Starts and prepares the calls in order; prepared ones get an empty slot. */
  method PrepareAll(state: AgentStateCell, calls: seq<ToolCall>, script: nat -> CallScript)
    returns (invoked: seq<nat>, slots: Slots, ghost log: Log)
    requires state.Valid() && ReadyForBatch(Scan(state.events))
    modifies state
    ensures Progressed(log, calls, script, invoked, slots) && IsCut(calls, script, |slots|)
    ensures Logged(state, old(state.events), log) && state.base == old(state.base)
        && state.isStreaming == old(state.isStreaming)
    ensures Scan(state.events) == RunningWord(old(Scan(state.events)), calls, slots) && OnlyPrepared(log)
    ensures DistinctIds(calls) ==> NeverEndsTwin(state.events) == old(NeverEndsTwin(state.events))
  {
    ghost var start, w0 := state.events, Scan(state.events);
    invoked, slots, log := [], [], [];
    assert Progressed(log, calls, script, invoked, slots);
    assert Cutting(calls, script, 0, false);
    NoStartInit([]);
    hide Scan, ReduceAll, Project, Adds, Progressed, Untag, RunningWord, Track, Cutting, IsCut, NeverEndsTwin;
    hide DistinctIds, OnlyPrepared;
    WordInit(w0, calls);
    var i, aborted := 0, false;
    while i < |calls| && !aborted
      invariant 0 <= i <= |calls| && |slots| == i
      invariant Logged(state, start, log) && state.base == old(state.base)
          && state.isStreaming == old(state.isStreaming)
      invariant Progressed(log, calls, script, invoked, slots)
      invariant Scan(state.events) == RunningWord(w0, calls, slots) && OnlyPrepared(log)
      invariant DistinctIds(calls) ==> NeverEndsTwin(state.events) == old(NeverEndsTwin(state.events))
      invariant Cutting(calls, script, i, aborted)
    {
      var slot;
      slot, log := PrepareOne(state, calls, script, invoked, slots, w0, start, log);
      invoked, slots := invoked + [0], slots + [slot];
      CuttingStep(calls, script, i);
      i, aborted := i + 1, script(i).abortedAfter;
    }
    CuttingDone(calls, script, i, aborted);
  }

  /** One round of the first loop, for the call after those with slots. */
  method PrepareOne(state: AgentStateCell, calls: seq<ToolCall>, script: nat -> CallScript, invoked: seq<nat>,
      slots: Slots, ghost w0: Tracker, ghost start: seq<Event>, ghost log0: Log)
    returns (slot: Option<Finalized>, ghost log: Log)
    requires Logged(state, start, log0) && ReadyForBatch(w0) && |slots| < |calls|
    requires Progressed(log0, calls, script, invoked, slots)
    requires Scan(state.events) == RunningWord(w0, calls, slots) && OnlyPrepared(log0)
    modifies state
    ensures Logged(state, start, log) && state.base == old(state.base) && state.isStreaming == old(state.isStreaming)
    ensures Progressed(log, calls, script, invoked + [0], slots + [slot])
    ensures Scan(state.events) == RunningWord(w0, calls, slots + [slot]) && OnlyPrepared(log)
    ensures DistinctIds(calls) ==> NeverEndsTwin(state.events) == old(NeverEndsTwin(state.events))
  {
    hide Scan, ReduceAll, Project, Adds, Track, RunningWord, Entry, CallEvents, Outcome, Logged, Progressed;
    hide NeverEndsTwin, DistinctIds, OnlyPrepared;
    var i := |slots|;
    var call, s := calls[i], script(i);
    NotStarted(log0, calls, script, invoked, slots);
    WordStart(w0, calls, slots);
    log := Emit(state, ToolStart(call), i, start, log0);
    PreparedMore(log, log0, i, ToolStart(call));
    var preparation := Prepare(call, s);
    if preparation.Immediate? {
      var finalized := Finalized(call, preparation.result, preparation.isError);
      WordEnd(w0, calls, slots + [None], i, finalized);
      assert (slots + [None])[i := Some(finalized)] == slots + [Some(finalized)];
      ghost var log1 := log;
      log := Emit(state, EndEvent(finalized), i, start, log1);
      PreparedMore(log, log1, i, EndEvent(finalized));
      slot := Some(finalized);
      EntryImmediate(call, s);
      assert Project(log, i) == [ToolStart(call), EndEvent(finalized)];
    } else {
      slot := None;
      EntryStart(call, s);
      assert Project(log, i) == [ToolStart(call)];
    }
    ProgressedStart(log, log0, calls, script, invoked, slots, slot);
  }

  /**
   * One scheduler step of the call at position `i`: its tool calls back and the update
   * is accepted, or its tool settles and the call is finalized, or the tool calls back
   * after settling and nothing happens.
   */
  method RunStep(state: AgentStateCell, calls: seq<ToolCall>, script: nat -> CallScript, invoked0: seq<nat>,
      slots0: Slots, i: nat, ghost w0: Tracker, ghost start: seq<Event>, ghost log0: Log)
    returns (invoked: seq<nat>, slots: Slots, ghost log: Log)
    requires Logged(state, start, log0) && ReadyForBatch(w0)
    requires Progressed(log0, calls, script, invoked0, slots0)
    requires i < |slots0| && Schedulable(script(i), invoked0[i], slots0[i])
    requires Scan(state.events) == RunningWord(w0, calls, slots0)
    modifies state
    ensures Logged(state, start, log) && state.base == old(state.base) && state.isStreaming == old(state.isStreaming)
    ensures Progressed(log, calls, script, invoked, slots) && |slots| == |slots0|
    ensures Scan(state.events) == RunningWord(w0, calls, slots)
    ensures Remaining(script, invoked, slots) < Remaining(script, invoked0, slots0)
    ensures NoMoreStarts(log, log0)
    ensures DistinctIds(calls) ==> NeverEndsTwin(state.events) == old(NeverEndsTwin(state.events))
  {
    hide Scan, ReduceAll, Project, Adds, Track, RunningWord, Entry, CallEvents, Outcome, Logged, Remaining, Finalize,
        NeverEndsTwin, DistinctIds, NoMoreStarts;
    log, invoked, slots := log0, invoked0, slots0;
    NoStartInit(log0);
    var call, s, slot := calls[i], script(i), slots0[i];
    EntryOf(log0, calls, script, invoked0, slots0, i);
    var settling := *;
    if slot.None? && invoked[i] < |s.callbacks| && invoked[i] < s.settledAfter {
      WordUpdate(w0, calls, slots, i, s.callbacks[invoked[i]]);
      log := Emit(state, ToolUpdate(call, s.callbacks[invoked[i]]), i, start, log);
      NoStartMore(log, log0, log0, i, [ToolUpdate(call, s.callbacks[invoked[i]])]);
      EntryUpdate(Project(log0, i), call, s, invoked[i]);
      invoked := invoked[i := invoked[i] + 1];
    } else if slot.None? && (settling || invoked[i] == |s.callbacks|) {
      var finalized := Finalize(call, s);
      WordEnd(w0, calls, slots, i, finalized);
      log := Emit(state, EndEvent(finalized), i, start, log);
      NoStartMore(log, log0, log0, i, [EndEvent(finalized)]);
      EntryEnd(Project(log0, i), call, s, invoked[i]);
      slots := slots[i := Some(finalized)];
    } else {
      EntryLate(Project(log0, i), call, s, invoked[i], slot);
      invoked := invoked[i := invoked[i] + 1];
    }
    RemainingStep(script, invoked0, slots0, i, invoked[i], slots[i]);
    ProgressedStep(log, log0, calls, script, invoked0, slots0, i, invoked[i], slots[i]);
    assert invoked == invoked0[i := invoked[i]] && slots == slots0[i := slots[i]];
  }

  /** Lets the scheduler pick any call until all have an outcome. */
  method RunAll(state: AgentStateCell, calls: seq<ToolCall>, script: nat -> CallScript, invoked0: seq<nat>,
      slots0: Slots, ghost w0: Tracker, ghost start: seq<Event>, ghost log0: Log)
    returns (finalized: seq<Finalized>, ghost log: Log)
    requires Logged(state, start, log0) && ReadyForBatch(w0)
    requires Progressed(log0, calls, script, invoked0, slots0)
    requires Scan(state.events) == RunningWord(w0, calls, slots0)
    modifies state
    ensures Logged(state, start, log) && state.base == old(state.base) && state.isStreaming == old(state.isStreaming)
    ensures |finalized| == |slots0| <= |calls|
    ensures finalized == Outcomes(calls, script, |slots0|) && Handled(log, calls, script, |slots0|)
    ensures Scan(state.events) == w0.(started := Ids(calls, |slots0|)) && NoMoreStarts(log, log0)
    ensures DistinctIds(calls) ==> NeverEndsTwin(state.events) == old(NeverEndsTwin(state.events))
  {
    hide Scan, ReduceAll, Project, Adds, Track, RunningWord, Entry, Outcome, CallEvents, Logged, Remaining;
    hide Handled, Ids, NeverEndsTwin, DistinctIds, NoMoreStarts;
    log := log0;
    NoStartInit(log0);
    var invoked, slots := invoked0, slots0;
    RemainingBound(log, calls, script, invoked, slots);
    while exists i :: 0 <= i < |slots| && slots[i].None?
      invariant |slots| == |slots0|
      invariant Logged(state, start, log) && state.base == old(state.base)
          && state.isStreaming == old(state.isStreaming)
      invariant Progressed(log, calls, script, invoked, slots)
      invariant Scan(state.events) == RunningWord(w0, calls, slots) && NoMoreStarts(log, log0)
      invariant DistinctIds(calls) ==> NeverEndsTwin(state.events) == old(NeverEndsTwin(state.events))
      invariant Remaining(script, invoked, slots) >= 0
      decreases Remaining(script, invoked, slots)
    {
      var i :| 0 <= i < |slots| && Schedulable(script(i), invoked[i], slots[i]);
      ghost var before := log;
      invoked, slots, log := RunStep(state, calls, script, invoked, slots, i, w0, start, before);
      NoStartChain(log, before, log0);
      RemainingBound(log, calls, script, invoked, slots);
    }
    ProgressedDone(log, calls, script, invoked, slots);
    WordDone(w0, calls, slots);
    finalized := seq(|slots|, k requires 0 <= k < |slots| => slots[k].value);
  }

  /** The word while result messages follow each other. */
  ghost function EmittingWord(w: Tracker, results: seq<ToolResultMessage>, ids: seq<CallId>): Tracker
    requires !w.Bad?
  {
    var v := AfterBatch(w, results);
    v.(started := ids)
  }

  lemma EmittingStep(w: Tracker, results: seq<ToolResultMessage>, r: ToolResultMessage, ids: seq<CallId>)
    requires !w.Bad?
    ensures var v := EmittingWord(w, results, ids);
      EmittingWord(w, results + [r], ids) == v.(all := v.all + [Result(r)], turn := v.turn + [Result(r)])
  {
    AfterBatchStep(w, results, r);
  }

  lemma EmittingInit(w: Tracker, ids: seq<CallId>)
    requires !w.Bad?
    ensures EmittingWord(w, [], ids) == w.(started := ids)
  {
    assert w.all + ResultMessages([]) == w.all && w.turn + ResultMessages([]) == w.turn;
  }

  lemma EmittingQuiet(w: Tracker, results: seq<ToolResultMessage>, ids: seq<CallId>)
    requires ReadyForBatch(w)
    ensures var v := EmittingWord(w, results, ids); v.phase.InTurn? && v.open.None? && v.running == multiset{}
  {
  }

  lemma EmittedAll(w: Tracker, results: seq<ToolResultMessage>)
    requires !w.Bad?
    ensures EmittingWord(w, results, ResultIds(results)) == AfterBatch(w, results)
  {
  }

  lemma OutcomesAt(calls: seq<ToolCall>, script: nat -> CallScript, n: nat, i: nat)
    requires i < n <= |calls|
    ensures |Outcomes(calls, script, n)| == n && Outcomes(calls, script, n)[i] == Outcome(calls[i], script(i))
  {
  }

  lemma HandledSame(log: Log, log0: Log, calls: seq<ToolCall>, script: nat -> CallScript, n: nat)
    requires n <= |calls| && Handled(log0, calls, script, n)
    requires forall i: nat :: Project(log, i) == Project(log0, i)
    ensures Handled(log, calls, script, n)
  {
    hide Project, CallEvents;
  }

  /** The result messages, in source order whatever the schedule was. */
  method EmitResults(state: AgentStateCell, calls: seq<ToolCall>, script: nat -> CallScript, finalized: seq<Finalized>,
      ghost w0: Tracker, ghost start: seq<Event>, ghost log0: Log)
    returns (results: seq<ToolResultMessage>, ghost log: Log)
    requires Logged(state, start, log0) && ReadyForBatch(w0)
    requires |finalized| <= |calls| && finalized == Outcomes(calls, script, |finalized|)
    requires Scan(state.events) == w0.(started := Ids(calls, |finalized|))
    requires Handled(log0, calls, script, |finalized|)
    modifies state
    ensures Logged(state, start, log) && state.base == old(state.base) && state.isStreaming == old(state.isStreaming)
    ensures results == Results(calls, script, |finalized|)
    ensures Scan(state.events) == AfterBatch(w0, results)
    ensures Handled(log, calls, script, |finalized|) && NoMoreStarts(log, log0)
    ensures NeverEndsTwin(state.events) == old(NeverEndsTwin(state.events))
  {
    results, log := [], log0;
    assert results == Results(calls, script, 0);
    hide Scan, ReduceAll, Project, Adds, Track, Logged, Handled, Ids, Outcome, ResultMessage, Results, EmittingWord,
        Outcomes, AfterBatch, NeverEndsTwin, NoMoreStarts;
    var n := |finalized|;
    ghost var ids := Ids(calls, n);
    NoStartInit(log0);
    EmittingInit(w0, ids);
    for i := 0 to n
      invariant |results| == i
      invariant Logged(state, start, log) && state.base == old(state.base)
          && state.isStreaming == old(state.isStreaming)
      invariant results == Results(calls, script, i)
      invariant Scan(state.events) == EmittingWord(w0, results, ids)
      invariant NeverEndsTwin(state.events) == old(NeverEndsTwin(state.events))
      invariant Handled(log, calls, script, n) && NoMoreStarts(log, log0)
    {
      ghost var log1, before := log, results;
      EmittingQuiet(w0, results, ids);
      var r := ResultMessage(finalized[i]);
      log := EmitResultMessage(state, r, i, start, log);
      NoStartMessage(log, log1, log0, i, r);
      results := results + [r];
      HandledSame(log, log1, calls, script, n);
      EmittingStep(w0, before, r, ids);
      OutcomesStep(calls, script, i);
      OutcomesAt(calls, script, n, i);
    }
    ResultsIds(calls, script, n);
    EmittedAll(w0, results);
  }

  method ExecuteParallel(state: AgentStateCell, calls: seq<ToolCall>, script: nat -> CallScript)
    returns (results: seq<ToolResultMessage>, terminate: bool, ghost log: Log)
    requires state.Valid() && ReadyForBatch(Scan(state.events))
    modifies state
    ensures Logged(state, old(state.events), log) && state.base == old(state.base)
        && state.isStreaming == old(state.isStreaming)
    ensures Scan(state.events) == AfterBatch(old(Scan(state.events)), results)
    ensures BatchDone(calls, script, results, terminate, log) && StartsFirst(log)
    ensures DistinctIds(calls) ==> NeverEndsTwin(state.events) == old(NeverEndsTwin(state.events))
  {
    hide Scan, ReduceAll, Project, Adds, Track, RunningWord, Logged, Progressed, Handled, Ids, Outcomes, AfterBatch,
        TerminatesBatch, NeverEndsTwin, DistinctIds, OnlyPrepared, NoMoreStarts, StartsFirst;
    ghost var start, w0 := state.events, Scan(state.events);
    var invoked, slots, finalized;
    invoked, slots, log := PrepareAll(state, calls, script);
    ghost var prepared := log;
    ghost var ran;
    finalized, ran := RunAll(state, calls, script, invoked, slots, w0, start, prepared);
    results, log := EmitResults(state, calls, script, finalized, w0, start, ran);
    NoStartChain(log, ran, prepared);
    StartedFirst(log, prepared);
    terminate := TerminatesBatch(finalized);
  }

  /**
   * Parallel execution refines sequential execution: whatever the scheduler does, the
   * same calls with the same scripts give the same ordered results, the same flag and
   * the same events of each call, and leave the event word in the same state.
   */
  method CompareModes(one: AgentStateCell, other: AgentStateCell, calls: seq<ToolCall>, script: nat -> CallScript)
    returns (results: seq<ToolResultMessage>, terminate: bool, ghost log1: Log, ghost log2: Log)
    requires one != other && one.Valid() && other.Valid()
    requires Scan(one.events) == Scan(other.events) && ReadyForBatch(Scan(one.events))
    modifies one, other
    ensures Logged(one, old(one.events), log1) && Logged(other, old(other.events), log2)
    ensures Scan(one.events) == Scan(other.events) == AfterBatch(old(Scan(one.events)), results)
    ensures BatchDone(calls, script, results, terminate, log1) && BatchDone(calls, script, results, terminate, log2)
    ensures forall i: nat :: Project(log1, i) == Project(log2, i)
  {
    hide Scan, ReduceAll, Project, Adds, BatchDone, AfterBatch, Untag, NeverEndsTwin, DistinctIds, OneByOne,
        StartsFirst;
    var parallelResults, parallelTerminate;
    results, terminate, log1 := ExecuteSequential(one, calls, script);
    parallelResults, parallelTerminate, log2 := ExecuteParallel(other, calls, script);
    BatchesAgree(calls, script, results, terminate, log1, parallelResults, parallelTerminate, log2);
  }

  /** One sequential tool makes the whole batch sequential. */
  predicate InSequence(calls: seq<ToolCall>, script: nat -> CallScript, sequential: bool) {
    sequential || exists i :: 0 <= i < |calls| && script(i).found && script(i).sequentialTool
  }

  /**
   * `executeToolCalls`: in sequence one call is over, result message included, before the
   * next starts; otherwise all have started before any reports back.  No call ends while
   * another of its id runs, if the ids differ or the batch is sequential.
   */
  method ExecuteToolCalls(state: AgentStateCell, calls: seq<ToolCall>, script: nat -> CallScript, sequential: bool)
    returns (results: seq<ToolResultMessage>, terminate: bool, ghost log: Log)
    requires state.Valid() && ReadyForBatch(Scan(state.events))
    modifies state
    ensures Logged(state, old(state.events), log) && state.base == old(state.base)
        && state.isStreaming == old(state.isStreaming)
    ensures Scan(state.events) == AfterBatch(old(Scan(state.events)), results)
    ensures BatchDone(calls, script, results, terminate, log)
    ensures if sequential || exists i :: 0 <= i < |calls| && script(i).found && script(i).sequentialTool then
              |results| <= |calls| && OneByOne(log, calls, script, |results|)
            else StartsFirst(log)
    ensures InSequence(calls, script, sequential) || DistinctIds(calls) ==>
        NeverEndsTwin(state.events) == old(NeverEndsTwin(state.events))
  {
    hide Scan, ReduceAll, Project, Adds, BatchDone, AfterBatch, Untag, NeverEndsTwin, DistinctIds, OneByOne,
        StartsFirst;
    if InSequence(calls, script, sequential) {
      results, terminate, log := ExecuteSequential(state, calls, script);
    } else {
      results, terminate, log := ExecuteParallel(state, calls, script);
    }
  }
}
