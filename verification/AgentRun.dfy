/**
 * One turn, the nested loops over turns, and the two entry points of a run
 * (packages/agent/src/agent-loop.ts).
 */
module AgentRun {
  import opened Base
  import opened AgentTypes
  import opened EventWord
  import opened ToolExecution
  import opened LiveState
  import opened ToolBatch
  import opened ParallelBatch
  import opened AgentLoop
  import opened TurnGrammar
  import opened QueueSteps

  // ------------------------------------------------------------------
  // Words between and inside turns
  // ------------------------------------------------------------------

  /** After `n` turns that said `all`. */
  predicate AtBoundary(w: Tracker, n: nat, all: seq<Message>) {
    w.Tracker? && w.phase.Between? && w.turns == n && w.all == all && w.open.None? && w.running == multiset{}
  }

  /** Inside a turn after `n` others, before its assistant message. */
  predicate TurnOpen(w: Tracker, n: nat, all: seq<Message>) {
    QuietInTurn(w) && w.turns == n && w.all == all && w.started == []
  }

  lemma OpenTurn(w: Tracker, n: nat, all: seq<Message>)
    requires AtBoundary(w, n, all)
    ensures TurnOpen(Track(w, TurnStart), n, all)
  {
  }

  lemma TurnOpenSays(w: Tracker, n: nat, all: seq<Message>, messages: seq<Message>)
    requires TurnOpen(w, n, all)
    ensures TurnOpen(Says(w, messages), n, all + messages) && ReadyForBatch(Says(w, messages))
    ensures messages != [] ==> Says(w, messages).turn[|Says(w, messages).turn|-1] == messages[|messages|-1]
  {
  }

  lemma SaysMore(w: Tracker, first: seq<Message>, second: seq<Message>)
    requires QuietInTurn(w)
    ensures QuietInTurn(Says(w, first)) && Says(Says(w, first), second) == Says(w, first + second)
  {
    assert w.all + (first + second) == w.all + first + second;
    assert w.turn + (first + second) == w.turn + first + second;
  }

  /** A turn that said its assistant message last closes after the batch. */
  lemma CloseTurn(w: Tracker, n: nat, all: seq<Message>, message: AssistantMessage, results: seq<ToolResultMessage>)
    requires TurnOpen(w, n, all)
    ensures AtBoundary(Track(AfterBatch(Says(w, [Assistant(message)]), results), TurnEnd(message, results)),
                       n + 1, all + [Assistant(message)] + ResultMessages(results))
  {
    var v := AfterBatch(Says(w, [Assistant(message)]), results);
    assert |ResultMessages(results)| == |results|;
    assert v.turn == w.turn + [Assistant(message)] + ResultMessages(results);
    assert v.turn[|v.turn| - |results| - 1..] == [Assistant(message)] + ResultMessages(results);
    assert Closes(v.turn, message, results);
  }

  lemma TurnOpenQuiet(w: Tracker, n: nat, all: seq<Message>)
    requires TurnOpen(w, n, all)
    ensures QuietInTurn(w)
  {
  }

  lemma NoBatch(w: Tracker)
    requires ReadyForBatch(w)
    ensures AfterBatch(w, []) == w && ResultMessages([]) == []
  {
    AfterBatchInit(w);
  }

  lemma Associate(a: seq<Message>, b: seq<Message>, c: seq<Message>, d: seq<Message>)
    ensures a + b + c + d == a + (b + c + d)
  {
  }

  /** While nothing is open or running the reduced transcript is the starting one followed by what was said. */
  lemma TranscriptWhenQuiet(state: AgentStateCell, all: seq<Message>)
    requires state.Valid() && Idle(state.base)
    requires var w := Scan(state.events); w.Tracker? && w.open.None? && w.running == multiset{} && w.all == all
    ensures state.messages == state.base.messages + all && Idle(state.State())
  {
    hide Scan, ReduceAll;
    ReducerFollowsWord(state.base, state.events);
    assert state.State() == ReduceAll(state.base, state.events);
    assert forall id :: id !in state.pendingToolCalls;
  }

  lemma TranscriptAtBoundary(state: AgentStateCell, n: nat, all: seq<Message>)
    requires state.Valid() && Idle(state.base) && AtBoundary(Scan(state.events), n, all)
    ensures state.messages == state.base.messages + all && Idle(state.State())
  {
    hide Scan, ReduceAll, Idle;
    TranscriptWhenQuiet(state, all);
  }

  // ------------------------------------------------------------------
  // One turn
  // ------------------------------------------------------------------

  /** Brackets one whole message. */
  method EmitMessage(state: AgentStateCell, m: Message)
    requires state.Valid() && QuietInTurn(Scan(state.events))
    modifies state
    ensures state.Valid() && state.base == old(state.base) && state.isStreaming == old(state.isStreaming)
    ensures Scan(state.events) == Says(old(Scan(state.events)), [m])
    ensures state.events == old(state.events) + [MessageStart(m), MessageEnd(m)]
    ensures NeverEndsTwin(state.events) == old(NeverEndsTwin(state.events))
  {
    hide Scan, ReduceAll, Track, Reduce, Says, QuietInTurn, NeverEndsTwin;
    ghost var w := Scan(state.events);
    SaysInit(w);
    SaysOneMore(w, [], m);
    ghost var events := state.events;
    state.ProcessEvents(MessageStart(m));
    state.ProcessEvents(MessageEnd(m));
    assert [] + [m] == [m];
    assert state.events == events + [MessageStart(m), MessageEnd(m)];
  }

  /** Whole messages, each started and ended. */
  function Brackets(messages: seq<Message>): seq<Event> {
    if messages == [] then []
    else
      var last := messages[|messages|-1];
      Brackets(messages[..|messages|-1]) + [MessageStart(last), MessageEnd(last)]
  }

  lemma BracketsMore(events: seq<Event>, messages: seq<Message>, m: Message)
    ensures events + Brackets(messages + [m]) == events + Brackets(messages) + [MessageStart(m), MessageEnd(m)]
    ensures events + Brackets([]) == events
  {
    assert (messages + [m])[..|messages|] == messages;
  }

  /** Injects the pending messages before the assistant response. */
  method Inject(state: AgentStateCell, context: AgentContext, newMessages0: seq<Message>, pending: seq<Message>)
    returns (newMessages: seq<Message>)
    requires state.Valid() && QuietInTurn(Scan(state.events))
    modifies state, context
    ensures state.Valid() && state.base == old(state.base) && state.isStreaming == old(state.isStreaming)
    ensures Scan(state.events) == Says(old(Scan(state.events)), pending)
    ensures state.events == old(state.events) + Brackets(pending)
    ensures newMessages == newMessages0 + pending && context.messages == old(context.messages) + pending
    ensures NeverEndsTwin(state.events) == old(NeverEndsTwin(state.events))
  {
    hide Scan, ReduceAll, Track, Reduce, Says, QuietInTurn, NeverEndsTwin;
    hide Brackets;
    ghost var w, before, events := Scan(state.events), context.messages, state.events;
    newMessages := newMessages0;
    BracketsMore(events, [], User(0));
    SaysInit(w);
    for i := 0 to |pending|
      invariant state.Valid() && state.base == old(state.base) && state.isStreaming == old(state.isStreaming)
      invariant Scan(state.events) == Says(w, pending[..i]) && state.events == events + Brackets(pending[..i])
      invariant NeverEndsTwin(state.events) == old(NeverEndsTwin(state.events))
      invariant newMessages == newMessages0 + pending[..i] && context.messages == before + pending[..i]
    {
      SaysMore(w, pending[..i], [pending[i]]);
      assert pending[..i+1] == pending[..i] + [pending[i]];
      BracketsMore(events, pending[..i], pending[i]);
      EmitMessage(state, pending[i]);
      context.Push(pending[i]);
      newMessages := newMessages + [pending[i]];
    }
    assert pending[..|pending|] == pending;
  }

  /** No call of the turn can end while another of its id runs: the calls' ids differ, or they do not run together. */
  predicate TwinsApart(script: TurnScript) {
    var message := script.stream.result;
    message.Failed() || message.stopReason.Length? || DistinctIds(message.ToolCalls())
    || InSequence(message.ToolCalls(), script.tools, script.sequential)
  }

  predicate NoTwins(script: seq<TurnScript>) {
    forall k :: 0 <= k < |script| ==> TwinsApart(script[k])
  }

  /** Runs the tool calls of a message that has any, or fails them if it was truncated. */
  method RunBatch(state: AgentStateCell, message: AssistantMessage, script: TurnScript, ghost injected: seq<Message>,
      ghost origin: Origin)
    returns (results: seq<ToolResultMessage>, terminate: bool)
    requires state.Valid() && ReadyForBatch(Scan(state.events))
    requires !message.Failed() && message.ToolCalls() != [] && message == script.stream.result
    modifies state
    ensures state.Valid() && state.base == old(state.base) && state.isStreaming == old(state.isStreaming)
    ensures Scan(state.events) == AfterBatch(old(Scan(state.events)), results)
    ensures Follows(Turn(injected, origin, message, results, !terminate), script)
    ensures TwinsApart(script) ==> NeverEndsTwin(state.events) == old(NeverEndsTwin(state.events))
  {
    hide Scan, ReduceAll, Track, Reduce, AfterBatch, Untag, Project, Handled, Refused, Results, Outcomes,
        TruncatedResults, IsCut, ReadyForBatch, NeverEndsTwin, DistinctIds, InSequence, CallsIn;
    var calls := message.ToolCalls();
    ghost var log;
    if message.stopReason == Length {
      results, terminate, log := FailToolCalls(state, calls);
    } else {
      results, terminate, log := ExecuteToolCalls(state, calls, script.tools, script.sequential);
    }
  }

  method PushResults(context: AgentContext, results: seq<ToolResultMessage>)
    modifies context
    ensures context.messages == old(context.messages) + ResultMessages(results)
  {
    for i := 0 to |results|
      invariant context.messages == old(context.messages) + ResultMessages(results[..i])
    {
      context.Push(Result(results[i]));
      assert results[..i+1] == results[..i] + [results[i]];
      ResultsSnoc(results[..i], results[i]);
    }
    assert results[..|results|] == results;
  }

  /** The start of a turn, up to its injected messages. */
  method BeginTurn(state: AgentStateCell, context: AgentContext, newMessages0: seq<Message>, pending: seq<Message>,
      firstTurn: bool, ghost n: nat)
    returns (newMessages: seq<Message>)
    requires state.Valid()
    requires if firstTurn then TurnOpen(Scan(state.events), n, newMessages0)
        else AtBoundary(Scan(state.events), n, newMessages0)
    modifies state, context
    ensures state.Valid() && state.base == old(state.base) && state.isStreaming == old(state.isStreaming)
    ensures newMessages == newMessages0 + pending && context.messages == old(context.messages) + pending
    ensures TurnOpen(Scan(state.events), n, newMessages)
    ensures NeverEndsTwin(state.events) == old(NeverEndsTwin(state.events))
  {
    hide Scan, ReduceAll, Track, Reduce, Says, QuietInTurn, TurnOpen, AtBoundary, ReadyForBatch, NeverEndsTwin;
    if !firstTurn {
      OpenTurn(Scan(state.events), n, newMessages0);
      state.ProcessEvents(TurnStart);
    }
    TurnOpenSays(Scan(state.events), n, newMessages0, pending);
    TurnOpenQuiet(Scan(state.events), n, newMessages0);
    newMessages := Inject(state, context, newMessages0, pending);
  }

  /** The rest of a turn: the assistant message, its tool batch, `turn_end`. */
  method Respond(state: AgentStateCell, context: AgentContext, newMessages0: seq<Message>, script: TurnScript,
      ghost n: nat, ghost pending: seq<Message>, ghost origin: Origin)
    returns (newMessages: seq<Message>, message: AssistantMessage, results: seq<ToolResultMessage>,
        hasMoreToolCalls: bool)
    requires state.Valid() && Starts(script.stream) <= 1
    requires TurnOpen(Scan(state.events), n, newMessages0)
    modifies state, context
    ensures state.Valid() && state.base == old(state.base) && state.isStreaming == old(state.isStreaming)
    ensures Follows(Turn(pending, origin, message, results, hasMoreToolCalls), script)
    ensures newMessages == newMessages0 + [Assistant(message)] + ResultMessages(results)
    ensures context.messages == old(context.messages) + [Assistant(message)] + ResultMessages(results)
    ensures AtBoundary(Scan(state.events), n + 1, newMessages)
    ensures TwinsApart(script) ==> NeverEndsTwin(state.events) == old(NeverEndsTwin(state.events))
  {
    hide Scan, ReduceAll, Track, Reduce, Says, QuietInTurn, TurnOpen, AtBoundary, AfterBatch, Starts, StartsFrom;
    hide ReadyForBatch, CallsIn, TruncatedResults, IsCut, Results, Outcomes, ResultMessages, NeverEndsTwin, TwinsApart;
    hide ResponseEvents;
    ghost var w := Scan(state.events);
    TurnOpenQuiet(w, n, newMessages0);
    message := StreamAssistantResponse(state, context, script.stream);
    newMessages := newMessages0 + [Assistant(message)];
    TurnOpenSays(w, n, newMessages0, [Assistant(message)]);
    results, hasMoreToolCalls := [], false;
    NoBatch(Says(w, [Assistant(message)]));
    if !message.Failed() && message.ToolCalls() != [] {
      var terminate;
      results, terminate := RunBatch(state, message, script, pending, origin);
      hasMoreToolCalls := !terminate;
      PushResults(context, results);
      newMessages := newMessages + ResultMessages(results);
    }
    CloseTurn(w, n, newMessages0, message, results);
    state.ProcessEvents(TurnEnd(message, results));
  }

  /**
   * One turn, from its `turn_start` to its `turn_end`: the transcripts grow by the same
   * messages, and the turn is what the script makes of it.
   */
  method RunTurn(state: AgentStateCell, context: AgentContext, newMessages0: seq<Message>, pending: seq<Message>,
      firstTurn: bool, script: TurnScript, ghost n: nat, ghost origin: Origin)
    returns (newMessages: seq<Message>, message: AssistantMessage, results: seq<ToolResultMessage>,
        hasMoreToolCalls: bool)
    requires state.Valid() && Idle(state.base) && Starts(script.stream) <= 1
    requires if firstTurn then TurnOpen(Scan(state.events), n, newMessages0)
        else AtBoundary(Scan(state.events), n, newMessages0)
    modifies state, context
    ensures state.Valid() && state.base == old(state.base) && state.isStreaming == old(state.isStreaming)
    ensures Follows(Turn(pending, origin, message, results, hasMoreToolCalls), script)
    ensures var spoken := pending + [Assistant(message)] + ResultMessages(results);
      newMessages == newMessages0 + spoken && context.messages == old(context.messages) + spoken
    ensures AtBoundary(Scan(state.events), n + 1, newMessages)
    ensures state.messages == state.base.messages + newMessages && Idle(state.State())
    ensures TwinsApart(script) ==> NeverEndsTwin(state.events) == old(NeverEndsTwin(state.events))
  {
    hide Scan, ReduceAll, Track, Reduce, TurnOpen, AtBoundary, Starts, ResultMessages, Idle, Follows, NeverEndsTwin,
        TwinsApart;
    newMessages := BeginTurn(state, context, newMessages0, pending, firstTurn, n);
    newMessages, message, results, hasMoreToolCalls := Respond(state, context, newMessages, script, n, pending, origin);
    Associate(newMessages0, pending, [Assistant(message)], ResultMessages(results));
    Associate(old(context.messages), pending, [Assistant(message)], ResultMessages(results));
    TranscriptAtBoundary(state, n + 1, newMessages);
  }

  // ------------------------------------------------------------------
  // The loops
  // ------------------------------------------------------------------

  ghost function Both(steering: PendingMessageQueue, followUp: PendingMessageQueue): Queues
    reads steering, followUp
  {
    Queues(steering.State(), followUp.State())
  }

  /** The user's doings between two polls; none of them hands anything out. */
  method Deliver(steering: PendingMessageQueue, followUp: PendingMessageQueue, arrivals: seq<Arrival>)
    requires steering != followUp && steering.Valid() && followUp.Valid()
    modifies steering, followUp
    ensures steering.Valid() && followUp.Valid()
    ensures steering.drained == old(steering.drained) && followUp.drained == old(followUp.drained)
    ensures Both(steering, followUp) == AfterSteps(old(Both(steering, followUp)), Arriving(arrivals))
  {
    hide Handed, Departures;
    for i := 0 to |arrivals|
      invariant steering.Valid() && followUp.Valid()
      invariant steering.drained == old(steering.drained) && followUp.drained == old(followUp.drained)
      invariant Both(steering, followUp) == AfterSteps(old(Both(steering, followUp)), Arriving(arrivals[..i]))
    {
      assert Arriving(arrivals[..i+1])[..i] == Arriving(arrivals[..i]);
      match arrivals[i] {
        case Steer(m) => steering.Enqueue(m);
        case FollowUp(m) => followUp.Enqueue(m);
        case SteeringMode(mode) => steering.SetMode(mode);
        case FollowUpMode(mode) => followUp.SetMode(mode);
        case ClearSteering => steering.Clear();
        case ClearFollowUp => followUp.Clear();
      }
    }
    assert arrivals[..|arrivals|] == arrivals;
  }

  /** `getSteeringMessages`: the first poll is skipped when asked for. */
  method GetSteeringMessages(steering: PendingMessageQueue, skip: bool) returns (taken: seq<Message>)
    requires steering.Valid()
    modifies steering
    ensures steering.Valid()
    ensures steering.State() == if skip then old(steering.State()) else Drained(old(steering.State()))
    ensures taken == if skip then [] else Taken(old(steering.mode), old(steering.messages))
    ensures steering.drained == old(steering.drained) + taken && old(steering.messages) == taken + steering.messages
    ensures !skip && taken == [] ==> steering.messages == []
  {
    if skip {
      taken := [];
      assert steering.drained + [] == steering.drained && [] + steering.messages == steering.messages;
    } else {
      taken := steering.Drain();
    }
  }

  predicate StreamsWellBehaved(script: seq<TurnScript>) {
    forall k :: 0 <= k < |script| ==> Starts(script[k].stream) <= 1
  }

  /** Where the word is when the loop looks for the next turn. */
  predicate Waiting(w: Tracker, firstTurn: bool, n: nat, all: seq<Message>) {
    if firstTurn then TurnOpen(w, n, all) else AtBoundary(w, n, all)
  }

  /** Whether the loop goes on with another context after this turn. */
  predicate Replaces(turn: Turn, script: TurnScript) {
    turn.assistant.stopReason != Error && turn.assistant.stopReason != Aborted && script.replacement.Some?
  }

  predicate KeptSince(turns: seq<Turn>, script: seq<TurnScript>, k: nat)
    requires |turns| <= |script|
  {
    forall j :: k <= j < |turns| ==> !Replaces(turns[j], script[j])
  }

  /**
   * What the context is made of: the starting one, or the last replacement followed by
   * what has been said since the turn after which it was made.
   */
  ghost predicate Based(prompts: seq<Message>, turns: seq<Turn>, script: seq<TurnScript>, start: seq<Message>,
      contextBase: seq<Message>, mark: nat) {
    && |turns| <= |script|
    && (KeptSince(turns, script, 0) ==> contextBase == start && mark == 0)
    && (forall k :: 0 <= k < |turns| && Replaces(turns[k], script[k]) && KeptSince(turns, script, k + 1) ==>
          contextBase == script[k].replacement.value && mark == |prompts| + |Flatten(turns[..k+1])|)
  }

  lemma TranscriptsLength(l: Ledger, newMessages: seq<Message>, context: seq<Message>, contextBase: seq<Message>,
      mark: nat)
    requires Transcripts(l, newMessages, context, contextBase, mark)
    ensures |newMessages| == |l.prompts| + |Flatten(l.turns)|
  {
    hide Flatten;
  }

  /** A turn without a replacement. */
  lemma BasedMore(prompts: seq<Message>, turns: seq<Turn>, turn: Turn, script: seq<TurnScript>, start: seq<Message>,
      contextBase: seq<Message>, mark: nat)
    requires Based(prompts, turns, script, start, contextBase, mark)
    requires |turns| < |script| && !Replaces(turn, script[|turns|])
    ensures Based(prompts, turns + [turn], script, start, contextBase, mark)
  {
    hide Replaces, Flatten;
    var more := turns + [turn];
    forall j | 0 <= j <= |turns| ensures KeptSince(more, script, j) ==> KeptSince(turns, script, j) {
      if KeptSince(more, script, j) {
        forall i | j <= i < |turns| ensures !Replaces(turns[i], script[i]) { assert more[i] == turns[i]; }
      }
    }
    forall k | 0 <= k < |turns| ensures more[k] == turns[k] && more[..k+1] == turns[..k+1] {
    }
  }

  /** A turn with one. */
  lemma BasedReplaced(prompts: seq<Message>, turns: seq<Turn>, turn: Turn, script: seq<TurnScript>,
      start: seq<Message>, mark: nat)
    requires |turns| < |script| && Replaces(turn, script[|turns|])
    requires mark == |prompts| + |Flatten(turns + [turn])|
    ensures Based(prompts, turns + [turn], script, start, script[|turns|].replacement.value, mark)
  {
    hide Replaces, Flatten;
    var more := turns + [turn];
    assert more[..|turns|+1] == more && more[|turns|] == turn;
  }

  ghost predicate Placed(l: Ledger, script: seq<TurnScript>, start: seq<Message>, newMessages: seq<Message>,
      context: seq<Message>, contextBase: seq<Message>, mark: nat) {
    Transcripts(l, newMessages, context, contextBase, mark)
        && Based(l.prompts, l.turns, script, start, contextBase, mark)
  }

  /** One round of the inner loop up to the stop hook: a turn, then `prepareNextTurn`. */
  method NextTurn(state: AgentStateCell, context0: AgentContext, newMessages0: seq<Message>, pending: seq<Message>,
      ghost hasMore0: bool, firstTurn: bool, script: seq<TurnScript>, next: nat, ghost l0: Ledger,
      ghost contextBase0: seq<Message>, ghost mark0: nat, ghost start: seq<Message>)
    returns (context: AgentContext, newMessages: seq<Message>, message: AssistantMessage,
        results: seq<ToolResultMessage>, hasMore: bool, ghost l: Ledger, ghost contextBase: seq<Message>,
        ghost mark: nat)
    requires state.Valid() && Idle(state.base) && StreamsWellBehaved(script)
    requires OnTrack(l0, script, hasMore0, firstTurn) && next == |l0.turns| < |script| && (hasMore0 || pending != [])
        && l0.pending == pending
    requires Waiting(Scan(state.events), firstTurn, |l0.turns|, newMessages0)
    requires Placed(l0, script, start, newMessages0, context0.messages, contextBase0, mark0)
    modifies state, context0
    ensures state.Valid() && state.base == old(state.base) && state.isStreaming == old(state.isStreaming)
    ensures l == FinishTurn(l0, message, results, hasMore)
    ensures |l.turns| == |l0.turns| + 1 && WellFormed(l.turns, script)
    ensures if message.Failed() || script[next].stop then OverBecause(l, script) && EndedEarly(l, script)
        else OnTrack(l, script, hasMore, false)
    ensures AtBoundary(Scan(state.events), |l.turns|, newMessages)
    ensures context == context0 || fresh(context)
    ensures Placed(l, script, start, newMessages, context.messages, contextBase, mark)
    ensures NoTwins(script) ==> NeverEndsTwin(state.events) == old(NeverEndsTwin(state.events))
  {
    hide Scan, ReduceAll, Idle, Starts, AtBoundary, TurnOpen, ResultMessages, WellFormed, OnTrack, OverBecause,
        Follows, Transcripts, NeverEndsTwin, TwinsApart;
    hide Based, Flatten;
    var turnScript := script[next];
    newMessages, message, results, hasMore :=
      RunTurn(state, context0, newMessages0, pending, firstTurn, turnScript, |l0.turns|, l0.origin);
    context, contextBase, mark := context0, contextBase0, mark0;
    l := FinishTurn(l0, message, results, hasMore);
    ghost var turn := Turn(l0.pending, l0.origin, message, results, hasMore);
    TrackTurn(l0, script, hasMore0, firstTurn, message, results, hasMore);
    TranscriptsTurn(l0, newMessages0, old(context0.messages), contextBase0, mark0, message, results, hasMore);
    TranscriptsLength(l, newMessages, context.messages, contextBase, mark);
    if !message.Failed() && turnScript.replacement.Some? {
      TranscriptsReplaced(l, newMessages, context.messages, contextBase, mark, turnScript.replacement.value);
      context := new AgentContext(turnScript.replacement.value);
      contextBase, mark := turnScript.replacement.value, |newMessages|;
      BasedReplaced(l0.prompts, l0.turns, turn, script, start, mark);
    } else {
      BasedMore(l0.prompts, l0.turns, turn, script, start, contextBase, mark);
    }
  }

  /** Where the word is when `runLoop` returns. */
  predicate Returned(w: Tracker, complete: bool, n: nat, all: seq<Message>) {
    && w.Tracker? && w.turns == n && w.all == all && w.open.None? && w.running == multiset{}
    && (complete <==> w.phase.Over?)
  }

  lemma EndRun(w: Tracker, n: nat, all: seq<Message>)
    requires AtBoundary(w, n, all) && n > 0
    ensures Returned(Track(w, AgentEnd(all)), true, n, all)
  {
  }

  lemma CutRun(w: Tracker, firstTurn: bool, n: nat, all: seq<Message>)
    requires Waiting(w, firstTurn, n, all)
    ensures Returned(w, false, n, all)
  {
  }

  lemma TranscriptReturned(state: AgentStateCell, complete: bool, n: nat, all: seq<Message>)
    requires state.Valid() && Idle(state.base) && Returned(Scan(state.events), complete, n, all)
    ensures state.messages == state.base.messages + all && Idle(state.State())
  {
    hide Scan, ReduceAll, Idle;
    TranscriptWhenQuiet(state, all);
  }

  lemma WaitingFirst(w: Tracker, prompts: seq<Message>)
    requires TurnOpen(w, 0, prompts)
    ensures Waiting(w, true, 0, prompts)
  {
  }

  lemma WaitingLater(w: Tracker, n: nat, all: seq<Message>)
    ensures AtBoundary(w, n, all) <==> Waiting(w, false, n, all)
  {
  }

  lemma TrackIsWellFormed(l: Ledger, script: seq<TurnScript>, hasMore: bool, firstTurn: bool)
    requires OnTrack(l, script, hasMore, firstTurn)
    ensures WellFormed(l.turns, script) && (firstTurn <==> l.turns == [])
  {
    hide WellFormed;
  }

  /**
   * The ledger agrees with the loop's own variables and the queues; `first` is what the
   * initial poll gave the first turn.
   */
  ghost predicate Booked(l: Ledger, prompts: seq<Message>, first: seq<Message>, pending: seq<Message>, n: nat,
      script: seq<TurnScript>, opening: Opening, q: Queues) {
    && l.prompts == prompts && l.pending == pending && |l.turns| == n
    && first == (if l.turns == [] then pending else l.turns[0].injected)
    && Accounts(l, opening.queues.steering.drained, opening.queues.followUp.drained, q.steering.drained,
                q.followUp.drained)
    && Recorded(opening, script, l, q)
  }

  /** What the user queued, then one poll of the steering queue: what it does not take stays, in order. */
  method PollSteering(steering: PendingMessageQueue, followUp: PendingMessageQueue, arrivals: seq<Arrival>, skip: bool,
      script: seq<TurnScript>, ghost hasMore: bool, ghost firstTurn: bool, ghost l0: Ledger, ghost n: nat,
      ghost prompts: seq<Message>, ghost first: seq<Message>, ghost opening: Opening)
    returns (taken: seq<Message>, ghost l: Ledger)
    requires steering != followUp && steering.Valid() && followUp.Valid()
    requires OnTrack(l0, script, hasMore, firstTurn)
    requires l0.origin == Nowhere && PollsAt(opening, script, n, arrivals, skip)
    requires Booked(l0, prompts, first, [], n, script, opening, Both(steering, followUp))
    modifies steering, followUp
    ensures steering.Valid() && followUp.Valid()
    ensures Both(steering, followUp) == AfterSteps(old(Both(steering, followUp)), SteeringSteps(arrivals, skip))
    ensures var q := AfterSteps(old(Both(steering, followUp)), Arriving(arrivals)).steering;
      taken == (if skip then [] else Taken(q.mode, q.messages)) && q.messages == taken + steering.messages
    ensures !skip && taken == [] ==> steering.messages == []
    ensures l == Polled(l0, taken, SteeringQueue) && OnTrack(l, script, hasMore, firstTurn)
    ensures Booked(l, prompts, if n == 0 then taken else first, taken, n, script, opening, Both(steering, followUp))
  {
    hide OnTrack, OverBecause, Accounts, Taken, AfterSteps, Drained, Recorded, Handed, PollsAt;
    ghost var q0 := Both(steering, followUp);
    Deliver(steering, followUp, arrivals);
    ghost var q1 := Both(steering, followUp);
    taken := GetSteeringMessages(steering, skip);
    TrackPoll(l0, script, hasMore, firstTurn, taken, SteeringQueue);
    AccountsPoll(l0, opening.queues.steering.drained, opening.queues.followUp.drained, q1.steering.drained,
        q1.followUp.drained, taken);
    RecordedSteeringPoll(opening, script, l0, q0, arrivals, skip, taken);
    SteeringStepsAre(q0, arrivals, skip);
    l := Polled(l0, taken, SteeringQueue);
  }

  lemma SteeringStepsAre(q: Queues, arrivals: seq<Arrival>, skip: bool)
    ensures var delivered := AfterSteps(q, Arriving(arrivals));
      AfterSteps(q, SteeringSteps(arrivals, skip)) ==
      if skip then delivered else delivered.(steering := Drained(delivered.steering))
  {
    hide Drained;
    AfterStepsJoin(q, Arriving(arrivals), if skip then [] else [Step.PollSteering]);
  }

  /** The poll of the follow-up queue when the loop would stop. */
  method PollFollowUp(steering: PendingMessageQueue, followUp: PendingMessageQueue, arrivals: seq<Arrival>,
      script: seq<TurnScript>, ghost firstTurn: bool, ghost l0: Ledger, ghost n: nat, ghost prompts: seq<Message>,
      ghost first: seq<Message>, ghost opening: Opening)
    returns (taken: seq<Message>, ghost l: Ledger)
    requires steering != followUp && steering.Valid() && followUp.Valid()
    requires OnTrack(l0, script, false, firstTurn) && l0.origin == SteeringQueue && 0 < n <= |script|
    requires arrivals == script[n - 1].beforeFollowUpPoll
    requires Booked(l0, prompts, first, [], n, script, opening, Both(steering, followUp))
    modifies steering, followUp
    ensures steering.Valid() && followUp.Valid()
    ensures Both(steering, followUp) ==
            AfterSteps(old(Both(steering, followUp)), Arriving(arrivals) + [Step.PollFollowUp])
    ensures var q := AfterSteps(old(Both(steering, followUp)), Arriving(arrivals)).followUp;
      taken == Taken(q.mode, q.messages) && q.messages == taken + followUp.messages
    ensures taken == [] ==> followUp.messages == []
    ensures l == Polled(l0, taken, FollowUpQueue) && WellFormed(l.turns, script)
    ensures if taken == [] then OverBecause(l, script) else OnTrack(l, script, true, firstTurn)
    ensures Booked(l, prompts, first, taken, n, script, opening, Both(steering, followUp))
  {
    hide OnTrack, OverBecause, Accounts, Taken, WellFormed, AfterSteps, Drained, Recorded, Handed;
    ghost var q0 := Both(steering, followUp);
    Deliver(steering, followUp, arrivals);
    ghost var q1 := Both(steering, followUp);
    taken := followUp.Drain();
    TrackIsWellFormed(l0, script, false, firstTurn);
    TrackPoll(l0, script, false, firstTurn, taken, FollowUpQueue);
    AccountsPoll(l0, opening.queues.steering.drained, opening.queues.followUp.drained, q1.steering.drained,
        q1.followUp.drained, taken);
    RecordedFollowUpPoll(opening, script, l0, q0, taken);
    FollowUpStepsAre(q0, arrivals);
    l := Polled(l0, taken, FollowUpQueue);
  }

  lemma FollowUpStepsAre(q: Queues, arrivals: seq<Arrival>)
    ensures var delivered := AfterSteps(q, Arriving(arrivals));
      AfterSteps(q, Arriving(arrivals) + [Step.PollFollowUp]) ==
      delivered.(followUp := Drained(delivered.followUp))
  {
    hide Drained;
    AfterStepsJoin(q, Arriving(arrivals), [Step.PollFollowUp]);
  }

  lemma BookedTurn(l: Ledger, prompts: seq<Message>, first: seq<Message>, pending: seq<Message>, n: nat,
      script: seq<TurnScript>, opening: Opening, q: Queues, message: AssistantMessage, results: seq<ToolResultMessage>,
      continues: bool)
    requires Booked(l, prompts, first, pending, n, script, opening, q) && n < |script|
    ensures Booked(FinishTurn(l, message, results, continues), prompts, first, [], n + 1, script, opening, q)
  {
    hide Accounts, Recorded;
    AccountsTurn(l, opening.queues.steering.drained, opening.queues.followUp.drained, q.steering.drained,
        q.followUp.drained, message, results, continues);
    RecordedTurn(opening, script, l, q, message, results, continues);
  }

  /** A poll does not touch the transcripts. */
  lemma PlacedPoll(l: Ledger, script: seq<TurnScript>, start: seq<Message>, newMessages: seq<Message>,
      context: seq<Message>, contextBase: seq<Message>, mark: nat, taken: seq<Message>, origin: Origin)
    requires Placed(l, script, start, newMessages, context, contextBase, mark)
    ensures Placed(Polled(l, taken, origin), script, start, newMessages, context, contextBase, mark)
  {
    hide Transcripts;
    TranscriptsPoll(l, newMessages, context, contextBase, mark, taken, origin);
  }

  lemma LedgerInit(prompts: seq<Message>, script: seq<TurnScript>, start: seq<Message>, opening: Opening)
    ensures var l := Ledger(prompts, [], [], Nowhere);
      && OnTrack(l, script, true, true)
      && Placed(l, script, start, prompts, start + prompts, start, 0)
      && Booked(l, prompts, [], [], 0, script, opening, opening.queues)
  {
    hide Recorded;
    RecordedInit(opening, script, prompts);
  }

  /** `agent_end`, and the end of the run. */
  method Finish(state: AgentStateCell, newMessages: seq<Message>, ghost n: nat)
    requires state.Valid() && Idle(state.base) && n > 0 && AtBoundary(Scan(state.events), n, newMessages)
    modifies state
    ensures state.Valid() && state.base == old(state.base) && state.isStreaming == old(state.isStreaming)
    ensures Returned(Scan(state.events), true, n, newMessages)
    ensures state.messages == state.base.messages + newMessages && Idle(state.State())
    ensures NeverEndsTwin(state.events) == old(NeverEndsTwin(state.events))
  {
    hide Scan, ReduceAll, Track, Reduce, Idle, AtBoundary, Returned, NeverEndsTwin;
    EndRun(Scan(state.events), n, newMessages);
    state.ProcessEvents(AgentEnd(newMessages));
    TranscriptReturned(state, true, n, newMessages);
  }

  /** How the inner loop left: with nothing to do, ended by a failure or the stop hook, or out of script. */
  datatype Exit = NothingToDo | Ended | OutOfScript

  /** The inner loop: turns as long as tool calls or pending messages ask for them. */
  method RunTurns(state: AgentStateCell, steering: PendingMessageQueue, followUp: PendingMessageQueue,
      context0: AgentContext, newMessages0: seq<Message>, pending: seq<Message>, script: seq<TurnScript>, next0: nat,
      firstTurn0: bool, ghost l0: Ledger, ghost start: seq<Message>, ghost contextBase0: seq<Message>, ghost mark0: nat,
      ghost prompts: seq<Message>, ghost first: seq<Message>, ghost opening: Opening)
    returns (context: AgentContext, newMessages: seq<Message>, next: nat, exit: Exit, ghost l: Ledger,
        ghost contextBase: seq<Message>, ghost mark: nat)
    requires state.Valid() && Idle(state.base) && StreamsWellBehaved(script)
    requires steering != followUp && steering.Valid() && followUp.Valid()
    requires |l0.turns| == next0 <= |script| && l0.pending == pending
    requires OnTrack(l0, script, true, firstTurn0) && Waiting(Scan(state.events), firstTurn0, next0, newMessages0)
    requires Placed(l0, script, start, newMessages0, context0.messages, contextBase0, mark0)
    requires Booked(l0, prompts, first, pending, next0, script, opening, Both(steering, followUp))
    modifies state, context0, steering, followUp
    ensures state.Valid() && state.base == old(state.base) && state.isStreaming == old(state.isStreaming)
    ensures steering.Valid() && followUp.Valid()
    ensures context == context0 || fresh(context)
    ensures |l.turns| == next <= |script|
        && (exit.NothingToDo? ==>
              next0 < next && l.pending == [] && l.origin == SteeringQueue && steering.messages == [])
    ensures exit.OutOfScript? || AtBoundary(Scan(state.events), next, newMessages)
    ensures match exit
      case NothingToDo => OnTrack(l, script, false, false)
      case Ended => 0 < next && EndedEarly(l, script) && WellFormed(l.turns, script) && OverBecause(l, script)
      case OutOfScript =>
        next == |script| && WellFormed(l.turns, script) && Returned(Scan(state.events), false, next, newMessages)
    ensures Placed(l, script, start, newMessages, context.messages, contextBase, mark)
    ensures Booked(l, prompts, first, l.pending, next, script, opening, Both(steering, followUp))
    ensures NoTwins(script) ==> NeverEndsTwin(state.events) == old(NeverEndsTwin(state.events))
  {
    hide Scan, ReduceAll, Track, Reduce, Idle, AtBoundary, TurnOpen, Waiting, ResultMessages, Returned, AfterSteps,
        Taken, SteeringSteps, Handed, Arriving, AfterStep, EndsWith, NewMessages, TakenFrom, NeverEndsTwin,
        NoTwins;
    hide OnTrack, OverBecause, EndedEarly, WellFormed, Follows, Placed, Booked, Starts, StreamsWellBehaved;
    hide AgentStateCell.Valid, PendingMessageQueue.Valid, AgentStateCell.State, StopsAtFailure;
    context, newMessages, l, contextBase, mark := context0, newMessages0, l0, contextBase0, mark0;
    next := next0;
    var firstTurn, hasMoreToolCalls, pendingMessages := firstTurn0, true, pending;
    while hasMoreToolCalls || pendingMessages != []
      invariant state.Valid() && state.base == old(state.base) && state.isStreaming == old(state.isStreaming)
      invariant steering.Valid() && followUp.Valid()
      invariant context == context0 || fresh(context)
      invariant next <= |script| && |l.turns| == next && l.pending == pendingMessages
      invariant (next0 < next && !firstTurn) || (next0 == next && hasMoreToolCalls)
      invariant next0 < next && pendingMessages == [] ==> steering.messages == []
      invariant next0 < next ==> l.origin == SteeringQueue
      invariant OnTrack(l, script, hasMoreToolCalls, firstTurn)
      invariant Waiting(Scan(state.events), firstTurn, next, newMessages)
      invariant Placed(l, script, start, newMessages, context.messages, contextBase, mark)
      invariant Booked(l, prompts, first, pendingMessages, next, script, opening, Both(steering, followUp))
      invariant NoTwins(script) ==> NeverEndsTwin(state.events) == old(NeverEndsTwin(state.events))
      decreases |script| - next
    {
      if next == |script| {
        exit := OutOfScript;
        TrackIsWellFormed(l, script, hasMoreToolCalls, firstTurn);
        CutRun(Scan(state.events), firstTurn, next, newMessages);
        return;
      }
      ghost var l1 := l;
      var message, results;
      context, newMessages, message, results, hasMoreToolCalls, l, contextBase, mark :=
        NextTurn(state, context, newMessages, pendingMessages, hasMoreToolCalls, firstTurn, script, next, l1,
            contextBase, mark, start);
      BookedTurn(l1, prompts, first, pendingMessages, next, script, opening, Both(steering, followUp), message, results,
          hasMoreToolCalls);
      pendingMessages, firstTurn, next := [], false, next + 1;
      if message.Failed() || script[next - 1].stop {
        exit := Ended;
        return;
      }
      ghost var l2 := l;
      pendingMessages, l := PollSteering(steering, followUp, script[next - 1].beforeSteeringPoll, false, script,
                                         hasMoreToolCalls, false, l2, next, prompts, first, opening);
      PlacedPoll(l2, script, start, newMessages, context.messages, contextBase, mark, pendingMessages, SteeringQueue);
      WaitingLater(Scan(state.events), next, newMessages);
    }
    WaitingLater(Scan(state.events), next, newMessages);
    exit := NothingToDo;
  }

  /**
   * The outer loop: after the inner one, follow-ups or the end.  Whether the run
   * completes or is cut where its script ends, the word is well formed, the transcripts
   * agree, the turns follow their scripts, every message handed out by a queue is in the
   * transcript or still pending, and every queued one was handed out, is still queued or
   * was cleared; a complete run leaves nothing pending and ends for one of the three reasons.
   */
  method RunLoop(state: AgentStateCell, steering: PendingMessageQueue, followUp: PendingMessageQueue,
      context0: AgentContext, prompts: seq<Message>, script: seq<TurnScript>, arrivals: seq<Arrival>,
      skipInitialPoll: bool, ghost start: seq<Message>)
    returns (newMessages: seq<Message>, complete: bool, context: AgentContext, ghost l: Ledger,
        ghost first: seq<Message>, ghost contextBase: seq<Message>, ghost mark: nat)
    requires state.Valid() && Idle(state.base) && StreamsWellBehaved(script)
    requires steering != followUp && steering.Valid() && followUp.Valid()
    requires TurnOpen(Scan(state.events), 0, prompts) && context0.messages == start + prompts
    modifies state, context0, steering, followUp
    ensures state.Valid() && state.base == old(state.base) && state.isStreaming == old(state.isStreaming)
    ensures steering.Valid() && followUp.Valid()
    ensures WellFormed(l.turns, script) && if complete then OverBecause(l, script) else |l.turns| == |script|
    ensures StopsAtFailure(l.turns)
    ensures complete && !EndedEarly(l, script) ==> followUp.messages == []
    ensures Returned(Scan(state.events), complete, |l.turns|, newMessages)
    ensures state.messages == state.base.messages + newMessages && Idle(state.State())
    ensures Placed(l, script, start, newMessages, context.messages, contextBase, mark)
    ensures var q := AfterSteps(old(Both(steering, followUp)), Arriving(arrivals)).steering;
      first == if skipInitialPoll then [] else Taken(q.mode, q.messages)
    ensures Booked(l, prompts, first, l.pending, |l.turns|, script,
                   Opening(old(Both(steering, followUp)), arrivals, skipInitialPoll), Both(steering, followUp))
    ensures NoTwins(script) ==> NeverEndsTwin(state.events) == old(NeverEndsTwin(state.events))
  {
    hide Scan, ReduceAll, Track, Reduce, Idle, AtBoundary, TurnOpen, Waiting, ResultMessages, Returned, AfterSteps,
        Taken, SteeringSteps, Handed, Arriving, AfterStep, EndsWith, NewMessages, TakenFrom, NeverEndsTwin,
        NoTwins;
    hide OnTrack, OverBecause, EndedEarly, WellFormed, Follows, Placed, Booked, Starts, StreamsWellBehaved;
    hide AgentStateCell.Valid, PendingMessageQueue.Valid, AgentStateCell.State, StopsAtFailure;
    ghost var opening := Opening(Both(steering, followUp), arrivals, skipInitialPoll);
    context, newMessages, contextBase, mark := context0, prompts, start, 0;
    var next, firstTurn := 0, true;
    ghost var l0 := Ledger(prompts, [], [], Nowhere);
    LedgerInit(prompts, script, start, opening);
    WaitingFirst(Scan(state.events), prompts);
    var pendingMessages;
    pendingMessages, l := PollSteering(steering, followUp, arrivals, skipInitialPoll, script, true, true, l0, 0,
        prompts, [], opening);
    first := pendingMessages;
    PlacedPoll(l0, script, start, newMessages, context.messages, contextBase, mark, pendingMessages, SteeringQueue);
    while true
      invariant state.Valid() && state.base == old(state.base) && state.isStreaming == old(state.isStreaming)
      invariant steering.Valid() && followUp.Valid()
      invariant context == context0 || fresh(context)
      invariant next <= |script| && |l.turns| == next && l.pending == pendingMessages
      invariant OnTrack(l, script, true, firstTurn)
      invariant Waiting(Scan(state.events), firstTurn, next, newMessages)
      invariant Placed(l, script, start, newMessages, context.messages, contextBase, mark)
      invariant Booked(l, prompts, first, pendingMessages, next, script, opening, Both(steering, followUp))
      invariant NoTwins(script) ==> NeverEndsTwin(state.events) == old(NeverEndsTwin(state.events))
      decreases |script| - next
    {
      var exit;
      context, newMessages, next, exit, l, contextBase, mark :=
        RunTurns(state, steering, followUp, context, newMessages, pendingMessages, script, next, firstTurn,
                 l, start, contextBase, mark, prompts, first, opening);
      if exit == OutOfScript {
        complete := false;
        FailureStops(l.turns, script);
        TranscriptReturned(state, false, next, newMessages);
        return;
      }
      if exit == Ended {
        complete := true;
        FailureStops(l.turns, script);
        Finish(state, newMessages, next);
        return;
      }
      firstTurn := false;
      l0 := l;
      pendingMessages, l := PollFollowUp(steering, followUp, script[next - 1].beforeFollowUpPoll, script, firstTurn,
          l0, next, prompts, first, opening);
      PlacedPoll(l0, script, start, newMessages, context.messages, contextBase, mark, pendingMessages, FollowUpQueue);
      WaitingLater(Scan(state.events), next, newMessages);
      if pendingMessages == [] { break; }
    }
    complete := true;
    FailureStops(l.turns, script);
    WaitingLater(Scan(state.events), next, newMessages);
    Finish(state, newMessages, next);
  }
}
