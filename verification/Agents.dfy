/**
 * The entry points of a run (packages/agent/src/agent-loop.ts) and the `Agent` object
 * that owns the transcript and the queues across runs (packages/agent/src/agent.ts).
 */
module Agents {
  import opened Base
  import opened AgentTypes
  import opened EventWord
  import opened LiveState
  import opened AgentLoop
  import opened TurnGrammar
  import opened QueueSteps
  import opened AgentRun

  // ------------------------------------------------------------------
  // Entry points
  // ------------------------------------------------------------------

  lemma FirstTurnOpens(prompts: seq<Message>)
    ensures var w := Track(Track(BLANK, AgentStart), TurnStart);
      && QuietInTurn(w) && TurnOpen(w, 0, []) && TurnOpen(Says(w, prompts), 0, prompts)
  {
    assert [] + prompts == prompts;
  }

  /** What both entry points leave behind. */
  ghost predicate RunDone(state: AgentStateCell, script: seq<TurnScript>, start: seq<Message>,
      newMessages: seq<Message>, complete: bool, context: AgentContext, l: Ledger, contextBase: seq<Message>, mark: nat)
    reads state, context
  {
    && WellFormed(l.turns, script) && (if complete then OverBecause(l, script) else |l.turns| == |script|)
    && StopsAtFailure(l.turns)
    && Returned(Scan(state.events), complete, |l.turns|, newMessages)
    && state.messages == state.base.messages + newMessages && Idle(state.State())
    && newMessages == NewMessages(l)
    && Placed(l, script, start, newMessages, context.messages, contextBase, mark)
    && (NoTwins(script) ==> NeverEndsTwin(state.events))
  }

  /** What the entry points share: `agent_start`, `turn_start`, the prompts, the loops. */
  method RunAgentLoopFrom(state: AgentStateCell, steering: PendingMessageQueue, followUp: PendingMessageQueue,
      context0: AgentContext, ghost contextMessages: seq<Message>, prompts: seq<Message>, script: seq<TurnScript>,
      arrivals: seq<Arrival>, skipInitialPoll: bool)
    returns (newMessages: seq<Message>, complete: bool, context: AgentContext, ghost l: Ledger,
        ghost first: seq<Message>, ghost contextBase: seq<Message>, ghost mark: nat)
    requires state.Valid() && state.events == [] && Idle(state.base) && StreamsWellBehaved(script)
    requires steering != followUp && steering.Valid() && followUp.Valid()
    requires context0.messages == contextMessages + prompts
    modifies state, context0, steering, followUp
    ensures state.Valid() && state.base == old(state.base) && state.isStreaming == old(state.isStreaming)
    ensures steering.Valid() && followUp.Valid()
    ensures RunDone(state, script, contextMessages, newMessages, complete, context, l, contextBase, mark)
    ensures complete && !EndedEarly(l, script) ==> followUp.messages == []
    ensures var q := AfterSteps(old(Both(steering, followUp)), Arriving(arrivals)).steering;
      first == if skipInitialPoll then [] else Taken(q.mode, q.messages)
    ensures Booked(l, prompts, first, l.pending, |l.turns|, script,
                   Opening(old(Both(steering, followUp)), arrivals, skipInitialPoll), Both(steering, followUp))
  {
    FirstTurnOpens(prompts);
    assert Scan(state.events) == BLANK && NeverEndsTwin(state.events);
    hide Scan, ReduceAll, Track, Reduce, Idle, TurnOpen, Says, Returned, StreamsWellBehaved, QuietInTurn, Transcripts;
    hide StopsAtFailure, OverBecause, EndedEarly, WellFormed, Booked, NewMessages, AfterSteps, Taken;
    hide NeverEndsTwin, NoTwins;
    state.ProcessEvents(AgentStart);
    state.ProcessEvents(TurnStart);
    Announce(state, prompts);
    newMessages, complete, context, l, first, contextBase, mark :=
      RunLoop(state, steering, followUp, context0, prompts, script, arrivals, skipInitialPoll, contextMessages);
    PlacedSays(l, script, contextMessages, newMessages, context.messages, contextBase, mark);
  }

  method RunAgentLoop(state: AgentStateCell, steering: PendingMessageQueue, followUp: PendingMessageQueue,
      prompts: seq<Message>, contextMessages: seq<Message>, script: seq<TurnScript>, arrivals: seq<Arrival>,
      skipInitialPoll: bool)
    returns (newMessages: seq<Message>, complete: bool, context: AgentContext, ghost l: Ledger,
        ghost first: seq<Message>, ghost contextBase: seq<Message>, ghost mark: nat)
    requires state.Valid() && state.events == [] && Idle(state.base) && StreamsWellBehaved(script)
    requires steering != followUp && steering.Valid() && followUp.Valid()
    modifies state, steering, followUp
    ensures state.Valid() && state.base == old(state.base) && state.isStreaming == old(state.isStreaming)
    ensures steering.Valid() && followUp.Valid()
    ensures RunDone(state, script, contextMessages, newMessages, complete, context, l, contextBase, mark)
    ensures complete && !EndedEarly(l, script) ==> followUp.messages == []
    ensures var q := AfterSteps(old(Both(steering, followUp)), Arriving(arrivals)).steering;
      first == if skipInitialPoll then [] else Taken(q.mode, q.messages)
    ensures Booked(l, prompts, first, l.pending, |l.turns|, script,
                   Opening(old(Both(steering, followUp)), arrivals, skipInitialPoll), Both(steering, followUp))
  {
    hide Scan, ReduceAll, Idle, RunDone, EndedEarly, Booked, StreamsWellBehaved, AfterSteps, Taken;
    context := new AgentContext(contextMessages + prompts);
    newMessages, complete, context, l, first, contextBase, mark :=
      RunAgentLoopFrom(state, steering, followUp, context, contextMessages, prompts, script, arrivals, skipInitialPoll);
  }

  lemma PlacedSays(l: Ledger, script: seq<TurnScript>, start: seq<Message>, newMessages: seq<Message>,
      context: seq<Message>, contextBase: seq<Message>, mark: nat)
    requires Placed(l, script, start, newMessages, context, contextBase, mark)
    ensures newMessages == NewMessages(l)
  {
  }

  method Announce(state: AgentStateCell, prompts: seq<Message>)
    requires state.Valid() && QuietInTurn(Scan(state.events))
    modifies state
    ensures state.Valid() && state.base == old(state.base) && state.isStreaming == old(state.isStreaming)
    ensures Scan(state.events) == Says(old(Scan(state.events)), prompts)
    ensures state.events == old(state.events) + Brackets(prompts)
    ensures NeverEndsTwin(state.events) == old(NeverEndsTwin(state.events))
  {
    hide Scan, ReduceAll, Track, Reduce, Says, QuietInTurn, NeverEndsTwin;
    hide Brackets;
    ghost var w, events := Scan(state.events), state.events;
    SaysInit(w);
    BracketsMore(events, [], User(0));
    for i := 0 to |prompts|
      invariant state.Valid() && state.base == old(state.base) && state.isStreaming == old(state.isStreaming)
      invariant Scan(state.events) == Says(w, prompts[..i]) && state.events == events + Brackets(prompts[..i])
      invariant NeverEndsTwin(state.events) == old(NeverEndsTwin(state.events))
    {
      SaysMore(w, prompts[..i], [prompts[i]]);
      assert prompts[..i+1] == prompts[..i] + [prompts[i]];
      BracketsMore(events, prompts[..i], prompts[i]);
      EmitMessage(state, prompts[i]);
    }
    assert prompts[..|prompts|] == prompts;
  }

  datatype Refusal = AlreadyProcessing | NoMessages | FromAssistant

  /** Continues from a transcript that ends in a user or tool-result message. */
  method RunAgentLoopContinue(state: AgentStateCell, steering: PendingMessageQueue, followUp: PendingMessageQueue,
      contextMessages: seq<Message>, script: seq<TurnScript>, arrivals: seq<Arrival>)
    returns (refusal: Option<Refusal>, newMessages: seq<Message>, complete: bool, context: AgentContext,
        ghost l: Ledger, ghost first: seq<Message>, ghost contextBase: seq<Message>, ghost mark: nat)
    requires state.Valid() && state.events == [] && Idle(state.base) && StreamsWellBehaved(script)
    requires steering != followUp && steering.Valid() && followUp.Valid()
    modifies state, steering, followUp
    ensures state.Valid() && state.base == old(state.base) && state.isStreaming == old(state.isStreaming)
    ensures steering.Valid() && followUp.Valid()
    ensures refusal == if contextMessages == [] then Some(NoMessages)
                       else if contextMessages[|contextMessages|-1].Assistant? then Some(FromAssistant) else None
    ensures refusal.Some? ==> state.events == [] && Both(steering, followUp) == old(Both(steering, followUp))
    ensures refusal.None? ==>
              && RunDone(state, script, contextMessages, newMessages, complete, context, l, contextBase, mark)
              && (complete && !EndedEarly(l, script) ==> followUp.messages == [])
              && (var q := AfterSteps(old(Both(steering, followUp)), Arriving(arrivals)).steering;
                  first == Taken(q.mode, q.messages))
              && Booked(l, [], first, l.pending, |l.turns|, script,
                        Opening(old(Both(steering, followUp)), arrivals, false), Both(steering, followUp))
  {
    hide Scan, ReduceAll, Idle, RunDone, EndedEarly, Booked, StreamsWellBehaved, AfterSteps, Taken;
    refusal, newMessages, complete := None, [], false;
    context := new AgentContext(contextMessages);
    l, first, contextBase, mark := Ledger([], [], [], Nowhere), [], [], 0;
    if contextMessages == [] {
      refusal := Some(NoMessages);
    } else if contextMessages[|contextMessages|-1].Assistant? {
      refusal := Some(FromAssistant);
    } else {
      assert contextMessages + [] == contextMessages;
      newMessages, complete, context, l, first, contextBase, mark :=
        RunAgentLoopFrom(state, steering, followUp, context, contextMessages, [], script, arrivals, false);
    }
  }

  // ------------------------------------------------------------------
  // The agent across runs
  // ------------------------------------------------------------------

  /** One run, and the queue its prompts were taken from, if any. */
  datatype Run = Run(ledger: Ledger, promptOrigin: Origin)

  /** What a run took from a queue, in order: its prompts, then what it injected or holds. */
  function RunTook(run: Run, origin: Origin): seq<Message> {
    (if run.promptOrigin == origin then run.ledger.prompts else []) + TakenFrom(run.ledger, origin)
  }

  function Took(runs: seq<Run>, origin: Origin): seq<Message> {
    if runs == [] then [] else Took(runs[..|runs|-1], origin) + RunTook(runs[|runs|-1], origin)
  }

  function Said(runs: seq<Run>): seq<Message> {
    if runs == [] then [] else Said(runs[..|runs|-1]) + NewMessages(runs[|runs|-1].ledger)
  }

  lemma TookOneMore(runs: seq<Run>, run: Run, origin: Origin)
    ensures Took(runs + [run], origin) == Took(runs, origin) + RunTook(run, origin)
    ensures Said(runs + [run]) == Said(runs) + NewMessages(run.ledger)
  {
    assert (runs + [run])[..|runs|] == runs;
  }

  /**
   * How a queue's account continues over a run: what was handed out before, the prompts
   * if they came from this queue, what the run itself took.
   */
  lemma AccountOneMore(base: seq<Message>, runs: seq<Run>, run: Run, origin: Origin, before: seq<Message>,
      after: seq<Message>)
    requires before == base + Took(runs, origin) + (if run.promptOrigin == origin then run.ledger.prompts else [])
    requires after == before + TakenFrom(run.ledger, origin)
    ensures after == base + Took(runs + [run], origin)
  {
    TookOneMore(runs, run, origin);
    hide Took, TakenFrom;
    var prompts := if run.promptOrigin == origin then run.ledger.prompts else [];
    assert base + (Took(runs, origin) + (prompts + TakenFrom(run.ledger, origin))) ==
           base + Took(runs, origin) + prompts + TakenFrom(run.ledger, origin);
  }

  lemma SaidOneMore(base: seq<Message>, runs: seq<Run>, run: Run, before: seq<Message>, after: seq<Message>)
    requires before == base + Said(runs) && after == before + NewMessages(run.ledger)
    ensures after == base + Said(runs + [run])
  {
    TookOneMore(runs, run, Nowhere);
    hide Said, NewMessages;
    assert base + (Said(runs) + NewMessages(run.ledger)) == base + Said(runs) + NewMessages(run.ledger);
  }

  /** A finished run holds nothing back: everything it took is in the transcript. */
  predicate AllInjected(runs: seq<Run>) {
    forall k :: 0 <= k < |runs| ==> runs[k].ledger.pending == []
  }

  /** What every run the agent makes satisfies. */
  ghost predicate RanAsScripted(l: Ledger, script: seq<TurnScript>, complete: bool, skipInitialPoll: bool) {
    && WellFormed(l.turns, script) && StopsAtFailure(l.turns)
    && (if complete then OverBecause(l, script) else |l.turns| == |script|)
    && (skipInitialPoll && l.turns != [] ==> l.turns[0].injected == [])
  }

  ghost predicate AddsRun(before: seq<Run>, after: seq<Run>, prompts: seq<Message>, promptOrigin: Origin,
      script: seq<TurnScript>, complete: bool, skipInitialPoll: bool) {
    && |after| == |before| + 1 && after[..|before|] == before
    && var run := after[|before|];
      run.promptOrigin == promptOrigin && run.ledger.prompts == prompts
          && RanAsScripted(run.ledger, script, complete, skipInitialPoll)
  }

  /**
   * What the listeners saw of the last run: a well-formed word saying its messages, over
   * if the run is, in which no call ended while another of its id ran if the script has none.
   */
  ghost predicate Reported(events: seq<Event>, runs: seq<Run>, complete: bool, script: seq<TurnScript>) {
    && runs != [] && (NoTwins(script) ==> NeverEndsTwin(events))
    && var l := runs[|runs|-1].ledger; Returned(Scan(events), complete, |l.turns|, NewMessages(l))
  }

  /** Then the pending set of every reducer that starts idle is the set of running calls throughout. */
  lemma ReportedPendingExact(base: AgentState, events: seq<Event>, runs: seq<Run>, complete: bool,
      script: seq<TurnScript>)
    requires Idle(base) && Reported(events, runs, complete, script) && NoTwins(script)
    ensures !Scan(events).Bad? && AlwaysPendingExact(base, events)
  {
    hide Scan, NoTwins, NewMessages;
    PendingExactIffNoTwins(base, events);
  }

  lemma ScriptedRun(l: Ledger, script: seq<TurnScript>, complete: bool, skipInitialPoll: bool, first: seq<Message>)
    requires WellFormed(l.turns, script) && (if complete then OverBecause(l, script) else |l.turns| == |script|)
    requires l.turns != [] ==> l.turns[0].injected == first
    requires skipInitialPoll ==> first == []
    ensures RanAsScripted(l, script, complete, skipInitialPoll)
    ensures complete ==> l.pending == []
  {
    FailureStops(l.turns, script);
    hide WellFormed, StopsAtFailure;
  }

  /** What happens to the queues during a run. */
  function StepsOf(l: Ledger, arrivals: seq<Arrival>, skipInitialPoll: bool, script: seq<TurnScript>): seq<Step> {
    RunSteps(arrivals, skipInitialPoll, script, l.turns, l.origin)
  }

  lemma RunAccounts(l: Ledger, prompts: seq<Message>, first: seq<Message>, script: seq<TurnScript>, opening: Opening,
      q: Queues)
    requires Booked(l, prompts, first, l.pending, |l.turns|, script, opening, q)
    ensures l.prompts == prompts && (l.turns != [] ==> l.turns[0].injected == first)
    ensures q.steering.drained == opening.queues.steering.drained + TakenFrom(l, SteeringQueue)
    ensures q.followUp.drained == opening.queues.followUp.drained + TakenFrom(l, FollowUpQueue)
    ensures Followed(opening.queues, StepsOf(l, opening.arrivals, opening.skipInitialPoll, script), q)
  {
    hide Followed, RunSteps;
  }

  lemma AllInjectedOneMore(runs: seq<Run>, run: Run)
    requires AllInjected(runs)
    ensures run.ledger.pending == [] ==> AllInjected(runs + [run])
  {
  }

  lemma SaidNothing()
    ensures Said([]) == [] && Took([], SteeringQueue) == [] && Took([], FollowUpQueue) == [] && AllInjected([])
  {
  }

  predicate MayContinueFrom(messages: seq<Message>) {
    messages != [] && !messages[|messages|-1].Assistant?
  }

  datatype Outcome = Refused(refusal: Refusal) | Ran(complete: bool)

  class Agent {
    const state: AgentStateCell
    const steeringQueue: PendingMessageQueue
    const followUpQueue: PendingMessageQueue
    var activeRun: bool
    ghost var initial: seq<Message>     // the transcript before the first run
    ghost var steered0: seq<Message>    // what the queues had handed out by then
    ghost var followed0: seq<Message>
    ghost var runs: seq<Run>

    ghost function QueuesNow(): Queues
      reads this, steeringQueue, followUpQueue
    {
      Both(steeringQueue, followUpQueue)
    }

    /** What happened to the queues during the last run. */
    ghost function LastSteps(skipInitialPoll: bool, script: seq<TurnScript>, arrivals: seq<Arrival>): seq<Step>
      reads this
    {
      if runs == [] then [] else StepsOf(runs[|runs|-1].ledger, arrivals, skipInitialPoll, script)
    }

    /** Everything except the account of the prompts about to run. */
    ghost predicate Owns()
      reads this, state, steeringQueue, followUpQueue
    {
      && steeringQueue != followUpQueue && steeringQueue.Valid() && followUpQueue.Valid()
      && state.isStreaming == activeRun
      && state.messages == initial + Said(runs)
      && (!activeRun ==> Idle(state.State()) && AllInjected(runs))
    }

    /**
     * The transcript is the initial one and what all runs said; what each queue handed
     * out is, in order, what the runs took from it; streaming means a run is active.
     */
    ghost predicate Valid()
      reads this, state, steeringQueue, followUpQueue
    {
      && Owns()
      && steeringQueue.drained == steered0 + Took(runs, SteeringQueue)
      && followUpQueue.drained == followed0 + Took(runs, FollowUpQueue)
    }

    constructor (messages: seq<Message>, steeringMode: QueueMode, followUpMode: QueueMode)
      ensures Valid() && !activeRun && initial == messages && runs == []
      ensures QueuesNow() == Queues(QueueState([], steeringMode, [], []), QueueState([], followUpMode, [], []))
      ensures fresh(state) && fresh(steeringQueue) && fresh(followUpQueue)
    {
      state := new AgentStateCell(messages);
      steeringQueue := new PendingMessageQueue(steeringMode);
      followUpQueue := new PendingMessageQueue(followUpMode);
      activeRun := false;
      initial, steered0, followed0, runs := messages, [], [], [];
    }

    /** What a caller may do to the queues at any time. */
    method Queue(arrivals: seq<Arrival>)
      requires Valid()
      modifies steeringQueue, followUpQueue
      ensures Valid() && Followed(old(QueuesNow()), Arriving(arrivals), QueuesNow())
    {
      hide Idle, Said, Took, AllInjected, AfterSteps, Followed, Handed;
      FollowedSteps(QueuesNow(), Arriving(arrivals));
      Deliver(steeringQueue, followUpQueue, arrivals);
    }

    method Reset() returns (refusal: Option<Refusal>)
      requires Valid()
      modifies this, state, steeringQueue, followUpQueue
      ensures Valid() && activeRun == old(activeRun)
      ensures refusal == if old(activeRun) then Some(AlreadyProcessing) else None
      ensures refusal.Some? ==>
          state.messages == old(state.messages) && runs == old(runs) && QueuesNow() == old(QueuesNow())
      ensures refusal.None? ==>
          && state.State() == AgentState([], None, {}, None)
          && QueuesNow() == Queues(Cleared(old(steeringQueue.State())), Cleared(old(followUpQueue.State())))
    {
      hide Handed, Departures, Said, Took, AllInjected;
      if activeRun { return Some(AlreadyProcessing); }
      SaidNothing();
      state.messages, state.isStreaming := [], false;
      state.streamingMessage, state.pendingToolCalls, state.errorMessage := None, {}, None;
      followUpQueue.Clear();
      steeringQueue.Clear();
      initial, runs, steered0, followed0 := [], [], steeringQueue.drained, followUpQueue.drained;
      return None;
    }

    /** `finishRun`. */
    method FinishRun()
      modifies `activeRun, state
      ensures !activeRun && !state.isStreaming && Idle(state.State())
      ensures state.messages == old(state.messages) && state.events == old(state.events)
    {
      state.FinishRun();
      activeRun := false;
    }

    /** The executor: the entry point, on a snapshot of the transcript. */
    method Execute(messages: seq<Message>, continuation: bool, skipInitialPoll: bool, script: seq<TurnScript>,
        arrivals: seq<Arrival>)
      returns (complete: bool, ghost l: Ledger)
      requires state.Valid() && state.events == [] && Idle(state.base) && state.base == state.State()
          && StreamsWellBehaved(script)
      requires steeringQueue != followUpQueue && steeringQueue.Valid() && followUpQueue.Valid()
      requires continuation ==> messages == [] && MayContinueFrom(state.messages) && !skipInitialPoll
      modifies state, steeringQueue, followUpQueue
      ensures steeringQueue.Valid() && followUpQueue.Valid() && state.isStreaming == old(state.isStreaming)
      ensures l.prompts == messages && RanAsScripted(l, script, complete, skipInitialPoll)
          && (complete ==> l.pending == [])
      ensures Returned(Scan(state.events), complete, |l.turns|, NewMessages(l))
      ensures NoTwins(script) ==> NeverEndsTwin(state.events)
      ensures state.messages == old(state.messages) + NewMessages(l)
      ensures steeringQueue.drained == old(steeringQueue.drained) + TakenFrom(l, SteeringQueue)
      ensures followUpQueue.drained == old(followUpQueue.drained) + TakenFrom(l, FollowUpQueue)
      ensures Followed(old(QueuesNow()), StepsOf(l, arrivals, skipInitialPoll, script), QueuesNow())
    {
      hide Scan, ReduceAll, Returned, StreamsWellBehaved, NewMessages, TakenFrom, WellFormed, OverBecause, EndedEarly;
      hide RanAsScripted, Transcripts, Placed, Accounts, Booked, AfterSteps, Taken, Followed, StepsOf, Handed,
          NeverEndsTwin, NoTwins;
      ghost var opening := Opening(QueuesNow(), arrivals, skipInitialPoll);
      var newMessages, context;
      ghost var first, contextBase, mark;
      if continuation {
        var refusal;
        refusal, newMessages, complete, context, l, first, contextBase, mark :=
          RunAgentLoopContinue(state, steeringQueue, followUpQueue, state.messages, script, arrivals);
      } else {
        newMessages, complete, context, l, first, contextBase, mark :=
          RunAgentLoop(state, steeringQueue, followUpQueue, messages, state.messages, script, arrivals,
              skipInitialPoll);
      }
      RunAccounts(l, messages, first, script, opening, QueuesNow());
      ScriptedRun(l, script, complete, skipInitialPoll, first);
    }

    /**
     * `runWithLifecycle` around either entry point.  The queue the prompts came from,
     * if any, has already handed them out.
     */
    method RunWithLifecycle(messages: seq<Message>, continuation: bool, skipInitialPoll: bool, script: seq<TurnScript>,
        arrivals: seq<Arrival>, ghost promptOrigin: Origin)
      returns (complete: bool)
      requires Owns() && !activeRun && StreamsWellBehaved(script)
      requires continuation ==> messages == [] && MayContinueFrom(state.messages) && !skipInitialPoll
      requires steeringQueue.drained ==
          steered0 + Took(runs, SteeringQueue) + (if promptOrigin == SteeringQueue then messages else [])
      requires followUpQueue.drained ==
          followed0 + Took(runs, FollowUpQueue) + (if promptOrigin == FollowUpQueue then messages else [])
      modifies this, state, steeringQueue, followUpQueue
      ensures Valid() && activeRun == !complete && initial == old(initial)
      ensures AddsRun(old(runs), runs, messages, promptOrigin, script, complete, skipInitialPoll)
      ensures Reported(state.events, runs, complete, script)
      ensures Followed(old(QueuesNow()), LastSteps(skipInitialPoll, script, arrivals), QueuesNow())
    {
      hide Scan, ReduceAll, Said, Took, AllInjected, Returned, StreamsWellBehaved, NewMessages, TakenFrom,
          RanAsScripted, Followed, StepsOf, Handed, NeverEndsTwin, NoTwins;
      ghost var runs0, said0, steered, followed := runs, state.messages, steeringQueue.drained, followUpQueue.drained;
      activeRun := true;
      state.BeginRun();
      ghost var l;
      complete, l := Execute(messages, continuation, skipInitialPoll, script, arrivals);
      ghost var run := Run(l, promptOrigin);
      AccountOneMore(steered0, runs0, run, SteeringQueue, steered, steeringQueue.drained);
      AccountOneMore(followed0, runs0, run, FollowUpQueue, followed, followUpQueue.drained);
      SaidOneMore(initial, runs0, run, said0, state.messages);
      AllInjectedOneMore(runs0, run);
      runs := runs0 + [run];
      if complete {
        FinishRun();
      }
    }

    /** Starts a run from new messages, unless one is active. */
    method Prompt(messages: seq<Message>, script: seq<TurnScript>, arrivals: seq<Arrival>) returns (r: Outcome)
      requires Valid() && StreamsWellBehaved(script)
      modifies this, state, steeringQueue, followUpQueue
      ensures Valid() && initial == old(initial)
      ensures r.Refused? <==> old(activeRun)
      ensures r.Refused? ==>
          && r.refusal == AlreadyProcessing && runs == old(runs) && state.messages == old(state.messages) && activeRun
          && QueuesNow() == old(QueuesNow())
      ensures r.Ran? ==> activeRun == !r.complete && Reported(state.events, runs, r.complete, script)
      ensures r.Ran? ==> AddsRun(old(runs), runs, messages, Nowhere, script, r.complete, false)
      ensures r.Ran? ==>
          Followed(old(QueuesNow()), LastSteps(false, script, arrivals), QueuesNow())
    {
      hide Scan, ReduceAll, Said, Took, AllInjected, StreamsWellBehaved, Reported, RanAsScripted, Followed, StepsOf,
          Handed;
      if activeRun { return Refused(AlreadyProcessing); }
      assert steered0 + Took(runs, SteeringQueue) + [] == steered0 + Took(runs, SteeringQueue);
      assert followed0 + Took(runs, FollowUpQueue) + [] == followed0 + Took(runs, FollowUpQueue);
      var complete := RunWithLifecycle(messages, false, false, script, arrivals, Nowhere);
      r := Ran(complete);
    }

    /**
     * Continues: from a user or tool-result message directly, from an assistant message
     * only with queued messages as prompts, steering before follow-ups.
     */
    method Continue(script: seq<TurnScript>, arrivals: seq<Arrival>) returns (r: Outcome)
      requires Valid() && StreamsWellBehaved(script)
      modifies this, state, steeringQueue, followUpQueue
      ensures Valid() && initial == old(initial)
      ensures r.Refused? ==> runs == old(runs) && state.messages == old(state.messages) && activeRun == old(activeRun)
      ensures r == Refused(AlreadyProcessing) <==> old(activeRun)
      ensures r == Refused(NoMessages) <==> !old(activeRun) && old(state.messages) == []
      ensures r == Refused(FromAssistant) <==>
                && !old(activeRun) && old(state.messages) != [] && !MayContinueFrom(old(state.messages))
                && old(steeringQueue.messages) == [] && old(followUpQueue.messages) == []
      ensures r.Refused? ==> QueuesNow() == old(QueuesNow())
      ensures r.Ran? ==> activeRun == !r.complete && Reported(state.events, runs, r.complete, script)
      ensures r.Ran? ==>
                if MayContinueFrom(old(state.messages)) then AddsRun(old(runs), runs, [], Nowhere, script, r.complete,
                    false)
                else
                  var steering := Taken(old(steeringQueue.mode), old(steeringQueue.messages));
                  var followUps := Taken(old(followUpQueue.mode), old(followUpQueue.messages));
                  if steering != [] then AddsRun(old(runs), runs, steering, SteeringQueue, script, r.complete, true)
                  else AddsRun(old(runs), runs, followUps, FollowUpQueue, script, r.complete, false)
      ensures r.Ran? ==>
                if MayContinueFrom(old(state.messages)) then
                  Followed(old(QueuesNow()), LastSteps(false, script, arrivals), QueuesNow())
                else if old(steeringQueue.messages) != [] then
                  Followed(old(QueuesNow()), [PollSteering] + LastSteps(true, script, arrivals), QueuesNow())
                else
                  Followed(old(QueuesNow()), [PollSteering, PollFollowUp] + LastSteps(false, script, arrivals),
                           QueuesNow())
    {
      hide Scan, ReduceAll, Said, Took, AllInjected, StreamsWellBehaved, Reported, RanAsScripted, Followed, StepsOf,
          Handed, Departures, StopsAtFailure, Drained, Taken;
      if activeRun { return Refused(AlreadyProcessing); }
      if state.messages == [] { return Refused(NoMessages); }
      var complete;
      assert steered0 + Took(runs, SteeringQueue) + [] == steered0 + Took(runs, SteeringQueue);
      assert followed0 + Took(runs, FollowUpQueue) + [] == followed0 + Took(runs, FollowUpQueue);
      if state.messages[|state.messages|-1].Assistant? {
        ghost var q0 := QueuesNow();
        var queuedSteering := steeringQueue.Drain();
        ghost var q1 := QueuesNow();
        if queuedSteering != [] {
          complete := RunWithLifecycle(queuedSteering, false, true, script, arrivals, SteeringQueue);
          FollowedAfterPolls(q0, [PollSteering], q1, LastSteps(true, script, arrivals), QueuesNow());
          return Ran(complete);
        }
        var queuedFollowUps := followUpQueue.Drain();
        ghost var q2 := QueuesNow();
        if queuedFollowUps != [] {
          complete := RunWithLifecycle(queuedFollowUps, false, false, script, arrivals, FollowUpQueue);
          FollowedAfterPolls(q0, [PollSteering, PollFollowUp], q2, LastSteps(false, script, arrivals), QueuesNow());
          return Ran(complete);
        }
        return Refused(FromAssistant);
      }
      complete := RunWithLifecycle([], true, false, script, arrivals, Nowhere);
      r := Ran(complete);
    }
  }
}
