/**
 * The language of event words a run may emit, and what the `Agent` reducer
 * (packages/agent/src/agent.ts, `processEvents`) makes of every such word.
 */
module EventWord {
  import opened Base
  import opened AgentTypes

  // ------------------------------------------------------------------
  // The language: well-bracketed words
  // ------------------------------------------------------------------

  datatype Phase = Fresh | Between | InTurn | Over

  /**
   * What a prefix of a run has said so far: how many turns have ended, all messages
   * that have ended, those of the current turn, the open message bracket, the calls
   * running now (with multiplicity) and those started in the current turn.
   */
  datatype Tracker =
    | Bad
    | Tracker(phase: Phase, turns: nat, all: seq<Message>, turn: seq<Message>,
              open: Option<Message>, running: multiset<CallId>, started: seq<CallId>)

  const BLANK := Tracker(Fresh, 0, [], [], None, multiset{}, [])

  /** A turn closes with its assistant message followed by exactly its tool results. */
  predicate Closes(turn: seq<Message>, message: AssistantMessage, results: seq<ToolResultMessage>) {
    && |results| < |turn|
    && turn[|turn| - |results| - 1..] == [Assistant(message)] + ResultMessages(results)
  }

  function Track(w: Tracker, e: Event): Tracker {
    if w.Bad? then Bad
    else
      var quiet := w.phase.InTurn? && w.open.None?;
      match e
      case AgentStart =>
        if w.phase.Fresh? then w.(phase := Between) else Bad
      case TurnStart =>
        if w.phase.Between? then w.(phase := InTurn, turn := [], started := []) else Bad
      case MessageStart(m) =>
        if quiet && w.running == multiset{} then w.(open := Some(m)) else Bad
      case MessageUpdate(m) =>
        if w.phase.InTurn? && w.open.Some? && w.open.value.SameRole(m) then w.(open := Some(m)) else Bad
      case MessageEnd(m) =>
        if w.phase.InTurn? && w.open.Some? && w.open.value.SameRole(m)
        then w.(open := None, all := w.all + [m], turn := w.turn + [m]) else Bad
      case ToolStart(call) =>
        if quiet then w.(running := w.running + multiset{call.id}, started := w.started + [call.id]) else Bad
      case ToolUpdate(call, _) =>
        if quiet && call.id in w.running then w else Bad
      case ToolEnd(id, _, _, _) =>
        if quiet && id in w.running then w.(running := w.running - multiset{id}) else Bad
      case TurnEnd(message, results) =>
        if quiet && w.running == multiset{} && w.started == ResultIds(results) && Closes(w.turn, message, results)
        then w.(phase := Between, turns := w.turns + 1) else Bad
      case AgentEnd(messages) =>
        if w.phase.Between? && w.turns > 0 && messages == w.all then w.(phase := Over) else Bad
  }

  function Scan(events: seq<Event>): Tracker {
    if events == [] then BLANK
    else Track(Scan(events[..|events|-1]), events[|events|-1])
  }

  lemma ScanSnoc(events: seq<Event>, e: Event)
    ensures Scan(events + [e]) == Track(Scan(events), e)
  {
    assert (events + [e])[..|events|] == events;
  }

  // ------------------------------------------------------------------
  // The reducer
  // ------------------------------------------------------------------

  datatype AgentState = AgentState(messages: seq<Message>, streamingMessage: Option<Message>,
                                   pendingToolCalls: set<CallId>, errorMessage: Option<nat>)

  function Reduce(s: AgentState, e: Event): AgentState {
    match e
    case MessageStart(m) => s.(streamingMessage := Some(m))
    case MessageUpdate(m) => s.(streamingMessage := Some(m))
    case MessageEnd(m) => s.(streamingMessage := None, messages := s.messages + [m])
    case ToolStart(call) => s.(pendingToolCalls := s.pendingToolCalls + {call.id})
    case ToolEnd(id, _, _, _) => s.(pendingToolCalls := s.pendingToolCalls - {id})
    case TurnEnd(message, _) =>
      if message.errorMessage.Some? then s.(errorMessage := message.errorMessage) else s
    case AgentEnd(_) => s.(streamingMessage := None)
    case _ => s
  }

  function ReduceAll(s: AgentState, events: seq<Event>): AgentState {
    if events == [] then s
    else Reduce(ReduceAll(s, events[..|events|-1]), events[|events|-1])
  }

  lemma ReduceAllSnoc(s: AgentState, events: seq<Event>, e: Event)
    ensures ReduceAll(s, events + [e]) == Reduce(ReduceAll(s, events), e)
  {
    assert (events + [e])[..|events|] == events;
  }

  /** Whatever came before, nothing streams once the agent has ended, and the transcript stays. */
  lemma AgentEndCloses(s: AgentState, messages: seq<Message>)
    ensures Reduce(s, AgentEnd(messages)) ==
            AgentState(s.messages, None, s.pendingToolCalls, s.errorMessage)
  {
  }

  /** The state in which a run starts. */
  predicate Idle(s: AgentState) {
    s.streamingMessage.None? && s.pendingToolCalls == {}
  }

  /** What the reduced state has to do with the word so far. */
  ghost predicate Agrees(base: AgentState, s: AgentState, w: Tracker) {
    && !w.Bad?
    && s.messages == base.messages + w.all
    && s.streamingMessage == w.open
    && (forall id :: id in s.pendingToolCalls ==> id in w.running)
  }

  /** Outside turns nothing is open and nothing runs. */
  ghost predicate QuietOutsideTurns(w: Tracker) {
    !w.Bad? && !w.phase.InTurn? ==> w.open.None? && w.running == multiset{}
  }

  lemma StepStaysQuiet(w: Tracker, e: Event)
    requires QuietOutsideTurns(w)
    ensures QuietOutsideTurns(Track(w, e))
  {
  }

  lemma {:induction false} WordStaysQuiet(events: seq<Event>)
    ensures QuietOutsideTurns(Scan(events))
  {
    if events != [] {
      WordStaysQuiet(events[..|events|-1]);
      StepStaysQuiet(Scan(events[..|events|-1]), events[|events|-1]);
    }
  }

  lemma StepAgrees(base: AgentState, s: AgentState, w: Tracker, e: Event)
    requires Agrees(base, s, w) && QuietOutsideTurns(w) && !Track(w, e).Bad?
    ensures Agrees(base, Reduce(s, e), Track(w, e))
  {
    if e.MessageEnd? {
      assert base.messages + (w.all + [e.message_]) == base.messages + w.all + [e.message_];
    }
  }

  /**
   * After every prefix of a word of the language the reduced transcript is the starting
   * one followed by the ended messages, a message is streaming exactly while its bracket
   * is open, and every pending call is running; outside turns nothing is pending.
   */
  lemma {:induction false} ReducerFollowsWord(base: AgentState, events: seq<Event>)
    requires Idle(base) && !Scan(events).Bad?
    ensures Agrees(base, ReduceAll(base, events), Scan(events))
    ensures !Scan(events).phase.InTurn? ==> Idle(ReduceAll(base, events))
  {
    WordStaysQuiet(events);
    if events != [] {
      var init, last := events[..|events|-1], events[|events|-1];
      ReducerFollowsWord(base, init);
      WordStaysQuiet(init);
      StepAgrees(base, ReduceAll(base, init), Scan(init), last);
    }
  }

  /** Event `k` ends a turn with an error, and no later one does. */
  predicate LastReports(events: seq<Event>, k: nat) {
    && k < |events| && Reports(events[k]) && forall j :: k < j < |events| ==> !Reports(events[j])
  }

  predicate Reports(e: Event) {
    e.TurnEnd? && e.message.errorMessage.Some?
  }

  /** The error shown is the last one that a turn ended in, or the one from before. */
  lemma {:induction false} ErrorIsLastReported(base: AgentState, events: seq<Event>, k: nat)
    ensures LastReports(events, k) ==> ReduceAll(base, events).errorMessage == events[k].message.errorMessage
    ensures (forall j :: 0 <= j < |events| ==> !Reports(events[j])) ==>
      ReduceAll(base, events).errorMessage == base.errorMessage
  {
    if events != [] {
      var init, last := events[..|events|-1], events[|events|-1];
      ErrorIsLastReported(base, init, k);
      StepError(ReduceAll(base, init), last);
      hide Reduce;
      if k < |init| && LastReports(events, k) {
        assert init[k] == events[k] && !Reports(last);
        assert LastReports(init, k);
      }
    }
  }

  lemma StepError(s: AgentState, e: Event)
    ensures Reduce(s, e).errorMessage ==
            if e.TurnEnd? && e.message.errorMessage.Some? then e.message.errorMessage else s.errorMessage
  {
  }

  /** The pending set is exactly the running calls. */
  ghost predicate PendingExact(s: AgentState, w: Tracker)
    requires !w.Bad?
  {
    forall id :: id in s.pendingToolCalls <==> id in w.running
  }

  /** A call id ends while two calls with that id are running. */
  predicate EndsTwin(w: Tracker, e: Event) {
    !w.Bad? && e.ToolEnd? && w.running[e.toolCallId] >= 2
  }

  ghost predicate AlwaysPendingExact(base: AgentState, events: seq<Event>)
    requires !Scan(events).Bad?
  {
    && PendingExact(ReduceAll(base, events), Scan(events))
    && (events == [] || AlwaysPendingExact(base, events[..|events|-1]))
  }

  ghost predicate NeverEndsTwin(events: seq<Event>) {
    events == [] || (NeverEndsTwin(events[..|events|-1]) && !EndsTwin(Scan(events[..|events|-1]), events[|events|-1]))
  }

  lemma NeverEndsTwinSnoc(events: seq<Event>, e: Event)
    ensures NeverEndsTwin(events + [e]) <==> NeverEndsTwin(events) && !EndsTwin(Scan(events), e)
  {
    assert (events + [e])[..|events|] == events;
  }

  lemma StepPendingExact(s: AgentState, w: Tracker, e: Event)
    requires !w.Bad? && !Track(w, e).Bad? && PendingExact(s, w)
    ensures PendingExact(Reduce(s, e), Track(w, e)) <==> !EndsTwin(w, e)
  {
    if e.ToolEnd? {
      assert forall id :: id in w.running - multiset{e.toolCallId} <==>
        id in w.running && (id != e.toolCallId || w.running[id] >= 2);
      assert e.toolCallId !in Reduce(s, e).pendingToolCalls;
    }
  }

  /**
   * The pending set equals the running calls throughout a word if and only if no call
   * ends while another with the same id is running; distinct ids are enough for that.
   */
  lemma {:induction false} PendingExactIffNoTwins(base: AgentState, events: seq<Event>)
    requires Idle(base) && !Scan(events).Bad?
    ensures AlwaysPendingExact(base, events) <==> NeverEndsTwin(events)
  {
    if events != [] {
      var init, e := events[..|events|-1], events[|events|-1];
      PendingExactIffNoTwins(base, init);
      if PendingExact(ReduceAll(base, init), Scan(init)) {
        StepPendingExact(ReduceAll(base, init), Scan(init), e);
      }
    }
  }

  /** A turn in which an assistant message says two calls and both start. */
  function TwoCallsStart(first: ToolCall, second: ToolCall): seq<Event> {
    var m := Assistant(AssistantMessage([Call(first), Call(second)], ToolUse, None));
    [AgentStart, TurnStart, MessageStart(m), MessageEnd(m), ToolStart(first), ToolStart(second)]
  }

  lemma ScanPrefix(events: seq<Event>, k: nat)
    requires k < |events|
    ensures Scan(events[..k+1]) == Track(Scan(events[..k]), events[k])
  {
    assert events[..k+1][..k] == events[..k];
  }

  lemma TurnSays(m: Message)
    ensures Track(Track(Track(Track(BLANK, AgentStart), TurnStart), MessageStart(m)), MessageEnd(m)) ==
            BLANK.(phase := InTurn, all := [m], turn := [m])
  {
    var w := BLANK.(phase := InTurn);
    assert Track(Track(BLANK, AgentStart), TurnStart) == w;
    assert Track(Track(w, MessageStart(m)), MessageEnd(m)) == w.(all := [] + [m], turn := [] + [m]);
  }

  lemma BothStart(w: Tracker, first: ToolCall, second: ToolCall)
    requires !w.Bad? && w.phase.InTurn? && w.open.None? && w.running == multiset{} && w.started == []
    ensures Track(Track(w, ToolStart(first)), ToolStart(second)) ==
            w.(running := multiset{first.id, second.id}, started := [first.id, second.id])
  {
    assert multiset{} + multiset{first.id} + multiset{second.id} == multiset{first.id, second.id};
    assert [] + [first.id] + [second.id] == [first.id, second.id];
  }

  lemma TwoCallsRun(first: ToolCall, second: ToolCall)
    ensures var m := Assistant(AssistantMessage([Call(first), Call(second)], ToolUse, None));
      Scan(TwoCallsStart(first, second)) ==
      Tracker(InTurn, 0, [m], [m], None, multiset{first.id, second.id}, [first.id, second.id])
  {
    var events := TwoCallsStart(first, second);
    var m := Assistant(AssistantMessage([Call(first), Call(second)], ToolUse, None));
    assert Scan(events[..0]) == BLANK;
    hide Scan, Track;
    ScanPrefix(events, 0);
    ScanPrefix(events, 1);
    ScanPrefix(events, 2);
    ScanPrefix(events, 3);
    TurnSays(m);
    ScanPrefix(events, 4);
    ScanPrefix(events, 5);
    BothStart(Scan(events[..4]), first, second);
    assert events[..6] == events;
  }

  /**
   * Two calls of one message share an id and run in parallel: when the first ends, the
   * pending set forgets the id while the second still runs.
   */
  lemma TwinIsForgotten(base: AgentState, first: ToolCall, second: ToolCall, outcome: ToolResult)
    requires Idle(base) && first.id == second.id
    ensures var events := TwoCallsStart(first, second) + [ToolEnd(first.id, first.name, outcome, false)];
      && !Scan(events).Bad? && second.id in Scan(events).running
      && second.id !in ReduceAll(base, events).pendingToolCalls
      && !AlwaysPendingExact(base, events)
  {
    var start, last := TwoCallsStart(first, second), ToolEnd(first.id, first.name, outcome, false);
    TwoCallsRun(first, second);
    ScanSnoc(start, last);
    ReduceAllSnoc(base, start, last);
    hide Scan, ReduceAll, TwoCallsStart, Idle;
    assert Track(Scan(start), last).running == multiset{second.id};
  }

  /** Within a turn no id is started twice. */
  ghost predicate DistinctStarts(w: Tracker) {
    !w.Bad? ==> forall i, j :: 0 <= i < j < |w.started| ==> w.started[i] != w.started[j]
  }

  ghost predicate AlwaysDistinct(events: seq<Event>) {
    DistinctStarts(Scan(events)) && (events == [] || AlwaysDistinct(events[..|events|-1]))
  }

  function Count(s: seq<CallId>, id: CallId): nat {
    if s == [] then 0 else Count(s[..|s|-1], id) + (if s[|s|-1] == id then 1 else 0)
  }

  lemma {:induction false} CountDistinct(s: seq<CallId>, id: CallId)
    requires forall i, j :: 0 <= i < j < |s| ==> s[i] != s[j]
    ensures Count(s, id) <= 1 && (id !in s ==> Count(s, id) == 0)
  {
    if s != [] { CountDistinct(s[..|s|-1], id); }
  }

  /** A call runs at most as often as it was started in the turn. */
  ghost predicate RunningWasStarted(w: Tracker, id: CallId) {
    !w.Bad? ==> w.running[id] <= Count(w.started, id)
  }

  lemma StepRunningWasStarted(w: Tracker, e: Event, id: CallId)
    requires RunningWasStarted(w, id) && QuietOutsideTurns(w)
    ensures RunningWasStarted(Track(w, e), id)
  {
    if !w.Bad? && e.ToolStart? {
      assert (w.started + [e.call.id])[..|w.started|] == w.started;
    }
  }

  lemma {:induction false} WordRunningWasStarted(events: seq<Event>, id: CallId)
    ensures RunningWasStarted(Scan(events), id)
  {
    if events != [] {
      WordRunningWasStarted(events[..|events|-1], id);
      WordStaysQuiet(events[..|events|-1]);
      StepRunningWasStarted(Scan(events[..|events|-1]), events[|events|-1], id);
    }
  }

  /** Distinct call ids in every turn keep the pending set exact. */
  lemma {:induction false} DistinctIdsKeepPendingExact(base: AgentState, events: seq<Event>)
    requires Idle(base) && !Scan(events).Bad? && AlwaysDistinct(events)
    ensures AlwaysPendingExact(base, events)
  {
    NoTwinsWhenDistinct(events);
    PendingExactIffNoTwins(base, events);
  }

  lemma {:induction false} NoTwinsWhenDistinct(events: seq<Event>)
    requires !Scan(events).Bad? && AlwaysDistinct(events)
    ensures NeverEndsTwin(events)
  {
    if events != [] {
      var init, e := events[..|events|-1], events[|events|-1];
      NoTwinsWhenDistinct(init);
      if e.ToolEnd? {
        WordRunningWasStarted(init, e.toolCallId);
        CountDistinct(Scan(init).started, e.toolCallId);
      }
    }
  }
}
