/**
 * What a well-formed event word says, without the tracker: where each event may stand
 * (packages/agent/src/agent-loop.ts) and what the events before it add up to.
 */
module EventOrder {
  import opened Base
  import opened AgentTypes
  import opened EventWord

  /** All messages that have ended, in order. */
  function Ended(events: seq<Event>): seq<Message> {
    if events == [] then []
    else
      var last := events[|events|-1];
      Ended(events[..|events|-1]) + (if last.MessageEnd? then [last.message_] else [])
  }

  /** The ids of the calls that have started, in order. */
  function Started(events: seq<Event>): seq<CallId> {
    if events == [] then []
    else
      var last := events[|events|-1];
      Started(events[..|events|-1]) + (if last.ToolStart? then [last.call.id] else [])
  }

  function Finished(events: seq<Event>): seq<CallId> {
    if events == [] then []
    else
      var last := events[|events|-1];
      Finished(events[..|events|-1]) + (if last.ToolEnd? then [last.toolCallId] else [])
  }

  function Tally(events: seq<Event>, kind: Event -> bool): nat {
    if events == [] then 0
    else Tally(events[..|events|-1], kind) + (if kind(events[|events|-1]) then 1 else 0)
  }

  predicate IsTurnStart(e: Event) { e.TurnStart? }
  predicate IsTurnEnd(e: Event) { e.TurnEnd? }
  predicate IsMessageStart(e: Event) { e.MessageStart? }
  predicate IsMessageEnd(e: Event) { e.MessageEnd? }

  /** A turn has started and not ended. */
  predicate TurnRuns(events: seq<Event>) {
    Tally(events, IsTurnStart) == Tally(events, IsTurnEnd) + 1
  }

  /** Every turn that started has ended. */
  predicate TurnsOver(events: seq<Event>) {
    Tally(events, IsTurnStart) == Tally(events, IsTurnEnd)
  }

  /** Every message that started has ended. */
  predicate MessagesOver(events: seq<Event>) {
    Tally(events, IsMessageStart) == Tally(events, IsMessageEnd)
  }

  /** Every call that started has ended, as often as it started. */
  predicate CallsOver(events: seq<Event>) {
    multiset(Started(events)) == multiset(Finished(events))
  }

  ghost predicate Adds(events: seq<Event>, w: Tracker) {
    w.Tracker? && AddsTurns(events, w) && AddsMessages(events, w) && AddsCalls(events, w)
  }

  ghost predicate AddsTurns(events: seq<Event>, w: Tracker)
    requires w.Tracker?
  {
    && w.turns == Tally(events, IsTurnEnd)
    && Tally(events, IsTurnStart) == Tally(events, IsTurnEnd) + (if w.phase.InTurn? then 1 else 0)
    && (w.phase.Fresh? <==> events == []) && (events != [] ==> events[0] == AgentStart)
  }

  ghost predicate AddsMessages(events: seq<Event>, w: Tracker)
    requires w.Tracker?
  {
    && w.all == Ended(events)
    && Tally(events, IsMessageStart) == Tally(events, IsMessageEnd) + (if w.open.Some? then 1 else 0)
  }

  ghost predicate AddsCalls(events: seq<Event>, w: Tracker)
    requires w.Tracker?
  {
    multiset(Started(events)) == w.running + multiset(Finished(events))
  }

  lemma TallySnoc(events: seq<Event>, e: Event, kind: Event -> bool)
    ensures Tally(events + [e], kind) == Tally(events, kind) + (if kind(e) then 1 else 0)
  {
    assert (events + [e])[..|events|] == events;
  }

  lemma EndedSnoc(events: seq<Event>, e: Event)
    ensures Ended(events + [e]) == Ended(events) + (if e.MessageEnd? then [e.message_] else [])
  {
    assert (events + [e])[..|events|] == events;
  }

  lemma CallsSnoc(events: seq<Event>, e: Event)
    ensures Started(events + [e]) == Started(events) + (if e.ToolStart? then [e.call.id] else [])
    ensures Finished(events + [e]) == Finished(events) + (if e.ToolEnd? then [e.toolCallId] else [])
  {
    assert (events + [e])[..|events|] == events;
  }

  lemma TurnsMore(events: seq<Event>, w: Tracker, e: Event)
    requires w.Tracker? && AddsTurns(events, w) && !Track(w, e).Bad?
    ensures AddsTurns(events + [e], Track(w, e))
  {
    hide Closes, Tally;
    TallySnoc(events, e, IsTurnStart);
    TallySnoc(events, e, IsTurnEnd);
  }

  lemma MessagesMore(events: seq<Event>, w: Tracker, e: Event)
    requires w.Tracker? && AddsMessages(events, w) && !Track(w, e).Bad?
    ensures AddsMessages(events + [e], Track(w, e))
  {
    hide Closes, Tally, Ended;
    TallySnoc(events, e, IsMessageStart);
    TallySnoc(events, e, IsMessageEnd);
    EndedSnoc(events, e);
  }

  lemma CallsMore(events: seq<Event>, w: Tracker, e: Event)
    requires w.Tracker? && AddsCalls(events, w) && !Track(w, e).Bad?
    ensures AddsCalls(events + [e], Track(w, e))
  {
    hide Closes, Started, Finished;
    CallsSnoc(events, e);
  }

  /** What the tracker has counted. */
  lemma {:induction false} WordAdds(events: seq<Event>)
    requires !Scan(events).Bad?
    ensures Adds(events, Scan(events))
  {
    if events != [] {
      var init, last := events[..|events|-1], events[|events|-1];
      WordAdds(init);
      assert init + [last] == events;
      hide AddsTurns, AddsMessages, AddsCalls, Track;
      TurnsMore(init, Scan(init), last);
      MessagesMore(init, Scan(init), last);
      CallsMore(init, Scan(init), last);
    }
  }

  lemma {:induction false} PrefixIsGood(events: seq<Event>, k: nat)
    requires !Scan(events).Bad? && k <= |events|
    ensures !Scan(events[..k]).Bad?
  {
    if k < |events| {
      var init := events[..|events|-1];
      PrefixIsGood(init, k);
      assert init[..k] == events[..k];
    } else {
      assert events[..k] == events;
    }
  }

  /** What each kind of event may follow. */
  predicate MayFollow(before: seq<Event>, e: Event) {
    match e
    case AgentStart => before == []
    case TurnStart => before != [] && TurnsOver(before)
    case MessageStart(_) => TurnRuns(before) && MessagesOver(before) && CallsOver(before)
    case MessageUpdate(_) => TurnRuns(before) && !MessagesOver(before)
    case MessageEnd(_) => TurnRuns(before) && !MessagesOver(before)
    case ToolStart(_) => TurnRuns(before) && MessagesOver(before)
    case ToolUpdate(call, _) =>
      && TurnRuns(before) && MessagesOver(before)
      && multiset(Started(before))[call.id] > multiset(Finished(before))[call.id]
    case ToolEnd(id, _, _, _) =>
      && TurnRuns(before) && MessagesOver(before)
      && multiset(Started(before))[id] > multiset(Finished(before))[id]
    case TurnEnd(_, _) => TurnRuns(before) && MessagesOver(before) && CallsOver(before)
    case AgentEnd(messages) =>
      TurnsOver(before) && Tally(before, IsTurnEnd) > 0 && messages == Ended(before)
  }

  lemma TrackedFollows(before: seq<Event>, w: Tracker, e: Event)
    requires Adds(before, w) && !Track(w, e).Bad?
    ensures e.AgentEnd? ==> Track(w, e).phase.Over?
    ensures MayFollow(before, e)
  {
    hide Closes, Tally, Ended, Started, Finished;
  }

  lemma OverIsLast(events: seq<Event>)
    requires events != [] && !Scan(events).Bad?
    ensures var w := Scan(events[..|events|-1]); w.Tracker? && !w.phase.Over?
  {
    hide Closes;
  }

  lemma {:induction false} NothingAfterEnd(events: seq<Event>, k: nat)
    requires !Scan(events).Bad? && k <= |events| && Scan(events[..k]).Tracker? && Scan(events[..k]).phase.Over?
    ensures k == |events|
  {
    if k < |events| {
      PrefixIsGood(events, k + 1);
      OverIsLast(events[..k+1]);
    }
  }

  /** Every event of a well-formed word stands where it may, and the end of the agent ends the word. */
  lemma EveryEventInPlace(events: seq<Event>, k: nat)
    requires !Scan(events).Bad? && k < |events|
    ensures MayFollow(events[..k], events[k])
    ensures events[0] == AgentStart && (events[k].AgentEnd? ==> k == |events| - 1)
  {
    PrefixIsGood(events, k + 1);
    assert events[..k+1][..k] == events[..k];
    PrefixIsGood(events, k);
    WordAdds(events[..k]);
    WordAdds(events);
    TrackedFollows(events[..k], Scan(events[..k]), events[k]);
    hide MayFollow, Track, Tally, Ended, Started, Finished;
    if events[k].AgentEnd? { NothingAfterEnd(events, k + 1); }
  }

  // ------------------------------------------------------------------
  // What a turn's end says
  // ------------------------------------------------------------------

  /** The current turn started at `j`. */
  predicate TurnSince(events: seq<Event>, j: nat) {
    && j < |events| && events[j].TurnStart?
    && forall i :: j < i < |events| ==> !events[i].TurnStart? && !events[i].TurnEnd?
  }

  lemma TrackTurn(v: Tracker, e: Event)
    requires !Track(v, e).Bad? && Track(v, e).phase.InTurn?
    ensures !v.Bad?
    ensures var w := Track(v, e);
      if e.TurnStart? then w.turn == [] && w.started == []
      else
        && v.phase.InTurn? && !e.TurnEnd?
        && w.turn == v.turn + (if e.MessageEnd? then [e.message_] else [])
        && w.started == v.started + (if e.ToolStart? then [e.call.id] else [])
  {
    hide Closes;
  }

  /** What one event does to the current turn. */
  lemma TurnStep(events: seq<Event>)
    requires !Scan(events).Bad? && Scan(events).phase.InTurn?
    ensures events != []
    ensures var w, v, last := Scan(events), Scan(events[..|events|-1]), events[|events|-1];
      && !v.Bad?
      && if last.TurnStart? then w.turn == [] && w.started == []
         else
           && v.phase.InTurn? && !last.TurnEnd?
           && w.turn == v.turn + (if last.MessageEnd? then [last.message_] else [])
           && w.started == v.started + (if last.ToolStart? then [last.call.id] else [])
  {
    TrackTurn(Scan(events[..|events|-1]), events[|events|-1]);
    hide Track;
  }

  lemma NothingSaid()
    ensures Ended([]) == [] && Started([]) == []
  {
  }

  lemma {:induction false} TurnStarted(events: seq<Event>) returns (j: nat)
    requires !Scan(events).Bad? && Scan(events).phase.InTurn?
    ensures TurnSince(events, j)
    ensures Scan(events).turn == Ended(events[j+1..]) && Scan(events).started == Started(events[j+1..])
  {
    var init, last := events[..|events|-1], events[|events|-1];
    hide Closes, Ended, Started;
    TurnStep(events);
    if last.TurnStart? {
      j := |events| - 1;
      assert events[j+1..] == [];
      NothingSaid();
    } else {
      assert Scan(init).phase.InTurn?;
      j := TurnStarted(init);
      assert events[j+1..] == init[j+1..] + [last];
      hide Scan, Track, Closes;
      EndedSnoc(init[j+1..], last);
      CallsSnoc(init[j+1..], last);
      forall i | j < i < |events| ensures !events[i].TurnStart? && !events[i].TurnEnd? {
        if i < |init| { assert init[i] == events[i]; }
      }
      assert init[j] == events[j];
    }
  }

  lemma ClosesSays(said: seq<Message>, message: AssistantMessage, results: seq<ToolResultMessage>)
    requires Closes(said, message, results)
    ensures |results| < |said| && said[|said| - |results|..] == ResultMessages(results)
    ensures said[|said| - |results| - 1] == Assistant(message)
  {
    var tail := said[|said| - |results| - 1..];
    assert tail[0] == Assistant(message) && tail[1..] == ResultMessages(results);
    assert tail[1..] == said[|said| - |results|..];
  }

  /**
   * A turn ends with its assistant message followed by its results, nothing else in
   * between, and its results carry the ids of exactly the calls it started, in order.
   */
  lemma TurnEndSays(events: seq<Event>, k: nat) returns (j: nat)
    requires !Scan(events).Bad? && k < |events| && events[k].TurnEnd?
    ensures TurnSince(events[..k], j)
    ensures Started(events[j+1..k]) == ResultIds(events[k].toolResults)
    ensures var said, results := Ended(events[j+1..k]), ResultMessages(events[k].toolResults);
      |results| < |said| && said[|said| - |results|..] == results
      && said[|said| - |results| - 1] == Assistant(events[k].message)
  {
    PrefixIsGood(events, k + 1);
    assert events[..k+1][..k] == events[..k];
    hide Closes, Ended, Started;
    j := TurnStarted(events[..k]);
    assert events[..k][j+1..] == events[j+1..k];
    var said, results := Ended(events[j+1..k]), ResultMessages(events[k].toolResults);
    ClosesSays(said, events[k].message, events[k].toolResults);
  }

  // ------------------------------------------------------------------
  // What a message bracket says
  // ------------------------------------------------------------------

  predicate OneRole(a: Message, b: Message) {
    && (a.User? <==> b.User?) && (a.Custom? <==> b.Custom?)
    && (a.Assistant? <==> b.Assistant?) && (a.Result? <==> b.Result?)
  }

  /** The open message started at `j` and was only updated since, in one role. */
  predicate OpenSince(events: seq<Event>, j: nat, role: Message) {
    && j < |events| && events[j].MessageStart? && OneRole(events[j].message_, role)
    && forall i :: j < i < |events| ==> events[i].MessageUpdate? && OneRole(events[i].message_, role)
  }

  lemma {:induction false} MessageStarted(events: seq<Event>) returns (j: nat)
    requires !Scan(events).Bad? && Scan(events).open.Some?
    ensures OpenSince(events, j, Scan(events).open.value)
  {
    var init, last := events[..|events|-1], events[|events|-1];
    if last.MessageStart? {
      j := |events| - 1;
    } else {
      WordStaysQuiet(init);
      j := MessageStarted(init);
      forall i | j < i < |events| ensures events[i].MessageUpdate? && OneRole(events[i].message_, last.message_) {
        if i < |init| { assert init[i] == events[i]; }
      }
      assert init[j] == events[j];
    }
  }

  /** A message that is updated or ends has started, in the same role, with only updates in between. */
  lemma MessageGoesOn(events: seq<Event>, k: nat) returns (j: nat)
    requires !Scan(events).Bad? && k < |events| && (events[k].MessageUpdate? || events[k].MessageEnd?)
    ensures OpenSince(events[..k], j, events[k].message_)
  {
    PrefixIsGood(events, k + 1);
    assert events[..k+1][..k] == events[..k];
    PrefixIsGood(events, k);
    j := MessageStarted(events[..k]);
  }
}
