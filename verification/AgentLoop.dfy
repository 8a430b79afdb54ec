/**
 * The agent loop (packages/agent/src/agent-loop.ts): streaming one assistant message,
 * one turn, and the two nested loops over turns.  A script says what the provider,
 * tools and hooks answer in each turn and what the user queues meanwhile; a run that
 * needs more turns than the script has is cut there, so every prefix of every run is
 * covered.
 */
module AgentLoop {
  import opened Base
  import opened AgentTypes
  import opened EventWord
  import opened ToolExecution
  import opened LiveState
  import opened ToolBatch
  import opened ParallelBatch

  // ------------------------------------------------------------------
  // The script of a run
  // ------------------------------------------------------------------

  datatype StreamEvent =
    | StreamStart(partial: AssistantMessage)
    | StreamDelta(partial: AssistantMessage)
    | StreamTerminal

  datatype Stream = Stream(events: seq<StreamEvent>, result: AssistantMessage)

  /** What the user does to the queues between two polls. */
  datatype Arrival =
    | Steer(message: Message)
    | FollowUp(message: Message)
    | SteeringMode(mode: QueueMode)
    | FollowUpMode(mode: QueueMode)
    | ClearSteering
    | ClearFollowUp

  datatype TurnScript = TurnScript(
    stream: Stream, tools: nat -> CallScript, sequential: bool, replacement: Option<seq<Message>>,
    stop: bool, beforeSteeringPoll: seq<Arrival>, beforeFollowUpPoll: seq<Arrival>)

  /** How many `start` events a stream sends from position `i` until it terminates. */
  function StartsFrom(events: seq<StreamEvent>, i: nat): nat
    decreases |events| - i
  {
    if i >= |events| || events[i].StreamTerminal? then 0
    else (if events[i].StreamStart? then 1 else 0) + StartsFrom(events, i + 1)
  }

  /** Well-behaved streams send at most one. */
  function Starts(stream: Stream): nat {
    StartsFrom(stream.events, 0)
  }

  /** The events the stream's own events from position `i` give rise to, once one has `started` or before. */
  function PartialEvents(events: seq<StreamEvent>, i: nat, started: bool): seq<Event>
    decreases |events| - i
  {
    if i >= |events| || events[i].StreamTerminal? then []
    else if events[i].StreamStart? then
      [MessageStart(Assistant(events[i].partial))] + PartialEvents(events, i + 1, true)
    else if started then [MessageUpdate(Assistant(events[i].partial))] + PartialEvents(events, i + 1, true)
    else PartialEvents(events, i + 1, false)
  }

  /** The part of a stream before its terminal event. */
  predicate StreamRuns(events: seq<StreamEvent>, n: nat) {
    n <= |events| && (n < |events| ==> events[n].StreamTerminal?)
    && forall k :: 0 <= k < n ==> !events[k].StreamTerminal?
  }

  lemma {:induction false} UpdatesFollow(events: seq<StreamEvent>, n: nat, i: nat)
    requires StreamRuns(events, n) && i <= n && forall k :: i <= k < n ==> events[k].StreamDelta?
    ensures PartialEvents(events, i, true) ==
            seq(n - i, k requires 0 <= k < n - i => MessageUpdate(Assistant(events[i + k].partial)))
    decreases n - i
  {
    if i < n { UpdatesFollow(events, n, i + 1); }
  }

  /**
   * A stream that starts once, first, gives rise to one start, an update for every delta
   * up to its terminal event, and one end with the final message.
   */
  lemma OrderlyStream(stream: Stream, n: nat)
    requires StreamRuns(stream.events, n) && 0 < n && stream.events[0].StreamStart?
    requires forall k :: 1 <= k < n ==> stream.events[k].StreamDelta?
    ensures Starts(stream) == 1 && |ResponseEvents(stream)| == n + 1
    ensures ResponseEvents(stream)[0] == MessageStart(Assistant(stream.events[0].partial))
    ensures forall k :: 1 <= k < n ==>
        ResponseEvents(stream)[k] == MessageUpdate(Assistant(stream.events[k].partial))
    ensures ResponseEvents(stream)[n] == MessageEnd(Assistant(stream.result))
  {
    UpdatesFollow(stream.events, n, 1);
    NoMoreStarts(stream.events, n, 1);
  }

  lemma {:induction false} NoMoreStarts(events: seq<StreamEvent>, n: nat, i: nat)
    requires StreamRuns(events, n) && i <= n && forall k :: i <= k < n ==> events[k].StreamDelta?
    ensures StartsFrom(events, i) == 0
    decreases n - i
  {
    if i < n { NoMoreStarts(events, n, i + 1); }
  }

  /** A stream that never starts gives rise to one start and one end with the final message. */
  lemma {:induction false} SilentStream(stream: Stream, n: nat)
    requires StreamRuns(stream.events, n) && forall k :: 0 <= k < n ==> stream.events[k].StreamDelta?
    ensures Starts(stream) == 0
    ensures ResponseEvents(stream) == [MessageStart(Assistant(stream.result)), MessageEnd(Assistant(stream.result))]
  {
    NoMoreStarts(stream.events, n, 0);
    NothingShown(stream.events, n, 0);
  }

  lemma {:induction false} NothingShown(events: seq<StreamEvent>, n: nat, i: nat)
    requires StreamRuns(events, n) && i <= n && forall k :: i <= k < n ==> events[k].StreamDelta?
    ensures PartialEvents(events, i, false) == []
    decreases n - i
  {
    if i < n { NothingShown(events, n, i + 1); }
  }

  /** Everything emitted for one assistant message. */
  function ResponseEvents(stream: Stream): seq<Event> {
    var final := Assistant(stream.result);
    PartialEvents(stream.events, 0, false) + (if Starts(stream) > 0 then [] else [MessageStart(final)]) +
    [MessageEnd(final)]
  }

  // ------------------------------------------------------------------
  // Words
  // ------------------------------------------------------------------

  predicate QuietInTurn(w: Tracker) {
    !w.Bad? && w.phase.InTurn? && w.open.None? && w.running == multiset{}
  }

  /** The word after whole messages. */
  function Says(w: Tracker, messages: seq<Message>): (v: Tracker)
    requires !w.Bad?
    ensures v.Tracker?
  {
    w.(all := w.all + messages, turn := w.turn + messages)
  }

  lemma SaysInit(w: Tracker)
    requires QuietInTurn(w)
    ensures Says(w, []) == w
  {
    assert w.all + [] == w.all && w.turn + [] == w.turn;
  }

  lemma SaysOneMore(w: Tracker, messages: seq<Message>, m: Message)
    requires QuietInTurn(w)
    ensures Track(Track(Says(w, messages), MessageStart(m)), MessageEnd(m)) == Says(w, messages + [m])
  {
    assert w.all + (messages + [m]) == w.all + messages + [m];
    assert w.turn + (messages + [m]) == w.turn + messages + [m];
  }

  /** The word while an assistant message streams, after `starts` start events. */
  function Streaming(w: Tracker, starts: nat, partial: AssistantMessage): Tracker {
    if w.Bad? || starts >= 2 then Bad
    else if starts == 0 then w
    else w.(open := Some(Assistant(partial)))
  }

  lemma StreamingInit(w: Tracker, partial: AssistantMessage)
    ensures Streaming(w, 0, partial) == w
  {
  }

  lemma StreamingSteps(w: Tracker, starts: nat, old_: AssistantMessage, partial: AssistantMessage)
    requires QuietInTurn(w)
    ensures Track(Streaming(w, starts, old_), MessageStart(Assistant(partial))) == Streaming(w, starts + 1, partial)
    ensures starts > 0 ==>
        Track(Streaming(w, starts, old_), MessageUpdate(Assistant(partial))) == Streaming(w, starts, partial)
    ensures starts == 1 ==>
        Track(Streaming(w, starts, old_), MessageEnd(Assistant(partial))) == Says(w, [Assistant(partial)])
    ensures starts >= 2 ==> Track(Streaming(w, starts, old_), MessageEnd(Assistant(partial))) == Bad
  {
  }

  // ------------------------------------------------------------------
  // Streaming one assistant message
  // ------------------------------------------------------------------

  class AgentContext {
    var messages: seq<Message>

    constructor (messages: seq<Message>)
      ensures this.messages == messages
    {
      this.messages := messages;
    }

    method Push(m: Message)
      modifies this
      ensures messages == old(messages) + [m]
    {
      messages := messages + [m];
    }

    method OverwriteLast(m: Message)
      requires messages != []
      modifies this
      ensures messages == old(messages)[..|old(messages)|-1] + [m]
    {
      messages := messages[..|messages|-1] + [m];
    }
  }

  /** `messages` is `before`, the partial messages of restarted streams, and `last`. */
  predicate EndsWith(messages: seq<Message>, before: seq<Message>, extra: nat, last: Message) {
    && extra > 0 && |messages| == |before| + extra
    && messages[..|before|] == before && messages[|messages|-1] == last
  }

  lemma EndsWithSteps(messages: seq<Message>, before: seq<Message>, extra: nat, last: Message, next: Message)
    requires if extra == 0 then messages == before else EndsWith(messages, before, extra, last)
    ensures EndsWith(messages + [next], before, extra + 1, next)
    ensures extra > 0 ==> messages != [] && EndsWith(messages[..|messages|-1] + [next], before, extra, next)
  {
  }

  lemma EndsWithOne(messages: seq<Message>, before: seq<Message>, extra: nat, last: Message)
    requires EndsWith(messages, before, extra, last)
    ensures messages == before + [last] <==> extra == 1
  {
    if extra == 1 {
      assert messages == messages[..|before|] + [last];
    }
  }

  /** Emits one event of the stream, of which `rest` is still to come. */
  method EmitPartial(state: AgentStateCell, e: Event, ghost start: seq<Event>, ghost before: seq<Event>,
      ghost rest: seq<Event>)
    returns (ghost emitted: seq<Event>)
    requires state.Valid() && state.events == start + before && !e.ToolEnd?
    modifies state
    ensures state.Valid() && state.base == old(state.base) && state.isStreaming == old(state.isStreaming)
    ensures state.events == start + emitted && emitted + rest == before + ([e] + rest)
    ensures Scan(state.events) == Track(old(Scan(state.events)), e)
    ensures NeverEndsTwin(state.events) == old(NeverEndsTwin(state.events))
  {
    hide Scan, ReduceAll, Track, Reduce, NeverEndsTwin;
    state.ProcessEvents(e);
    emitted := before + [e];
    assert start + (before + [e]) == start + before + [e];
    assert before + [e] + rest == before + ([e] + rest);
  }

  /** The loop over the stream's events, up to its terminal event. */
  method StreamPartials(state: AgentStateCell, context: AgentContext, stream: Stream)
    returns (addedPartial: bool, ghost partial: AssistantMessage)
    requires state.Valid() && QuietInTurn(Scan(state.events))
    modifies state, context
    ensures state.Valid() && state.base == old(state.base) && state.isStreaming == old(state.isStreaming)
    ensures addedPartial <==> Starts(stream) > 0
    ensures Scan(state.events) == Streaming(old(Scan(state.events)), Starts(stream), partial)
    ensures if addedPartial then EndsWith(context.messages, old(context.messages), Starts(stream), Assistant(partial))
            else context.messages == old(context.messages)
    ensures state.events == old(state.events) + PartialEvents(stream.events, 0, false)
    ensures NeverEndsTwin(state.events) == old(NeverEndsTwin(state.events))
  {
    hide Scan, ReduceAll, Track, Reduce, Streaming, EndsWith, QuietInTurn, NeverEndsTwin;
    ghost var emitted: seq<Event> := [];
    assert state.events + [] == state.events;
    assert [] + PartialEvents(stream.events, 0, false) == PartialEvents(stream.events, 0, false);
    ghost var w, before := Scan(state.events), context.messages;
    addedPartial, partial := false, stream.result;
    ghost var starts: nat := 0;
    var i, ended := 0, false;
    StreamingInit(w, partial);
    while i < |stream.events| && !ended
      invariant 0 <= i <= |stream.events|
      invariant starts + (if ended then 0 else StartsFrom(stream.events, i)) == Starts(stream)
      invariant addedPartial <==> starts > 0
      invariant state.events == old(state.events) + emitted
      invariant PartialEvents(stream.events, 0, false) ==
          emitted + (if ended then [] else PartialEvents(stream.events, i, addedPartial))
      invariant NeverEndsTwin(state.events) == old(NeverEndsTwin(state.events))
      invariant state.Valid() && state.base == old(state.base) && state.isStreaming == old(state.isStreaming)
      invariant Scan(state.events) == Streaming(w, starts, partial)
      invariant if starts == 0 then context.messages == before
          else EndsWith(context.messages, before, starts, Assistant(partial))
    {
      var event := stream.events[i];
      if event.StreamTerminal? {
        ended := true;
      } else if event.StreamStart? {
        EndsWithSteps(context.messages, before, starts, Assistant(partial), Assistant(event.partial));
        StreamingSteps(w, starts, partial, event.partial);
        context.Push(Assistant(event.partial));
        emitted := EmitPartial(state, MessageStart(Assistant(event.partial)), old(state.events), emitted,
            PartialEvents(stream.events, i + 1, true));
        addedPartial, partial, starts := true, event.partial, starts + 1;
      } else if addedPartial {
        EndsWithSteps(context.messages, before, starts, Assistant(partial), Assistant(event.partial));
        StreamingSteps(w, starts, partial, event.partial);
        context.OverwriteLast(Assistant(event.partial));
        emitted := EmitPartial(state, MessageUpdate(Assistant(event.partial)), old(state.events), emitted,
            PartialEvents(stream.events, i + 1, true));
        partial := event.partial;
      }
      i := i + 1;
    }
  }

  /**
   * The partial message sits at the end of the context while it streams and is
   * overwritten in place.  Afterwards the context has gained exactly the final message,
   * and the message bracket is well formed, if and only if the stream sent at most one
   * start.
   */
  method StreamAssistantResponse(state: AgentStateCell, context: AgentContext, stream: Stream)
    returns (final: AssistantMessage)
    requires state.Valid() && QuietInTurn(Scan(state.events))
    modifies state, context
    ensures state.Valid() && state.base == old(state.base) && state.isStreaming == old(state.isStreaming)
    ensures final == stream.result
    ensures context.messages == old(context.messages) + [Assistant(final)] <==> Starts(stream) <= 1
    ensures Scan(state.events) ==
            if Starts(stream) <= 1 then Says(old(Scan(state.events)), [Assistant(final)]) else Bad
    ensures state.events == old(state.events) + ResponseEvents(stream)
    ensures NeverEndsTwin(state.events) == old(NeverEndsTwin(state.events))
  {
    hide Scan, ReduceAll, Track, Reduce, Streaming, Says, EndsWith, QuietInTurn, Starts, StartsFrom, NeverEndsTwin,
        PartialEvents;
    ghost var events0 := state.events;
    ghost var w, before, starts := Scan(state.events), context.messages, Starts(stream);
    var addedPartial;
    ghost var partial;
    addedPartial, partial := StreamPartials(state, context, stream);
    final := stream.result;
    EndsWithSteps(context.messages, before, starts, Assistant(partial), Assistant(final));
    StreamingSteps(w, starts, partial, final);
    if addedPartial {
      context.OverwriteLast(Assistant(final));
    } else {
      context.Push(Assistant(final));
      state.ProcessEvents(MessageStart(Assistant(final)));
      StreamingSteps(w, 1, final, final);
    }
    state.ProcessEvents(MessageEnd(Assistant(final)));
    EndsWithOne(context.messages, before, if starts == 0 then 1 else starts, Assistant(final));
    assert state.events == events0 + ResponseEvents(stream);
  }
}
