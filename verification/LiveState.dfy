/**
 * The agent's mutable state and message queues (packages/agent/src/agent.ts).
 */
module LiveState {
  import opened Base
  import opened AgentTypes
  import opened EventWord

  datatype QueueMode = All | OneAtATime

  /** What one drain takes. */
  function Taken(mode: QueueMode, messages: seq<Message>): seq<Message> {
    if mode.All? then messages else if messages == [] then [] else [messages[0]]
  }

  /** A drain takes from the front, and nothing only from an empty queue. */
  lemma TakenFront(mode: QueueMode, messages: seq<Message>)
    ensures var taken := Taken(mode, messages);
      && |taken| <= |messages| && messages == taken + messages[|taken|..]
      && (taken == [] ==> messages == [])
  {
  }

  /** How a message left a queue. */
  datatype Departure = HandedOut(message: Message) | Dropped(message: Message)

  /** A queue and its history: what was handed out, and everything that left in the order in which it left. */
  datatype QueueState = QueueState(messages: seq<Message>, mode: QueueMode, drained: seq<Message>,
                                   gone: seq<Departure>)

  function Departures(messages: seq<Message>, handedOut: bool): (r: seq<Departure>)
    ensures |r| == |messages|
  {
    seq(|messages|, k requires 0 <= k < |messages| =>
      if handedOut then HandedOut(messages[k]) else Dropped(messages[k]))
  }

  function Enqueued(q: QueueState, message: Message): QueueState {
    q.(messages := q.messages + [message])
  }

  function Drained(q: QueueState): QueueState {
    TakenFront(q.mode, q.messages);
    var taken := Taken(q.mode, q.messages);
    q.(messages := q.messages[|taken|..], drained := q.drained + taken, gone := q.gone + Departures(taken, true))
  }

  function Cleared(q: QueueState): QueueState {
    q.(messages := [], gone := q.gone + Departures(q.messages, false))
  }

  /** The messages that left, in order. */
  function Departed(gone: seq<Departure>): (r: seq<Message>)
    ensures |r| == |gone|
  {
    seq(|gone|, k requires 0 <= k < |gone| => gone[k].message)
  }

  /** Those of them that were handed out. */
  function Handed(gone: seq<Departure>): seq<Message> {
    if gone == [] then []
    else Handed(gone[..|gone|-1]) + (match gone[|gone|-1] case HandedOut(m) => [m] case Dropped(_) => [])
  }

  lemma {:induction false} HandedMore(gone: seq<Departure>, messages: seq<Message>, handedOut: bool)
    ensures Handed(gone + Departures(messages, handedOut)) == Handed(gone) + (if handedOut then messages else [])
  {
    var more := Departures(messages, handedOut);
    if messages == [] {
      assert gone + more == gone;
    } else {
      var init, last := messages[..|messages|-1], messages[|messages|-1];
      HandedMore(gone, init, handedOut);
      assert (gone + more)[..|gone + more|-1] == gone + Departures(init, handedOut);
      assert messages == init + [last];
      assert Handed(gone) + init + [last] == Handed(gone) + messages;
    }
  }

  class PendingMessageQueue {
    var messages: seq<Message>
    var mode: QueueMode
    ghost var drained: seq<Message>    // everything handed out
    ghost var gone: seq<Departure>     // everything that left, handed out or dropped

    ghost function State(): QueueState
      reads this
    {
      QueueState(messages, mode, drained, gone)
    }

    ghost predicate Valid()
      reads this
    {
      drained == Handed(gone)
    }

    constructor (mode: QueueMode)
      ensures Valid() && State() == QueueState([], mode, [], [])
    {
      this.mode, messages, drained, gone := mode, [], [], [];
    }

    method Enqueue(message: Message)
      requires Valid()
      modifies this`messages
      ensures Valid() && State() == Enqueued(old(State()), message)
    {
      messages := messages + [message];
    }

    method SetMode(mode: QueueMode)
      requires Valid()
      modifies this`mode
      ensures Valid() && State() == old(State()).(mode := mode)
    {
      this.mode := mode;
    }

    method HasItems() returns (b: bool)
      ensures b <==> messages != []
    {
      b := |messages| > 0;
    }

    method Drain() returns (taken: seq<Message>)
      requires Valid()
      modifies this`messages, this`drained, this`gone
      ensures Valid() && State() == Drained(old(State()))
      ensures taken == Taken(mode, old(messages)) && old(messages) == taken + messages
      ensures mode == All ==> taken == old(messages) && messages == []
      ensures mode == OneAtATime && old(messages) != [] ==>
          taken == [old(messages)[0]] && messages == old(messages)[1..]
      ensures drained == old(drained) + taken && mode == old(mode)
      ensures taken == [] ==> State() == old(State()) && messages == []
    {
      hide Handed, Departures;
      TakenFront(mode, messages);
      ghost var q := State();
      if mode == All {
        taken := messages;
        messages := [];
      } else if |messages| == 0 {
        taken := [];
      } else {
        taken := [messages[0]];
        messages := messages[1..];
      }
      assert messages == q.messages[|taken|..];
      HandedMore(gone, taken, true);
      drained := drained + taken;
      gone := gone + Departures(taken, true);
    }

    /** Drops what is still queued. */
    method Clear()
      requires Valid()
      modifies this`messages, this`gone
      ensures Valid() && State() == Cleared(old(State()))
    {
      HandedMore(gone, messages, false);
      gone := gone + Departures(messages, false);
      messages := [];
    }
  }

  /** The state object: the transcript and the run-owned fields, updated event by event. */
  class AgentStateCell {
    var messages: seq<Message>
    var streamingMessage: Option<Message>
    var pendingToolCalls: set<CallId>
    var errorMessage: Option<nat>
    var isStreaming: bool
    ghost var base: AgentState       // the state in which the current run started
    ghost var events: seq<Event>     // every event of the current run

    ghost function State(): AgentState
      reads this
    {
      AgentState(messages, streamingMessage, pendingToolCalls, errorMessage)
    }

    ghost predicate Valid()
      reads this
    {
      State() == ReduceAll(base, events)
    }

    constructor (messages: seq<Message>)
      ensures Valid() && State() == AgentState(messages, None, {}, None) == base && events == [] && !isStreaming
    {
      this.messages := messages;
      streamingMessage, pendingToolCalls, errorMessage, isStreaming := None, {}, None, false;
      base, events := AgentState(messages, None, {}, None), [];
    }

    /** The start of a run: `runWithLifecycle` up to its executor. */
    method BeginRun()
      modifies this
      ensures Valid() && isStreaming && events == [] && base == State()
      ensures State() == old(State()).(streamingMessage := None, errorMessage := None)
    {
      isStreaming := true;
      streamingMessage, errorMessage := None, None;
      base, events := State(), [];
    }

    /** `finishRun`: every run-owned field is reset, whatever the word so far. */
    method FinishRun()
      modifies this
      ensures !isStreaming && streamingMessage == None && pendingToolCalls == {}
      ensures messages == old(messages) && errorMessage == old(errorMessage) && base == old(base)
          && events == old(events)
    {
      isStreaming := false;
      streamingMessage, pendingToolCalls := None, {};
    }

    /** The switch over event types. */
    method ReduceInPlace(event: Event)
      modifies this`messages, this`streamingMessage, this`pendingToolCalls, this`errorMessage
      ensures State() == Reduce(old(State()), event)
    {
      match event {
        case MessageStart(m) => streamingMessage := Some(m);
        case MessageUpdate(m) => streamingMessage := Some(m);
        case MessageEnd(m) =>
          streamingMessage := None;
          messages := messages + [m];
        case ToolStart(call) => pendingToolCalls := pendingToolCalls + {call.id};
        case ToolEnd(id, _, _, _) => pendingToolCalls := pendingToolCalls - {id};
        case TurnEnd(message, _) =>
          if message.errorMessage.Some? { errorMessage := message.errorMessage; }
        case AgentEnd(_) => streamingMessage := None;
        case _ =>
      }
    }

    method ProcessEvents(event: Event)
      requires Valid()
      modifies this
      ensures Valid() && events == old(events) + [event] && base == old(base) && isStreaming == old(isStreaming)
      ensures State() == Reduce(old(State()), event)
      ensures Scan(events) == Track(old(Scan(events)), event)
      ensures NeverEndsTwin(events) == (old(NeverEndsTwin(events)) && !EndsTwin(old(Scan(events)), event))
    {
      hide Scan, ReduceAll, NeverEndsTwin, EndsTwin, Track;
      ScanSnoc(events, event);
      NeverEndsTwinSnoc(events, event);
      ReduceAllSnoc(base, events, event);
      ReduceInPlace(event);
      events := events + [event];
    }
  }
}
