/**
 * What happens to the two message queues over a run, and where every queued message ends
 * up (packages/agent/src/agent.ts, the queues; packages/agent/src/agent-loop.ts, the polls).
 */
module QueueSteps {
  import opened AgentTypes
  import opened LiveState
  import opened AgentLoop
  import opened TurnGrammar

  datatype Queues = Queues(steering: QueueState, followUp: QueueState)

  function Of(q: Queues, steering: bool): QueueState {
    if steering then q.steering else q.followUp
  }

  /** A call of `steer`, `followUp`, a mode setter or a clear method, or one poll of the loop. */
  datatype Step = Arrives(arrival: Arrival) | PollSteering | PollFollowUp

  function AfterStep(q: Queues, step: Step): Queues {
    match step
    case PollSteering => q.(steering := Drained(q.steering))
    case PollFollowUp => q.(followUp := Drained(q.followUp))
    case Arrives(Steer(m)) => q.(steering := Enqueued(q.steering, m))
    case Arrives(FollowUp(m)) => q.(followUp := Enqueued(q.followUp, m))
    case Arrives(SteeringMode(mode)) => q.(steering := q.steering.(mode := mode))
    case Arrives(FollowUpMode(mode)) => q.(followUp := q.followUp.(mode := mode))
    case Arrives(ClearSteering) => q.(steering := Cleared(q.steering))
    case Arrives(ClearFollowUp) => q.(followUp := Cleared(q.followUp))
  }

  function AfterSteps(q: Queues, steps: seq<Step>): Queues {
    if steps == [] then q else AfterStep(AfterSteps(q, steps[..|steps|-1]), steps[|steps|-1])
  }

  function Arriving(arrivals: seq<Arrival>): (r: seq<Step>)
    ensures |r| == |arrivals|
  {
    seq(|arrivals|, k requires 0 <= k < |arrivals| => Arrives(arrivals[k]))
  }

  lemma {:induction false} AfterStepsJoin(q: Queues, first: seq<Step>, second: seq<Step>)
    ensures AfterSteps(q, first + second) == AfterSteps(AfterSteps(q, first), second)
  {
    if second == [] {
      assert first + second == first;
    } else {
      assert (first + second)[..|first + second|-1] == first + second[..|second|-1];
      AfterStepsJoin(q, first, second[..|second|-1]);
    }
  }

  // ------------------------------------------------------------------
  // Nothing is lost
  // ------------------------------------------------------------------

  /** What the user queued. */
  function Sent(step: Step, steering: bool): seq<Message> {
    match step
    case Arrives(Steer(m)) => if steering then [m] else []
    case Arrives(FollowUp(m)) => if steering then [] else [m]
    case _ => []
  }

  function SentIn(steps: seq<Step>, steering: bool): seq<Message> {
    if steps == [] then []
    else
      SentIn(steps[..|steps|-1], steering) + Sent(steps[|steps|-1], steering)
  }

  predicate ClearFree(steps: seq<Step>, steering: bool) {
    Arrives(if steering then ClearSteering else ClearFollowUp) !in steps
  }

  /**
   * Over some steps a queue loses no message: those that left, then those still queued,
   * are those from before and those sent since, in order.  Only a clear drops any.
   */
  ghost predicate Kept(before: QueueState, after: QueueState, sent: seq<Message>, clearFree: bool) {
    && before.gone <= after.gone
    && Departed(after.gone) + after.messages == Departed(before.gone) + before.messages + sent
    && (clearFree ==> after.drained + after.messages == before.drained + before.messages + sent)
  }

  lemma DepartedMore(gone: seq<Departure>, messages: seq<Message>, handedOut: bool)
    ensures Departed(gone + Departures(messages, handedOut)) == Departed(gone) + messages
  {
  }

  lemma KeptByEnqueue(before: QueueState, q: QueueState, sent: seq<Message>, clearFree: bool, m: Message)
    requires Kept(before, q, sent, clearFree)
    ensures Kept(before, Enqueued(q, m), sent + [m], clearFree)
  {
    hide Departed;
    assert Departed(q.gone) + (q.messages + [m]) == Departed(q.gone) + q.messages + [m];
    assert q.drained + (q.messages + [m]) == q.drained + q.messages + [m];
    assert before.drained + before.messages + (sent + [m]) == before.drained + before.messages + sent + [m];
    var was := Departed(before.gone) + before.messages;
    assert was + (sent + [m]) == was + sent + [m];
  }

  lemma KeptByDrain(before: QueueState, q: QueueState, sent: seq<Message>, clearFree: bool)
    requires Kept(before, q, sent, clearFree)
    ensures Kept(before, Drained(q), sent, clearFree)
  {
    hide Departed, Departures, Taken;
    var taken := Taken(q.mode, q.messages);
    TakenFront(q.mode, q.messages);
    DepartedMore(q.gone, taken, true);
    assert Departed(q.gone) + taken + q.messages[|taken|..] == Departed(q.gone) + (taken + q.messages[|taken|..]);
    assert q.drained + taken + q.messages[|taken|..] == q.drained + (taken + q.messages[|taken|..]);
  }

  lemma KeptByClear(before: QueueState, q: QueueState, sent: seq<Message>, clearFree: bool)
    requires Kept(before, q, sent, clearFree)
    ensures Kept(before, Cleared(q), sent, false)
  {
    hide Departed, Departures;
    DepartedMore(q.gone, q.messages, false);
    assert Departed(q.gone) + q.messages + [] == Departed(q.gone) + q.messages;
  }

  lemma KeptByStep(q0: Queues, q: Queues, sent: seq<Message>, clearFree: bool, step: Step, steering: bool)
    requires Kept(Of(q0, steering), Of(q, steering), sent, clearFree)
    ensures Kept(Of(q0, steering), Of(AfterStep(q, step), steering), sent + Sent(step, steering),
                 clearFree && ClearFree([step], steering))
  {
    hide Kept, Drained, Cleared, Enqueued;
    var before, now := Of(q0, steering), Of(q, steering);
    assert sent + [] == sent;
    match step {
      case PollSteering => KeptByDrain(before, now, sent, clearFree);
      case PollFollowUp => KeptByDrain(before, now, sent, clearFree);
      case Arrives(Steer(m)) => KeptByEnqueue(before, now, sent, clearFree, m);
      case Arrives(FollowUp(m)) => KeptByEnqueue(before, now, sent, clearFree, m);
      case Arrives(SteeringMode(_)) => KeptModeAside(before, now, sent, clearFree);
      case Arrives(FollowUpMode(_)) => KeptModeAside(before, now, sent, clearFree);
      case Arrives(ClearSteering) => KeptByClear(before, now, sent, clearFree);
      case Arrives(ClearFollowUp) => KeptByClear(before, now, sent, clearFree);
    }
  }

  lemma KeptModeAside(before: QueueState, q: QueueState, sent: seq<Message>, clearFree: bool)
    requires Kept(before, q, sent, clearFree)
    ensures forall mode :: Kept(before, q.(mode := mode), sent, clearFree)
  {
  }

  /** No queued message is lost, whatever the user and the loop do. */
  lemma {:induction false} StepsKeepMessages(q: Queues, steps: seq<Step>, steering: bool)
    ensures Kept(Of(q, steering), Of(AfterSteps(q, steps), steering), SentIn(steps, steering),
                 ClearFree(steps, steering))
  {
    if steps == [] {
      var now := Of(q, steering);
      assert Departed(now.gone) + now.messages + [] == Departed(now.gone) + now.messages;
      assert now.drained + now.messages + [] == now.drained + now.messages;
    } else {
      hide Kept, AfterStep, Of;
      var init, last := steps[..|steps|-1], steps[|steps|-1];
      StepsKeepMessages(q, init, steering);
      KeptByStep(q, AfterSteps(q, init), SentIn(init, steering), ClearFree(init, steering), last, steering);
      assert steps == init + [last];
    }
  }

  /** What each step does to the queue it is about; no step touches the other. */
  lemma StepEffects(q: Queues, m: Message, mode: QueueMode)
    ensures var s := AfterStep(q, Arrives(Steer(m)));
      s.steering.messages == q.steering.messages + [m] && s.steering.mode == q.steering.mode && s.followUp == q.followUp
    ensures var s := AfterStep(q, Arrives(FollowUp(m)));
      s.followUp.messages == q.followUp.messages + [m] && s.followUp.mode == q.followUp.mode && s.steering == q.steering
    ensures var s := AfterStep(q, Arrives(SteeringMode(mode)));
      s.steering.messages == q.steering.messages && s.steering.mode == mode && s.followUp == q.followUp
    ensures var s := AfterStep(q, Arrives(FollowUpMode(mode)));
      s.followUp.messages == q.followUp.messages && s.followUp.mode == mode && s.steering == q.steering
    ensures var s := AfterStep(q, Arrives(ClearSteering));
      s.steering.messages == [] && s.steering.drained == q.steering.drained && s.followUp == q.followUp
    ensures var s := AfterStep(q, Arrives(ClearFollowUp));
      s.followUp.messages == [] && s.followUp.drained == q.followUp.drained && s.steering == q.steering
    ensures AfterStep(q, PollSteering).followUp == q.followUp && AfterStep(q, PollFollowUp).steering == q.steering
  {
  }

  /** A poll takes everything, or the first message, and hands it out. */
  lemma PollTakes(q: QueueState)
    ensures q.mode == All ==> Drained(q).messages == [] && Drained(q).drained == q.drained + q.messages
    ensures q.mode == OneAtATime && q.messages != [] ==>
      Drained(q).messages == q.messages[1..] && Drained(q).drained == q.drained + [q.messages[0]]
    ensures q.messages == [] ==> Drained(q) == q
    ensures Drained(q).mode == q.mode
  {
  }

  // ------------------------------------------------------------------
  // The steps of a run
  // ------------------------------------------------------------------

  /** What happens after a turn, up to the poll that gives the next one its messages. */
  function StepsAfterTurn(script: TurnScript, next: Origin): seq<Step> {
    match next
    case Nowhere => []
    case SteeringQueue => Arriving(script.beforeSteeringPoll) + [PollSteering]
    case FollowUpQueue =>
      Arriving(script.beforeSteeringPoll) + [PollSteering] + Arriving(script.beforeFollowUpPoll) + [PollFollowUp]
  }

  /** From the start of a run to the poll that gives the turn after `turns` its messages. */
  function RunSteps(arrivals: seq<Arrival>, skipInitialPoll: bool, script: seq<TurnScript>, turns: seq<Turn>,
      next: Origin): seq<Step>
  {
    if turns == [] then
      if next == Nowhere then [] else Arriving(arrivals) + (if skipInitialPoll then [] else [PollSteering])
    else if |turns| > |script| then []
    else
      var k := |turns| - 1;
      RunSteps(arrivals, skipInitialPoll, script, turns[..k], turns[k].origin) + StepsAfterTurn(script[k], next)
  }

  /** How the queues were left by the steps since `before`, none of which lost a message. */
  ghost predicate Followed(before: Queues, steps: seq<Step>, after: Queues) {
    && after == AfterSteps(before, steps)
    && Kept(before.steering, after.steering, SentIn(steps, true), ClearFree(steps, true))
    && Kept(before.followUp, after.followUp, SentIn(steps, false), ClearFree(steps, false))
  }

  lemma FollowedSteps(q: Queues, steps: seq<Step>)
    ensures Followed(q, steps, AfterSteps(q, steps))
  {
    StepsKeepMessages(q, steps, true);
    StepsKeepMessages(q, steps, false);
  }

  lemma FollowedMore(before: Queues, first: seq<Step>, between: Queues, second: seq<Step>, after: Queues)
    requires Followed(before, first, between) && after == AfterSteps(between, second)
    ensures Followed(before, first + second, after)
  {
    hide Kept, AfterSteps, SentIn, ClearFree;
    AfterStepsJoin(before, first, second);
    FollowedSteps(before, first + second);
  }

  /** The steps of a run after polls that took its prompts. */
  lemma FollowedAfterPolls(before: Queues, polls: seq<Step>, between: Queues, steps: seq<Step>, after: Queues)
    requires Followed(between, steps, after)
    requires || (polls == [PollSteering] && between == before.(steering := Drained(before.steering)))
             || (polls == [PollSteering, PollFollowUp] &&
                 between == Queues(Drained(before.steering), Drained(before.followUp)))
    ensures Followed(before, polls + steps, after)
  {
    hide Kept, Drained, SentIn, ClearFree;
    assert polls[..|polls|-1] == if |polls| == 1 then [] else [PollSteering];
    assert between == AfterSteps(before, polls);
    hide AfterSteps, AfterStep;
    FollowedSteps(before, polls);
    FollowedMore(before, polls, between, steps, after);
  }

  /** The queues when a run begins, and what the user does to them until its initial poll, if that is made. */
  datatype Opening = Opening(queues: Queues, arrivals: seq<Arrival>, skipInitialPoll: bool)

  /** What happened to the queues since a run began. */
  ghost predicate Recorded(opening: Opening, script: seq<TurnScript>, l: Ledger, q: Queues) {
    Followed(opening.queues, RunSteps(opening.arrivals, opening.skipInitialPoll, script, l.turns, l.origin), q)
  }

  lemma RecordedInit(opening: Opening, script: seq<TurnScript>, prompts: seq<Message>)
    ensures Recorded(opening, script, Ledger(prompts, [], [], Nowhere), opening.queues)
  {
    FollowedSteps(opening.queues, []);
  }

  lemma RecordedTurn(opening: Opening, script: seq<TurnScript>, l: Ledger, q: Queues, assistant: AssistantMessage,
      results: seq<ToolResultMessage>, continues: bool)
    requires Recorded(opening, script, l, q) && |l.turns| < |script|
    ensures Recorded(opening, script, FinishTurn(l, assistant, results, continues), q)
  {
    hide Followed;
    var turn := Turn(l.pending, l.origin, assistant, results, continues);
    assert (l.turns + [turn])[..|l.turns|] == l.turns;
    var steps := RunSteps(opening.arrivals, opening.skipInitialPoll, script, l.turns, l.origin);
    assert steps + [] == steps;
  }

  /** The steps up to a steering poll. */
  function SteeringSteps(arrivals: seq<Arrival>, skip: bool): seq<Step> {
    Arriving(arrivals) + (if skip then [] else [PollSteering])
  }

  /** The steering poll is the initial one, or the one its turn's script describes. */
  predicate PollsAt(opening: Opening, script: seq<TurnScript>, n: nat, arrivals: seq<Arrival>, skip: bool) {
    if n == 0 then arrivals == opening.arrivals && skip == opening.skipInitialPoll
    else n <= |script| && arrivals == script[n - 1].beforeSteeringPoll && !skip
  }

  lemma RecordedSteeringPoll(opening: Opening, script: seq<TurnScript>, l: Ledger, q: Queues,
      arrivals: seq<Arrival>, skip: bool, taken: seq<Message>)
    requires Recorded(opening, script, l, q) && l.origin == Nowhere
    requires PollsAt(opening, script, |l.turns|, arrivals, skip)
    ensures Recorded(opening, script, Polled(l, taken, SteeringQueue), AfterSteps(q, SteeringSteps(arrivals, skip)))
  {
    hide Followed, AfterSteps;
    var steps := RunSteps(opening.arrivals, opening.skipInitialPoll, script, l.turns, Nowhere);
    var more := SteeringSteps(arrivals, skip);
    FollowedMore(opening.queues, steps, q, more, AfterSteps(q, more));
    if l.turns == [] {
      assert steps + more == more;
    } else {
      var k := |l.turns| - 1;
      var earlier := RunSteps(opening.arrivals, opening.skipInitialPoll, script, l.turns[..k], l.turns[k].origin);
      assert steps == earlier + [];
      assert earlier + [] + more == earlier + more;
    }
  }

  lemma RecordedFollowUpPoll(opening: Opening, script: seq<TurnScript>, l: Ledger, q: Queues, taken: seq<Message>)
    requires Recorded(opening, script, l, q) && l.origin == SteeringQueue && 0 < |l.turns| <= |script|
    ensures Recorded(opening, script, Polled(l, taken, FollowUpQueue),
                   AfterSteps(q, Arriving(script[|l.turns| - 1].beforeFollowUpPoll) + [PollFollowUp]))
  {
    hide Followed, AfterSteps;
    var k := |l.turns| - 1;
    var earlier := RunSteps(opening.arrivals, opening.skipInitialPoll, script, l.turns[..k], l.turns[k].origin);
    var first := Arriving(script[k].beforeSteeringPoll) + [PollSteering];
    var more := Arriving(script[k].beforeFollowUpPoll) + [PollFollowUp];
    FollowedMore(opening.queues, earlier + first, q, more, AfterSteps(q, more));
    assert StepsAfterTurn(script[k], FollowUpQueue) == first + more;
    assert earlier + first + more == earlier + (first + more);
  }
}
