/**
 * What a run's new messages look like: the record of its turns, the queue ledger, and
 * what follows from them (packages/agent/src/agent-loop.ts, `runLoop`).
 */
module TurnGrammar {
  import opened Base
  import opened AgentTypes
  import opened EventWord
  import opened ToolExecution
  import opened ToolBatch
  import opened AgentLoop

  datatype Origin = Nowhere | SteeringQueue | FollowUpQueue

  /** One turn: injected messages, one assistant message, its tool results. */
  datatype Turn = Turn(injected: seq<Message>, origin: Origin, assistant: AssistantMessage,
                       results: seq<ToolResultMessage>, continues: bool)

  function Spoken(turn: Turn): seq<Message> {
    turn.injected + [Assistant(turn.assistant)] + ResultMessages(turn.results)
  }

  function Flatten(turns: seq<Turn>): seq<Message> {
    if turns == [] then [] else Flatten(turns[..|turns|-1]) + Spoken(turns[|turns|-1])
  }

  /** The turn is what its script makes of it. */
  ghost predicate Follows(turn: Turn, script: TurnScript) {
    var calls := turn.assistant.ToolCalls();
    && turn.assistant == script.stream.result
    && if turn.assistant.Failed() || calls == [] then
         turn.results == [] && !turn.continues
       else if turn.assistant.stopReason.Length? then
         turn.results == TruncatedResults(calls, |calls|) && turn.continues
       else
         && IsCut(calls, script.tools, |turn.results|)
         && turn.results == Results(calls, script.tools, |turn.results|)
         && turn.continues == !TerminatesBatch(Outcomes(calls, script.tools, |turn.results|))
  }

  /**
   * The result ids are a prefix of the assistant message's tool-call ids, in source
   * order: nothing for a failed message, everything unless the signal was aborted.
   */
  lemma ResultsFollowCalls(turn: Turn, script: TurnScript)
    requires Follows(turn, script)
    ensures var calls := turn.assistant.ToolCalls();
      && |turn.results| <= |calls|
      && (forall k :: 0 <= k < |turn.results| ==> turn.results[k].toolCallId == calls[k].id)
      && (turn.assistant.Failed() ==> turn.results == [])
      && (|turn.results| < |calls| && !turn.assistant.Failed() ==>
            0 < |turn.results| && script.tools(|turn.results| - 1).abortedAfter)
  {
    var calls := turn.assistant.ToolCalls();
    if !turn.assistant.Failed() && calls != [] && !turn.assistant.stopReason.Length? {
      forall k | 0 <= k < |turn.results| ensures turn.results[k].toolCallId == calls[k].id {
        assert turn.results[k].toolCallId == Outcome(calls[k], script.tools(k)).call.id;
      }
    }
  }

  /**
   * The results of a batch that ran are its calls' outcomes, field by field, and the turn
   * asks for another unless every one of them asks to terminate.
   */
  lemma ExecutedResults(turn: Turn, script: TurnScript, k: nat)
    requires Follows(turn, script) && turn.assistant.stopReason != Length && k < |turn.results|
    ensures var calls := turn.assistant.ToolCalls();
      && k < |calls|
      && var outcome := Outcome(calls[k], script.tools(k));
        && turn.results[k] == ToolResultMessage(calls[k].id, calls[k].name, outcome.result.content,
                                                outcome.result.details, outcome.result.usage, outcome.isError)
        && (outcome.result.terminate != Some(true) ==> turn.continues)
    ensures turn.continues ==>
      exists j :: 0 <= j < |turn.results| &&
        Outcome(turn.assistant.ToolCalls()[j], script.tools(j)).result.terminate != Some(true)
  {
    hide Outcome;
    var calls := turn.assistant.ToolCalls();
    var outcomes := Outcomes(calls, script.tools, |turn.results|);
    assert outcomes[k] == Outcome(calls[k], script.tools(k));
    if turn.continues {
      var j :| 0 <= j < |outcomes| && outcomes[j].result.terminate != Some(true);
      assert outcomes[j] == Outcome(calls[j], script.tools(j));
    }
  }

  /** Every call of a truncated message comes back as an error that says so, and the run goes on. */
  lemma TruncatedTurn(turn: Turn, script: TurnScript, k: nat)
    requires Follows(turn, script) && turn.assistant.stopReason == Length && turn.assistant.ToolCalls() != []
    ensures |turn.results| == |turn.assistant.ToolCalls()| && turn.continues
    ensures k < |turn.results| ==>
      var call := turn.assistant.ToolCalls()[k];
      turn.results[k] == ToolResultMessage(call.id, call.name, Truncated(call.name), 0, None, true)
  {
  }

  // ------------------------------------------------------------------
  // The ledger of a run
  // ------------------------------------------------------------------

  /** The run's prompts, its finished turns, and the messages waiting to be injected. */
  datatype Ledger = Ledger(prompts: seq<Message>, turns: seq<Turn>, pending: seq<Message>, origin: Origin)

  function NewMessages(l: Ledger): seq<Message> {
    l.prompts + Flatten(l.turns)
  }

  /** Everything injected from one queue, in order. */
  function InjectedFrom(turns: seq<Turn>, origin: Origin): seq<Message> {
    if turns == [] then []
    else
      var last := turns[|turns|-1];
      InjectedFrom(turns[..|turns|-1], origin) + (if last.origin == origin then last.injected else [])
  }

  /** In the transcript, then still pending. */
  function TakenFrom(l: Ledger, origin: Origin): seq<Message> {
    InjectedFrom(l.turns, origin) + (if l.origin == origin then l.pending else [])
  }

  function FinishTurn(l: Ledger, assistant: AssistantMessage, results: seq<ToolResultMessage>,
      continues: bool): Ledger {
    l.(turns := l.turns + [Turn(l.pending, l.origin, assistant, results, continues)], pending := [], origin := Nowhere)
  }

  lemma FinishTurnKeeps(l: Ledger, assistant: AssistantMessage, results: seq<ToolResultMessage>, continues: bool,
      origin: Origin)
    requires origin != Nowhere
    ensures TakenFrom(FinishTurn(l, assistant, results, continues), origin) == TakenFrom(l, origin)
  {
    var turn := Turn(l.pending, l.origin, assistant, results, continues);
    assert (l.turns + [turn])[..|l.turns|] == l.turns;
  }

  lemma FinishTurnSays(l: Ledger, assistant: AssistantMessage, results: seq<ToolResultMessage>, continues: bool)
    ensures NewMessages(FinishTurn(l, assistant, results, continues)) ==
            NewMessages(l) + (l.pending + [Assistant(assistant)] + ResultMessages(results))
  {
    var turn := Turn(l.pending, l.origin, assistant, results, continues);
    assert (l.turns + [turn])[..|l.turns|] == l.turns;
    assert l.prompts + (Flatten(l.turns) + Spoken(turn)) == l.prompts + Flatten(l.turns) + Spoken(turn);
  }

  /** A poll of an empty-handed ledger. */
  function Polled(l: Ledger, taken: seq<Message>, origin: Origin): Ledger {
    l.(pending := taken, origin := origin)
  }

  lemma PolledTakes(l: Ledger, taken: seq<Message>, origin: Origin, other: Origin)
    requires l.pending == [] && origin != Nowhere && other != Nowhere
    ensures TakenFrom(Polled(l, taken, origin), other) == TakenFrom(l, other) + (if origin == other then taken else [])
  {
    assert InjectedFrom(l.turns, other) + [] == InjectedFrom(l.turns, other);
  }

  // ------------------------------------------------------------------
  // Shape of a run
  // ------------------------------------------------------------------

  /** Every turn but the first was caused: by the batch before it or by injected messages. */
  ghost predicate Caused(turns: seq<Turn>) {
    forall k :: 0 < k < |turns| ==> turns[k-1].continues || turns[k].injected != []
  }

  /** Turns follow their scripts, and only the last may hold a failed message. */
  ghost predicate WellFormed(turns: seq<Turn>, script: seq<TurnScript>) {
    && |turns| <= |script|
    && (forall k :: 0 <= k < |turns| ==> Follows(turns[k], script[k]))
    && (forall k :: 0 <= k < |turns| - 1 ==> !turns[k].assistant.Failed() && !script[k].stop)
    && Caused(turns)
    && (forall k :: 0 <= k < |turns| ==> turns[k].injected == [] || turns[k].origin != Nowhere)
  }

  lemma WellFormedStep(turns: seq<Turn>, turn: Turn, script: seq<TurnScript>)
    requires WellFormed(turns, script) && |turns| < |script| && Follows(turn, script[|turns|])
    requires turns == [] || MayContinue(turns[|turns|-1], script[|turns|-1], turn.injected)
    requires turn.injected == [] || turn.origin != Nowhere
    ensures WellFormed(turns + [turn], script)
  {
    hide Follows;
  }

  /** A turn follows another only if that one did not fail or stop, and something caused it. */
  ghost predicate MayContinue(last: Turn, script: TurnScript, injected: seq<Message>) {
    !last.assistant.Failed() && !script.stop && (last.continues || injected != [])
  }

  function Continuing(turns: seq<Turn>): nat {
    if turns == [] then 0 else Continuing(turns[..|turns|-1]) + (if turns[|turns|-1].continues then 1 else 0)
  }

  function Injected(turns: seq<Turn>): nat {
    if turns == [] then 0 else Injected(turns[..|turns|-1]) + |turns[|turns|-1].injected|
  }

  /** At most one turn more than non-terminating batches and injected queue messages. */
  lemma {:induction false} TurnBound(turns: seq<Turn>)
    requires Caused(turns)
    ensures |turns| <= 1 + Continuing(turns) + Injected(turns)
    ensures turns != [] ==> |turns| <= 1 + Continuing(turns[..|turns|-1]) + Injected(turns)
  {
    if |turns| > 1 {
      var init := turns[..|turns|-1];
      TurnBound(init);
      assert init[..|init|-1] == turns[..|turns|-2];
    }
  }

  lemma {:induction false} InjectedIsTaken(turns: seq<Turn>)
    requires forall k :: 0 <= k < |turns| ==> turns[k].injected == [] || turns[k].origin != Nowhere
    ensures Injected(turns) == |InjectedFrom(turns, SteeringQueue)| + |InjectedFrom(turns, FollowUpQueue)|
  {
    if turns != [] { InjectedIsTaken(turns[..|turns|-1]); }
  }

  /** The turn bound in terms of what a run took from the queues. */
  lemma RunBound(turns: seq<Turn>, script: seq<TurnScript>)
    requires WellFormed(turns, script)
    ensures |turns| <= 1 + Continuing(turns) + |InjectedFrom(turns, SteeringQueue)| + |InjectedFrom(turns,
        FollowUpQueue)|
  {
    hide Follows;
    TurnBound(turns);
    InjectedIsTaken(turns);
  }

  /**
   * A message that ended in an error or was aborted runs no tool and ends the run; any
   * other with calls has results, and only then does the turn ask for another.
   */
  ghost predicate StopsAtFailure(turns: seq<Turn>) {
    forall k :: 0 <= k < |turns| ==>
      var message := turns[k].assistant;
      if message.stopReason == Error || message.stopReason == Aborted then
        turns[k].results == [] && !turns[k].continues && k == |turns| - 1
      else if exists j :: 0 <= j < |message.content| && message.content[j].Call? then turns[k].results != []
      else turns[k].results == [] && !turns[k].continues
  }

  lemma FailureStops(turns: seq<Turn>, script: seq<TurnScript>)
    requires WellFormed(turns, script)
    ensures StopsAtFailure(turns)
  {
    forall k | 0 <= k < |turns|
      ensures var message := turns[k].assistant;
        if message.stopReason == Error || message.stopReason == Aborted then
          turns[k].results == [] && !turns[k].continues && k == |turns| - 1
        else if exists j :: 0 <= j < |message.content| && message.content[j].Call? then turns[k].results != []
        else turns[k].results == [] && !turns[k].continues
    {
      FollowsStops(turns[k], script[k]);
      CallsWanted(turns[k].assistant.content);
      hide Follows;
    }
  }

  lemma FollowsStops(turn: Turn, script: TurnScript)
    requires Follows(turn, script)
    ensures turn.assistant.Failed() || turn.assistant.ToolCalls() == [] ==> turn.results == [] && !turn.continues
    ensures !turn.assistant.Failed() && turn.assistant.ToolCalls() != [] ==> turn.results != []
  {
  }

  // ------------------------------------------------------------------
  // The loop between turns
  // ------------------------------------------------------------------

  /** The loop may run another turn once something causes it. */
  ghost predicate OnTrack(l: Ledger, script: seq<TurnScript>, hasMoreToolCalls: bool, firstTurn: bool) {
    && WellFormed(l.turns, script)
    && (firstTurn <==> l.turns == [])
    && (l.pending == [] || l.origin != Nowhere)
    && (l.turns == [] ==> hasMoreToolCalls)
    && (l.turns != [] ==>
          var k := |l.turns| - 1;
          && !l.turns[k].assistant.Failed() && !script[k].stop
          && (hasMoreToolCalls ==> l.turns[k].continues || l.pending != [])
          && (!hasMoreToolCalls ==> !l.turns[k].continues))
  }

  /** The run is over: it failed, a hook stopped it, or nothing was left to do. */
  ghost predicate OverBecause(l: Ledger, script: seq<TurnScript>) {
    && l.pending == [] && 0 < |l.turns| <= |script|
    && var k := |l.turns| - 1;
      l.turns[k].assistant.Failed() || script[k].stop || !l.turns[k].continues
  }

  /** The last message failed or the stop hook ended the run, whatever is still queued. */
  ghost predicate EndedEarly(l: Ledger, script: seq<TurnScript>) {
    0 < |l.turns| <= |script| && (l.turns[|l.turns|-1].assistant.Failed() || script[|l.turns|-1].stop)
  }

  /** The two ways to end early, and the three reasons to end at all. */
  lemma EndSays(l: Ledger, script: seq<TurnScript>)
    requires 0 < |l.turns| <= |script|
    ensures var last, reason := l.turns[|l.turns|-1], l.turns[|l.turns|-1].assistant.stopReason;
      && (EndedEarly(l, script) <==> reason == Error || reason == Aborted || script[|l.turns|-1].stop)
      && (OverBecause(l, script) <==>
            l.pending == [] && (reason == Error || reason == Aborted || script[|l.turns|-1].stop || !last.continues))
  {
  }

  /** A turn comes from a continuing batch or from messages, and none follows the stop hook. */
  lemma TurnComesFrom(turns: seq<Turn>, script: seq<TurnScript>, k: nat)
    requires WellFormed(turns, script) && k < |turns|
    ensures turns[k].assistant == script[k].stream.result
    ensures script[k].stop ==> k == |turns| - 1
    ensures k > 0 ==> turns[k-1].continues || turns[k].injected != []
  {
  }

  lemma TrackTurn(l: Ledger, script: seq<TurnScript>, hasMore: bool, firstTurn: bool, assistant: AssistantMessage,
      results: seq<ToolResultMessage>, continues: bool)
    requires OnTrack(l, script, hasMore, firstTurn) && |l.turns| < |script| && (hasMore || l.pending != [])
    requires Follows(Turn(l.pending, l.origin, assistant, results, continues), script[|l.turns|])
    ensures var done := FinishTurn(l, assistant, results, continues);
      && WellFormed(done.turns, script)
      && |done.turns| == |l.turns| + 1
      && (assistant.Failed() || script[|l.turns|].stop <==> EndedEarly(done, script))
      && (EndedEarly(done, script) ==> OverBecause(done, script))
      && (!assistant.Failed() && !script[|l.turns|].stop ==> OnTrack(done, script, continues, false))
  {
    hide Follows, WellFormed;
    WellFormedStep(l.turns, Turn(l.pending, l.origin, assistant, results, continues), script);
  }

  lemma TrackPoll(l: Ledger, script: seq<TurnScript>, hasMore: bool, firstTurn: bool, taken: seq<Message>,
      origin: Origin)
    requires OnTrack(l, script, hasMore, firstTurn) && l.pending == [] && origin != Nowhere
    ensures OnTrack(Polled(l, taken, origin), script, hasMore, firstTurn)
    ensures !hasMore && taken != [] ==> OnTrack(Polled(l, taken, origin), script, true, firstTurn)
    ensures !hasMore && taken == [] ==> OverBecause(Polled(l, taken, origin), script)
  {
    hide Follows;
  }

  // ------------------------------------------------------------------
  // The transcripts and the queues
  // ------------------------------------------------------------------

  /** The context is where it last started, and everything said since position `mark`. */
  ghost predicate Transcripts(l: Ledger, newMessages: seq<Message>, context: seq<Message>, contextBase: seq<Message>,
      mark: nat) {
    newMessages == NewMessages(l) && mark <= |newMessages| && context == contextBase + newMessages[mark..]
  }

  lemma TranscriptsTurn(l: Ledger, newMessages: seq<Message>, context: seq<Message>, contextBase: seq<Message>,
      mark: nat, assistant: AssistantMessage, results: seq<ToolResultMessage>, continues: bool)
    requires Transcripts(l, newMessages, context, contextBase, mark)
    ensures var spoken := l.pending + [Assistant(assistant)] + ResultMessages(results);
      Transcripts(FinishTurn(l, assistant, results, continues), newMessages + spoken, context + spoken, contextBase,
          mark)
  {
    hide NewMessages, ResultMessages;
    FinishTurnSays(l, assistant, results, continues);
  }

  lemma TranscriptsReplaced(l: Ledger, newMessages: seq<Message>, context: seq<Message>, contextBase: seq<Message>,
      mark: nat, replacement: seq<Message>)
    requires Transcripts(l, newMessages, context, contextBase, mark)
    ensures Transcripts(l, newMessages, replacement, replacement, |newMessages|)
  {
  }

  lemma TranscriptsPoll(l: Ledger, newMessages: seq<Message>, context: seq<Message>, contextBase: seq<Message>,
      mark: nat, taken: seq<Message>, origin: Origin)
    requires Transcripts(l, newMessages, context, contextBase, mark)
    ensures Transcripts(Polled(l, taken, origin), newMessages, context, contextBase, mark)
  {
  }

  /** What was handed out of each queue since the run began: injected first, then pending. */
  ghost predicate Accounts(l: Ledger, steered0: seq<Message>, followed0: seq<Message>, steered: seq<Message>,
      followed: seq<Message>) {
    steered == steered0 + TakenFrom(l, SteeringQueue) && followed == followed0 + TakenFrom(l, FollowUpQueue)
  }

  lemma AccountsTurn(l: Ledger, steered0: seq<Message>, followed0: seq<Message>, steered: seq<Message>,
      followed: seq<Message>, assistant: AssistantMessage, results: seq<ToolResultMessage>, continues: bool)
    requires Accounts(l, steered0, followed0, steered, followed)
    ensures Accounts(FinishTurn(l, assistant, results, continues), steered0, followed0, steered, followed)
  {
    FinishTurnKeeps(l, assistant, results, continues, SteeringQueue);
    FinishTurnKeeps(l, assistant, results, continues, FollowUpQueue);
  }

  lemma AccountsPoll(l: Ledger, steered0: seq<Message>, followed0: seq<Message>, steered: seq<Message>,
      followed: seq<Message>, taken: seq<Message>)
    requires Accounts(l, steered0, followed0, steered, followed) && l.pending == []
    ensures Accounts(Polled(l, taken, SteeringQueue), steered0, followed0, steered + taken, followed)
    ensures Accounts(Polled(l, taken, FollowUpQueue), steered0, followed0, steered, followed + taken)
  {
    forall from, to | from != Nowhere && to != Nowhere
      ensures TakenFrom(Polled(l, taken, from), to) == TakenFrom(l, to) + (if from == to then taken else [])
    {
      PolledTakes(l, taken, from, to);
    }
    hide TakenFrom;
    assert steered0 + (TakenFrom(l, SteeringQueue) + taken) == steered0 + TakenFrom(l, SteeringQueue) + taken;
    assert followed0 + (TakenFrom(l, FollowUpQueue) + taken) == followed0 + TakenFrom(l, FollowUpQueue) + taken;
  }
}
