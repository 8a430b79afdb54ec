/**
 * Request/response correlation of the RPC client
 * (packages/pi-gui-adapter/src/rpc-client.ts).
 *
 * A request is known by its serial number (the promise it returned) as well as by the
 * id it carries, so that the model can say what happens when an id is used twice.
 */
module RpcClient {
  import opened Base

  /** Ids are only compared, so a number stands for each. */
  type RequestId = nat

  datatype Response = Response(id: Option<RequestId>, payload: nat)

  /** What settled a request. */
  datatype Outcome =
    | Resolved(response: Response)
    | TimedOut
    | Rejected(reason: nat)

  datatype Issued = Issued(id: RequestId, timed: bool)

  datatype State = State(
    issued: seq<Issued>,                 // by serial number
    pending: map<RequestId, nat>,        // id to serial number
    timers: set<nat>,                    // serial numbers with an armed timer
    closed: bool,
    closedReason: nat,
    settled: map<nat, seq<Outcome>>,     // everything that settled each request
    protocolErrors: nat)

  function Initial(defaultReason: nat): State {
    State([], map[], {}, false, defaultReason, map[], 0)
  }

  function Outcomes(settled: map<nat, seq<Outcome>>, serial: nat): seq<Outcome> {
    if serial in settled then settled[serial] else []
  }

  function Settle(settled: map<nat, seq<Outcome>>, serial: nat, outcome: Outcome): map<nat, seq<Outcome>> {
    settled[serial := Outcomes(settled, serial) + [outcome]]
  }

  function SettleAll(settled: map<nat, seq<Outcome>>, serials: set<nat>, outcome: Outcome): map<nat, seq<Outcome>> {
    map serial | serial in settled.Keys + serials ::
      if serial in serials then Outcomes(settled, serial) + [outcome] else settled[serial]
  }

  datatype Action =
    | Request(id: RequestId, timed: bool)
    | Receive(response: Response)
    | TimerFires(serial: nat)
    | Close(reason: nat)

  function ApplyRequest(s: State, id: RequestId, timed: bool): State {
    var serial := |s.issued|;
    var s1 := s.(issued := s.issued + [Issued(id, timed)]);
    if s.closed then s1.(settled := Settle(s.settled, serial, Rejected(s.closedReason)))
    else s1.(pending := s.pending[id := serial], timers := if timed then s.timers + {serial} else s.timers)
  }

  function ApplyReceive(s: State, response: Response): State {
    if response.id.None? || response.id.value !in s.pending then s.(protocolErrors := s.protocolErrors + 1)
    else
      var serial := s.pending[response.id.value];
      s.(pending := s.pending - {response.id.value},
         timers := s.timers - {serial},
         settled := Settle(s.settled, serial, Resolved(response)))
  }

  /** The timer's callback deletes the entry of its id and rejects its own request. */
  function ApplyTimer(s: State, serial: nat): State {
    if serial !in s.timers || serial >= |s.issued| then s
    else s.(timers := s.timers - {serial},
            pending := s.pending - {s.issued[serial].id},
            settled := Settle(s.settled, serial, TimedOut))
  }

  function ApplyClose(s: State, reason: nat): State {
    if s.closed then s
    else s.(closed := true, closedReason := reason,
            pending := map[],
            timers := s.timers - s.pending.Values,
            settled := SettleAll(s.settled, s.pending.Values, Rejected(reason)))
  }

  function Apply(s: State, a: Action): State {
    match a
    case Request(id, timed) => ApplyRequest(s, id, timed)
    case Receive(response) => ApplyReceive(s, response)
    case TimerFires(serial) => ApplyTimer(s, serial)
    case Close(reason) => ApplyClose(s, reason)
  }

  function Exec(defaultReason: nat, schedule: seq<Action>): State {
    if schedule == [] then Initial(defaultReason)
    else Apply(Exec(defaultReason, schedule[..|schedule|-1]), schedule[|schedule|-1])
  }

  // ------------------------------------------------------------------
  // Invariants
  // ------------------------------------------------------------------

  ghost predicate Legitimate(s: State, serial: nat, outcome: Outcome)
    requires serial < |s.issued|
  {
    match outcome
    case Resolved(response) => response.id == Some(s.issued[serial].id)
    case TimedOut => s.issued[serial].timed
    case Rejected(reason) => s.closed && reason == s.closedReason
  }

  ghost predicate Inv(s: State) {
    && (forall id :: id in s.pending ==>
          && s.pending[id] < |s.issued| && s.issued[s.pending[id]].id == id
          && Outcomes(s.settled, s.pending[id]) == [])
    && (forall serial: nat :: serial in s.timers <==>
          serial < |s.issued| && s.issued[serial].timed && Outcomes(s.settled, serial) == [])
    && (forall serial :: serial in s.settled ==> serial < |s.issued|)
    && (forall serial :: 0 <= serial < |s.issued| ==> |Outcomes(s.settled, serial)| <= 1)
    && (forall serial :: 0 <= serial < |s.issued| && Outcomes(s.settled, serial) != [] ==>
          Legitimate(s, serial, Outcomes(s.settled, serial)[0]))
    && (s.closed ==> s.pending == map[])
  }

  /** The pending map holds exactly the issued requests that have not settled. */
  ghost predicate Exact(s: State) {
    forall serial :: 0 <= serial < |s.issued| && Outcomes(s.settled, serial) == [] ==>
      s.issued[serial].id in s.pending && s.pending[s.issued[serial].id] == serial
  }

  lemma SettleOutcomes(settled: map<nat, seq<Outcome>>, serial: nat, outcome: Outcome)
    ensures forall other: nat :: Outcomes(Settle(settled, serial, outcome), other) ==
                            if other == serial then Outcomes(settled, serial) + [outcome] else Outcomes(settled, other)
  {
  }

  lemma SettleAllOutcomes(settled: map<nat, seq<Outcome>>, serials: set<nat>, outcome: Outcome)
    ensures forall other: nat :: Outcomes(SettleAll(settled, serials, outcome), other) ==
                            if other in serials then Outcomes(settled, other) + [outcome] else Outcomes(settled, other)
  {
  }

  /** Settling one more request after a set of them. */
  lemma SettleOneMore(settled: map<nat, seq<Outcome>>, done: set<nat>, serial: nat, outcome: Outcome)
    requires serial !in done
    ensures Settle(SettleAll(settled, done, outcome), serial, outcome) == SettleAll(settled, done + {serial}, outcome)
  {
  }

  lemma RequestKeepsInv(s: State, id: RequestId, timed: bool)
    requires Inv(s)
    ensures Inv(ApplyRequest(s, id, timed))
  {
    SettleOutcomes(s.settled, |s.issued|, Rejected(s.closedReason));
  }

  lemma ReceiveKeepsInv(s: State, response: Response)
    requires Inv(s)
    ensures Inv(ApplyReceive(s, response))
  {
    if response.id.Some? && response.id.value in s.pending {
      SettleOutcomes(s.settled, s.pending[response.id.value], Resolved(response));
    }
  }

  lemma TimerKeepsInv(s: State, serial: nat)
    requires Inv(s)
    ensures Inv(ApplyTimer(s, serial))
  {
    SettleOutcomes(s.settled, serial, TimedOut);
  }

  lemma CloseKeepsInv(s: State, reason: nat)
    requires Inv(s)
    ensures Inv(ApplyClose(s, reason))
  {
    SettleAllOutcomes(s.settled, s.pending.Values, Rejected(reason));
  }

  lemma StepKeepsInv(s: State, a: Action)
    requires Inv(s)
    ensures Inv(Apply(s, a))
  {
    match a
    case Request(id, timed) => RequestKeepsInv(s, id, timed);
    case Receive(response) => ReceiveKeepsInv(s, response);
    case TimerFires(serial) => TimerKeepsInv(s, serial);
    case Close(reason) => CloseKeepsInv(s, reason);
  }

  lemma {:induction false} ExecKeepsInv(defaultReason: nat, schedule: seq<Action>)
    ensures Inv(Exec(defaultReason, schedule))
  {
    if schedule != [] {
      ExecKeepsInv(defaultReason, schedule[..|schedule|-1]);
      StepKeepsInv(Exec(defaultReason, schedule[..|schedule|-1]), schedule[|schedule|-1]);
    }
  }

  /** A request of an open client reuses an id that is still pending. */
  predicate Reuses(s: State, a: Action) {
    a.Request? && !s.closed && a.id in s.pending
  }

  ghost predicate NeverReuses(defaultReason: nat, schedule: seq<Action>) {
    schedule == [] ||
    var init := schedule[..|schedule|-1];
    NeverReuses(defaultReason, init) && !Reuses(Exec(defaultReason, init), schedule[|schedule|-1])
  }

  /** One action keeps the pending map exact if and only if it does not reuse a pending id. */
  lemma StepExact(s: State, a: Action)
    requires Inv(s) && Exact(s)
    ensures Exact(Apply(s, a)) <==> !Reuses(s, a)
  {
    var s' := Apply(s, a);
    if Reuses(s, a) {
      assert Outcomes(s'.settled, s.pending[a.id]) == [];
    }
  }

  // ------------------------------------------------------------------
  // Main results, for every schedule
  // ------------------------------------------------------------------

  /** Every request settles at most once, with a response of its own id, its own timeout, or the close reason. */
  lemma SettlesOnceLegitimately(defaultReason: nat, schedule: seq<Action>, serial: nat)
    requires serial < |Exec(defaultReason, schedule).issued|
    ensures var s := Exec(defaultReason, schedule); var outcomes := Outcomes(s.settled, serial);
      |outcomes| <= 1 && (outcomes != [] ==> Legitimate(s, serial, outcomes[0]))
  {
    ExecKeepsInv(defaultReason, schedule);
  }

  /** One action leaves the outcome of a settled request alone. */
  lemma StepKeepsOutcome(s: State, a: Action, serial: nat)
    requires Inv(s) && serial < |s.issued| && Outcomes(s.settled, serial) != []
    ensures serial < |Apply(s, a).issued| && Outcomes(Apply(s, a).settled, serial) == Outcomes(s.settled, serial)
  {
    assert serial in s.settled;
    if a.Close? { SettleAllOutcomes(s.settled, s.pending.Values, Rejected(a.reason)); }
  }

  lemma {:induction false} OutcomeIsFinalFrom(defaultReason: nat, schedule: seq<Action>, more: seq<Action>, serial: nat)
    requires serial < |Exec(defaultReason, schedule).issued|
    requires Outcomes(Exec(defaultReason, schedule).settled, serial) != []
    ensures serial < |Exec(defaultReason, schedule + more).issued|
    ensures Outcomes(Exec(defaultReason, schedule + more).settled, serial) ==
            Outcomes(Exec(defaultReason, schedule).settled, serial)
  {
    if more == [] {
      assert schedule + more == schedule;
    } else {
      var init := more[..|more|-1];
      OutcomeIsFinalFrom(defaultReason, schedule, init, serial);
      assert (schedule + more)[..|schedule + more|-1] == schedule + init;
      ExecKeepsInv(defaultReason, schedule + init);
      StepKeepsOutcome(Exec(defaultReason, schedule + init), more[|more|-1], serial);
    }
  }

  /** The pending map is exact at every moment of a run. */
  ghost predicate AlwaysExact(defaultReason: nat, schedule: seq<Action>) {
    && Exact(Exec(defaultReason, schedule))
    && (schedule == [] || AlwaysExact(defaultReason, schedule[..|schedule|-1]))
  }

  /** The pending map is exact at every moment of a run if and only if no pending id is reused. */
  lemma {:induction false} ExactIffNoReuse(defaultReason: nat, schedule: seq<Action>)
    ensures AlwaysExact(defaultReason, schedule) <==> NeverReuses(defaultReason, schedule)
  {
    if schedule != [] {
      var init, a := schedule[..|schedule|-1], schedule[|schedule|-1];
      ExactIffNoReuse(defaultReason, init);
      ExecKeepsInv(defaultReason, init);
      if Exact(Exec(defaultReason, init)) {
        StepExact(Exec(defaultReason, init), a);
      }
    }
  }

  /** After a close nothing is pending again, no timer is armed again, and every later request is rejected at once. */
  lemma ClosedStaysEmpty(defaultReason: nat, schedule: seq<Action>, a: Action)
    ensures var s := Exec(defaultReason, schedule);
      s.closed ==>
        && s.pending == map[] && Apply(s, a).closed && Apply(s, a).pending == map[]
        && Apply(s, a).closedReason == s.closedReason && Apply(s, a).timers <= s.timers
        && (a.Request? ==> Outcomes(Apply(s, a).settled, |s.issued|) == [Rejected(s.closedReason)])
  {
    ExecKeepsInv(defaultReason, schedule);
  }

  /** The timers a close leaves armed are exactly those of the timed requests whose id a later request took over. */
  lemma CloseLeavesOrphanTimers(defaultReason: nat, schedule: seq<Action>, reason: nat, serial: nat)
    requires !Exec(defaultReason, schedule).closed
    ensures var s := Exec(defaultReason, schedule);
      serial in Apply(s, Close(reason)).timers <==>
        && serial < |s.issued| && s.issued[serial].timed && Outcomes(s.settled, serial) == []
        && !(s.issued[serial].id in s.pending && s.pending[s.issued[serial].id] == serial)
  {
    ExecKeepsInv(defaultReason, schedule);
    var s := Exec(defaultReason, schedule);
    assert serial in s.pending.Values <==>
           serial < |s.issued| && s.issued[serial].id in s.pending && s.pending[s.issued[serial].id] == serial;
  }

  /** Where no pending id is reused, a closed client has settled every request and has no timer armed. */
  lemma ClosedIsSettled(defaultReason: nat, schedule: seq<Action>, serial: nat)
    requires NeverReuses(defaultReason, schedule) && Exec(defaultReason, schedule).closed
    ensures var s := Exec(defaultReason, schedule);
      s.timers == {} && (serial < |s.issued| ==> |Outcomes(s.settled, serial)| == 1)
  {
    ExecKeepsInv(defaultReason, schedule);
    ExactIffNoReuse(defaultReason, schedule);
  }

  /** A request of an open client is pending under its id from then on, unsettled, and timed if it asked for that. */
  lemma RequestIsPending(defaultReason: nat, schedule: seq<Action>, id: RequestId, timed: bool)
    requires !Exec(defaultReason, schedule).closed
    ensures var s := Exec(defaultReason, schedule);
      var s', serial := Exec(defaultReason, schedule + [Request(id, timed)]), |s.issued|;
      && s'.issued == s.issued + [Issued(id, timed)] && s'.pending == s.pending[id := serial]
      && Outcomes(s'.settled, serial) == [] && (serial in s'.timers <==> timed) && s'.timers - {serial} == s.timers
  {
    ExecKeepsInv(defaultReason, schedule);
    assert (schedule + [Request(id, timed)])[..|schedule|] == schedule;
  }

  /** A response settles the request pending under its id with exactly what was received, and nothing else. */
  lemma ResponseSettlesItsRequest(defaultReason: nat, schedule: seq<Action>, id: RequestId, payload: nat, other: nat)
    requires id in Exec(defaultReason, schedule).pending
    ensures var s := Exec(defaultReason, schedule);
      var s', serial := Exec(defaultReason, schedule + [Receive(Response(Some(id), payload))]), s.pending[id];
      && Outcomes(s'.settled, serial) == [Resolved(Response(Some(id), payload))]
      && (other != serial ==> Outcomes(s'.settled, other) == Outcomes(s.settled, other))
      && s'.pending == s.pending - {id} && s'.timers == s.timers - {serial}
      && s'.protocolErrors == s.protocolErrors && s'.issued == s.issued
  {
    ExecKeepsInv(defaultReason, schedule);
    assert (schedule + [Receive(Response(Some(id), payload))])[..|schedule|] == schedule;
  }

  /** An armed timer that fires settles its own request as timed out, and no other. */
  lemma TimerTimesOut(defaultReason: nat, schedule: seq<Action>, serial: nat, other: nat)
    requires serial in Exec(defaultReason, schedule).timers
    ensures var s := Exec(defaultReason, schedule);
      var s' := Exec(defaultReason, schedule + [TimerFires(serial)]);
      && Outcomes(s'.settled, serial) == [TimedOut] && s'.timers == s.timers - {serial}
      && (other != serial ==> Outcomes(s'.settled, other) == Outcomes(s.settled, other))
      && s'.issued == s.issued && s.issued[serial].id !in s'.pending
  {
    ExecKeepsInv(defaultReason, schedule);
    assert (schedule + [TimerFires(serial)])[..|schedule|] == schedule;
  }

  /** A close rejects every pending request with its reason, and settles no other. */
  lemma CloseRejectsPending(defaultReason: nat, schedule: seq<Action>, reason: nat, serial: nat)
    requires !Exec(defaultReason, schedule).closed
    ensures var s := Exec(defaultReason, schedule);
      var s' := Exec(defaultReason, schedule + [Close(reason)]);
      && s'.closed && s'.pending == map[] && s'.closedReason == reason
      && Outcomes(s'.settled, serial) ==
         if serial in s.pending.Values then [Rejected(reason)] else Outcomes(s.settled, serial)
  {
    ExecKeepsInv(defaultReason, schedule);
    assert (schedule + [Close(reason)])[..|schedule|] == schedule;
    var s := Exec(defaultReason, schedule);
    SettleAllOutcomes(s.settled, s.pending.Values, Rejected(reason));
  }

  /** A duplicate, late or foreign response only counts as a protocol error. */
  lemma StrayResponseChangesNothing(defaultReason: nat, schedule: seq<Action>, response: Response)
    ensures var s := Exec(defaultReason, schedule);
      (forall serial :: 0 <= serial < |s.issued| && Some(s.issued[serial].id) == response.id ==>
         Outcomes(s.settled, serial) != []) ==>
      Apply(s, Receive(response)) == s.(protocolErrors := s.protocolErrors + 1)
  {
    ExecKeepsInv(defaultReason, schedule);
  }

  /** Reusing a pending id orphans the earlier request: a response settles only the later one. */
  lemma ReuseOrphans(defaultReason: nat)
    ensures var s := Exec(defaultReason, [Request(7, false), Request(7, false), Receive(Response(Some(7), 0))]);
      s.pending == map[] && Outcomes(s.settled, 0) == [] && Outcomes(s.settled, 1) == [Resolved(Response(Some(7), 0))]
  {
    var a := [Request(7, false), Request(7, false), Receive(Response(Some(7), 0))];
    assert a[..2] == [a[0], a[1]];
    assert a[..2][..1] == [a[0]];
    var s1 := Apply(Initial(defaultReason), a[0]);
    assert Exec(defaultReason, [a[0]]) == s1;
    assert Exec(defaultReason, a[..2]) == Apply(s1, a[1]);
  }

  /** Reusing the id of a pending request with a timer leaves that timer armed after the close. */
  lemma OrphanTimerOutlivesClose(defaultReason: nat)
    ensures var s := Exec(defaultReason, [Request(7, true), Request(7, true), Close(0)]);
      s.closed && s.timers == {0} && Outcomes(s.settled, 0) == [] && Outcomes(s.settled, 1) == [Rejected(0)]
  {
    var a := [Request(7, true), Request(7, true), Close(0)];
    assert a[..2] == [a[0], a[1]];
    assert a[..2][..1] == [a[0]];
    var s1 := Apply(Initial(defaultReason), a[0]);
    var s2 := Apply(s1, a[1]);
    assert Exec(defaultReason, [a[0]]) == s1;
    assert Exec(defaultReason, a[..2]) == s2;
    assert s2.pending == map[7 := 1] && s2.timers == {0, 1};
    assert s2.pending[7] == 1 && s2.pending.Values == {1};
  }

  // ------------------------------------------------------------------
  // The object
  // ------------------------------------------------------------------

  /** The requests that some ids stand for. */
  ghost function Serials(pending: map<RequestId, nat>, ids: set<RequestId>): set<nat> {
    set id | id in ids && id in pending :: pending[id]
  }

  /** No two ids stand for the same request. */
  ghost predicate Distinct(pending: map<RequestId, nat>) {
    forall i, j :: i in pending && j in pending && pending[i] == pending[j] ==> i == j
  }

  class Client {
    var issued: seq<Issued>
    var pending: map<RequestId, nat>
    var timers: set<nat>
    var closed: bool
    var closedReason: nat
    var settled: map<nat, seq<Outcome>>
    var protocolErrors: nat

    ghost function View(): State
      reads this
    {
      State(issued, pending, timers, closed, closedReason, settled, protocolErrors)
    }

    ghost predicate Valid()
      reads this
    {
      Inv(View())
    }

    constructor (defaultReason: nat)
      ensures Valid() && View() == Initial(defaultReason)
    {
      issued, pending, timers, closed, closedReason := [], map[], {}, false, defaultReason;
      settled, protocolErrors := map[], 0;
    }

    method Request(id: RequestId, timed: bool) returns (serial: nat)
      requires Valid()
      modifies this
      ensures Valid() && View() == ApplyRequest(old(View()), id, timed) && serial == |old(issued)|
    {
      RequestKeepsInv(View(), id, timed);
      serial := |issued|;
      issued := issued + [Issued(id, timed)];
      if closed {
        settled := Settle(settled, serial, Rejected(closedReason));
        return;
      }
      if timed { timers := timers + {serial}; }
      pending := pending[id := serial];
    }

    method HandleResponse(response: Response)
      requires Valid()
      modifies this
      ensures Valid() && View() == ApplyReceive(old(View()), response)
    {
      ReceiveKeepsInv(View(), response);
      if response.id.Some? && response.id.value in pending {
        var serial := pending[response.id.value];
        pending := pending - {response.id.value};
        timers := timers - {serial};
        settled := Settle(settled, serial, Resolved(response));
      } else {
        protocolErrors := protocolErrors + 1;
      }
    }

    method FireTimer(serial: nat)
      requires Valid() && serial in timers
      modifies this
      ensures Valid() && View() == ApplyTimer(old(View()), serial)
    {
      TimerKeepsInv(View(), serial);
      timers := timers - {serial};
      pending := pending - {issued[serial].id};
      settled := Settle(settled, serial, TimedOut);
    }

    /** Clears the timer of every pending request, in some order, and rejects it. */
    method RejectAll(reason: nat)
      requires Distinct(pending)
      modifies this`timers, this`settled
      ensures settled == SettleAll(old(settled), pending.Values, Rejected(reason))
      ensures timers == old(timers) - pending.Values
    {
      var todo := pending.Keys;
      ghost var done: set<nat> := {};
      assert settled == SettleAll(old(settled), {}, Rejected(reason));
      while todo != {}
        invariant todo <= pending.Keys
        invariant done == Serials(pending, pending.Keys - todo)
        invariant settled == SettleAll(old(settled), done, Rejected(reason)) && timers == old(timers) - done
        decreases todo
      {
        var id :| id in todo;
        var serial := pending[id];
        SettleOneMore(old(settled), done, serial, Rejected(reason));
        timers := timers - {serial};
        settled := Settle(settled, serial, Rejected(reason));
        done, todo := done + {serial}, todo - {id};
      }
      assert done == pending.Values;
    }

    method Close(reason: nat)
      requires Valid()
      modifies this
      ensures Valid() && View() == ApplyClose(old(View()), reason)
    {
      if closed { return; }
      CloseKeepsInv(View(), reason);
      closed := true;
      closedReason := reason;
      RejectAll(reason);
      pending := map[];
    }
  }
}
