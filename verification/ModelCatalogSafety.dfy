/**
 * Safety of the catalog protocol over every schedule: serialized publications,
 * generation-ordered writes and updates, and a catalog that never moves back.
 */
module ModelCatalogSafety {
  import opened Base
  import opened ModelCatalog

  type Generations = map<ProviderId, nat>
  type Histories = map<ProviderId, seq<Write>>
  type Store = map<ProviderId, Catalog>

  // ------------------------------------------------------------------
  // The invariant
  // ------------------------------------------------------------------

  // --- about the chain of publications alone

  /** A chain's tail is its provider's last publication; without a tail all have settled. */
  ghost predicate Tails(chains: map<ProviderId, nat>, pubs: seq<Pub>) {
    && (forall id :: id in chains ==>
          && chains[id] < |pubs|
          && pubs[chains[id]].id == id
          && (forall p :: chains[id] < p < |pubs| ==> pubs[p].id != id))
    && (forall p :: 0 <= p < |pubs| && pubs[p].id !in chains ==> pubs[p].state.Settled())
  }

  /** Whatever was queued before `b` is settled, is `b`'s predecessor, or precedes that. */
  ghost predicate Linked(pubs: seq<Pub>) {
    && (forall b {:trigger pubs[b].prev} :: 0 <= b < |pubs| && pubs[b].prev.Some? ==>
          pubs[b].prev.value < b && pubs[pubs[b].prev.value].id == pubs[b].id)
    && (forall a, b {:trigger pubs[a].state, pubs[b].prev} :: 0 <= a < b < |pubs| && pubs[a].id == pubs[b].id ==>
          pubs[a].state.Settled() || (pubs[b].prev.Some? && a <= pubs[b].prev.value))
  }

  /** A publication past its wait has only settled ones before it. */
  ghost predicate Serialized(pubs: seq<Pub>) {
    forall a, b :: 0 <= a < b < |pubs| && pubs[a].id == pubs[b].id && !pubs[b].state.Waiting? ==>
      pubs[a].state.Settled()
  }

  ghost predicate ChainInv(s: State) {
    Tails(s.chains, s.pubs) && Linked(s.pubs) && Serialized(s.pubs)
  }

  // --- about operations, generations and controllers alone

  /** Generations of a provider grow with each refresh and never pass the current one. */
  ghost predicate Ordered(ops: seq<Op>, gens: Generations) {
    && (forall o :: 0 <= o < |ops| ==> 1 <= ops[o].gen <= Gen(gens, ops[o].instance.id))
    && (forall i, j :: 0 <= i < j < |ops| && ops[i].instance.id == ops[j].instance.id ==> ops[i].gen < ops[j].gen)
  }

  ghost predicate Newest(ops: seq<Op>, controllers: map<ProviderId, nat>, gens: Generations, id: ProviderId)
    requires id in controllers
  {
    var o := controllers[id];
    o < |ops| && ops[o].instance.id == id && ops[o].gen == Gen(gens, id) && !ops[o].superseded
  }

  /** A registered controller is the newest refresh's; a running, unaborted refresh is registered. */
  ghost predicate Registered(ops: seq<Op>, controllers: map<ProviderId, nat>, gens: Generations) {
    && (forall id {:trigger Newest(ops, controllers, gens, id)} ::
          id in controllers ==> Newest(ops, controllers, gens, id))
    && (forall o {:trigger Controls(controllers, ops[o], o)} ::
          0 <= o < |ops| && !ops[o].Aborted() && !ops[o].pc.Finished? ==> Controls(controllers, ops[o], o))
  }

  ghost predicate OpsInv(s: State) {
    Ordered(s.ops, s.generations) && Registered(s.ops, s.controllers, s.generations)
  }

  // --- about the logs and what is shown

  ghost predicate GenSorted(h: seq<Write>, top: nat) {
    forall i, j :: 0 <= i <= j < |h| ==> h[i].gen <= h[j].gen <= top
  }

  ghost predicate UpdateSorted(u: seq<nat>, top: nat) {
    forall i, j :: 0 <= i <= j < |u| ==> u[i] <= u[j] <= top
  }

  ghost predicate LogOk(history: Histories, updates: map<ProviderId, seq<nat>>, gens: Generations, id: ProviderId) {
    && GenSorted(History(history, id), Gen(gens, id))
    && UpdateSorted(Updates(updates, id), Gen(gens, id))
  }

  ghost predicate LogsInv(history: Histories, updates: map<ProviderId, seq<nat>>, gens: Generations) {
    forall id :: LogOk(history, updates, gens, id)
  }

  /** `shown` is the store entry of its index, whole or restricted to the provider. */
  ghost predicate Persisted(h: seq<Write>, id: ProviderId, shown: Shown) {
    && 1 <= shown.index <= |h|
    && Faithful(h[shown.index - 1].entry, id, shown.models)
  }

  ghost predicate Faithful(entry: Option<Catalog>, id: ProviderId, models: Catalog) {
    entry.Some? && (models == entry.value || models == Restrict(id, entry.value))
  }

  ghost predicate Shows(history: Histories, memory: map<Instance, Shown>, inst: Instance) {
    || Memory(memory, inst) == Shown(0, [])
    || Persisted(History(history, inst.id), inst.id, Memory(memory, inst))
  }

  ghost predicate MemoryInv(history: Histories, memory: map<Instance, Shown>) {
    forall inst: Instance :: !inst.custom ==> Shows(history, memory, inst)
  }

  // --- about each operation and each publication

  /** A `createProvider` operation that would pass the check. */
  ghost predicate Guarded(op: Op, gens: Generations) {
    !op.instance.custom && Live(op, gens)
  }

  /** What a live refresh has read is a store entry no older than what is shown. */
  ghost predicate OpOk(s: State, op: Op) {
    op.pc.StoreAnswered? && op.pc.answer.Some? && !op.instance.custom ==>
      var h := History(s.history, op.instance.id);
      var answer := op.pc.answer.value;
      && 1 <= answer.index <= |h| && h[answer.index - 1].entry == Some(answer.models)
      && (Live(op, s.generations) ==> Memory(s.memory, op.instance).index <= answer.index)
  }

  ghost predicate WaitsFor(op: Op, pub: Pub, p: nat) {
    match op.pc
    case Restoring(_, q) => q == p && pub.persist.Keep?
    case Persisting(q) => q == p && pub.persist.Save?
    case _ => false
  }

  ghost predicate RefOk(s: State, pub: Pub) {
    && pub.op < |s.ops|
    && pub.id == s.ops[pub.op].instance.id && pub.gen == s.ops[pub.op].gen
  }

  /** Store effects: while in flight its generation tops the history; once landed it is the newest entry. */
  ghost predicate WriteOk(history: Histories, pub: Pub) {
    var h := History(history, pub.id);
    && (pub.state.InFlight() ==> GenSorted(h, pub.gen) && !pub.persist.Keep?)
    && (pub.state.Written? ==>
          && 1 <= pub.state.index == |h|
          && (pub.persist.Save? ==> h[|h|-1].entry == Some(pub.shown.models)))
  }

  /** What a `createProvider` publication carries has been persisted or is to be. */
  ghost predicate CarryOk(history: Histories, inst: Instance, pub: Pub) {
    !inst.custom ==>
      && pub.updates && !pub.persist.Delete?
      && (pub.persist.Keep? ==> Persisted(History(history, pub.id), pub.id, pub.shown))
  }

  /**
   * The only open publication of a live `createProvider` refresh is the one it waits for,
   * and what that would restore is no older than what is shown.
   */
  ghost predicate FreshOk(s: State, pub: Pub, p: nat)
    requires RefOk(s, pub)
  {
    var op := s.ops[pub.op];
    !pub.state.Settled() && Guarded(op, s.generations) ==>
      && WaitsFor(op, pub, p)
      && (pub.persist.Keep? ==> Memory(s.memory, op.instance).index <= pub.shown.index)
  }

  ghost predicate PubOk(s: State, pub: Pub, p: nat) {
    RefOk(s, pub) && WriteOk(s.history, pub) && CarryOk(s.history, s.ops[pub.op].instance, pub) && FreshOk(s, pub, p)
  }

  ghost predicate EachInv(s: State) {
    && (forall o {:trigger OpOk(s, s.ops[o])} :: 0 <= o < |s.ops| ==> OpOk(s, s.ops[o]))
    && (forall p {:trigger PubOk(s, s.pubs[p], p)} :: 0 <= p < |s.pubs| ==> PubOk(s, s.pubs[p], p))
  }

  ghost predicate Inv(s: State) {
    ChainInv(s) && OpsInv(s) && LogsInv(s.history, s.updates, s.generations) && MemoryInv(s.history, s.memory)
        && EachInv(s)
  }

  // ------------------------------------------------------------------
  // Operations age: superseding, beginning, aborting
  // ------------------------------------------------------------------

  ghost predicate GensGrow(gens: Generations, gens': Generations) {
    forall id :: Gen(gens, id) <= Gen(gens', id)
  }

  /** `op'` is `op`, perhaps no longer live. */
  ghost predicate Older(op: Op, gens: Generations, op': Op, gens': Generations) {
    && op'.instance == op.instance && op'.gen == op.gen && op'.pc == op.pc
    && (Live(op', gens') ==> Live(op, gens))
  }

  /** `s'` differs from `s` in older operations, new ones that just started, and controllers. */
  ghost predicate Ages(s: State, s': State) {
    && |s.ops| <= |s'.ops|
    && GensGrow(s.generations, s'.generations)
    && (forall o :: 0 <= o < |s.ops| ==> Older(s.ops[o], s.generations, s'.ops[o], s'.generations))
    && (forall o :: |s.ops| <= o < |s'.ops| ==> s'.ops[o].pc == ReadingCredential)
    && s'.pubs == s.pubs && s'.history == s.history && s'.memory == s.memory && s'.updates == s.updates
  }

  lemma AgingKeepsEach(s: State, s': State)
    requires EachInv(s) && Ages(s, s')
    ensures EachInv(s')
  {
    forall o | 0 <= o < |s'.ops| ensures OpOk(s', s'.ops[o]) {
      if o < |s.ops| { assert OpOk(s, s.ops[o]); }
    }
    forall p | 0 <= p < |s.pubs| ensures PubOk(s', s.pubs[p], p) {
      assert PubOk(s, s.pubs[p], p);
    }
  }

  lemma AgingKeepsLogs(s: State, s': State)
    requires LogsInv(s.history, s.updates, s.generations) && Ages(s, s')
    ensures LogsInv(s'.history, s'.updates, s'.generations)
  {
    forall id
      ensures LogOk(s'.history, s'.updates, s'.generations, id) {
      assert LogOk(s.history, s.updates, s.generations, id) && Gen(s.generations, id) <= Gen(s'.generations, id);
    }
  }

  /** Aging keeps all but what it may change about operations. */
  lemma AgingKeepsInv(s: State, s': State)
    requires Inv(s) && Ages(s, s') && OpsInv(s') && ChainInv(s')
    ensures Inv(s')
  {
    AgingKeepsEach(s, s');
    AgingKeepsLogs(s, s');
  }

  lemma SupersedeGens(s: State, ids: set<ProviderId>)
    ensures forall id ::
              Gen(SupersedeAll(s, ids).generations, id) == Gen(s.generations, id) + (if id in ids then 1 else 0)
  {
  }

  lemma SupersedeAges(s: State, ids: set<ProviderId>)
    requires OpsInv(s)
    ensures Ages(s, SupersedeAll(s, ids)) && Ordered(SupersedeAll(s, ids).ops, SupersedeAll(s, ids).generations)
  {
    SupersedeGens(s, ids);
    var s' := SupersedeAll(s, ids);
    forall o | 0 <= o < |s.ops| ensures Older(s.ops[o], s.generations, s'.ops[o], s'.generations) {
      assert s.ops[o].gen <= Gen(s.generations, s.ops[o].instance.id);
    }
  }

  lemma SupersedeRegisters(s: State, ids: set<ProviderId>)
    requires OpsInv(s)
    ensures var s' := SupersedeAll(s, ids); Registered(s'.ops, s'.controllers, s'.generations)
  {
    var s' := SupersedeAll(s, ids);
    SupersedeGens(s, ids);
    forall id | id in s'.controllers ensures Newest(s'.ops, s'.controllers, s'.generations, id) {
      assert Newest(s.ops, s.controllers, s.generations, id);
    }
    forall o | 0 <= o < |s'.ops| && !s'.ops[o].Aborted() && !s'.ops[o].pc.Finished?
      ensures Controls(s'.controllers, s'.ops[o], o) {
      assert Controls(s.controllers, s.ops[o], o);
    }
  }

  lemma SupersedeKeepsInv(s: State, ids: set<ProviderId>)
    requires Inv(s)
    ensures Inv(SupersedeAll(s, ids))
  {
    SupersedeAges(s, ids);
    SupersedeRegisters(s, ids);
    AgingKeepsInv(s, SupersedeAll(s, ids));
  }

  /** The new operation's generation is above all earlier ones of its provider. */
  lemma BeginOrders(s: State, inst: Instance, network: bool)
    requires Ordered(s.ops, s.generations)
    ensures var s' := BeginRefresh(s, inst, network); Ordered(s'.ops, s'.generations)
  {
    SupersedeGens(s, {inst.id});
  }

  lemma BeginRegisters(s: State, inst: Instance, network: bool)
    requires OpsInv(s)
    ensures var s' := BeginRefresh(s, inst, network); Registered(s'.ops, s'.controllers, s'.generations)
  {
    var t, s' := Supersede(s, inst.id), BeginRefresh(s, inst, network);
    SupersedeRegisters(s, {inst.id});
    forall id | id in s'.controllers ensures Newest(s'.ops, s'.controllers, s'.generations, id) {
      if id in t.controllers { assert Newest(t.ops, t.controllers, t.generations, id); }
    }
    forall o | 0 <= o < |s'.ops| && !s'.ops[o].Aborted() && !s'.ops[o].pc.Finished?
      ensures Controls(s'.controllers, s'.ops[o], o) {
      if o < |t.ops| { assert Controls(t.controllers, t.ops[o], o); }
    }
  }

  lemma BeginKeepsInv(s: State, inst: Instance, network: bool)
    requires Inv(s)
    ensures Inv(BeginRefresh(s, inst, network))
  {
    SupersedeKeepsInv(s, {inst.id});
    BeginOrders(s, inst, network);
    BeginRegisters(s, inst, network);
    assert Ages(Supersede(s, inst.id), BeginRefresh(s, inst, network));
    AgingKeepsInv(Supersede(s, inst.id), BeginRefresh(s, inst, network));
  }

  lemma AbortKeepsInv(s: State, o: nat)
    requires Inv(s) && o < |s.ops|
    ensures Inv(s.(ops := s.ops[o := s.ops[o].(callerAborted := true)]))
  {
    var s' := s.(ops := s.ops[o := s.ops[o].(callerAborted := true)]);
    forall i | 0 <= i < |s'.ops| && !s'.ops[i].Aborted() && !s'.ops[i].pc.Finished?
      ensures Controls(s.controllers, s'.ops[i], i) {
      assert Controls(s.controllers, s.ops[i], i);
    }
    forall id | id in s.controllers ensures Newest(s'.ops, s.controllers, s.generations, id) {
      assert Newest(s.ops, s.controllers, s.generations, id);
    }
    AgingKeepsInv(s, s');
  }

  lemma ReturnKeepsInv(s: State, o: nat)
    requires Inv(s) && o < |s.ops|
    requires (s.ops[o].pc.Finished? || s.ops[o].Aborted()) && Controls(s.controllers, s.ops[o], o)
    ensures Inv(s.(controllers := s.controllers - {s.ops[o].instance.id}))
  {
    var s' := s.(controllers := s.controllers - {s.ops[o].instance.id});
    forall i | 0 <= i < |s.ops| && !s.ops[i].Aborted() && !s.ops[i].pc.Finished?
      ensures Controls(s'.controllers, s.ops[i], i) {
      assert Controls(s.controllers, s.ops[i], i);
    }
    forall id | id in s'.controllers ensures Newest(s.ops, s'.controllers, s.generations, id) {
      assert Newest(s.ops, s.controllers, s.generations, id);
    }
    AgingKeepsInv(s, s');
  }

  // ------------------------------------------------------------------
  // An operation moves
  // ------------------------------------------------------------------

  function Moved(s: State, o: nat, error: bool, pc: Pc): State
    requires o < |s.ops|
  {
    s.(ops := s.ops[o := s.ops[o].(credentialError := error, pc := pc)])
  }

  /** No publication of a live `createProvider` operation is open. */
  ghost predicate Idle(s: State, o: nat)
    requires o < |s.ops|
  {
    Guarded(s.ops[o], s.generations) ==>
      forall p :: 0 <= p < |s.pubs| && s.pubs[p].op == o ==> s.pubs[p].state.Settled()
  }

  lemma MoveKeepsOps(s: State, o: nat, error: bool, pc: Pc)
    requires OpsInv(s) && o < |s.ops|
    requires s.ops[o].pc.Finished? ==> pc.Finished?
    ensures OpsInv(Moved(s, o, error, pc))
  {
    var s' := Moved(s, o, error, pc);
    forall i | 0 <= i < |s'.ops| && !s'.ops[i].Aborted() && !s'.ops[i].pc.Finished?
      ensures Controls(s.controllers, s'.ops[i], i) {
      assert Controls(s.controllers, s.ops[i], i);
    }
    forall id | id in s.controllers ensures Newest(s'.ops, s.controllers, s.generations, id) {
      assert Newest(s.ops, s.controllers, s.generations, id);
    }
  }

  lemma MoveKeepsEach(s: State, o: nat, error: bool, pc: Pc)
    requires EachInv(s) && o < |s.ops| && Idle(s, o) && OpOk(s, s.ops[o].(credentialError := error, pc := pc))
    ensures EachInv(Moved(s, o, error, pc))
  {
    var s' := Moved(s, o, error, pc);
    forall i | 0 <= i < |s'.ops| ensures OpOk(s', s'.ops[i]) {
      assert OpOk(s, s.ops[i]);
    }
    forall p | 0 <= p < |s.pubs| ensures PubOk(s', s.pubs[p], p) {
      assert PubOk(s, s.pubs[p], p);
    }
  }

  lemma MoveKeepsInv(s: State, o: nat, error: bool, pc: Pc)
    requires Inv(s) && o < |s.ops|
    requires s.ops[o].pc.Finished? ==> pc.Finished?
    requires Idle(s, o) && OpOk(s, s.ops[o].(credentialError := error, pc := pc))
    ensures Inv(Moved(s, o, error, pc))
  {
    MoveKeepsOps(s, o, error, pc);
    MoveKeepsEach(s, o, error, pc);
  }

  lemma SetPcKeepsInv(s: State, o: nat, pc: Pc)
    requires Inv(s) && o < |s.ops|
    requires s.ops[o].pc.Finished? ==> pc.Finished?
    requires Idle(s, o) && OpOk(s, s.ops[o].(pc := pc))
    ensures Inv(SetPc(s, o, pc))
  {
    MoveKeepsInv(s, o, s.ops[o].credentialError, pc);
  }

  // ------------------------------------------------------------------
  // Publications are queued and move on
  // ------------------------------------------------------------------

  lemma EnqueueKeepsTails(s: State, o: nat, persist: Persist, updates: bool, shown: Shown)
    requires Tails(s.chains, s.pubs) && o < |s.ops|
    ensures var s' := Enqueue(s, o, persist, updates, shown); Tails(s'.chains, s'.pubs)
  {
  }

  lemma EnqueueKeepsLinked(s: State, o: nat, persist: Persist, updates: bool, shown: Shown)
    requires Tails(s.chains, s.pubs) && Linked(s.pubs) && o < |s.ops|
    ensures Linked(Enqueue(s, o, persist, updates, shown).pubs)
  {
  }

  lemma EnqueueKeepsEach(s: State, o: nat, persist: Persist, updates: bool, shown: Shown)
    requires EachInv(s) && o < |s.ops|
    requires PubOk(s, Enqueue(s, o, persist, updates, shown).pubs[|s.pubs|], |s.pubs|)
    ensures EachInv(Enqueue(s, o, persist, updates, shown))
  {
    var s' := Enqueue(s, o, persist, updates, shown);
    forall i | 0 <= i < |s.ops| ensures OpOk(s', s.ops[i]) {
      assert OpOk(s, s.ops[i]);
    }
    forall p | 0 <= p < |s'.pubs| ensures PubOk(s', s'.pubs[p], p) {
      assert PubOk(s, s'.pubs[p], p);
    }
  }

  lemma EnqueueKeepsInv(s: State, o: nat, persist: Persist, updates: bool, shown: Shown)
    requires Inv(s) && o < |s.ops|
    requires PubOk(s, Enqueue(s, o, persist, updates, shown).pubs[|s.pubs|], |s.pubs|)
    ensures Inv(Enqueue(s, o, persist, updates, shown))
  {
    EnqueueKeepsTails(s, o, persist, updates, shown);
    EnqueueKeepsLinked(s, o, persist, updates, shown);
    EnqueueKeepsEach(s, o, persist, updates, shown);
  }

  /** Publication `p` is open and all earlier ones of its provider have settled. */
  ghost predicate Heads(pubs: seq<Pub>, p: nat)
    requires p < |pubs|
  {
    !pubs[p].state.Settled() && forall a :: 0 <= a < p && pubs[a].id == pubs[p].id ==> pubs[a].state.Settled()
  }

  /** The chain lets a publication run only when all earlier ones have settled. */
  lemma RunnableHeads(s: State, p: nat)
    requires ChainInv(s) && p < |s.pubs| && s.pubs[p].state.Waiting? && PrevSettled(s, p)
    ensures Heads(s.pubs, p)
  {
    if s.pubs[p].prev.Some? {
      var c := s.pubs[p].prev.value;
      assert s.pubs[c].id == s.pubs[p].id && !s.pubs[c].state.Waiting?;
    }
  }

  lemma InFlightHeads(s: State, p: nat)
    requires ChainInv(s) && p < |s.pubs| && s.pubs[p].state.InFlight()
    ensures Heads(s.pubs, p)
  {
  }

  /** While the head is open no other publication of its provider is past its wait and unsettled. */
  lemma HeadIsAlone(pubs: seq<Pub>, p: nat, q: nat)
    requires Serialized(pubs) && p < |pubs| && q < |pubs| && p != q
    requires Heads(pubs, p) && pubs[q].id == pubs[p].id
    ensures pubs[q].state.Settled() || pubs[q].state.Waiting?
  {
  }

  lemma HeadMoveKeepsTails(chains: map<ProviderId, nat>, pubs: seq<Pub>, p: nat, st: PubState)
    requires Tails(chains, pubs) && p < |pubs| && !pubs[p].state.Settled()
    ensures Tails(chains, pubs[p := pubs[p].(state := st)])
  {
  }

  lemma HeadMoveKeepsLinked(pubs: seq<Pub>, p: nat, st: PubState)
    requires Linked(pubs) && p < |pubs| && !pubs[p].state.Settled()
    ensures Linked(pubs[p := pubs[p].(state := st)])
  {
  }

  lemma HeadMoveKeepsChain(s: State, p: nat, st: PubState)
    requires ChainInv(s) && p < |s.pubs| && Heads(s.pubs, p) && !st.Waiting?
    ensures ChainInv(SetPub(s, p, st))
  {
    HeadMoveKeepsTails(s.chains, s.pubs, p, st);
    HeadMoveKeepsLinked(s.pubs, p, st);
  }

  lemma StateKeepsEach(s: State, p: nat, st: PubState)
    requires EachInv(s) && p < |s.pubs| && !s.pubs[p].state.Settled()
    requires WriteOk(s.history, s.pubs[p].(state := st))
    ensures EachInv(SetPub(s, p, st))
  {
    var s' := SetPub(s, p, st);
    forall i | 0 <= i < |s.ops| ensures OpOk(s', s.ops[i]) {
      assert OpOk(s, s.ops[i]);
    }
    forall q | 0 <= q < |s'.pubs| ensures PubOk(s', s'.pubs[q], q) {
      assert PubOk(s, s.pubs[q], q);
    }
  }

  lemma SettleKeepsInv(s: State, p: nat, st: PubState)
    requires Inv(s) && p < |s.pubs| && Heads(s.pubs, p) && st.Settled()
    ensures Inv(SetPub(s, p, st))
  {
    HeadMoveKeepsChain(s, p, st);
    StateKeepsEach(s, p, st);
  }

  lemma StartWriteKeepsInv(s: State, p: nat)
    requires Inv(s) && p < |s.pubs| && Heads(s.pubs, p)
    requires s.pubs[p].gen == Gen(s.generations, s.pubs[p].id) && !s.pubs[p].persist.Keep?
    ensures Inv(SetPub(s, p, Writing))
  {
    HeadMoveKeepsChain(s, p, Writing);
    assert LogOk(s.history, s.updates, s.generations, s.pubs[p].id);
    StateKeepsEach(s, p, Writing);
  }

  // ------------------------------------------------------------------
  // The store changes
  // ------------------------------------------------------------------

  lemma LandKeepsMemory(s: State, p: nat)
    requires MemoryInv(s.history, s.memory) && p < |s.pubs| && s.pubs[p].op < |s.ops|
    ensures MemoryInv(LandWrite(s, p).history, s.memory)
  {
    var s' := LandWrite(s, p);
    forall inst: Instance | !inst.custom ensures Shows(s'.history, s.memory, inst) {
      assert Shows(s.history, s.memory, inst);
    }
  }

  lemma LandKeepsPub(s: State, p: nat, q: nat)
    requires p < |s.pubs| && q < |s.pubs| && PubOk(s, s.pubs[p], p) && PubOk(s, s.pubs[q], q)
    requires Serialized(s.pubs) && Heads(s.pubs, p) && s.pubs[p].state.Writing?
    ensures PubOk(LandWrite(s, p), LandWrite(s, p).pubs[q], q)
  {
    if q != p && s.pubs[q].id == s.pubs[p].id { HeadIsAlone(s.pubs, p, q); }
  }

  lemma LandKeepsLogs(s: State, p: nat)
    requires LogsInv(s.history, s.updates, s.generations) && p < |s.pubs| && s.pubs[p].op < |s.ops|
    requires WriteOk(s.history, s.pubs[p]) && s.pubs[p].state.Writing?
        && s.pubs[p].gen <= Gen(s.generations, s.pubs[p].id)
    ensures var s' := LandWrite(s, p); LogsInv(s'.history, s'.updates, s'.generations)
  {
    var s' := LandWrite(s, p);
    forall id
      ensures LogOk(s'.history, s'.updates, s'.generations, id) {
      assert LogOk(s.history, s.updates, s.generations, id);
    }
  }

  lemma LandKeepsEach(s: State, p: nat)
    requires EachInv(s) && Serialized(s.pubs)
    requires p < |s.pubs| && PubOk(s, s.pubs[p], p) && Heads(s.pubs, p) && s.pubs[p].state.Writing?
    ensures EachInv(LandWrite(s, p))
  {
    var s' := LandWrite(s, p);
    forall o | 0 <= o < |s.ops| ensures OpOk(s', s.ops[o]) {
      assert OpOk(s, s.ops[o]);
    }
    forall q | 0 <= q < |s.pubs| ensures PubOk(s', s'.pubs[q], q) {
      assert PubOk(s, s.pubs[q], q);
      LandKeepsPub(s, p, q);
    }
  }

  lemma LandKeepsInv(s: State, p: nat)
    requires Inv(s) && p < |s.pubs| && PubOk(s, s.pubs[p], p) && Heads(s.pubs, p) && s.pubs[p].state.Writing?
    ensures Inv(LandWrite(s, p))
  {
    assert s.pubs[p].gen <= Gen(s.generations, s.pubs[p].id);
    HeadMoveKeepsChain(s, p, LandWrite(s, p).pubs[p].state);
    LandKeepsMemory(s, p);
    LandKeepsLogs(s, p);
    LandKeepsEach(s, p);
  }

  // ------------------------------------------------------------------
  // An update is applied
  // ------------------------------------------------------------------

  /** Two operations at the current generation of one provider are the same. */
  lemma LiveIsUnique(ops: seq<Op>, gens: Generations, i: nat, j: nat)
    requires Ordered(ops, gens) && i < |ops| && j < |ops|
    requires ops[i].instance.id == ops[j].instance.id && ops[i].gen == ops[j].gen
    ensures i == j
  {
  }

  lemma InstallKeepsOp(s: State, p: nat, shown: Shown, i: nat)
    requires Ordered(s.ops, s.generations) && p < |s.pubs| && RefOk(s, s.pubs[p]) && Allowed(s, p)
    requires !s.pubs[p].state.Settled() && FreshOk(s, s.pubs[p], p)
    requires i < |s.ops| && OpOk(s, s.ops[i])
    ensures OpOk(Install(s, p, shown), s.ops[i])
  {
    var s', o := Install(s, p, shown), s.pubs[p].op;
    assert s'.ops == s.ops && s'.generations == s.generations && s'.history == s.history;
    if Guarded(s.ops[i], s.generations) {
      if s.ops[i].instance == s.ops[o].instance {
        LiveIsUnique(s.ops, s.generations, i, o);
      } else {
        assert Memory(s'.memory, s.ops[i].instance) == Memory(s.memory, s.ops[i].instance);
      }
    }
  }

  lemma InstallKeepsFreshOk(s: State, p: nat, shown: Shown, q: nat)
    requires Ordered(s.ops, s.generations) && p < |s.pubs| && RefOk(s, s.pubs[p]) && Allowed(s, p)
    requires !s.pubs[p].state.Settled() && FreshOk(s, s.pubs[p], p)
    requires q < |s.pubs| && RefOk(s, s.pubs[q]) && FreshOk(s, s.pubs[q], q)
    ensures FreshOk(Install(s, p, shown), Install(s, p, shown).pubs[q], q)
  {
    var s', o, i := Install(s, p, shown), s.pubs[p].op, s.pubs[q].op;
    assert s'.ops == s.ops && s'.generations == s.generations;
    if q != p && Guarded(s.ops[i], s.generations) && !s.pubs[q].state.Settled() {
      if s.ops[i].instance == s.ops[o].instance {
        LiveIsUnique(s.ops, s.generations, i, o);
        assert false;
      }
      assert s'.pubs[q] == s.pubs[q] && Memory(s'.memory, s.ops[i].instance) == Memory(s.memory, s.ops[i].instance);
    }
  }

  lemma InstallKeepsPub(s: State, p: nat, shown: Shown, q: nat)
    requires Ordered(s.ops, s.generations) && p < |s.pubs| && PubOk(s, s.pubs[p], p) && Allowed(s, p)
    requires !s.pubs[p].state.Settled()
    requires q < |s.pubs| && PubOk(s, s.pubs[q], q)
    ensures PubOk(Install(s, p, shown), Install(s, p, shown).pubs[q], q)
  {
    InstallKeepsFreshOk(s, p, shown, q);
  }

  lemma InstallKeepsLogs(s: State, p: nat, shown: Shown)
    requires LogsInv(s.history, s.updates, s.generations) && p < |s.pubs| && s.pubs[p].op < |s.ops|
    requires s.pubs[p].gen == Gen(s.generations, s.pubs[p].id)
    ensures var s' := Install(s, p, shown); LogsInv(s'.history, s'.updates, s'.generations)
  {
    var s' := Install(s, p, shown);
    forall id
      ensures LogOk(s'.history, s'.updates, s'.generations, id) {
      assert LogOk(s.history, s.updates, s.generations, id);
    }
  }

  lemma InstallKeepsMemory(s: State, p: nat, shown: Shown)
    requires MemoryInv(s.history, s.memory) && p < |s.pubs| && RefOk(s, s.pubs[p])
    requires !s.ops[s.pubs[p].op].instance.custom ==> Persisted(History(s.history, s.pubs[p].id), s.pubs[p].id, shown)
    ensures MemoryInv(s.history, Install(s, p, shown).memory)
  {
    var s' := Install(s, p, shown);
    forall inst: Instance | !inst.custom ensures Shows(s.history, s'.memory, inst) {
      assert Shows(s.history, s.memory, inst);
    }
  }

  lemma InstallKeepsInv(s: State, p: nat, shown: Shown)
    requires Inv(s) && p < |s.pubs| && Heads(s.pubs, p) && PubOk(s, s.pubs[p], p) && Allowed(s, p)
    requires !s.ops[s.pubs[p].op].instance.custom ==> Persisted(History(s.history, s.pubs[p].id), s.pubs[p].id, shown)
    ensures Inv(Install(s, p, shown))
  {
    var s' := Install(s, p, shown);
    HeadMoveKeepsChain(s, p, Published);
    InstallKeepsLogs(s, p, shown);
    InstallKeepsMemory(s, p, shown);
    assert EachInv(s') by {
      forall i | 0 <= i < |s.ops| ensures OpOk(s', s.ops[i]) {
        InstallKeepsOp(s, p, shown, i);
      }
      forall q | 0 <= q < |s.pubs| ensures PubOk(s', s'.pubs[q], q) {
        InstallKeepsPub(s, p, shown, q);
      }
    }
  }

  // ------------------------------------------------------------------
  // Every action keeps the invariant
  // ------------------------------------------------------------------

  lemma CleanKeepsInv(s: State, id: ProviderId)
    requires Inv(s) && id in s.chains && s.pubs[s.chains[id]].state.Settled()
    ensures Inv(s.(chains := s.chains - {id}))
  {
    var s', t := s.(chains := s.chains - {id}), s.chains[id];
    forall p | 0 <= p < |s.pubs| && s.pubs[p].id == id ensures s.pubs[p].state.Settled() {
      assert p <= t;
    }
    AgingKeepsEach(s, s');
  }

  /** Outside a publication wait a live `createProvider` operation has nothing open. */
  lemma NotWaitingIsIdle(s: State, o: nat)
    requires EachInv(s) && o < |s.ops|
    requires s.ops[o].pc.Restoring? || s.ops[o].pc.Persisting? ==>
      s.ops[o].pc.pub < |s.pubs| && s.pubs[s.ops[o].pc.pub].state.Settled()
    ensures Idle(s, o)
  {
    forall p | 0 <= p < |s.pubs| && s.pubs[p].op == o
        && Guarded(s.ops[o], s.generations) ensures s.pubs[p].state.Settled() {
      assert PubOk(s, s.pubs[p], p);
    }
  }

  lemma ReadKeepsInv(s: State, o: nat)
    requires Inv(s) && o < |s.ops| && s.ops[o].pc.ReadingStore?
    ensures Inv(ApplyOp(s, o, StoreRead))
  {
    NotWaitingIsIdle(s, o);
    assert Shows(s.history, s.memory, s.ops[o].instance) || s.ops[o].instance.custom;
    SetPcKeepsInv(s, o, StoreAnswered(s.ops[o].pc.phase, StoreContent(s, s.ops[o].instance.id)));
  }

  lemma RestoreKeepsInv(s: State, o: nat)
    requires Inv(s) && o < |s.ops| && s.ops[o].pc.StoreAnswered? && s.ops[o].pc.answer.Some?
        && !s.ops[o].instance.custom
    ensures Inv(ApplyOp(s, o, StoreReadReturns))
  {
    NotWaitingIsIdle(s, o);
    var op := s.ops[o];
    assert OpOk(s, op);
    var snapshot := op.pc.answer.value;
    var restored := Shown(snapshot.index, Restrict(op.instance.id, snapshot.models));
    var t := SetPc(s, o, Restoring(op.pc.phase, |s.pubs|));
    SetPcKeepsInv(s, o, Restoring(op.pc.phase, |s.pubs|));
    EnqueueKeepsInv(t, o, Keep, true, restored);
  }

  lemma PersistKeepsInv(s: State, o: nat, models: Catalog)
    requires Inv(s) && o < |s.ops| && s.ops[o].pc == Fetching && !s.ops[o].Aborted()
    ensures Inv(ApplyOp(s, o, Fetched(Some(models))))
  {
    NotWaitingIsIdle(s, o);
    var t := SetPc(s, o, Persisting(|s.pubs|));
    SetPcKeepsInv(s, o, Persisting(|s.pubs|));
    EnqueueKeepsInv(t, o, Save, true, Shown(0, models));
  }

  lemma WaitEndKeepsInv(s: State, o: nat)
    requires Inv(s) && o < |s.ops| && WaitIsOver(s, o)
    ensures Inv(SetPc(s, o, AfterWait(s, o)))
  {
    if !s.ops[o].Aborted() { NotWaitingIsIdle(s, o); }
    SetPcKeepsInv(s, o, AfterWait(s, o));
  }

  /** Steps around the store read. */
  lemma StoreStepKeepsInv(s: State, o: nat, step: OpStep)
    requires Inv(s) && o < |s.ops| && (step.StoreRead? || step.StoreReadFails? || step.StoreReadReturns?)
    ensures Inv(ApplyOp(s, o, step))
  {
    var op := s.ops[o];
    if op.pc.ReadingStore? && step.StoreRead? {
      ReadKeepsInv(s, o);
    } else if op.pc.ReadingStore? && step.StoreReadFails? {
      NotWaitingIsIdle(s, o);
      SetPcKeepsInv(s, o, Finished);
    } else if op.pc.StoreAnswered? && step.StoreReadReturns? {
      NotWaitingIsIdle(s, o);
      if op.instance.custom { SetPcKeepsInv(s, o, CustomRefresh(op.pc.phase)); }
      else if op.pc.answer.None? { SetPcKeepsInv(s, o, AfterRestore(s, o, op.pc.phase)); }
      else { RestoreKeepsInv(s, o); }
    }
  }

  /** Steps that come from the credential store, the fetch and custom code. */
  lemma OutsideStepKeepsInv(s: State, o: nat, step: OpStep)
    requires Inv(s) && o < |s.ops|
    requires step.CredentialRead? || step.CredentialResolved? || step.Fetched? || step.CustomFinish?
    ensures Inv(ApplyOp(s, o, step))
  {
    var op := s.ops[o];
    if !op.pc.Restoring? && !op.pc.Persisting? { NotWaitingIsIdle(s, o); }
    if step.CredentialRead? && op.pc == ReadingCredential {
      MoveKeepsInv(s, o, !step.ok, ReadingStore(Cached));
    } else if step.CredentialResolved? && op.pc == ResolvingCredential {
      SetPcKeepsInv(s, o, if step.ok then ReadingStore(Network) else Finished);
    } else if step.Fetched? && op.pc == Fetching {
      if step.models.None? || op.Aborted() { SetPcKeepsInv(s, o, Finished); }
      else { PersistKeepsInv(s, o, step.models.value); }
    } else if step.CustomFinish? && op.pc.CustomRefresh? {
      SetPcKeepsInv(s, o, AfterPhase(s, o, op.pc.phase));
    }
  }

  lemma OpStepKeepsInv(s: State, o: nat, step: OpStep)
    requires Inv(s) && o < |s.ops|
    ensures Inv(ApplyOp(s, o, step))
  {
    var op := s.ops[o];
    match step
    case PublicationReturns =>
      if WaitIsOver(s, o) { WaitEndKeepsInv(s, o); }
    case CustomPublish(persist, updates, shown) =>
      if op.instance.custom { EnqueueKeepsInv(s, o, persist, updates, shown); }
    case CallerAborts =>
      AbortKeepsInv(s, o);
    case CallerReturns =>
      if (op.pc.Finished? || op.Aborted()) && Controls(s.controllers, op, o) { ReturnKeepsInv(s, o); }
    case _ =>
      if step.StoreRead? || step.StoreReadFails? || step.StoreReadReturns? { StoreStepKeepsInv(s, o, step); }
      else { OutsideStepKeepsInv(s, o, step); }
  }

  lemma PubStepKeepsInv(s: State, p: nat, step: PubStep)
    requires Inv(s) && p < |s.pubs| && PubOk(s, s.pubs[p], p)
    ensures Inv(ApplyPub(s, p, step))
  {
    var pub := s.pubs[p];
    match step
    case Run =>
      if pub.state.Waiting? && PrevSettled(s, p) {
        RunnableHeads(s, p);
        if !Allowed(s, p) { SettleKeepsInv(s, p, Refused); }
        else if pub.persist.Keep? { InstallKeepsInv(s, p, pub.shown); }
        else { StartWriteKeepsInv(s, p); }
      }
    case WriteLands =>
      if pub.state.Writing? { InFlightHeads(s, p); LandKeepsInv(s, p); }
    case WriteFails =>
      if pub.state.InFlight() { InFlightHeads(s, p); SettleKeepsInv(s, p, Failed); }
    case WriteReturns =>
      if pub.state.Written? {
        InFlightHeads(s, p);
        if !Allowed(s, p) { SettleKeepsInv(s, p, Refused); }
        else { InstallKeepsInv(s, p, Shown(pub.state.index, pub.shown.models)); }
      }
  }

  lemma ProvidersKeepInv(s: State, providers: map<ProviderId, Instance>)
    requires Inv(s)
    ensures Inv(s.(providers := providers))
  {
    AgingKeepsEach(s, s.(providers := providers));
  }

  lemma StepKeepsInv(s: State, a: Action)
    requires Inv(s)
    ensures Inv(Apply(s, a))
  {
    match a
    case Begin(id, network) => if id in s.providers { BeginKeepsInv(s, s.providers[id], network); }
    case OfOp(o, step) => if o < |s.ops| { OpStepKeepsInv(s, o, step); }
    case OfPub(p, step) => if p < |s.pubs| { assert PubOk(s, s.pubs[p], p); PubStepKeepsInv(s, p, step); }
    case CleanChain(id) =>
      if id in s.chains && s.pubs[s.chains[id]].state.Settled() { CleanKeepsInv(s, id); }
    case SetProvider(inst) =>
      SupersedeKeepsInv(s, {inst.id});
      ProvidersKeepInv(Supersede(s, inst.id), s.providers[inst.id := inst]);
    case DeleteProvider(id) =>
      SupersedeKeepsInv(s, {id});
      ProvidersKeepInv(Supersede(s, id), s.providers - {id});
    case ClearProviders =>
      SupersedeKeepsInv(s, s.providers.Keys + s.controllers.Keys);
      ProvidersKeepInv(SupersedeAll(s, s.providers.Keys + s.controllers.Keys), map[]);
  }

  lemma InitialInv(store: Store)
    ensures Inv(Initial(store))
  {
  }

  lemma {:induction false} ExecKeepsInv(store: Store, schedule: seq<Action>)
    ensures Inv(Exec(store, schedule))
  {
    if schedule == [] {
      InitialInv(store);
    } else {
      ExecKeepsInv(store, schedule[..|schedule|-1]);
      StepKeepsInv(Exec(store, schedule[..|schedule|-1]), schedule[|schedule|-1]);
    }
  }

  // ------------------------------------------------------------------
  // Main results, for every schedule
  // ------------------------------------------------------------------

  /** Some schedule leads there, from some store. */
  ghost predicate Reachable(s: State) {
    exists store, schedule :: s == Exec(store, schedule)
  }

  lemma ReachableKeepsInv(s: State)
    requires Reachable(s)
    ensures Inv(s)
  {
    var store, schedule :| s == Exec(store, schedule);
    ExecKeepsInv(store, schedule);
  }

  /**
   * Never two publications of one provider between first check and end, even after
   * their callers have returned on abort.
   */
  lemma OnePublicationInFlight(s: State, p: nat, q: nat)
    requires Reachable(s) && p < |s.pubs| && q < |s.pubs| && s.pubs[p].id == s.pubs[q].id
    requires s.pubs[p].state.InFlight() && s.pubs[q].state.InFlight()
    ensures p == q
  {
    ReachableKeepsInv(s);
  }

  /** The store sees the writes of a provider in generation order, none newer than the current generation. */
  lemma WritesInGenerationOrder(s: State, id: ProviderId, i: nat, j: nat)
    requires Reachable(s) && i <= j < |History(s.history, id)|
    ensures History(s.history, id)[i].gen <= History(s.history, id)[j].gen <= Gen(s.generations, id)
  {
    ReachableKeepsInv(s);
    assert LogOk(s.history, s.updates, s.generations, id);
  }

  /** Memory sees the updates of a provider in generation order, none newer than the current generation. */
  lemma UpdatesInGenerationOrder(s: State, id: ProviderId, i: nat, j: nat)
    requires Reachable(s) && i <= j < |Updates(s.updates, id)|
    ensures Updates(s.updates, id)[i] <= Updates(s.updates, id)[j] <= Gen(s.generations, id)
  {
    ReachableKeepsInv(s);
    assert LogOk(s.history, s.updates, s.generations, id);
  }

  /** A refresh still running holds the newest generation or has an aborted signal. */
  lemma RunningIsNewestOrAborted(s: State, o: nat)
    requires Reachable(s) && o < |s.ops| && !s.ops[o].pc.Finished?
    ensures s.ops[o].Aborted() || s.ops[o].gen == Gen(s.generations, s.ops[o].instance.id)
  {
    ReachableKeepsInv(s);
    if !s.ops[o].Aborted() {
      assert Controls(s.controllers, s.ops[o], o);
      assert Newest(s.ops, s.controllers, s.generations, s.ops[o].instance.id);
    }
  }

  /** Clearing the providers leaves no refresh running with a live signal. */
  lemma ClearAbortsAll(store: Store, schedule: seq<Action>, o: nat)
    requires o < |Exec(store, schedule + [ClearProviders]).ops|
    requires !Exec(store, schedule + [ClearProviders]).ops[o].pc.Finished?
    ensures Exec(store, schedule + [ClearProviders]).ops[o].Aborted()
  {
    assert (schedule + [ClearProviders])[..|schedule|] == schedule;
    var s := Exec(store, schedule);
    ExecKeepsInv(store, schedule);
    if !s.ops[o].Aborted() { assert Controls(s.controllers, s.ops[o], o); }
  }

  /** The catalog in memory is a store entry, whole or restricted, or still empty. */
  lemma ShownWasPersisted(s: State, inst: Instance)
    requires Reachable(s) && !inst.custom
    ensures Shows(s.history, s.memory, inst)
  {
    ReachableKeepsInv(s);
  }

  /** `a` runs a publication for `inst` whose refresh is neither superseded nor aborted. */
  ghost predicate AppliedByCurrent(s: State, a: Action, inst: Instance) {
    && a.OfPub? && a.p < |s.pubs| && s.pubs[a.p].op < |s.ops|
    && s.ops[s.pubs[a.p].op].instance == inst && Live(s.ops[s.pubs[a.p].op], s.generations)
  }

  lemma OpStepsKeepMemory(s: State, o: nat, step: OpStep)
    requires o < |s.ops|
    ensures ApplyOp(s, o, step).memory == s.memory
  {
    match step
    case CredentialRead(_) =>
    case StoreRead =>
    case StoreReadFails =>
    case StoreReadReturns =>
    case PublicationReturns =>
    case CredentialResolved(_) =>
    case Fetched(_) =>
    case CustomPublish(_, _, _) =>
    case CustomFinish =>
    case CallerAborts =>
    case CallerReturns =>
  }

  /** Only publications write memory. */
  lemma OthersKeepMemory(s: State, a: Action)
    requires !a.OfPub?
    ensures Apply(s, a).memory == s.memory
  {
    if a.OfOp? && a.o < |s.ops| { OpStepsKeepMemory(s, a.o, a.opStep); }
  }

  lemma InstallShows(s: State, p: nat, shown: Shown, inst: Instance)
    requires p < |s.pubs| && s.pubs[p].op < |s.ops|
    ensures Memory(Install(s, p, shown).memory, inst) ==
      if s.pubs[p].updates && inst == s.ops[s.pubs[p].op].instance then shown else Memory(s.memory, inst)
  {
  }

  /** What publication `p` installs when its step reaches the update, if it does. */
  ghost function Installs(s: State, p: nat, step: PubStep): Option<Shown>
    requires p < |s.pubs| && s.pubs[p].op < |s.ops|
  {
    if !Allowed(s, p) then None
    else if step.Run? && s.pubs[p].state.Waiting? && PrevSettled(s, p)
        && s.pubs[p].persist.Keep? then Some(s.pubs[p].shown)
    else if step.WriteReturns?
        && s.pubs[p].state.Written? then Some(Shown(s.pubs[p].state.index, s.pubs[p].shown.models))
    else None
  }

  lemma RefusedKeepsMemory(s: State, p: nat, step: PubStep)
    requires p < |s.pubs| && s.pubs[p].op < |s.ops| && Installs(s, p, step).None?
    ensures ApplyPub(s, p, step).memory == s.memory
  {
    hide Install, PrevSettled, SetPub, LandWrite, Allowed;
  }

  lemma PubStepInstalls(s: State, p: nat, step: PubStep)
    requires p < |s.pubs| && s.pubs[p].op < |s.ops|
    ensures match Installs(s, p, step)
      case Some(shown) => ApplyPub(s, p, step) == Install(s, p, shown)
      case None => ApplyPub(s, p, step).memory == s.memory
  {
    hide Install, PrevSettled, SetPub, LandWrite, Allowed;
    if Installs(s, p, step).None? { RefusedKeepsMemory(s, p, step); }
  }

  lemma PubStepMovesForward(s: State, p: nat, step: PubStep, inst: Instance)
    requires p < |s.pubs| && PubOk(s, s.pubs[p], p) && Shows(s.history, s.memory, inst) && !inst.custom
    ensures var s' := ApplyPub(s, p, step);
      && Memory(s.memory, inst).index <= Memory(s'.memory, inst).index
      && (Memory(s'.memory, inst) != Memory(s.memory, inst) ==>
            s.ops[s.pubs[p].op].instance == inst && Live(s.ops[s.pubs[p].op], s.generations))
  {
    PubStepInstalls(s, p, step);
    if Installs(s, p, step).Some? { InstallShows(s, p, Installs(s, p, step).value, inst); }
  }

  /** One action moves a catalog forward or not at all, and then for the newest, unaborted refresh. */
  lemma StepMovesForward(s: State, a: Action, inst: Instance)
    requires Inv(s) && !inst.custom
    ensures var s' := Apply(s, a);
      && Memory(s.memory, inst).index <= Memory(s'.memory, inst).index
      && (Memory(s'.memory, inst) != Memory(s.memory, inst) ==> AppliedByCurrent(s, a, inst))
  {
    if a.OfPub? && a.p < |s.pubs| && s.pubs[a.p].op < |s.ops| {
      assert PubOk(s, s.pubs[a.p], a.p) && Shows(s.history, s.memory, inst);
      PubStepMovesForward(s, a.p, a.pubStep, inst);
    } else if !a.OfPub? {
      OthersKeepMemory(s, a);
    }
  }

  /** No update is ever applied for a superseded or aborted refresh, whatever kind of provider it is. */
  lemma NoStaleUpdate(s: State, a: Action, inst: Instance)
    requires Reachable(s)
    ensures Memory(Apply(s, a).memory, inst) != Memory(s.memory, inst) ==> AppliedByCurrent(s, a, inst)
  {
    ReachableKeepsInv(s);
    if a.OfPub? && a.p < |s.pubs| {
      assert PubOk(s, s.pubs[a.p], a.p);
      PubStepInstalls(s, a.p, a.pubStep);
      if Installs(s, a.p, a.pubStep).Some? { InstallShows(s, a.p, Installs(s, a.p, a.pubStep).value, inst); }
      hide Install, ApplyPub;
    } else if !a.OfPub? {
      OthersKeepMemory(s, a);
    }
  }

  /** For a `createProvider` provider an update also never shows something older. */
  lemma UpdatesAreCurrent(store: Store, schedule: seq<Action>, a: Action, inst: Instance)
    requires !inst.custom
    ensures var s := Exec(store, schedule); var s' := Exec(store, schedule + [a]);
      && Memory(s.memory, inst).index <= Memory(s'.memory, inst).index
      && (Memory(s'.memory, inst) != Memory(s.memory, inst) ==> AppliedByCurrent(s, a, inst))
  {
    ExecKeepsInv(store, schedule);
    assert (schedule + [a])[..|schedule|] == schedule;
    StepMovesForward(Exec(store, schedule), a, inst);
  }

  /** The catalog shown by a `createProvider` provider never moves back to an older snapshot. */
  lemma {:induction false} CatalogNeverMovesBack(store: Store, schedule: seq<Action>, more: seq<Action>, inst: Instance)
    requires !inst.custom
    ensures Memory(Exec(store, schedule).memory, inst).index <= Memory(Exec(store, schedule + more).memory, inst).index
  {
    hide Exec, Memory;
    if more == [] {
      assert schedule + more == schedule;
    } else {
      var last := |more| - 1;
      CatalogNeverMovesBack(store, schedule, more[..last], inst);
      UpdatesAreCurrent(store, schedule + more[..last], more[last], inst);
      assert schedule + more == schedule + more[..last] + [more[last]];
    }
  }

  /** A chain with an open publication can always go on: its first open one is not blocked. */
  lemma {:induction false} ChainNeverBlocks(store: Store, schedule: seq<Action>, p: nat) returns (q: nat)
    requires p < |Exec(store, schedule).pubs| && !Exec(store, schedule).pubs[p].state.Settled()
    ensures var s := Exec(store, schedule);
      && q <= p && s.pubs[q].id == s.pubs[p].id && !s.pubs[q].state.Settled()
      && (s.pubs[q].state.Waiting? ==> PrevSettled(s, q))
    decreases p
  {
    var s := Exec(store, schedule);
    ExecKeepsInv(store, schedule);
    if s.pubs[p].state.Waiting? && !PrevSettled(s, p) {
      assert s.pubs[p].prev.value < p;
      q := ChainNeverBlocks(store, schedule, s.pubs[p].prev.value);
    } else {
      q := p;
    }
  }

  /** The only operation of a fresh object has begun, over the store it found. */
  ghost predicate FirstRefresh(s: State, store: Store, inst: Instance, pc: Pc) {
    && s.ops == [Op(inst, 2, true, false, false, false, pc)] && Gen(s.generations, inst.id) == 2
    && s.history == Initial(store).history && s.pubs == [] && s.chains == map[]
  }

  lemma FirstRefreshBegins(store: Store, inst: Instance)
    ensures FirstRefresh(Apply(Apply(Initial(store), SetProvider(inst)), Begin(inst.id, true)), store, inst,
                         ReadingCredential)
  {
  }

  lemma FirstRefreshRestores(s: State, store: Store, inst: Instance)
    requires FirstRefresh(s, store, inst, ReadingCredential) && inst.id in store && !inst.custom
    ensures var s' := Apply(Apply(Apply(s, OfOp(0, CredentialRead(true))), OfOp(0, StoreRead)),
                            OfOp(0, StoreReadReturns));
      Memory(Apply(s', OfPub(0, Run)).memory, inst) == Shown(1, Restrict(inst.id, store[inst.id]))
  {
    var s1 := Apply(s, OfOp(0, CredentialRead(true)));
    assert FirstRefresh(s1, store, inst, ReadingStore(Cached));
    var s2 := Apply(s1, OfOp(0, StoreRead));
    assert FirstRefresh(s2, store, inst, StoreAnswered(Cached, Some(Shown(1, store[inst.id]))));
    var s3 := Apply(s2, OfOp(0, StoreReadReturns));
    assert s3.pubs == [Pub(inst.id, 2, 0, None, Keep, true, Shown(1, Restrict(inst.id, store[inst.id])), Waiting)];
  }

  lemma ExecMore(store: Store, schedule: seq<Action>, a: Action)
    ensures Exec(store, schedule + [a]) == Apply(Exec(store, schedule), a)
  {
    assert (schedule + [a])[..|schedule|] == schedule;
  }

  lemma FirstRefreshRuns(store: Store, inst: Instance)
    ensures FirstRefresh(Exec(store, [SetProvider(inst), Begin(inst.id, true)]), store, inst, ReadingCredential)
  {
    assert Exec(store, []) == Initial(store);
    hide Exec, Apply, FirstRefresh, Initial;
    FirstRefreshBegins(store, inst);
    ExecMore(store, [], SetProvider(inst));
    ExecMore(store, [SetProvider(inst)], Begin(inst.id, true));
    assert [] + [SetProvider(inst)] == [SetProvider(inst)];
    assert [SetProvider(inst)] + [Begin(inst.id, true)] == [SetProvider(inst), Begin(inst.id, true)];
  }

  /** A snapshot of an earlier process is shown once the cached phase of a refresh has restored it. */
  lemma EarlierSnapshotIsShown(store: Store, inst: Instance)
    requires inst.id in store && !inst.custom
    ensures var begun := [SetProvider(inst), Begin(inst.id, true)];
      var read := begun + [OfOp(0, CredentialRead(true))] + [OfOp(0, StoreRead)] + [OfOp(0, StoreReadReturns)];
      Memory(Exec(store, read + [OfPub(0, Run)]).memory, inst) == Shown(1, Restrict(inst.id, store[inst.id]))
  {
    hide Exec, Apply, FirstRefresh, Memory, Restrict;
    FirstRefreshRuns(store, inst);
    var begun := [SetProvider(inst), Begin(inst.id, true)];
    FirstRefreshRestores(Exec(store, begun), store, inst);
    var read1 := begun + [OfOp(0, CredentialRead(true))];
    var read2 := read1 + [OfOp(0, StoreRead)];
    ExecMore(store, begun, OfOp(0, CredentialRead(true)));
    ExecMore(store, read1, OfOp(0, StoreRead));
    ExecMore(store, read2, OfOp(0, StoreReadReturns));
    ExecMore(store, read2 + [OfOp(0, StoreReadReturns)], OfPub(0, Run));
  }
}
