/**
 * What an undisturbed refresh of a `createProvider` provider achieves: it restores what
 * the store holds, then persists and shows what it fetched (packages/ai/src/models.ts).
 */
module ModelCatalogProgress {
  import opened Base
  import opened ModelCatalog
  import opened ModelCatalogSafety

  function After(s: State, actions: seq<Action>): State {
    if actions == [] then s else Apply(After(s, actions[..|actions|-1]), actions[|actions|-1])
  }

  lemma {:induction false} ExecAfter(store: Store, schedule: seq<Action>, actions: seq<Action>)
    ensures Exec(store, schedule + actions) == After(Exec(store, schedule), actions)
  {
    hide Apply;
    if actions == [] {
      assert schedule + actions == schedule;
    } else {
      ExecAfter(store, schedule, actions[..|actions|-1]);
      ExecMore(store, schedule + actions[..|actions|-1], actions[|actions|-1]);
      assert schedule + actions == schedule + actions[..|actions|-1] + [actions[|actions|-1]];
    }
  }

  lemma {:induction false} AfterJoin(s: State, first: seq<Action>, second: seq<Action>)
    ensures After(s, first + second) == After(After(s, first), second)
  {
    hide Apply;
    if second == [] {
      assert first + second == first;
    } else {
      AfterJoin(s, first, second[..|second|-1]);
      assert (first + second)[..|first + second|-1] == first + second[..|second|-1];
    }
  }

  lemma AfterTwo(s: State, a: Action, b: Action)
    ensures After(s, [a, b]) == Apply(Apply(s, a), b)
  {
    hide Apply;
    assert [a, b][..1] == [a] && [a][..0] == [];
    assert After(s, [a]) == Apply(After(s, []), a);
  }

  // ------------------------------------------------------------------
  // One publication without interference
  // ------------------------------------------------------------------

  /** Every publication of a provider has settled. */
  predicate AllSettled(s: State, id: ProviderId) {
    forall p :: 0 <= p < |s.pubs| && s.pubs[p].id == id ==> s.pubs[p].state.Settled()
  }

  /** Operation `o` of a `createProvider` provider is at `pc`, online, newest and not aborted. */
  predicate Undisturbed(s: State, o: nat, inst: Instance, pc: Pc) {
    && o < |s.ops| && !inst.custom
    && s.ops[o] == Op(inst, Gen(s.generations, inst.id), true, false, false, false, pc)
  }

  ghost predicate Ready(s: State, o: nat, inst: Instance, pc: Pc) {
    && Undisturbed(s, o, inst, pc) && AllSettled(s, inst.id)
    && (inst.id in s.chains ==> s.chains[inst.id] < |s.pubs| && s.pubs[s.chains[inst.id]].id == inst.id)
  }

  /** Everything but the operations, the publications and the chains is as in `s`. */
  predicate SameStore(s: State, s': State) {
    s'.history == s.history && s'.memory == s.memory && s'.generations == s.generations
  }

  /** The operation has queued publication `p`, with nothing of its provider open before it. */
  ghost predicate Queued(s: State, o: nat, inst: Instance, pc: Pc, p: nat, persist: Persist, shown: Shown, st: PubState)
  {
    && Undisturbed(s, o, inst, pc) && p < |s.pubs| && PrevSettled(s, p)
    && s.pubs[p] == Pub(inst.id, Gen(s.generations, inst.id), o, s.pubs[p].prev, persist, true, shown, st)
    && (forall q :: 0 <= q < |s.pubs| && s.pubs[q].id == inst.id && q != p ==> s.pubs[q].state.Settled())
    && s.pubs[p].prev != Some(p)
    && inst.id in s.chains && s.chains[inst.id] == p
  }

  lemma EnqueueQueues(s: State, o: nat, inst: Instance, from: Pc, pc: Pc, persist: Persist, shown: Shown)
    requires Ready(s, o, inst, from)
    ensures var s' := Enqueue(SetPc(s, o, pc), o, persist, true, shown);
      Queued(s', o, inst, pc, |s.pubs|, persist, shown, Waiting) && SameStore(s, s') && |s'.pubs| == |s.pubs| + 1
  {
    var s' := Enqueue(SetPc(s, o, pc), o, persist, true, shown);
    assert forall q :: 0 <= q < |s.pubs| ==> s'.pubs[q] == s.pubs[q];
  }

  lemma SetPubQueued(s: State, o: nat, inst: Instance, pc: Pc, p: nat, persist: Persist, shown: Shown, st: PubState,
      st': PubState)
    requires Queued(s, o, inst, pc, p, persist, shown, st)
    ensures Queued(SetPub(s, p, st'), o, inst, pc, p, persist, shown, st') && SameStore(s, SetPub(s, p, st'))
  {
    var s' := SetPub(s, p, st');
    assert forall q :: 0 <= q < |s.pubs| && q != p ==> s'.pubs[q] == s.pubs[q];
  }

  /** A settled publication leaves the operation ready again. */
  lemma SettledIsReady(s: State, o: nat, inst: Instance, pc: Pc, p: nat, persist: Persist, shown: Shown, st: PubState)
    requires Queued(s, o, inst, pc, p, persist, shown, st) && st.Settled()
    ensures Ready(s, o, inst, pc)
  {
  }

  // ------------------------------------------------------------------
  // Restoring what the store holds
  // ------------------------------------------------------------------

  /** Where an online refresh goes once a phase has restored. */
  function Next(phase: Phase): Pc {
    if phase.Network? then Fetching else ResolvingCredential
  }

  /** Reading the store; publication `p` restores what it holds. */
  function RestoreActions(o: nat, stored: bool, p: nat): seq<Action> {
    [OfOp(o, StoreRead), OfOp(o, StoreReadReturns)] +
    (if stored then [OfPub(p, Run), OfOp(o, PublicationReturns)] else [])
  }

  lemma RunShows(s: State, o: nat, inst: Instance, pc: Pc, p: nat, shown: Shown)
    requires Queued(s, o, inst, pc, p, Keep, shown, Waiting)
    ensures var s' := Apply(s, OfPub(p, Run));
      && Queued(s', o, inst, pc, p, Keep, shown, Published) && |s'.pubs| == |s.pubs|
      && s'.history == s.history && s'.generations == s.generations && Memory(s'.memory, inst) == shown
  {
    SetPubQueued(s, o, inst, pc, p, Keep, shown, Waiting, Published);
    hide AllSettled;
    assert Apply(s, OfPub(p, Run)) == Install(s, p, shown);
  }

  lemma ReturnMovesOn(s: State, o: nat, inst: Instance, phase: Phase, p: nat, shown: Shown)
    requires Queued(s, o, inst, Restoring(phase, p), p, Keep, shown, Published)
    ensures var s' := Apply(s, OfOp(o, PublicationReturns));
      Ready(s', o, inst, Next(phase)) && SameStore(s, s') && s'.pubs == s.pubs
  {
    SettledIsReady(s, o, inst, Restoring(phase, p), p, Keep, shown, Published);
    assert Apply(s, OfOp(o, PublicationReturns)) == SetPc(s, o, Next(phase));
  }

  lemma ReadMoves(s: State, o: nat, inst: Instance, phase: Phase)
    requires Ready(s, o, inst, ReadingStore(phase))
    ensures var s' := Apply(s, OfOp(o, StoreRead));
      Ready(s', o, inst, StoreAnswered(phase, StoreContent(s, inst.id))) && SameStore(s, s') && s'.pubs == s.pubs
  {
  }

  lemma ReadReturns(s: State, o: nat, inst: Instance, phase: Phase, answer: Option<Shown>)
    requires Ready(s, o, inst, StoreAnswered(phase, answer))
    ensures var s' := Apply(s, OfOp(o, StoreReadReturns));
      && SameStore(s, s')
      && if answer.None? then Ready(s', o, inst, Next(phase)) && s'.pubs == s.pubs
         else
           && |s'.pubs| == |s.pubs| + 1
           && Queued(s', o, inst, Restoring(phase, |s.pubs|), |s.pubs|, Keep,
                     Shown(answer.value.index, Restrict(inst.id, answer.value.models)), Waiting)
  {
    if answer.Some? {
      EnqueueQueues(s, o, inst, StoreAnswered(phase, answer), Restoring(phase, |s.pubs|), Keep,
          Shown(answer.value.index, Restrict(inst.id, answer.value.models)));
    }
  }

  /** A phase shows what the store holds, restricted to the provider, and touches the store not at all. */
  lemma PhaseRestores(s: State, o: nat, inst: Instance, phase: Phase)
    requires Ready(s, o, inst, ReadingStore(phase))
    ensures var stored := StoreContent(s, inst.id);
      var s' := After(s, RestoreActions(o, stored.Some?, |s.pubs|));
      && Ready(s', o, inst, Next(phase)) && s'.history == s.history && s'.generations == s.generations
      && |s'.pubs| == |s.pubs| + (if stored.Some? then 1 else 0)
      && Memory(s'.memory, inst) == if stored.None? then Memory(s.memory, inst)
                                    else Shown(stored.value.index, Restrict(inst.id, stored.value.models))
  {
    hide Apply, Ready, Queued, Memory, Restrict, StoreContent, Gen;
    var stored, p := StoreContent(s, inst.id), |s.pubs|;
    ReadMoves(s, o, inst, phase);
    var s1 := Apply(s, OfOp(o, StoreRead));
    ReadReturns(s1, o, inst, phase, stored);
    AfterTwo(s, OfOp(o, StoreRead), OfOp(o, StoreReadReturns));
    var s2 := Apply(s1, OfOp(o, StoreReadReturns));
    if stored.Some? {
      var shown := Shown(stored.value.index, Restrict(inst.id, stored.value.models));
      RunShows(s2, o, inst, Restoring(phase, p), p, shown);
      ReturnMovesOn(Apply(s2, OfPub(p, Run)), o, inst, phase, p, shown);
      AfterTwo(s2, OfPub(p, Run), OfOp(o, PublicationReturns));
      AfterJoin(s, [OfOp(o, StoreRead), OfOp(o, StoreReadReturns)], [OfPub(p, Run), OfOp(o, PublicationReturns)]);
    } else {
      assert RestoreActions(o, false, p) == [OfOp(o, StoreRead), OfOp(o, StoreReadReturns)];
    }
  }

  // ------------------------------------------------------------------
  // Fetching
  // ------------------------------------------------------------------

  /** A successful fetch, its publication `p`, and the operation's end. */
  function FetchActions(o: nat, p: nat, models: Catalog): seq<Action> {
    [OfOp(o, Fetched(Some(models))), OfPub(p, Run)] + [OfPub(p, WriteLands), OfPub(p, WriteReturns)]
  }

  lemma FetchQueues(s: State, o: nat, inst: Instance, models: Catalog)
    requires Ready(s, o, inst, Fetching)
    ensures var s' := Apply(Apply(s, OfOp(o, Fetched(Some(models)))), OfPub(|s.pubs|, Run));
      && Queued(s', o, inst, Persisting(|s.pubs|), |s.pubs|, Save, Shown(0, models), Writing) && SameStore(s, s')
  {
    EnqueueQueues(s, o, inst, Fetching, Persisting(|s.pubs|), Save, Shown(0, models));
    var s1 := Apply(s, OfOp(o, Fetched(Some(models))));
    SetPubQueued(s1, o, inst, Persisting(|s.pubs|), |s.pubs|, Save, Shown(0, models), Waiting, Writing);
  }

  lemma LandedIsWritten(s: State, o: nat, inst: Instance, pc: Pc, p: nat, models: Catalog)
    requires Queued(s, o, inst, pc, p, Save, Shown(0, models), Writing)
    ensures var s' := Apply(s, OfPub(p, WriteLands));
      var h := History(s.history, inst.id) + [Write(Gen(s.generations, inst.id), Some(models))];
      && Queued(s', o, inst, pc, p, Save, Shown(0, models), Written(|h|))
      && s'.memory == s.memory && s'.generations == s.generations && History(s'.history, inst.id) == h
  {
    var h := History(s.history, inst.id) + [Write(Gen(s.generations, inst.id), Some(models))];
    SetPubQueued(s, o, inst, pc, p, Save, Shown(0, models), Writing, Written(|h|));
  }

  lemma ReturnedIsShown(s: State, o: nat, inst: Instance, pc: Pc, p: nat, models: Catalog, index: nat)
    requires Queued(s, o, inst, pc, p, Save, Shown(0, models), Written(index))
    ensures var s' := Apply(s, OfPub(p, WriteReturns));
      && Queued(s', o, inst, pc, p, Save, Shown(0, models), Published)
      && s'.history == s.history && Memory(s'.memory, inst) == Shown(index, models)
  {
    SetPubQueued(s, o, inst, pc, p, Save, Shown(0, models), Written(index), Published);
  }

  lemma FetchShows(s: State, o: nat, inst: Instance, models: Catalog)
    requires Ready(s, o, inst, Fetching)
    ensures var s' := After(s, FetchActions(o, |s.pubs|, models));
      var h := History(s.history, inst.id) + [Write(Gen(s.generations, inst.id), Some(models))];
      && History(s'.history, inst.id) == h && Memory(s'.memory, inst) == Shown(|h|, models)
      && AllSettled(s', inst.id)
  {
    hide Apply, Ready, Queued, Memory, History, Gen;
    var p := |s.pubs|;
    FetchQueues(s, o, inst, models);
    var s2 := Apply(Apply(s, OfOp(o, Fetched(Some(models)))), OfPub(p, Run));
    LandedIsWritten(s2, o, inst, Persisting(p), p, models);
    var s3 := Apply(s2, OfPub(p, WriteLands));
    var h := History(s.history, inst.id) + [Write(Gen(s.generations, inst.id), Some(models))];
    ReturnedIsShown(s3, o, inst, Persisting(p), p, models, |h|);
    AfterTwo(s, OfOp(o, Fetched(Some(models))), OfPub(p, Run));
    AfterTwo(s2, OfPub(p, WriteLands), OfPub(p, WriteReturns));
    AfterJoin(s, [OfOp(o, Fetched(Some(models))), OfPub(p, Run)], [OfPub(p, WriteLands), OfPub(p, WriteReturns)]);
    PublishedSettles(Apply(s3, OfPub(p, WriteReturns)), o, inst, Persisting(p), p, Shown(0, models));
  }

  lemma PublishedSettles(s: State, o: nat, inst: Instance, pc: Pc, p: nat, shown: Shown)
    requires Queued(s, o, inst, pc, p, Save, shown, Published)
    ensures AllSettled(s, inst.id)
  {
  }

  // ------------------------------------------------------------------
  // Main results
  // ------------------------------------------------------------------

  lemma ReachedIsReady(store: Store, schedule: seq<Action>, o: nat, pc: Pc)
    requires var s := Exec(store, schedule);
      o < |s.ops| && Undisturbed(s, o, s.ops[o].instance, pc) && AllSettled(s, s.ops[o].instance.id)
    ensures var s := Exec(store, schedule); Ready(s, o, s.ops[o].instance, pc)
  {
    ExecKeepsInv(store, schedule);
    hide Exec;
  }

  /**
   * Whatever happened before, a live fetch whose provider has nothing else open persists
   * exactly what it fetched, as the newest store entry, and shows exactly that.
   */
  lemma FetchedIsShown(store: Store, schedule: seq<Action>, o: nat, models: Catalog)
    requires var s := Exec(store, schedule);
      && o < |s.ops| && s.ops[o].pc == Fetching && !s.ops[o].instance.custom
      && s.ops[o].network && !s.ops[o].credentialError && !s.ops[o].callerAborted && !s.ops[o].superseded
      && s.ops[o].gen == Gen(s.generations, s.ops[o].instance.id) && AllSettled(s, s.ops[o].instance.id)
    ensures var s := Exec(store, schedule);
      var inst := s.ops[o].instance;
      var s' := Exec(store, schedule + FetchActions(o, |s.pubs|, models));
      var h := History(s'.history, inst.id);
      && Memory(s'.memory, inst).models == models
      && h != [] && h[|h|-1].entry == Some(models) && h[..|h|-1] == History(s.history, inst.id)
  {
    var s := Exec(store, schedule);
    ReachedIsReady(store, schedule, o, Fetching);
    hide Exec, Apply, Memory, History;
    ExecAfter(store, schedule, FetchActions(o, |s.pubs|, models));
    FetchShows(s, o, s.ops[o].instance, models);
  }

  /** Registered providers are found under their own id. */
  lemma {:induction false} ProvidersAreKeyed(store: Store, schedule: seq<Action>, id: ProviderId)
    ensures var s := Exec(store, schedule); id in s.providers ==> s.providers[id].id == id
  {
    if schedule != [] {
      ProvidersAreKeyed(store, schedule[..|schedule|-1], id);
      StepKeepsKeyed(Exec(store, schedule[..|schedule|-1]), schedule[|schedule|-1], id);
    }
  }

  lemma OpKeepsProviders(s: State, o: nat, step: OpStep)
    requires o < |s.ops|
    ensures ApplyOp(s, o, step).providers == s.providers
  {
    match step
    case CredentialRead(_) =>
    case StoreRead =>
    case StoreReadFails =>
    case StoreReadReturns =>
    case PublicationReturns =>
    case CredentialResolved(_) =>
    case Fetched(_) =>
    case CustomPublish(_, _, _) =>
    case CustomFinish =>
    case CallerAborts =>
    case CallerReturns =>
  }

  lemma PubKeepsProviders(s: State, p: nat, step: PubStep)
    requires p < |s.pubs| && s.pubs[p].op < |s.ops|
    ensures ApplyPub(s, p, step).providers == s.providers && ApplyPub(s, p, step).ops == s.ops
  {
    match step
    case Run =>
    case WriteLands =>
    case WriteFails =>
    case WriteReturns =>
  }

  lemma StepKeepsKeyed(s: State, a: Action, id: ProviderId)
    requires id in s.providers ==> s.providers[id].id == id
    ensures id in Apply(s, a).providers ==> Apply(s, a).providers[id].id == id
  {
    hide ApplyOp, ApplyPub;
    if a.OfOp? && a.o < |s.ops| { OpKeepsProviders(s, a.o, a.opStep); }
    if a.OfPub? && a.p < |s.pubs| && s.pubs[a.p].op < |s.ops| { PubKeepsProviders(s, a.p, a.pubStep); }
  }

  /** A whole online refresh of a provider, whose operation is number `o` and first publication `p`. */
  function RefreshActions(id: ProviderId, o: nat, p: nat, stored: bool, models: Catalog): seq<Action> {
    var once := if stored then 1 else 0;
    [Begin(id, true), OfOp(o, CredentialRead(true))] + RestoreActions(o, stored, p) +
    [OfOp(o, CredentialResolved(true))] + RestoreActions(o, stored, p + once) + FetchActions(o, p + 2 * once, models)
  }

  lemma BeginIsReady(s: State, inst: Instance)
    requires inst.id in s.providers && s.providers[inst.id] == inst && !inst.custom && AllSettled(s, inst.id)
    requires ChainInv(s)
    ensures var s' := Apply(Apply(s, Begin(inst.id, true)), OfOp(|s.ops|, CredentialRead(true)));
      && Ready(s', |s.ops|, inst, ReadingStore(Cached)) && s'.history == s.history && s'.pubs == s.pubs
  {
  }

  lemma ResolvedIsReady(s: State, o: nat, inst: Instance)
    requires Ready(s, o, inst, ResolvingCredential)
    ensures var s' := Apply(s, OfOp(o, CredentialResolved(true)));
      Ready(s', o, inst, ReadingStore(Network)) && s'.history == s.history && s'.pubs == s.pubs
  {
  }

  /** Up to the resolved credential. */
  lemma RefreshBegins(s: State, inst: Instance)
    requires inst.id in s.providers && s.providers[inst.id] == inst && !inst.custom && AllSettled(s, inst.id)
    requires ChainInv(s)
    ensures var o, p, stored := |s.ops|, |s.pubs|, StoreContent(s, inst.id);
      var s' := After(s, [Begin(inst.id, true), OfOp(o, CredentialRead(true))] +
                         RestoreActions(o, stored.Some?, p) + [OfOp(o, CredentialResolved(true))]);
      && Ready(s', o, inst, ReadingStore(Network)) && s'.history == s.history
      && |s'.pubs| == p + (if stored.Some? then 1 else 0)
  {
    var o, p, stored := |s.ops|, |s.pubs|, StoreContent(s, inst.id).Some?;
    var begin, resolve := [Begin(inst.id, true), OfOp(o, CredentialRead(true))], [OfOp(o, CredentialResolved(true))];
    BeginIsReady(s, inst);
    AfterTwo(s, begin[0], begin[1]);
    var s1 := After(s, begin);
    SameContent(s, s1, inst.id);
    hide Apply, After, Ready, Memory, History, StoreContent, AllSettled, ChainInv, RestoreActions;
    PhaseRestores(s1, o, inst, Cached);
    var s2 := After(s1, RestoreActions(o, stored, p));
    AfterJoin(s, begin, RestoreActions(o, stored, p));
    ResolvedIsReady(s2, o, inst);
    AfterOne(s2, resolve[0]);
    AfterJoin(s, begin + RestoreActions(o, stored, p), resolve);
  }

  lemma RefreshRuns(s: State, inst: Instance, models: Catalog)
    requires inst.id in s.providers && s.providers[inst.id] == inst && !inst.custom && AllSettled(s, inst.id)
    requires ChainInv(s)
    ensures var s' := After(s, RefreshActions(inst.id, |s.ops|, |s.pubs|, StoreContent(s, inst.id).Some?, models));
      var h := History(s'.history, inst.id);
      && Memory(s'.memory, inst) == Shown(|h|, models)
      && h != [] && h[|h|-1].entry == Some(models) && h[..|h|-1] == History(s.history, inst.id)
  {
    hide Apply, After, Ready, Memory, History, StoreContent, AllSettled, ChainInv, RestoreActions, FetchActions;
    var o, p, stored := |s.ops|, |s.pubs|, StoreContent(s, inst.id).Some?;
    var once := if stored then 1 else 0;
    var begun := [Begin(inst.id, true), OfOp(o, CredentialRead(true))] + RestoreActions(o, stored, p) +
        [OfOp(o, CredentialResolved(true))];
    RefreshBegins(s, inst);
    var s3 := After(s, begun);
    SameContent(s, s3, inst.id);
    PhaseRestores(s3, o, inst, Network);
    var s4 := After(s3, RestoreActions(o, stored, p + once));
    AfterJoin(s, begun, RestoreActions(o, stored, p + once));
    SameContent(s, s4, inst.id);
    FetchShows(s4, o, inst, models);
    AfterJoin(s, begun + RestoreActions(o, stored, p + once), FetchActions(o, p + 2 * once, models));
  }

  lemma AfterOne(s: State, a: Action)
    ensures After(s, [a]) == Apply(s, a)
  {
    hide Apply;
    assert [a][..0] == [];
    assert After(s, []) == s;
  }

  lemma SameContent(s: State, s': State, id: ProviderId)
    requires s'.history == s.history
    ensures StoreContent(s', id) == StoreContent(s, id) && History(s'.history, id) == History(s.history, id)
  {
  }

  /**
   * Whatever happened before, an online refresh of a registered `createProvider` provider
   * with nothing open, if nothing disturbs it, ends with what it fetched shown and persisted.
   */
  lemma RefreshShowsFetched(store: Store, schedule: seq<Action>, id: ProviderId, models: Catalog)
    requires var s := Exec(store, schedule);
      id in s.providers && !s.providers[id].custom && AllSettled(s, id)
    ensures var s := Exec(store, schedule);
      var refresh := RefreshActions(id, |s.ops|, |s.pubs|, StoreContent(s, id).Some?, models);
      var s' := Exec(store, schedule + refresh);
      var h := History(s'.history, id);
      && Memory(s'.memory, s.providers[id]).models == models
      && h != [] && h[|h|-1].entry == Some(models) && h[..|h|-1] == History(s.history, id)
  {
    var s := Exec(store, schedule);
    ProvidersAreKeyed(store, schedule, id);
    ExecKeepsInv(store, schedule);
    hide Exec, Apply, After, Memory, History, StoreContent, RefreshActions, EachInv, OpsInv, LogsInv, MemoryInv;
    hide ChainInv, AllSettled;
    ExecAfter(store, schedule, RefreshActions(id, |s.ops|, |s.pubs|, StoreContent(s, id).Some?, models));
    RefreshRuns(s, s.providers[id], models);
  }

  // ------------------------------------------------------------------
  // What does not reach the network
  // ------------------------------------------------------------------

  predicate Online(pc: Pc) {
    match pc
    case ReadingStore(phase) => phase.Network?
    case StoreAnswered(phase, _) => phase.Network?
    case Restoring(phase, _) => phase.Network?
    case CustomRefresh(phase) => phase.Network?
    case ResolvingCredential => true
    case Fetching => true
    case Persisting(_) => true
    case ReadingCredential => false
    case Finished => false
  }

  ghost predicate OnlineAllowed(s: State) {
    forall o :: 0 <= o < |s.ops| && Online(s.ops[o].pc) ==> s.ops[o].network && !s.ops[o].credentialError
  }

  predicate MayBeOnline(op: Op) {
    Online(op.pc) ==> op.network && !op.credentialError
  }

  /** Only operation `o` changed, and it is online only if it may be. */
  predicate KeepsOthers(s: State, s': State, o: nat)
    requires o < |s.ops|
  {
    |s'.ops| == |s.ops| && s'.ops == s.ops[o := s'.ops[o]] && MayBeOnline(s'.ops[o])
  }

  lemma SetPcAllowed(s: State, o: nat, pc: Pc)
    requires o < |s.ops| && (Online(pc) ==> s.ops[o].network && !s.ops[o].credentialError)
    ensures KeepsOthers(s, SetPc(s, o, pc), o)
  {
  }

  lemma OpStaysAllowed(s: State, o: nat, step: OpStep)
    requires o < |s.ops| && MayBeOnline(s.ops[o])
    ensures KeepsOthers(s, ApplyOp(s, o, step), o)
  {
    hide Restore, PersistFetched, Enqueue, StoreContent, SetPc;
    var op := s.ops[o];
    SetPcAllowed(s, o, Finished);
    match step
    case CredentialRead(_) =>
    case StoreRead =>
      if op.pc.ReadingStore? {
        SetPcAllowed(s, o, StoreAnswered(op.pc.phase, StoreContent(s, op.instance.id)));
      }
    case StoreReadFails =>
    case StoreReadReturns =>
      if op.pc.StoreAnswered? {
        SetPcAllowed(s, o, CustomRefresh(op.pc.phase));
        SetPcAllowed(s, o, AfterRestore(s, o, op.pc.phase));
      }
    case PublicationReturns =>
      if WaitIsOver(s, o) { SetPcAllowed(s, o, AfterWait(s, o)); }
    case CredentialResolved(_) =>
      if op.pc == ResolvingCredential { SetPcAllowed(s, o, ReadingStore(Network)); }
    case Fetched(_) =>
    case CustomPublish(_, _, _) =>
    case CustomFinish =>
      if op.pc.CustomRefresh? { SetPcAllowed(s, o, AfterPhase(s, o, op.pc.phase)); }
    case CallerAborts =>
    case CallerReturns =>
  }

  lemma SupersedeKeepsOnline(s: State, ids: set<ProviderId>)
    requires OnlineAllowed(s)
    ensures OnlineAllowed(SupersedeAll(s, ids))
  {
    hide Controls, Gen;
  }

  lemma StepKeepsOnline(s: State, a: Action)
    requires OnlineAllowed(s)
    ensures OnlineAllowed(Apply(s, a))
  {
    hide ApplyOp, ApplyPub, SupersedeAll, Online;
    match a {
      case Begin(id, network) =>
        SupersedeKeepsOnline(s, {id});
        if id in s.providers { SupersedeKeepsOnline(s, {s.providers[id].id}); }
        assert !Online(ReadingCredential) by { NotOnline(); }
      case OfOp(o, step) =>
        if o < |s.ops| { OpStaysAllowed(s, o, step); }
      case OfPub(p, step) =>
        if p < |s.pubs| && s.pubs[p].op < |s.ops| { PubKeepsProviders(s, p, step); }
      case CleanChain(id) =>
      case SetProvider(inst) => SupersedeKeepsOnline(s, {inst.id});
      case DeleteProvider(id) => SupersedeKeepsOnline(s, {id});
      case ClearProviders => SupersedeKeepsOnline(s, s.providers.Keys + s.controllers.Keys);
    }
  }

  lemma NotOnline()
    ensures !Online(ReadingCredential)
  {
  }

  /** No refresh gets past its cached phase that may not use the network or has no readable credential. */
  lemma {:induction false} OfflineStaysOffline(store: Store, schedule: seq<Action>)
    ensures OnlineAllowed(Exec(store, schedule))
  {
    if schedule != [] {
      OfflineStaysOffline(store, schedule[..|schedule|-1]);
      hide Apply, OnlineAllowed;
      StepKeepsOnline(Exec(store, schedule[..|schedule|-1]), schedule[|schedule|-1]);
    }
  }

  /** A fetch that fails leaves memory, store and publications alone and ends its refresh. */
  lemma FailedFetchKeepsAll(s: State, o: nat)
    requires o < |s.ops| && s.ops[o].pc == Fetching
    ensures var s' := Apply(s, OfOp(o, Fetched(None)));
      s' == s.(ops := s.ops[o := s.ops[o].(pc := Finished)])
  {
  }

  /** Restoring keeps exactly the models of the provider, in their order. */
  lemma {:induction false} RestrictKeepsOwn(id: ProviderId, a: Catalog, b: Catalog, m: Model)
    ensures Restrict(id, a + b) == Restrict(id, a) + Restrict(id, b)
    ensures Restrict(id, [m]) == if m.provider == id then [m] else []
  {
    assert [m][1..] == [];
    if a == [] {
      assert a + b == b;
    } else {
      RestrictKeepsOwn(id, a[1..], b, m);
      assert (a + b)[1..] == a[1..] + b;
    }
  }
}
