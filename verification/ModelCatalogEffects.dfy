/**
 * What stops a refresh and for how long, what registering and removing providers
 * changes, and what one publication of any provider does (packages/ai/src/models.ts).
 */
module ModelCatalogEffects {
  import opened Base
  import opened ModelCatalog
  import opened ModelCatalogSafety
  import opened ModelCatalogProgress

  // ------------------------------------------------------------------
  // A stopped refresh stays stopped
  // ------------------------------------------------------------------

  /** The same call of `refresh`, whose two abort flags have not been taken back. */
  predicate SameCall(op: Op, op': Op) {
    && op'.instance == op.instance && op'.gen == op.gen && op'.network == op.network
    && (op.callerAborted ==> op'.callerAborted) && (op.superseded ==> op'.superseded)
  }

  /** All calls of `s` are still there in `s'`. */
  ghost predicate KeepsCalls(s: State, s': State) {
    |s.ops| <= |s'.ops| && forall o :: 0 <= o < |s.ops| ==> SameCall(s.ops[o], s'.ops[o])
  }

  /** Only call `o` changed. */
  predicate ChangesOne(s: State, s': State, o: nat)
    requires o < |s.ops|
  {
    |s'.ops| == |s.ops| && s'.ops == s.ops[o := s'.ops[o]] && SameCall(s.ops[o], s'.ops[o])
  }

  lemma SetPcChangesOne(s: State, o: nat, pc: Pc)
    requires o < |s.ops|
    ensures ChangesOne(s, SetPc(s, o, pc), o)
  {
  }

  lemma OpChangesOne(s: State, o: nat, step: OpStep)
    requires o < |s.ops|
    ensures ChangesOne(s, ApplyOp(s, o, step), o)
  {
    hide Restore, PersistFetched, Enqueue, StoreContent, SetPc;
    var op := s.ops[o];
    SetPcChangesOne(s, o, Finished);
    match step
    case CredentialRead(_) =>
    case StoreRead =>
      if op.pc.ReadingStore? {
        SetPcChangesOne(s, o, StoreAnswered(op.pc.phase, StoreContent(s, op.instance.id)));
      }
    case StoreReadFails =>
    case StoreReadReturns =>
      if op.pc.StoreAnswered? {
        SetPcChangesOne(s, o, CustomRefresh(op.pc.phase));
        SetPcChangesOne(s, o, AfterRestore(s, o, op.pc.phase));
      }
    case PublicationReturns =>
      if WaitIsOver(s, o) { SetPcChangesOne(s, o, AfterWait(s, o)); }
    case CredentialResolved(_) => SetPcChangesOne(s, o, ReadingStore(Network));
    case Fetched(_) =>
    case CustomPublish(_, _, _) =>
    case CustomFinish =>
      if op.pc.CustomRefresh? { SetPcChangesOne(s, o, AfterPhase(s, o, op.pc.phase)); }
    case CallerAborts =>
    case CallerReturns =>
  }

  lemma OpKeepsCalls(s: State, o: nat, step: OpStep)
    requires o < |s.ops|
    ensures KeepsCalls(s, ApplyOp(s, o, step))
  {
    OpChangesOne(s, o, step);
    hide ApplyOp;
  }

  lemma SupersedeKeepsCalls(s: State, ids: set<ProviderId>)
    ensures KeepsCalls(s, SupersedeAll(s, ids)) && |SupersedeAll(s, ids).ops| == |s.ops|
  {
    hide Controls, Gen;
  }

  lemma StepKeepsCalls(s: State, a: Action)
    ensures KeepsCalls(s, Apply(s, a))
  {
    hide ApplyOp, ApplyPub, SupersedeAll;
    match a {
      case Begin(id, network) =>
        if id in s.providers { SupersedeKeepsCalls(s, {s.providers[id].id}); }
      case OfOp(o, step) =>
        if o < |s.ops| { OpKeepsCalls(s, o, step); }
      case OfPub(p, step) =>
        if p < |s.pubs| && s.pubs[p].op < |s.ops| { PubKeepsProviders(s, p, step); }
      case CleanChain(id) =>
      case SetProvider(inst) => SupersedeKeepsCalls(s, {inst.id});
      case DeleteProvider(id) => SupersedeKeepsCalls(s, {id});
      case ClearProviders => SupersedeKeepsCalls(s, s.providers.Keys + s.controllers.Keys);
    }
  }

  /** Once its signal has aborted, nothing that happens later revives a refresh. */
  lemma {:induction false} StoppedStaysStopped(store: Store, schedule: seq<Action>, more: seq<Action>, o: nat)
    requires o < |Exec(store, schedule).ops| && Exec(store, schedule).ops[o].Aborted()
    ensures o < |Exec(store, schedule + more).ops| && Exec(store, schedule + more).ops[o].Aborted()
  {
    if more == [] {
      assert schedule + more == schedule;
    } else {
      var init, last := more[..|more|-1], more[|more|-1];
      StoppedStaysStopped(store, schedule, init, o);
      assert schedule + more == schedule + init + [last];
      ExecMore(store, schedule + init, last);
      hide Exec, Apply;
      StepKeepsCalls(Exec(store, schedule + init), last);
    }
  }

  /** Nor does any later action change a catalog on its behalf. */
  lemma StoppedIsSilent(store: Store, schedule: seq<Action>, more: seq<Action>, a: Action, o: nat, inst: Instance)
    requires o < |Exec(store, schedule).ops| && Exec(store, schedule).ops[o].Aborted()
    requires var s := Exec(store, schedule + more);
      a.OfPub? && a.p < |s.pubs| && s.pubs[a.p].op == o
    ensures Memory(Exec(store, schedule + more + [a]).memory, inst) == Memory(Exec(store, schedule + more).memory, inst)
  {
    StoppedStaysStopped(store, schedule, more, o);
    ExecMore(store, schedule + more, a);
    var s := Exec(store, schedule + more);
    assert Reachable(s);
    hide Exec, Apply, Memory, Reachable;
    NoStaleUpdate(s, a, inst);
  }

  // ------------------------------------------------------------------
  // What stops a refresh
  // ------------------------------------------------------------------

  /** `a` begins, replaces or removes a provider of this id, or all of them. */
  predicate Replaces(s: State, a: Action, id: ProviderId) {
    match a
    case Begin(i, _) => i == id && id in s.providers
    case SetProvider(inst) => inst.id == id
    case DeleteProvider(i) => i == id
    case ClearProviders => true
    case _ => false
  }

  lemma ReplacedInStep(s: State, a: Action, o: nat)
    requires OpsInv(s) && o < |s.ops| && !s.ops[o].pc.Finished? && Replaces(s, a, s.ops[o].instance.id)
    requires a.Begin? ==> s.providers[a.id].id == a.id
    ensures o < |Apply(s, a).ops| && Apply(s, a).ops[o].Aborted()
  {
    StepKeepsCalls(s, a);
    if !s.ops[o].Aborted() { assert Controls(s.controllers, s.ops[o], o); }
  }

  /** A running refresh stops when its provider is refreshed again, replaced, deleted or cleared. */
  lemma ReplacedRefreshStops(store: Store, schedule: seq<Action>, a: Action, o: nat)
    requires var s := Exec(store, schedule);
      o < |s.ops| && !s.ops[o].pc.Finished? && Replaces(s, a, s.ops[o].instance.id)
    ensures var s' := Exec(store, schedule + [a]); o < |s'.ops| && s'.ops[o].Aborted()
  {
    var s := Exec(store, schedule);
    ExecKeepsInv(store, schedule);
    ExecMore(store, schedule, a);
    if a.Begin? { ProvidersAreKeyed(store, schedule, a.id); }
    hide Exec, Apply, EachInv, LogsInv, MemoryInv, ChainInv, OpsInv;
    ReplacedInStep(s, a, o);
  }

  /** The caller's abort stops its refresh and nothing else. */
  lemma AbortStopsOne(s: State, o: nat)
    requires o < |s.ops|
    ensures var s' := Apply(s, OfOp(o, CallerAborts));
      && |s'.ops| == |s.ops| && s'.ops[o].Aborted() && SameCall(s.ops[o], s'.ops[o]) && s'.ops[o].pc == s.ops[o].pc
      && (forall i :: 0 <= i < |s.ops| && i != o ==> s'.ops[i] == s.ops[i])
      && s' == s.(ops := s'.ops)
  {
  }

  /** Refreshes of other providers go on undisturbed. */
  lemma OthersGoOn(s: State, a: Action, o: nat)
    requires OpsInv(s) && o < |s.ops| && !a.ClearProviders? && !a.OfOp? && !Replaces(s, a, s.ops[o].instance.id)
    requires a.Begin? && a.id in s.providers ==> s.providers[a.id].id == a.id
    ensures var s' := Apply(s, a);
      o < |s'.ops| && s'.ops[o] == s.ops[o]
      && Gen(s'.generations, s.ops[o].instance.id) == Gen(s.generations, s.ops[o].instance.id)
  {
    hide ApplyPub;
    if a.OfPub? && a.p < |s.pubs| && s.pubs[a.p].op < |s.ops| { PubKeepsRest(s, a.p, a.pubStep); }
  }

  lemma InstallKeepsGens(s: State, p: nat, shown: Shown)
    requires p < |s.pubs| && s.pubs[p].op < |s.ops|
    ensures Install(s, p, shown).generations == s.generations
  {
  }

  lemma LandKeepsGens(s: State, p: nat)
    requires p < |s.pubs| && s.pubs[p].op < |s.ops|
    ensures LandWrite(s, p).generations == s.generations
  {
  }

  lemma SetPubKeepsGens(s: State, p: nat, st: PubState)
    requires p < |s.pubs|
    ensures SetPub(s, p, st).generations == s.generations
  {
  }

  lemma PubKeepsRest(s: State, p: nat, step: PubStep)
    requires p < |s.pubs| && s.pubs[p].op < |s.ops|
    ensures ApplyPub(s, p, step).ops == s.ops && ApplyPub(s, p, step).generations == s.generations
  {
    hide Allowed, PrevSettled, Install, LandWrite, SetPub;
    SetPubKeepsGens(s, p, Refused);
    match step
    case Run =>
      InstallKeepsGens(s, p, s.pubs[p].shown);
      SetPubKeepsGens(s, p, Writing);
    case WriteLands => LandKeepsGens(s, p);
    case WriteFails => SetPubKeepsGens(s, p, Failed);
    case WriteReturns =>
      if s.pubs[p].state.Written? { InstallKeepsGens(s, p, Shown(s.pubs[p].state.index, s.pubs[p].shown.models)); }
  }

  // ------------------------------------------------------------------
  // Registering and beginning
  // ------------------------------------------------------------------

  lemma ProvidersFollow(s: State, inst: Instance, id: ProviderId)
    ensures Apply(s, SetProvider(inst)).providers == s.providers[inst.id := inst]
    ensures Apply(s, DeleteProvider(id)).providers == s.providers - {id}
    ensures Apply(s, ClearProviders).providers == map[]
  {
  }

  /** Providers come and go only so, and a stored or shown catalog stays. */
  lemma ReplacingKeepsCatalogs(s: State, a: Action)
    requires a.SetProvider? || a.DeleteProvider? || a.ClearProviders? || a.Begin?
    ensures Apply(s, a).history == s.history && Apply(s, a).memory == s.memory && Apply(s, a).pubs == s.pubs
    ensures a.Begin? ==> Apply(s, a).providers == s.providers
  {
  }

  /** A refresh that begins is the newest of its provider, live and registered. */
  lemma BegunIsLive(store: Store, schedule: seq<Action>, id: ProviderId, network: bool)
    requires id in Exec(store, schedule).providers
    ensures var s := Exec(store, schedule);
      var s' := Exec(store, schedule + [Begin(id, network)]);
      var o := |s.ops|;
      && |s'.ops| == o + 1
      && s'.ops[o].instance == s.providers[id] && s'.ops[o].network == network && s'.ops[o].pc == ReadingCredential
      && !s'.ops[o].credentialError && !s'.ops[o].callerAborted && !s'.ops[o].superseded
      && s'.ops[o].gen == Gen(s'.generations, id) == Gen(s.generations, id) + 1
      && id in s'.controllers && s'.controllers[id] == o
  {
    ProvidersAreKeyed(store, schedule, id);
    ExecMore(store, schedule, Begin(id, network));
    hide Exec;
  }

  /** A refresh that is over releases its own controller, never a newer one. */
  lemma ReturnReleases(s: State, o: nat)
    requires o < |s.ops| && (s.ops[o].pc.Finished? || s.ops[o].callerAborted || s.ops[o].superseded)
    ensures var id := s.ops[o].instance.id;
      var s' := Apply(s, OfOp(o, CallerReturns));
      && (forall i :: i in s'.controllers <==> i in s.controllers && !(i == id && s.controllers[i] == o))
      && (forall i :: i in s'.controllers ==> s'.controllers[i] == s.controllers[i])
      && s' == s.(controllers := s'.controllers)
  {
  }

  /** The last publication of a provider leaves no chain behind once it has settled. */
  lemma SettledTailIsCleaned(store: Store, schedule: seq<Action>, id: ProviderId)
    requires var s := Exec(store, schedule); AllSettled(s, id)
    ensures var s := Exec(store, schedule);
      var s' := Exec(store, schedule + [CleanChain(id)]);
      && id !in s'.chains && (forall i :: i != id ==> (i in s'.chains <==> i in s.chains))
      && (forall i :: i in s'.chains ==> s'.chains[i] == s.chains[i])
      && s' == s.(chains := s'.chains)
  {
    ExecKeepsInv(store, schedule);
    ExecMore(store, schedule, CleanChain(id));
    hide Exec, EachInv, LogsInv, MemoryInv, OpsInv;
  }

  // ------------------------------------------------------------------
  // Where a refresh goes
  // ------------------------------------------------------------------

  /** A phase that is over leads to the credential after the cached one if the refresh may go on, else to the end. */
  predicate GoesOn(op: Op, phase: Phase, pc: Pc) {
    if phase == Cached && op.network && !op.credentialError && !op.callerAborted && !op.superseded
    then pc == ResolvingCredential else pc == Finished
  }

  lemma CustomPhaseIsOver(s: State, o: nat)
    requires o < |s.ops| && s.ops[o].pc.CustomRefresh?
    ensures GoesOn(s.ops[o], s.ops[o].pc.phase, Apply(s, OfOp(o, CustomFinish)).ops[o].pc)
  {
    hide Restore, PersistFetched, Enqueue, StoreContent, AfterRestore, AfterWait, WaitIsOver;
  }

  /** Nothing stored: on to the fetch if this is the network phase. */
  lemma NothingToRestore(s: State, o: nat)
    requires o < |s.ops| && s.ops[o].pc.StoreAnswered? && (s.ops[o].instance.custom || s.ops[o].pc.answer.None?)
    ensures var op := s.ops[o];
      var pc := Apply(s, OfOp(o, StoreReadReturns)).ops[o].pc;
      if op.instance.custom then pc == CustomRefresh(op.pc.phase)
      else if op.pc.phase == Network && !op.callerAborted && !op.superseded then pc == Fetching
      else GoesOn(op, op.pc.phase, pc)
  {
    hide Restore, PersistFetched, Enqueue, StoreContent, AfterWait, WaitIsOver;
  }

  lemma ReturnGoes(s: State, o: nat)
    requires o < |s.ops|
    ensures Apply(s, OfOp(o, PublicationReturns)).ops[o].pc ==
            if WaitIsOver(s, o) then AfterWait(s, o) else s.ops[o].pc
  {
    hide Restore, PersistFetched, Enqueue, StoreContent, AfterRestore, AfterPhase, AfterWait, WaitIsOver;
  }

  /** The continuation of a restoring publication. */
  lemma RestoreIsOver(s: State, o: nat)
    requires o < |s.ops| && s.ops[o].pc.Restoring? && s.ops[o].pc.pub < |s.pubs|
    ensures var op := s.ops[o];
      var st := s.pubs[op.pc.pub].state;
      var pc := Apply(s, OfOp(o, PublicationReturns)).ops[o].pc;
      if op.callerAborted || op.superseded || st.Failed? then pc == Finished
      else if st.Published? then
        if op.pc.phase == Network then pc == Fetching else GoesOn(op, op.pc.phase, pc)
      else if st.Refused? then GoesOn(op, op.pc.phase, pc)
      else pc == op.pc
  {
    ReturnGoes(s, o);
    hide Apply;
  }

  /** A refresh ends once its fetched models are published, refused or failed. */
  lemma PersistIsOver(s: State, o: nat)
    requires o < |s.ops| && s.ops[o].pc.Persisting? && s.ops[o].pc.pub < |s.pubs|
    requires s.pubs[s.ops[o].pc.pub].state.Settled()
    ensures Apply(s, OfOp(o, PublicationReturns)).ops[o].pc == Finished
  {
    ReturnGoes(s, o);
    hide Apply;
  }

  /** An unreadable credential does not keep the cached phase from running. */
  lemma CredentialIsRead(s: State, o: nat, ok: bool)
    requires o < |s.ops| && s.ops[o].pc == ReadingCredential
    ensures Apply(s, OfOp(o, CredentialRead(ok))).ops ==
            s.ops[o := s.ops[o].(credentialError := !ok, pc := ReadingStore(Cached))]
  {
    hide Restore, PersistFetched, Enqueue, StoreContent, AfterRestore, AfterPhase, AfterWait, WaitIsOver;
  }

  lemma ErrorsEnd(s: State, o: nat)
    requires o < |s.ops|
    ensures s.ops[o].pc.ReadingStore? ==> Apply(s, OfOp(o, StoreReadFails)).ops[o].pc == Finished
    ensures s.ops[o].pc == ResolvingCredential ==> Apply(s, OfOp(o, CredentialResolved(false))).ops[o].pc == Finished
  {
    hide Restore, PersistFetched, Enqueue, StoreContent, AfterRestore, AfterPhase, AfterWait, WaitIsOver;
  }

  // ------------------------------------------------------------------
  // One publication of any provider
  // ------------------------------------------------------------------

  /** Publication `p` may go on: its refresh is the newest of its provider and not aborted. */
  predicate MayPublish(s: State, p: nat)
    requires p < |s.pubs|
  {
    var pub := s.pubs[p];
    && pub.op < |s.ops| && !s.ops[pub.op].callerAborted && !s.ops[pub.op].superseded
    && pub.gen == Gen(s.generations, pub.id)
  }

  /** A custom provider's publication is queued behind everything of its provider. */
  lemma CustomIsQueued(s: State, o: nat, persist: Persist, updates: bool, shown: Shown)
    requires o < |s.ops| && s.ops[o].instance.custom
    ensures var s' := Apply(s, OfOp(o, CustomPublish(persist, updates, shown)));
      var id := s.ops[o].instance.id;
      && |s'.pubs| == |s.pubs| + 1 && s'.pubs[..|s.pubs|] == s.pubs
      && s'.pubs[|s.pubs|] == Pub(id, s.ops[o].gen, o, if id in s.chains then Some(s.chains[id]) else None, persist,
                                  updates, shown, Waiting)
      && s'.chains == s.chains[id := |s.pubs|] && s' == s.(pubs := s'.pubs, chains := s'.chains)
  {
  }

  /** What it may not publish it neither stores nor shows. */
  lemma RefusedDoesNothing(s: State, p: nat)
    requires p < |s.pubs| && s.pubs[p].op < |s.ops| && !MayPublish(s, p)
    ensures s.pubs[p].state.Waiting? && PrevSettled(s, p) ==>
      Apply(s, OfPub(p, Run)) == s.(pubs := s.pubs[p := s.pubs[p].(state := Refused)])
    ensures s.pubs[p].state.Written? ==>
      Apply(s, OfPub(p, WriteReturns)) == s.(pubs := s.pubs[p := s.pubs[p].(state := Refused)])
  {
  }

  /** Without a store effect it is shown at once, if it shows anything. */
  lemma KeptIsShown(s: State, p: nat, inst: Instance)
    requires p < |s.pubs| && MayPublish(s, p) && s.pubs[p].state.Waiting? && PrevSettled(s, p)
    requires s.pubs[p].persist.Keep?
    ensures var s' := Apply(s, OfPub(p, Run));
      && s'.pubs[p].state.Published? && s'.history == s.history
      && Memory(s'.memory, inst) ==
         if s.pubs[p].updates && inst == s.ops[s.pubs[p].op].instance then s.pubs[p].shown else Memory(s.memory, inst)
  {
  }

  /** A write or delete lands as the newest store entry, before anything is shown. */
  lemma WriteLandsFirst(s: State, p: nat)
    requires p < |s.pubs| && MayPublish(s, p) && s.pubs[p].state.Waiting? && PrevSettled(s, p)
    requires !s.pubs[p].persist.Keep?
    ensures var s1 := Apply(s, OfPub(p, Run));
      var s2 := Apply(s1, OfPub(p, WriteLands));
      var pub := s.pubs[p];
      var content := StoreContent(s2, pub.id);
      && s1.pubs[p].state.Writing? && s1.history == s.history && s1.memory == s.memory && s2.memory == s.memory
      && History(s2.history, pub.id)[..|History(s.history, pub.id)|] == History(s.history, pub.id)
      && |History(s2.history, pub.id)| == |History(s.history, pub.id)| + 1
      && s2.pubs[p].state == Written(|History(s2.history, pub.id)|)
      && (forall id :: id != pub.id ==> History(s2.history, id) == History(s.history, id))
      && (if pub.persist.Delete? then content == None
          else content.Some? && content.value.models == pub.shown.models)
  {
  }

  /** And is shown when the store call returns. */
  lemma WrittenIsShown(s: State, p: nat, inst: Instance)
    requires p < |s.pubs| && MayPublish(s, p) && s.pubs[p].state.Written?
    ensures var s' := Apply(s, OfPub(p, WriteReturns));
      && s'.pubs[p].state.Published? && s'.history == s.history
      && Memory(s'.memory, inst) ==
         if s.pubs[p].updates && inst == s.ops[s.pubs[p].op].instance
         then Shown(s.pubs[p].state.index, s.pubs[p].shown.models) else Memory(s.memory, inst)
  {
  }

  /** A failed store call shows nothing and leaves the store as it is. */
  lemma FailedWriteShowsNothing(s: State, p: nat)
    requires p < |s.pubs| && s.pubs[p].op < |s.ops| && (s.pubs[p].state.Writing? || s.pubs[p].state.Written?)
    ensures Apply(s, OfPub(p, WriteFails)) == s.(pubs := s.pubs[p := s.pubs[p].(state := Failed)])
  {
  }
}
