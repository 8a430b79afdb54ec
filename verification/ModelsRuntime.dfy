/**
 * `ModelsImpl` as an object: its methods change the fields in place, and each is
 * proved to be one action of the protocol on the object's snapshot.
 */
module ModelsRuntime {
  import opened Base
  import opened ModelCatalog
  import opened ModelCatalogSafety

  /** Superseding one more id after a set of ids. */
  lemma SupersedeOneMore(s: State, done: set<ProviderId>, id: ProviderId)
    requires id !in done
    ensures Supersede(SupersedeAll(s, done), id) == SupersedeAll(s, done + {id})
  {
    var a, b := Supersede(SupersedeAll(s, done), id), SupersedeAll(s, done + {id});
    assert a.generations == b.generations;
    assert a.controllers == b.controllers;
    assert a.ops == b.ops;
  }

  lemma SupersedeNone(s: State)
    ensures SupersedeAll(s, {}) == s
  {
    var t := SupersedeAll(s, {});
    assert t.generations == s.generations;
    assert t.controllers == s.controllers;
    assert t.ops == s.ops;
  }

  lemma RegisteredOne(s: State, id: ProviderId)
    requires OpsInv(s)
    ensures id in s.controllers ==> s.controllers[id] < |s.ops| && s.ops[s.controllers[id]].instance.id == id
  {
    if id in s.controllers { assert Newest(s.ops, s.controllers, s.generations, id); }
  }

  lemma SupersedeKeepsOps(s: State, id: ProviderId)
    requires OpsInv(s)
    ensures OpsInv(Supersede(s, id))
  {
    SupersedeAges(s, {id});
    SupersedeRegisters(s, {id});
  }

  lemma BeginIsAnAction(s: State, inst: Instance, network: bool)
    requires Inv(s)
    ensures OpsInv(s) && Inv(BeginRefresh(s, inst, network)) && |Supersede(s, inst.id).ops| == |s.ops|
  {
    BeginKeepsInv(s, inst, network);
  }

  lemma EnqueueIsAnAction(s: State, o: nat, persist: Persist, updates: bool, shown: Shown)
    requires Inv(s) && o < |s.ops|
    ensures var id := s.ops[o].instance.id;
      var pub := Pub(id, s.ops[o].gen, o, if id in s.chains then Some(s.chains[id]) else None, persist, updates, shown,
                     Waiting);
      && Enqueue(s, o, persist, updates, shown) == s.(chains := s.chains[id := |s.pubs|], pubs := s.pubs + [pub])
      && (PubOk(s, pub, |s.pubs|) ==> Inv(Enqueue(s, o, persist, updates, shown)))
  {
    if PubOk(s, Enqueue(s, o, persist, updates, shown).pubs[|s.pubs|], |s.pubs|) {
      EnqueueKeepsInv(s, o, persist, updates, shown);
    }
  }

  lemma RunIsAnAction(s: State, p: nat)
    requires Inv(s) && p < |s.pubs| && s.pubs[p].state.Waiting? && PrevSettled(s, p)
    ensures s.pubs[p].op < |s.ops| && Apply(s, OfPub(p, Run)) == RunPub(s, p) && Inv(RunPub(s, p))
  {
    assert PubOk(s, s.pubs[p], p);
    StepKeepsInv(s, OfPub(p, Run));
    hide Inv, RunPub;
  }

  lemma FinishIsAnAction(s: State, p: nat)
    requires Inv(s) && p < |s.pubs| && s.pubs[p].state.Written?
    ensures s.pubs[p].op < |s.ops| && Apply(s, OfPub(p, WriteReturns)) == FinishPub(s, p) && Inv(FinishPub(s, p))
  {
    assert PubOk(s, s.pubs[p], p);
    StepKeepsInv(s, OfPub(p, WriteReturns));
    hide Inv, FinishPub;
  }

  lemma GenUpdated(gens: Generations, id: ProviderId, generation: nat)
    ensures Gen(gens[id := generation], id) == generation
  {
  }

  /** Superseding one id, field by field. */
  lemma SupersedeIs(s: State, id: ProviderId)
    requires id in s.controllers ==> s.controllers[id] < |s.ops| && s.ops[s.controllers[id]].instance.id == id
    ensures Supersede(s, id) == s.(
              generations := s.generations[id := Gen(s.generations, id) + 1],
              controllers := if id in s.controllers then s.controllers - {id} else s.controllers,
              ops := if id in s.controllers
                     then var previous := s.controllers[id]; s.ops[previous := s.ops[previous].(superseded := true)]
                     else s.ops)
  {
    var t := Supersede(s, id);
    assert t.generations == s.generations[id := Gen(s.generations, id) + 1];
    assert id !in s.controllers ==> t.controllers == s.controllers;
    assert id !in s.controllers ==> t.ops == s.ops;
  }

  class ModelsImpl {
    var providers: map<ProviderId, Instance>
    var refreshGenerations: map<ProviderId, nat>
    var refreshControllers: map<ProviderId, nat>
    var publicationChains: map<ProviderId, nat>
    // the store, the provider objects, and the suspended calls
    var history: map<ProviderId, seq<Write>>
    var memory: map<Instance, Shown>
    var updates: map<ProviderId, seq<nat>>
    var ops: seq<Op>
    var pubs: seq<Pub>

    ghost function Snapshot(): State
      reads this
    {
      State(providers, refreshGenerations, refreshControllers, publicationChains, history, memory, updates, ops, pubs)
    }

    ghost predicate Valid()
      reads this
    {
      Inv(Snapshot())
    }

    constructor (store: Store)
      ensures Snapshot() == Initial(store) && Valid()
    {
      providers, refreshGenerations, refreshControllers, publicationChains := map[], map[], map[], map[];
      history := map id | id in store :: [Write(0, Some(store[id]))];
      memory, updates, ops, pubs := map[], map[], [], [];
      new;
      InitialInv(store);
    }

    method SupersedeProviderRefresh(providerId: ProviderId) returns (generation: nat)
      requires OpsInv(Snapshot())
      modifies this`refreshGenerations, this`refreshControllers, this`ops
      ensures OpsInv(Snapshot()) && Snapshot() == Supersede(old(Snapshot()), providerId)
      ensures generation == Gen(old(refreshGenerations), providerId) + 1 == Gen(refreshGenerations, providerId)
    {
      hide OpsInv, SupersedeAll, Supersede, Gen;
      SupersedeKeepsOps(Snapshot(), providerId);
      RegisteredOne(Snapshot(), providerId);
      SupersedeIs(Snapshot(), providerId);
      generation := Gen(refreshGenerations, providerId) + 1;
      GenUpdated(refreshGenerations, providerId, generation);
      refreshGenerations := refreshGenerations[providerId := generation];
      if providerId in refreshControllers {
        var previous := refreshControllers[providerId];
        refreshControllers := refreshControllers - {providerId};
        ops := ops[previous := ops[previous].(superseded := true)];
      }
    }

    /** The synchronous start of one provider's refresh. */
    method BeginProviderRefresh(providerId: ProviderId, network: bool) returns (operation: nat)
      requires Valid() && providerId in providers
      modifies this
      ensures Valid() && Snapshot() == BeginRefresh(old(Snapshot()), old(providers)[providerId], network)
      ensures operation == |old(ops)| && ops[operation].pc == ReadingCredential
    {
      var provider := providers[providerId];
      BeginIsAnAction(Snapshot(), provider, network);
      hide Inv, OpsInv, SupersedeAll;
      var generation := SupersedeProviderRefresh(provider.id);
      operation := |ops|;
      refreshControllers := refreshControllers[provider.id := operation];
      ops := ops + [Op(provider, generation, network, false, false, false, ReadingCredential)];
    }

    method SetProvider(provider: Instance)
      requires Valid()
      modifies this
      ensures Valid() && Snapshot() == Apply(old(Snapshot()), Action.SetProvider(provider))
    {
      hide OpsInv, ChainInv, LogsInv, MemoryInv, EachInv, SupersedeAll;
      StepKeepsInv(Snapshot(), Action.SetProvider(provider));
      var _ := SupersedeProviderRefresh(provider.id);
      providers := providers[provider.id := provider];
    }

    method DeleteProvider(id: ProviderId)
      requires Valid()
      modifies this
      ensures Valid() && Snapshot() == Apply(old(Snapshot()), Action.DeleteProvider(id))
    {
      hide OpsInv, ChainInv, LogsInv, MemoryInv, EachInv, SupersedeAll;
      StepKeepsInv(Snapshot(), Action.DeleteProvider(id));
      var _ := SupersedeProviderRefresh(id);
      providers := providers - {id};
    }

    /** Supersedes every id in `ids`, one after the other. */
    method SupersedeEach(ids: set<ProviderId>)
      requires OpsInv(Snapshot())
      modifies this`refreshGenerations, this`refreshControllers, this`ops
      ensures OpsInv(Snapshot()) && Snapshot() == SupersedeAll(old(Snapshot()), ids)
    {
      ghost var s := Snapshot();
      ghost var done: set<ProviderId> := {};
      var todo := ids;
      SupersedeNone(s);
      while todo != {}
        invariant done !! todo && done + todo == ids
        invariant OpsInv(Snapshot())
        invariant Snapshot() == SupersedeAll(s, done)
        decreases todo
      {
        var id :| id in todo;
        var _ := SupersedeProviderRefresh(id);
        SupersedeOneMore(s, done, id);
        done, todo := done + {id}, todo - {id};
      }
      assert done == ids;
    }

    method ClearProviders()
      requires Valid()
      modifies this
      ensures Valid() && Snapshot() == Apply(old(Snapshot()), Action.ClearProviders)
    {
      hide OpsInv, ChainInv, LogsInv, MemoryInv, EachInv;
      StepKeepsInv(Snapshot(), Action.ClearProviders);
      SupersedeEach(providers.Keys + refreshControllers.Keys);
      providers := map[];
    }

    /** The synchronous part of `publishProviderModels`: append to the provider's chain. */
    method PublishProviderModels(operation: nat, persist: Persist, update: bool, shown: Shown) returns (queued: nat)
      requires Valid() && operation < |ops|
      modifies this`publicationChains, this`pubs
      ensures Snapshot() == Enqueue(old(Snapshot()), operation, persist, update, shown) && queued == |old(pubs)|
      ensures PubOk(old(Snapshot()), pubs[queued], queued) ==> Valid()
    {
      hide Inv, PubOk, Enqueue;
      ghost var before := Snapshot();
      EnqueueIsAnAction(before, operation, persist, update, shown);
      var providerId := ops[operation].instance.id;
      var previous := if providerId in publicationChains then Some(publicationChains[providerId]) else None;
      queued := |pubs|;
      pubs := pubs + [Pub(providerId, ops[operation].gen, operation, previous, persist, update, shown, Waiting)];
      publicationChains := publicationChains[providerId := queued];
    }

    method MovePublication(p: nat, state: PubState)
      requires p < |pubs|
      modifies this`pubs
      ensures Snapshot() == SetPub(old(Snapshot()), p, state)
    {
      pubs := pubs[p := pubs[p].(state := state)];
    }

    method InstallUpdate(p: nat, shown: Shown)
      requires p < |pubs| && pubs[p].op < |ops|
      modifies this`memory, this`updates, this`pubs
      ensures Snapshot() == Install(old(Snapshot()), p, shown)
    {
      var pub := pubs[p];
      if pub.updates {
        memory := memory[ops[pub.op].instance := shown];
        updates := updates[pub.id := Updates(updates, pub.id) + [pub.gen]];
      }
      pubs := pubs[p := pub.(state := Published)];
    }

    /** From the settled predecessor to the store call, or to the end. */
    method StartPublication(p: nat)
      requires Valid() && p < |pubs| && pubs[p].state.Waiting? && PrevSettled(Snapshot(), p)
      modifies this`memory, this`updates, this`pubs
      ensures Valid() && Snapshot() == Apply(old(Snapshot()), OfPub(p, Run))
    {
      hide Inv, Apply, Install, PrevSettled, Gen, Updates, SetPub;
      RunIsAnAction(Snapshot(), p);
      var pub := pubs[p];
      if ops[pub.op].Aborted() || Gen(refreshGenerations, pub.id) != pub.gen {
        MovePublication(p, Refused);
      } else if pub.persist.Keep? {
        InstallUpdate(p, pub.shown);
      } else {
        MovePublication(p, Writing);
      }
    }

    /** From the settled store call through the second check to the end. */
    method FinishPublication(p: nat)
      requires Valid() && p < |pubs| && pubs[p].state.Written?
      modifies this`memory, this`updates, this`pubs
      ensures Valid() && Snapshot() == Apply(old(Snapshot()), OfPub(p, WriteReturns))
    {
      hide Inv, Apply, Install, Gen, Updates, SetPub;
      FinishIsAnAction(Snapshot(), p);
      var pub := pubs[p];
      if ops[pub.op].Aborted() || Gen(refreshGenerations, pub.id) != pub.gen {
        MovePublication(p, Refused);
      } else {
        InstallUpdate(p, Shown(pub.state.index, pub.shown.models));
      }
    }

    /** The cleanup after a settled tail. */
    method CleanChain(providerId: ProviderId, tail: nat)
      requires Valid() && tail < |pubs| && pubs[tail].state.Settled()
      modifies this`publicationChains
      ensures Valid()
      ensures Snapshot() == if providerId in old(publicationChains) && old(publicationChains)[providerId] == tail
                            then Apply(old(Snapshot()), Action.CleanChain(providerId)) else old(Snapshot())
    {
      StepKeepsInv(Snapshot(), Action.CleanChain(providerId));
      if providerId in publicationChains && publicationChains[providerId] == tail {
        publicationChains := publicationChains - {providerId};
      }
    }

    /** The `finally` of a refresh: release the controller if it is still this operation's. */
    method ReleaseController(operation: nat)
      requires Valid() && operation < |ops| && (ops[operation].pc.Finished? || ops[operation].Aborted())
      modifies this`refreshControllers
      ensures Valid() && Snapshot() == Apply(old(Snapshot()), OfOp(operation, CallerReturns))
    {
      StepKeepsInv(Snapshot(), OfOp(operation, CallerReturns));
      var id := ops[operation].instance.id;
      if id in refreshControllers && refreshControllers[id] == operation {
        refreshControllers := refreshControllers - {id};
      }
    }
  }

  // ------------------------------------------------------------------
  // `createProvider`'s merged view
  // ------------------------------------------------------------------

  /** The first model with this id, which is what a lookup by id finds. */
  ghost function Lookup(models: Catalog, id: nat): Option<Model> {
    if models == [] then None
    else if models[0].id == id then Some(models[0])
    else Lookup(models[1..], id)
  }

  ghost function LookupLast(models: Catalog, id: nat): Option<Model> {
    if models == [] then None
    else if models[|models|-1].id == id then Some(models[|models|-1])
    else LookupLast(models[..|models|-1], id)
  }

  /** The last dynamic entry of an id wins, else the first baseline entry. */
  ghost function OverlayLookup(baseline: Catalog, dynamic: Catalog, id: nat): Option<Model> {
    if LookupLast(dynamic, id).Some? then LookupLast(dynamic, id) else Lookup(baseline, id)
  }

  lemma {:induction false} LookupSnoc(models: Catalog, m: Model, id: nat)
    ensures Lookup(models + [m], id) ==
      if Lookup(models, id).Some? then Lookup(models, id) else if m.id == id then Some(m) else None
  {
    if models == [] {
      assert models + [m] == [m];
    } else {
      LookupSnoc(models[1..], m, id);
      assert (models + [m])[1..] == models[1..] + [m];
    }
  }

  lemma {:induction false} LookupReplaceFirst(models: Catalog, index: nat, m: Model, id: nat)
    requires index < |models| && models[index].id == m.id
    requires forall k :: 0 <= k < index ==> models[k].id != m.id
    ensures Lookup(models[index := m], id) == if id == m.id then Some(m) else Lookup(models, id)
  {
    var updated := models[index := m];
    if index > 0 {
      LookupReplaceFirst(models[1..], index - 1, m, id);
      assert updated[1..] == models[1..][index - 1 := m];
    } else {
      assert updated[1..] == models[1..];
    }
  }

  lemma {:induction false} LookupAbsent(models: Catalog, id: nat)
    requires forall k :: 0 <= k < |models| ==> models[k].id != id
    ensures Lookup(models, id) == None
  {
    if models != [] { LookupAbsent(models[1..], id); }
  }

  /**
   * The baseline list overlaid by the dynamic one: every baseline position keeps its
   * id, and a lookup finds the last dynamic entry of an id, else the first baseline one.
   */
  method CurrentModels(baseline: Catalog, dynamic: Catalog) returns (merged: Catalog)
    ensures |baseline| <= |merged| <= |baseline| + |dynamic|
    ensures forall k :: 0 <= k < |baseline| ==> merged[k].id == baseline[k].id
    ensures forall id: nat :: Lookup(merged, id) == OverlayLookup(baseline, dynamic, id)
  {
    merged := baseline;
    for d := 0 to |dynamic|
      invariant |baseline| <= |merged| <= |baseline| + d
      invariant forall k :: 0 <= k < |baseline| ==> merged[k].id == baseline[k].id
      invariant forall id: nat :: Lookup(merged, id) == OverlayLookup(baseline, dynamic[..d], id)
    {
      var model := dynamic[d];
      assert dynamic[..d + 1] == dynamic[..d] + [model];
      ghost var before := merged;
      var index := 0;
      while index < |merged| && merged[index].id != model.id
        invariant 0 <= index <= |merged|
        invariant forall k :: 0 <= k < index ==> merged[k].id != model.id
      {
        index := index + 1;
      }
      if index < |merged| {
        merged := merged[index := model];
        forall id: nat ensures Lookup(merged, id) == if id == model.id then Some(model) else Lookup(before, id) {
          LookupReplaceFirst(before, index, model, id);
        }
      } else {
        merged := merged + [model];
        LookupAbsent(before, model.id);
        forall id: nat ensures Lookup(merged, id) == if id == model.id then Some(model) else Lookup(before, id) {
          LookupSnoc(before, model, id);
        }
      }
      forall id: nat ensures LookupLast(dynamic[..d + 1], id) ==
        if id == model.id then Some(model) else LookupLast(dynamic[..d], id) {
        assert dynamic[..d + 1][..d] == dynamic[..d];
      }
    }
    assert dynamic[..|dynamic|] == dynamic;
  }
}
