/**
 * The model-catalog refresh protocol of `ModelsImpl` and `createProvider`
 * (packages/ai/src/models.ts) as a small-step system.
 *
 * A stretch of code between two `await`s is one atomic action, and any enabled
 * action may run next.  `Apply` leaves the state alone when an action is not
 * enabled, so every sequence of actions is a schedule.
 *
 * `history` is the ghost part: it lists every effect the store has seen for a
 * provider.  The store holds the last entry; a snapshot's index is the length of
 * the history when that snapshot was current.
 */
module ModelCatalog {
  import opened Base

  /** Provider ids are only compared, so a number stands for each. */
  datatype ProviderId = ProviderId(key: nat)

  /** A model's provider, its id within the provider, and all its other fields. */
  datatype Model = Model(provider: ProviderId, id: nat, data: nat)

  type Catalog = seq<Model>

  /**
   * One registered provider object.  `custom` is false for the objects built by
   * `createProvider`; a custom object may publish whatever and whenever it likes.
   */
  datatype Instance = Instance(id: ProviderId, serial: nat, custom: bool)

  /** One store effect: which generation wrote it, and what (None: a delete). */
  datatype Write = Write(gen: nat, entry: Option<Catalog>)

  /** An in-memory dynamic catalog with the index of the snapshot it shows. */
  datatype Shown = Shown(index: nat, models: Catalog)

  datatype Phase = Cached | Network

  datatype Pc =
    | ReadingCredential
    | ReadingStore(phase: Phase)
    | StoreAnswered(phase: Phase, answer: Option<Shown>)
    | Restoring(phase: Phase, pub: nat)
    | ResolvingCredential
    | Fetching
    | Persisting(pub: nat)
    | CustomRefresh(phase: Phase)
    | Finished

  /** One refresh operation; its signal is the "any" of the two abort flags. */
  datatype Op = Op(instance: Instance, gen: nat, network: bool, credentialError: bool,
                   callerAborted: bool, superseded: bool, pc: Pc)
  {
    predicate Aborted() { callerAborted || superseded }
  }

  datatype Persist = Keep | Delete | Save

  datatype PubState =
    | Waiting              // for the previous publication in the chain
    | Writing              // past the first check, store effect outstanding
    | Written(index: nat)  // store effect done, second check outstanding
    | Published
    | Refused
    | Failed
  {
    predicate Settled() { Published? || Refused? || Failed? }
    predicate InFlight() { Writing? || Written? }
  }

  /**
   * One call of `publishProviderModels`: its provider id, generation and signal
   * (that of operation `op`), and what its update callback installs.
   */
  datatype Pub = Pub(id: ProviderId, gen: nat, op: nat, prev: Option<nat>,
                     persist: Persist, updates: bool, shown: Shown, state: PubState)

  datatype State = State(
    providers: map<ProviderId, Instance>,
    generations: map<ProviderId, nat>,
    controllers: map<ProviderId, nat>,
    chains: map<ProviderId, nat>,
    history: map<ProviderId, seq<Write>>,
    memory: map<Instance, Shown>,
    updates: map<ProviderId, seq<nat>>,
    ops: seq<Op>,
    pubs: seq<Pub>)

  /** A fresh object over a store that may hold snapshots of earlier processes, as generation 0. */
  function Initial(store: map<ProviderId, Catalog>): State {
    State(map[], map[], map[], map[], map id | id in store :: [Write(0, Some(store[id]))], map[], map[], [], [])
  }

  function Gen(generations: map<ProviderId, nat>, id: ProviderId): nat {
    if id in generations then generations[id] else 0
  }

  function History(history: map<ProviderId, seq<Write>>, id: ProviderId): seq<Write> {
    if id in history then history[id] else []
  }

  function Memory(memory: map<Instance, Shown>, inst: Instance): Shown {
    if inst in memory then memory[inst] else Shown(0, [])
  }

  function Updates(updates: map<ProviderId, seq<nat>>, id: ProviderId): seq<nat> {
    if id in updates then updates[id] else []
  }

  /** The check that guards a store write and an update. */
  predicate Live(op: Op, generations: map<ProviderId, nat>) {
    !op.Aborted() && op.gen == Gen(generations, op.instance.id)
  }

  /** Entries of another provider are dropped when a snapshot is restored. */
  function Restrict(id: ProviderId, c: Catalog): Catalog {
    if c == [] then []
    else (if c[0].provider == id then [c[0]] else []) + Restrict(id, c[1..])
  }

  // ------------------------------------------------------------------
  // Building blocks
  // ------------------------------------------------------------------

  function SetPc(s: State, o: nat, pc: Pc): (r: State)
    requires o < |s.ops|
    ensures r.memory == s.memory && r.providers == s.providers
  {
    s.(ops := s.ops[o := s.ops[o].(pc := pc)])
  }

  function SetPub(s: State, p: nat, st: PubState): (r: State)
    requires p < |s.pubs|
    ensures r.memory == s.memory && r.providers == s.providers && r.ops == s.ops
  {
    s.(pubs := s.pubs[p := s.pubs[p].(state := st)])
  }

  /** Bumps the generation of every id in `ids` and aborts their live controllers. */
  function SupersedeAll(s: State, ids: set<ProviderId>): State {
    s.(generations := map id | id in s.generations.Keys + ids ::
         if id in ids then Gen(s.generations, id) + 1 else s.generations[id],
       controllers := s.controllers - ids,
       ops := seq(|s.ops|, i requires 0 <= i < |s.ops| =>
         if s.ops[i].instance.id in ids && Controls(s.controllers, s.ops[i], i)
         then s.ops[i].(superseded := true) else s.ops[i]))
  }

  /** The controller of operation `op`, number `o`, is the registered one. */
  predicate Controls(controllers: map<ProviderId, nat>, op: Op, o: nat) {
    op.instance.id in controllers && controllers[op.instance.id] == o
  }

  function Supersede(s: State, id: ProviderId): State {
    SupersedeAll(s, {id})
  }

  function BeginRefresh(s: State, inst: Instance, network: bool): State {
    var s1 := Supersede(s, inst.id);
    s1.(controllers := s1.controllers[inst.id := |s1.ops|],
        ops := s1.ops + [Op(inst, Gen(s1.generations, inst.id), network, false, false, false, ReadingCredential)])
  }

  /** Appends a publication to its provider's chain. */
  function Enqueue(s: State, o: nat, persist: Persist, updates: bool, shown: Shown): (r: State)
    requires o < |s.ops|
    ensures r.memory == s.memory && r.providers == s.providers && r.ops == s.ops
  {
    var id := s.ops[o].instance.id;
    var prev := if id in s.chains then Some(s.chains[id]) else None;
    s.(chains := s.chains[id := |s.pubs|],
       pubs := s.pubs + [Pub(id, s.ops[o].gen, o, prev, persist, updates, shown, Waiting)])
  }

  /** Queues the publication that shows a stored snapshot. */
  function Restore(s: State, o: nat, phase: Phase, snapshot: Shown): (r: State)
    requires o < |s.ops|
    ensures r.memory == s.memory && r.providers == s.providers
    ensures r.ops == s.ops[o := s.ops[o].(pc := Restoring(phase, |s.pubs|))]
  {
    var restored := Shown(snapshot.index, Restrict(s.ops[o].instance.id, snapshot.models));
    Enqueue(SetPc(s, o, Restoring(phase, |s.pubs|)), o, Keep, true, restored)
  }

  /** Queues the publication that persists and shows fetched models. */
  function PersistFetched(s: State, o: nat, models: Catalog): (r: State)
    requires o < |s.ops|
    ensures r.memory == s.memory && r.providers == s.providers
    ensures r.ops == s.ops[o := s.ops[o].(pc := Persisting(|s.pubs|))]
  {
    Enqueue(SetPc(s, o, Persisting(|s.pubs|)), o, Save, true, Shown(0, models))
  }

  /** Runs the update callback and resolves the publication to true. */
  function Install(s: State, p: nat, shown: Shown): (r: State)
    requires p < |s.pubs| && s.pubs[p].op < |s.ops|
    ensures r.providers == s.providers && r.ops == s.ops
  {
    var pub := s.pubs[p];
    var s1 := SetPub(s, p, Published);
    if !pub.updates then s1
    else s1.(memory := s.memory[s.ops[pub.op].instance := shown],
             updates := s.updates[pub.id := Updates(s.updates, pub.id) + [pub.gen]])
  }

  predicate PrevSettled(s: State, p: nat)
    requires p < |s.pubs|
  {
    match s.pubs[p].prev
    case None => true
    case Some(c) => c < |s.pubs| && s.pubs[c].state.Settled()
  }

  /** The check of publication `p`. */
  predicate Allowed(s: State, p: nat)
    requires p < |s.pubs| && s.pubs[p].op < |s.ops|
  {
    !s.ops[s.pubs[p].op].Aborted() && Gen(s.generations, s.pubs[p].id) == s.pubs[p].gen
  }

  /** From the awaited chain to the first check, and on to the next await. */
  function RunPub(s: State, p: nat): State
    requires p < |s.pubs| && s.pubs[p].op < |s.ops|
  {
    if !Allowed(s, p) then SetPub(s, p, Refused)
    else if s.pubs[p].persist.Keep? then Install(s, p, s.pubs[p].shown)
    else SetPub(s, p, Writing)
  }

  /** The store effect of a publication becomes visible. */
  function LandWrite(s: State, p: nat): (r: State)
    requires p < |s.pubs| && s.pubs[p].op < |s.ops|
    ensures r.memory == s.memory && r.providers == s.providers && r.ops == s.ops
  {
    var pub := s.pubs[p];
    var entry := if pub.persist.Delete? then None else Some(pub.shown.models);
    var h := History(s.history, pub.id) + [Write(pub.gen, entry)];
    SetPub(s, p, Written(|h|)).(history := s.history[pub.id := h])
  }

  /** From the awaited store call through the second check to the end. */
  function FinishPub(s: State, p: nat): State
    requires p < |s.pubs| && s.pubs[p].op < |s.ops| && s.pubs[p].state.Written?
  {
    if !Allowed(s, p) then SetPub(s, p, Refused)
    else Install(s, p, Shown(s.pubs[p].state.index, s.pubs[p].shown.models))
  }

  /** What the store currently answers to a read. */
  function StoreContent(s: State, id: ProviderId): Option<Shown> {
    var h := History(s.history, id);
    if h == [] || h[|h|-1].entry.None? then None
    else Some(Shown(|h|, h[|h|-1].entry.value))
  }

  /** The tail of `runProviderRefreshPhase`: where an operation goes after a phase. */
  function AfterPhase(s: State, o: nat, phase: Phase): Pc
    requires o < |s.ops|
  {
    var op := s.ops[o];
    if phase.Cached? && !op.credentialError && op.network && !op.Aborted() then ResolvingCredential else Finished
  }

  /** `createProvider`'s code after the optional restore. */
  function AfterRestore(s: State, o: nat, phase: Phase): Pc
    requires o < |s.ops|
  {
    if phase.Network? && !s.ops[o].Aborted() then Fetching else AfterPhase(s, o, phase)
  }

  /** The raced publication has settled, or the signal has aborted. */
  predicate WaitIsOver(s: State, o: nat)
    requires o < |s.ops|
  {
    var op := s.ops[o];
    && (op.pc.Restoring? || op.pc.Persisting?)
    && (op.Aborted() || (op.pc.pub < |s.pubs| && s.pubs[op.pc.pub].state.Settled()))
  }

  function AfterWait(s: State, o: nat): Pc
    requires o < |s.ops| && WaitIsOver(s, o)
  {
    var op := s.ops[o];
    if op.Aborted() || op.pc.Persisting? || s.pubs[op.pc.pub].state.Failed? then Finished
    else if s.pubs[op.pc.pub].state.Published? then AfterRestore(s, o, op.pc.phase)
    else AfterPhase(s, o, op.pc.phase)
  }

  // ------------------------------------------------------------------
  // Actions
  // ------------------------------------------------------------------

  datatype OpStep =
    | CredentialRead(ok: bool)
    | StoreRead                       // the read takes effect
    | StoreReadFails
    | StoreReadReturns                // the continuation after the read
    | PublicationReturns
    | CredentialResolved(ok: bool)
    | Fetched(models: Option<Catalog>)
    | CustomPublish(persist: Persist, updates: bool, shown: Shown)
    | CustomFinish
    | CallerAborts
    | CallerReturns

  datatype PubStep = Run | WriteLands | WriteFails | WriteReturns

  datatype Action =
    | Begin(id: ProviderId, network: bool)
    | OfOp(o: nat, opStep: OpStep)
    | OfPub(p: nat, pubStep: PubStep)
    | CleanChain(id: ProviderId)
    | SetProvider(inst: Instance)
    | DeleteProvider(id: ProviderId)
    | ClearProviders

  /** A step of one refresh operation. */
  function ApplyOp(s: State, o: nat, step: OpStep): State
    requires o < |s.ops|
  {
    var op := s.ops[o];
    match step
    case CredentialRead(ok) =>
      if op.pc != ReadingCredential then s
      else s.(ops := s.ops[o := op.(credentialError := !ok, pc := ReadingStore(Cached))])
    case StoreRead =>
      if !op.pc.ReadingStore? then s
      else SetPc(s, o, StoreAnswered(op.pc.phase, StoreContent(s, op.instance.id)))
    case StoreReadFails =>
      if !op.pc.ReadingStore? then s else SetPc(s, o, Finished)
    case StoreReadReturns =>
      if !op.pc.StoreAnswered? then s
      else if op.instance.custom then SetPc(s, o, CustomRefresh(op.pc.phase))
      else if op.pc.answer.None? then SetPc(s, o, AfterRestore(s, o, op.pc.phase))
      else
        Restore(s, o, op.pc.phase, op.pc.answer.value)
    case PublicationReturns =>
      if WaitIsOver(s, o) then SetPc(s, o, AfterWait(s, o)) else s
    case CredentialResolved(ok) =>
      if op.pc != ResolvingCredential then s
      else SetPc(s, o, if ok then ReadingStore(Network) else Finished)
    case Fetched(models) =>
      if op.pc != Fetching then s
      else if models.None? || op.Aborted() then SetPc(s, o, Finished)
      else PersistFetched(s, o, models.value)
    case CustomPublish(persist, updates, shown) =>
      if !op.instance.custom then s else Enqueue(s, o, persist, updates, shown)
    case CustomFinish =>
      if !op.pc.CustomRefresh? then s else SetPc(s, o, AfterPhase(s, o, op.pc.phase))
    case CallerAborts =>
      s.(ops := s.ops[o := op.(callerAborted := true)])
    case CallerReturns =>
      if (op.pc.Finished? || op.Aborted()) && Controls(s.controllers, op, o)
      then s.(controllers := s.controllers - {op.instance.id}) else s
  }

  /** A step of one publication. */
  function ApplyPub(s: State, p: nat, step: PubStep): State
    requires p < |s.pubs| && s.pubs[p].op < |s.ops|
  {
    match step
    case Run => if s.pubs[p].state.Waiting? && PrevSettled(s, p) then RunPub(s, p) else s
    case WriteLands => if s.pubs[p].state.Writing? then LandWrite(s, p) else s
    case WriteFails => if s.pubs[p].state.InFlight() then SetPub(s, p, Failed) else s
    case WriteReturns => if s.pubs[p].state.Written? then FinishPub(s, p) else s
  }

  function Apply(s: State, a: Action): State {
    match a
    case Begin(id, network) =>
      if id in s.providers then BeginRefresh(s, s.providers[id], network) else s
    case OfOp(o, step) =>
      if o < |s.ops| then ApplyOp(s, o, step) else s
    case OfPub(p, step) =>
      if p < |s.pubs| && s.pubs[p].op < |s.ops| then ApplyPub(s, p, step) else s
    case CleanChain(id) =>
      if id in s.chains && s.chains[id] < |s.pubs| && s.pubs[s.chains[id]].state.Settled()
      then s.(chains := s.chains - {id}) else s
    case SetProvider(inst) =>
      var s1 := Supersede(s, inst.id); s1.(providers := s1.providers[inst.id := inst])
    case DeleteProvider(id) =>
      var s1 := Supersede(s, id); s1.(providers := s1.providers - {id})
    case ClearProviders =>
      SupersedeAll(s, s.providers.Keys + s.controllers.Keys).(providers := map[])
  }

  /** The state after a schedule that starts with this store. */
  function Exec(store: map<ProviderId, Catalog>, schedule: seq<Action>): State {
    if schedule == [] then Initial(store)
    else Apply(Exec(store, schedule[..|schedule|-1]), schedule[|schedule|-1])
  }
}
