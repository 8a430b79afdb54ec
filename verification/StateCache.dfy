/**
 * The cached agent state of `PiBackend` (packages/pi-gui-adapter/src/pi-backend.ts)
 * together with the backend process and the two FIFO channels between them.
 *
 * The backend counts its lifecycle transitions; that count is the ghost "backend
 * time" of every lifecycle line and every `get_state` answer.  The continuation of
 * a `get_state` call may run arbitrarily later than its answer arrives.
 */
module StateCache {
  import opened Base

  /** The fields of an agent state: the streaming flag, and all the others. */
  datatype AgentState = AgentState(isStreaming: bool, rest: nat)

  /** The four fields of the client that the cache protocol uses. */
  datatype Client = Client(latestState: Option<AgentState>, lifecycleRevision: nat,
                           nextStateRequestId: nat, lastAppliedStateRequestId: nat)

  /** Lines to the client; `version` is the ghost backend time at which a line was sent. */
  datatype Line =
    | Lifecycle(streaming: bool, version: nat)
    | Reply(id: nat, state: Option<AgentState>, version: nat)

  /** A `refreshState` whose answer has arrived but whose continuation has not run. */
  datatype Answered = Answered(revision: nat, state: Option<AgentState>, version: nat)

  datatype Link = Link(
    client: Client,
    running: bool,                    // the RPC client is set
    waiting: map<nat, nat>,           // request id to the revision captured by its refreshState
    resumable: map<nat, Answered>,
    toBackend: seq<nat>,
    toClient: seq<Line>,
    history: seq<bool>,               // backend streaming flag after each transition
    // ghost time stamps
    arrived: nat,                     // backend time of the newest line that has arrived
    arrivedId: nat,                   // id of the newest answer that has arrived
    seen: nat,                        // newest transition whose line has arrived
    source: nat,                      // backend time of the cached streaming flag
    sources: seq<nat>,                // every value `source` has taken
    applied: seq<nat>)                // every request id applied

  function Version(k: Link): nat
    requires k.history != []
  {
    |k.history| - 1
  }

  /** Right after startup: the cache holds the probe's answer, nothing is in flight. */
  function Started(state: AgentState): Link {
    Link(Client(Some(state), 0, 0, 0), true, map[], map[], [], [], [state.isStreaming], 0, 0, 0, 0, [0], [])
  }

  // ------------------------------------------------------------------
  // The client's reactions
  // ------------------------------------------------------------------

  /** `applyEventToCache` on a lifecycle event. */
  function OnLifecycle(c: Client, streaming: bool): Client {
    c.(lifecycleRevision := c.lifecycleRevision + 1,
       latestState := if c.latestState.Some? then Some(c.latestState.value.(isStreaming := streaming)) else None)
  }

  /** Whether the continuation of request `id` applies its answer. */
  predicate Applies(c: Client, revision: nat, id: nat, answer: Option<AgentState>) {
    answer.Some? && revision == c.lifecycleRevision && id > c.lastAppliedStateRequestId
  }

  /** The continuation of `refreshState` after its request. */
  function OnAnswer(c: Client, revision: nat, id: nat, answer: Option<AgentState>): Client {
    if Applies(c, revision, id, answer)
    then c.(lastAppliedStateRequestId := id, latestState := answer)
    else c
  }

  /** The synchronous start of `refreshState`. */
  function Ask(k: Link): Link {
    if !k.running then k
    else
      var id := k.client.nextStateRequestId + 1;
      k.(client := k.client.(nextStateRequestId := id),
         waiting := k.waiting[id := k.client.lifecycleRevision],
         toBackend := k.toBackend + [id])
  }

  function Announce(k: Link, streaming: bool, version: nat): Link {
    var k1 := k.(client := OnLifecycle(k.client, streaming), arrived := version, seen := version);
    if k.client.latestState.Some? then k1.(source := version, sources := k.sources + [version]) else k1
  }

  /** A settled agent makes the client ask for its state again. */
  function ArriveLifecycle(k: Link, streaming: bool, version: nat): Link {
    if streaming then Announce(k, streaming, version) else Ask(Announce(k, streaming, version))
  }

  function ArriveReply(k: Link, id: nat, state: Option<AgentState>, version: nat): Link {
    var k1 := k.(arrived := version, arrivedId := id);
    if id !in k.waiting then k1
    else k1.(waiting := k.waiting - {id}, resumable := k.resumable[id := Answered(k.waiting[id], state, version)])
  }

  function Arrive(k: Link): Link
    requires k.toClient != []
  {
    var k1 := k.(toClient := k.toClient[1..]);
    match k.toClient[0]
    case Lifecycle(streaming, version) => ArriveLifecycle(k1, streaming, version)
    case Reply(id, state, version) => ArriveReply(k1, id, state, version)
  }

  function Continue(k: Link, id: nat): Link
    requires id in k.resumable
  {
    var answer := k.resumable[id];
    var k1 := k.(resumable := k.resumable - {id}, client := OnAnswer(k.client, answer.revision, id, answer.state));
    if Applies(k.client, answer.revision, id, answer.state)
    then k1.(source := answer.version, sources := k.sources + [answer.version], applied := k.applied + [id])
    else k1
  }

  // ------------------------------------------------------------------
  // Actions
  // ------------------------------------------------------------------

  datatype Action =
    | BackendTransition(streaming: bool)
    | BackendAnswers(ok: bool, rest: nat)    // handles the oldest request
    | LineArrives
    | RefreshState
    | Resume(id: nat)
    | RequestFails(id: nat)                  // timeout or closed client
    | StopBegins
    | StopEnds

  function Transition(k: Link, streaming: bool): Link {
    k.(history := k.history + [streaming], toClient := k.toClient + [Lifecycle(streaming, |k.history|)])
  }

  function Answer(k: Link, ok: bool, rest: nat): Link
    requires k.history != [] && k.toBackend != []
  {
    var state := if ok then Some(AgentState(k.history[Version(k)], rest)) else None;
    k.(toBackend := k.toBackend[1..], toClient := k.toClient + [Reply(k.toBackend[0], state, Version(k))])
  }

  function Apply(k: Link, a: Action): Link
    requires k.history != []
  {
    match a
    case BackendTransition(streaming) => Transition(k, streaming)
    case BackendAnswers(ok, rest) => if k.toBackend == [] then k else Answer(k, ok, rest)
    case LineArrives => if k.toClient == [] then k else Arrive(k)
    case RefreshState => Ask(k)
    case Resume(id) => if id in k.resumable then Continue(k, id) else k
    case RequestFails(id) => k.(waiting := k.waiting - {id})
    case StopBegins =>
      k.(running := false, waiting := map[],
         client := k.client.(lifecycleRevision := k.client.lifecycleRevision + 1))
    case StopEnds =>
      if k.running then k else k.(client := k.client.(latestState := None))
  }

  lemma ApplyKeepsHistory(k: Link, a: Action)
    requires k.history != []
    ensures k.history <= Apply(k, a).history
  {
  }

  function Exec(start: AgentState, schedule: seq<Action>): (k: Link)
    ensures k.history != []
  {
    if schedule == [] then Started(start)
    else
      var k := Exec(start, schedule[..|schedule|-1]);
      ApplyKeepsHistory(k, schedule[|schedule|-1]);
      Apply(k, schedule[|schedule|-1])
  }

  // ------------------------------------------------------------------
  // The invariant
  // ------------------------------------------------------------------

  /** Lines are in backend time, a lifecycle line strictly after all before it. */
  ghost predicate TimeOrdered(lines: seq<Line>, arrived: nat, version: nat) {
    && arrived <= version
    && (forall i :: 0 <= i < |lines| ==> arrived <= lines[i].version <= version)
    && (forall i, j :: 0 <= i < j < |lines| ==> lines[i].version <= lines[j].version)
    && (forall i :: 0 <= i < |lines| && lines[i].Lifecycle? ==> arrived < lines[i].version)
    && (forall i, j :: 0 <= i < j < |lines| && lines[j].Lifecycle? ==> lines[i].version < lines[j].version)
  }

  /** The lines tell the truth about the backend. */
  ghost predicate Truthful(lines: seq<Line>, history: seq<bool>) {
    forall i :: 0 <= i < |lines| && lines[i].version < |history| ==>
      match lines[i]
      case Lifecycle(streaming, version) => streaming == history[version]
      case Reply(_, state, version) => state.Some? ==> state.value.isStreaming == history[version]
  }

  /** No transition is lost: the last one is on its way or has been seen. */
  ghost predicate Complete(lines: seq<Line>, seen: nat, version: nat) {
    seen == version || (exists i :: 0 <= i < |lines| && lines[i].Lifecycle? && lines[i].version == version)
  }

  /** Requests travel and are answered in the order of their ids. */
  ghost predicate IdOrdered(lines: seq<Line>, requests: seq<nat>, arrivedId: nat, next: nat) {
    && arrivedId <= next
    && (forall i :: 0 <= i < |requests| ==> arrivedId < requests[i] <= next)
    && (forall i, j :: 0 <= i < j < |requests| ==> requests[i] < requests[j])
    && (forall i :: 0 <= i < |lines| && lines[i].Reply? ==> arrivedId < lines[i].id <= next)
    && (forall i, j :: 0 <= i < j < |lines| && lines[i].Reply? && lines[j].Reply? ==> lines[i].id < lines[j].id)
    && (forall i, j :: 0 <= i < |lines| && lines[i].Reply? && 0 <= j < |requests| ==> lines[i].id < requests[j])
  }

  /** Arrived answers are ordered by id, and none is newer than the newest arrived line. */
  ghost predicate AnswersOrdered(resumable: map<nat, Answered>, arrived: nat, arrivedId: nat) {
    && (forall id :: id in resumable ==> 0 < id <= arrivedId && resumable[id].version <= arrived)
    && (forall i, j :: i in resumable && j in resumable && i < j ==> resumable[i].version <= resumable[j].version)
  }

  ghost predicate AnswersTruthful(resumable: map<nat, Answered>, history: seq<bool>) {
    forall id :: id in resumable && resumable[id].state.Some? && resumable[id].version < |history| ==>
      resumable[id].state.value.isStreaming == history[resumable[id].version]
  }

  /** Captured revisions are not ahead, and behind for good once the backend is stopped. */
  ghost predicate RevisionsOk(k: Link) {
    && (forall id :: id in k.waiting ==> k.waiting[id] <= k.client.lifecycleRevision && k.running)
    && (forall id :: id in k.resumable ==>
          && k.resumable[id].revision <= k.client.lifecycleRevision
          && (!k.running ==> k.resumable[id].revision < k.client.lifecycleRevision))
    && (k.running ==> k.client.latestState.Some?)
  }

  /** An answer that would be applied is at least as new as the cache. */
  ghost predicate ApplicableFresh(k: Link) {
    forall id :: id in k.resumable && Applies(k.client, k.resumable[id].revision, id, k.resumable[id].state) ==>
      k.source <= k.resumable[id].version
  }

  ghost predicate CacheOk(k: Link) {
    && k.seen <= k.arrived && k.source <= k.arrived
    && (k.client.latestState.Some? ==>
          && k.seen <= k.source < |k.history|
          && k.client.latestState.value.isStreaming == k.history[k.source])
  }

  ghost predicate LogsOk(k: Link) {
    && NonDecreasing(k.sources) && (forall i :: 0 <= i < |k.sources| ==> k.sources[i] <= k.source)
    && NonDecreasing(k.applied)
    && (forall i, j :: 0 <= i < j < |k.applied| ==> k.applied[i] < k.applied[j])
    && (forall i :: 0 <= i < |k.applied| ==> k.applied[i] <= k.client.lastAppliedStateRequestId)
    && k.client.lastAppliedStateRequestId == (if k.applied == [] then 0 else k.applied[|k.applied|-1])
  }

  ghost predicate Channels(lines: seq<Line>, requests: seq<nat>, history: seq<bool>, arrived: nat, arrivedId: nat,
      seen: nat, next: nat) {
    && history != []
    && TimeOrdered(lines, arrived, |history| - 1) && Truthful(lines, history)
    && Complete(lines, seen, |history| - 1)
    && IdOrdered(lines, requests, arrivedId, next)
  }

  ghost predicate ChannelInv(k: Link) {
    Channels(k.toClient, k.toBackend, k.history, k.arrived, k.arrivedId, k.seen, k.client.nextStateRequestId)
  }

  ghost predicate ClientInv(k: Link) {
    && AnswersOrdered(k.resumable, k.arrived, k.arrivedId) && AnswersTruthful(k.resumable, k.history)
    && RevisionsOk(k) && ApplicableFresh(k) && CacheOk(k) && LogsOk(k)
  }

  ghost predicate Inv(k: Link) {
    ChannelInv(k) && ClientInv(k)
  }

  // ------------------------------------------------------------------
  // Every action keeps the invariant
  // ------------------------------------------------------------------

  lemma SendKeepsTime(lines: seq<Line>, arrived: nat, version: nat, line: Line)
    requires TimeOrdered(lines, arrived, version)
    requires version <= line.version && (line.Lifecycle? ==> version < line.version)
    ensures TimeOrdered(lines + [line], arrived, line.version)
  {
  }

  lemma SendKeepsComplete(lines: seq<Line>, seen: nat, version: nat, line: Line)
    requires Complete(lines, seen, version)
    requires line.version == version || line.Lifecycle?
    ensures Complete(lines + [line], seen, line.version)
  {
    var lines' := lines + [line];
    if line.version != version {
      assert lines'[|lines|] == line;
    } else if seen != version {
      var i :| 0 <= i < |lines| && lines[i].Lifecycle? && lines[i].version == version;
      assert lines'[i] == lines[i];
    }
  }

  lemma TransitionKeepsChannels(lines: seq<Line>, requests: seq<nat>, history: seq<bool>, arrived: nat, arrivedId: nat,
      seen: nat, next: nat, streaming: bool)
    requires Channels(lines, requests, history, arrived, arrivedId, seen, next)
    ensures Channels(lines + [Lifecycle(streaming, |history|)], requests, history + [streaming],
                     arrived, arrivedId, seen, next)
  {
    var line := Lifecycle(streaming, |history|);
    SendKeepsTime(lines, arrived, |history| - 1, line);
    SendKeepsComplete(lines, seen, |history| - 1, line);
  }

  lemma TransitionKeepsClient(k: Link, streaming: bool)
    requires ClientInv(k) && k.arrived < |k.history|
    ensures ClientInv(Transition(k, streaming))
  {
  }

  lemma TransitionKeepsInv(k: Link, streaming: bool)
    requires Inv(k)
    ensures Inv(Transition(k, streaming))
  {
    TransitionKeepsChannels(k.toClient, k.toBackend, k.history, k.arrived, k.arrivedId, k.seen,
                            k.client.nextStateRequestId, streaming);
    TransitionKeepsClient(k, streaming);
  }

  lemma AnswerKeepsIds(lines: seq<Line>, requests: seq<nat>, arrivedId: nat, next: nat, line: Line)
    requires requests != [] && IdOrdered(lines, requests, arrivedId, next)
    requires line.Reply? && line.id == requests[0]
    ensures IdOrdered(lines + [line], requests[1..], arrivedId, next)
  {
  }

  lemma AnswerKeepsInv(k: Link, ok: bool, rest: nat)
    requires Inv(k) && k.toBackend != []
    ensures Inv(Answer(k, ok, rest))
  {
    var k' := Answer(k, ok, rest);
    var line := k'.toClient[|k.toClient|];
    SendKeepsTime(k.toClient, k.arrived, Version(k), line);
    SendKeepsComplete(k.toClient, k.seen, Version(k), line);
    AnswerKeepsIds(k.toClient, k.toBackend, k.arrivedId, k.client.nextStateRequestId, line);
    assert Truthful(k'.toClient, k'.history);
  }

  lemma AskKeepsInv(k: Link)
    requires Inv(k)
    ensures Inv(Ask(k))
  {
  }

  lemma ArriveKeepsTime(lines: seq<Line>, arrived: nat, version: nat)
    requires lines != [] && TimeOrdered(lines, arrived, version)
    ensures TimeOrdered(lines[1..], lines[0].version, version)
  {
  }

  lemma ArriveKeepsComplete(lines: seq<Line>, arrived: nat, seen: nat, version: nat)
    requires lines != [] && Complete(lines, seen, version) && TimeOrdered(lines, arrived, version) && seen <= arrived
    ensures Complete(lines[1..], if lines[0].Lifecycle? then lines[0].version else seen, version)
  {
    if seen != version {
      var i :| 0 <= i < |lines| && lines[i].Lifecycle? && lines[i].version == version;
      if i > 0 { assert lines[1..][i - 1] == lines[i]; }
    } else {
      assert lines[0].Reply?;
    }
  }

  lemma ArriveKeepsIds(lines: seq<Line>, requests: seq<nat>, arrivedId: nat, next: nat)
    requires lines != [] && IdOrdered(lines, requests, arrivedId, next)
    ensures IdOrdered(lines[1..], requests, if lines[0].Reply? then lines[0].id else arrivedId, next)
  {
  }

  /** The client's part when a transition is announced, before it may ask again. */
  lemma EventKeepsClient(k: Link, streaming: bool, version: nat)
    requires ClientInv(k) && k.arrived < version < |k.history| && k.history[version] == streaming
    ensures ClientInv(Announce(k, streaming, version))
  {
  }

  lemma ReplyKeepsClient(k: Link, id: nat, state: Option<AgentState>, version: nat)
    requires ClientInv(k) && k.arrived <= version < |k.history| && k.arrivedId < id
    requires state.Some? ==> state.value.isStreaming == k.history[version]
    ensures ClientInv(ArriveReply(k, id, state, version))
  {
  }

  /** What the channels look like once the first line is taken off. */
  lemma ArriveKeepsChannels(lines: seq<Line>, requests: seq<nat>, history: seq<bool>, arrived: nat, arrivedId: nat,
      seen: nat, next: nat)
    requires Channels(lines, requests, history, arrived, arrivedId, seen, next) && lines != [] && seen <= arrived
    ensures Channels(lines[1..], requests, history, lines[0].version,
                     if lines[0].Reply? then lines[0].id else arrivedId,
                     if lines[0].Lifecycle? then lines[0].version else seen, next)
  {
    ArriveKeepsTime(lines, arrived, |history| - 1);
    ArriveKeepsComplete(lines, arrived, seen, |history| - 1);
    ArriveKeepsIds(lines, requests, arrivedId, next);
  }

  lemma AnnouncementKeepsClient(k: Link)
    requires ClientInv(k) && k.toClient != [] && k.toClient[0].Lifecycle?
    requires k.arrived < k.toClient[0].version < |k.history|
        && k.history[k.toClient[0].version] == k.toClient[0].streaming
    ensures ClientInv(Announce(k.(toClient := k.toClient[1..]), k.toClient[0].streaming, k.toClient[0].version))
  {
    EventKeepsClient(k.(toClient := k.toClient[1..]), k.toClient[0].streaming, k.toClient[0].version);
  }

  lemma AnnouncementKeepsInv(k: Link)
    requires Inv(k) && k.toClient != [] && k.toClient[0].Lifecycle?
    ensures Inv(Announce(k.(toClient := k.toClient[1..]), k.toClient[0].streaming, k.toClient[0].version))
  {
    ArriveKeepsChannels(k.toClient, k.toBackend, k.history, k.arrived, k.arrivedId, k.seen,
        k.client.nextStateRequestId);
    AnnouncementKeepsClient(k);
  }

  lemma EventArrivalKeepsInv(k: Link)
    requires Inv(k) && k.toClient != [] && k.toClient[0].Lifecycle?
    ensures Inv(Arrive(k))
  {
    AnnouncementKeepsInv(k);
    AskKeepsInv(Announce(k.(toClient := k.toClient[1..]), k.toClient[0].streaming, k.toClient[0].version));
  }

  lemma ReplyArrivalKeepsInv(k: Link)
    requires Inv(k) && k.toClient != [] && k.toClient[0].Reply?
    ensures Inv(Arrive(k))
  {
    var Reply(id, state, version) := k.toClient[0];
    var k1 := k.(toClient := k.toClient[1..]);
    ArriveKeepsChannels(k.toClient, k.toBackend, k.history, k.arrived, k.arrivedId, k.seen,
        k.client.nextStateRequestId);
    ReplyKeepsClient(k1, id, state, version);
  }

  lemma ContinueKeepsAnswers(k: Link, id: nat)
    requires ClientInv(k) && id in k.resumable
    ensures var k' := Continue(k, id);
      && AnswersOrdered(k'.resumable, k'.arrived, k'.arrivedId) && AnswersTruthful(k'.resumable, k'.history)
      && RevisionsOk(k') && ApplicableFresh(k')
  {
  }

  lemma ContinueKeepsCache(k: Link, id: nat)
    requires ClientInv(k) && id in k.resumable && k.resumable[id].version < |k.history|
    ensures var k' := Continue(k, id); CacheOk(k') && LogsOk(k')
  {
  }

  lemma ContinueKeepsInv(k: Link, id: nat)
    requires Inv(k) && id in k.resumable
    ensures Inv(Continue(k, id))
  {
    ContinueKeepsAnswers(k, id);
    ContinueKeepsCache(k, id);
  }

  lemma StepKeepsInv(k: Link, a: Action)
    requires Inv(k)
    ensures Inv(Apply(k, a))
  {
    match a
    case BackendTransition(streaming) => TransitionKeepsInv(k, streaming);
    case BackendAnswers(ok, rest) => if k.toBackend != [] { AnswerKeepsInv(k, ok, rest); }
    case LineArrives =>
      if k.toClient != [] {
        if k.toClient[0].Lifecycle? { EventArrivalKeepsInv(k); } else { ReplyArrivalKeepsInv(k); }
      }
    case RefreshState => AskKeepsInv(k);
    case Resume(id) => if id in k.resumable { ContinueKeepsInv(k, id); }
    case RequestFails(id) =>
    case StopBegins =>
    case StopEnds =>
  }

  lemma {:induction false} ExecKeepsInv(start: AgentState, schedule: seq<Action>)
    ensures Inv(Exec(start, schedule))
  {
    if schedule != [] {
      ExecKeepsInv(start, schedule[..|schedule|-1]);
      StepKeepsInv(Exec(start, schedule[..|schedule|-1]), schedule[|schedule|-1]);
    }
  }

  // ------------------------------------------------------------------
  // Main results, for every schedule
  // ------------------------------------------------------------------

  /**
   * The cached streaming flag never goes back in backend time, whatever the delay of
   * the continuations, and applied request ids strictly increase.
   */
  lemma CacheNeverGoesBack(start: AgentState, schedule: seq<Action>)
    ensures var k := Exec(start, schedule);
      && NonDecreasing(k.sources)
      && (forall i, j :: 0 <= i < j < |k.applied| ==> k.applied[i] < k.applied[j])
  {
    ExecKeepsInv(start, schedule);
  }

  /** The cached flag is the backend's at the flag's time, and no seen transition is newer. */
  lemma CacheIsTrue(start: AgentState, schedule: seq<Action>)
    ensures var k := Exec(start, schedule);
      k.client.latestState.Some? ==>
        k.seen <= k.source < |k.history| && k.client.latestState.value.isStreaming == k.history[k.source]
  {
    ExecKeepsInv(start, schedule);
  }

  lemma CaughtUp(k: Link)
    requires Inv(k) && k.running && forall i :: 0 <= i < |k.toClient| ==> !k.toClient[i].Lifecycle?
    ensures k.client.latestState.Some? && k.client.latestState.value.isStreaming == k.history[Version(k)]
  {
  }

  /** Once every lifecycle line has arrived, a running client's cached flag is the backend's own. */
  lemma CacheCatchesUp(start: AgentState, schedule: seq<Action>)
    ensures var k := Exec(start, schedule);
      k.running && (forall i :: 0 <= i < |k.toClient| ==> !k.toClient[i].Lifecycle?) ==>
        k.client.latestState.Some? && k.client.latestState.value.isStreaming == k.history[Version(k)]
  {
    hide Exec, Inv;
    ExecKeepsInv(start, schedule);
    var k := Exec(start, schedule);
    if k.running && (forall i :: 0 <= i < |k.toClient| ==> !k.toClient[i].Lifecycle?) { CaughtUp(k); }
  }

  /**
   * A fresh answer is never lost: if no transition has arrived since its request was made
   * and no later request's answer has been applied, its continuation applies it.
   */
  lemma FreshAnswerIsApplied(start: AgentState, schedule: seq<Action>, id: nat)
    requires var k := Exec(start, schedule);
      && id in k.resumable && k.resumable[id].state.Some?
      && k.resumable[id].revision == k.client.lifecycleRevision
      && (forall i :: 0 <= i < |k.applied| ==> k.applied[i] < id)
    ensures var k := Exec(start, schedule);
      var k' := Exec(start, schedule + [Resume(id)]);
      k'.client.latestState == k.resumable[id].state && k'.applied == k.applied + [id]
          && k'.source == k.resumable[id].version
  {
    ExecKeepsInv(start, schedule);
    assert (schedule + [Resume(id)])[..|schedule|] == schedule;
  }

  /** Any other answer changes nothing. */
  lemma OtherAnswerIsDropped(start: AgentState, schedule: seq<Action>, id: nat)
    requires var k := Exec(start, schedule);
      && id in k.resumable
      && (|| k.resumable[id].state.None? || k.resumable[id].revision != k.client.lifecycleRevision
          || exists i :: 0 <= i < |k.applied| && k.applied[i] >= id)
    ensures var k := Exec(start, schedule);
      Exec(start, schedule + [Resume(id)]) == k.(resumable := k.resumable - {id})
  {
    ExecKeepsInv(start, schedule);
    assert (schedule + [Resume(id)])[..|schedule|] == schedule;
  }

  /** The first refresh of an idle link is applied. */
  lemma FirstRefreshIsApplied(start: AgentState, rest: nat)
    ensures var k := Exec(start, [RefreshState, BackendAnswers(true, rest), LineArrives, Resume(1)]);
      k.client.latestState == Some(AgentState(start.isStreaming, rest)) && k.applied == [1]
  {
    var a := [RefreshState, BackendAnswers(true, rest), LineArrives, Resume(1)];
    assert a[..3] == [a[0], a[1], a[2]];
    assert a[..3][..2] == [a[0], a[1]];
    assert a[..3][..2][..1] == [a[0]];
    var k0 := Started(start);
    var k1 := Apply(k0, a[0]);
    assert k1.toBackend == [1];
    var k2 := Apply(k1, a[1]);
    assert k2.toClient == [Reply(1, Some(AgentState(start.isStreaming, rest)), 0)];
    var k3 := Apply(k2, a[2]);
    assert Exec(start, [a[0]]) == k1;
    assert Exec(start, a[..3][..2]) == k2;
    assert Exec(start, a[..3]) == k3;
    assert Exec(start, a) == Apply(k3, a[3]);
  }

  /** Request `id` has been made, and nothing waits for its answer any more. */
  predicate Forgotten(k: Link, id: nat) {
    id <= k.client.nextStateRequestId && id !in k.waiting && id !in k.resumable
  }

  lemma StepStaysForgotten(k: Link, a: Action, id: nat)
    requires k.history != [] && Forgotten(k, id)
    ensures Forgotten(Apply(k, a), id)
    ensures Apply(k, a).applied == k.applied
            || (Apply(k, a).applied == k.applied + [Apply(k, a).client.lastAppliedStateRequestId]
                && Apply(k, a).client.lastAppliedStateRequestId != id)
  {
    match a
    case BackendTransition(_) =>
    case BackendAnswers(_, _) =>
    case LineArrives =>
    case RefreshState =>
    case Resume(_) =>
    case RequestFails(_) =>
    case StopBegins =>
    case StopEnds =>
  }

  lemma {:induction false} ForgottenIsNeverApplied(start: AgentState, schedule: seq<Action>, more: seq<Action>, id: nat)
    requires Forgotten(Exec(start, schedule), id)
    ensures Forgotten(Exec(start, schedule + more), id)
    ensures id in Exec(start, schedule + more).applied ==> id in Exec(start, schedule).applied
  {
    if more == [] {
      assert schedule + more == schedule;
    } else {
      var init, last := more[..|more|-1], more[|more|-1];
      ForgottenIsNeverApplied(start, schedule, init, id);
      assert (schedule + more)[..|schedule + more|-1] == schedule + init;
      assert (schedule + more)[|schedule + more|-1] == last;
      hide Apply, Forgotten;
      StepStaysForgotten(Exec(start, schedule + init), last, id);
    }
  }

  /** A request is waiting, resumable or applied, and only one of these. */
  ghost predicate InOnePlace(k: Link) {
    && (forall id :: id in k.waiting ==> id <= k.client.nextStateRequestId && id !in k.resumable && id !in k.applied)
    && (forall id :: id in k.resumable ==> id <= k.client.nextStateRequestId)
    && (forall id :: id in k.applied ==> id <= k.client.nextStateRequestId)
  }

  lemma AskKeepsPlaces(k: Link)
    requires InOnePlace(k)
    ensures InOnePlace(Ask(k))
  {
  }

  lemma AnnounceKeepsPlaces(k: Link, streaming: bool, version: nat)
    requires InOnePlace(k)
    ensures InOnePlace(Announce(k, streaming, version))
  {
  }

  lemma ReplyKeepsPlaces(k: Link, id: nat, state: Option<AgentState>, version: nat)
    requires InOnePlace(k)
    ensures InOnePlace(ArriveReply(k, id, state, version))
  {
  }

  lemma ContinueKeepsPlaces(k: Link, id: nat)
    requires InOnePlace(k) && id in k.resumable
    ensures InOnePlace(Continue(k, id))
  {
  }

  lemma ArriveKeepsPlaces(k: Link)
    requires InOnePlace(k) && k.toClient != []
    ensures InOnePlace(Arrive(k))
  {
    var k1 := k.(toClient := k.toClient[1..]);
    assert InOnePlace(k1);
    hide InOnePlace, Ask, Announce, ArriveReply;
    match k.toClient[0]
    case Lifecycle(streaming, version) =>
      AnnounceKeepsPlaces(k1, streaming, version);
      AskKeepsPlaces(Announce(k1, streaming, version));
    case Reply(id, state, version) => ReplyKeepsPlaces(k1, id, state, version);
  }

  lemma StepKeepsPlaces(k: Link, a: Action)
    requires k.history != [] && InOnePlace(k)
    ensures InOnePlace(Apply(k, a))
  {
    hide Ask, Arrive, Continue;
    match a
    case BackendTransition(_) =>
    case BackendAnswers(_, _) =>
    case LineArrives => if k.toClient != [] { ArriveKeepsPlaces(k); }
    case RefreshState => AskKeepsPlaces(k);
    case Resume(id) => if id in k.resumable { ContinueKeepsPlaces(k, id); }
    case RequestFails(_) =>
    case StopBegins =>
    case StopEnds =>
  }

  lemma {:induction false} EachInOnePlace(start: AgentState, schedule: seq<Action>)
    ensures InOnePlace(Exec(start, schedule))
  {
    if schedule != [] {
      EachInOnePlace(start, schedule[..|schedule|-1]);
      hide Apply, InOnePlace;
      StepKeepsPlaces(Exec(start, schedule[..|schedule|-1]), schedule[|schedule|-1]);
    }
  }

  /** A request that failed, or was pending at a stop, is not applied whatever arrives later. */
  lemma FailedRequestIsNeverApplied(start: AgentState, schedule: seq<Action>, more: seq<Action>, id: nat, stop: bool)
    requires id in Exec(start, schedule).waiting
    ensures var fails := if stop then StopBegins else RequestFails(id);
      id !in Exec(start, schedule + [fails] + more).applied
  {
    var fails := if stop then StopBegins else RequestFails(id);
    assert (schedule + [fails])[..|schedule|] == schedule;
    EachInOnePlace(start, schedule);
    ForgottenIsNeverApplied(start, schedule + [fails], more, id);
  }

  /** A lifecycle line sets the cached flag and nothing else of the cached state. */
  lemma LineSetsFlag(start: AgentState, schedule: seq<Action>)
    requires Exec(start, schedule).toClient != [] && Exec(start, schedule).toClient[0].Lifecycle?
    ensures var k := Exec(start, schedule);
      var k' := Exec(start, schedule + [LineArrives]);
      && k'.client.lifecycleRevision == k.client.lifecycleRevision + 1
      && k'.client.latestState ==
         if k.client.latestState.None? then None
         else Some(AgentState(k.toClient[0].streaming, k.client.latestState.value.rest))
  {
    assert (schedule + [LineArrives])[..|schedule|] == schedule;
  }

  /** After a stop no delayed continuation writes the cache again. */
  lemma StopSilences(start: AgentState, schedule: seq<Action>, id: nat)
    ensures var k := Exec(start, schedule);
      !k.running && id in k.resumable ==> Continue(k, id).client == k.client
  {
    ExecKeepsInv(start, schedule);
  }

  /**
   * The revision check is needed: this delayed answer is older than the cache, its id is
   * newer than any applied one, and only the check keeps it from overwriting the cache.
   */
  lemma DelayedAnswerIsStale(start: AgentState)
    ensures
      var k := Exec(start, [RefreshState, BackendAnswers(true, start.rest), LineArrives,
                            BackendTransition(!start.isStreaming), LineArrives]);
      && 1 in k.resumable && k.resumable[1].version < k.source
      && k.resumable[1].state.Some? && k.client.lastAppliedStateRequestId < 1
      && Continue(k, 1).client == k.client
  {
    var a := [RefreshState, BackendAnswers(true, start.rest), LineArrives,
              BackendTransition(!start.isStreaming), LineArrives];
    assert a[..4] == [a[0], a[1], a[2], a[3]];
    assert a[..4][..3] == [a[0], a[1], a[2]];
    assert a[..4][..3][..2] == [a[0], a[1]];
    assert a[..4][..3][..2][..1] == [a[0]];
    var k0 := Started(start);
    var k1 := Apply(k0, a[0]);
    assert k1.toBackend == [1];
    var k2 := Apply(k1, a[1]);
    assert k2.toClient == [Reply(1, Some(start), 0)];
    var k3 := Apply(k2, a[2]);
    var k4 := Apply(k3, a[3]);
    assert k4.toClient == [Lifecycle(!start.isStreaming, 1)];
    var k5 := Apply(k4, a[4]);
    assert Exec(start, [a[0]]) == k1;
    assert Exec(start, a[..4][..3][..2]) == k2;
    assert Exec(start, a[..4][..3]) == k3;
    assert Exec(start, a[..4]) == k4;
    assert Exec(start, a) == k5;
  }

  // ------------------------------------------------------------------
  // The object
  // ------------------------------------------------------------------

  /** The newest applied request decides. */
  lemma AppliesIfNewest(k: Link, id: nat)
    requires k.history != [] && Inv(k) && id in k.resumable
    ensures id > k.client.lastAppliedStateRequestId <==> forall i :: i in k.applied ==> i < id
  {
    if k.applied != [] { assert k.applied[|k.applied|-1] in k.applied; }
  }

  lemma ResumeChanges(k: Link, id: nat)
    requires k.history != [] && id in k.resumable
    ensures var k', answer := Apply(k, Resume(id)), k.resumable[id];
      && k'.running == k.running && k'.history == k.history
      && if answer.state.Some? && answer.revision == k.client.lifecycleRevision
            && id > k.client.lastAppliedStateRequestId
         then
           && k'.client == k.client.(lastAppliedStateRequestId := id, latestState := answer.state)
           && k'.applied == k.applied + [id]
         else k'.client == k.client && k'.applied == k.applied
  {
  }

  /** What happens without the client doing anything: the backend moves, an answer arrives, a request fails. */
  predicate Environmental(k: Link, a: Action) {
    || a.BackendTransition? || a.BackendAnswers? || a.RequestFails?
    || (a.LineArrives? && k.toClient != [] && k.toClient[0].Reply?)
  }

  lemma EnvironmentLeavesClient(k: Link, a: Action)
    requires k.history != [] && Environmental(k, a)
    ensures Apply(k, a).client == k.client && Apply(k, a).running == k.running
  {
  }

  /** The cache-related part of `PiBackend`, updated in place. */
  class PiBackend {
    var latestState: Option<AgentState>
    var lifecycleRevision: nat
    var nextStateRequestId: nat
    var lastAppliedStateRequestId: nat
    var hasClient: bool
    ghost var link: Link    // this client, its backend and the channels between them

    ghost function View(): Client
      reads this
    {
      Client(latestState, lifecycleRevision, nextStateRequestId, lastAppliedStateRequestId)
    }

    /** The fields are the client of a link that meets the protocol's invariant. */
    ghost predicate Valid()
      reads this
    {
      link.history != [] && Inv(link) && link.client == View() && link.running == hasClient
    }

    constructor (state: AgentState)
      ensures Valid() && link == Started(state)
    {
      latestState, lifecycleRevision, nextStateRequestId, lastAppliedStateRequestId := Some(state), 0, 0, 0;
      hasClient, link := true, Started(state);
    }

    /** Everything around the client. */
    ghost method Environment(a: Action)
      requires Valid() && Environmental(link, a)
      modifies this`link
      ensures Valid() && link == Apply(old(link), a)
    {
      hide Inv, Apply, Environmental;
      StepKeepsInv(link, a);
      ApplyKeepsHistory(link, a);
      EnvironmentLeavesClient(link, a);
      link := Apply(link, a);
    }

    /** `refreshState` up to its await. */
    method BeginRefreshState() returns (request: Option<(nat, nat)>)
      requires Valid()
      modifies this`nextStateRequestId, this`link
      ensures Valid() && link == Apply(old(link), RefreshState)
      ensures request == if hasClient then Some((lifecycleRevision, nextStateRequestId)) else None
      ensures request.Some? ==> request.value.1 in link.waiting && link.waiting[request.value.1] == request.value.0
    {
      hide Inv;
      StepKeepsInv(link, RefreshState);
      link := Apply(link, RefreshState);
      if !hasClient { return None; }
      nextStateRequestId := nextStateRequestId + 1;
      return Some((lifecycleRevision, nextStateRequestId));
    }

    /** `refreshState` after its await; `emitted` says whether `state_changed` was emitted. */
    method EndRefreshState(revision: nat, requestId: nat, answer: Option<AgentState>) returns (emitted: bool)
      requires Valid() && requestId in link.resumable
      requires link.resumable[requestId].revision == revision && link.resumable[requestId].state == answer
      modifies this`latestState, this`lastAppliedStateRequestId, this`link
      ensures Valid() && link == Apply(old(link), Resume(requestId))
      ensures emitted <==>
          answer.Some? && revision == old(lifecycleRevision) && forall id :: id in old(link).applied ==> id < requestId
      ensures latestState == if emitted then answer else old(latestState)
      ensures link.applied == if emitted then old(link).applied + [requestId] else old(link).applied
    {
      AppliesIfNewest(link, requestId);
      ResumeChanges(link, requestId);
      StepKeepsInv(link, Resume(requestId));
      hide Inv, Apply;
      link := Apply(link, Resume(requestId));
      if answer.None? { return false; }
      if revision != lifecycleRevision || requestId <= lastAppliedStateRequestId { return false; }
      lastAppliedStateRequestId := requestId;
      latestState := answer;
      return true;
    }

    /** `applyEventToCache` on `agent_started` and `agent_stopped`; a stop asks for the state again. */
    method ApplyEventToCache(started: bool) returns (request: Option<(nat, nat)>)
      requires Valid() && link.toClient != [] && link.toClient[0].Lifecycle? && link.toClient[0].streaming == started
      modifies this`latestState, this`lifecycleRevision, this`nextStateRequestId, this`link
      ensures Valid() && link == Apply(old(link), LineArrives)
      ensures request == if !started && hasClient then Some((lifecycleRevision, nextStateRequestId)) else None
      ensures old(latestState).None? ==> latestState == None
      ensures old(latestState).Some? ==> latestState == Some(AgentState(started, old(latestState).value.rest))
    {
      hide Inv;
      ghost var announced :=
        Announce(link.(toClient := link.toClient[1..]), started, link.toClient[0].version);
      AnnouncementKeepsInv(link);
      link := announced;
      lifecycleRevision := lifecycleRevision + 1;
      latestState := if latestState.Some? then Some(latestState.value.(isStreaming := started)) else None;
      request := None;
      if !started { request := BeginRefreshState(); }
    }

    /** `stop` up to its await: later answers carry an older revision. */
    method BeginStop()
      requires Valid()
      modifies this`lifecycleRevision, this`hasClient, this`link
      ensures Valid() && link == Apply(old(link), StopBegins)
      ensures !hasClient && latestState == old(latestState)
    {
      hide Inv;
      StepKeepsInv(link, StopBegins);
      link := Apply(link, StopBegins);
      lifecycleRevision := lifecycleRevision + 1;
      hasClient := false;
    }

    /** `stop` after its await. */
    method EndStop()
      requires Valid() && !hasClient
      modifies this`latestState, this`link
      ensures Valid() && link == Apply(old(link), StopEnds) && latestState == None
    {
      hide Inv;
      StepKeepsInv(link, StopEnds);
      link := Apply(link, StopEnds);
      latestState := None;
    }
  }

  /** The object's cached flag is the backend's at `source`, and its latest if no transition is on its way. */
  lemma ObjectCacheIsTrue(b: PiBackend)
    requires b.Valid()
    ensures b.latestState.Some? ==>
      && b.link.seen <= b.link.source < |b.link.history|
      && b.latestState.value.isStreaming == b.link.history[b.link.source]
    ensures b.hasClient && (forall i :: 0 <= i < |b.link.toClient| ==> !b.link.toClient[i].Lifecycle?) ==>
      b.latestState.Some? && b.latestState.value.isStreaming == b.link.history[Version(b.link)]
    ensures NonDecreasing(b.link.sources)
  {
    if b.hasClient && (forall i :: 0 <= i < |b.link.toClient| ==> !b.link.toClient[i].Lifecycle?) {
      CaughtUp(b.link);
    }
  }
}
