/** Runs of the engine: any interleaving of additions, aborts and steps. */
module EngineRun {
  import opened Util
  import opened Hashing
  import opened BlockPoolSpec
  import opened BlockManagerSpec
  import opened BlockManagerInv
  import opened AllocationInv
  import opened RequestSpec
  import opened SchedulerSpec
  import opened SchedulerInv
  import opened SchedulePhases
  import opened UpdateStep
  import opened Assertions
  import opened AssertionsHold
  import opened Model
  import opened ForwardCorrect
  import opened LabelInv
  import opened BatchReadiness
  import opened RunnerSpec
  import opened GraphSpec
  import opened EngineSpec
  import opened EngineInv
  import opened EngineSafe
  import opened Endings
  import opened EngineStep

  // ------------------------------------------------------------------ the empty engine

  function NewEngine(numBlocks: nat, caching: bool, caches: seq<seq<KVal>>, graphs: Option<Graphs>): Engine {
    Engine(Sched(map[], [], [], [], KV(NewPool(numBlocks, caching), map[], map[])),
           Runner(map[], map[], caches, graphs), 0, {})
  }

  lemma NewEngineInv(net: Net, cfg: Config, size: nat, numBlocks: nat, caching: bool, caches: seq<seq<KVal>>, graphs: Option<Graphs>, book: Book)
    requires cfg.blockSize > 0 && cfg.maxBatched > 0
    requires CachesOk(net, caches, size) && numBlocks * cfg.blockSize <= size && GraphsFit(graphs, numBlocks, cfg.blockSize, size)
    ensures EInv(net, cfg, size, NewEngine(numBlocks, caching, caches, graphs), Labels(map[], book))
  {
    var e := NewEngine(numBlocks, caching, caches, graphs);
    NewPoolOk(numBlocks, caching);
    assert KvOk(e.s.kv, cfg.blockSize, []) by {
      forall b | 0 <= b < numBlocks ensures e.s.kv.pool.refs[b] == |Holders(e.s.kv.tables, b)| {
        assert Holders(e.s.kv.tables, b) == {};
      }
    }
    assert LInv(net, Held(e), cfg, e.s, [], Labels(map[], book));
  }

  // ------------------------------------------------------------------ add_request

  lemma AddSched(cfg: Config, s: Sched, id: Id, r: Req)
    requires SInv(cfg, s, []) && id !in s.reqs
    requires Admissible(r, cfg.maxModelLen) && r.output == [] && r.status == Waiting && r.computed == 0
    requires forall x :: x in s.reqs ==> s.reqs[x].arrival != r.arrival
    ensures SInv(cfg, s.(reqs := s.reqs[id := r], waiting := s.waiting + [id]), [])
    ensures RowsKept(s, s.(reqs := s.reqs[id := r], waiting := s.waiting + [id]))
  {
    hide Rows, Filling, Statuses, Bounded, Arrivals;
    var s' := s.(reqs := s.reqs[id := r], waiting := s.waiting + [id]);
    AddLists(cfg, s, id, r);
    RowsSame(cfg, s, s', []);
    FillingFewer(s, s', cfg.blockSize);
  }

  lemma AddLists(cfg: Config, s: Sched, id: Id, r: Req)
    requires Lists(s) && Statuses(s) && Bounded(cfg, s) && Arrivals(s) && id !in s.reqs
    requires Admissible(r, cfg.maxModelLen) && r.output == [] && r.status == Waiting && r.computed == 0
    requires forall x :: x in s.reqs ==> s.reqs[x].arrival != r.arrival
    ensures var s' := s.(reqs := s.reqs[id := r], waiting := s.waiting + [id]); Lists(s') && Statuses(s') && Bounded(cfg, s') && Arrivals(s')
  {
    var s' := s.(reqs := s.reqs[id := r], waiting := s.waiting + [id]);
    DistinctAppend(s.waiting, id);
    forall x | x in s'.reqs ensures StatusOk(s', x) { if x != id { assert StatusOk(s, x); } }
  }

  /** Running requests and the KV manager are untouched. */
  ghost predicate RowsKept(s: Sched, s': Sched) {
    && s'.kv == s.kv && s'.running == s.running
    && forall id :: id in s.running ==> id in s.reqs && id in s'.reqs && s'.reqs[id] == s.reqs[id]
  }

  lemma KeptLabels(net: Net, media: Media, media': Media, cfg: Config, s: Sched, s': Sched, labels: Labels)
    requires LInv(net, media, cfg, s, [], labels) && RowsKept(s, s') && MediaOk(net, cfg.blockSize, s', media', labels.book)
    requires forall id :: id in s.running ==> EmbedsOf(media', id) == EmbedsOf(media, id)
    ensures LInv(net, media', cfg, s', [], labels)
  {
    hide Inputs, HashWant;
    forall id, i: nat, o: nat | id in s'.running ensures RunReadyAt(net, media', s', [], cfg.blockSize, labels, id, i, o) {
      assert RunReadyAt(net, media, s, [], cfg.blockSize, labels, id, i, o);
      KeptReady(s, s', cfg.blockSize, labels);
    }
    forall b: nat, o: nat ensures HashReadyAt(s', [], cfg.blockSize, labels, b, o) {
      assert HashReadyAt(s, [], cfg.blockSize, labels, b, o);
      KeptReady(s, s', cfg.blockSize, labels);
    }
  }

  /** Between steps nothing is pending, so readiness is the labels alone. */
  lemma KeptReady(s: Sched, s': Sched, bs: nat, labels: Labels)
    ensures forall b: nat, o: nat, want: seq<Row> :: Ready(s, [], bs, labels, b, o, want) ==> Ready(s', [], bs, labels, b, o, want)
  {
    hide HasLabel;
    assert forall b: nat, o: nat, t: Id, j: nat :: !PendingAt(s, [], bs, b, o, t, j);
  }

  /** add_request's own length and parameter checks fail. */
  predicate Refused(cfg: Config, prompt: seq<Token>, params: Params) {
    !ValidParams(params) || prompt == [] || |prompt| >= cfg.maxModelLen
  }

  /** Bringing no embeddings is bringing none for any position. */
  function Given(embeds: Option<seq<Row>>): seq<Row> {
    match embeds
    case None => []
    case Some(rows) => rows
  }

  /** What the runner has under an id after an addition. */
  function Registered(media: Media, id: Id, embeds: Option<seq<Row>>): Media {
    match embeds
    case None => media
    case Some(rows) => media[id := rows]
  }

  /** The embeddings a request added now will run with. */
  function Received(e: Engine, id: Id, embeds: Option<seq<Row>>): seq<Row> {
    if id in e.s.finished then [] else EmbedsOf(Registered(e.r.embeds, id, embeds), id)
  }

  /** A new request runs with the embeddings it came with: an id still to be reported loses
      them to the report, and any other inherits what the runner holds unless it brings its own. */
  predicate Honest(e: Engine, id: Id, embeds: Option<seq<Row>>) {
    if id in e.s.finished then Given(embeds) == []
    else embeds.Some? || EmbedsOf(e.r.embeds, id) == []
  }

  /** A duplicate leaves the live request its embeddings. */
  predicate Harmless(e: Engine, id: Id, embeds: Option<seq<Row>>) {
    embeds.None? || id in e.s.finished || embeds.value == EmbedsOf(e.r.embeds, id)
  }

  predicate AddLegal(e: Engine, id: Id, embeds: Option<seq<Row>>) {
    if id in e.s.reqs then Harmless(e, id, embeds) else Honest(e, id, embeds)
  }

  /** Exactly when the new request runs with the embeddings it came with. */
  lemma HonestIff(cfg: Config, e: Engine, id: Id, prompt: seq<Token>, params: Params, eos: Option<Token>, priority: int, embeds: Option<seq<Row>>)
    requires !Refused(cfg, prompt, params) && id !in e.s.reqs
    ensures var e' := EngineSpec.AddRequest(cfg, e, id, prompt, params, eos, priority, embeds).0;
      && id in e'.s.reqs && EmbedsOf(Held(e'), id) == Received(e, id, embeds)
      && (EmbedsOf(Held(e'), id) == Given(embeds) <==> Honest(e, id, embeds))
  {
  }

  /** Exactly when a refused duplicate leaves the live request the embeddings it runs with. */
  lemma HarmlessIff(cfg: Config, e: Engine, id: Id, prompt: seq<Token>, params: Params, eos: Option<Token>, priority: int, embeds: Option<seq<Row>>)
    requires !Refused(cfg, prompt, params) && id in e.s.reqs
    ensures var (e', r) := EngineSpec.AddRequest(cfg, e, id, prompt, params, eos, priority, embeds);
      && r == Rejected && e'.s == e.s
      && (EmbedsOf(Held(e'), id) == EmbedsOf(Held(e), id) <==> Harmless(e, id, embeds))
  {
  }

  /** What keeps the invariant: a harmless duplicate, or, while caching is on, rows that agree
      with the book. */
  ghost predicate AddKeepable(net: Net, cfg: Config, e: Engine, id: Id, prompt: seq<Token>, embeds: Option<seq<Row>>, book: Book) {
    if id in e.s.reqs then Harmless(e, id, embeds)
    else e.s.kv.pool.caching ==> Respects(net, cfg.blockSize, book, Received(e, id, embeds), prompt)
  }

  lemma AddBase(net: Net, cfg: Config, size: nat, e: Engine, id: Id, prompt: seq<Token>, params: Params, eos: Option<Token>,
                priority: int, embeds: Option<seq<Row>>)
    requires EBase(net, cfg, size, e)
    ensures EBase(net, cfg, size, EngineSpec.AddRequest(cfg, e, id, prompt, params, eos, priority, embeds).0)
  {
    hide SInv, CachesOk;
    if !Refused(cfg, prompt, params) && id !in e.s.reqs {
      var r := NewRequest(prompt, params, eos, priority, e.clock);
      var e' := EngineSpec.AddRequest(cfg, e, id, prompt, params, eos, priority, embeds).0;
      AddSched(cfg, e.s, id, r);
      NotRunning(cfg, e.s, id);
      forall x | x in e'.s.running ensures MirrorAt(e'.s, e'.r.states, [], x) { assert MirrorAt(e.s, e.r.states, [], x); }
    }
  }

  lemma AddKeeps(net: Net, cfg: Config, size: nat, e: Engine, id: Id, prompt: seq<Token>, params: Params, eos: Option<Token>,
                 priority: int, embeds: Option<seq<Row>>, labels: Labels)
    requires EInv(net, cfg, size, e, labels)
    requires Refused(cfg, prompt, params) || AddKeepable(net, cfg, e, id, prompt, embeds, labels.book)
    ensures EInv(net, cfg, size, EngineSpec.AddRequest(cfg, e, id, prompt, params, eos, priority, embeds).0, labels)
  {
    hide SInv, LInv, AllClean, LabelsInside, OnStream, EBase, AddKeepable;
    AddBase(net, cfg, size, e, id, prompt, params, eos, priority, embeds);
    if !Refused(cfg, prompt, params) {
      var e' := EngineSpec.AddRequest(cfg, e, id, prompt, params, eos, priority, embeds).0;
      if id in e.s.reqs {
        DuplicateKept(net, cfg, size, e, id, embeds, labels, e', prompt);
      } else {
        BaseLive(net, cfg, size, e, id);
        AddLabels(net, cfg, e, e', id, NewRequest(prompt, params, eos, priority, e.clock), embeds, labels);
      }
    }
  }

  lemma BaseLive(net: Net, cfg: Config, size: nat, e: Engine, id: Id)
    requires EBase(net, cfg, size, e) && id !in e.s.reqs
    ensures id !in e.s.running && forall x :: x in e.s.running ==> x in e.s.reqs
  {
    hide Mirrored, IdsOk;
    NotRunning(cfg, e.s, id);
    RunningKnown(cfg, e.s, []);
  }

  lemma DuplicateKept(net: Net, cfg: Config, size: nat, e: Engine, id: Id, embeds: Option<seq<Row>>, labels: Labels, e': Engine, prompt: seq<Token>)
    requires EInv(net, cfg, size, e, labels) && id in e.s.reqs && AddKeepable(net, cfg, e, id, prompt, embeds, labels.book)
    requires e'.s == e.s && e'.r == e.r.(embeds := Registered(e.r.embeds, id, embeds))
    ensures LInv(net, Held(e'), cfg, e'.s, [], labels) && OnStream(net, cfg.maxModelLen, Held(e'), e'.s)
  {
    hide LInv, OnStream, EBase, AllClean;
    HeldAfter(net, cfg, e, e', labels);
  }

  lemma AddLabels(net: Net, cfg: Config, e: Engine, e': Engine, id: Id, r: Req, embeds: Option<seq<Row>>, labels: Labels)
    requires LInv(net, Held(e), cfg, e.s, [], labels) && OnStream(net, cfg.maxModelLen, Held(e), e.s)
    requires id !in e.s.reqs && id !in e.s.running && (forall x :: x in e.s.running ==> x in e.s.reqs)
    requires AddKeepable(net, cfg, e, id, r.prompt, embeds, labels.book) && r.output == [] && r.prompt != []
    requires e'.s == e.s.(reqs := e.s.reqs[id := r], waiting := e.s.waiting + [id])
    requires e'.r == e.r.(embeds := Registered(e.r.embeds, id, embeds))
    ensures LInv(net, Held(e'), cfg, e'.s, [], labels) && OnStream(net, cfg.maxModelLen, Held(e'), e'.s)
  {
    hide RunReady, HashReady, OnSoloStream, Respects;
    assert EmbedsOf(Held(e'), id) == Received(e, id, embeds);
    forall x | x != id ensures EmbedsOf(Held(e'), x) == EmbedsOf(Held(e), x) {}
    KeptLabels(net, Held(e), Held(e'), cfg, e.s, e'.s, labels);
    forall x | x in e'.s.reqs ensures StreamAt(net, cfg.maxModelLen, Held(e'), e'.s.reqs[x], x) {
      if x != id { assert StreamAt(net, cfg.maxModelLen, Held(e), e.s.reqs[x], x); }
      else { NewStream(net, cfg.maxModelLen, Held(e'), r, id); }
    }
  }

  lemma NotRunning(cfg: Config, s: Sched, id: Id)
    requires SInv(cfg, s, []) && id !in s.reqs
    ensures id !in s.running
  {
  }

  // ------------------------------------------------------------------ abort

  /** A request leaves: everyone else's row, tokens and count stay. */
  ghost predicate Leaves(s: Sched, s': Sched, id: Id) {
    && s'.kv.pool.hash == s.kv.pool.hash && s'.kv.pool.caching == s.kv.pool.caching
    && PoolSize(s') == PoolSize(s)
    && s'.reqs == s.reqs - {id}
    && s'.finished == s.finished + [id]
    && (forall x :: x in s'.running ==> x in s.running && x != id && TableOf(s'.kv, x) == TableOf(s.kv, x))
  }

  lemma AbortRunningInv(cfg: Config, s: Sched, id: Id)
    requires SInv(cfg, s, []) && Wf(s) && id in s.running
    ensures SInv(cfg, Abort(s, id), []) && Leaves(s, Abort(s, id), id)
  {
    hide Rows, Filling, FreeRequest, KvShaped, SameRow;
    var s' := Abort(s, id);
    assert StatusOk(s, id);
    assert s' == FinishRunning(s, id);
    AbortRow(cfg, s, id);
    FinishRows(cfg, s, [], id);
    SameTables(s.kv, s'.kv, s'.running);
    StatusesFewer(s, s');
    FillingFewer(s, s', cfg.blockSize);
  }

  lemma AbortRow(cfg: Config, s: Sched, id: Id)
    requires cfg.blockSize > 0 && Rows(cfg, s, []) && id in s.running
    ensures var kv' := FreeRequest(s.kv, id);
      kv'.pool.hash == s.kv.pool.hash && kv'.pool.caching == s.kv.pool.caching && |kv'.pool.refs| == |s.kv.pool.refs|
  {
    hide KvOk, TableOk;
    assert RowOk(cfg, s, [], id);
    RowDistinct(cfg, s, [], id);
    FreeRequestKv(s.kv, cfg.blockSize, id);
  }

  lemma AbortWaitingInv(cfg: Config, s: Sched, id: Id)
    requires SInv(cfg, s, []) && Wf(s) && id in s.waiting
    ensures SInv(cfg, Abort(s, id), []) && Leaves(s, Abort(s, id), id)
  {
    hide Rows, Filling, KvShaped, Bounded, Arrivals, Items;
    var s' := Abort(s, id);
    assert StatusOk(s, id);
    RemoveWithout(s.waiting, id);
    StatusesFewer(s, s');
    FewerBounded(cfg, s, s');
    RowsSame(cfg, s, s', []);
    FillingFewer(s, s', cfg.blockSize);
  }

  lemma FewerBounded(cfg: Config, s: Sched, s': Sched)
    requires Bounded(cfg, s) && Arrivals(s) && forall id :: id in s'.reqs ==> id in s.reqs && s'.reqs[id] == s.reqs[id]
    ensures Bounded(cfg, s') && Arrivals(s') && Items(s', [])
  {
  }

  lemma AbortCases(cfg: Config, s: Sched, id: Id)
    requires SInv(cfg, s, []) && Wf(s)
    ensures id !in s.reqs ==> Abort(s, id) == s
    ensures id in s.reqs ==> SInv(cfg, Abort(s, id), []) && Leaves(s, Abort(s, id), id)
  {
    hide Rows, Filling, Statuses, Bounded, Arrivals, Leaves, Abort;
    if id in s.reqs {
      if id in s.running { AbortRunningInv(cfg, s, id); } else { AbortWaitingInv(cfg, s, id); }
    } else {
      AbortUnknown(s, id);
    }
  }

  lemma AbortUnknown(s: Sched, id: Id)
    requires Wf(s) && id !in s.reqs
    ensures Abort(s, id) == s
  {
  }

  lemma LeaveLabels(net: Net, media: Media, cfg: Config, s: Sched, s': Sched, id: Id, labels: Labels)
    requires LInv(net, media, cfg, s, [], labels) && Leaves(s, s', id)
    ensures LInv(net, media, cfg, s', [], labels)
  {
    hide RunReady, HashReady;
    RunningReqs(net, media, cfg, s, labels);
    NothingGranted();
    StayLabels(net, media, cfg, s, s', [], labels);
  }

  lemma RunningReqs(net: Net, media: Media, cfg: Config, s: Sched, labels: Labels)
    requires RunReady(net, media, s, [], cfg.blockSize, labels)
    ensures forall id :: id in s.running ==> id in s.reqs
  {
    forall id | id in s.running ensures id in s.reqs { assert RunReadyAt(net, media, s, [], cfg.blockSize, labels, id, 0, 0); }
  }

  lemma NothingGranted()
    ensures forall id :: Granted([], id) == 0
  {
  }

  lemma AbortBase(net: Net, cfg: Config, size: nat, e: Engine, id: Id)
    requires EBase(net, cfg, size, e)
    ensures Wf(e.s) && AbortAsserts(e.s, id) && EBase(net, cfg, size, AbortRequest(e, id))
    ensures id !in e.s.reqs ==> AbortRequest(e, id) == e
    ensures id in e.s.reqs ==> Leaves(e.s, AbortRequest(e, id).s, id)
  {
    hide SInv, CachesOk, Abort, KvShaped, AbortAsserts;
    SInvWf(cfg, e.s, []);
    AbortHolds(cfg, e.s, id);
    AbortCases(cfg, e.s, id);
    if id in e.s.reqs {
      var s' := Abort(e.s, id);
      SameCacheSize(e.s, s', cfg.blockSize, size);
      forall x | x in s'.running ensures MirrorAt(s', e.r.states, [], x) { assert MirrorAt(e.s, e.r.states, [], x); }
    }
  }

  lemma AbortKeeps(net: Net, cfg: Config, size: nat, e: Engine, id: Id, labels: Labels)
    requires EInv(net, cfg, size, e, labels)
    ensures Wf(e.s) && AbortAsserts(e.s, id) && EInv(net, cfg, size, AbortRequest(e, id), labels)
  {
    hide EBase, SInv, AllClean, LabelsInside, LInv, StreamAt, Abort, KvShaped, HashReady, AbortAsserts;
    AbortBase(net, cfg, size, e, id);
    if id in e.s.reqs {
      var e' := AbortRequest(e, id);
      LeaveLabels(net, Held(e), cfg, e.s, e'.s, id, labels);
      HeldAfter(net, cfg, e, e', labels);
    }
  }

  // ------------------------------------------------------------------ runs

  datatype Event =
    | Add(id: Id, prompt: seq<Token>, params: Params, eos: Option<Token>, priority: int, embeds: Option<seq<Row>>)
    | AbortEvent(id: Id)
    | StepEvent

  ghost predicate Defined(net: Net, cfg: Config, size: nat, e: Engine, ev: Event) {
    match ev
    case Add(_, _, _, _, _, _) => true
    case AbortEvent(id) => Wf(e.s) && AbortAsserts(e.s, id)
    case StepEvent => StepDefined(net, cfg, e, size)
  }

  ghost function Apply(net: Net, cfg: Config, size: nat, e: Engine, ev: Event): (Engine, seq<(Id, Req)>)
    requires Defined(net, cfg, size, e, ev)
  {
    match ev
    case Add(id, prompt, params, eos, priority, embeds) =>
      (EngineSpec.AddRequest(cfg, e, id, prompt, params, eos, priority, embeds).0, [])
    case AbortEvent(id) => (AbortRequest(e, id), [])
    case StepEvent =>
      var r := Step(net, cfg, e, size);
      (r.0, if r.1.Outputs? then r.1.outputs else [])
  }

  /** states lists the engine before, between and after the events; outs what each handed back. */
  ghost predicate IsRun(net: Net, cfg: Config, size: nat, states: seq<Engine>, evs: seq<Event>, outs: seq<seq<(Id, Req)>>) {
    && |states| == |evs| + 1 && |outs| == |evs|
    && forall i :: 0 <= i < |evs| ==> RunStep(net, cfg, size, states, evs, outs, i)
  }

  ghost predicate RunStep(net: Net, cfg: Config, size: nat, states: seq<Engine>, evs: seq<Event>, outs: seq<seq<(Id, Req)>>, i: nat) {
    && i < |evs| == |outs| && |states| == |evs| + 1
    && (Defined(net, cfg, size, states[i], evs[i]) ==> (states[i + 1], outs[i]) == Apply(net, cfg, size, states[i], evs[i]))
  }

  lemma InitRun(net: Net, cfg: Config, size: nat, states: seq<Engine>, evs: seq<Event>, outs: seq<seq<(Id, Req)>>)
    requires IsRun(net, cfg, size, states, evs, outs) && evs != []
    ensures IsRun(net, cfg, size, states[..|states| - 1], evs[..|evs| - 1], outs[..|evs| - 1])
  {
    hide Apply, Defined;
    var n := |evs| - 1;
    var ss, es, os := states[..|states| - 1], evs[..n], outs[..n];
    forall i: nat | i < n ensures RunStep(net, cfg, size, ss, es, os, i) {
      assert RunStep(net, cfg, size, states, evs, outs, i);
    }
  }

  lemma EventSafe(net: Net, cfg: Config, size: nat, e: Engine, ev: Event)
    requires EBase(net, cfg, size, e)
    ensures Defined(net, cfg, size, e, ev) && EBase(net, cfg, size, Apply(net, cfg, size, e, ev).0)
  {
    hide EBase, StepDefined, Step, EngineSpec.AddRequest;
    match ev
    case Add(id, prompt, params, eos, priority, embeds) => AddBase(net, cfg, size, e, id, prompt, params, eos, priority, embeds);
    case AbortEvent(id) => AbortBase(net, cfg, size, e, id);
    case StepEvent => StepSafe(net, cfg, size, e);
  }

  /** Safety. In every run from an empty engine, whatever is added, aborted and stepped, with
      whatever ids, embeddings, limits, pool size and caching: no assertion of the source fires
      and no index leaves its tensor. */
  lemma {:induction false} RunsAreSafe(net: Net, cfg: Config, size: nat, numBlocks: nat, caching: bool, caches: seq<seq<KVal>>, graphs: Option<Graphs>,
                                       states: seq<Engine>, evs: seq<Event>, outs: seq<seq<(Id, Req)>>)
    requires cfg.blockSize > 0 && cfg.maxBatched > 0
    requires CachesOk(net, caches, size) && numBlocks * cfg.blockSize <= size && GraphsFit(graphs, numBlocks, cfg.blockSize, size)
    requires IsRun(net, cfg, size, states, evs, outs) && states[0] == NewEngine(numBlocks, caching, caches, graphs)
    ensures forall i :: 0 <= i < |states| ==> EBase(net, cfg, size, states[i])
    ensures forall i :: 0 <= i < |evs| ==> Defined(net, cfg, size, states[i], evs[i])
  {
    hide EBase, StepDefined, Apply, CachesOk;
    if evs == [] {
      NewEngineBase(net, cfg, size, numBlocks, caching, caches, graphs);
    } else {
      var n := |evs| - 1;
      InitRun(net, cfg, size, states, evs, outs);
      var ss := states[..|states| - 1];
      RunsAreSafe(net, cfg, size, numBlocks, caching, caches, graphs, ss, evs[..n], outs[..n]);
      assert forall i :: 0 <= i <= n ==> ss[i] == states[i];
      assert RunStep(net, cfg, size, states, evs, outs, n);
      EventSafe(net, cfg, size, states[n], evs[n]);
    }
  }

  lemma EventEndsRight(net: Net, cfg: Config, size: nat, e: Engine, ev: Event)
    requires EBase(net, cfg, size, e) && Defined(net, cfg, size, e, ev)
    ensures forall u :: u in Apply(net, cfg, size, e, ev).1 ==> EndsRight(u.1, cfg.maxModelLen)
  {
    hide EBase, StepDefined, Step, EngineSpec.AddRequest, AbortRequest, EndsRight;
    if ev.StepEvent? { StepEndsRight(net, cfg, size, e); }
  }

  /** In every run from an empty engine, whatever the embeddings and the caches: everything handed
      back has the status its own last token and lengths give it, and no token before it ended it. */
  lemma RunsEndRight(net: Net, cfg: Config, size: nat, numBlocks: nat, caching: bool, caches: seq<seq<KVal>>, graphs: Option<Graphs>,
                     states: seq<Engine>, evs: seq<Event>, outs: seq<seq<(Id, Req)>>)
    requires cfg.blockSize > 0 && cfg.maxBatched > 0
    requires CachesOk(net, caches, size) && numBlocks * cfg.blockSize <= size && GraphsFit(graphs, numBlocks, cfg.blockSize, size)
    requires IsRun(net, cfg, size, states, evs, outs) && states[0] == NewEngine(numBlocks, caching, caches, graphs)
    ensures forall i, u :: 0 <= i < |evs| && u in outs[i] ==> EndsRight(u.1, cfg.maxModelLen)
  {
    hide EBase, Defined, Apply, CachesOk, GraphsFit, EndsRight, NewEngine;
    RunsAreSafe(net, cfg, size, numBlocks, caching, caches, graphs, states, evs, outs);
    forall i, u | 0 <= i < |evs| && u in outs[i] ensures EndsRight(u.1, cfg.maxModelLen) {
      assert RunStep(net, cfg, size, states, evs, outs, i);
      EventEndsRight(net, cfg, size, states[i], evs[i]);
    }
  }

  lemma NewEngineBase(net: Net, cfg: Config, size: nat, numBlocks: nat, caching: bool, caches: seq<seq<KVal>>, graphs: Option<Graphs>)
    requires cfg.blockSize > 0 && cfg.maxBatched > 0
    requires CachesOk(net, caches, size) && numBlocks * cfg.blockSize <= size && GraphsFit(graphs, numBlocks, cfg.blockSize, size)
    ensures EBase(net, cfg, size, NewEngine(numBlocks, caching, caches, graphs))
  {
    hide EBase, NewEngine, CachesOk;
    NewEngineInv(net, cfg, size, numBlocks, caching, caches, graphs, ts => []);
  }

  /** Every list of events has its run. */
  lemma {:induction false} RunExists(net: Net, cfg: Config, size: nat, e: Engine, evs: seq<Event>)
      returns (states: seq<Engine>, outs: seq<seq<(Id, Req)>>)
    requires EBase(net, cfg, size, e)
    ensures IsRun(net, cfg, size, states, evs, outs) && states[0] == e
    ensures forall i :: 0 <= i < |evs| ==>
      Defined(net, cfg, size, states[i], evs[i]) && (states[i + 1], outs[i]) == Apply(net, cfg, size, states[i], evs[i])
    ensures forall i :: 0 <= i < |states| ==> EBase(net, cfg, size, states[i])
    decreases |evs|
  {
    hide EBase, Apply, Defined;
    if evs == [] {
      states, outs := [e], [];
    } else {
      EventSafe(net, cfg, size, e, evs[0]);
      var (e', us) := Apply(net, cfg, size, e, evs[0]);
      var later, more := RunExists(net, cfg, size, e', evs[1..]);
      states, outs := [e] + later, [us] + more;
      forall i: nat | i < |evs|
        ensures Defined(net, cfg, size, states[i], evs[i]) && (states[i + 1], outs[i]) == Apply(net, cfg, size, states[i], evs[i])
      {
        if i > 0 { assert RunStep(net, cfg, size, later, evs[1..], more, i - 1); assert evs[1..][i - 1] == evs[i]; }
      }
      forall i: nat | i < |evs| ensures RunStep(net, cfg, size, states, evs, outs, i) {}
    }
  }

  /** Nothing captures or drops a graph. */
  lemma EventGraphs(net: Net, cfg: Config, size: nat, e: Engine, ev: Event)
    requires Defined(net, cfg, size, e, ev)
    ensures Apply(net, cfg, size, e, ev).0.r.graphs == e.r.graphs
  {
    hide Schedule, Update, KvShaped, Settled, Abort, Executable, FeedAll, ForwardModel, SampleRows, Forwardable, SampleOk;
  }

  lemma {:induction false} RunGraphs(net: Net, cfg: Config, size: nat, states: seq<Engine>, evs: seq<Event>, outs: seq<seq<(Id, Req)>>, i: nat)
    requires IsRun(net, cfg, size, states, evs, outs) && i <= |evs|
    requires forall k :: 0 <= k < |evs| ==> Defined(net, cfg, size, states[k], evs[k])
    ensures states[i].r.graphs == states[0].r.graphs
    decreases i
  {
    hide Apply, Defined;
    if i > 0 {
      RunGraphs(net, cfg, size, states, evs, outs, i - 1);
      assert RunStep(net, cfg, size, states, evs, outs, i - 1);
      EventGraphs(net, cfg, size, states[i - 1], evs[i - 1]);
    }
  }
}
