/** inferneo/engine/scheduler.py as functions on a value. */
module SchedulerSpec {
  import opened Util
  import opened Hashing
  import opened BlockPoolSpec
  import opened BlockManagerSpec
  import opened RequestSpec

  datatype Config = Config(
    blockSize: nat,
    maxNumSeqs: int,
    maxBatched: int,
    threshold: int,
    maxModelLen: nat)

  /** ScheduledRequest: one request's work for one step. */
  datatype Item = Item(
    id: Id,
    chunk: seq<Token>,
    start: nat,
    table: seq<BlockId>,
    doSample: bool,
    isNew: bool,
    params: Option<Params>,
    promptLen: nat,
    cachedPrefix: seq<Token>)

  datatype Output = Output(scheduled: seq<Item>, preempted: seq<Id>, finished: seq<Id>)

  datatype Sched = Sched(
    reqs: map<Id, Req>,
    waiting: seq<Id>,
    running: seq<Id>,
    finished: seq<Id>,
    kv: KV)

  /** schedule()'s local variables together with the scheduler's own state. */
  datatype Work = Work(
    s: Sched,
    budget: int,
    out: seq<Item>,
    preempted: seq<Id>,
    blocked: bool)

  /** Queued ids are known, and the KV manager's ids are inside its pool. */
  ghost predicate Wf(s: Sched) {
    && (forall id :: id in s.waiting ==> id in s.reqs)
    && (forall id :: id in s.running ==> id in s.reqs)
    && KvShaped(s.kv)
  }

  /** The number of physical blocks, which nothing changes. */
  function PoolSize(s: Sched): nat {
    |s.kv.pool.refs|
  }

  // ------------------------------------------------------------------ request lifecycle

  function AddRequest(s: Sched, id: Id, r: Req): Option<Sched> {
    if id in s.reqs then None
    else Some(s.(reqs := s.reqs[id := r], waiting := s.waiting + [id]))
  }

  function Finish(s: Sched, id: Id): Sched {
    s.(reqs := s.reqs - {id}, finished := s.finished + [id])
  }

  function Abort(s: Sched, id: Id): Sched
    requires Wf(s)
  {
    if id !in s.reqs || s.reqs[id].status.Finished() then s
    else if s.reqs[id].status == Running then
      Finish(s.(running := Remove(s.running, id), kv := FreeRequest(s.kv, id)), id)
    else
      Finish(s.(waiting := Remove(s.waiting, id)), id)
  }

  function HasUnfinished(s: Sched): bool {
    s.waiting != [] || s.running != []
  }

  // ------------------------------------------------------------------ order

  /** max over (priority, -arrival): the first greatest. */
  function Top(reqs: map<Id, Req>, ids: seq<Id>): (t: Id)
    requires ids != [] && forall id :: id in ids ==> id in reqs
    ensures t in ids
  {
    if |ids| == 1 then ids[0]
    else
      assert forall id :: id in ids[1..] ==> id in ids;
      var t := Top(reqs, ids[1..]);
      assert t in ids && ids[0] in ids;
      if Outranks(reqs[t], reqs[ids[0]]) then t else ids[0]
  }

  /** min over (priority, -arrival): the first least. */
  function Lowest(reqs: map<Id, Req>, ids: seq<Id>): (t: Id)
    requires ids != [] && forall id :: id in ids ==> id in reqs
    ensures t in ids
  {
    if |ids| == 1 then ids[0]
    else
      assert forall id :: id in ids[1..] ==> id in ids;
      var t := Lowest(reqs, ids[1..]);
      assert t in ids && ids[0] in ids;
      if Outranks(reqs[ids[0]], reqs[t]) then t else ids[0]
  }

  function MinPriority(reqs: map<Id, Req>, ids: seq<Id>): int
    requires ids != [] && forall id :: id in ids ==> id in reqs
  {
    assert ids[0] in ids && forall id :: id in ids[1..] ==> id in ids;
    if |ids| == 1 then reqs[ids[0]].priority
    else Min(reqs[ids[0]].priority, MinPriority(reqs, ids[1..]))
  }

  /** Stable insertion ahead of everything x is not outranked by. */
  function Insert(reqs: map<Id, Req>, x: Id, ids: seq<Id>): (r: seq<Id>)
    requires x in reqs && forall id :: id in ids ==> id in reqs
    ensures multiset(r) == multiset(ids) + multiset{x}
    ensures forall id :: id in r <==> id == x || id in ids
  {
    if ids == [] then [x]
    else
      assert ids == [ids[0]] + ids[1..];
      assert ids[0] in ids;
      if Outranks(reqs[ids[0]], reqs[x]) then [ids[0]] + Insert(reqs, x, ids[1..]) else [x] + ids
  }

  /** waiting.sort(key = (-priority, arrival)). */
  function Sort(reqs: map<Id, Req>, ids: seq<Id>): (r: seq<Id>)
    requires forall id :: id in ids ==> id in reqs
    ensures multiset(r) == multiset(ids)
    ensures forall id :: id in r <==> id in ids
  {
    if ids == [] then []
    else
      assert ids == [ids[0]] + ids[1..];
      assert ids[0] in ids;
      Insert(reqs, ids[0], Sort(reqs, ids[1..]))
  }

  // ------------------------------------------------------------------ schedule

  function Preempt(s: Sched, id: Id): (r: Sched)
    requires Wf(s) && id in s.reqs
    ensures Wf(r) && r.running == s.running && PoolSize(r) == PoolSize(s)
  {
    s.(kv := FreeRequest(s.kv, id),
       reqs := s.reqs[id := s.reqs[id].(status := Preempted, computed := 0)],
       waiting := s.waiting + [id])
  }

  /** The eviction loop of _preempt_for_priority. */
  function EvictLoop(cfg: Config, s: Sched, top: Id, preempted: seq<Id>): (r: (Sched, seq<Id>))
    requires Wf(s) && top in s.reqs
    ensures Wf(r.0) && PoolSize(r.0) == PoolSize(s)
    decreases |s.running|
  {
    if |s.running| >= cfg.maxNumSeqs && s.running != [] && s.reqs[top].priority > MinPriority(s.reqs, s.running) then
      var victim := Lowest(s.reqs, s.running);
      EvictLoop(cfg, Preempt(s.(running := Remove(s.running, victim)), victim), top, preempted + [victim])
    else (s, preempted)
  }

  function PreemptForPriority(cfg: Config, s: Sched): (r: (Sched, seq<Id>))
    requires Wf(s)
    ensures Wf(r.0) && PoolSize(r.0) == PoolSize(s)
  {
    if s.waiting == [] then (s, []) else EvictLoop(cfg, s, Top(s.reqs, s.waiting), [])
  }

  function MakeScheduled(s: Sched, id: Id, n: nat, isNew: bool): Item
    requires id in s.reqs
  {
    var r := s.reqs[id];
    Item(id,
         Slice(r.Tokens(), r.computed, r.computed + n),
         r.computed,
         TableOf(s.kv, id),
         r.computed + n == r.NumTokens(),
         isNew,
         if isNew then Some(r.params) else None,
         if isNew then |r.prompt| else 0,
         if isNew then Slice(r.Tokens(), 0, r.computed) else [])
  }

  /** Pop the most recently admitted running request and preempt it. */
  function PopVictim(w: Work): (r: Work)
    requires Wf(w.s) && w.s.running != []
    ensures Wf(r.s) && |r.s.running| == |w.s.running| - 1 && PoolSize(r.s) == PoolSize(w.s)
  {
    var victim := w.s.running[|w.s.running| - 1];
    assert victim in w.s.running;
    var rest := w.s.running[..|w.s.running| - 1];
    assert forall id :: id in rest ==> id in w.s.running;
    w.(s := Preempt(w.s.(running := rest), victim), preempted := w.preempted + [victim], blocked := true)
  }

  /** The inner loop of phase 1: allocate for id, preempting from the back until it fits
      or id itself was preempted. The flag says whether id got its slots. */
  function Squeeze(cfg: Config, w: Work, id: Id, n: nat): (r: (Work, bool))
    requires cfg.blockSize > 0 && Wf(w.s) && id in w.s.running
    ensures Wf(r.0.s) && |r.0.s.running| <= |w.s.running| && (r.1 ==> id in r.0.s.running)
    ensures PoolSize(r.0.s) == PoolSize(w.s)
    decreases |w.s.running|
  {
    var r := w.s.reqs[id];
    var (kv, got) := AllocateSlots(w.s.kv, cfg.blockSize, id, r.Tokens(), r.computed, n, []);
    var w1 := w.(s := w.s.(kv := kv));
    if got.Some? then (w1, true)
    else
      var w2 := PopVictim(w1);
      if w.s.running[|w.s.running| - 1] == id then (w2, false)
      else
        assert id in w2.s.running;
        Squeeze(cfg, w2, id, n)
  }

  function Grant(w: Work, id: Id, n: nat, isNew: bool): (r: Work)
    requires Wf(w.s) && id in w.s.reqs
    ensures Wf(r.s) && r.s == w.s
  {
    w.(budget := w.budget - n, out := w.out + [MakeScheduled(w.s, id, n, isNew)])
  }

  /** Phase 1: running requests from position idx on. */
  function RunPhase(cfg: Config, w: Work, idx: nat): (r: Work)
    requires cfg.blockSize > 0 && Wf(w.s)
    ensures Wf(r.s) && PoolSize(r.s) == PoolSize(w.s)
    decreases |w.s.running| - idx
  {
    if idx < |w.s.running| && w.budget > 0 then
      var id := w.s.running[idx];
      var n := Min(w.s.reqs[id].NumTokens() - w.s.reqs[id].computed, w.budget);
      // the source asserts 0 < n here
      if n <= 0 then w
      else
        var (w1, ok) := Squeeze(cfg, w, id, n);
        if ok then RunPhase(cfg, Grant(w1, id, n, false), idx + 1) else w1
    else w
  }

  /** The number of new tokens phase 2 offers the request at the head of the queue. */
  function AdmitTokens(cfg: Config, r: Req, cached: nat, budget: int): int {
    var n := r.NumTokens() - cached;
    Min(if cfg.threshold > 0 then Min(n, cfg.threshold) else n, budget)
  }

  function Admit(w: Work, id: Id, kv: KV, cached: nat): (r: Work)
    requires Wf(w.s) && id in w.s.reqs && KvShaped(kv) && w.s.waiting != []
    ensures Wf(r.s) && id in r.s.reqs && r.s.waiting == w.s.waiting[1..] && r.s.kv == kv
  {
    assert forall x :: x in w.s.waiting[1..] ==> x in w.s.waiting;
    w.(s := w.s.(waiting := w.s.waiting[1..],
                 running := w.s.running + [id],
                 reqs := w.s.reqs[id := w.s.reqs[id].(status := Running, computed := cached)],
                 kv := kv))
  }

  /** Phase 2: admissions in queue order. The flag is false when the source raises. */
  function AdmitPhase(cfg: Config, w: Work): (r: (Work, bool))
    requires cfg.blockSize > 0 && Wf(w.s)
    ensures Wf(r.0.s) && PoolSize(r.0.s) == PoolSize(w.s)
    decreases |w.s.waiting|
  {
    if !w.blocked && w.s.waiting != [] && w.budget > 0 && |w.s.running| < cfg.maxNumSeqs then
      var id := w.s.waiting[0];
      assert id in w.s.waiting;
      var r := w.s.reqs[id];
      var (kv1, hits, cached) := GetComputed(w.s.kv, cfg.blockSize, r.Tokens());
      var n := AdmitTokens(cfg, r, cached, w.budget);
      // the source asserts 0 < n here
      if n <= 0 then (w, true)
      else
        var (kv2, got) := AllocateSlots(kv1, cfg.blockSize, id, r.Tokens(), r.computed, n, hits);
        if got.None? then (w.(s := w.s.(kv := kv2)), w.s.running != [] || w.out != [])
        else AdmitPhase(cfg, Grant(Admit(w, id, kv2, cached), id, n, true))
    else (w, true)
  }

  /** schedule(): None when it raises RuntimeError. */
  function Schedule(cfg: Config, s: Sched): (r: (Sched, Option<Output>))
    requires cfg.blockSize > 0 && Wf(s)
    ensures Wf(r.0) && PoolSize(r.0) == PoolSize(s)
  {
    var (s0, evicted) := PreemptForPriority(cfg, s.(finished := []));
    var w1 := RunPhase(cfg, Work(s0, cfg.maxBatched, [], evicted, false), 0);
    var w2 := SortPhase(w1);
    var (w3, ok) := AdmitPhase(cfg, w2);
    (w3.s, if ok then Some(Output(w3.out, w3.preempted, s.finished)) else None)
  }

  function SortPhase(w: Work): (r: Work)
    requires Wf(w.s)
    ensures Wf(r.s) && PoolSize(r.s) == PoolSize(w.s)
  {
    if w.blocked || w.s.waiting == [] then w
    else w.(s := w.s.(waiting := Sort(w.s.reqs, w.s.waiting)))
  }

  // ------------------------------------------------------------------ update_from_output

  ghost predicate Settled(s: Sched) {
    Wf(s) && Distinct(s.running)
  }

  /** One iteration: advance the request, append its token, finish it when it stops. */
  function UpdateOne(cfg: Config, s: Sched, it: Item, sampled: map<Id, Token>): (r: (Sched, seq<(Id, Req)>))
    requires Settled(s) && (it.doSample ==> it.id in sampled) && it.id !in s.waiting
    ensures Settled(r.0) && r.0.waiting == s.waiting && PoolSize(r.0) == PoolSize(s)
  {
    if it.id !in s.reqs || s.reqs[it.id].status.Finished() then (s, [])
    else
      var r1 := s.reqs[it.id].(computed := s.reqs[it.id].computed + |it.chunk|);
      if !it.doSample then (s.(reqs := s.reqs[it.id := r1]), [])
      else
        var r2 := r1.(output := r1.output + [sampled[it.id]]);
        match CheckStop(r2, cfg.maxModelLen)
        case None => (s.(reqs := s.reqs[it.id := r2]), [(it.id, r2)])
        case Some(status) => (FinishRunning(s, it.id), [(it.id, r2.(status := status))])
  }

  function FinishRunning(s: Sched, id: Id): (r: Sched)
    requires Settled(s) && id !in s.waiting
    ensures Settled(r) && r.waiting == s.waiting && PoolSize(r) == PoolSize(s)
  {
    RemoveDistinct(s.running, id);
    Finish(s.(running := Remove(s.running, id), kv := FreeRequest(s.kv, id)), id)
  }

  /** update_from_output: the new state and the requests that produced a token. */
  function Update(cfg: Config, s: Sched, items: seq<Item>, sampled: map<Id, Token>): (r: (Sched, seq<(Id, Req)>))
    requires Settled(s) && forall it :: it in items ==> it.id !in s.waiting && (it.doSample ==> it.id in sampled)
    ensures Settled(r.0) && PoolSize(r.0) == PoolSize(s)
    decreases |items|
  {
    if items == [] then (s, [])
    else
      assert items[0] in items && forall it :: it in items[1..] ==> it in items;
      var (s1, u1) := UpdateOne(cfg, s, items[0], sampled);
      var (s2, u2) := Update(cfg, s1, items[1..], sampled);
      (s2, u1 + u2)
  }
}
