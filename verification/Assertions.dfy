/** What the scheduler and the KV manager assert on their way through schedule(),
    update_from_output() and abort(): work to do, cache hits for empty tables only, a reference
    for every release, and a place in the running list for everyone removed from it. */
module Assertions {
  import opened Util
  import opened Hashing
  import opened BlockPoolSpec
  import opened BlockManagerSpec
  import opened RequestSpec
  import opened SchedulerSpec

  /** Releasing the blocks in turn is never a double free. */
  ghost predicate Returnable(p: Pool, bs: seq<BlockId>)
    requires Shaped(p) && InPool(p, bs)
    decreases |bs|
  {
    bs == [] ||
      (assert bs[0] in bs && forall b :: b in bs[1..] ==> b in bs;
       p.refs[bs[0]] > 0 && Returnable(Release(p, bs[0]), bs[1..]))
  }

  /** free() */
  ghost predicate FreeAsserts(kv: KV, id: Id)
    requires KvShaped(kv)
  {
    Returnable(kv.pool, Reverse(TableOf(kv, id)))
  }

  /** get_computed_blocks() */
  ghost predicate LookupAsserts(kv: KV, bs: nat, tokens: seq<Token>)
    requires bs > 0 && KvShaped(kv)
  {
    kv.pool.caching ==>
      var (p, found) := LookupRun(kv.pool, bs, tokens, [], NoHash);
      found != [] && |found| * bs == |tokens| ==>
        var b := found[|found| - 1];
        assert b in found;
        p.refs[b] > 0
  }

  /** allocate_slots() */
  ghost predicate AllocateAsserts(kv: KV, bs: nat, id: Id, computed: nat, n: nat, hits: seq<BlockId>)
    requires bs > 0 && KvShaped(kv) && InPool(kv.pool, hits)
  {
    && (TableOf(kv, id) == [] || hits == [])
    && (FreshNeeded(kv, bs, id, computed, n, hits) > |kv.pool.free| ==> Returnable(kv.pool, hits))
  }

  /** _preempt_for_priority() */
  ghost predicate EvictAsserts(cfg: Config, s: Sched, top: Id)
    requires Wf(s) && top in s.reqs
    decreases |s.running|
  {
    |s.running| >= cfg.maxNumSeqs && s.running != [] && s.reqs[top].priority > MinPriority(s.reqs, s.running) ==>
      var victim := Lowest(s.reqs, s.running);
      FreeAsserts(s.kv, victim) && EvictAsserts(cfg, Preempt(s.(running := Remove(s.running, victim)), victim), top)
  }

  /** The inner loop of phase 1. */
  ghost predicate SqueezeAsserts(cfg: Config, w: Work, id: Id, n: nat)
    requires cfg.blockSize > 0 && Wf(w.s) && id in w.s.running
    decreases |w.s.running|
  {
    var r := w.s.reqs[id];
    var (kv, got) := AllocateSlots(w.s.kv, cfg.blockSize, id, r.Tokens(), r.computed, n, []);
    var w1 := w.(s := w.s.(kv := kv));
    var victim := w.s.running[|w.s.running| - 1];
    && AllocateAsserts(w.s.kv, cfg.blockSize, id, r.computed, n, [])
    && (got.None? ==>
          && FreeAsserts(kv, victim)
          && (victim != id ==> assert id in PopVictim(w1).s.running; SqueezeAsserts(cfg, PopVictim(w1), id, n)))
  }

  /** Phase 1. */
  ghost predicate RunAsserts(cfg: Config, w: Work, idx: nat)
    requires cfg.blockSize > 0 && Wf(w.s)
    decreases |w.s.running| - idx
  {
    idx < |w.s.running| && w.budget > 0 ==>
      var id := w.s.running[idx];
      var n := Min(w.s.reqs[id].NumTokens() - w.s.reqs[id].computed, w.budget);
      && n > 0
      && SqueezeAsserts(cfg, w, id, n)
      && var (w1, ok) := Squeeze(cfg, w, id, n);
      ok ==> RunAsserts(cfg, Grant(w1, id, n, false), idx + 1)
  }

  /** Phase 2. */
  ghost predicate AdmitAsserts(cfg: Config, w: Work)
    requires cfg.blockSize > 0 && Wf(w.s)
    decreases |w.s.waiting|
  {
    !w.blocked && w.s.waiting != [] && w.budget > 0 && |w.s.running| < cfg.maxNumSeqs ==>
      var id := w.s.waiting[0];
      assert id in w.s.waiting;
      var r := w.s.reqs[id];
      var (kv1, hits, cached) := GetComputed(w.s.kv, cfg.blockSize, r.Tokens());
      var n := AdmitTokens(cfg, r, cached, w.budget);
      && LookupAsserts(w.s.kv, cfg.blockSize, r.Tokens())
      && n > 0
      && AllocateAsserts(kv1, cfg.blockSize, id, r.computed, n, hits)
      && var (kv2, got) := AllocateSlots(kv1, cfg.blockSize, id, r.Tokens(), r.computed, n, hits);
      got.Some? ==> AdmitAsserts(cfg, Grant(Admit(w, id, kv2, cached), id, n, true))
  }

  /** schedule() */
  ghost predicate ScheduleAsserts(cfg: Config, s: Sched)
    requires cfg.blockSize > 0 && Wf(s)
  {
    var (s0, evicted) := PreemptForPriority(cfg, s.(finished := []));
    var w0 := Work(s0, cfg.maxBatched, [], evicted, false);
    && (s.waiting != [] ==> EvictAsserts(cfg, s.(finished := []), Top(s.reqs, s.waiting)))
    && RunAsserts(cfg, w0, 0)
    && AdmitAsserts(cfg, SortPhase(RunPhase(cfg, w0, 0)))
  }

  /** update_from_output() */
  ghost predicate UpdateAsserts(cfg: Config, s: Sched, items: seq<Item>, sampled: map<Id, Token>)
    requires Settled(s) && forall it :: it in items ==> it.id !in s.waiting && (it.doSample ==> it.id in sampled)
    decreases |items|
  {
    items != [] ==>
      assert items[0] in items && forall it :: it in items[1..] ==> it in items;
      && (items[0].id in s.reqs && items[0].id !in UpdateOne(cfg, s, items[0], sampled).0.reqs ==>
            items[0].id in s.running && FreeAsserts(s.kv, items[0].id))
      && UpdateAsserts(cfg, UpdateOne(cfg, s, items[0], sampled).0, items[1..], sampled)
  }

  /** abort() */
  ghost predicate AbortAsserts(s: Sched, id: Id)
    requires Wf(s)
  {
    id in s.reqs && s.reqs[id].status == Running ==> id in s.running && FreeAsserts(s.kv, id)
  }
}
