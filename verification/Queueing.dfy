/** Who leaves the running list, who joins it and why the others wait, said of one call of
    schedule() by its result. */
module Queueing {
  import opened Util
  import opened Hashing
  import opened BlockPoolSpec
  import opened BlockManagerSpec
  import opened BlockManagerInv
  import opened RequestSpec
  import opened SchedulerSpec
  import opened SchedulerInv
  import opened SchedulePhases
  import opened AdmissionPhase
  import opened ScheduleStep
  import opened Sharing
  import opened Ranking

  // ------------------------------------------------------------------ who leaves

  /** Whoever left the running list is listed, and only who was in it. */
  ghost predicate Listed(w: Work, w': Work) {
    && (forall id :: id in w.s.running ==> id in w'.s.running || id in w'.preempted)
    && (forall id :: id in w.preempted ==> id in w'.preempted)
    && (forall id :: id in w'.preempted ==> id in w.preempted || id in w.s.running)
    && (forall id :: id in w'.s.running ==> id in w.s.running)
    && (w'.blocked && !w.blocked ==> exists id :: id in w.s.running && id in w'.preempted)
  }

  lemma ListedTrans(w: Work, w1: Work, w2: Work)
    requires Listed(w, w1) && Listed(w1, w2)
    ensures Listed(w, w2)
  {
  }

  lemma PopListed(w: Work)
    requires Wf(w.s) && w.s.running != []
    ensures Listed(w, PopVictim(w))
  {
    hide KvShaped, FreeRequest;
    var w' := PopVictim(w);
    var n := |w.s.running| - 1;
    assert w'.s.running == w.s.running[..n] && w.s.running == w.s.running[..n] + [w.s.running[n]];
    assert w.s.running[n] in w.s.running && w.s.running[n] in w'.preempted;
  }

  lemma {:induction false} SqueezeListed(cfg: Config, w: Work, id: Id, n: nat)
    requires cfg.blockSize > 0 && Wf(w.s) && id in w.s.running
    ensures Listed(w, Squeeze(cfg, w, id, n).0)
    decreases |w.s.running|
  {
    hide AllocateSlots, PopVictim, KvShaped;
    var r := w.s.reqs[id];
    var a := AllocateSlots(w.s.kv, cfg.blockSize, id, r.Tokens(), r.computed, n, []);
    var w1 := w.(s := w.s.(kv := a.0));
    if a.1.None? {
      PopListed(w1);
      var w2 := PopVictim(w1);
      if w.s.running[|w.s.running| - 1] != id {
        PopKeeps(w1, id);
        SqueezeListed(cfg, w2, id, n);
        ListedTrans(w1, w2, Squeeze(cfg, w2, id, n).0);
      }
    }
  }

  lemma PopKeeps(w: Work, id: Id)
    requires Wf(w.s) && id in w.s.running && w.s.running[|w.s.running| - 1] != id
    ensures id in PopVictim(w).s.running
  {
    hide KvShaped, FreeRequest;
  }

  lemma {:induction false} RunListed(cfg: Config, w: Work, idx: nat)
    requires cfg.blockSize > 0 && Wf(w.s)
    ensures Listed(w, RunPhase(cfg, w, idx))
    decreases |w.s.running| - idx
  {
    hide Squeeze, KvShaped, Listed, MakeScheduled;
    ListedSelf(w);
    if idx < |w.s.running| && w.budget > 0 {
      var id := w.s.running[idx];
      var n := Min(w.s.reqs[id].NumTokens() - w.s.reqs[id].computed, w.budget);
      if n > 0 {
        SqueezeListed(cfg, w, id, n);
        var q := Squeeze(cfg, w, id, n);
        if q.1 {
          var w2 := Grant(q.0, id, n, false);
          RunListed(cfg, w2, idx + 1);
          ListedSame(q.0, w2);
          ListedTrans(w, q.0, w2);
          ListedTrans(w, w2, RunPhase(cfg, w2, idx + 1));
        }
      }
    }
  }

  lemma ListedSelf(w: Work)
    ensures Listed(w, w)
  {
  }

  lemma ListedSame(w: Work, w': Work)
    requires w'.s == w.s && w'.preempted == w.preempted && w'.blocked == w.blocked
    ensures Listed(w, w')
  {
  }

  /** Whoever was preempted ran; whoever ran and runs no more was preempted. */
  ghost predicate Leavers(s: Sched, s': Sched, preempted: seq<Id>) {
    && (forall id :: id in s.running && id !in s'.running ==> id in preempted)
    && (forall id :: id in preempted ==> id in s.running)
  }

  lemma StageLeavers(cfg: Config, s: Sched)
    requires SInv(cfg, s, []) && Wf(s) && cfg.maxBatched >= 0 && cfg.blockSize > 0
    ensures var w := AdmitPhase(cfg, Stage2(cfg, s)).0;
      && Leavers(s, w.s, w.preempted)
      && forall id :: id in s.running && id !in Kept(cfg, s) ==> id in w.preempted
  {
    hide SInv, KvShaped, Stage2, AllComplete, AllButLast, AdmitPhase, PreemptForPriority, RunPhase, Listed, SameTokens, Sorted, Evicts, BudgetKept;
    Stage0Inv(cfg, s);
    Stage0Running(cfg, s);
    Stage2Inv(cfg, s);
    var w0, w1, w2 := Stage0(cfg, s), Stage1(cfg, s), Stage2(cfg, s);
    RunListed(cfg, w0, 0);
    AdmitPhaseInv(cfg, w2);
    JoinLeavers(s, if Evicts(cfg, s) then [Lowest(s.reqs, s.running)] else [], w0, w1, w2, AdmitPhase(cfg, w2).0);
  }

  lemma JoinLeavers(s: Sched, evicted: seq<Id>, w0: Work, w1: Work, w2: Work, w3: Work)
    requires Listed(w0, w1) && w0.preempted == evicted && Moved(w2, w3) && w2.s.running == w1.s.running && w2.preempted == w1.preempted
    requires evicted == [] ==> w0.s.running == s.running
    requires evicted != [] ==> |evicted| == 1 && evicted[0] in s.running && w0.s.running == Remove(s.running, evicted[0])
    ensures Leavers(s, w3.s, w3.preempted) && forall id :: id in s.running && id !in w1.s.running ==> id in w3.preempted
  {
    forall i | 0 <= i < |w1.s.running| ensures w1.s.running[i] in w3.s.running { assert w3.s.running[i] == w1.s.running[i]; }
  }

  /** The preempted went to the end of the queue as they were preempted. */
  ghost predicate Requeued(q: seq<Id>, w: Work) {
    w.s.waiting == q + w.preempted
  }

  lemma {:induction false} SqueezeRequeued(cfg: Config, q: seq<Id>, w: Work, id: Id, n: nat)
    requires cfg.blockSize > 0 && Wf(w.s) && id in w.s.running && Requeued(q, w)
    ensures Requeued(q, Squeeze(cfg, w, id, n).0)
    decreases |w.s.running|
  {
    hide AllocateSlots, KvShaped, FreeRequest;
    var r := w.s.reqs[id];
    var a := AllocateSlots(w.s.kv, cfg.blockSize, id, r.Tokens(), r.computed, n, []);
    var w1 := w.(s := w.s.(kv := a.0));
    if a.1.None? && w.s.running[|w.s.running| - 1] != id {
      PopKeeps(w1, id);
      SqueezeRequeued(cfg, q, PopVictim(w1), id, n);
    }
  }

  lemma {:induction false} RunRequeued(cfg: Config, q: seq<Id>, w: Work, idx: nat)
    requires cfg.blockSize > 0 && Wf(w.s) && Requeued(q, w)
    ensures Requeued(q, RunPhase(cfg, w, idx))
    decreases |w.s.running| - idx
  {
    hide Squeeze, KvShaped, MakeScheduled;
    if idx < |w.s.running| && w.budget > 0 {
      var id := w.s.running[idx];
      var n := Min(w.s.reqs[id].NumTokens() - w.s.reqs[id].computed, w.budget);
      if n > 0 {
        SqueezeRequeued(cfg, q, w, id, n);
        var r := Squeeze(cfg, w, id, n);
        if r.1 { RunRequeued(cfg, q, Grant(r.0, id, n, false), idx + 1); }
      }
    }
  }

  lemma StageRequeued(cfg: Config, s: Sched)
    requires SInv(cfg, s, []) && Wf(s) && cfg.maxBatched >= 0 && cfg.blockSize > 0
    ensures Requeued(s.waiting, Stage1(cfg, s))
  {
    hide SInv, KvShaped, PreemptForPriority, RunPhase, SameTokens, Evicts, WInv, FreeRequest;
    Stage0Inv(cfg, s);
    RunRequeued(cfg, s.waiting, Stage0(cfg, s), 0);
  }

  /** The preempted so far are off the list, marked, and to be computed anew. */
  ghost predicate Marked(w: Work) {
    && Distinct(w.s.running)
    && forall id :: id in w.preempted ==> id in w.s.reqs && id !in w.s.running && w.s.reqs[id].status == Preempted && w.s.reqs[id].computed == 0
  }

  lemma PopMarked(w: Work)
    requires Wf(w.s) && w.s.running != [] && Marked(w)
    ensures Marked(PopVictim(w))
  {
    hide KvShaped, FreeRequest;
    PopWithout(w.s.running);
  }

  lemma {:induction false} SqueezeMarked(cfg: Config, w: Work, id: Id, n: nat)
    requires cfg.blockSize > 0 && Wf(w.s) && id in w.s.running && Marked(w)
    ensures Marked(Squeeze(cfg, w, id, n).0)
    decreases |w.s.running|
  {
    hide AllocateSlots, PopVictim, KvShaped;
    var r := w.s.reqs[id];
    var a := AllocateSlots(w.s.kv, cfg.blockSize, id, r.Tokens(), r.computed, n, []);
    var w1 := w.(s := w.s.(kv := a.0));
    if a.1.None? {
      PopMarked(w1);
      if w.s.running[|w.s.running| - 1] != id {
        PopKeeps(w1, id);
        SqueezeMarked(cfg, PopVictim(w1), id, n);
      }
    }
  }

  lemma {:induction false} RunMarked(cfg: Config, w: Work, idx: nat)
    requires cfg.blockSize > 0 && Wf(w.s) && Marked(w)
    ensures Marked(RunPhase(cfg, w, idx))
    decreases |w.s.running| - idx
  {
    hide Squeeze, KvShaped, MakeScheduled;
    if idx < |w.s.running| && w.budget > 0 {
      var id := w.s.running[idx];
      var n := Min(w.s.reqs[id].NumTokens() - w.s.reqs[id].computed, w.budget);
      if n > 0 {
        SqueezeMarked(cfg, w, id, n);
        var q := Squeeze(cfg, w, id, n);
        if q.1 { RunMarked(cfg, Grant(q.0, id, n, false), idx + 1); }
      }
    }
  }

  lemma StageMarked(cfg: Config, s: Sched)
    requires SInv(cfg, s, []) && Wf(s) && cfg.maxBatched >= 0 && cfg.blockSize > 0
    ensures Marked(Stage2(cfg, s))
  {
    hide SInv, KvShaped, PreemptForPriority, RunPhase, SameTokens, Evicts, WInv, FreeRequest;
    Stage0Inv(cfg, s);
    RunningDistinct(cfg, s);
    if Evicts(cfg, s) { RemoveDistinct(s.running, Lowest(s.reqs, s.running)); }
    RunMarked(cfg, Stage0(cfg, s), 0);
  }

  lemma MovedMarked(w: Work, w': Work)
    requires Marked(w) && Moved(w, w') && forall id :: id in w'.preempted ==> id in w'.s.waiting
    ensures forall id :: id in w'.preempted ==> id in w'.s.reqs && w'.s.reqs[id].status == Preempted && w'.s.reqs[id].computed == 0
  {
    forall id | id in w'.preempted ensures id in w'.s.reqs && w'.s.reqs[id].status == Preempted && w'.s.reqs[id].computed == 0 {
      assert id in w.s.reqs.Keys;
    }
  }

  /** The preempted of a step are exactly those who ran before the call and wait after it, marked
      as preempted, with nothing computed. */
  lemma PreemptedExactly(cfg: Config, s: Sched)
    requires SInv(cfg, s, []) && Wf(s) && cfg.maxBatched >= 0 && cfg.blockSize > 0
    ensures var (s', o) := Schedule(cfg, s);
      o.Some? ==>
        && (forall id :: id in o.value.preempted <==> id in s.running && id in s'.waiting)
        && (forall id :: id in o.value.preempted ==> id in s'.reqs && s'.reqs[id].status == Preempted && s'.reqs[id].computed == 0)
  {
    hide SInv, KvShaped, Stage2, AdmitPhase, Schedule, SameTokens, Leavers, Marked;
    ScheduleStages(cfg, s);
    StageLeavers(cfg, s);
    StageMarked(cfg, s);
    Stage2Inv(cfg, s);
    ScheduleInv(cfg, s);
    PreemptedStayOut(cfg, s);
    var (s', o) := Schedule(cfg, s);
    if o.Some? {
      LeaversWait(cfg, s', o.value.scheduled, s, o.value.preempted);
      AdmitPhaseInv(cfg, Stage2(cfg, s));
      MovedMarked(Stage2(cfg, s), AdmitPhase(cfg, Stage2(cfg, s)).0);
    }
  }

  lemma LeaversWait(cfg: Config, s': Sched, out: seq<Item>, s: Sched, preempted: seq<Id>)
    requires SInv(cfg, s', out) && Leavers(s, s', preempted) && forall id :: id in preempted ==> id in s'.waiting
    ensures forall id :: id in preempted <==> id in s.running && id in s'.waiting
  {
    hide Rows, Filling, Items, Statuses, Bounded, Arrivals;
  }

  // ------------------------------------------------------------------ who joins

  /** The source's order in numbers: the higher priority, among equals the earlier arrival. */
  predicate Ahead(a: Req, b: Req) {
    a.priority > b.priority || (a.priority == b.priority && a.arrival < b.arrival)
  }

  lemma ShapeJoins(cfg: Config, s: Sched, s': Sched, out: seq<Item>, kept: seq<Id>, admitted: seq<Id>, a: Id, b: Id)
    requires Wf(s) && Shape(cfg, s, s', out, kept, admitted)
    requires b in s'.running && b !in s.running && a in s'.waiting && a in s'.reqs && b in s'.reqs
    ensures !Ahead(s'.reqs[a], s'.reqs[b])
  {
    var before := if Evicts(cfg, s) then Remove(s.running, Lowest(s.reqs, s.running)) else s.running;
    forall i | 0 <= i < |kept| ensures kept[i] in s.running { assert before[i] == kept[i] && before[i] in before; }
    var all := admitted + s'.waiting;
    var i :| 0 <= i < |admitted| && admitted[i] == b;
    var j :| 0 <= j < |s'.waiting| && s'.waiting[j] == a;
    assert all[i] == b && all[|admitted| + j] == a;
    assert !Outranks(s'.reqs[all[|admitted| + j]], s'.reqs[all[i]]);
  }

  /** Nobody who waits after the call, whether he waited before or was preempted in it, is ahead
      of anyone admitted in it. */
  lemma FirstCome(cfg: Config, s: Sched, a: Id, b: Id)
    requires SInv(cfg, s, []) && Wf(s) && cfg.maxBatched >= 0 && cfg.blockSize > 0
    requires var s' := Schedule(cfg, s).0; b in s'.running && b !in s.running && a in s'.waiting
    ensures a in s.reqs && b in s.reqs && !Ahead(s.reqs[a], s.reqs[b])
  {
    hide SInv, KvShaped, Schedule, AdmitPhase, Stage2, Shape, SameTokens, Ahead;
    ScheduleShape(cfg, s);
    ScheduleInv(cfg, s);
    var s' := Schedule(cfg, s).0;
    RankKept(s, s', a);
    RankKept(s, s', b);
    ShapeJoins(cfg, s, s', AdmitPhase(cfg, Stage2(cfg, s)).0.out, Kept(cfg, s), AdmittedIds(cfg, s), a, b);
    SameAhead(s.reqs[a], s.reqs[b], s'.reqs[a], s'.reqs[b]);
  }

  lemma RankKept(s: Sched, s': Sched, id: Id)
    requires SameTokens(s, s') && Wf(s') && (id in s'.running || id in s'.waiting)
    ensures id in s.reqs && id in s'.reqs && s'.reqs[id].priority == s.reqs[id].priority && s'.reqs[id].arrival == s.reqs[id].arrival
  {
    hide KvShaped;
    assert id in s'.reqs.Keys;
    RankSame(s, s', id);
  }

  lemma SameAhead(a: Req, b: Req, a': Req, b': Req)
    requires a'.priority == a.priority && a'.arrival == a.arrival && b'.priority == b.priority && b'.arrival == b.arrival
    ensures Ahead(a', b') <==> Ahead(a, b)
  {
  }

  // ------------------------------------------------------------------ why the others wait

  /** Tokens the first of the queue would be offered with this much budget left. */
  function Offer(cfg: Config, r: Req, cached: nat, budget: int): int {
    var left := |r.prompt| + |r.output| - cached;
    var n := if cfg.threshold > 0 && cfg.threshold < left then cfg.threshold else left;
    if budget < n then budget else n
  }

  /** With the cached blocks it would find, the first of the queue needs more than are free. */
  ghost predicate Short(cfg: Config, s: Sched, budget: int)
    requires cfg.blockSize > 0 && Wf(s) && s.waiting != []
  {
    var r := s.reqs[s.waiting[0]];
    var (kv, hits, cached) := GetComputed(s.kv, cfg.blockSize, r.Tokens());
    var n := Offer(cfg, r, cached, budget);
    n > 0 && CeilDiv(cached + n, cfg.blockSize) - |hits| > |kv.pool.free|
  }

  /** The lookup sees contents and counts only. */
  ghost predicate Alike(p: Pool, q: Pool) {
    p.refs == q.refs && p.hash == q.hash && p.cached == q.cached && p.caching == q.caching
  }

  lemma {:induction false} LookupAlike(p: Pool, q: Pool, bs: nat, tokens: seq<Token>, found: seq<BlockId>, parent: BlockHash)
    requires bs > 0 && Shaped(p) && Shaped(q) && InPool(p, found) && Alike(p, q)
    ensures var r, r' := LookupRun(p, bs, tokens, found, parent), LookupRun(q, bs, tokens, found, parent);
      r'.1 == r.1 && Alike(r.0, r'.0)
    decreases |tokens| - |found| * bs
  {
    hide Shaped;
    var start := |found| * bs;
    if start + bs <= |tokens| {
      var h := HashBlock(parent, Slice(tokens, start, start + bs));
      var (p1, hit) := Lookup(p, h);
      var (q1, hit') := Lookup(q, h);
      if hit.Some? {
        assert (|found| + 1) * bs == start + bs;
        LookupAlike(p1, q1, bs, tokens, found + [hit.value], h);
      }
    }
  }

  lemma ComputedAlike(kv: KV, kv': KV, bs: nat, tokens: seq<Token>)
    requires bs > 0 && KvOk(kv, bs, []) && KvOk(kv', bs, []) && Restored(kv, kv') && tokens != [] && KvShaped(kv) && KvShaped(kv')
    ensures var g, g' := GetComputed(kv, bs, tokens), GetComputed(kv', bs, tokens);
      g'.1 == g.1 && g'.2 == g.2 && |g'.0.pool.free| == |g.0.pool.free|
  {
    hide KvOk, KvShaped, LookupRun, GetComputed;
    if kv.pool.caching { ReadsAlike(kv, kv', bs, tokens); } else { NoReads(kv, kv', bs, tokens); }
    GetComputedKv(kv, bs, tokens);
    GetComputedKv(kv', bs, tokens);
    var g, g' := GetComputed(kv, bs, tokens), GetComputed(kv', bs, tokens);
    SameFree(g.0, g'.0, bs, g.1);
  }

  lemma NoReads(kv: KV, kv': KV, bs: nat, tokens: seq<Token>)
    requires bs > 0 && KvShaped(kv) && KvShaped(kv') && Restored(kv, kv') && !kv.pool.caching
    ensures var g, g' := GetComputed(kv, bs, tokens), GetComputed(kv', bs, tokens);
      g'.1 == g.1 && g'.2 == g.2 && Alike(g.0.pool, g'.0.pool)
  {
  }

  lemma ReadsAlike(kv: KV, kv': KV, bs: nat, tokens: seq<Token>)
    requires bs > 0 && KvShaped(kv) && KvShaped(kv') && Restored(kv, kv') && kv.pool.caching
    ensures var g, g' := GetComputed(kv, bs, tokens), GetComputed(kv', bs, tokens);
      g'.1 == g.1 && g'.2 == g.2 && Alike(g.0.pool, g'.0.pool)
  {
    hide LookupRun;
    LookupAlike(kv.pool, kv'.pool, bs, tokens, [], NoHash);
  }

  lemma SameFree(kv: KV, kv': KV, bs: nat, hits: seq<BlockId>)
    requires KvOk(kv, bs, hits) && KvOk(kv', bs, hits) && Alike(kv.pool, kv'.pool)
    ensures |kv'.pool.free| == |kv.pool.free|
  {
    hide Counted, HashesBlocked;
    FreeDetermined(kv.pool, kv'.pool);
    assert |multiset(kv.pool.free)| == |multiset(kv'.pool.free)|;
  }

  /** What a failed admission leaves is short of blocks for the same admission. */
  lemma FailedShort(cfg: Config, w: Work)
    requires cfg.blockSize > 0 && AInv(cfg, w) && Wf(w.s) && Admitting(cfg, w) && !AdmitFits(cfg, w)
    ensures var r := AdmitPhase(cfg, w).0; r.s.waiting == w.s.waiting && r.budget == w.budget && Wf(r.s) && Short(cfg, r.s, r.budget)
  {
    hide SInv, GetComputed, AllocateSlots, MakeScheduled, KvShaped, AllComplete, AllButLast, LateSharing, Restored, KvOk, AdmitPhase, FreshNeeded;
    HeadWaiting(cfg, w.s, w.out);
    AdmitStep(cfg, w.s, w.out, w.budget);
    AdmitNextPhase(cfg, w);
    var id := w.s.waiting[0];
    var toks := w.s.reqs[id].Tokens();
    var g := GetComputed(w.s.kv, cfg.blockSize, toks);
    var n := AdmitTokens(cfg, w.s.reqs[id], g.2, w.budget);
    AdmitAllocates(cfg, w.s, w.out, id, n);
    NoTable(cfg, w.s, w.out, id);
    var a := AllocateSlots(g.0, cfg.blockSize, id, toks, 0, n, g.1);
    FailedIs(cfg, w);
    GetComputedKv(w.s.kv, cfg.blockSize, toks);
    NoneShort(g.0, cfg.blockSize, id, toks, n, g.1);
    ComputedAlike(w.s.kv, a.0, cfg.blockSize, toks);
  }

  lemma FailedIs(cfg: Config, w: Work)
    requires cfg.blockSize > 0 && Wf(w.s) && Admitting(cfg, w) && !AdmitFits(cfg, w) && w.s.waiting[0] in w.s.reqs
    requires var r := w.s.reqs[w.s.waiting[0]]; AdmitTokens(cfg, r, GetComputed(w.s.kv, cfg.blockSize, r.Tokens()).2, w.budget) > 0
    ensures var id := w.s.waiting[0]; var r := w.s.reqs[id];
      var g := GetComputed(w.s.kv, cfg.blockSize, r.Tokens()); var n := AdmitTokens(cfg, r, g.2, w.budget);
      AdmitPhase(cfg, w).0.s.kv == AllocateSlots(g.0, cfg.blockSize, id, r.Tokens(), r.computed, n, g.1).0
      && AllocateSlots(g.0, cfg.blockSize, id, r.Tokens(), r.computed, n, g.1).1.None?
  {
    hide GetComputed, AllocateSlots, KvShaped;
  }

  lemma NoTable(cfg: Config, s: Sched, out: seq<Item>, id: Id)
    requires SInv(cfg, s, out) && id in s.waiting
    ensures KvOk(s.kv, cfg.blockSize, []) && TableOf(s.kv, id) == [] && id in s.reqs && s.reqs[id].Tokens() != []
  {
    hide KvOk, RowOk, Filling, Items, Arrivals;
    assert StatusOk(s, id);
  }

  lemma NoneShort(kv: KV, bs: nat, id: Id, toks: seq<Token>, n: nat, hits: seq<BlockId>)
    requires bs > 0 && KvShaped(kv) && InPool(kv.pool, hits) && TableOf(kv, id) == []
    requires AllocateSlots(kv, bs, id, toks, 0, n, hits).1.None?
    ensures CeilDiv(|hits| * bs + n, bs) - |hits| > |kv.pool.free|
  {
    hide ReleaseAll, KvShaped, CacheFull, CeilDiv;
  }

  /** A reason for someone to wait: block pressure in this call, no budget, no slot, or the first
      of the queue is short of blocks. */
  ghost predicate Reason(cfg: Config, w: Work)
    requires cfg.blockSize > 0 && Wf(w.s) && w.s.waiting != []
  {
    w.blocked || w.budget <= 0 || |w.s.running| >= cfg.maxNumSeqs || Short(cfg, w.s, w.budget)
  }

  lemma {:induction false} AdmitReason(cfg: Config, w: Work)
    requires cfg.blockSize > 0 && AInv(cfg, w) && Wf(w.s)
    ensures var r := AdmitPhase(cfg, w).0; r.s.waiting != [] ==> Reason(cfg, r)
    decreases |w.s.waiting|
  {
    hide WInv, AInv, AdmitFits, AdmitNext, GetComputed, AllocateSlots, Grant, Admit, KvShaped, Short;
    if Admitting(cfg, w) {
      AdmitNextPhase(cfg, w);
      if AdmitFits(cfg, w) {
        AdmitNextAInv(cfg, w);
        AdmitNextMoved(cfg, w);
        AdmitReason(cfg, AdmitNext(cfg, w));
      } else {
        FailedShort(cfg, w);
      }
    }
  }

  /** Somebody lost his blocks to another in this call, other than the one victim of priority. */
  ghost predicate Pressed(cfg: Config, s: Sched, preempted: seq<Id>)
    requires Wf(s)
  {
    exists id :: id in preempted && !(Evicts(cfg, s) && id == Lowest(s.reqs, s.running))
  }

  lemma BlockedPressed(cfg: Config, s: Sched)
    requires SInv(cfg, s, []) && Wf(s) && cfg.maxBatched >= 0 && cfg.blockSize > 0
    ensures Stage2(cfg, s).blocked <==> Pressed(cfg, s, Stage2(cfg, s).preempted)
  {
    hide SInv, KvShaped, PreemptForPriority, RunPhase, SameTokens, Evicts, WInv, AllComplete, AllButLast;
    Stage0Inv(cfg, s);
    Stage1Inv(cfg, s);
    Stage0Running(cfg, s);
    RunListed(cfg, Stage0(cfg, s), 0);
    RunningDistinct(cfg, s);
    if Evicts(cfg, s) { RemoveDistinct(s.running, Lowest(s.reqs, s.running)); }
  }

  lemma RunningDistinct(cfg: Config, s: Sched)
    requires SInv(cfg, s, [])
    ensures Distinct(s.running)
  {
  }

  /** Whoever waits after the call does so because somebody was preempted for want of blocks, the
      budget was used up, every slot is taken, or the first of the queue needs more blocks than
      are free. After such a preemption nobody was admitted and the preempted stand behind the old
      queue; without one nobody who waits is ahead of the first. */
  lemma HeadWaits(cfg: Config, s: Sched)
    requires SInv(cfg, s, []) && Wf(s) && cfg.maxBatched >= 0 && cfg.blockSize > 0
    ensures var (s', o) := Schedule(cfg, s);
      o.Some? && s'.waiting != [] ==>
        var budget := cfg.maxBatched - TotalTokens(o.value.scheduled);
        && (Pressed(cfg, s, o.value.preempted) || budget == 0 || |s'.running| >= cfg.maxNumSeqs || Short(cfg, s', budget))
        && if Pressed(cfg, s, o.value.preempted) then s'.waiting == s.waiting + o.value.preempted
           else forall id :: id in s'.waiting ==> !Ahead(s'.reqs[id], s'.reqs[s'.waiting[0]])
  {
    hide SInv, KvShaped, Stage2, AdmitPhase, Schedule, SameTokens, Pressed, Short, Ahead, AInv, Sorted, AllButLast, ServedInOrder, Moved;
    ScheduleStages(cfg, s);
    Stage2Inv(cfg, s);
    BlockedPressed(cfg, s);
    var w2 := Stage2(cfg, s);
    AdmitPhaseInv(cfg, w2);
    AdmitReason(cfg, w2);
    SameLists(w2, AdmitPhase(cfg, w2).0);
    QueueAfter(cfg, s);
  }

  lemma QueueAfter(cfg: Config, s: Sched)
    requires SInv(cfg, s, []) && Wf(s) && cfg.maxBatched >= 0 && cfg.blockSize > 0
    ensures var w, w' := Stage2(cfg, s), AdmitPhase(cfg, Stage2(cfg, s)).0;
      w'.blocked == w.blocked && (w'.s.waiting != [] ==> QueueIs(s, w, w'))
  {
    hide SInv, KvShaped, AdmitPhase, SameTokens, Ahead, AInv, Sorted, AllButLast, ServedInOrder, WInv, PreemptForPriority, RunPhase, Moved;
    Stage2Inv(cfg, s);
    var w, r := Stage2(cfg, s), AdmitPhase(cfg, Stage2(cfg, s));
    AdmitPhaseInv(cfg, w);
    SameLists(w, r.0);
    if w.blocked {
      StageRequeued(cfg, s);
      AdmitPhaseIdle(cfg, w);
      SameQueue(w, r.0);
    } else if r.0.s.waiting != [] {
      SuffixSorted(w, r.0);
    }
  }

  lemma SameLists(w: Work, w': Work)
    requires Moved(w, w')
    ensures w'.preempted == w.preempted && w'.blocked == w.blocked
  {
  }

  ghost predicate QueueIs(s: Sched, w: Work, w': Work)
    requires Wf(w'.s) && w'.s.waiting != []
  {
    if w.blocked then w'.s.waiting == s.waiting + w'.preempted
    else forall id :: id in w'.s.waiting ==> !Ahead(w'.s.reqs[id], w'.s.reqs[w'.s.waiting[0]])
  }

  lemma SameQueue(w: Work, w': Work)
    requires Moved(w, w') && w'.s.running == w.s.running
    ensures w'.s.waiting == w.s.waiting
  {
    assert (w.s.running + w.s.waiting)[|w.s.running|..] == w.s.waiting;
    assert (w'.s.running + w'.s.waiting)[|w'.s.running|..] == w'.s.waiting;
  }

  lemma SuffixSorted(w: Work, w': Work)
    requires Moved(w, w') && Wf(w'.s) && Known(w.s.reqs, w.s.waiting) && Sorted(w.s.reqs, w.s.waiting) && w'.s.waiting != []
    ensures forall id :: id in w'.s.waiting ==> !Ahead(w'.s.reqs[id], w'.s.reqs[w'.s.waiting[0]])
  {
    hide KvShaped;
    MovedShrinks(w, w');
    var d := |w.s.waiting| - |w'.s.waiting|;
    forall id | id in w'.s.waiting ensures !Ahead(w'.s.reqs[id], w'.s.reqs[w'.s.waiting[0]]) {
      var i :| 0 <= i < |w'.s.waiting| && w'.s.waiting[i] == id;
      assert w.s.waiting[d + i] == id && w.s.waiting[d] == w'.s.waiting[0];
      RankSame(w.s, w'.s, id);
      RankSame(w.s, w'.s, w'.s.waiting[0]);
      if i > 0 { assert !Outranks(w.s.reqs[w.s.waiting[d + i]], w.s.reqs[w.s.waiting[d]]); }
    }
  }
}
