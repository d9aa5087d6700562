/** None of these assertions fails from the scheduler's invariant. */
module AssertionsHold {
  import opened Util
  import opened Hashing
  import opened BlockPoolSpec
  import opened BlockManagerSpec
  import opened BlockManagerInv
  import opened RequestSpec
  import opened SchedulerSpec
  import opened SchedulerInv
  import opened SchedulePhases
  import opened AdmissionPhase
  import opened ScheduleStep
  import opened UpdateStep
  import opened Assertions
  import opened Sharing

  // ------------------------------------------------------------------ the KV manager

  lemma {:induction false} HandReturnable(kv: KV, bs: nat, hand: seq<BlockId>)
    requires KvOk(kv, bs, hand)
    ensures KvShaped(kv) && InPool(kv.pool, hand) && Returnable(kv.pool, hand)
    decreases |hand|
  {
    hide KvOk, Shaped, Release;
    HandInPool(kv, bs, hand);
    if hand != [] {
      ReleaseKv(kv, bs, hand);
      HandReturnable(kv.(pool := Release(kv.pool, hand[0])), bs, hand[1..]);
    }
  }

  lemma TableReturnable(kv: KV, bs: nat, id: Id)
    requires KvOk(kv, bs, []) && Distinct(TableOf(kv, id))
    ensures KvShaped(kv) && FreeAsserts(kv, id)
  {
    hide KvOk, Returnable, Reverse;
    HandInPool(kv, bs, []);
    DetachKv(kv, bs, id);
    HandReturnable(kv.(tables := kv.tables - {id}), bs, Reverse(TableOf(kv, id)));
  }

  lemma RunningReturnable(cfg: Config, s: Sched, out: seq<Item>, id: Id)
    requires SInv(cfg, s, out) && id in s.running
    ensures KvShaped(s.kv) && FreeAsserts(s.kv, id)
  {
    hide KvOk, TableOk, FreeAsserts, Filling, Items, Statuses, Bounded, Arrivals;
    assert RowOk(cfg, s, out, id);
    RowDistinct(cfg, s, out, id);
    TableReturnable(s.kv, cfg.blockSize, id);
  }

  lemma LookupHolds(kv: KV, bs: nat, tokens: seq<Token>)
    requires bs > 0 && KvOk(kv, bs, []) && KvShaped(kv)
    ensures LookupAsserts(kv, bs, tokens)
  {
    hide PoolOk, Counted, HashesBlocked, LookupRun, Chain, Release, Leading;
    NoneFound(kv.pool, bs, tokens);
    if kv.pool.caching {
      LookupRunKv(kv, bs, tokens, []);
      var (p, found) := LookupRun(kv.pool, bs, tokens, [], NoHash);
      if found != [] && |found| * bs == |tokens| {
        DropLastKv(kv.(pool := p), bs, tokens, found);
      }
    }
  }

  // ------------------------------------------------------------------ phase 0

  lemma EvictHolds(cfg: Config, s: Sched, top: Id)
    requires SInv(cfg, s, []) && Wf(s) && top in s.reqs
    ensures EvictAsserts(cfg, s, top)
  {
    hide KvShaped, FreeAsserts, FreeRequest, Rows, Filling, Statuses, Bounded, Arrivals, Items;
    if |s.running| >= cfg.maxNumSeqs && s.running != [] && s.reqs[top].priority > MinPriority(s.reqs, s.running) {
      var victim := Lowest(s.reqs, s.running);
      RunningReturnable(cfg, s, [], victim);
      RemoveDistinct(s.running, victim);
      var s1 := Preempt(s.(running := Remove(s.running, victim)), victim);
      assert |s1.running| < cfg.maxNumSeqs;
    }
  }

  // ------------------------------------------------------------------ phase 1

  lemma {:induction false} SqueezeHolds(cfg: Config, w: Work, id: Id, n: nat)
    requires cfg.blockSize > 0 && WInv(cfg, w) && Wf(w.s)
    requires |w.out| < |w.s.running| && w.s.running[|w.out|] == id
    requires 0 < n && id in w.s.reqs && w.s.reqs[id].computed + n <= w.s.reqs[id].NumTokens()
    ensures SqueezeAsserts(cfg, w, id, n)
    decreases |w.s.running|
  {
    hide SInv, ServedInOrder, BudgetKept, AllocateSlots, MakeScheduled, KvShaped, PopVictim, Squeezed, LateSharing, FreeAsserts, FreshNeeded;
    FreshBeyond(cfg, w, |w.out|);
    GrantStep(cfg, w.s, w.out, id, n);
    var r := w.s.reqs[id];
    var a := AllocateSlots(w.s.kv, cfg.blockSize, id, r.Tokens(), r.computed, n, []);
    assert AllocateAsserts(w.s.kv, cfg.blockSize, id, r.computed, n, []);
    if a.1.None? {
      assert w.(s := w.s.(kv := a.0)) == w;
      var victim := w.s.running[|w.s.running| - 1];
      RunningReturnable(cfg, w.s, w.out, victim);
      if victim != id {
        PopVictimInv(cfg, w);
        var w2 := PopVictim(w);
        PopFront(w, w2, id);
        SqueezeHolds(cfg, w2, id, n);
      }
    }
  }

  lemma {:induction false} RunHolds(cfg: Config, w: Work)
    requires cfg.blockSize > 0 && WInv(cfg, w) && Wf(w.s)
    requires w.budget > 0 ==> AllComplete(w.out)
    ensures RunAsserts(cfg, w, |w.out|)
    decreases |w.s.running| - |w.out|
  {
    hide WInv, AllComplete, AllButLast, Squeeze, Grant, KvShaped, Trimmed, SqueezeAsserts;
    RunPhaseStep(cfg, w);
    PositiveWork(cfg, w);
    if |w.out| < |w.s.running| && w.budget > 0 {
      var id := w.s.running[|w.out|];
      var n := Min(w.s.reqs[id].NumTokens() - w.s.reqs[id].computed, w.budget);
      SqueezeHolds(cfg, w, id, n);
      var q := Squeeze(cfg, w, id, n);
      if q.1 {
        var w2 := Grant(q.0, id, n, false);
        TrimmedShorter(w, w2);
        RunHolds(cfg, w2);
      }
    }
  }

  // ------------------------------------------------------------------ phase 2

  /** Nobody waiting holds blocks, and the hits of a failed admission are returned once. */
  lemma AdmitStepHolds(cfg: Config, s: Sched, out: seq<Item>, id: Id, n: nat)
    requires SInv(cfg, s, out) && s.waiting != [] && s.waiting[0] == id && id in s.reqs && KvShaped(s.kv) && cfg.blockSize > 0
    ensures var r := s.reqs[id]; var g := GetComputed(s.kv, cfg.blockSize, r.Tokens());
      && LookupAsserts(s.kv, cfg.blockSize, r.Tokens())
      && AllocateAsserts(g.0, cfg.blockSize, id, r.computed, n, g.1)
  {
    hide KvOk, LookupAsserts, GetComputed, Returnable, FreshNeeded, KvShaped, Filling, Items, Statuses, Bounded, Arrivals, RowOk, Leading;
    HeadWaiting(cfg, s, out);
    var toks := s.reqs[id].Tokens();
    LookupHolds(s.kv, cfg.blockSize, toks);
    GetComputedKv(s.kv, cfg.blockSize, toks);
    var g := GetComputed(s.kv, cfg.blockSize, toks);
    HandReturnable(g.0, cfg.blockSize, g.1);
  }

  lemma {:induction false} AdmitHolds(cfg: Config, w: Work)
    requires cfg.blockSize > 0 && AInv(cfg, w) && Wf(w.s)
    ensures AdmitAsserts(cfg, w)
    decreases |w.s.waiting|
  {
    hide WInv, SInv, Moved, AllButLast, AllComplete, GetComputed, AllocateSlots, Grant, Admit, KvShaped, LookupAsserts, AllocateAsserts, AInv;
    if Admitting(cfg, w) {
      AdmitFacts(cfg, w);
      if AdmitFits(cfg, w) {
        AdmitNextAInv(cfg, w);
        AdmitNextMoved(cfg, w);
        AdmitHolds(cfg, AdmitNext(cfg, w));
      }
    }
  }

  lemma AdmitFacts(cfg: Config, w: Work)
    requires cfg.blockSize > 0 && AInv(cfg, w) && Wf(w.s) && Admitting(cfg, w)
    ensures w.s.waiting[0] in w.s.waiting
    ensures var r := w.s.reqs[w.s.waiting[0]];
      var g := GetComputed(w.s.kv, cfg.blockSize, r.Tokens());
      var n := AdmitTokens(cfg, r, g.2, w.budget);
      && LookupAsserts(w.s.kv, cfg.blockSize, r.Tokens())
      && n > 0
      && AllocateAsserts(g.0, cfg.blockSize, w.s.waiting[0], r.computed, n, g.1)
  {
    hide SInv, GetComputed, AllocateSlots, MakeScheduled, KvShaped, LookupAsserts, AllocateAsserts, LateSharing, AllComplete, AllButLast;
    HeadWaiting(cfg, w.s, w.out);
    AdmitStep(cfg, w.s, w.out, w.budget);
    var r := w.s.reqs[w.s.waiting[0]];
    var g := GetComputed(w.s.kv, cfg.blockSize, r.Tokens());
    AdmitStepHolds(cfg, w.s, w.out, w.s.waiting[0], AdmitTokens(cfg, r, g.2, w.budget));
  }

  // ------------------------------------------------------------------ the entry points

  /** schedule() asserts nothing that fails. */
  lemma ScheduleHolds(cfg: Config, s: Sched)
    requires SInv(cfg, s, []) && Wf(s) && cfg.maxBatched >= 0 && cfg.blockSize > 0
    ensures ScheduleAsserts(cfg, s)
  {
    hide SInv, KvShaped, AllComplete, AdmitPhase, RunPhase, RunDone, EvictAsserts, RunAsserts, AdmitAsserts, PreemptForPriority, SortPhase, AInv,
         AllButLast, Trimmed, SameTokens;
    Stage0Inv(cfg, s);
    Stage1Inv(cfg, s);
    Stage2Inv(cfg, s);
    SInvFinished(cfg, s, []);
    if s.waiting != [] { EvictHolds(cfg, s.(finished := []), Top(s.reqs, s.waiting)); }
    NothingPending();
    RunHolds(cfg, Stage0(cfg, s));
    AdmitHolds(cfg, Stage2(cfg, s));
  }

  lemma NothingPending()
    ensures AllComplete([])
  {
  }

  lemma UpdateOneHolds(cfg: Config, s: Sched, it: Item, rest: seq<Item>, sampled: map<Id, Token>)
    requires SInv(cfg, s, [it] + rest)
    ensures it.id in s.running && KvShaped(s.kv) && FreeAsserts(s.kv, it.id)
  {
    hide SInv, FreeAsserts, KvShaped;
    ItemRunning(cfg, s, it, rest);
    RunningReturnable(cfg, s, [it] + rest, it.id);
  }

  lemma ItemRunning(cfg: Config, s: Sched, it: Item, rest: seq<Item>)
    requires SInv(cfg, s, [it] + rest)
    ensures it.id in s.running
  {
    hide Rows, Filling, Statuses, Bounded, Arrivals;
    assert ([it] + rest)[0] == it;
    assert ItemOk(s, it);
  }

  /** update_from_output() finishes only requests that run. */
  lemma {:induction false} UpdateHolds(cfg: Config, s: Sched, items: seq<Item>, sampled: map<Id, Token>)
    requires SInv(cfg, s, items)
    requires Settled(s) && forall it :: it in items ==> it.id !in s.waiting && (it.doSample ==> it.id in sampled)
    ensures UpdateAsserts(cfg, s, items, sampled)
    decreases |items|
  {
    hide SInv, UpdateOne, KvShaped, FreeAsserts;
    if items != [] {
      var rest := items[1..];
      assert items == [items[0]] + rest;
      assert items[0] in items && forall it :: it in rest ==> it in items;
      UpdateOneInv(cfg, s, items[0], rest, sampled);
      UpdateOneHolds(cfg, s, items[0], rest, sampled);
      UpdateHolds(cfg, UpdateOne(cfg, s, items[0], sampled).0, rest, sampled);
    }
  }

  /** abort() */
  lemma AbortHolds(cfg: Config, s: Sched, id: Id)
    requires SInv(cfg, s, []) && Wf(s)
    ensures AbortAsserts(s, id)
  {
    hide Rows, KvShaped, FreeAsserts, Filling, Items, Bounded, Arrivals;
    if id in s.reqs && s.reqs[id].status == Running {
      assert StatusOk(s, id);
      RunningReturnable(cfg, s, [], id);
    }
  }
}
