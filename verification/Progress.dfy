/** Why the step loop drains: with enough blocks for each request alone, every step makes
    the first running request advance, or replaces it by a higher-ranked one. */
module Progress {
  import opened Util
  import opened BlockPoolSpec
  import opened BlockManagerSpec
  import opened BlockManagerInv
  import opened AllocationInv
  import opened RequestSpec
  import opened SchedulerSpec
  import opened SchedulerInv
  import opened SchedulePhases
  import opened AdmissionPhase
  import opened ScheduleStep
  import opened Ranking

  // ------------------------------------------------------------------ capacity

  /** Every token a request may come to have; the last one is never computed. */
  function Longest(cfg: Config, r: Req): int {
    Min(cfg.maxModelLen, |r.prompt| + r.params.maxTokens)
  }

  /** The pool can hold each request on its own, as far as its tokens are known. */
  ghost predicate Fits(cfg: Config, s: Sched)
    requires cfg.blockSize > 0
  {
    forall id :: id in s.reqs ==> CeilDiv(s.reqs[id].NumTokens(), cfg.blockSize) <= PoolSize(s)
  }

  /** The pool can hold each request on its own, as far as it may ever be computed. */
  ghost predicate Capacity(cfg: Config, s: Sched)
    requires cfg.blockSize > 0
  {
    forall id :: id in s.reqs ==> CapacityFor(cfg, PoolSize(s), s.reqs[id])
  }

  ghost predicate CapacityFor(cfg: Config, blocks: nat, r: Req)
    requires cfg.blockSize > 0
  {
    Longest(cfg, r) >= 1 && CeilDiv(Longest(cfg, r) - 1, cfg.blockSize) <= blocks
  }

  lemma {:induction false} DistinctCover(s: seq<BlockId>, n: nat)
    requires Distinct(s) && forall b: nat :: b in s <==> b < n
    ensures |s| == n
    decreases n
  {
    assert |s| > 0 ==> s[0] in s;
    if n > 0 {
      var last: BlockId := n - 1;
      RemoveDistinct(s, last);
      var r: seq<BlockId> := Remove<BlockId>(s, last);
      forall b: nat ensures b in r <==> b < n - 1 { assert b in s <==> b < n; }
      assert last in s;
      DistinctCover(r, n - 1);
    }
  }

  /** When at most one table exists, every block outside it and outside the hand is free. */
  lemma FreeAlone(kv: KV, bs: nat, hand: seq<BlockId>, id: Id)
    requires KvOk(kv, bs, hand) && (forall r :: r in kv.tables ==> r == id)
    requires Distinct(TableOf(kv, id)) && (forall b :: b in TableOf(kv, id) ==> b !in hand)
    ensures |kv.pool.free| + |TableOf(kv, id)| + |hand| == |kv.pool.refs|
  {
    var t := TableOf(kv, id);
    var all := kv.pool.free + t + hand;
    forall b: nat | b < |kv.pool.refs| ensures b in kv.pool.free <==> (b !in t && b !in hand) {
      if b in t {
        HolderExists(kv.tables, b, id);
      } else {
        assert Holders(kv.tables, b) == {};
      }
    }
    forall b: nat | b in t ensures b < |kv.pool.refs| { assert id in kv.tables; }
    DistinctConcat(kv.pool.free, t);
    DistinctConcat(kv.pool.free + t, hand);
    DistinctCover(all, |kv.pool.refs|);
  }

  /** Room for all a request may ever compute is room for what it has. */
  lemma CapacityFits(cfg: Config, s: Sched, out: seq<Item>)
    requires SInv(cfg, s, out) && Capacity(cfg, s)
    ensures Fits(cfg, s)
  {
    hide Rows, Filling, Items, Statuses, Arrivals, Lists, SlotCap, CeilDiv;
    forall id | id in s.reqs ensures CeilDiv(s.reqs[id].NumTokens(), cfg.blockSize) <= PoolSize(s) {
      assert CapacityFor(cfg, PoolSize(s), s.reqs[id]);
      CeilDivMono(s.reqs[id].NumTokens(), Longest(cfg, s.reqs[id]) - 1, cfg.blockSize);
    }
  }

  /** A request running alone always gets its slots. */
  lemma AloneFits(cfg: Config, s: Sched, out: seq<Item>, id: Id, n: nat)
    requires SInv(cfg, s, out) && s.running == [id] && Fresh(out, id) && Fits(cfg, s) && Wf(s)
    requires s.reqs[id].computed + n <= s.reqs[id].NumTokens()
    ensures AllocateSlots(s.kv, cfg.blockSize, id, s.reqs[id].Tokens(), s.reqs[id].computed, n, []).1.Some?
  {
    hide Filling, Items, Statuses, Arrivals, KvOk, TableOk, CeilDiv;
    GrantedFresh(out, id);
    assert id in s.running;
    assert RowOk(cfg, s, out, id);
    RowDistinct(cfg, s, out, id);
    FreeAlone(s.kv, cfg.blockSize, [], id);
    CeilDivMono(s.reqs[id].computed + n, s.reqs[id].NumTokens(), cfg.blockSize);
    FreshCount(s.kv, cfg.blockSize, id, s.reqs[id].Tokens(), s.reqs[id].computed, n, []);
  }

  /** With nothing running, the head of the queue is always admitted. */
  lemma FirstAdmissionFits(cfg: Config, s: Sched, out: seq<Item>, budget: int)
    requires SInv(cfg, s, out) && s.running == [] && s.waiting != [] && budget > 0 && cfg.maxNumSeqs >= 1
    requires s.waiting[0] in s.reqs && KvShaped(s.kv) && cfg.blockSize > 0 && Fits(cfg, s)
    ensures var id := s.waiting[0]; var r := s.reqs[id];
      var g := GetComputed(s.kv, cfg.blockSize, r.Tokens());
      var n := AdmitTokens(cfg, r, g.2, budget);
      n > 0 && AllocateSlots(g.0, cfg.blockSize, id, r.Tokens(), r.computed, n, g.1).1.Some?
  {
    hide SInv, GetComputed, KvOk, MakeScheduled, KvShaped, CeilDiv, Leading;
    HeadWaiting(cfg, s, out);
    AdmitStep(cfg, s, out, budget);
    var id := s.waiting[0];
    var r := s.reqs[id];
    NoTables(cfg, s, out, id);
    GetComputedKv(s.kv, cfg.blockSize, r.Tokens());
    var g := GetComputed(s.kv, cfg.blockSize, r.Tokens());
    var n := AdmitTokens(cfg, r, g.2, budget);
    FreeAlone(g.0, cfg.blockSize, g.1, id);
    EmptyRow(g.0, cfg.blockSize, id, r.Tokens());
    FreshCount(g.0, cfg.blockSize, id, r.Tokens(), 0, n, g.1);
    CeilDivMono(Total(cfg.blockSize, 0, n, g.1), r.NumTokens(), cfg.blockSize);
  }

  lemma NoTables(cfg: Config, s: Sched, out: seq<Item>, id: Id)
    requires SInv(cfg, s, out) && s.running == [] && id in s.waiting
    ensures KvOk(s.kv, cfg.blockSize, []) && s.kv.tables == map[] && id !in s.kv.tables && id !in s.kv.chains
    ensures id in s.reqs && Admissible(s.reqs[id], cfg.maxModelLen) && |s.reqs[id].output| < OutputCap(s.reqs[id], cfg.maxModelLen)
    ensures |s.reqs[id].Tokens()| > 0
  {
    hide Filling, Items, Statuses, Arrivals, KvOk, RowOk;
    assert forall x :: x in s.kv.tables <==> x in s.running;
  }

  // ------------------------------------------------------------------ the head is served

  /** The first running request, not yet served, always gets its tokens. */
  lemma {:induction false} HeadSqueezed(cfg: Config, w: Work, id: Id, n: nat)
    requires cfg.blockSize > 0 && WInv(cfg, w) && Wf(w.s) && w.out == [] && Fits(cfg, w.s)
    requires w.s.running != [] && w.s.running[0] == id
    requires 0 < n && id in w.s.reqs && w.s.reqs[id].computed + n <= w.s.reqs[id].NumTokens()
    ensures Squeeze(cfg, w, id, n).1
    decreases |w.s.running|
  {
    hide SInv, AllocateSlots, MakeScheduled, KvShaped, PopVictim, Squeezed, BudgetKept;
    FreshBeyond(cfg, w, 0);
    GrantStep(cfg, w.s, [], id, n);
    var r := w.s.reqs[id];
    var a := AllocateSlots(w.s.kv, cfg.blockSize, id, r.Tokens(), r.computed, n, []);
    var w1 := w.(s := w.s.(kv := a.0));
    if a.1.None? {
      assert w1 == w;
      if w.s.running[|w.s.running| - 1] == id {
        OnlyOne(cfg, w, id);
        AloneFits(cfg, w.s, [], id, n);
      } else {
        PopVictimInv(cfg, w);
        var w2 := PopVictim(w);
        PopFront(w, w2, id);
        PopFits(cfg, w);
        HeadSqueezed(cfg, w2, id, n);
      }
    }
  }

  lemma OnlyOne(cfg: Config, w: Work, id: Id)
    requires WInv(cfg, w) && w.s.running != [] && w.s.running[0] == id && w.s.running[|w.s.running| - 1] == id
    ensures w.s.running == [id]
  {
    hide Rows, Filling, Items, Statuses, Bounded, Arrivals, BudgetKept;
  }

  lemma FitsSame(cfg: Config, s: Sched, s': Sched)
    requires cfg.blockSize > 0 && Fits(cfg, s) && PoolSize(s') == PoolSize(s)
    requires forall id :: id in s'.reqs ==> id in s.reqs && s'.reqs[id].NumTokens() == s.reqs[id].NumTokens()
    ensures Fits(cfg, s')
  {
    hide CeilDiv;
    forall id | id in s'.reqs ensures CeilDiv(s'.reqs[id].NumTokens(), cfg.blockSize) <= PoolSize(s') {
      assert CeilDiv(s.reqs[id].NumTokens(), cfg.blockSize) <= PoolSize(s);
    }
  }

  lemma PopFits(cfg: Config, w: Work)
    requires cfg.blockSize > 0 && Wf(w.s) && w.s.running != [] && Fits(cfg, w.s)
    ensures Fits(cfg, PopVictim(w).s)
  {
    hide KvShaped, Fits, FreeRequest;
    FitsSame(cfg, w.s, PopVictim(w).s);
  }

  lemma SameTokensFits(cfg: Config, s: Sched, s': Sched)
    requires cfg.blockSize > 0 && Fits(cfg, s) && SameTokens(s, s') && PoolSize(s') == PoolSize(s)
    ensures Fits(cfg, s')
  {
    hide Fits;
    forall id | id in s'.reqs ensures id in s.reqs && s'.reqs[id].NumTokens() == s.reqs[id].NumTokens() { RankSame(s, s', id); }
    FitsSame(cfg, s, s');
  }

  lemma CapacitySame(cfg: Config, s: Sched, s': Sched)
    requires cfg.blockSize > 0 && Capacity(cfg, s) && PoolSize(s') == PoolSize(s)
    requires forall id :: id in s'.reqs ==> id in s.reqs && s'.reqs[id].prompt == s.reqs[id].prompt && s'.reqs[id].params == s.reqs[id].params
    ensures Capacity(cfg, s')
  {
    forall id | id in s'.reqs ensures CapacityFor(cfg, PoolSize(s'), s'.reqs[id]) { assert CapacityFor(cfg, PoolSize(s), s.reqs[id]); }
  }

  lemma SameTokensCapacity(cfg: Config, s: Sched, s': Sched)
    requires cfg.blockSize > 0 && Capacity(cfg, s) && SameTokens(s, s') && PoolSize(s') == PoolSize(s)
    ensures Capacity(cfg, s')
  {
    hide CapacityFor;
    forall id | id in s'.reqs ensures id in s.reqs && s'.reqs[id].prompt == s.reqs[id].prompt && s'.reqs[id].params == s.reqs[id].params {
      RankSame(s, s', id);
      assert s'.reqs[id].(status := Running, computed := 0).params == s'.reqs[id].params;
      assert s.reqs[id].(status := Running, computed := 0).params == s.reqs[id].params;
    }
    CapacitySame(cfg, s, s');
  }

  /** Phase 1 serves the first running request. */
  lemma HeadServed(cfg: Config, w: Work)
    requires cfg.blockSize > 0 && WInv(cfg, w) && Wf(w.s) && w.out == [] && w.budget > 0 && Fits(cfg, w.s)
    requires w.s.running != []
    ensures var r := RunPhase(cfg, w, 0);
      r.out != [] && r.s.running != [] && r.s.running[0] == w.s.running[0]
  {
    hide WInv, Squeeze, KvShaped, Trimmed, MakeScheduled, Fits, RunDone, AllComplete;
    PositiveWork(cfg, w);
    var id := w.s.running[0];
    var n := Min(w.s.reqs[id].NumTokens() - w.s.reqs[id].computed, w.budget);
    HeadSqueezed(cfg, w, id, n);
    NothingComplete(w);
    RunPhaseStep(cfg, w);
    var q := Squeeze(cfg, w, id, n);
    var w2 := Grant(q.0, id, n, false);
    assert RunPhase(cfg, w, 0) == RunPhase(cfg, w2, 1);
    OneGranted(w2);
    RunPhaseInv(cfg, w2);
    ServedFirst(cfg, w, w2, RunPhase(cfg, w2, 1));
  }

  lemma NothingComplete(w: Work)
    requires w.out == []
    ensures AllComplete(w.out) && AllButLast(w.out)
  {
  }

  lemma OneGranted(w: Work)
    requires |w.out| == 1
    ensures AllButLast(w.out)
  {
  }

  lemma ServedFirst(cfg: Config, w: Work, w2: Work, r: Work)
    requires Trimmed(w, w2) && RunDone(cfg, w2, r) && |w2.out| == 1 && w.s.running != []
    ensures r.out != [] && r.s.running != [] && r.s.running[0] == w.s.running[0]
  {
    hide SInv, SameTokens;
    assert r.out[0] == w2.out[0];
    assert r.s.running <= w2.s.running <= w.s.running;
  }

  // ------------------------------------------------------------------ the head of the running list

  /** The first running request stays and keeps its state, or a higher-ranked one takes over. */
  ghost predicate HeadMoves(s: Sched, s': Sched) {
    && s'.running != [] && s'.running[0] in s'.reqs
    && (s.running != [] ==>
          && s.running[0] in s.reqs && s'.running[0] in s.reqs
          && ((s'.running[0] == s.running[0] && s'.reqs[s'.running[0]] == s.reqs[s.running[0]])
              || Outranks(s.reqs[s'.running[0]], s.reqs[s.running[0]])))
  }

  lemma RankTotal(s: Sched, a: Id, b: Id)
    requires Arrivals(s) && a in s.reqs && b in s.reqs && a != b
    ensures Outranks(s.reqs[a], s.reqs[b]) || Outranks(s.reqs[b], s.reqs[a])
  {
  }

  lemma ListFacts(cfg: Config, s: Sched, out: seq<Item>)
    requires SInv(cfg, s, out)
    ensures Arrivals(s) && Known(s.reqs, s.running) && Known(s.reqs, s.waiting) && Distinct(s.running)
    ensures forall id :: id in s.waiting ==> id !in s.running
  {
    hide Rows, Filling, Items, Statuses, Bounded;
  }

  /** Phase 0 keeps the head or replaces it by someone who outranks it. */
  lemma EvictedHead(cfg: Config, s: Sched)
    requires SInv(cfg, s, []) && Wf(s) && s.running != []
    ensures var rest := if Evicts(cfg, s) then Remove(s.running, Lowest(s.reqs, s.running)) else s.running;
      rest != [] ==> rest[0] in s.reqs && (rest[0] == s.running[0] || Outranks(s.reqs[rest[0]], s.reqs[s.running[0]]))
  {
    hide SInv, KvShaped;
    ListFacts(cfg, s, []);
    var h := s.running[0];
    if Evicts(cfg, s) {
      var v := Lowest(s.reqs, s.running);
      LowestIsLeast(s.reqs, s.running);
      RemoveDistinct(s.running, v);
      var rest := Remove(s.running, v);
      if rest != [] {
        assert rest[0] in rest && rest[0] in s.running;
        if v == h {
          RankTotal(s, rest[0], h);
        }
      }
    }
  }

  lemma HeadFromRunning(cfg: Config, s: Sched)
    requires SInv(cfg, s, []) && Wf(s) && cfg.maxBatched > 0 && cfg.blockSize > 0 && Fits(cfg, s)
    requires Stage0(cfg, s).s.running != [] && s.running != []
    ensures var r := AdmitPhase(cfg, Stage2(cfg, s));
      r.0.out != [] && HeadMoves(s, r.0.s) && r.1 && r.0.out[0].id == r.0.s.running[0]
  {
    hide SInv, KvShaped, Stage2, AdmitPhase, Evicts, AllComplete, AllButLast, Fits, Shape, BudgetKept;
    Stage0Inv(cfg, s);
    Stage0Running(cfg, s);
    Stage1Inv(cfg, s);
    Stage2Inv(cfg, s);
    var w0, w1, w2 := Stage0(cfg, s), Stage1(cfg, s), Stage2(cfg, s);
    StagePool(cfg, s);
    SameTokensFits(cfg, s, w0.s);
    HeadServed(cfg, w0);
    AdmitPhaseInv(cfg, w2);
    var r := AdmitPhase(cfg, w2);
    EvictedHead(cfg, s);
    ScheduleShape(cfg, s);
    KeptHead(cfg, s, r.0.s, r.0.out, Kept(cfg, s), AdmittedIds(cfg, s));
  }

  lemma StagePool(cfg: Config, s: Sched)
    requires Wf(s)
    ensures PoolSize(Stage0(cfg, s).s) == PoolSize(s) && Stage0(cfg, s).budget == cfg.maxBatched && Stage0(cfg, s).out == []
  {
  }

  lemma KeptHead(cfg: Config, s: Sched, s': Sched, out: seq<Item>, kept: seq<Id>, admitted: seq<Id>)
    requires Wf(s) && Shape(cfg, s, s', out, kept, admitted) && kept != []
    ensures s'.running != [] && s'.running[0] == kept[0]
    ensures kept[0] in s.reqs && kept[0] in s'.reqs && s'.reqs[kept[0]] == s.reqs[kept[0]]
  {
    assert kept[0] in kept;
  }

  lemma HeadFromQueue(cfg: Config, s: Sched)
    requires SInv(cfg, s, []) && Wf(s) && cfg.maxBatched > 0 && cfg.blockSize > 0 && Fits(cfg, s) && cfg.maxNumSeqs >= 1
    requires Stage0(cfg, s).s.running == [] && HasUnfinished(s)
    ensures var r := AdmitPhase(cfg, Stage2(cfg, s));
      r.0.out != [] && HeadMoves(s, r.0.s) && r.1 && r.0.out[0].id == r.0.s.running[0]
  {
    hide SInv, KvShaped, Stage2, AdmitPhase, Evicts, AllComplete, AllButLast, Fits, BudgetKept, Sorted, GetComputed, AllocateSlots;
    Stage0Inv(cfg, s);
    Stage0Running(cfg, s);
    Stage0Waiting(cfg, s);
    Stage2Inv(cfg, s);
    var w0, w2 := Stage0(cfg, s), Stage2(cfg, s);
    StagePool(cfg, s);
    SameTokensFits(cfg, s, w0.s);
    assert Stage1(cfg, s) == w0;
    QueueThere(cfg, s);
    SamePoolQueue(w0.s, w2.s);
    FitsSame(cfg, w0.s, w2.s);
    HeadWaiting(cfg, w2.s, w2.out);
    FirstAdmissionFits(cfg, w2.s, w2.out, w2.budget);
    AdmitNextPhase(cfg, w2);
    AdmitNextMoved(cfg, w2);
    AdmitNextAInv(cfg, w2);
    var w3 := AdmitNext(cfg, w2);
    AdmitPhaseInv(cfg, w3);
    var r := AdmitPhase(cfg, w3);
    FirstAdmitted(cfg, w2, w3, r.0);
    QueueHead(cfg, s, w0, w2, r.0);
  }

  /** Someone waits at the end of phase 0 when nobody runs there. */
  lemma QueueThere(cfg: Config, s: Sched)
    requires SInv(cfg, s, []) && Wf(s) && cfg.maxBatched >= 0 && Stage0(cfg, s).s.running == [] && HasUnfinished(s)
    ensures Stage0(cfg, s).s.waiting != []
    ensures s.running != [] ==> Evicts(cfg, s) && s.running == [Lowest(s.reqs, s.running)] && s.running[0] in Stage0(cfg, s).s.waiting
  {
    hide SInv, KvShaped, WInv, SameTokens, PreemptForPriority, MinPriority;
    Stage0Inv(cfg, s);
    Stage0Running(cfg, s);
    Stage0Waiting(cfg, s);
    if s.running != [] {
      var v := Lowest(s.reqs, s.running);
      assert |Remove(s.running, v)| == |s.running| - 1;
      assert |s.running| == 1 && s.running[0] == v;
      assert v in Stage0(cfg, s).preempted;
    }
  }

  lemma SamePoolQueue(s: Sched, s': Sched)
    requires s' == s.(waiting := s'.waiting) && multiset(s'.waiting) == multiset(s.waiting) && s.waiting != []
    ensures s'.waiting != [] && PoolSize(s') == PoolSize(s)
  {
    assert s.waiting[0] in multiset(s.waiting);
  }

  lemma FirstAdmitted(cfg: Config, w2: Work, w3: Work, r: Work)
    requires Wf(w2.s) && w2.s.waiting != [] && cfg.blockSize > 0 && w3 == AdmitNext(cfg, w2) && w2.s.running == [] && w2.out == []
    requires Moved(w3, r)
    ensures r.s.running != [] && r.s.running[0] == w2.s.waiting[0] && r.out != [] && r.out[0].id == r.s.running[0]
  {
    hide SameTokens, GetComputed, AllocateSlots;
    assert w3.s.running == [w2.s.waiting[0]];
    assert r.out[0] == w3.out[0];
  }

  lemma QueueHead(cfg: Config, s: Sched, w0: Work, w2: Work, r: Work)
    requires SInv(cfg, s, []) && Wf(s) && SameTokens(s, w0.s) && SameTokens(w0.s, w2.s) && SameTokens(w2.s, r.s)
    requires w2.s.waiting != [] && r.s.running != [] && r.s.running[0] == w2.s.waiting[0]
    requires Known(w2.s.reqs, w2.s.waiting) && Sorted(w2.s.reqs, w2.s.waiting)
    requires forall id :: id in s.waiting ==> id in w2.s.waiting
    requires s.running != [] ==> Evicts(cfg, s) && s.running == [Lowest(s.reqs, s.running)] && s.running[0] in w2.s.waiting
    ensures HeadMoves(s, r.s)
  {
    hide SInv, KvShaped, MinPriority, Evicts;
    ListFacts(cfg, s, []);
    SameTokensTrans(s, w0.s, w2.s);
    SameTokensTrans(s, w2.s, r.s);
    var h := w2.s.waiting[0];
    assert h in w2.s.waiting;
    RankSame(s, w2.s, h);
    if s.running != [] {
      var v := s.running[0];
      VictimNotHead(cfg, s, w2.s);
      var j :| 0 <= j < |w2.s.waiting| && w2.s.waiting[j] == v;
      assert !Outranks(w2.s.reqs[w2.s.waiting[j]], w2.s.reqs[w2.s.waiting[0]]);
      RankSame(s, w2.s, v);
      RankTotal(s, h, v);
    }
  }
}
