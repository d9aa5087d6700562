/** schedule() when there is a single slot and the token budget is never short: whole calls,
    spelled out. */
module OneSlot {
  import opened Util
  import opened BlockPoolSpec
  import opened BlockManagerSpec
  import opened RequestSpec
  import opened SchedulerSpec

  predicate OneAtATime(cfg: Config) {
    cfg.blockSize > 0 && cfg.maxNumSeqs == 1 && cfg.threshold <= 0
  }

  /** The state once id, at the head of the queue, is admitted with this many cached tokens. */
  function Let(s: Sched, id: Id, kv: KV, cached: nat): Sched
    requires id in s.reqs && s.waiting != []
  {
    Sched(s.reqs[id := s.reqs[id].(status := Running, computed := cached)], s.waiting[1..], [id], [], kv)
  }

  /** What a call hands over when it serves one request. */
  function Served(s: Sched, id: Id, n: nat, isNew: bool, preempted: seq<Id>, finished: seq<Id>): Output
    requires id in s.reqs
  {
    Output([MakeScheduled(s, id, n, isNew)], preempted, finished)
  }

  /** The lone running request gets all its pending tokens. */
  lemma ScheduleLone(cfg: Config, s: Sched, id: Id, kv': KV, more: seq<BlockId>)
    requires OneAtATime(cfg) && Wf(s) && s.running == [id] && s.waiting == [] && KvShaped(kv')
    requires id in s.reqs && 0 < s.reqs[id].NumTokens() - s.reqs[id].computed <= cfg.maxBatched
    requires AllocateSlots(s.kv, cfg.blockSize, id, s.reqs[id].Tokens(), s.reqs[id].computed, s.reqs[id].NumTokens() - s.reqs[id].computed, [])
          == (kv', Some(more))
    ensures var s' := s.(finished := [], kv := kv');
      Schedule(cfg, s) == (s', Some(Served(s', id, s.reqs[id].NumTokens() - s.reqs[id].computed, false, [], s.finished)))
  {
    hide AllocateSlots, KvShaped;
    var n := s.reqs[id].NumTokens() - s.reqs[id].computed;
    var s0, s' := s.(finished := []), s.(finished := [], kv := kv');
    assert PreemptForPriority(cfg, s0) == (s0, []);
    var w := Work(s0, cfg.maxBatched, [], [], false);
    var w' := Grant(w.(s := s'), id, n, false);
    assert Squeeze(cfg, w, id, n) == (w.(s := s'), true);
    assert RunPhase(cfg, w', 1) == w';
    assert RunPhase(cfg, w, 0) == w';
    assert SortPhase(w') == w';
    assert AdmitPhase(cfg, w') == (w', true);
    assert w'.out == [MakeScheduled(s', id, n, false)];
  }

  /** The head of the queue takes the free slot, and nobody else is admitted. */
  lemma AdmitHead(cfg: Config, w: Work, id: Id, rest: seq<Id>, kv1: KV, hits: seq<BlockId>, cached: nat, kv2: KV, more: seq<BlockId>)
    requires OneAtATime(cfg) && Wf(w.s) && w.s.running == [] && w.s.waiting == [id] + rest && id in w.s.reqs
    requires !w.blocked && w.out == [] && w.s.finished == [] && KvShaped(kv1) && InPool(kv1.pool, hits) && KvShaped(kv2)
    requires cached < w.s.reqs[id].NumTokens() <= w.budget
    requires GetComputed(w.s.kv, cfg.blockSize, w.s.reqs[id].Tokens()) == (kv1, hits, cached)
    requires AllocateSlots(kv1, cfg.blockSize, id, w.s.reqs[id].Tokens(), w.s.reqs[id].computed, w.s.reqs[id].NumTokens() - cached, hits)
          == (kv2, Some(more))
    ensures var s' := Let(w.s, id, kv2, cached); var n := w.s.reqs[id].NumTokens() - cached;
      AdmitPhase(cfg, w) == (Work(s', w.budget - n, [MakeScheduled(s', id, n, true)], w.preempted, false), true)
  {
    hide GetComputed, AllocateSlots, KvShaped;
    var n := w.s.reqs[id].NumTokens() - cached;
    assert w.s.waiting[0] == id && w.s.waiting[1..] == rest;
    assert AdmitTokens(cfg, w.s.reqs[id], cached, w.budget) == n;
    var w' := Grant(Admit(w, id, kv2, cached), id, n, true);
    assert w'.s == Let(w.s, id, kv2, cached);
    assert AdmitPhase(cfg, w') == (w', true);
    assert AdmitPhase(cfg, w) == AdmitPhase(cfg, w');
    assert [] + [MakeScheduled(w'.s, id, n, true)] == [MakeScheduled(w'.s, id, n, true)];
  }

  /** Nobody running: the first of the sorted queue is served. */
  lemma ScheduleHead(cfg: Config, s: Sched, s0: Sched, evicted: seq<Id>, id: Id, rest: seq<Id>,
                     kv1: KV, hits: seq<BlockId>, cached: nat, kv2: KV, more: seq<BlockId>)
    requires OneAtATime(cfg) && Wf(s) && Wf(s0) && PreemptForPriority(cfg, s.(finished := [])) == (s0, evicted)
    requires s0.running == [] && s0.finished == [] && s0.waiting == [id] + rest && id in s0.reqs
    requires Sort(s0.reqs, s0.waiting) == s0.waiting
    requires KvShaped(kv1) && InPool(kv1.pool, hits) && KvShaped(kv2) && cached < s0.reqs[id].NumTokens() <= cfg.maxBatched
    requires GetComputed(s0.kv, cfg.blockSize, s0.reqs[id].Tokens()) == (kv1, hits, cached)
    requires AllocateSlots(kv1, cfg.blockSize, id, s0.reqs[id].Tokens(), s0.reqs[id].computed, s0.reqs[id].NumTokens() - cached, hits)
          == (kv2, Some(more))
    ensures var s' := Let(s0, id, kv2, cached);
      Schedule(cfg, s) == (s', Some(Served(s', id, s0.reqs[id].NumTokens() - cached, true, evicted, s.finished)))
  {
    hide GetComputed, AllocateSlots, KvShaped, PreemptForPriority, Sort;
    var w := Work(s0, cfg.maxBatched, [], evicted, false);
    assert RunPhase(cfg, w, 0) == w;
    assert SortPhase(w) == w;
    AdmitHead(cfg, w, id, rest, kv1, hits, cached, kv2, more);
  }

  lemma LoneQueue(cfg: Config, s: Sched, id: Id)
    requires OneAtATime(cfg) && Wf(s) && s.running == [] && s.waiting == [id] && s.finished == []
    ensures PreemptForPriority(cfg, s) == (s, []) && Sort(s.reqs, s.waiting) == s.waiting
  {
    hide KvShaped, Preempt;
    assert s.waiting[1..] == [];
    assert Sort(s.reqs, []) == [];
  }

  /** What priority eviction makes of one running request and a more urgent waiting one. */
  function Evicted(s: Sched, b: Id): Sched
    requires Wf(s) && b in s.reqs
  {
    Preempt(s.(running := []), b)
  }

  lemma UrgentQueue(cfg: Config, s: Sched, b: Id, c: Id)
    requires OneAtATime(cfg) && Wf(s) && s.running == [b] && s.waiting == [c] && s.finished == []
    requires b in s.reqs && c in s.reqs && b != c && s.reqs[c].priority > s.reqs[b].priority
    ensures PreemptForPriority(cfg, s) == (Evicted(s, b), [b])
    ensures var s0 := Evicted(s, b); s0.running == [] && s0.waiting == [c] + [b] && s0.finished == [] && Wf(s0)
    ensures Sort(Evicted(s, b).reqs, Evicted(s, b).waiting) == Evicted(s, b).waiting
  {
    hide KvShaped, FreeRequest;
    var s0 := Evicted(s, b);
    assert Remove([b], b) == [];
    assert Top(s.reqs, s.waiting) == c && Lowest(s.reqs, s.running) == b && MinPriority(s.reqs, s.running) == s.reqs[b].priority;
    assert EvictLoop(cfg, s0, c, [b]) == (s0, [b]);
    assert [] + [b] == [b];
    assert EvictLoop(cfg, s, c, []) == EvictLoop(cfg, s0, c, [] + [b]);
    SortedPair(s0.reqs, c, b);
  }

  lemma SortedPair(reqs: map<Id, Req>, c: Id, b: Id)
    requires b in reqs && c in reqs && reqs[c].priority > reqs[b].priority
    ensures Sort(reqs, [c, b]) == [c, b] && [c] + [b] == [c, b]
  {
    var q: seq<Id> := [];
    assert [c, b][1..] == [b] && [b][1..] == q;
    assert Sort(reqs, q) == q;
    assert Insert(reqs, b, q) == [b];
    assert Sort(reqs, [b]) == [b];
    assert Insert(reqs, c, [b]) == [c] + [b];
  }
}
