/** Steps of an engine with one slot, a single layer and a pool no block of which was evicted
    yet, while one request lives. */
module Alone {
  import opened Util
  import opened Hashing
  import opened BlockPoolSpec
  import opened BlockManagerSpec
  import opened BlockManagerInv
  import opened AllocationInv
  import opened SchedulerSpec
  import opened SchedulerInv
  import opened Untouched

  // ------------------------------------------------------------------ allocating

  lemma FreshBound(kv: KV, bs: nat, id: Id, computed: nat, n: nat, hits: seq<BlockId>)
    requires bs > 0
    ensures FreshNeeded(kv, bs, id, computed, n, hits) <= CeilDiv(Total(bs, computed, n, hits), bs)
  {
    hide CeilDiv;
  }

  /** The request's pending tokens get their slots. */
  lemma GrantGently(cfg: Config, s: Sched, id: Id, m: nat)
    requires SInv(cfg, s, []) && id in s.running && id in s.reqs && s.kv.pool.caching && Virgin(s.kv.pool, m) && Chained(s.kv, id)
    requires s.reqs[id].computed <= s.reqs[id].NumTokens() && CeilDiv(s.reqs[id].NumTokens(), cfg.blockSize) <= m
    ensures KvShaped(s.kv)
    ensures var r := s.reqs[id];
      var a := AllocateSlots(s.kv, cfg.blockSize, id, r.Tokens(), r.computed, r.NumTokens() - r.computed, []);
      && a.1.Some? && Grows(s.kv.pool, a.0.pool) && Chained(a.0, id)
      && Virgin(a.0.pool, m - CeilDiv(r.NumTokens(), cfg.blockSize))
      && forall b :: 0 <= b < |s.kv.pool.refs| && s.kv.pool.hash[b] != NoHash ==> a.0.pool.refs[b] == s.kv.pool.refs[b]
  {
    hide KvOk, TableOk, AllocateSlots, FreshNeeded, CeilDiv, Virgin, Grows, Chained, Filling, Bounded, Statuses, Arrivals;
    SInvWf(cfg, s, []);
    var r := s.reqs[id];
    assert RowOk(cfg, s, [], id);
    NoHits(s.kv.pool, cfg.blockSize, r.Tokens());
    var n := r.NumTokens() - r.computed;
    assert Total(cfg.blockSize, r.computed, n, []) == r.NumTokens();
    FreshBound(s.kv, cfg.blockSize, id, r.computed, n, []);
    AllocateVirgin(s.kv, cfg.blockSize, id, r.Tokens(), r.computed, n, [], m);
    VirginLess(AllocateSlots(s.kv, cfg.blockSize, id, r.Tokens(), r.computed, n, []).0.pool,
               m - FreshNeeded(s.kv, cfg.blockSize, id, r.computed, n, []), m - CeilDiv(r.NumTokens(), cfg.blockSize));
  }

  /** A waiting request gets the cached leading blocks and slots for the rest of its tokens. */
  lemma AdmitGently(cfg: Config, s: Sched, id: Id, m: nat)
    requires SInv(cfg, s, []) && id in s.waiting && id in s.reqs && s.kv.pool.caching && Virgin(s.kv.pool, m)
    requires CeilDiv(s.reqs[id].NumTokens(), cfg.blockSize) <= m
    ensures KvShaped(s.kv)
    ensures var r := s.reqs[id]; var (kv1, hits, cached) := GetComputed(s.kv, cfg.blockSize, r.Tokens());
      && KvShaped(kv1) && InPool(kv1.pool, hits) && r.computed == 0
      && cached == |hits| * cfg.blockSize < r.NumTokens()
      && Leading(s.kv.pool, cfg.blockSize, r.Tokens(), hits)
      && ((|hits| + 1) * cfg.blockSize < r.NumTokens() ==> Chain(r.Tokens(), cfg.blockSize, |hits| + 1) !in s.kv.pool.cached)
      && var a := AllocateSlots(kv1, cfg.blockSize, id, r.Tokens(), 0, r.NumTokens() - cached, hits);
      && a.1.Some? && Grows(s.kv.pool, a.0.pool) && Chained(a.0, id) && hits <= TableOf(a.0, id)
      && Virgin(a.0.pool, m - CeilDiv(r.NumTokens(), cfg.blockSize))
      && forall b :: 0 <= b < |s.kv.pool.refs| && s.kv.pool.hash[b] != NoHash && b !in hits ==> a.0.pool.refs[b] == s.kv.pool.refs[b]
  {
    hide KvOk, TableOk, AllocateSlots, GetComputed, FreshNeeded, CeilDiv, Virgin, Chained, Leading, Filling, Arrivals, Allocated,
         OthersKept;
    SInvWf(cfg, s, []);
    assert StatusOk(s, id);
    var r, bs := s.reqs[id], cfg.blockSize;
    var toks := r.Tokens();
    GetComputedKv(s.kv, bs, toks);
    GetComputedVirgin(s.kv, bs, toks, m);
    var (kv1, hits, cached) := GetComputed(s.kv, bs, toks);
    HandInPool(kv1, bs, hits);
    EmptyRow(kv1, bs, id, toks);
    LeadingSame(kv1.pool, s.kv.pool, bs, toks, hits);
    var n := r.NumTokens() - cached;
    assert Total(bs, 0, n, hits) == r.NumTokens();
    FreshBound(kv1, bs, id, 0, n, hits);
    NoChain(kv1, id);
    AllocateVirgin(kv1, bs, id, toks, 0, n, hits, m);
    VirginRoom(kv1.pool, m);
    AllocateKv(kv1, bs, id, toks, 0, n, hits);
    AllocatedPrefix(kv1, AllocateSlots(kv1, bs, id, toks, 0, n, hits).0, bs, id, toks, Total(bs, 0, n, hits), hits);
    VirginLess(AllocateSlots(kv1, bs, id, toks, 0, n, hits).0.pool, m - FreshNeeded(kv1, bs, id, 0, n, hits), m - CeilDiv(r.NumTokens(), bs));
    forall b | 0 <= b < |s.kv.pool.refs| && b !in hits ensures kv1.pool.refs[b] == s.kv.pool.refs[b] {
      LookupQuiet(s.kv, kv1, bs, hits, b);
    }
    assert Grows(s.kv.pool, kv1.pool);
  }

  lemma LeadingSame(p: Pool, q: Pool, bs: nat, toks: seq<Token>, hits: seq<BlockId>)
    requires Leading(p, bs, toks, hits) && SameContents(q, p)
    ensures Leading(q, bs, toks, hits)
  {
  }

  lemma NoChain(kv: KV, id: Id)
    requires id !in kv.chains
    ensures Chained(kv, id)
  {
  }

  lemma AllocatedPrefix(kv: KV, kv': KV, bs: nat, id: Id, toks: seq<Token>, total: nat, hits: seq<BlockId>)
    requires bs > 0 && id !in kv.tables && Allocated(kv, kv', bs, id, toks, total, TableOf(kv, id) + hits)
    ensures hits <= TableOf(kv', id)
  {
    hide KvOk, TableOk, HashSources;
    assert TableOf(kv, id) + hits == hits;
  }
}
