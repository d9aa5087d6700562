/** While the free queue starts with blocks that were never cached, allocating evicts nothing:
    the cache map only grows. */
module Untouched {
  import opened Util
  import opened Hashing
  import opened BlockPoolSpec
  import opened BlockManagerSpec
  import opened BlockManagerInv
  import opened AllocationInv

  /** The next m blocks to be handed out cache nothing. */
  ghost predicate Virgin(p: Pool, m: nat) {
    m <= |p.free| && forall i :: 0 <= i < m ==> p.free[i] < |p.hash| && p.hash[p.free[i]] == NoHash
  }

  /** Whatever was cached still is, in the same block. */
  ghost predicate Grows(p: Pool, q: Pool) {
    q.caching == p.caching && |q.refs| == |p.refs| && forall h :: h in p.cached ==> h in q.cached && q.cached[h] == p.cached[h]
  }

  lemma GrowsTrans(p: Pool, q: Pool, r: Pool)
    requires Grows(p, q) && Grows(q, r)
    ensures Grows(p, r)
  {
  }

  lemma VirginLess(p: Pool, m: nat, n: nat)
    requires Virgin(p, m) && n <= m
    ensures Virgin(p, n)
  {
  }

  // ------------------------------------------------------------------ the pool

  lemma {:induction false} TakeCached(p: Pool, n: nat, m: nat)
    requires Shaped(p) && n <= m && Virgin(p, m) && Distinct(p.free)
    ensures Take(p, n).cached == p.cached
    decreases n
  {
    if n > 0 {
      var q := TakeOne(p);
      forall i | 0 <= i < m - 1 ensures q.free[i] < |q.hash| && q.hash[q.free[i]] == NoHash {
        assert q.free[i] == p.free[i + 1];
      }
      forall i, j | 0 <= i < j < |q.free| ensures q.free[i] != q.free[j] {
        assert q.free[i] == p.free[i + 1] && q.free[j] == p.free[j + 1];
      }
      TakeCached(q, n - 1, m - 1);
    }
  }

  /** Taking blocks that cache nothing leaves every cached block as it was. */
  lemma TakeVirgin(p: Pool, n: nat, m: nat)
    requires PoolOk(p) && n <= m && Virgin(p, m)
    ensures var q := Take(p, n);
      && Grows(p, q) && q.cached == p.cached && Virgin(q, m - n)
      && forall b :: 0 <= b < |p.refs| && p.hash[b] != NoHash ==> q.refs[b] == p.refs[b] && q.hash[b] == p.hash[b]
  {
    TakeOk(p, n);
    TakeCached(p, n, m);
    var q := Take(p, n);
    forall b | b in p.free[..n] ensures b < |p.hash| && p.hash[b] == NoHash { var i :| 0 <= i < n && p.free[i] == b; }
    forall i | 0 <= i < m - n ensures q.free[i] < |q.hash| && q.hash[q.free[i]] == NoHash {
      assert q.free[i] == p.free[i + n];
    }
  }

  lemma {:induction false} RemoveBeyond(s: seq<BlockId>, x: BlockId, m: nat)
    requires m <= |s| && x !in s[..m]
    ensures m <= |Remove(s, x)| && Remove(s, x)[..m] == s[..m]
  {
    if m > 0 {
      assert s[0] == s[..m][0];
      assert s[1..][..m - 1] == s[..m][1..];
      RemoveBeyond(s[1..], x, m - 1);
      assert Remove(s, x) == [s[0]] + Remove(s[1..], x);
    }
  }

  lemma LookupVirgin(p: Pool, h: BlockHash, m: nat)
    requires PoolOk(p) && Virgin(p, m)
    ensures Virgin(Lookup(p, h).0, m)
  {
    if p.caching && h in p.cached {
      var b := p.cached[h];
      assert b !in p.free[..m];
      RemoveBeyond(p.free, b, m);
      var q := Lookup(p, h).0;
      forall i | 0 <= i < m ensures q.free[i] == p.free[i] { assert q.free[..m][i] == p.free[..m][i]; }
    }
  }

  lemma ReleaseVirgin(p: Pool, b: BlockId, m: nat)
    requires PoolOk(p) && Virgin(p, m) && b < |p.refs| && p.refs[b] > 0
    ensures Virgin(Release(p, b), m)
  {
    ReleaseOk(p, b);
  }

  lemma {:induction false} ReleaseAllVirgin(kv: KV, bs: nat, hand: seq<BlockId>, m: nat)
    requires KvOk(kv, bs, hand) && Virgin(kv.pool, m)
    ensures Virgin(ReleaseAll(kv.pool, hand), m)
    decreases |hand|
  {
    if hand != [] {
      ReleaseKv(kv, bs, hand);
      ReleaseVirgin(kv.pool, hand[0], m);
      ReleaseAllVirgin(kv.(pool := Release(kv.pool, hand[0])), bs, hand[1..], m);
    }
  }

  lemma SameGrows(p: Pool, q: Pool)
    requires SameContents(p, q) && |q.refs| == |p.refs|
    ensures Grows(p, q)
  {
  }

  /** Freeing a request forgets nothing. */
  lemma FreeVirgin(kv: KV, bs: nat, id: Id, m: nat)
    requires KvOk(kv, bs, []) && Distinct(TableOf(kv, id)) && Virgin(kv.pool, m)
    ensures var kv' := FreeRequest(kv, id);
      && Virgin(kv'.pool, m) && SameContents(kv.pool, kv'.pool) && |kv'.pool.refs| == |kv.pool.refs|
      && forall b :: 0 <= b < |kv.pool.refs| && kv.pool.refs[b] == 0 ==> kv'.pool.refs[b] == 0
  {
    hide PoolOk, Counted, HashesBlocked, Reverse, ReleaseAll, Virgin;
    DetachKv(kv, bs, id);
    var kv1 := kv.(tables := kv.tables - {id});
    ReleaseAllKv(kv1, bs, Reverse(TableOf(kv, id)));
    ReleaseAllVirgin(kv1, bs, Reverse(TableOf(kv, id)), m);
  }

  // ------------------------------------------------------------------ looking up

  lemma {:induction false} LookupRunVirgin(kv: KV, bs: nat, tokens: seq<Token>, found: seq<BlockId>, m: nat)
    requires bs > 0 && KvOk(kv, bs, found) && Leading(kv.pool, bs, tokens, found) && Virgin(kv.pool, m)
    ensures Virgin(LookupRun(kv.pool, bs, tokens, found, Chain(tokens, bs, |found|)).0, m)
    decreases |tokens| - |found| * bs
  {
    hide PoolOk, Counted, HashesBlocked, Chain, Lookup, Virgin;
    var start := |found| * bs;
    assert (|found| + 1) * bs == start + bs;
    if start + bs <= |tokens| {
      ChainStep(tokens, bs, |found|);
      LookupStepKv(kv, bs, tokens, found);
      PoolOf(kv, bs, found);
      LookupVirgin(kv.pool, Chain(tokens, bs, |found| + 1), m);
      var (q, hit) := Lookup(kv.pool, Chain(tokens, bs, |found| + 1));
      if hit.Some? {
        LookupRunVirgin(kv.(pool := q), bs, tokens, found + [hit.value], m);
      }
    }
  }

  lemma PoolOf(kv: KV, bs: nat, hand: seq<BlockId>)
    requires KvOk(kv, bs, hand)
    ensures PoolOk(kv.pool)
  {
  }

  lemma GetComputedVirgin(kv: KV, bs: nat, tokens: seq<Token>, m: nat)
    requires bs > 0 && KvOk(kv, bs, []) && tokens != [] && Virgin(kv.pool, m)
    ensures Virgin(GetComputed(kv, bs, tokens).0.pool, m)
  {
    hide PoolOk, Counted, HashesBlocked, LookupRun, Chain, Release, Virgin, Leading;
    NoneFound(kv.pool, bs, tokens);
    if kv.pool.caching {
      LookupRunKv(kv, bs, tokens, []);
      LookupRunVirgin(kv, bs, tokens, [], m);
      var (p, found) := LookupRun(kv.pool, bs, tokens, [], NoHash);
      LeadingLength(p, bs, tokens, found);
      if found != [] && |found| * bs == |tokens| {
        DropLastKv(kv.(pool := p), bs, tokens, found);
        PoolOf(kv.(pool := p), bs, found);
        ReleaseVirgin(p, found[|found| - 1], m);
      }
    }
  }

  /** A lookup takes references on the blocks it returns and on no others. */
  lemma LookupQuiet(kv: KV, kv': KV, bs: nat, hits: seq<BlockId>, b: BlockId)
    requires KvOk(kv, bs, []) && KvOk(kv', bs, hits) && kv'.tables == kv.tables && SameContents(kv.pool, kv'.pool)
    requires |kv'.pool.refs| == |kv.pool.refs| && b < |kv.pool.refs| && b !in hits
    ensures kv'.pool.refs[b] == kv.pool.refs[b]
  {
  }

  // ------------------------------------------------------------------ registering

  /** Every full block of the request is cached, under its own block or an earlier one. */
  ghost predicate Chained(kv: KV, id: Id) {
    forall i :: 0 <= i < |ChainOf(kv, id)| ==> ChainOf(kv, id)[i] in kv.pool.cached
  }

  lemma RegisterStepGrows(kv: KV, bs: nat, id: Id, toks: seq<Token>, numFull: nat)
    requires bs > 0 && KvOk(kv, bs, []) && RegisterReady(kv, bs, id, toks, numFull) && |ChainOf(kv, id)| < numFull
    requires kv.pool.caching && Chained(kv, id)
    ensures var r := RegisterStep(kv, bs, id, toks); Grows(kv.pool, r.pool) && Chained(r, id) && r.pool.free == kv.pool.free
    ensures forall b :: 0 <= b < |kv.pool.hash| && kv.pool.refs[b] == 0 ==> RegisterStep(kv, bs, id, toks).pool.hash[b] == kv.pool.hash[b]
  {
    hide Chain, RegisterStep, Distinct, Blocked, Counted, HashesBlocked;
    RegisterStepIs(kv, bs, id, toks, numFull);
    var m := |ChainOf(kv, id)|;
    var t := TableOf(kv, id);
    assert HashAt(kv, t, ChainOf(kv, id), m);
    HeldCounted(kv, bs, id, m);
  }

  lemma HeldCounted(kv: KV, bs: nat, id: Id, i: nat)
    requires KvOk(kv, bs, []) && i < |TableOf(kv, id)|
    ensures TableOf(kv, id)[i] < |kv.pool.refs| && kv.pool.refs[TableOf(kv, id)[i]] > 0
  {
    var b := TableOf(kv, id)[i];
    assert b in kv.tables[id];
    HolderExists(kv.tables, b, id);
  }

  lemma {:induction false} RegisterFullGrows(kv: KV, bs: nat, id: Id, toks: seq<Token>, numFull: nat)
    requires bs > 0 && KvOk(kv, bs, []) && RegisterReady(kv, bs, id, toks, numFull) && kv.pool.caching && Chained(kv, id)
    ensures var r := RegisterFull(kv, bs, id, toks, numFull);
      && Grows(kv.pool, r.pool) && Chained(r, id) && r.pool.free == kv.pool.free && r.pool.refs == kv.pool.refs
      && |r.pool.hash| == |kv.pool.hash|
      && forall b :: 0 <= b < |kv.pool.hash| && kv.pool.refs[b] == 0 ==> r.pool.hash[b] == kv.pool.hash[b]
    decreases numFull - |ChainOf(kv, id)|
  {
    hide PoolOk, Counted, HashesBlocked, Chain, Register, HashAt, Chained, RegisterReady;
    ReadyChain(kv, bs, id, toks, numFull);
    if |ChainOf(kv, id)| < numFull {
      RegisterStepKv(kv, bs, id, toks, numFull);
      RegisterStepReady(kv, bs, id, toks, numFull);
      RegisterStepOnly(kv, bs, id, toks, numFull);
      RegisterStepGrows(kv, bs, id, toks, numFull);
      var kv1 := RegisterStep(kv, bs, id, toks);
      OnlySame(kv, kv1, bs, id, toks, |ChainOf(kv, id)|, numFull);
      RegisterFullGrows(kv1, bs, id, toks, numFull);
      GrowsTrans(kv.pool, kv1.pool, RegisterFull(kv1, bs, id, toks, numFull).pool);
      assert RegisterFull(kv, bs, id, toks, numFull) == RegisterFull(kv1, bs, id, toks, numFull);
    }
  }

  lemma ReadyChain(kv: KV, bs: nat, id: Id, toks: seq<Token>, numFull: nat)
    requires RegisterReady(kv, bs, id, toks, numFull)
    ensures |ChainOf(kv, id)| <= numFull <= |TableOf(kv, id)|
  {
  }

  lemma OnlySame(kv: KV, kv': KV, bs: nat, id: Id, toks: seq<Token>, lo: nat, hi: nat)
    requires OnlyRegistered(kv, kv', bs, id, toks, lo, hi)
    ensures kv'.pool.refs == kv.pool.refs && |kv'.pool.hash| == |kv.pool.hash| && kv'.pool.caching == kv.pool.caching
  {
  }

  /** Registering hashes touches no block that is free. */
  lemma VirginSame(p: Pool, q: Pool, m: nat)
    requires PoolOk(p) && Virgin(p, m) && q.free == p.free && |q.hash| == |p.hash|
    requires forall b :: 0 <= b < |p.hash| && p.refs[b] == 0 ==> q.hash[b] == p.hash[b]
    ensures Virgin(q, m)
  {
    forall i | 0 <= i < m ensures q.hash[q.free[i]] == NoHash { assert p.free[i] in p.free; }
  }

  // ------------------------------------------------------------------ allocate_slots

  lemma AttachVirgin(kv: KV, bs: nat, id: Id, toks: seq<Token>, computed: nat, n: nat, hits: seq<BlockId>, m: nat)
    requires CanAllocate(kv, bs, id, toks, computed, n, hits) && kv.pool.caching && Virgin(kv.pool, m)
    requires FreshNeeded(kv, bs, id, computed, n, hits) <= m && (hits == [] ==> Chained(kv, id))
    ensures var kv1 := Attach(kv, bs, id, computed, n, hits);
      && Grows(kv.pool, kv1.pool) && Chained(kv1, id) && Virgin(kv1.pool, m - FreshNeeded(kv, bs, id, computed, n, hits))
      && forall b :: 0 <= b < |kv.pool.refs| && kv.pool.hash[b] != NoHash ==> kv1.pool.refs[b] == kv.pool.refs[b]
  {
    hide Counted, HashesBlocked, FreshNeeded, TableOk, Chain;
    var k := FreshNeeded(kv, bs, id, computed, n, hits);
    TakeVirgin(kv.pool, k, m);
    if hits != [] {
      var p := Take(kv.pool, k);
      forall i | 0 <= i < |hits| ensures hits[i] < |p.hash| && p.hash[hits[i]] == kv.pool.hash[hits[i]] != NoHash && p.hash[hits[i]] in p.cached {
        assert hits[i] in hits;
        ChainStep(toks, bs, i);
      }
      forall b | b in hits ensures p.hash[b] != NoHash { var i :| 0 <= i < |hits| && hits[i] == b; }
      HashesOfRegistered(p, hits);
    }
    var kv1 := Attach(kv, bs, id, computed, n, hits);
    forall i | 0 <= i < |ChainOf(kv1, id)| ensures ChainOf(kv1, id)[i] in kv1.pool.cached {
      if hits == [] { assert ChainOf(kv1, id) == ChainOf(kv, id); } else { assert ChainOf(kv1, id)[i] == kv1.pool.hash[hits[i]]; }
    }
  }

  /** allocate_slots on such a pool: nothing cached is lost, the request's full blocks end up
      cached, and no block that was cached gains or loses a reference. */
  lemma AllocateVirgin(kv: KV, bs: nat, id: Id, toks: seq<Token>, computed: nat, n: nat, hits: seq<BlockId>, m: nat)
    requires CanAllocate(kv, bs, id, toks, computed, n, hits) && kv.pool.caching && Virgin(kv.pool, m)
    requires FreshNeeded(kv, bs, id, computed, n, hits) <= m && (hits == [] ==> Chained(kv, id))
    ensures AllocateSlots(kv, bs, id, toks, computed, n, hits).1.Some?
    ensures var kv' := AllocateSlots(kv, bs, id, toks, computed, n, hits).0;
      && Grows(kv.pool, kv'.pool) && Chained(kv', id) && Virgin(kv'.pool, m - FreshNeeded(kv, bs, id, computed, n, hits))
      && forall b :: 0 <= b < |kv.pool.refs| && kv.pool.hash[b] != NoHash ==> kv'.pool.refs[b] == kv.pool.refs[b]
  {
    hide KvOk, FloorDiv, CeilDiv, FreshNeeded, TableOk, RegisterReady, CacheFull, AllocateSlots, Attach, Leading, Virgin, Chained;
    HandInPool(kv, bs, hits);
    VirginRoom(kv.pool, m);
    AllocateIs(kv, bs, id, toks, computed, n, hits);
    AttachTables(kv, bs, id, toks, computed, n, hits);
    AttachReady(kv, bs, id, toks, computed, n, hits);
    AttachVirgin(kv, bs, id, toks, computed, n, hits, m);
    var kv1 := Attach(kv, bs, id, computed, n, hits);
    CacheFullGrows(kv1, bs, id, toks, Total(bs, computed, n, hits), m - FreshNeeded(kv, bs, id, computed, n, hits));
    GrowsTrans(kv.pool, kv1.pool, CacheFull(kv1, bs, id, toks, Total(bs, computed, n, hits)).pool);
  }

  lemma VirginRoom(p: Pool, m: nat)
    requires Virgin(p, m)
    ensures m <= |p.free|
  {
  }

  lemma CacheFullGrows(kv: KV, bs: nat, id: Id, toks: seq<Token>, total: nat, m: nat)
    requires bs > 0 && KvOk(kv, bs, []) && FloorDiv(total, bs) <= |TableOf(kv, id)|
    requires RegisterReady(kv, bs, id, toks, FloorDiv(total, bs)) && kv.pool.caching && Chained(kv, id) && Virgin(kv.pool, m)
    ensures var r := CacheFull(kv, bs, id, toks, total);
      Grows(kv.pool, r.pool) && Chained(r, id) && Virgin(r.pool, m) && r.pool.refs == kv.pool.refs
  {
    hide PoolOk, Counted, HashesBlocked, Chain, HashAt, RegisterFull, FloorDiv, Virgin;
    var kv0 := kv.(chains := kv.chains[id := ChainOf(kv, id)]);
    assert ChainOf(kv0, id) == ChainOf(kv, id) && TableOf(kv0, id) == TableOf(kv, id);
    CountedTables(kv, kv0, bs);
    forall i | 0 <= i < |TableOf(kv0, id)| ensures HashAt(kv0, TableOf(kv0, id), ChainOf(kv0, id), i) {
      HashAtSame(kv, kv0, TableOf(kv, id), ChainOf(kv, id), i);
    }
    RegisterFullGrows(kv0, bs, id, toks, FloorDiv(total, bs));
    PoolOf(kv, bs, []);
    VirginSame(kv.pool, RegisterFull(kv0, bs, id, toks, FloorDiv(total, bs)).pool, m);
  }

  lemma HashAtSame(kv: KV, kv0: KV, t: seq<BlockId>, c: seq<BlockHash>, i: nat)
    requires i < |t| && HashAt(kv, t, c, i) && kv0.pool == kv.pool
    ensures HashAt(kv0, t, c, i)
  {
  }
}
