/** allocate_slots and free as whole operations: what a success establishes, what every
    other request keeps, and which block hashes can be new. */
module AllocationInv {
  import opened Util
  import opened Hashing
  import opened BlockPoolSpec
  import opened BlockManagerSpec
  import opened BlockManagerInv

  /** The caller's side of allocate_slots: hits are leading blocks, attached only at admission. */
  ghost predicate CanAllocate(kv: KV, bs: nat, id: Id, toks: seq<Token>, computed: nat, n: nat, hits: seq<BlockId>) {
    && bs > 0 && KvOk(kv, bs, hits)
    && Leading(kv.pool, bs, toks, hits)
    && (hits != [] ==> computed == 0 && kv.pool.caching)
    && TableOk(kv, bs, id, toks, computed)
    && Total(bs, computed, n, hits) <= |toks|
  }

  /** The filter on None in allocate_slots drops nothing when every block is registered. */
  lemma {:induction false} HashesOfRegistered(p: Pool, hits: seq<BlockId>)
    requires Shaped(p) && InPool(p, hits)
    requires forall b :: b in hits ==> p.hash[b] != NoHash
    ensures |HashesOf(p, hits)| == |hits|
    ensures forall i :: 0 <= i < |hits| ==> hits[i] < |p.hash| && HashesOf(p, hits)[i] == p.hash[hits[i]]
    decreases |hits|
  {
    if hits != [] {
      var rest := hits[1..];
      assert hits[0] in hits && forall b :: b in rest ==> b in hits;
      HashesOfRegistered(p, rest);
      assert HashesOf(p, hits) == [p.hash[hits[0]]] + HashesOf(p, rest);
    }
  }

  /** The table has exactly the minimum number of blocks: ceil(total / block_size). */
  lemma FreshCount(kv: KV, bs: nat, id: Id, toks: seq<Token>, computed: nat, n: nat, hits: seq<BlockId>)
    requires bs > 0 && KvShaped(kv) && TableOk(kv, bs, id, toks, computed)
    requires hits != [] ==> computed == 0
    ensures |TableOf(kv, id)| + |hits| + FreshNeeded(kv, bs, id, computed, n, hits)
         == CeilDiv(Total(bs, computed, n, hits), bs)
  {
    hide HashAt, Chain, Distinct;
    var total := Total(bs, computed, n, hits);
    if hits == [] {
      CeilDivMono(computed, total, bs);
    } else {
      CeilDivBounds(0, bs);
      CeilDivBounds(total, bs);
      if CeilDiv(total, bs) < |hits| {
        var c := CeilDiv(total, bs);
        assert (c + 1) * bs == c * bs + bs;
        MulMono(c + 1, |hits|, bs);
      }
    }
  }

  lemma AttachTables(kv: KV, bs: nat, id: Id, toks: seq<Token>, computed: nat, n: nat, hits: seq<BlockId>)
    requires CanAllocate(kv, bs, id, toks, computed, n, hits)
    requires FreshNeeded(kv, bs, id, computed, n, hits) <= |kv.pool.free|
    ensures KvOk(Attach(kv, bs, id, computed, n, hits), bs, [])
    ensures Distinct(TableOf(Attach(kv, bs, id, computed, n, hits), id))
  {
    var k := FreshNeeded(kv, bs, id, computed, n, hits);
    TakeKv(kv, bs, hits, k);
    var took := kv.pool.free[..k];
    var kv1 := kv.(pool := Take(kv.pool, k));
    var cur := TableOf(kv, id);
    var kv2 := Attach(kv, bs, id, computed, n, hits);
    EmptyAtAdmission(kv, bs, id, toks, computed, hits);
    hide PoolOk, HashesBlocked, Take, CeilDiv, Attach, FreshNeeded, TableOk, Leading;
    assert forall b :: b in cur ==> b !in took by { if id in kv.tables {} }
    AttachKv(kv1, bs, hits + took, id);
    assert cur + hits + took == cur + (hits + took);
    CountedTables(kv1.(tables := kv1.tables[id := TableOf(kv1, id) + (hits + took)]), kv2, bs);
    DistinctConcat(cur, hits + took);
  }

  lemma EmptyAtAdmission(kv: KV, bs: nat, id: Id, toks: seq<Token>, computed: nat, hits: seq<BlockId>)
    requires bs > 0 && KvShaped(kv) && TableOk(kv, bs, id, toks, computed)
    requires hits != [] ==> computed == 0
    ensures hits != [] ==> TableOf(kv, id) == [] && ChainOf(kv, id) == []
    ensures Distinct(TableOf(kv, id))
    ensures forall b :: b in TableOf(kv, id) ==> b !in hits
  {
    CeilDivBounds(0, bs);
    FloorBounds(0, bs);
    if hits != [] {
      MulStrict(-1, 0, bs);
    }
  }

  /** The pool side of Attach: taken blocks lose their hashes, every other block keeps its own. */
  lemma AttachPool(kv: KV, bs: nat, id: Id, computed: nat, n: nat, hits: seq<BlockId>)
    requires bs > 0 && KvOk(kv, bs, hits)
    requires FreshNeeded(kv, bs, id, computed, n, hits) <= |kv.pool.free|
    ensures var k := FreshNeeded(kv, bs, id, computed, n, hits); var p := Attach(kv, bs, id, computed, n, hits).pool;
      && p.caching == kv.pool.caching && |p.hash| == |kv.pool.hash|
      && (forall b :: b in kv.pool.free[..k] ==> b < |p.hash| && p.hash[b] == NoHash && kv.pool.refs[b] == 0)
      && (forall b :: 0 <= b < |p.hash| && b !in kv.pool.free[..k] ==> p.hash[b] == kv.pool.hash[b])
      && (forall b :: b in hits ==> b !in kv.pool.free[..k])
      && (forall r, b :: r in kv.tables && b in kv.tables[r] ==> b !in kv.pool.free[..k])
  {
    var k := FreshNeeded(kv, bs, id, computed, n, hits);
    TakeOk(kv.pool, k);
    TakeKv(kv, bs, hits, k);
  }

  lemma AttachChain(kv: KV, bs: nat, id: Id, toks: seq<Token>, computed: nat, n: nat, hits: seq<BlockId>)
    requires CanAllocate(kv, bs, id, toks, computed, n, hits)
    requires FreshNeeded(kv, bs, id, computed, n, hits) <= |kv.pool.free|
    ensures var c := ChainOf(Attach(kv, bs, id, computed, n, hits), id);
      && |c| == (if kv.pool.caching then FloorDiv(computed + |hits| * bs, bs) else 0)
      && (forall i :: 0 <= i < |c| ==> c[i] == Chain(toks, bs, i + 1))
  {
    hide PoolOk, Counted, HashesBlocked, Take, CeilDiv, FloorDiv, FreshNeeded, HashAt, Chain, HashesOf;
    AttachPool(kv, bs, id, computed, n, hits);
    EmptyAtAdmission(kv, bs, id, toks, computed, hits);
    MulMono(0, |hits|, bs);
    if hits != [] {
      var p := Attach(kv, bs, id, computed, n, hits).pool;
      DivModUnique(|hits|, 0, bs);
      forall i | 0 <= i < |hits| ensures hits[i] < |p.hash| && p.hash[hits[i]] == Chain(toks, bs, i + 1) {
        assert hits[i] in hits;
      }
      forall b | b in hits ensures p.hash[b] != NoHash {
        var i :| 0 <= i < |hits| && hits[i] == b;
        ChainStep(toks, bs, i);
      }
      HashesOfRegistered(p, hits);
    }
  }

  /** Rows made of old blocks, hits and fresh blocks, in that order. */
  lemma HashAtJoined(kv: KV, kv1: KV, bs: nat, toks: seq<Token>, cur: seq<BlockId>, hits: seq<BlockId>, took: seq<BlockId>,
                     c0: seq<BlockHash>, c: seq<BlockHash>, i: nat)
    requires |kv1.pool.hash| == |kv.pool.hash|
    requires forall b :: b in took ==> b < |kv.pool.hash| && kv1.pool.hash[b] == NoHash
    requires forall b :: 0 <= b < |kv.pool.hash| && b !in took ==> kv1.pool.hash[b] == kv.pool.hash[b]
    requires forall b :: b in cur || b in hits ==> b !in took
    requires forall j :: 0 <= j < |cur| ==> HashAt(kv, cur, c0, j)
    requires if hits == [] then c == c0 else cur == [] && |c| == |hits|
    requires forall j :: 0 <= j < |hits| ==> hits[j] < |kv.pool.hash| && kv.pool.hash[hits[j]] == c[j]
    requires i < |cur + hits + took|
    ensures HashAt(kv1, cur + hits + took, c, i)
  {
    var t := cur + hits + took;
    if i < |cur| {
      assert HashAt(kv, cur, c0, i);
      assert t[i] == cur[i] && cur[i] in cur;
    } else if i < |cur| + |hits| {
      assert t[i] == hits[i - |cur|] && hits[i - |cur|] in hits;
    } else {
      assert t[i] == took[i - |cur| - |hits|];
      assert t[i] in took;
    }
  }

  lemma AttachHashes(kv: KV, bs: nat, id: Id, toks: seq<Token>, computed: nat, n: nat, hits: seq<BlockId>)
    requires CanAllocate(kv, bs, id, toks, computed, n, hits)
    requires FreshNeeded(kv, bs, id, computed, n, hits) <= |kv.pool.free|
    ensures var kv1 := Attach(kv, bs, id, computed, n, hits); var t := TableOf(kv1, id);
      forall i :: 0 <= i < |t| ==> HashAt(kv1, t, ChainOf(kv1, id), i)
  {
    hide PoolOk, Counted, HashesBlocked, Take, CeilDiv, Chain, HashAt, Shaped;
    HandInPool(kv, bs, hits);
    AttachPool(kv, bs, id, computed, n, hits);
    AttachChain(kv, bs, id, toks, computed, n, hits);
    EmptyAtAdmission(kv, bs, id, toks, computed, hits);
    if hits != [] { DivModUnique(|hits|, 0, bs); }
    var kv1 := Attach(kv, bs, id, computed, n, hits);
    var k := FreshNeeded(kv, bs, id, computed, n, hits);
    var cur, took := TableOf(kv, id), kv.pool.free[..k];
    var c := ChainOf(kv1, id);
    assert TableOf(kv1, id) == cur + hits + took;
    forall i | 0 <= i < |cur + hits + took| ensures HashAt(kv1, cur + hits + took, c, i) {
      HashAtJoined(kv, kv1, bs, toks, cur, hits, took, ChainOf(kv, id), c, i);
    }
  }

  /** Every row but id's is untouched. */
  ghost predicate OthersKept(kv: KV, kv': KV, id: Id) {
    && kv'.pool.caching == kv.pool.caching
    && |kv'.pool.hash| == |kv.pool.hash|
    && kv'.tables.Keys - {id} == kv.tables.Keys - {id}
    && kv'.chains.Keys - {id} <= kv.chains.Keys - {id}
    && forall r :: r != id && r in kv.tables ==> SameRow(kv, kv', r)
  }

  /** A hash present afterwards was there before, or names one of id's own newly full blocks. */
  ghost predicate HashSources(kv: KV, kv': KV, bs: nat, id: Id, toks: seq<Token>, total: nat)
    requires bs > 0
  {
    && |kv'.pool.hash| == |kv.pool.hash|
    && forall b :: 0 <= b < |kv.pool.hash| && kv'.pool.hash[b] != NoHash ==>
         kv'.pool.hash[b] == kv.pool.hash[b] || OwnBlock(kv', bs, id, toks, total, b)
  }

  ghost predicate OwnBlock(kv: KV, bs: nat, id: Id, toks: seq<Token>, total: nat, b: BlockId)
    requires bs > 0 && b < |kv.pool.hash|
  {
    exists i :: RegisteredAt(kv.pool, TableOf(kv, id), bs, toks, 0, FloorDiv(total, bs), b, i)
  }

  /** Blocks beyond position `from` of id's row are in nobody else's row. */
  ghost predicate FreshPrivate(kv: KV, kv': KV, id: Id, from: nat) {
    forall r, i :: r != id && r in kv.tables && from <= i < |TableOf(kv', id)| ==> TableOf(kv', id)[i] !in kv.tables[r]
  }

  ghost predicate Allocated(kv: KV, kv': KV, bs: nat, id: Id, toks: seq<Token>, total: nat, before: seq<BlockId>)
    requires bs > 0
  {
    && KvOk(kv', bs, [])
    && id in kv'.tables
    && TableOk(kv', bs, id, toks, total)
    && before <= TableOf(kv', id)
    && FreshPrivate(kv, kv', id, |before|)
    && OthersKept(kv, kv', id)
    && HashSources(kv, kv', bs, id, toks, total)
  }

  lemma AttachOthers(kv: KV, bs: nat, id: Id, computed: nat, n: nat, hits: seq<BlockId>)
    requires bs > 0 && KvOk(kv, bs, hits)
    requires FreshNeeded(kv, bs, id, computed, n, hits) <= |kv.pool.free|
    ensures OthersKept(kv, Attach(kv, bs, id, computed, n, hits), id)
    ensures FreshPrivate(kv, Attach(kv, bs, id, computed, n, hits), id, |TableOf(kv, id) + hits|)
  {
    AttachPool(kv, bs, id, computed, n, hits);
    hide PoolOk, Counted, HashesBlocked, Take, CeilDiv;
    var kv1 := Attach(kv, bs, id, computed, n, hits);
    forall r | r != id && r in kv.tables ensures SameRow(kv, kv1, r) {
      assert TableOf(kv1, r) == TableOf(kv, r);
      assert ChainOf(kv1, r) == ChainOf(kv, r);
    }
    var before, k := TableOf(kv, id) + hits, FreshNeeded(kv, bs, id, computed, n, hits);
    forall r, i | r != id && r in kv.tables && |before| <= i < |TableOf(kv1, id)|
      ensures TableOf(kv1, id)[i] !in kv.tables[r]
    {
      assert TableOf(kv1, id) == before + kv.pool.free[..k];
      assert TableOf(kv1, id)[i] == kv.pool.free[..k][i - |before|];
    }
  }

  lemma AttachReady(kv: KV, bs: nat, id: Id, toks: seq<Token>, computed: nat, n: nat, hits: seq<BlockId>)
    requires CanAllocate(kv, bs, id, toks, computed, n, hits)
    requires FreshNeeded(kv, bs, id, computed, n, hits) <= |kv.pool.free|
    ensures var kv1 := Attach(kv, bs, id, computed, n, hits); var total := Total(bs, computed, n, hits);
      && |TableOf(kv1, id)| == CeilDiv(total, bs)
      && (kv.pool.caching ==> RegisterReady(kv1, bs, id, toks, FloorDiv(total, bs)))
      && (!kv.pool.caching ==> TableOk(kv1, bs, id, toks, total))
  {
    hide PoolOk, Counted, HashesBlocked, Take, CeilDiv, FloorDiv, Chain, HashAt, Distinct, Leading, FreshNeeded, Shaped;
    HandInPool(kv, bs, hits);
    var total := Total(bs, computed, n, hits);
    AttachTables(kv, bs, id, toks, computed, n, hits);
    AttachChain(kv, bs, id, toks, computed, n, hits);
    AttachHashes(kv, bs, id, toks, computed, n, hits);
    FreshCount(kv, bs, id, toks, computed, n, hits);
    FloorBounds(total, bs);
    FloorMono(computed + |hits| * bs, total, bs);
    TakeOk(kv.pool, FreshNeeded(kv, bs, id, computed, n, hits));
    var kv1 := Attach(kv, bs, id, computed, n, hits);
    assert |TableOf(kv1, id)| == CeilDiv(total, bs);
    assert total <= |toks|;
  }

  /** Registration leaves the tables, and so their freshness, alone. */
  lemma FreshSame(kv: KV, kv1: KV, kv2: KV, id: Id, from: nat)
    requires FreshPrivate(kv, kv1, id, from) && kv2.tables == kv1.tables
    ensures FreshPrivate(kv, kv2, id, from) && TableOf(kv2, id) == TableOf(kv1, id)
  {
    forall r, i | r != id && r in kv.tables && from <= i < |TableOf(kv2, id)| ensures TableOf(kv2, id)[i] !in kv.tables[r] {
      assert TableOf(kv1, id)[i] !in kv.tables[r];
    }
  }

  lemma PlainSources(kv: KV, kv1: KV, bs: nat, id: Id, toks: seq<Token>, total: nat)
    requires bs > 0 && |kv1.pool.hash| == |kv.pool.hash|
    requires forall b :: 0 <= b < |kv1.pool.hash| && kv1.pool.hash[b] != NoHash ==> kv1.pool.hash[b] == kv.pool.hash[b]
    ensures HashSources(kv, kv1, bs, id, toks, total)
  {
  }

  lemma RegisteredTables(kv1: KV, kv2: KV, bs: nat, id: Id, toks: seq<Token>, lo: nat, hi: nat)
    requires OnlyRegistered(kv1, kv2, bs, id, toks, lo, hi)
    ensures kv2.tables == kv1.tables
  {
  }

  lemma AllocateIs(kv: KV, bs: nat, id: Id, toks: seq<Token>, computed: nat, n: nat, hits: seq<BlockId>)
    requires bs > 0 && KvShaped(kv) && InPool(kv.pool, hits)
    requires FreshNeeded(kv, bs, id, computed, n, hits) <= |kv.pool.free|
    ensures var kv1 := Attach(kv, bs, id, computed, n, hits); var total := Total(bs, computed, n, hits);
      && FloorDiv(total, bs) <= |TableOf(kv1, id)|
      && TableOf(kv, id) + hits <= TableOf(kv1, id) && id in kv1.tables
      && AllocateSlots(kv, bs, id, toks, computed, n, hits).1.Some?
      && AllocateSlots(kv, bs, id, toks, computed, n, hits).0
         == if kv.pool.caching then CacheFull(kv1, bs, id, toks, total) else kv1
  {
    FloorBounds(Total(bs, computed, n, hits), bs);
  }

  /** allocate_slots, when the pool can cover the request. */
  lemma AllocateKv(kv: KV, bs: nat, id: Id, toks: seq<Token>, computed: nat, n: nat, hits: seq<BlockId>)
    requires CanAllocate(kv, bs, id, toks, computed, n, hits)
    requires FreshNeeded(kv, bs, id, computed, n, hits) <= |kv.pool.free|
    ensures AllocateSlots(kv, bs, id, toks, computed, n, hits).1.Some?
    ensures Allocated(kv, AllocateSlots(kv, bs, id, toks, computed, n, hits).0, bs, id, toks,
                      Total(bs, computed, n, hits), TableOf(kv, id) + hits)
  {
    hide KvOk, FloorDiv, CeilDiv, FreshNeeded, TableOk, RegisterReady, CacheFull, AllocateSlots, Attach, OthersKept, HashSources,
         OnlyRegistered, FreshPrivate, Leading;
    HandInPool(kv, bs, hits);
    var total := Total(bs, computed, n, hits);
    var kv1 := Attach(kv, bs, id, computed, n, hits);
    AllocateIs(kv, bs, id, toks, computed, n, hits);
    AttachTables(kv, bs, id, toks, computed, n, hits);
    AttachReady(kv, bs, id, toks, computed, n, hits);
    AttachOthers(kv, bs, id, computed, n, hits);
    AttachSources(kv, bs, id, computed, n, hits);
    if kv.pool.caching {
      var kv2 := CacheFull(kv1, bs, id, toks, total);
      CacheFullKv(kv1, bs, id, toks, total);
      CacheFullOthers(kv, kv1, kv2, bs, id, toks, total);
      RegisteredTables(kv1, kv2, bs, id, toks, |ChainOf(kv1, id)|, FloorDiv(total, bs));
      FreshSame(kv, kv1, kv2, id, |TableOf(kv, id) + hits|);
    } else {
      PlainSources(kv, kv1, bs, id, toks, total);
    }
  }

  lemma AttachSources(kv: KV, bs: nat, id: Id, computed: nat, n: nat, hits: seq<BlockId>)
    requires bs > 0 && KvOk(kv, bs, hits)
    requires FreshNeeded(kv, bs, id, computed, n, hits) <= |kv.pool.free|
    ensures var p := Attach(kv, bs, id, computed, n, hits).pool;
      && |p.hash| == |kv.pool.hash| && p.caching == kv.pool.caching
      && forall b :: 0 <= b < |p.hash| && p.hash[b] != NoHash ==> p.hash[b] == kv.pool.hash[b]
  {
    AttachPool(kv, bs, id, computed, n, hits);
  }

  lemma CacheFullKv(kv1: KV, bs: nat, id: Id, toks: seq<Token>, total: nat)
    requires bs > 0 && KvOk(kv1, bs, []) && kv1.pool.caching
    requires RegisterReady(kv1, bs, id, toks, FloorDiv(total, bs)) && total <= |toks| && id in kv1.tables
    requires |TableOf(kv1, id)| == CeilDiv(total, bs)
    ensures var kv2 := CacheFull(kv1, bs, id, toks, total);
      && KvOk(kv2, bs, []) && TableOk(kv2, bs, id, toks, total)
      && OnlyRegistered(kv1, kv2, bs, id, toks, |ChainOf(kv1, id)|, FloorDiv(total, bs))
  {
    var kv1' := kv1.(chains := kv1.chains[id := ChainOf(kv1, id)]);
    CountedTables(kv1, kv1', bs);
    hide PoolOk, Counted, HashesBlocked, Chain, CeilDiv, Register;
    assert TableOf(kv1', id) == TableOf(kv1, id);
    assert ChainOf(kv1', id) == ChainOf(kv1, id);
    forall i | 0 <= i < |TableOf(kv1, id)| ensures HashAt(kv1', TableOf(kv1', id), ChainOf(kv1', id), i) {
      assert HashAt(kv1, TableOf(kv1, id), ChainOf(kv1, id), i);
    }
    hide HashAt;
    RegisterFullKv(kv1', bs, id, toks, FloorDiv(total, bs));
    var kv2 := CacheFull(kv1, bs, id, toks, total);
    SkipSetdefault(kv1, kv1', kv2, bs, id, toks, |ChainOf(kv1, id)|, FloorDiv(total, bs));
  }

  lemma SkipSetdefault(kv1: KV, kv1': KV, kv2: KV, bs: nat, id: Id, toks: seq<Token>, lo: nat, hi: nat)
    requires kv1' == kv1.(chains := kv1.chains[id := ChainOf(kv1, id)])
    requires OnlyRegistered(kv1', kv2, bs, id, toks, lo, hi)
    ensures OnlyRegistered(kv1, kv2, bs, id, toks, lo, hi)
  {
    hide RegisteredAt;
    forall b | 0 <= b < |kv1.pool.hash| && kv2.pool.hash[b] != kv1.pool.hash[b]
      ensures NewlyRegistered(kv1, kv2, bs, id, toks, lo, hi, b)
    {
      assert NewlyRegistered(kv1', kv2, bs, id, toks, lo, hi, b);
      var i :| RegisteredAt(kv2.pool, TableOf(kv1', id), bs, toks, lo, hi, b, i);
      assert RegisteredAt(kv2.pool, TableOf(kv1, id), bs, toks, lo, hi, b, i);
    }
  }

  lemma CacheFullOthers(kv: KV, kv1: KV, kv2: KV, bs: nat, id: Id, toks: seq<Token>, total: nat)
    requires bs > 0 && KvOk(kv1, bs, []) && id in kv1.tables
    requires OthersKept(kv, kv1, id)
    requires forall b :: 0 <= b < |kv.pool.hash| && kv1.pool.hash[b] != NoHash ==> kv1.pool.hash[b] == kv.pool.hash[b]
    requires OnlyRegistered(kv1, kv2, bs, id, toks, |ChainOf(kv1, id)|, FloorDiv(total, bs))
    ensures OthersKept(kv, kv2, id)
    ensures HashSources(kv, kv2, bs, id, toks, total)
  {
    hide Chain;
    forall b | 0 <= b < |kv.pool.hash| && kv2.pool.hash[b] != NoHash && kv2.pool.hash[b] != kv.pool.hash[b]
      ensures OwnBlock(kv2, bs, id, toks, total, b)
    {
      assert NewlyRegistered(kv1, kv2, bs, id, toks, |ChainOf(kv1, id)|, FloorDiv(total, bs), b);
      var i :| RegisteredAt(kv2.pool, TableOf(kv1, id), bs, toks, |ChainOf(kv1, id)|, FloorDiv(total, bs), b, i);
      assert RegisteredAt(kv2.pool, TableOf(kv2, id), bs, toks, 0, FloorDiv(total, bs), b, i);
    }
    forall r | r != id && r in kv.tables ensures SameRow(kv, kv2, r) {
      assert SameRow(kv, kv1, r);
      assert r in kv1.tables.Keys - {id} by { assert r in kv.tables.Keys - {id}; }
      forall b | b in TableOf(kv, r) && b < |kv.pool.hash| ensures kv2.pool.hash[b] == kv.pool.hash[b] {
        if kv2.pool.hash[b] != kv1.pool.hash[b] {
          assert NewlyRegistered(kv1, kv2, bs, id, toks, |ChainOf(kv1, id)|, FloorDiv(total, bs), b);
          var i :| RegisteredAt(kv2.pool, TableOf(kv1, id), bs, toks, |ChainOf(kv1, id)|, FloorDiv(total, bs), b, i);
          assert b in kv1.tables[id];
          PrivateHolder(kv1, bs, [], b, r, id);
        }
      }
    }
  }

  // ------------------------------------------------------------------ free

  /** free returns every block of the request, keeps every hash, and touches no other row. */
  lemma FreeRequestKv(kv: KV, bs: nat, id: Id)
    requires KvOk(kv, bs, []) && Distinct(TableOf(kv, id))
    ensures var kv' := FreeRequest(kv, id);
      && KvOk(kv', bs, [])
      && kv'.tables == kv.tables - {id} && kv'.chains == kv.chains - {id}
      && SameContents(kv.pool, kv'.pool)
      && (forall r :: r != id ==> SameRow(kv, kv', r))
      && (forall b :: 0 <= b < |kv.pool.refs| ==>
            b < |kv'.pool.refs| && kv'.pool.refs[b] == kv.pool.refs[b] - InHand(TableOf(kv, id), b))
  {
    DetachKv(kv, bs, id);
    var kv1 := kv.(tables := kv.tables - {id});
    ReleaseAllKv(kv1, bs, Reverse(TableOf(kv, id)));
    var kv2 := kv1.(pool := ReleaseAll(kv.pool, Reverse(TableOf(kv, id))));
    CountedTables(kv2, FreeRequest(kv, id), bs);
    hide PoolOk, HashesBlocked, ReleaseAll;
  }
}
