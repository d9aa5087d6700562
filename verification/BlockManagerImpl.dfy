/** inferneo/kv/block_manager.py: per-request tables and chains over the pool object, each
    method proved against its function on values. */
module BlockManagerImpl {
  import opened Util
  import opened Hashing
  import opened BlockPoolSpec
  import opened BlockPoolImpl
  import opened BlockManagerSpec
  import opened BlockManagerInv
  import opened FreeOrder
  import opened RequestImpl

  class KVCacheManager {
    const blockSize: nat
    const enableCaching: bool
    const pool: BlockPool
    var reqBlocks: map<Id, seq<BlockId>>
    var reqHashes: map<Id, seq<BlockHash>>

    ghost function View(): KV
      reads this, pool, pool.blocks
    {
      KV(pool.View(), reqBlocks, reqHashes)
    }

    ghost predicate Valid()
      reads this, pool, pool.blocks
    {
      blockSize > 0 && pool.Valid() && enableCaching == pool.enableCaching && KvShaped(View())
    }

    constructor (numBlocks: nat, bs: nat, caching: bool)
      requires numBlocks > 0 && bs > 0
      ensures Valid() && blockSize == bs
      ensures View() == KV(NewPool(numBlocks, caching), map[], map[])
      ensures fresh(pool) && fresh(pool.blocks)
    {
      blockSize, enableCaching := bs, caching;
      pool := new BlockPool(numBlocks, caching);
      reqBlocks, reqHashes := map[], map[];
    }

    function GetBlockIds(id: Id): (t: seq<BlockId>)
      reads this, pool, pool.blocks
      ensures t == TableOf(View(), id)
    {
      if id in reqBlocks then reqBlocks[id] else []
    }

    /** The lookup loop of get_computed_blocks. */
    method LookupLeading(tokens: seq<Token>) returns (blocks: seq<BlockId>)
      requires Valid() && KvOk(View(), blockSize, [])
      modifies this, pool, pool.blocks
      ensures Valid() && View() == old(View()).(pool := pool.View())
      ensures (pool.View(), blocks) == LookupRun(old(pool.View()), blockSize, tokens, [], NoHash)
      ensures KvOk(View(), blockSize, blocks)
    {
      hide PoolOk, Counted, HashesBlocked, Shaped, Leading, Chain, Lookup, pool.View;
      ghost var kv0 := View();
      NoneFound(kv0.pool, blockSize, tokens);
      blocks := [];
      var parent := NoHash;
      var start := 0;
      while start + blockSize <= |tokens|
        invariant Valid() && View() == kv0.(pool := pool.View())
        invariant start == |blocks| * blockSize && InPool(pool.View(), blocks)
        invariant parent == Chain(tokens, blockSize, |blocks|)
        invariant KvOk(View(), blockSize, blocks) && Leading(pool.View(), blockSize, tokens, blocks)
        invariant LookupRun(pool.View(), blockSize, tokens, blocks, parent) == LookupRun(kv0.pool, blockSize, tokens, [], NoHash)
        decreases |tokens| - start
      {
        assert (|blocks| + 1) * blockSize == start + blockSize;
        ghost var kv := View();
        LookupStepKv(kv, blockSize, tokens, blocks);
        ChainStep(tokens, blockSize, |blocks|);
        parent := HashBlock(parent, Slice(tokens, start, start + blockSize));
        var hit := pool.GetCachedBlock(parent);
        if hit.None? {
          break;
        }
        blocks := blocks + [hit.value];
        start := start + blockSize;
      }
    }

    /** get_computed_blocks; its release is never a double free. */
    method GetComputedBlocks(req: EngineRequest) returns (blocks: seq<BlockId>, n: nat)
      requires Valid() && KvOk(View(), blockSize, [])
      modifies this, pool, pool.blocks
      ensures Valid()
      ensures (View(), blocks, n) == GetComputed(old(View()), blockSize, req.AllTokenIds())
    {
      hide PoolOk, Counted, HashesBlocked, Shaped, LookupRun, pool.View;
      if !enableCaching {
        return [], 0;
      }
      var tokens := req.AllTokenIds();
      blocks := LookupLeading(tokens);
      if blocks != [] && |blocks| * blockSize == |tokens| {
        var last := blocks[|blocks| - 1];
        var kept := blocks[..|blocks| - 1];
        assert last in blocks && blocks == kept + [last];
        ReleaseLastKv(View(), blockSize, kept, last);
        var ok := pool.Free(last);
        assert ok;
        blocks := kept;
      }
      MulMono(0, |blocks|, blockSize);
      n := |blocks| * blockSize;
    }

    /** One round of _cache_full_blocks: the next chain entry, registered on its block. */
    method RegisterNext(id: Id, tokens: seq<Token>)
      requires Valid() && id in reqHashes && |reqHashes[id]| < |GetBlockIds(id)|
      modifies this, pool, pool.blocks
      ensures Valid()
      ensures View() == RegisterStep(old(View()), blockSize, id, tokens)
    {
      hide Shaped, Register, HashBlock, pool.View;
      var i := |reqHashes[id]|;
      var parent := if reqHashes[id] == [] then NoHash else reqHashes[id][i - 1];
      MulMono(0, i, blockSize);
      MulMono(i, i + 1, blockSize);
      var h := HashBlock(parent, Slice(tokens, i * blockSize, (i + 1) * blockSize));
      assert reqBlocks[id][i] in reqBlocks[id];
      reqHashes := reqHashes[id := reqHashes[id] + [h]];
      pool.CacheBlock(reqBlocks[id][i], h);
    }

    /** _cache_full_blocks */
    method CacheFullBlocks(req: EngineRequest, known: nat)
      requires Valid() && req.requestId in reqBlocks
      requires FloorDiv(known, blockSize) <= |GetBlockIds(req.requestId)|
      modifies this, pool, pool.blocks
      ensures Valid()
      ensures View() == CacheFull(old(View()), blockSize, req.requestId, req.AllTokenIds(), known)
    {
      hide Shaped, RegisterStep, RegisterFull, pool.View;
      var id := req.requestId;
      if id !in reqHashes {
        reqHashes := reqHashes[id := []];
      }
      assert View() == old(View()).(chains := old(View()).chains[id := ChainOf(old(View()), id)]);
      ghost var kv0 := View();
      var tokens := req.AllTokenIds();
      var numFull := FloorDiv(known, blockSize);
      while |reqHashes[id]| < numFull
        invariant Valid() && reqBlocks == kv0.tables && id in reqHashes
        invariant RegisterFull(View(), blockSize, id, tokens, numFull) == RegisterFull(kv0, blockSize, id, tokens, numFull)
        decreases numFull - |reqHashes[id]|
      {
        RegisterFullStep(View(), blockSize, id, tokens, numFull);
        RegisterNext(id, tokens);
      }
      RegisterFullEnd(View(), blockSize, id, tokens, numFull);
    }

    /** Gives back, front to back, the references a failed admission holds. */
    method ReleaseHits(hits: seq<BlockId>)
      requires Valid() && InPool(View().pool, hits) && KvOk(View(), blockSize, hits)
      modifies this, pool, pool.blocks
      ensures Valid()
      ensures View() == old(View()).(pool := ReleaseAll(old(pool.View()), hits))
    {
      hide PoolOk, Counted, HashesBlocked, Shaped, Release, pool.View;
      ghost var kv0 := View();
      for i := 0 to |hits|
        invariant Valid() && View() == kv0.(pool := pool.View())
        invariant InPool(pool.View(), hits[i..]) && KvOk(View(), blockSize, hits[i..])
        invariant ReleaseAll(pool.View(), hits[i..]) == ReleaseAll(kv0.pool, hits)
      {
        ReleaseKv(View(), blockSize, hits[i..]);
        assert forall b :: b in hits[i..][1..] ==> b in hits[i..];
        var ok := pool.Free(hits[i]);
        assert ok;
        assert hits[i..][1..] == hits[i + 1..];
      }
    }

    /** The hashes of the blocks that have one, in order. */
    method HashesOfBlocks(hits: seq<BlockId>) returns (hs: seq<BlockHash>)
      requires Valid() && InPool(View().pool, hits)
      ensures hs == HashesOf(View().pool, hits)
    {
      hide Shaped, KvShaped, HashesOf;
      hs := [];
      ghost var p := pool.View();
      NoHashes(p);
      for i := 0 to |hits|
        invariant InPool(p, hits[i..])
        invariant hs + HashesOf(p, hits[i..]) == HashesOf(p, hits)
      {
        assert hits[i..] == [hits[i]] + hits[i + 1..];
        InPoolTail(p, hits[i], hits[i + 1..]);
        HashesOfCons(p, hits[i], hits[i + 1..]);
        assert pool.blocks[hits[i]].blockHash == p.hash[hits[i]];
        if pool.blocks[hits[i]].blockHash != NoHash {
          hs := hs + [pool.blocks[hits[i]].blockHash];
        }
      }
    }

    /** allocate_slots; hits attach only to an empty table, and no release is a double free. */
    method AllocateSlots(req: EngineRequest, n: nat, hits: seq<BlockId>) returns (r: Option<seq<BlockId>>)
      requires Valid() && InPool(View().pool, hits) && KvOk(View(), blockSize, hits)
      requires GetBlockIds(req.requestId) == [] || hits == []
      modifies this, pool, pool.blocks
      ensures Valid()
      ensures (View(), r)
           == BlockManagerSpec.AllocateSlots(old(View()), blockSize, req.requestId, req.AllTokenIds(), req.numComputedTokens, n, hits)
    {
      hide KvOk, Shaped, ReleaseAll, HashesOf, CacheFull, pool.View;
      ghost var kv0 := View();
      var id := req.requestId;
      var cur := GetBlockIds(id);
      MulMono(0, |hits|, blockSize);
      var total := req.numComputedTokens + |hits| * blockSize + n;
      var numFresh := CeilDiv(total, blockSize) - |cur| - |hits|;
      var taken: seq<BlockId> := [];
      ghost var k := FreshNeeded(kv0, blockSize, id, req.numComputedTokens, n, hits);
      assert k == if numFresh > 0 then numFresh else 0;
      if numFresh > 0 {
        var popped := TakeFresh(numFresh, hits);
        if popped.None? {
          return None;
        }
        taken := popped.value;
      } else {
        TakeNone(kv0.pool);
      }
      Enter(id, hits, taken, kv0, req.numComputedTokens, n);
      if enableCaching {
        FloorBounds(total, blockSize);
        CacheFullBlocks(req, total);
      }
      r := Some(taken);
    }

    /** The table and chain of a request whose blocks are in hand. */
    method Enter(id: Id, hits: seq<BlockId>, taken: seq<BlockId>, ghost kv0: KV, ghost computed: nat, ghost n: nat)
      requires Valid() && KvShaped(kv0) && InPool(kv0.pool, hits)
      requires FreshNeeded(kv0, blockSize, id, computed, n, hits) <= |kv0.pool.free|
      requires View() == kv0.(pool := Take(kv0.pool, FreshNeeded(kv0, blockSize, id, computed, n, hits)))
      requires taken == kv0.pool.free[..FreshNeeded(kv0, blockSize, id, computed, n, hits)]
      modifies this`reqBlocks, this`reqHashes
      ensures Valid() && View() == Attach(kv0, blockSize, id, computed, n, hits)
    {
      hide HashesOf, Take, FreshNeeded, pool.View;
      reqBlocks := reqBlocks[id := GetBlockIds(id) + hits + taken];
      AttachShaped(kv0, blockSize, id, computed, n, hits);
      if hits != [] {
        var hs := HashesOfBlocks(hits);
        reqHashes := reqHashes[id := hs];
      }
    }

    /** The fresh blocks, or, when there are too few, the hits given back. */
    method TakeFresh(numFresh: nat, hits: seq<BlockId>) returns (r: Option<seq<BlockId>>)
      requires Valid() && InPool(View().pool, hits) && KvOk(View(), blockSize, hits)
      modifies this, pool, pool.blocks
      ensures Valid()
      ensures var kv0 := old(View());
        if numFresh > |kv0.pool.free| then r == None && View() == kv0.(pool := ReleaseAll(kv0.pool, hits))
        else r == Some(kv0.pool.free[..numFresh]) && View() == kv0.(pool := Take(kv0.pool, numFresh))
    {
      hide KvOk, Shaped, ReleaseAll, Take, pool.View;
      ghost var kv0 := View();
      r := pool.Allocate(numFresh);
      if r.None? {
        assert View() == kv0;
        ReleaseHits(hits);
      }
    }

    /** free: releases the request's blocks, deepest first; none is a double free. */
    method Free(req: EngineRequest)
      requires Valid() && KvOk(View(), blockSize, []) && Distinct(GetBlockIds(req.requestId))
      modifies this, pool, pool.blocks
      ensures Valid()
      ensures View() == FreeRequest(old(View()), req.requestId)
      ensures var added := Returned(old(View()), req.requestId);
        View().pool.free == old(View().pool.free) + added && DeepestFirst(old(View()), req.requestId, added)
    {
      hide PoolOk, Counted, HashesBlocked, Shaped, Release, DeepestFirst, Returned, pool.View;
      ghost var kv0 := View();
      var id := req.requestId;
      var blocks := GetBlockIds(id);
      FreeQueue(kv0, blockSize, id);
      DetachKv(kv0, blockSize, id);
      reqBlocks := reqBlocks - {id};
      var i := |blocks|;
      assert blocks[..i] == blocks;
      while i > 0
        invariant i <= |blocks|
        invariant Valid() && View() == KV(pool.View(), kv0.tables - {id}, kv0.chains)
        invariant InPool(pool.View(), Reverse(blocks[..i])) && KvOk(View(), blockSize, Reverse(blocks[..i]))
        invariant ReleaseAll(pool.View(), Reverse(blocks[..i])) == ReleaseAll(kv0.pool, Reverse(blocks))
      {
        ReverseLast(blocks[..i]);
        assert blocks[..i][..i - 1] == blocks[..i - 1];
        ReleaseKv(View(), blockSize, Reverse(blocks[..i]));
        assert Reverse(blocks[..i]) == [blocks[i - 1]] + Reverse(blocks[..i - 1]);
        InPoolTail(pool.View(), blocks[i - 1], Reverse(blocks[..i - 1]));
        i := i - 1;
        var ok := pool.Free(blocks[i]);
        assert ok;
      }
      reqHashes := reqHashes - {id};
    }
  }

  lemma RegisterFullStep(kv: KV, bs: nat, id: Id, toks: seq<Token>, numFull: nat)
    requires KvShaped(kv) && numFull <= |TableOf(kv, id)| && id in kv.chains && |ChainOf(kv, id)| < numFull
    ensures id in RegisterStep(kv, bs, id, toks).chains
    ensures |ChainOf(RegisterStep(kv, bs, id, toks), id)| == |ChainOf(kv, id)| + 1
    ensures RegisterFull(kv, bs, id, toks, numFull) == RegisterFull(RegisterStep(kv, bs, id, toks), bs, id, toks, numFull)
  {
    hide Register, Shaped, HashBlock;
  }

  lemma RegisterFullEnd(kv: KV, bs: nat, id: Id, toks: seq<Token>, numFull: nat)
    requires KvShaped(kv) && numFull <= |TableOf(kv, id)| && |ChainOf(kv, id)| >= numFull
    ensures RegisterFull(kv, bs, id, toks, numFull) == kv
  {
  }

  lemma InPoolTail(p: Pool, b: BlockId, rest: seq<BlockId>)
    requires InPool(p, [b] + rest)
    ensures b < |p.refs| && InPool(p, rest)
  {
    assert b in [b] + rest;
    forall c | c in rest ensures c < |p.refs| { assert c in [b] + rest; }
  }

  lemma NoHashes(p: Pool)
    requires Shaped(p)
    ensures HashesOf(p, []) == []
  {
  }

  lemma HashesOfCons(p: Pool, b: BlockId, rest: seq<BlockId>)
    requires Shaped(p) && InPool(p, [b] + rest) && InPool(p, rest) && b < |p.hash|
    ensures HashesOf(p, [b] + rest) == (if p.hash[b] == NoHash then [] else [p.hash[b]]) + HashesOf(p, rest)
  {
    assert ([b] + rest)[1..] == rest;
  }

  lemma AttachShaped(kv: KV, bs: nat, id: Id, computed: nat, n: nat, hits: seq<BlockId>)
    requires bs > 0 && KvShaped(kv) && InPool(kv.pool, hits) && FreshNeeded(kv, bs, id, computed, n, hits) <= |kv.pool.free|
    ensures var kv1 := Attach(kv, bs, id, computed, n, hits);
      KvShaped(kv1) && forall chains :: KvShaped(KV(kv1.pool, kv1.tables, chains))
    ensures Attach(kv, bs, id, computed, n, hits).pool.caching == kv.pool.caching
  {
    TakeCaching(kv.pool, FreshNeeded(kv, bs, id, computed, n, hits));
  }

  lemma {:induction false} TakeCaching(p: Pool, n: nat)
    requires Shaped(p) && n <= |p.free|
    ensures Take(p, n).caching == p.caching
    decreases n
  {
    if n > 0 { TakeCaching(TakeOne(p), n - 1); }
  }

  lemma TakeNone(p: Pool)
    requires Shaped(p)
    ensures Take(p, 0) == p
  {
  }

  lemma {:induction false} ReverseLast<T(!new)>(s: seq<T>)
    requires s != []
    ensures Reverse(s) == [s[|s| - 1]] + Reverse(s[..|s| - 1])
  {
    if |s| > 1 {
      ReverseLast(s[1..]);
      assert s[1..][..|s| - 2] == s[..|s| - 1][1..];
    }
  }
}
