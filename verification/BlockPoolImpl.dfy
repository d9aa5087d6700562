/** inferneo/kv/block_pool.py: the pool as mutable objects, each method proved against its
    function on values. */
module BlockPoolImpl {
  import opened Util
  import opened Hashing
  import opened BlockPoolSpec

  class KVBlock {
    const blockId: nat
    var refCount: nat
    var blockHash: BlockHash

    constructor (id: nat)
      ensures blockId == id && refCount == 0 && blockHash == NoHash
    {
      blockId, refCount, blockHash := id, 0, NoHash;
    }
  }

  class BlockPool {
    const blocks: seq<KVBlock>
    const enableCaching: bool
    /** LRU queue of free block ids: front is evicted next. */
    var queue: seq<BlockId>
    /** Content hash to block, free or not. */
    var cached: map<BlockHash, BlockId>

    ghost function View(): Pool
      reads this, blocks
    {
      Pool(seq(|blocks|, i requires 0 <= i < |blocks| reads blocks => blocks[i].refCount),
           seq(|blocks|, i requires 0 <= i < |blocks| reads blocks => blocks[i].blockHash),
           queue, cached, enableCaching)
    }

    ghost predicate Valid()
      reads this, blocks
    {
      && (forall i, j :: 0 <= i < j < |blocks| ==> blocks[i] != blocks[j])
      && (forall i :: 0 <= i < |blocks| ==> blocks[i].blockId == i)
      && Shaped(View()) && |View().refs| == |blocks| && View().caching == enableCaching
    }

    /** The source refuses an empty pool. */
    constructor (numBlocks: nat, caching: bool)
      requires numBlocks > 0
      ensures Valid() && View() == NewPool(numBlocks, caching)
      ensures fresh(blocks)
    {
      var bs: seq<KVBlock> := [];
      var ids: seq<BlockId> := [];
      for i := 0 to numBlocks
        invariant |bs| == |ids| == i && fresh(bs)
        invariant forall k :: 0 <= k < i ==> bs[k].blockId == k && bs[k].refCount == 0 && bs[k].blockHash == NoHash && ids[k] == k
        invariant forall j, k :: 0 <= j < k < i ==> bs[j] != bs[k]
      {
        var b := new KVBlock(i);
        bs, ids := bs + [b], ids + [i];
      }
      blocks, enableCaching, queue, cached := bs, caching, ids, map[];
    }

    /** allocate: n fresh blocks, or None with nothing changed. */
    method Allocate(n: nat) returns (r: Option<seq<BlockId>>)
      requires Valid()
      modifies this, blocks
      ensures Valid()
      ensures (View(), r) == BlockPoolSpec.Allocate(old(View()), n)
    {
      hide Shaped, TakeOne;
      if n > |queue| {
        return None;
      }
      ghost var p := View();
      var out: seq<BlockId> := [];
      for i := 0 to n
        invariant Valid() && n <= |p.free|
        invariant View() == Take(p, i) && out == p.free[..i]
      {
        TakeSnoc(p, i);
        var b := PopFree();
        out := out + [b];
      }
      r := Some(out);
    }

    /** One round of allocate: the least recently freed block, its old content forgotten. */
    method PopFree() returns (b: BlockId)
      requires Valid() && queue != []
      modifies this, blocks
      ensures Valid() && b == old(queue[0])
      ensures View() == TakeOne(old(View()))
    {
      ghost var q := View();
      b := queue[0];
      assert b in q.free;
      queue := queue[1..];
      if blocks[b].blockHash != NoHash {
        cached := cached - {blocks[b].blockHash};
        blocks[b].blockHash := NoHash;
      }
      blocks[b].refCount := 1;
      assert View() == TakeOne(q);
    }

    /** free: gives up one reference; false is the source's double-free error. */
    method Free(b: BlockId) returns (ok: bool)
      requires Valid() && b < |blocks|
      modifies this, blocks
      ensures Valid()
      ensures ok == (old(View()).refs[b] > 0)
      ensures View() == if ok then Release(old(View()), b) else old(View())
    {
      if blocks[b].refCount == 0 {
        return false;
      }
      ghost var p := View();
      blocks[b].refCount := blocks[b].refCount - 1;
      if blocks[b].refCount == 0 {
        queue := Remove(queue, b) + [b];
      }
      assert View() == Release(p, b);
      ok := true;
    }

    /** get_cached_block: takes a reference on a hit, reviving a free block. */
    method GetCachedBlock(h: BlockHash) returns (hit: Option<BlockId>)
      requires Valid()
      modifies this, blocks
      ensures Valid()
      ensures (View(), hit) == Lookup(old(View()), h)
    {
      if !enableCaching || h !in cached {
        return None;
      }
      ghost var p := View();
      var b := cached[h];
      if blocks[b].refCount == 0 {
        queue := Remove(queue, b);
      }
      blocks[b].refCount := blocks[b].refCount + 1;
      assert View() == Lookup(p, h).0;
      hit := Some(b);
    }

    /** cache_block */
    method CacheBlock(b: BlockId, h: BlockHash)
      requires Valid() && b < |blocks|
      modifies this, blocks
      ensures Valid()
      ensures View() == Register(old(View()), b, h)
    {
      if !enableCaching || blocks[b].blockHash != NoHash || h in cached {
        return;
      }
      ghost var p := View();
      blocks[b].blockHash := h;
      cached := cached[h := b];
      assert View() == Register(p, b, h);
    }
  }

  /** Taking one more block is taking one after the others. */
  lemma {:induction false} TakeSnoc(p: Pool, i: nat)
    requires Shaped(p) && i < |p.free|
    ensures Take(p, i).free == p.free[i..]
    ensures Take(p, i + 1) == TakeOne(Take(p, i))
    decreases i
  {
    if i > 0 {
      TakeSnoc(TakeOne(p), i - 1);
    }
  }
}
