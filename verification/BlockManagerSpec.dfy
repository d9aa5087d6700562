/** inferneo/kv/block_manager.py as functions on a value: per-request block tables and
    hash chains over the shared pool. */
module BlockManagerSpec {
  import opened Util
  import opened Hashing
  import opened BlockPoolSpec

  /** Request ids are opaque: the engine only compares them. */
  type Id(==, !new, 0)

  datatype KV = KV(
    pool: Pool,
    tables: map<Id, seq<BlockId>>,
    chains: map<Id, seq<BlockHash>>)

  function TableOf(kv: KV, id: Id): seq<BlockId> {
    if id in kv.tables then kv.tables[id] else []
  }

  function ChainOf(kv: KV, id: Id): seq<BlockHash> {
    if id in kv.chains then kv.chains[id] else []
  }

  ghost predicate InPool(p: Pool, bs: seq<BlockId>) {
    forall b :: b in bs ==> b < |p.refs|
  }

  ghost predicate KvShaped(kv: KV) {
    && Shaped(kv.pool)
    && forall r :: r in kv.tables ==> InPool(kv.pool, kv.tables[r])
  }

  /** Blocks released one after another, as many as still hold a reference. */
  function ReleaseAll(p: Pool, bs: seq<BlockId>): (q: Pool)
    requires Shaped(p) && InPool(p, bs)
    ensures Shaped(q) && |q.refs| == |p.refs| && q.caching == p.caching
    decreases |bs|
  {
    if bs == [] then p
    else
      assert bs[0] in bs && forall b :: b in bs[1..] ==> b in bs;
      ReleaseAll(if p.refs[bs[0]] > 0 then Release(p, bs[0]) else p, bs[1..])
  }

  /** The lookup loop of get_computed_blocks, from block |found| on. */
  function LookupRun(p: Pool, bs: nat, tokens: seq<Token>, found: seq<BlockId>, parent: BlockHash): (r: (Pool, seq<BlockId>))
    requires bs > 0 && Shaped(p) && InPool(p, found)
    ensures Shaped(r.0) && InPool(r.0, r.1) && |r.0.refs| == |p.refs|
    decreases |tokens| - |found| * bs
  {
    var start := |found| * bs;
    if start + bs <= |tokens| then
      var h := HashBlock(parent, Slice(tokens, start, start + bs));
      var (q, hit) := Lookup(p, h);
      match hit
      case None => (q, found)
      case Some(b) =>
        assert (|found| + 1) * bs == start + bs;
        LookupRun(q, bs, tokens, found + [b], h)
    else (p, found)
  }

  /** get_computed_blocks: the blocks found and the number of tokens they cover. */
  function GetComputed(kv: KV, bs: nat, tokens: seq<Token>): (r: (KV, seq<BlockId>, nat))
    requires bs > 0 && KvShaped(kv)
    ensures KvShaped(r.0) && InPool(r.0.pool, r.1) && |r.0.pool.refs| == |kv.pool.refs|
  {
    if !kv.pool.caching then (kv, [], 0)
    else
      var (p, found) := LookupRun(kv.pool, bs, tokens, [], NoHash);
      if found != [] && |found| * bs == |tokens| then
        var b := found[|found| - 1];
        var kept := found[..|found| - 1];
        assert b in found && forall c :: c in kept ==> c in found;
        (kv.(pool := if p.refs[b] > 0 then Release(p, b) else p), kept, |kept| * bs)
      else (kv.(pool := p), found, |found| * bs)
  }

  /** The registration loop of _cache_full_blocks. */
  function RegisterFull(kv: KV, bs: nat, id: Id, tokens: seq<Token>, numFull: nat): (r: KV)
    requires KvShaped(kv) && numFull <= |TableOf(kv, id)|
    ensures KvShaped(r) && r.tables == kv.tables && |r.pool.refs| == |kv.pool.refs|
    decreases numFull - |ChainOf(kv, id)|
  {
    var hs := ChainOf(kv, id);
    var i := |hs|;
    if i >= numFull then kv
    else
      var parent := if hs == [] then NoHash else hs[i - 1];
      var h := HashBlock(parent, Slice(tokens, i * bs, (i + 1) * bs));
      assert TableOf(kv, id)[i] in kv.tables[id];
      RegisterFull(KV(Register(kv.pool, TableOf(kv, id)[i], h), kv.tables, kv.chains[id := hs + [h]]),
                   bs, id, tokens, numFull)
  }

  function CacheFull(kv: KV, bs: nat, id: Id, tokens: seq<Token>, known: nat): (r: KV)
    requires bs > 0 && KvShaped(kv) && FloorDiv(known, bs) <= |TableOf(kv, id)|
    ensures KvShaped(r) && r.tables == kv.tables && |r.pool.refs| == |kv.pool.refs|
  {
    RegisterFull(kv.(chains := kv.chains[id := ChainOf(kv, id)]), bs, id, tokens, FloorDiv(known, bs))
  }

  /** Tokens the request's table must cover after this step. */
  function Total(bs: nat, computed: nat, n: nat, hits: seq<BlockId>): nat {
    computed + |hits| * bs + n
  }

  function FreshNeeded(kv: KV, bs: nat, id: Id, computed: nat, n: nat, hits: seq<BlockId>): nat
    requires bs > 0
  {
    var want := CeilDiv(Total(bs, computed, n, hits), bs) - |TableOf(kv, id)| - |hits|;
    if want > 0 then want else 0
  }

  function HashesOf(p: Pool, bs: seq<BlockId>): (r: seq<BlockHash>)
    requires Shaped(p) && InPool(p, bs)
    decreases |bs|
  {
    if bs == [] then []
    else
      assert bs[0] in bs && forall b :: b in bs[1..] ==> b in bs;
      (if p.hash[bs[0]] == NoHash then [] else [p.hash[bs[0]]]) + HashesOf(p, bs[1..])
  }

  /** The successful part of allocate_slots up to the table update. */
  function Attach(kv: KV, bs: nat, id: Id, computed: nat, n: nat, hits: seq<BlockId>): (r: KV)
    requires bs > 0 && KvShaped(kv) && InPool(kv.pool, hits)
    requires FreshNeeded(kv, bs, id, computed, n, hits) <= |kv.pool.free|
    ensures KvShaped(r) && |r.pool.refs| == |kv.pool.refs|
    ensures r.pool == Take(kv.pool, FreshNeeded(kv, bs, id, computed, n, hits))
    ensures r.tables == kv.tables[id := TableOf(kv, id) + hits + kv.pool.free[..FreshNeeded(kv, bs, id, computed, n, hits)]]
  {
    var k := FreshNeeded(kv, bs, id, computed, n, hits);
    var pool := Take(kv.pool, k);
    assert forall b :: b in kv.pool.free[..k] ==> b in kv.pool.free;
    KV(pool,
       kv.tables[id := TableOf(kv, id) + hits + kv.pool.free[..k]],
       if hits == [] then kv.chains else kv.chains[id := HashesOf(pool, hits)])
  }

  /** allocate_slots: None when the pool cannot cover the request, otherwise the fresh blocks. */
  function AllocateSlots(kv: KV, bs: nat, id: Id, tokens: seq<Token>, computed: nat, n: nat, hits: seq<BlockId>)
    : (r: (KV, Option<seq<BlockId>>))
    requires bs > 0 && KvShaped(kv) && InPool(kv.pool, hits)
    ensures KvShaped(r.0) && |r.0.pool.refs| == |kv.pool.refs|
  {
    var k := FreshNeeded(kv, bs, id, computed, n, hits);
    if k > |kv.pool.free| then (kv.(pool := ReleaseAll(kv.pool, hits)), None)
    else
      var total := Total(bs, computed, n, hits);
      var kv1 := Attach(kv, bs, id, computed, n, hits);
      assert FloorDiv(total, bs) <= |TableOf(kv1, id)| by { FloorBounds(total, bs); }
      (if kv.pool.caching then CacheFull(kv1, bs, id, tokens, total) else kv1, Some(kv.pool.free[..k]))
  }

  function Reverse<T(!new)>(s: seq<T>): (r: seq<T>)
    ensures |r| == |s| && forall x :: x in r <==> x in s
  {
    if s == [] then [] else Reverse(s[1..]) + [s[0]]
  }

  /** free: drop the table and chain and release the blocks, deepest first. */
  function FreeRequest(kv: KV, id: Id): (r: KV)
    requires KvShaped(kv)
    ensures KvShaped(r) && |r.pool.refs| == |kv.pool.refs| && r.pool.caching == kv.pool.caching
  {
    KV(ReleaseAll(kv.pool, Reverse(TableOf(kv, id))), kv.tables - {id}, kv.chains - {id})
  }
}
