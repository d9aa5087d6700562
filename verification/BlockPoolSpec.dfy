/** inferneo/kv/block_pool.py as functions on a value: reference counts, the LRU free
    queue with lazy eviction and revival, and the hash-to-block map. */
module BlockPoolSpec {
  import opened Util
  import opened Hashing

  type BlockId = nat

  /** refs and hash are indexed by block id; free lists ids, next to evict first. */
  datatype Pool = Pool(
    refs: seq<nat>,
    hash: seq<BlockHash>,
    free: seq<BlockId>,
    cached: map<BlockHash, BlockId>,
    caching: bool)

  /** Ids stay inside the pool. */
  ghost predicate Shaped(p: Pool) {
    && |p.refs| == |p.hash|
    && (forall b :: b in p.free ==> b < |p.refs|)
    && (forall h :: h in p.cached ==> p.cached[h] < |p.refs|)
  }

  /** Free queue membership is exactly a zero count; the map and the blocks' own hashes are
      mutually inverse; a block without a hash is never shared. */
  ghost predicate PoolOk(p: Pool) {
    && Shaped(p)
    && Distinct(p.free)
    && (forall b :: 0 <= b < |p.refs| ==> (b in p.free <==> p.refs[b] == 0))
    && CacheOk(p)
    && (forall b :: 0 <= b < |p.refs| && p.hash[b] == NoHash ==> p.refs[b] <= 1)
  }

  ghost predicate CacheOk(p: Pool)
    requires Shaped(p)
  {
    && (forall h :: h in p.cached ==> h != NoHash && p.hash[p.cached[h]] == h)
    && (forall b :: 0 <= b < |p.refs| && p.hash[b] != NoHash ==> p.hash[b] in p.cached && p.cached[p.hash[b]] == b)
    && (!p.caching ==> p.cached == map[])
  }

  function NewPool(n: nat, caching: bool): (p: Pool)
  {
    Pool(seq(n, _ => 0), seq(n, _ => NoHash), seq(n, i => i), map[], caching)
  }

  lemma NewPoolOk(n: nat, caching: bool)
    ensures PoolOk(NewPool(n, caching))
  {
    var p := NewPool(n, caching);
    forall b | 0 <= b < n ensures b in p.free { assert p.free[b] == b; }
  }

  /** One iteration of the loop in allocate: pop the LRU end, evict its cached content. */
  function TakeOne(p: Pool): (q: Pool)
    requires Shaped(p) && p.free != []
    ensures Shaped(q) && |q.refs| == |p.refs|
  {
    var b := p.free[0];
    assert b in p.free && forall c :: c in p.free[1..] ==> c in p.free;
    var h := p.hash[b];
    p.(free := p.free[1..],
       cached := if h == NoHash then p.cached else p.cached - {h},
       hash := p.hash[b := NoHash],
       refs := p.refs[b := 1])
  }

  function Take(p: Pool, n: nat): (q: Pool)
    requires Shaped(p) && n <= |p.free|
    ensures Shaped(q) && |q.refs| == |p.refs|
    decreases n
  {
    if n == 0 then p else Take(TakeOne(p), n - 1)
  }

  /** allocate: all n blocks or none. */
  function Allocate(p: Pool, n: nat): (Pool, Option<seq<BlockId>>)
    requires Shaped(p)
  {
    if n > |p.free| then (p, None) else (Take(p, n), Some(p.free[..n]))
  }

  /** free: the caller holds a reference (otherwise the source raises). */
  function Release(p: Pool, b: BlockId): (q: Pool)
    requires Shaped(p) && b < |p.refs| && p.refs[b] > 0
    ensures Shaped(q) && |q.refs| == |p.refs|
  {
    p.(refs := p.refs[b := p.refs[b] - 1],
       free := if p.refs[b] == 1 then Remove(p.free, b) + [b] else p.free)
  }

  /** get_cached_block: a hit takes a reference and leaves the free queue. */
  function Lookup(p: Pool, h: BlockHash): (r: (Pool, Option<BlockId>))
    requires Shaped(p)
    ensures Shaped(r.0) && |r.0.refs| == |p.refs| && (r.1.Some? ==> r.1.value < |p.refs|)
  {
    if !p.caching || h !in p.cached then (p, None)
    else
      var b := p.cached[h];
      (p.(refs := p.refs[b := p.refs[b] + 1],
          free := if p.refs[b] == 0 then Remove(p.free, b) else p.free),
       Some(b))
  }

  /** cache_block: first writer wins; a block is registered at most once. */
  function Register(p: Pool, b: BlockId, h: BlockHash): (q: Pool)
    requires Shaped(p) && b < |p.refs|
    ensures Shaped(q) && |q.refs| == |p.refs|
  {
    if !p.caching || p.hash[b] != NoHash || h in p.cached then p
    else p.(hash := p.hash[b := h], cached := p.cached[h := b])
  }

  // ------------------------------------------------------------------ invariants

  lemma TakeOneOk(p: Pool)
    requires PoolOk(p) && p.free != []
    ensures PoolOk(TakeOne(p))
  {
    var b := p.free[0];
    var q := TakeOne(p);
    assert b in p.free;
    assert p.free == [b] + q.free;
    assert Distinct(q.free) by {
      forall i, j | 0 <= i < j < |q.free| ensures q.free[i] != q.free[j] {
        assert q.free[i] == p.free[i + 1] && q.free[j] == p.free[j + 1];
      }
    }
  }

  lemma {:induction false} TakeOk(p: Pool, n: nat)
    requires PoolOk(p) && n <= |p.free|
    ensures var q := Take(p, n);
      && PoolOk(q)
      && q.free == p.free[n..]
      && q.caching == p.caching
      && (forall b :: b in p.free[..n] ==> b < |p.refs| && q.refs[b] == 1 && q.hash[b] == NoHash && p.refs[b] == 0)
      && (forall b :: 0 <= b < |p.refs| && b !in p.free[..n] ==> q.refs[b] == p.refs[b] && q.hash[b] == p.hash[b])
    decreases n
  {
    hide CacheOk;
    if n > 0 {
      TakeOneOk(p);
      var m := TakeOne(p);
      TakeOk(m, n - 1);
      assert p.free[..n] == [p.free[0]] + m.free[..n - 1];
      assert p.free[n..] == m.free[n - 1..];
      forall b | b in p.free[..n]
        ensures b < |p.refs| && Take(p, n).refs[b] == 1 && Take(p, n).hash[b] == NoHash && p.refs[b] == 0
      {
        assert b in p.free;
        if b == p.free[0] { assert b !in m.free; assert forall c :: c in m.free[..n - 1] ==> c in m.free; }
      }
    }
  }

  lemma ReleaseOk(p: Pool, b: BlockId)
    requires PoolOk(p) && b < |p.refs| && p.refs[b] > 0
    ensures PoolOk(Release(p, b))
    ensures Release(p, b).free == if p.refs[b] == 1 then p.free + [b] else p.free
  {
    DistinctAppend(p.free, b);
  }

  lemma LookupOk(p: Pool, h: BlockHash)
    requires PoolOk(p)
    ensures PoolOk(Lookup(p, h).0)
  {
    if p.caching && h in p.cached {
      RemoveDistinct(p.free, p.cached[h]);
    }
  }

  lemma RegisterOk(p: Pool, b: BlockId, h: BlockHash)
    requires PoolOk(p) && b < |p.refs| && h != NoHash
    ensures PoolOk(Register(p, b, h))
  {
  }

  /** Two consistent pools with the same counts have the same free blocks, up to order. */
  lemma FreeDetermined(p: Pool, q: Pool)
    requires PoolOk(p) && PoolOk(q) && p.refs == q.refs
    ensures multiset(p.free) == multiset(q.free)
  {
    forall b ensures multiset(p.free)[b] == multiset(q.free)[b] {
      DistinctCount(p.free, b);
      DistinctCount(q.free, b);
      assert b in p.free <==> b in q.free;
    }
  }

  lemma {:induction false} DistinctCount(s: seq<BlockId>, x: BlockId)
    requires Distinct(s)
    ensures multiset(s)[x] == if x in s then 1 else 0
  {
    if s != [] {
      var t := s[1..];
      assert s == [s[0]] + t;
      assert Distinct(t) && s[0] !in t by {
        forall i, j | 0 <= i < j < |t| ensures t[i] != t[j] { assert t[i] == s[i + 1] && t[j] == s[j + 1]; }
      }
      DistinctCount(t, x);
      assert multiset(s) == multiset{s[0]} + multiset(t);
    }
  }
}
