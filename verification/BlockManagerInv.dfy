/** What every operation of the KV manager keeps: reference counts equal the number of
    holders, hashes name prefixes, and each table covers exactly its request's tokens. */
module BlockManagerInv {
  import opened Util
  import opened Hashing
  import opened BlockPoolSpec
  import opened BlockManagerSpec

  ghost function Holders(tables: map<Id, seq<BlockId>>, b: BlockId): set<Id> {
    set r | r in tables && b in tables[r]
  }

  ghost function InHand(hand: seq<BlockId>, b: BlockId): nat {
    if b in hand then 1 else 0
  }

  /** A block's count is the number of tables holding it, plus one while an operation
      in progress has it in hand. */
  ghost predicate Counted(kv: KV, hand: seq<BlockId>) {
    && Distinct(hand)
    && InPool(kv.pool, hand)
    && forall b :: 0 <= b < |kv.pool.refs| ==>
         kv.pool.refs[b] == |Holders(kv.tables, b)| + InHand(hand, b)
  }

  ghost predicate HashesBlocked(p: Pool, bs: nat) {
    forall b :: 0 <= b < |p.hash| ==> Blocked(p.hash[b], bs)
  }

  ghost predicate KvOk(kv: KV, bs: nat, hand: seq<BlockId>) {
    && KvShaped(kv)
    && PoolOk(kv.pool)
    && Counted(kv, hand)
    && HashesBlocked(kv.pool, bs)
  }

  /** The table and chain of one request whose first `cover` tokens are allocated for:
      the minimum number of distinct blocks, and a chain over exactly the full ones. */
  ghost predicate TableOk(kv: KV, bs: nat, id: Id, toks: seq<Token>, cover: nat)
    requires bs > 0
  {
    var t := TableOf(kv, id);
    var c := ChainOf(kv, id);
    && Distinct(t)
    && |t| == CeilDiv(cover, bs)
    && cover <= |toks|
    && |c| == (if kv.pool.caching then FloorDiv(cover, bs) else 0)
    && (forall i :: 0 <= i < |c| ==> c[i] == Chain(toks, bs, i + 1))
    && (forall i :: 0 <= i < |t| ==> HashAt(kv, t, c, i))
  }

  /** A table's block is unregistered, or registered under its own chain entry. */
  ghost predicate HashAt(kv: KV, t: seq<BlockId>, c: seq<BlockHash>, i: nat)
    requires i < |t|
  {
    t[i] < |kv.pool.hash| && (kv.pool.hash[t[i]] == NoHash || (i < |c| && kv.pool.hash[t[i]] == c[i]))
  }

  // ------------------------------------------------------------------ single steps

  lemma HandInPool(kv: KV, bs: nat, hand: seq<BlockId>)
    requires KvOk(kv, bs, hand)
    ensures KvShaped(kv) && InPool(kv.pool, hand)
  {
  }

  lemma HolderExists(tables: map<Id, seq<BlockId>>, b: BlockId, r: Id)
    requires r in tables && b in tables[r]
    ensures |Holders(tables, b)| >= 1
  {
    assert r in Holders(tables, b);
    assert Holders(tables, b) != {};
  }

  /** A block nobody counts is in no table and not in hand. */
  lemma ZeroUnheld(kv: KV, bs: nat, hand: seq<BlockId>, b: BlockId)
    requires KvOk(kv, bs, hand) && b < |kv.pool.refs| && kv.pool.refs[b] == 0
    ensures b !in hand && forall r :: r in kv.tables ==> b !in kv.tables[r]
  {
    forall r | r in kv.tables ensures b !in kv.tables[r] {
      if b in kv.tables[r] { HolderExists(kv.tables, b, r); }
    }
  }

  lemma {:induction false} CardSubset(s: set<Id>, t: set<Id>)
    requires s <= t
    ensures |s| <= |t|
  {
    assert t == s + (t - s);
  }

  lemma TwoHolders(tables: map<Id, seq<BlockId>>, b: BlockId, r: Id, s: Id)
    requires r in tables && b in tables[r] && s in tables && b in tables[s] && r != s
    ensures |Holders(tables, b)| >= 2
  {
    var h := Holders(tables, b);
    assert {r, s} <= h;
    CardSubset({r, s}, h);
  }

  /** A block with no hash has at most one holder. */
  lemma PrivateHolder(kv: KV, bs: nat, hand: seq<BlockId>, b: BlockId, r: Id, s: Id)
    requires KvOk(kv, bs, hand) && b < |kv.pool.refs| && kv.pool.hash[b] == NoHash
    requires r in kv.tables && b in kv.tables[r] && s in kv.tables && b in kv.tables[s]
    ensures r == s
  {
    if r != s { TwoHolders(kv.tables, b, r, s); }
  }

  lemma TakeKv(kv: KV, bs: nat, hand: seq<BlockId>, k: nat)
    requires KvOk(kv, bs, hand) && k <= |kv.pool.free|
    ensures var kv' := kv.(pool := Take(kv.pool, k)); var took := kv.pool.free[..k];
      && KvOk(kv', bs, hand + took)
      && (forall b :: b in hand ==> b !in took)
      && (forall r, b :: r in kv.tables && b in kv.tables[r] ==> b !in took)
      && (forall b :: b in took ==> b < |kv.pool.refs| && kv.pool.refs[b] == 0)
  {
    var took := kv.pool.free[..k];
    TakeOk(kv.pool, k);
    forall b | b in took
      ensures b < |kv.pool.refs| && kv.pool.refs[b] == 0
      ensures b !in hand && forall r :: r in kv.tables ==> b !in kv.tables[r]
      ensures |Holders(kv.tables, b)| == 0
    {
      ZeroUnheld(kv, bs, hand, b);
      assert Holders(kv.tables, b) == {};
    }
    DistinctConcat(hand, took);
  }

  lemma DistinctConcat(s: seq<BlockId>, t: seq<BlockId>)
    requires Distinct(s) && Distinct(t) && forall x :: x in s ==> x !in t
    ensures Distinct(s + t)
  {
    forall i, j | 0 <= i < j < |s + t| ensures (s + t)[i] != (s + t)[j] {
      if i < |s| <= j {
        assert s[i] in s && t[j - |s|] in t;
      }
    }
  }

  lemma AttachKv(kv: KV, bs: nat, hand: seq<BlockId>, id: Id)
    requires KvOk(kv, bs, hand)
    requires forall b :: b in TableOf(kv, id) ==> b !in hand
    ensures KvOk(kv.(tables := kv.tables[id := TableOf(kv, id) + hand]), bs, [])
  {
    hide PoolOk, HashesBlocked;
    var t' := kv.tables[id := TableOf(kv, id) + hand];
    forall b | 0 <= b < |kv.pool.refs|
      ensures |Holders(t', b)| == |Holders(kv.tables, b)| + InHand(hand, b)
    {
      if b in hand {
        assert id !in Holders(kv.tables, b);
        assert Holders(t', b) == Holders(kv.tables, b) + {id};
      } else {
        assert Holders(t', b) == Holders(kv.tables, b);
      }
    }
  }

  lemma DetachKv(kv: KV, bs: nat, id: Id)
    requires KvOk(kv, bs, []) && Distinct(TableOf(kv, id))
    ensures KvOk(kv.(tables := kv.tables - {id}), bs, Reverse(TableOf(kv, id)))
  {
    hide PoolOk, HashesBlocked, Reverse;
    var t := TableOf(kv, id);
    var t' := kv.tables - {id};
    ReverseDistinct(t);
    forall b | 0 <= b < |kv.pool.refs|
      ensures |Holders(kv.tables, b)| == |Holders(t', b)| + InHand(Reverse(t), b)
    {
      if b in t {
        assert Holders(kv.tables, b) == Holders(t', b) + {id};
      } else {
        assert Holders(kv.tables, b) == Holders(t', b);
      }
    }
  }

  lemma {:induction false} ReverseDistinct<T(!new)>(s: seq<T>)
    requires Distinct(s)
    ensures Distinct(Reverse(s))
  {
    if s != [] {
      var t := s[1..];
      forall i, j | 0 <= i < j < |t| ensures t[i] != t[j] { assert t[i] == s[i + 1] && t[j] == s[j + 1]; }
      ReverseDistinct(t);
      assert s[0] !in t by {
        forall i | 0 <= i < |t| ensures t[i] != s[0] { assert t[i] == s[i + 1]; }
      }
      DistinctAppend(Reverse(t), s[0]);
    }
  }

  lemma RegisterKv(kv: KV, bs: nat, hand: seq<BlockId>, b: BlockId, h: BlockHash)
    requires KvOk(kv, bs, hand) && b < |kv.pool.refs| && h != NoHash && Blocked(h, bs)
    ensures KvOk(kv.(pool := Register(kv.pool, b, h)), bs, hand)
  {
    RegisterOk(kv.pool, b, h);
  }

  lemma ReleaseKv(kv: KV, bs: nat, hand: seq<BlockId>)
    requires KvOk(kv, bs, hand) && hand != []
    ensures hand[0] < |kv.pool.refs| && kv.pool.refs[hand[0]] > 0
    ensures KvOk(kv.(pool := Release(kv.pool, hand[0])), bs, hand[1..])
  {
    var b, rest := hand[0], hand[1..];
    assert b in hand;
    ReleaseOk(kv.pool, b);
    assert Distinct(rest) && b !in rest by {
      forall i, j | 0 <= i < j < |rest| ensures rest[i] != rest[j] { assert rest[i] == hand[i + 1] && rest[j] == hand[j + 1]; }
      forall i | 0 <= i < |rest| ensures rest[i] != b { assert rest[i] == hand[i + 1]; }
    }
    assert hand == [b] + rest;
    assert forall c :: c in hand <==> c == b || c in rest;
  }

  lemma {:induction false} ReleaseAllKv(kv: KV, bs: nat, hand: seq<BlockId>)
    requires KvOk(kv, bs, hand)
    ensures var p := ReleaseAll(kv.pool, hand);
      && KvOk(kv.(pool := p), bs, [])
      && p.hash == kv.pool.hash && p.cached == kv.pool.cached && p.caching == kv.pool.caching
      && (forall b :: 0 <= b < |p.refs| ==> p.refs[b] == kv.pool.refs[b] - InHand(hand, b))
    decreases |hand|
  {
    if hand != [] {
      ReleaseKv(kv, bs, hand);
      var kv1 := kv.(pool := Release(kv.pool, hand[0]));
      ReleaseAllKv(kv1, bs, hand[1..]);
      assert hand == [hand[0]] + hand[1..];
    }
  }

  lemma LookupKv(kv: KV, bs: nat, hand: seq<BlockId>, h: BlockHash)
    requires KvOk(kv, bs, hand)
    requires forall b :: b in hand ==> b < |kv.pool.hash| && kv.pool.hash[b] != h
    ensures var (p, hit) := Lookup(kv.pool, h);
      && p.hash == kv.pool.hash && p.cached == kv.pool.cached && p.caching == kv.pool.caching
      && (hit.None? ==> p == kv.pool)
      && (hit.Some? ==> h != NoHash && hit.value < |p.hash| && p.hash[hit.value] == h && KvOk(kv.(pool := p), bs, hand + [hit.value]))
  {
    LookupOk(kv.pool, h);
    var (p, hit) := Lookup(kv.pool, h);
    if hit.Some? {
      var b := hit.value;
      assert b !in hand;
      DistinctAppend(hand, b);
    }
  }

  // ------------------------------------------------------------------ get_computed_blocks

  /** Blocks found so far carry the hashes of the leading blocks of the tokens. */
  ghost predicate Leading(p: Pool, bs: nat, tokens: seq<Token>, hits: seq<BlockId>) {
    && |hits| * bs <= |tokens|
    && forall i :: 0 <= i < |hits| ==> hits[i] < |p.hash| && p.hash[hits[i]] == Chain(tokens, bs, i + 1)
  }

  ghost predicate SameContents(p: Pool, q: Pool) {
    p.hash == q.hash && p.cached == q.cached && p.caching == q.caching
  }

  lemma {:induction false} ChainsDiffer(tokens: seq<Token>, bs: nat, i: nat, k: nat)
    requires i < k && k * bs <= |tokens| && i * bs <= |tokens|
    ensures Chain(tokens, bs, i) != Chain(tokens, bs, k)
  {
    ChainShape(tokens, bs, i);
    ChainShape(tokens, bs, k);
  }

  lemma LookupStepKv(kv: KV, bs: nat, tokens: seq<Token>, found: seq<BlockId>)
    requires bs > 0 && KvOk(kv, bs, found) && Leading(kv.pool, bs, tokens, found)
    requires |found| * bs + bs <= |tokens|
    ensures var (q, hit) := Lookup(kv.pool, Chain(tokens, bs, |found| + 1));
      && SameContents(kv.pool, q)
      && (hit.None? ==> q == kv.pool && (kv.pool.caching ==> Chain(tokens, bs, |found| + 1) !in q.cached))
      && (hit.Some? ==> KvOk(kv.(pool := q), bs, found + [hit.value]) && Leading(q, bs, tokens, found + [hit.value]))
  {
    hide PoolOk, Counted, HashesBlocked, Chain;
    var start := |found| * bs;
    assert (|found| + 1) * bs == start + bs;
    var h := Chain(tokens, bs, |found| + 1);
    forall b | b in found ensures b < |kv.pool.hash| && kv.pool.hash[b] != h {
      var i :| 0 <= i < |found| && found[i] == b;
      MulMono(i + 1, |found|, bs);
      ChainsDiffer(tokens, bs, i + 1, |found| + 1);
    }
    LookupKv(kv, bs, found, h);
  }

  lemma {:induction false} LookupRunKv(kv: KV, bs: nat, tokens: seq<Token>, found: seq<BlockId>)
    requires bs > 0 && KvOk(kv, bs, found) && Leading(kv.pool, bs, tokens, found)
    ensures var r := LookupRun(kv.pool, bs, tokens, found, Chain(tokens, bs, |found|));
      && KvOk(kv.(pool := r.0), bs, r.1)
      && Leading(r.0, bs, tokens, r.1)
      && SameContents(kv.pool, r.0)
      && (kv.pool.caching && (|r.1| + 1) * bs <= |tokens| ==> Chain(tokens, bs, |r.1| + 1) !in r.0.cached)
    decreases |tokens| - |found| * bs
  {
    hide PoolOk, Counted, HashesBlocked, Chain, Lookup;
    var start := |found| * bs;
    assert (|found| + 1) * bs == start + bs;
    if start + bs <= |tokens| {
      ChainStep(tokens, bs, |found|);
      LookupStepKv(kv, bs, tokens, found);
      var (q, hit) := Lookup(kv.pool, Chain(tokens, bs, |found| + 1));
      if hit.Some? {
        LookupRunKv(kv.(pool := q), bs, tokens, found + [hit.value]);
      }
    }
  }

  lemma NoneFound(p: Pool, bs: nat, tokens: seq<Token>)
    ensures Chain(tokens, bs, 0) == NoHash && Leading(p, bs, tokens, [])
  {
  }

  /** get_computed_blocks takes exactly one reference on each returned block, returns the
      longest cached leading run that leaves a token to compute, and changes nothing else. */
  lemma GetComputedKv(kv: KV, bs: nat, tokens: seq<Token>)
    requires bs > 0 && KvOk(kv, bs, []) && tokens != []
    ensures var (kv', hits, n) := GetComputed(kv, bs, tokens);
      && KvOk(kv', bs, hits)
      && kv'.tables == kv.tables && kv'.chains == kv.chains
      && SameContents(kv.pool, kv'.pool)
      && Leading(kv'.pool, bs, tokens, hits)
      && n == |hits| * bs < |tokens|
      && (!kv.pool.caching ==> hits == [])
      && (kv.pool.caching && (|hits| + 1) * bs < |tokens| ==> Chain(tokens, bs, |hits| + 1) !in kv.pool.cached)
  {
    hide PoolOk, Counted, HashesBlocked, LookupRun, Chain, Release, Leading;
    NoneFound(kv.pool, bs, tokens);
    if kv.pool.caching {
      LookupRunKv(kv, bs, tokens, []);
      var (p, found) := LookupRun(kv.pool, bs, tokens, [], NoHash);
      LeadingLength(p, bs, tokens, found);
      if found != [] && |found| * bs == |tokens| {
        DropLastKv(kv.(pool := p), bs, tokens, found);
      }
    }
  }

  lemma LeadingLength(p: Pool, bs: nat, tokens: seq<Token>, found: seq<BlockId>)
    requires Leading(p, bs, tokens, found)
    ensures |found| * bs <= |tokens|
  {
  }

  /** On a full hit the last block is given back. */
  lemma DropLastKv(kv: KV, bs: nat, tokens: seq<Token>, found: seq<BlockId>)
    requires bs > 0 && KvOk(kv, bs, found) && Leading(kv.pool, bs, tokens, found) && found != []
    ensures var last, kept := found[|found| - 1], found[..|found| - 1];
      && last < |kv.pool.refs| && kv.pool.refs[last] > 0
      && var p := Release(kv.pool, last);
      && KvOk(kv.(pool := p), bs, kept) && Leading(p, bs, tokens, kept) && SameContents(kv.pool, p)
      && |kept| * bs == |found| * bs - bs && (|kept| + 1) * bs == |found| * bs
  {
    hide PoolOk, Counted, HashesBlocked, Chain;
    var last, kept := found[|found| - 1], found[..|found| - 1];
    assert (|kept| + 1) * bs == |kept| * bs + bs;
    assert found == kept + [last];
    ReleaseLastKv(kv, bs, kept, last);
  }

  lemma ReleaseLastKv(kv: KV, bs: nat, kept: seq<BlockId>, last: BlockId)
    requires KvOk(kv, bs, kept + [last])
    ensures last < |kv.pool.refs| && kv.pool.refs[last] > 0
    ensures KvOk(kv.(pool := Release(kv.pool, last)), bs, kept)
  {
    var hand := kept + [last];
    assert last in hand;
    assert hand[|kept|] == last;
    assert forall i :: 0 <= i < |kept| ==> hand[i] == kept[i];
    assert last !in kept;
    assert Distinct(kept);
    assert forall b :: b in kept ==> b in hand;
    ReleaseOk(kv.pool, last);
  }

  // ------------------------------------------------------------------ allocate_slots

  /** Restored: an operation that failed left everything but the order of the free queue. */
  ghost predicate Restored(kv: KV, kv': KV) {
    && kv'.tables == kv.tables && kv'.chains == kv.chains
    && kv'.pool.refs == kv.pool.refs
    && SameContents(kv.pool, kv'.pool)
    && multiset(kv'.pool.free) == multiset(kv.pool.free)
  }

  /** A failed allocation, including one whose lookup revived cached blocks. */
  lemma FailedAllocationRestores(kv: KV, bs: nat, id: Id, tokens: seq<Token>, computed: nat, n: nat)
    requires bs > 0 && KvOk(kv, bs, []) && tokens != []
    ensures var (kv1, hits, cachedTokens) := GetComputed(kv, bs, tokens);
      var (kv2, got) := AllocateSlots(kv1, bs, id, tokens, computed, n, hits);
      got.None? ==> Restored(kv, kv2) && KvOk(kv2, bs, [])
  {
    hide KvOk, GetComputed, AllocateSlots, Leading, ReleaseAll;
    HandInPool(kv, bs, []);
    GetComputedKv(kv, bs, tokens);
    var (kv1, hits, cachedTokens) := GetComputed(kv, bs, tokens);
    HandInPool(kv1, bs, hits);
    if AllocateSlots(kv1, bs, id, tokens, computed, n, hits).1.None? {
      FailedReleases(kv1, bs, id, tokens, computed, n, hits);
      ReleaseAllKv(kv1, bs, hits);
      ReferencesReturned(kv, kv1, bs, hits);
    }
  }

  /** On failure the hits are given back, and that is all. */
  lemma FailedReleases(kv: KV, bs: nat, id: Id, tokens: seq<Token>, computed: nat, n: nat, hits: seq<BlockId>)
    requires bs > 0 && KvShaped(kv) && InPool(kv.pool, hits) && AllocateSlots(kv, bs, id, tokens, computed, n, hits).1.None?
    ensures AllocateSlots(kv, bs, id, tokens, computed, n, hits).0 == kv.(pool := ReleaseAll(kv.pool, hits))
  {
    hide ReleaseAll, FreshNeeded, KvShaped, CacheFull;
  }

  lemma ReferencesReturned(kv: KV, kv1: KV, bs: nat, hits: seq<BlockId>)
    requires KvOk(kv, bs, []) && KvOk(kv1, bs, hits) && kv1.tables == kv.tables && kv1.chains == kv.chains
    requires SameContents(kv.pool, kv1.pool) && KvShaped(kv1) && InPool(kv1.pool, hits)
    requires var p := ReleaseAll(kv1.pool, hits);
      && KvOk(kv1.(pool := p), bs, []) && SameContents(kv1.pool, p)
      && forall b :: 0 <= b < |p.refs| ==> p.refs[b] == kv1.pool.refs[b] - InHand(hits, b)
    ensures Restored(kv, kv1.(pool := ReleaseAll(kv1.pool, hits)))
  {
    hide HashesBlocked, ReleaseAll;
    var p := ReleaseAll(kv1.pool, hits);
    assert p.refs == kv.pool.refs;
    FreeDetermined(kv.pool, p);
  }

  /** Nothing that TableOk says about request r's row changed. */
  ghost predicate SameRow(kv: KV, kv': KV, r: Id) {
    && TableOf(kv', r) == TableOf(kv, r)
    && ChainOf(kv', r) == ChainOf(kv, r)
    && kv'.pool.caching == kv.pool.caching
    && |kv'.pool.hash| == |kv.pool.hash|
    && forall b :: b in TableOf(kv, r) && b < |kv.pool.hash| ==> kv'.pool.hash[b] == kv.pool.hash[b]
  }

  lemma TableFrame(kv: KV, kv': KV, bs: nat, r: Id, toks: seq<Token>, cover: nat)
    requires bs > 0
    requires SameRow(kv, kv', r) && TableOk(kv, bs, r, toks, cover)
    ensures TableOk(kv', bs, r, toks, cover)
  {
    var t, c := TableOf(kv, r), ChainOf(kv, r);
    forall i | 0 <= i < |t| ensures HashAt(kv', t, c, i) {
      assert HashAt(kv, t, c, i);
      assert t[i] in t;
    }
  }

  /** TableOk while chain entries are still being appended. */
  ghost predicate RegisterReady(kv: KV, bs: nat, id: Id, toks: seq<Token>, numFull: nat) {
    var t := TableOf(kv, id);
    var c := ChainOf(kv, id);
    && Distinct(t)
    && |c| <= numFull <= |t|
    && numFull * bs <= |toks|
    && (forall i :: 0 <= i < |c| ==> c[i] == Chain(toks, bs, i + 1))
    && (forall i :: 0 <= i < |t| ==> HashAt(kv, t, c, i))
  }

  function RegisterStep(kv: KV, bs: nat, id: Id, toks: seq<Token>): (r: KV)
    requires KvShaped(kv) && |ChainOf(kv, id)| < |TableOf(kv, id)|
    ensures KvShaped(r) && r.tables == kv.tables
  {
    var hs := ChainOf(kv, id);
    var parent := if hs == [] then NoHash else hs[|hs| - 1];
    var h := HashBlock(parent, Slice(toks, |hs| * bs, (|hs| + 1) * bs));
    assert TableOf(kv, id)[|hs|] in kv.tables[id];
    KV(Register(kv.pool, TableOf(kv, id)[|hs|], h), kv.tables, kv.chains[id := hs + [h]])
  }

  /** What registration may change: new entries on this request's own unregistered blocks. */
  ghost predicate OnlyRegistered(kv: KV, kv': KV, bs: nat, id: Id, toks: seq<Token>, lo: nat, hi: nat) {
    && kv'.tables == kv.tables
    && kv'.pool.refs == kv.pool.refs
    && kv'.pool.free == kv.pool.free
    && kv'.pool.caching == kv.pool.caching
    && |kv'.pool.hash| == |kv.pool.hash|
    && (forall r :: r != id ==> ChainOf(kv', r) == ChainOf(kv, r))
    && kv'.chains.Keys <= kv.chains.Keys + {id}
    && (forall b :: 0 <= b < |kv.pool.hash| && kv'.pool.hash[b] != kv.pool.hash[b] ==>
          NewlyRegistered(kv, kv', bs, id, toks, lo, hi, b))
  }

  ghost predicate NewlyRegistered(kv: KV, kv': KV, bs: nat, id: Id, toks: seq<Token>, lo: nat, hi: nat, b: BlockId)
    requires b < |kv.pool.hash| == |kv'.pool.hash|
  {
    && kv.pool.hash[b] == NoHash
    && exists i :: RegisteredAt(kv'.pool, TableOf(kv, id), bs, toks, lo, hi, b, i)
  }

  ghost predicate RegisteredAt(p: Pool, t: seq<BlockId>, bs: nat, toks: seq<Token>, lo: nat, hi: nat, b: BlockId, i: nat)
    requires b < |p.hash|
  {
    lo <= i < hi && i < |t| && t[i] == b && p.hash[b] == Chain(toks, bs, i + 1)
  }

  /** The step appends the next chain entry and registers the next block under it. */
  lemma RegisterStepIs(kv: KV, bs: nat, id: Id, toks: seq<Token>, numFull: nat)
    requires bs > 0 && KvShaped(kv) && RegisterReady(kv, bs, id, toks, numFull)
    requires |ChainOf(kv, id)| < numFull
    ensures var m := |ChainOf(kv, id)|; var h := Chain(toks, bs, m + 1);
      && id in kv.tables && TableOf(kv, id)[m] < |kv.pool.refs|
      && h != NoHash && Blocked(h, bs)
      && RegisterStep(kv, bs, id, toks)
         == KV(Register(kv.pool, TableOf(kv, id)[m], h), kv.tables, kv.chains[id := ChainOf(kv, id) + [h]])
  {
    hide HashAt, Distinct, Chain, Register, Shaped, Blocked, HashBlock;
    var hs, t := ChainOf(kv, id), TableOf(kv, id);
    MulMono(0, |hs|, bs);
    MulMono(|hs|, |hs| + 1, bs);
    NextHash(bs, hs, toks, numFull);
    assert t[|hs|] in kv.tables[id];
  }

  /** The next chain entry hashes the next block under the last entry. */
  lemma NextHash(bs: nat, hs: seq<BlockHash>, toks: seq<Token>, numFull: nat)
    requires bs > 0 && |hs| < numFull && numFull * bs <= |toks|
    requires forall i :: 0 <= i < |hs| ==> hs[i] == Chain(toks, bs, i + 1)
    requires 0 <= |hs| * bs <= (|hs| + 1) * bs
    ensures var m := |hs|; var h := Chain(toks, bs, m + 1);
      && HashBlock(if hs == [] then NoHash else hs[m - 1], Slice(toks, m * bs, (m + 1) * bs)) == h
      && h != NoHash && Blocked(h, bs)
  {
    hide Slice, Blocked;
    var m := |hs|;
    ChainStep(toks, bs, m);
    MulMono(m + 1, numFull, bs);
    ChainShape(toks, bs, m + 1);
    if m > 0 { assert hs[m - 1] == Chain(toks, bs, m); }
  }

  lemma RegisterStepKv(kv: KV, bs: nat, id: Id, toks: seq<Token>, numFull: nat)
    requires bs > 0 && KvOk(kv, bs, []) && RegisterReady(kv, bs, id, toks, numFull)
    requires |ChainOf(kv, id)| < numFull
    ensures KvOk(RegisterStep(kv, bs, id, toks), bs, [])
  {
    hide PoolOk, Counted, HashesBlocked, Chain, RegisterStep, Register, HashAt;
    RegisterStepIs(kv, bs, id, toks, numFull);
    var m := |ChainOf(kv, id)|;
    var kv' := RegisterStep(kv, bs, id, toks);
    RegisterKv(kv, bs, [], TableOf(kv, id)[m], Chain(toks, bs, m + 1));
    CountedTables(kv.(pool := kv'.pool), kv', bs);
  }

  lemma RegisterStepReady(kv: KV, bs: nat, id: Id, toks: seq<Token>, numFull: nat)
    requires bs > 0 && KvShaped(kv) && RegisterReady(kv, bs, id, toks, numFull)
    requires |ChainOf(kv, id)| < numFull
    ensures RegisterReady(RegisterStep(kv, bs, id, toks), bs, id, toks, numFull)
    ensures |ChainOf(RegisterStep(kv, bs, id, toks), id)| == |ChainOf(kv, id)| + 1
  {
    hide Chain, RegisterStep, Shaped, Blocked, HashAt, Register;
    RegisterStepIs(kv, bs, id, toks, numFull);
    var hs, t := ChainOf(kv, id), TableOf(kv, id);
    var m := |hs|;
    var h := Chain(toks, bs, m + 1);
    var kv' := RegisterStep(kv, bs, id, toks);
    assert TableOf(kv', id) == t && ChainOf(kv', id) == hs + [h];
    forall i | 0 <= i < |t| ensures HashAt(kv', t, hs + [h], i) {
      assert t[i] in kv.tables[id];
      RegisteredHashAt(kv, kv', t, hs, h, i);
    }
  }

  lemma RegisteredHashAt(kv: KV, kv': KV, t: seq<BlockId>, hs: seq<BlockHash>, h: BlockHash, i: nat)
    requires Shaped(kv.pool) && |hs| < |t| && Distinct(t) && i < |t| && t[i] < |kv.pool.refs| && t[|hs|] < |kv.pool.refs|
    requires HashAt(kv, t, hs, i) && kv'.pool == Register(kv.pool, t[|hs|], h)
    ensures HashAt(kv', t, hs + [h], i)
  {
    if i != |hs| { assert t[i] != t[|hs|]; }
  }

  lemma RegisterStepOnly(kv: KV, bs: nat, id: Id, toks: seq<Token>, numFull: nat)
    requires bs > 0 && KvShaped(kv) && RegisterReady(kv, bs, id, toks, numFull)
    requires |ChainOf(kv, id)| < numFull
    ensures OnlyRegistered(kv, RegisterStep(kv, bs, id, toks), bs, id, toks, |ChainOf(kv, id)|, numFull)
  {
    hide Chain, RegisterStep, Shaped, Distinct, Blocked;
    RegisterStepIs(kv, bs, id, toks, numFull);
    var hs, t := ChainOf(kv, id), TableOf(kv, id);
    var m := |hs|;
    var b := t[m];
    var kv' := RegisterStep(kv, bs, id, toks);
    assert HashAt(kv, t, hs, m);
    if kv'.pool.hash[b] != kv.pool.hash[b] {
      assert RegisteredAt(kv'.pool, t, bs, toks, m, numFull, b, m);
      assert NewlyRegistered(kv, kv', bs, id, toks, m, numFull, b);
    }
  }

  /** KvOk does not look at the chains. */
  lemma CountedTables(kv: KV, kv': KV, bs: nat)
    requires KvOk(kv, bs, []) && kv'.pool == kv.pool && kv'.tables == kv.tables
    ensures KvOk(kv', bs, [])
  {
  }

  lemma {:induction false} RegisterFullKv(kv: KV, bs: nat, id: Id, toks: seq<Token>, numFull: nat)
    requires bs > 0 && KvOk(kv, bs, []) && RegisterReady(kv, bs, id, toks, numFull)
    ensures var r := RegisterFull(kv, bs, id, toks, numFull);
      && KvOk(r, bs, [])
      && RegisterReady(r, bs, id, toks, numFull)
      && |ChainOf(r, id)| == numFull
      && OnlyRegistered(kv, r, bs, id, toks, |ChainOf(kv, id)|, numFull)
    decreases numFull - |ChainOf(kv, id)|
  {
    hide PoolOk, Counted, HashesBlocked, Chain, Register, HashAt;
    if |ChainOf(kv, id)| < numFull {
      RegisterStepKv(kv, bs, id, toks, numFull);
      RegisterStepReady(kv, bs, id, toks, numFull);
      RegisterStepOnly(kv, bs, id, toks, numFull);
      var kv1 := RegisterStep(kv, bs, id, toks);
      RegisterFullKv(kv1, bs, id, toks, numFull);
      var r := RegisterFull(kv, bs, id, toks, numFull);
      assert r == RegisterFull(kv1, bs, id, toks, numFull);
      RegisteredTrans(kv, kv1, r, bs, id, toks, |ChainOf(kv, id)|, numFull);
    }
  }

  lemma RegisteredTrans(kv: KV, kv1: KV, kv2: KV, bs: nat, id: Id, toks: seq<Token>, lo: nat, hi: nat)
    requires OnlyRegistered(kv, kv1, bs, id, toks, lo, hi)
    requires OnlyRegistered(kv1, kv2, bs, id, toks, lo + 1, hi)
    ensures OnlyRegistered(kv, kv2, bs, id, toks, lo, hi)
  {
    hide Chain;
    var t := TableOf(kv, id);
    forall b | 0 <= b < |kv.pool.hash| && kv2.pool.hash[b] != kv.pool.hash[b]
      ensures NewlyRegistered(kv, kv2, bs, id, toks, lo, hi, b)
    {
      if kv2.pool.hash[b] != kv1.pool.hash[b] {
        assert NewlyRegistered(kv1, kv2, bs, id, toks, lo + 1, hi, b);
        var i :| RegisteredAt(kv2.pool, TableOf(kv1, id), bs, toks, lo + 1, hi, b, i);
        assert RegisteredAt(kv2.pool, t, bs, toks, lo, hi, b, i);
      } else {
        assert NewlyRegistered(kv, kv1, bs, id, toks, lo, hi, b);
        var i :| RegisteredAt(kv1.pool, t, bs, toks, lo, hi, b, i);
        assert RegisteredAt(kv2.pool, t, bs, toks, lo, hi, b, i);
      }
    }
  }
}
