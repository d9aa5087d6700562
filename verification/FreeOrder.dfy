/** In which order blocks come back to the free queue, and what that leaves for the next prompt. */
module FreeOrder {
  import opened Util
  import opened Hashing
  import opened BlockPoolSpec
  import opened BlockManagerSpec
  import opened BlockManagerInv
  import opened AllocationInv

  // ------------------------------------------------------------------ releasing a list

  /** The blocks of a list that lose their only reference. */
  function Sinking(p: Pool, bs: seq<BlockId>): seq<BlockId>
    requires InPool(p, bs)
    decreases |bs|
  {
    if bs == [] then []
    else
      assert bs[0] in bs && forall b :: b in bs[1..] ==> b in bs;
      (if p.refs[bs[0]] == 1 then [bs[0]] else []) + Sinking(p, bs[1..])
  }

  lemma {:induction false} SinkingSame(p: Pool, q: Pool, bs: seq<BlockId>)
    requires InPool(p, bs) && InPool(q, bs) && forall b :: b in bs ==> p.refs[b] == q.refs[b]
    ensures Sinking(p, bs) == Sinking(q, bs)
    decreases |bs|
  {
    if bs != [] {
      assert bs[0] in bs && forall b :: b in bs[1..] ==> b in bs;
      SinkingSame(p, q, bs[1..]);
    }
  }

  /** They are appended, one after another, to the queue. */
  lemma {:induction false} ReleaseQueue(kv: KV, bs: nat, hand: seq<BlockId>)
    requires KvOk(kv, bs, hand)
    ensures KvShaped(kv) && InPool(kv.pool, hand) && ReleaseAll(kv.pool, hand).free == kv.pool.free + Sinking(kv.pool, hand)
    decreases |hand|
  {
    hide KvOk, Release;
    HandInPool(kv, bs, hand);
    if hand != [] {
      ReleaseKv(kv, bs, hand);
      ReleasedOnce(kv, bs, hand);
      var kv1 := kv.(pool := Release(kv.pool, hand[0]));
      ReleaseQueue(kv1, bs, hand[1..]);
      SinkingSame(kv.pool, kv1.pool, hand[1..]);
    }
  }

  lemma ReleasedOnce(kv: KV, bs: nat, hand: seq<BlockId>)
    requires KvOk(kv, bs, hand) && hand != [] && hand[0] < |kv.pool.refs| && kv.pool.refs[hand[0]] > 0
    ensures var p := Release(kv.pool, hand[0]);
      && p.free == (if kv.pool.refs[hand[0]] == 1 then kv.pool.free + [hand[0]] else kv.pool.free)
      && InPool(p, hand[1..]) && forall b :: b in hand[1..] ==> p.refs[b] == kv.pool.refs[b]
  {
    hide Counted, HashesBlocked;
    ReleaseOk(kv.pool, hand[0]);
    HandDistinct(kv, hand, bs);
    forall b | b in hand[1..] ensures b != hand[0] && b < |kv.pool.refs| {
      var i :| 0 <= i < |hand| - 1 && hand[1..][i] == b;
      assert hand[i + 1] == b && b in hand;
    }
  }

  lemma HandDistinct(kv: KV, hand: seq<BlockId>, bs: nat)
    requires KvOk(kv, bs, hand)
    ensures Distinct(hand) && InPool(kv.pool, hand)
  {
  }

  /** Sinking keeps the list's order. */
  lemma {:induction false} SinkingOrder(p: Pool, bs: seq<BlockId>)
    requires InPool(p, bs) && Distinct(bs)
    ensures forall b :: b in Sinking(p, bs) <==> b in bs && p.refs[b] == 1
    ensures forall x, y, i, j :: 0 <= x < y < |Sinking(p, bs)| && 0 <= i < |bs| && 0 <= j < |bs| && bs[i] == Sinking(p, bs)[x] && bs[j] == Sinking(p, bs)[y] ==> i < j
    decreases |bs|
  {
    if bs != [] {
      var rest := bs[1..];
      assert bs == [bs[0]] + rest;
      assert Distinct(rest) && bs[0] !in rest by {
        forall i, j | 0 <= i < j < |rest| ensures rest[i] != rest[j] { assert rest[i] == bs[i + 1] && rest[j] == bs[j + 1]; }
        forall i | 0 <= i < |rest| ensures rest[i] != bs[0] { assert rest[i] == bs[i + 1]; }
      }
      assert forall b :: b in rest ==> b in bs;
      SinkingOrder(p, rest);
      var s, t := Sinking(p, bs), Sinking(p, rest);
      forall x, y, i, j | 0 <= x < y < |s| && 0 <= i < |bs| && 0 <= j < |bs| && bs[i] == s[x] && bs[j] == s[y] ensures i < j {
        var d := |s| - |t|;
        assert s[y] == t[y - d];
        assert s[y] in t && s[y] in rest;
        if x >= d { assert s[x] == t[x - d] && s[x] in rest; assert bs[i] == rest[i - 1] && bs[j] == rest[j - 1]; }
      }
    }
  }

  // ------------------------------------------------------------------ free

  /** added are the request's blocks that nobody else holds, the deepest first. */
  ghost predicate DeepestFirst(kv: KV, id: Id, added: seq<BlockId>) {
    var t := TableOf(kv, id);
    && InPool(kv.pool, t)
    && (forall b :: b in added <==> b in t && kv.pool.refs[b] == 1)
    && (forall x, y, i, j :: 0 <= x < y < |added| && 0 <= i < |t| && 0 <= j < |t| && t[i] == added[x] && t[j] == added[y] ==> i > j)
  }

  /** What free adds to the free queue. */
  function Returned(kv: KV, id: Id): seq<BlockId>
    requires KvShaped(kv)
  {
    Slice(FreeRequest(kv, id).pool.free, |kv.pool.free|, |FreeRequest(kv, id).pool.free|)
  }

  /** free leaves the queue as it was and appends the blocks nobody else holds, deepest first. */
  lemma FreeQueue(kv: KV, bs: nat, id: Id)
    requires KvOk(kv, bs, []) && Distinct(TableOf(kv, id))
    ensures KvShaped(kv) && FreeRequest(kv, id).pool.free == kv.pool.free + Returned(kv, id) && DeepestFirst(kv, id, Returned(kv, id))
  {
    hide KvOk, Sinking, ReleaseAll;
    HandInPool(kv, bs, []);
    var t := TableOf(kv, id);
    TableInPool(kv, id);
    DetachKv(kv, bs, id);
    var hand := Reverse(t);
    ReleaseQueue(kv.(tables := kv.tables - {id}), bs, hand);
    ReverseDistinct(t);
    SinkingOrder(kv.pool, hand);
    ReverseAt(t);
    var added := Sinking(kv.pool, hand);
    assert Returned(kv, id) == added;
  }

  lemma TableInPool(kv: KV, id: Id)
    requires KvShaped(kv)
    ensures InPool(kv.pool, TableOf(kv, id))
  {
  }

  lemma {:induction false} ReverseAt(s: seq<BlockId>)
    ensures |Reverse(s)| == |s| && forall i :: 0 <= i < |s| ==> Reverse(s)[|s| - 1 - i] == s[i]
  {
    if s != [] {
      ReverseAt(s[1..]);
      var r := Reverse(s[1..]);
      forall i | 0 <= i < |s| ensures Reverse(s)[|s| - 1 - i] == s[i] {
        if i > 0 { assert r[|s| - 1 - i] == s[1..][i - 1]; }
      }
    }
  }

  // ------------------------------------------------------------------ what later allocations leave

  /** Nobody else holds the i-th block of the request. */
  ghost predicate Alone(kv: KV, id: Id, i: nat) {
    var t := TableOf(kv, id);
    i < |t| && t[i] < |kv.pool.refs| == |kv.pool.hash| && kv.pool.refs[t[i]] == 1
  }

  /** The pool after the request was freed and n blocks were allocated. */
  function FreedAndTaken(kv: KV, id: Id, n: nat): (p: Pool)
    requires KvShaped(kv) && n <= |FreeRequest(kv, id).pool.free|
    ensures |p.hash| == |kv.pool.refs|
  {
    Take(FreeRequest(kv, id).pool, n)
  }

  /** Whoever stands before one who was taken was taken. */
  lemma InFront(s: seq<BlockId>, n: nat, a: nat, b: nat)
    requires Distinct(s) && n <= |s| && a < b < |s| && s[b] in s[..n]
    ensures s[a] in s[..n]
  {
    var k :| 0 <= k < n && s[..n][k] == s[b];
    assert s[k] == s[b];
    assert k == b;
    assert s[..n][a] == s[a];
  }

  /** Of two such blocks the deeper one stands before the other in the queue. */
  lemma DeeperBefore(kv: KV, bs: nat, id: Id, i: nat, j: nat, n: nat)
    requires KvOk(kv, bs, []) && Distinct(TableOf(kv, id)) && KvShaped(kv) && i < j && Alone(kv, id, i) && Alone(kv, id, j)
    requires n <= |FreeRequest(kv, id).pool.free|
    ensures var t, q := TableOf(kv, id), FreeRequest(kv, id).pool.free; t[i] in q[..n] ==> t[j] in q[..n]
  {
    hide FreeRequest, KvOk, KvShaped, DeepestFirst, Alone, Returned;
    var q, added := FreeRequest(kv, id).pool.free, Returned(kv, id);
    FreeQueue(kv, bs, id);
    FreedOk(kv, bs, id);
    var x, y := ReturnedAt(kv, id, added, i, j);
    var m := |kv.pool.free|;
    assert q[m + x] == added[x] && q[m + y] == added[y];
    if added[x] in q[..n] { InFront(q, n, m + y, m + x); }
  }

  lemma ReturnedAt(kv: KV, id: Id, added: seq<BlockId>, i: nat, j: nat) returns (x: nat, y: nat)
    requires DeepestFirst(kv, id, added) && Distinct(TableOf(kv, id)) && i < j && Alone(kv, id, i) && Alone(kv, id, j)
    ensures i < |TableOf(kv, id)| && j < |TableOf(kv, id)|
    ensures y < x < |added| && added[x] == TableOf(kv, id)[i] && added[y] == TableOf(kv, id)[j]
  {
    var t := TableOf(kv, id);
    assert t[i] in added && t[j] in added;
    x :| 0 <= x < |added| && added[x] == t[i];
    y :| 0 <= y < |added| && added[y] == t[j];
  }

  lemma FreedOk(kv: KV, bs: nat, id: Id)
    requires KvOk(kv, bs, []) && Distinct(TableOf(kv, id)) && KvShaped(kv)
    ensures PoolOk(FreeRequest(kv, id).pool) && Distinct(FreeRequest(kv, id).pool.free)
    ensures FreeRequest(kv, id).pool.hash == kv.pool.hash && FreeRequest(kv, id).pool.cached == kv.pool.cached
    ensures FreeRequest(kv, id).pool.caching == kv.pool.caching
  {
    hide FreeRequest;
    FreeRequestKv(kv, bs, id);
  }

  /** Of the blocks a request alone held, allocations after its end take the deeper ones first: as
      long as one keeps its content, so does every one before it. */
  lemma ShallowSurvive(kv: KV, bs: nat, id: Id, i: nat, j: nat, n: nat)
    requires KvOk(kv, bs, []) && Distinct(TableOf(kv, id)) && KvShaped(kv) && i < j && Alone(kv, id, i) && Alone(kv, id, j)
    requires n <= |FreeRequest(kv, id).pool.free|
    ensures var t, p := TableOf(kv, id), FreedAndTaken(kv, id, n);
      p.hash[t[j]] != NoHash ==> p.hash[t[j]] == kv.pool.hash[t[j]] && p.hash[t[i]] == kv.pool.hash[t[i]]
  {
    hide FreeRequest, Take, HashesBlocked, Counted, PoolOk;
    DeeperBefore(kv, bs, id, i, j, n);
    FreedOk(kv, bs, id);
    TakeOk(FreeRequest(kv, id).pool, n);
  }

  /** The first k blocks of the request are its own, registered, and nobody else's. */
  ghost predicate OwnRun(kv: KV, id: Id, k: nat) {
    k <= |TableOf(kv, id)| && forall i :: 0 <= i < k ==> Alone(kv, id, i) && kv.pool.hash[TableOf(kv, id)[i]] != NoHash
  }

  /** What survives of such a run is a leading run of it; all of it, while older blocks last. */
  lemma {:induction false} LeadingRun(kv: KV, bs: nat, id: Id, k: nat, n: nat) returns (m: nat)
    requires KvOk(kv, bs, []) && Distinct(TableOf(kv, id)) && KvShaped(kv) && OwnRun(kv, id, k)
    requires n <= |FreeRequest(kv, id).pool.free|
    ensures m <= k && forall i :: 0 <= i < k ==> (FreedAndTaken(kv, id, n).hash[TableOf(kv, id)[i]] != NoHash <==> i < m)
    ensures n <= |kv.pool.free| ==> m == k
    decreases k
  {
    hide KvOk, KvShaped, FreedAndTaken, FreeRequest;
    m := k;
    if k > 0 {
      if FreedAndTaken(kv, id, n).hash[TableOf(kv, id)[k - 1]] == NoHash {
        if n <= |kv.pool.free| { OlderFirst(kv, bs, id, k - 1, n); }
        m := LeadingRun(kv, bs, id, k - 1, n);
      } else {
        forall i | 0 <= i < k - 1 ensures FreedAndTaken(kv, id, n).hash[TableOf(kv, id)[i]] != NoHash {
          ShallowSurvive(kv, bs, id, i, k - 1, n);
        }
      }
    }
  }

  /** The blocks that were free before go first. */
  lemma OlderFirst(kv: KV, bs: nat, id: Id, i: nat, n: nat)
    requires KvOk(kv, bs, []) && Distinct(TableOf(kv, id)) && KvShaped(kv) && Alone(kv, id, i) && n <= |kv.pool.free|
    requires n <= |FreeRequest(kv, id).pool.free|
    ensures FreedAndTaken(kv, id, n).hash[TableOf(kv, id)[i]] == kv.pool.hash[TableOf(kv, id)[i]]
  {
    hide FreeRequest, Take, HashesBlocked, Counted, Returned, DeepestFirst;
    FreeQueue(kv, bs, id);
    FreedOk(kv, bs, id);
    TakeOk(FreeRequest(kv, id).pool, n);
    var q := FreeRequest(kv, id).pool.free;
    assert q[..n] == kv.pool.free[..n];
    assert forall b :: b in kv.pool.free[..n] ==> b in kv.pool.free;
  }

  /** The i-th full block of these tokens is in the map. */
  ghost predicate FoundAt(p: Pool, bs: nat, tokens: seq<Token>, i: nat) {
    Chain(tokens, bs, i + 1) in p.cached
  }

  /** So the next prompt with these tokens finds that run, up to the token it must leave. */
  lemma LeadingHits(kv: KV, bs: nat, tokens: seq<Token>, m: nat)
    requires bs > 0 && KvOk(kv, bs, []) && KvShaped(kv) && kv.pool.caching && tokens != [] && m * bs <= |tokens|
    requires forall i :: 0 <= i < m ==> FoundAt(kv.pool, bs, tokens, i)
    ensures var hits := GetComputed(kv, bs, tokens).1; |hits| >= m || (|hits| == m - 1 && m * bs == |tokens|)
  {
    hide KvOk, KvShaped, GetComputed, Chain, Leading;
    GetComputedKv(kv, bs, tokens);
    var hits := GetComputed(kv, bs, tokens).1;
    if |hits| < m {
      MulMono(|hits| + 1, m, bs);
      assert FoundAt(kv.pool, bs, tokens, |hits|);
      assert (|hits| + 1) * bs == |tokens| == m * bs;
      MulSame(|hits| + 1, m, bs);
    }
  }

  /** The surviving run is found by the request's own tokens. */
  lemma RunFound(kv: KV, bs: nat, id: Id, toks: seq<Token>, cover: nat, k: nat, n: nat) returns (m: nat)
    requires bs > 0 && KvOk(kv, bs, []) && KvShaped(kv) && TableOk(kv, bs, id, toks, cover) && OwnRun(kv, id, k)
    requires n <= |FreeRequest(kv, id).pool.free|
    ensures m <= k && (n <= |kv.pool.free| ==> m == k)
    ensures forall i :: 0 <= i < k ==> (FreedAndTaken(kv, id, n).hash[TableOf(kv, id)[i]] != NoHash <==> i < m)
    ensures forall i :: 0 <= i < m ==> FoundAt(FreedAndTaken(kv, id, n), bs, toks, i)
  {
    hide FreeRequest, Take, Counted, HashesBlocked, Chain;
    m := LeadingRun(kv, bs, id, k, n);
    FreedOk(kv, bs, id);
    TakeOk(FreeRequest(kv, id).pool, n);
    var t, p := TableOf(kv, id), FreedAndTaken(kv, id, n);
    forall i | 0 <= i < m ensures FoundAt(p, bs, toks, i) {
      assert HashAt(kv, t, ChainOf(kv, id), i);
      assert Alone(kv, id, i) && p.hash[t[i]] != NoHash;
      assert p.hash[t[i]] == kv.pool.hash[t[i]] == Chain(toks, bs, i + 1);
    }
  }

  lemma MulSame(a: nat, b: nat, bs: nat)
    requires bs > 0 && a <= b && a * bs == b * bs
    ensures a == b
  {
    assert (a + 1) * bs == a * bs + bs;
    if a < b { MulMono(a + 1, b, bs); }
  }

  // ------------------------------------------------------------------ registration happens

  /** h is in the map now, under the given block unless it was there before. */
  ghost predicate Cached(p: Pool, q: Pool, h: BlockHash, b: BlockId) {
    h in q.cached && (if h in p.cached then q.cached[h] == p.cached[h] else q.cached[h] == b)
  }

  ghost predicate KeepsCached(p: Pool, q: Pool) {
    forall h :: h in p.cached ==> h in q.cached && q.cached[h] == p.cached[h]
  }

  lemma RegisterCaches(kv: KV, bs: nat, id: Id, toks: seq<Token>, numFull: nat)
    requires bs > 0 && KvShaped(kv) && RegisterReady(kv, bs, id, toks, numFull) && kv.pool.caching && |ChainOf(kv, id)| < numFull
    ensures var m, kv1 := |ChainOf(kv, id)|, RegisterStep(kv, bs, id, toks);
      && Cached(kv.pool, kv1.pool, Chain(toks, bs, m + 1), TableOf(kv, id)[m]) && KeepsCached(kv.pool, kv1.pool) && kv1.pool.caching
      && (forall h :: h in kv1.pool.cached ==> h in kv.pool.cached || h == Chain(toks, bs, m + 1))
  {
    hide Chain, RegisterStep, Distinct;
    RegisterStepIs(kv, bs, id, toks, numFull);
    assert HashAt(kv, TableOf(kv, id), ChainOf(kv, id), |ChainOf(kv, id)|);
  }

  /** Every block that becomes full is found from then on: itself, or the one that was first. */
  lemma {:induction false} FullCached(kv: KV, bs: nat, id: Id, toks: seq<Token>, numFull: nat)
    requires bs > 0 && KvOk(kv, bs, []) && KvShaped(kv) && RegisterReady(kv, bs, id, toks, numFull) && kv.pool.caching
    ensures var kv' := RegisterFull(kv, bs, id, toks, numFull);
      KeepsCached(kv.pool, kv'.pool) && NewlyCached(kv, kv', bs, id, toks, |ChainOf(kv, id)|, numFull)
    decreases numFull - |ChainOf(kv, id)|
  {
    hide KvOk, KvShaped, Chain, Register, HashAt, RegisterStep, Cached, RegisterReady, NewlyCached, KeepsCached;
    ReadyLength(kv, bs, id, toks, numFull);
    NoneNewly(kv, bs, id, toks, numFull);
    if |ChainOf(kv, id)| < numFull {
      RegisterCaches(kv, bs, id, toks, numFull);
      RegisterStepKv(kv, bs, id, toks, numFull);
      RegisterStepReady(kv, bs, id, toks, numFull);
      var kv1 := RegisterStep(kv, bs, id, toks);
      FullCached(kv1, bs, id, toks, numFull);
      RegisterNext(kv, bs, id, toks, numFull);
      CachedTrans(kv, kv1, RegisterFull(kv1, bs, id, toks, numFull), bs, id, toks, |ChainOf(kv, id)|, numFull);
    }
  }

  lemma NoneNewly(kv: KV, bs: nat, id: Id, toks: seq<Token>, n: nat)
    requires n <= |TableOf(kv, id)|
    ensures KeepsCached(kv.pool, kv.pool) && NewlyCached(kv, kv, bs, id, toks, n, n)
  {
  }

  ghost predicate NewlyCached(kv: KV, kv': KV, bs: nat, id: Id, toks: seq<Token>, lo: nat, hi: nat) {
    hi <= |TableOf(kv, id)| && forall i :: lo <= i < hi ==> Cached(kv.pool, kv'.pool, Chain(toks, bs, i + 1), TableOf(kv, id)[i])
  }

  lemma ReadyLength(kv: KV, bs: nat, id: Id, toks: seq<Token>, numFull: nat)
    requires RegisterReady(kv, bs, id, toks, numFull)
    ensures |ChainOf(kv, id)| <= numFull <= |TableOf(kv, id)| && numFull * bs <= |toks|
  {
  }

  lemma RegisterNext(kv: KV, bs: nat, id: Id, toks: seq<Token>, numFull: nat)
    requires bs > 0 && KvShaped(kv) && |ChainOf(kv, id)| < numFull <= |TableOf(kv, id)|
    ensures RegisterFull(kv, bs, id, toks, numFull) == RegisterFull(RegisterStep(kv, bs, id, toks), bs, id, toks, numFull)
  {
    hide Register, KvShaped, HashBlock;
  }

  lemma CachedTrans(kv: KV, kv1: KV, kv2: KV, bs: nat, id: Id, toks: seq<Token>, m: nat, hi: nat)
    requires m < hi && hi * bs <= |toks| && kv1.tables == kv.tables && KeepsCached(kv.pool, kv1.pool) && KeepsCached(kv1.pool, kv2.pool)
    requires m < |TableOf(kv, id)| && Cached(kv.pool, kv1.pool, Chain(toks, bs, m + 1), TableOf(kv, id)[m])
    requires forall h :: h in kv1.pool.cached ==> h in kv.pool.cached || h == Chain(toks, bs, m + 1)
    requires NewlyCached(kv1, kv2, bs, id, toks, m + 1, hi)
    ensures KeepsCached(kv.pool, kv2.pool) && NewlyCached(kv, kv2, bs, id, toks, m, hi)
  {
    hide Chain;
    var t := TableOf(kv, id);
    assert TableOf(kv1, id) == t;
    forall i | m <= i < hi ensures Cached(kv.pool, kv2.pool, Chain(toks, bs, i + 1), t[i]) {
      if i > m {
        assert Cached(kv1.pool, kv2.pool, Chain(toks, bs, i + 1), t[i]);
        MulMono(i + 1, hi, bs);
        MulMono(m + 1, hi, bs);
        ChainsDiffer(toks, bs, m + 1, i + 1);
      }
    }
  }

  /** allocate_slots with caching on: every block its tokens newly fill is found from then on. */
  lemma AllocationCaches(kv: KV, bs: nat, id: Id, toks: seq<Token>, computed: nat, n: nat, hits: seq<BlockId>)
    requires CanAllocate(kv, bs, id, toks, computed, n, hits) && KvShaped(kv) && InPool(kv.pool, hits) && kv.pool.caching
    requires FreshNeeded(kv, bs, id, computed, n, hits) <= |kv.pool.free|
    ensures var kv' := AllocateSlots(kv, bs, id, toks, computed, n, hits).0;
      forall i :: FloorDiv(Total(bs, computed, 0, hits), bs) <= i < FloorDiv(Total(bs, computed, n, hits), bs) ==> FoundAt(kv'.pool, bs, toks, i)
  {
    hide KvOk, KvShaped, Chain, AllocateSlots, CanAllocate, RegisterReady, RegisterFull, FreshNeeded, FloorDiv, Attach, HashAt;
    BlocksOf(kv, bs, id, toks, computed, n, hits);
    var kv1 := Attach(kv, bs, id, computed, n, hits);
    var total := Total(bs, computed, n, hits);
    AllocateIs(kv, bs, id, toks, computed, n, hits);
    AttachTables(kv, bs, id, toks, computed, n, hits);
    AttachReady(kv, bs, id, toks, computed, n, hits);
    AttachChain(kv, bs, id, toks, computed, n, hits);
    AttachSources(kv, bs, id, computed, n, hits);
    var kv2 := kv1.(chains := kv1.chains[id := ChainOf(kv1, id)]);
    CountedTables(kv1, kv2, bs);
    HandInPool(kv2, bs, []);
    ReadySame(kv1, kv2, bs, id, toks, FloorDiv(total, bs));
    FullCached(kv2, bs, id, toks, FloorDiv(total, bs));
    var lo := FloorDiv(Total(bs, computed, 0, hits), bs);
    assert |ChainOf(kv2, id)| == lo;
    assert AllocateSlots(kv, bs, id, toks, computed, n, hits).0 == RegisterFull(kv2, bs, id, toks, FloorDiv(total, bs));
    forall i | lo <= i < FloorDiv(total, bs) ensures FoundAt(AllocateSlots(kv, bs, id, toks, computed, n, hits).0.pool, bs, toks, i) {
      assert Cached(kv2.pool, RegisterFull(kv2, bs, id, toks, FloorDiv(total, bs)).pool, Chain(toks, bs, i + 1), TableOf(kv2, id)[i]);
    }
  }

  lemma BlocksOf(kv: KV, bs: nat, id: Id, toks: seq<Token>, computed: nat, n: nat, hits: seq<BlockId>)
    requires CanAllocate(kv, bs, id, toks, computed, n, hits)
    ensures bs > 0 && KvOk(kv, bs, hits)
  {
  }

  lemma ReadySame(kv1: KV, kv2: KV, bs: nat, id: Id, toks: seq<Token>, numFull: nat)
    requires RegisterReady(kv1, bs, id, toks, numFull) && kv2 == kv1.(chains := kv1.chains[id := ChainOf(kv1, id)])
    ensures RegisterReady(kv2, bs, id, toks, numFull)
  {
    forall i | 0 <= i < |TableOf(kv2, id)| ensures HashAt(kv2, TableOf(kv2, id), ChainOf(kv2, id), i) {
      assert HashAt(kv1, TableOf(kv1, id), ChainOf(kv1, id), i);
    }
  }

  // ------------------------------------------------------------------ a failed admission

  /** Front to back: of the blocks whose only reference was the admission's. */
  ghost predicate FrontFirst(p: Pool, hits: seq<BlockId>, added: seq<BlockId>) {
    && InPool(p, hits)
    && (forall b :: b in added <==> b in hits && p.refs[b] == 1)
    && (forall x, y, i, j :: 0 <= x < y < |added| && 0 <= i < |hits| && 0 <= j < |hits| && hits[i] == added[x] && hits[j] == added[y] ==> i < j)
  }

  /** A failed allocation appends its revived hits to the queue in table order, the opposite of
      what free does. */
  lemma FailedQueue(kv: KV, bs: nat, id: Id, tokens: seq<Token>, computed: nat, n: nat, hits: seq<BlockId>) returns (added: seq<BlockId>)
    requires bs > 0 && KvOk(kv, bs, hits) && KvShaped(kv) && InPool(kv.pool, hits)
    requires AllocateSlots(kv, bs, id, tokens, computed, n, hits).1.None?
    ensures AllocateSlots(kv, bs, id, tokens, computed, n, hits).0.pool.free == kv.pool.free + added && FrontFirst(kv.pool, hits, added)
  {
    hide KvOk, Sinking, ReleaseAll, AllocateSlots, KvShaped;
    FailedReleases(kv, bs, id, tokens, computed, n, hits);
    ReleaseQueue(kv, bs, hits);
    HandDistinct(kv, hits, bs);
    SinkingOrder(kv.pool, hits);
    added := Sinking(kv.pool, hits);
  }
}
