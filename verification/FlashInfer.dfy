/** inferneo/attention/flashinfer_backend.py: the paged layout handed to the FlashInfer
    kernels, and why it denotes the same slots as the SDPA metadata. */
module FlashInfer {
  import opened Util
  import opened BlockPoolSpec
  import opened Model
  import opened Flat
  import opened Attention

  /** plan()'s arguments and the (block, offset) of every new token. */
  datatype PageMeta = PageMeta(
    qoIndptr: seq<nat>,
    kvIndptr: seq<nat>,
    kvIndices: seq<BlockId>,
    lastPageLen: seq<int>,
    blockIds: seq<BlockId>,
    offsets: seq<nat>)

  // ------------------------------------------------------------------ what a page layout means

  /** Row k's pages. */
  function Pages(indptr: seq<nat>, indices: seq<BlockId>, k: nat): seq<BlockId> {
    if k + 1 < |indptr| then Slice(indices, indptr[k], indptr[k + 1]) else []
  }

  /** The kernel reads every position of all pages but the last, and last positions of that one. */
  function PageSlots(bs: nat, pages: seq<BlockId>, last: int): (r: seq<nat>)
    requires bs > 0
  {
    var n := (|pages| - 1) * bs + last;
    if n <= 0 then []
    else seq(n, p requires 0 <= p < n => if FloorDiv(p, bs) < |pages| then SlotOf(bs, pages, p) else 0)
  }

  /** Positions in the last page. */
  function LastPage(sLen: nat, bs: nat): int
    requires bs > 0
  {
    sLen - (CeilDiv(sLen, bs) - 1) * bs
  }

  ghost predicate PagesOk(bs: nat, table: seq<BlockId>, sLen: nat, pages: seq<BlockId>, last: int)
    requires bs > 0
  {
    && Covers(bs, table, sLen)
    && 1 <= last <= bs
    && PageSlots(bs, pages, last) == Slots(bs, table, sLen)
  }

  /** The pages of one sequence: its first ceil(sLen / bs) blocks, the last one partly filled. */
  lemma PagesDenoteSlots(bs: nat, table: seq<BlockId>, sLen: nat)
    requires bs > 0 && Covers(bs, table, sLen)
    ensures CeilDiv(sLen, bs) <= |table|
    ensures PagesOk(bs, table, sLen, table[..CeilDiv(sLen, bs)], LastPage(sLen, bs))
  {
    var n := CeilDiv(sLen, bs);
    CeilDivBounds(sLen, bs);
    assert (n - 1) * bs == n * bs - bs;
    if sLen > 0 {
      LastBlock(sLen, bs);
      assert FloorDiv(sLen - 1, bs) < |table|;
    }
    var pages, last := table[..n], sLen - (n - 1) * bs;
    forall p: nat | p < sLen ensures FloorDiv(p, bs) < n && SlotOf(bs, pages, p) == SlotOf(bs, table, p) {
      FloorBounds(p, bs);
      MulStrict(FloorDiv(p, bs), n, bs);
    }
    assert PageSlots(bs, pages, last) == Slots(bs, table, sLen);
  }

  lemma LastBlock(sLen: nat, bs: nat)
    requires bs > 0 && sLen > 0
    ensures FloorDiv(sLen - 1, bs) == CeilDiv(sLen, bs) - 1
  {
    CeilDivBounds(sLen, bs);
    var c := CeilDiv(sLen, bs);
    assert c * bs == (c - 1) * bs + bs;
    FloorUnique(sLen - 1, bs, c - 1);
  }

  // ------------------------------------------------------------------ build_metadata

  /** After k rows: indptr starts at 0, ends at the number of indices, and each row so far
      denotes its sequence's slots. */
  ghost predicate Laid(bs: nat, seqLens: seq<nat>, tables: seq<seq<BlockId>>, k: nat,
                       indptr: seq<nat>, indices: seq<BlockId>, last: seq<int>)
    requires bs > 0
  {
    && k <= |seqLens| == |tables|
    && |indptr| == k + 1 && indptr[0] == 0 && indptr[k] == |indices|
    && |last| == k
    && (forall i :: 0 <= i < k ==> indptr[i] <= indptr[i + 1])
    && (forall i :: 0 <= i < k ==> PagesOk(bs, tables[i], seqLens[i], Pages(indptr, indices, i), last[i]))
  }

  /** Appending a row's pages leaves the earlier rows' pages alone. */
  lemma LaidRow(bs: nat, seqLens: seq<nat>, tables: seq<seq<BlockId>>, k: nat,
                indptr: seq<nat>, indices: seq<BlockId>, last: seq<int>, pages: seq<BlockId>, l: int)
    requires bs > 0 && Laid(bs, seqLens, tables, k, indptr, indices, last) && k < |seqLens|
    requires PagesOk(bs, tables[k], seqLens[k], pages, l)
    ensures Laid(bs, seqLens, tables, k + 1, indptr + [indptr[k] + |pages|], indices + pages, last + [l])
  {
    hide PagesOk;
    var indptr', indices' := indptr + [indptr[k] + |pages|], indices + pages;
    forall i | 0 <= i < k ensures Pages(indptr', indices', i) == Pages(indptr, indices, i) {
      Below(indptr, i + 1, k);
      Below(indptr, i, i + 1);
      assert indices'[indptr[i]..indptr[i + 1]] == indices[indptr[i]..indptr[i + 1]];
    }
    assert Pages(indptr', indices', k) == pages;
  }

  lemma {:induction false} Below(indptr: seq<nat>, i: nat, k: nat)
    requires i <= k < |indptr| && forall j :: 0 <= j < |indptr| - 1 ==> indptr[j] <= indptr[j + 1]
    ensures indptr[i] <= indptr[k]
    decreases k
  {
    if i < k { Below(indptr, i, k - 1); assert indptr[k - 1] <= indptr[k - 1 + 1]; }
  }

  ghost predicate Targets(bs: nat, blockIds: seq<BlockId>, offsets: seq<nat>, slots: seq<nat>) {
    && |blockIds| == |offsets| == |slots|
    && forall i :: 0 <= i < |slots| ==> offsets[i] < bs && blockIds[i] * bs + offsets[i] == slots[i]
  }

  /** bt[pos // bs] and pos % bs for the qLen positions at the tail of the sequence. */
  function RowBlocks(bs: nat, table: seq<BlockId>, qLen: nat, sLen: nat): seq<BlockId>
    requires bs > 0 && Covers(bs, table, sLen) && qLen <= sLen
  {
    seq(qLen, i requires 0 <= i < qLen => table[FloorDiv(sLen - qLen + i, bs)])
  }

  function RowOffsets(bs: nat, qLen: nat, sLen: nat): seq<nat>
    requires bs > 0 && qLen <= sLen
  {
    seq(qLen, i requires 0 <= i < qLen => (sLen - qLen + i) % bs)
  }

  /** The write targets of one row's new tokens. */
  lemma RowTargets(bs: nat, queryLens: seq<nat>, seqLens: seq<nat>, tables: seq<seq<BlockId>>, k: nat)
    requires BatchOk(bs, queryLens, seqLens, tables) && k < |queryLens|
    ensures Targets(bs, RowBlocks(bs, tables[k], queryLens[k], seqLens[k]), RowOffsets(bs, queryLens[k], seqLens[k]),
                    TailSlots(bs, queryLens, seqLens, tables)[k])
  {
  }

  function Starts(lens: seq<nat>, k: nat): (r: seq<nat>)
    requires k <= |lens|
    ensures |r| == k + 1
  {
    seq(k + 1, i requires 0 <= i <= k => Start(lens, i))
  }

  lemma StartsNone(lens: seq<nat>)
    ensures Starts(lens, 0) == [0]
  {
  }

  lemma StartsNext(lens: seq<nat>, k: nat)
    requires k < |lens|
    ensures Starts(lens, k + 1) == Starts(lens, k) + [Starts(lens, k)[k] + lens[k]]
  {
  }

  lemma TargetsConcat(bs: nat, b1: seq<BlockId>, o1: seq<nat>, s1: seq<nat>, b2: seq<BlockId>, o2: seq<nat>, s2: seq<nat>)
    requires Targets(bs, b1, o1, s1) && Targets(bs, b2, o2, s2)
    ensures Targets(bs, b1 + b2, o1 + o2, s1 + s2)
  {
  }

  /** build_metadata: for every list of lengths and tables, each row's pages denote exactly the
      slots SDPA gathers for it, the last page holds 1..bs positions, and the (block, offset)
      pairs are SDPA's flat slot mapping. */
  method BuildPages(bs: nat, queryLens: seq<nat>, seqLens: seq<nat>, tables: seq<seq<BlockId>>) returns (m: PageMeta)
    requires BatchOk(bs, queryLens, seqLens, tables)
    ensures Laid(bs, seqLens, tables, |seqLens|, m.kvIndptr, m.kvIndices, m.lastPageLen)
    ensures m.qoIndptr == Starts(queryLens, |queryLens|)
    ensures Targets(bs, m.blockIds, m.offsets, Metadata(bs, queryLens, seqLens, tables).slotMapping)
  {
    hide PagesOk, Slots, PageSlots, Targets, Metadata, Covers, RowBlocks, RowOffsets, Concat, LastPage, CeilDiv, Starts, TailSlots, Laid;
    var qo, kv: seq<nat> := [0], [0];
    var indices: seq<BlockId>, last: seq<int>, blocks: seq<BlockId>, offs: seq<nat> := [], [], [], [];
    ghost var tails := TailSlots(bs, queryLens, seqLens, tables);
    NoTargets(bs, tails);
    StartsNone(queryLens);
    LaidNone(bs, seqLens, tables);
    for k := 0 to |queryLens|
      invariant Laid(bs, seqLens, tables, k, kv, indices, last)
      invariant qo == Starts(queryLens, k)
      invariant Targets(bs, blocks, offs, Concat(tails[..k]))
    {
      var qLen, sLen, table := queryLens[k], seqLens[k], tables[k];
      StartsNext(queryLens, k);
      qo := qo + [qo[k] + qLen];
      var numPages := CeilDiv(sLen, bs);
      PagesDenoteSlots(bs, table, sLen);
      LaidShape(bs, seqLens, tables, k, kv, indices, last);
      LaidRow(bs, seqLens, tables, k, kv, indices, last, table[..numPages], LastPage(sLen, bs));
      indices := indices + table[..numPages];
      kv := kv + [kv[k] + numPages];
      last := last + [LastPage(sLen, bs)];
      RowTargets(bs, queryLens, seqLens, tables, k);
      TargetsConcat(bs, blocks, offs, Concat(tails[..k]), RowBlocks(bs, table, qLen, sLen), RowOffsets(bs, qLen, sLen), tails[k]);
      ConcatSnoc(tails, k);
      blocks := blocks + RowBlocks(bs, table, qLen, sLen);
      offs := offs + RowOffsets(bs, qLen, sLen);
    }
    assert tails[..|queryLens|] == tails;
    MappingIs(bs, queryLens, seqLens, tables);
    m := PageMeta(qo, kv, indices, last, blocks, offs);
  }

  lemma NoTargets(bs: nat, rows: seq<seq<nat>>)
    ensures Concat(rows[..0]) == [] && Targets(bs, [], [], [])
  {
  }

  lemma LaidShape(bs: nat, seqLens: seq<nat>, tables: seq<seq<BlockId>>, k: nat, indptr: seq<nat>, indices: seq<BlockId>, last: seq<int>)
    requires bs > 0 && Laid(bs, seqLens, tables, k, indptr, indices, last)
    ensures |indptr| == k + 1
  {
  }

  lemma LaidNone(bs: nat, seqLens: seq<nat>, tables: seq<seq<BlockId>>)
    requires bs > 0 && |seqLens| == |tables|
    ensures Laid(bs, seqLens, tables, 0, [0], [], [])
  {
  }

  lemma MappingIs(bs: nat, queryLens: seq<nat>, seqLens: seq<nat>, tables: seq<seq<BlockId>>)
    requires BatchOk(bs, queryLens, seqLens, tables)
    ensures Metadata(bs, queryLens, seqLens, tables).slotMapping == Concat(TailSlots(bs, queryLens, seqLens, tables))
  {
  }

  // ------------------------------------------------------------------ forward's scatter

  /** The paged cache read as one flat row of slots. */
  ghost function FlatCache(cache: array2<KVal>): (r: seq<KVal>)
    requires cache.Length1 > 0
    reads cache
    ensures |r| == cache.Length0 * cache.Length1
  {
    FlatBound(cache.Length0, cache.Length1);
    seq(cache.Length0 * cache.Length1, i requires 0 <= i < cache.Length0 * cache.Length1 reads cache =>
      assert FloorDiv(i, cache.Length1) < cache.Length0;
      cache[FloorDiv(i, cache.Length1), i % cache.Length1])
  }

  lemma FlatBound(blocks: nat, bs: nat)
    requires bs > 0
    ensures 0 <= blocks * bs && forall i: nat :: i < blocks * bs ==> FloorDiv(i, bs) < blocks
  {
    MulMono(0, blocks, bs);
    forall i: nat | i < blocks * bs ensures FloorDiv(i, bs) < blocks {
      FloorBounds(i, bs);
      MulStrict(FloorDiv(i, bs), blocks, bs);
    }
  }

  lemma FlatSlot(b: nat, o: nat, blocks: nat, bs: nat)
    requires b < blocks && o < bs
    ensures b * bs + o < blocks * bs
    ensures FloorDiv(b * bs + o, bs) == b && (b * bs + o) % bs == o
  {
    MulMono(b + 1, blocks, bs);
    assert (b + 1) * bs == b * bs + bs;
    DivModUnique(b, o, bs);
  }

  /** kv_cache[block_ids, offsets] = vals, in place: in flat slots, SDPA's scatter. */
  method ScatterPages(cache: array2<KVal>, bs: nat, blockIds: seq<BlockId>, offsets: seq<nat>, ghost slots: seq<nat>, vals: seq<KVal>)
    requires cache.Length1 == bs > 0 && Targets(bs, blockIds, offsets, slots) && |vals| == |slots|
    requires forall i :: 0 <= i < |blockIds| ==> blockIds[i] < cache.Length0
    requires forall i :: 0 <= i < |slots| ==> slots[i] < |FlatCache(cache)|
    modifies cache
    ensures FlatCache(cache) == Scatter(old(FlatCache(cache)), slots, vals)
  {
    ghost var before := FlatCache(cache);
    for i := 0 to |blockIds|
      invariant |FlatCache(cache)| == |before|
      invariant FlatCache(cache) == Scatter(before, slots[..i], vals[..i])
    {
      ScatterSnoc(before, slots, vals, i);
      FlatSlot(blockIds[i], offsets[i], cache.Length0, bs);
      PageWrite(cache, blockIds[i], offsets[i], vals[i]);
    }
    assert slots[..|slots|] == slots && vals[..|slots|] == vals;
  }

  method PageWrite(cache: array2<KVal>, b: BlockId, o: nat, v: KVal)
    requires b < cache.Length0 && o < cache.Length1
    modifies cache
    ensures |FlatCache(cache)| == |old(FlatCache(cache))| && b * cache.Length1 + o < |old(FlatCache(cache))|
    ensures FlatCache(cache) == old(FlatCache(cache))[b * cache.Length1 + o := v]
  {
    ghost var before := FlatCache(cache);
    FlatSlot(b, o, cache.Length0, cache.Length1);
    cache[b, o] := v;
    forall i | 0 <= i < |before| ensures FlatCache(cache)[i] == before[b * cache.Length1 + o := v][i] {
      DivModParts(i, cache.Length1);
    }
  }
}
