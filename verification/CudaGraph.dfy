/** inferneo/executor/cuda_graph.py: bucket choice and the index arrays of the decode graph, by the
    source's loops. */
module CudaGraph {
  import opened Util
  import opened BlockPoolSpec
  import opened BlockManagerSpec
  import opened BlockManagerInv
  import opened SchedulerSpec
  import opened SchedulerInv
  import opened Model
  import opened Flat
  import opened Attention
  import opened LabelInv
  import opened WriteLabels
  import opened GraphSpec
  import opened RunnerSpec
  import opened FlashInfer

  // ------------------------------------------------------------------ buckets

  /** default_buckets. The final sorted(dict.fromkeys(..)) changes nothing: the list is
      already strictly increasing. */
  method DefaultBuckets(maxNumSeqs: int) returns (buckets: seq<int>)
    ensures BucketsOk(buckets, maxNumSeqs)
  {
    hide Pow2, BucketsOk;
    buckets := [];
    var b := 1;
    PowersNext(0);
    while b < maxNumSeqs
      invariant b == Pow2(|buckets|) && buckets == Powers(|buckets|)
      invariant |buckets| > 0 ==> Pow2(|buckets| - 1) < maxNumSeqs
      decreases maxNumSeqs - b
    {
      PowersNext(|buckets|);
      buckets := buckets + [b];
      b := b * 2;
    }
    PowersOk(|buckets|, maxNumSeqs);
    buckets := buckets + [maxNumSeqs];
  }

  function Powers(n: nat): seq<int> {
    seq(n, i requires 0 <= i < n => Pow2(i))
  }

  lemma PowersNext(n: nat)
    ensures Powers(n + 1) == Powers(n) + [Pow2(n)] && Pow2(n + 1) == 2 * Pow2(n) && Powers(0) == [] && Pow2(0) == 1
  {
  }

  lemma {:induction false} Pow2Grows(i: nat, j: nat)
    requires i < j
    ensures Pow2(i) < Pow2(j)
    decreases j
  {
    if i < j - 1 { Pow2Grows(i, j - 1); }
  }

  /** The n powers below max, and max. */
  lemma PowersOk(n: nat, max: int)
    requires max <= Pow2(n) && (n > 0 ==> Pow2(n - 1) < max)
    ensures BucketsOk(Powers(n) + [max], max)
  {
    hide Pow2;
    var buckets := Powers(n) + [max];
    PowersNext(0);
    forall i, j | 0 <= i < j < |buckets| ensures buckets[i] < buckets[j] {
      if i < n - 1 { Pow2Grows(i, n - 1); }
      if j < n { Pow2Grows(i, j); }
    }
    forall i | 0 <= i < |buckets| - 1 ensures buckets[i + 1] <= 2 * buckets[i] { PowersNext(i); }
  }

  /** pick_bucket: the smallest bucket that fits, below twice the batch; none only when the
      batch is larger than every bucket. */
  method PickBucket(buckets: seq<int>, max: int, n: int) returns (r: Option<int>)
    requires BucketsOk(buckets, max)
    ensures r.None? <==> n > max
    ensures r.Some? ==> r.value in buckets && n <= r.value && forall b :: b in buckets && n <= b ==> r.value <= b
    ensures r.Some? && 1 <= n ==> r.value < 2 * n
    ensures r.Some? && 0 <= n ==> r.value == BucketFor(buckets, n)
  {
    if n > buckets[|buckets| - 1] {
      return None;
    }
    for i := 0 to |buckets|
      invariant forall k :: 0 <= k < i ==> buckets[k] < n
    {
      if buckets[i] >= n {
        assert i > 0 ==> buckets[i - 1 + 1] <= 2 * buckets[i - 1] || max < 1;
        if n >= 0 { BucketIs(buckets, n, buckets[i]); }
        return Some(buckets[i]);
      }
    }
    assert false;
  }

  // ------------------------------------------------------------------ the padded batch

  /** Padding rows are sequences of length one in the scratch block. */
  lemma PaddedOk(bs: nat, seqLens: seq<nat>, tables: seq<seq<BlockId>>, b: nat, scratch: BlockId)
    requires DecodeOk(bs, seqLens, tables, b)
    ensures BatchOk(bs, Ones(b), Padded(seqLens, b, 1), Padded(tables, b, [scratch]))
    ensures forall k :: 0 <= k < b ==> Padded(seqLens, b, 1)[k] >= 1
  {
    forall k | 0 <= k < b ensures Padded(seqLens, b, 1)[k] >= 1 && Covers(bs, Padded(tables, b, [scratch])[k], Padded(seqLens, b, 1)[k]) {
      if k >= |seqLens| { OneSlot(bs, scratch); }
    }
  }

  lemma OneSlot(bs: nat, scratch: BlockId)
    requires bs > 0
    ensures Covers(bs, [scratch], 1) && FloorDiv(0, bs) == 0 && CeilDiv(1, bs) == 1 && 0 % bs == 0
    ensures PagesOk(bs, [scratch], 1, [scratch], 1)
  {
    FloorUnique(0, bs, 0);
    CeilDivUnique(1, bs, 1);
    PagesDenoteSlots(bs, [scratch], 1);
    assert [scratch][..1] == [scratch];
  }

  /** _plan: rows that exist get their own pages, the rest the scratch block. */
  method Plan(bs: nat, b: nat, seqLens: seq<nat>, tables: seq<seq<BlockId>>, scratch: BlockId)
      returns (indptr: seq<nat>, indices: seq<BlockId>, last: seq<int>)
    requires DecodeOk(bs, seqLens, tables, b)
    ensures Laid(bs, Padded(seqLens, b, 1), Padded(tables, b, [scratch]), b, indptr, indices, last)
  {
    hide PagesOk, Covers, Pages, LastPage;
    indptr, indices, last := [0], [], [];
    ghost var lens, tabs := Padded(seqLens, b, 1), Padded(tables, b, [scratch]);
    for i := 0 to b
      invariant Laid(bs, lens, tabs, i, indptr, indices, last)
    {
      if i < |seqLens| {
        var nb := CeilDiv(seqLens[i], bs);
        PagesDenoteSlots(bs, tables[i], seqLens[i]);
        assert lens[i] == seqLens[i] && tabs[i] == tables[i];
        LaidRow(bs, lens, tabs, i, indptr, indices, last, tables[i][..nb], LastPage(seqLens[i], bs));
        indices := indices + tables[i][..nb];
        last := last + [LastPage(seqLens[i], bs)];
        indptr := indptr + [indptr[i] + nb];
      } else {
        OneSlot(bs, scratch);
        assert lens[i] == 1 && tabs[i] == [scratch];
        LaidRow(bs, lens, tabs, i, indptr, indices, last, [scratch], 1);
        indices := indices + [scratch];
        last := last + [1];
        indptr := indptr + [indptr[i] + 1];
      }
    }
  }

  /** The index building of run: each real row's write target is the one of the eager path,
      each padding row's is the start of the scratch block. */
  method RunTargets(bs: nat, b: nat, seqLens: seq<nat>, tables: seq<seq<BlockId>>, scratch: BlockId)
      returns (blockIds: seq<BlockId>, offsets: seq<nat>)
    requires DecodeOk(bs, seqLens, tables, b)
    ensures BatchOk(bs, Ones(b), Padded(seqLens, b, 1), Padded(tables, b, [scratch]))
    ensures Targets(bs, blockIds, offsets,
                    Metadata(bs, Ones(b), Padded(seqLens, b, 1), Padded(tables, b, [scratch])).slotMapping)
  {
    blockIds, offsets := [], [];
    ghost var lens, tabs := Padded(seqLens, b, 1), Padded(tables, b, [scratch]);
    PaddedOk(bs, seqLens, tables, b, scratch);
    ghost var tails := TailSlots(bs, Ones(b), lens, tabs);
    for i := 0 to b
      invariant Targets(bs, blockIds, offsets, Concat(tails[..i]))
    {
      ConcatSnoc(tails, i);
      if i < |seqLens| {
        var pos := seqLens[i] - 1;
        OneTarget(bs, tables[i], seqLens[i], tails[i]);
        TargetsConcat(bs, blockIds, offsets, Concat(tails[..i]), [tables[i][FloorDiv(pos, bs)]], [pos % bs], tails[i]);
        blockIds := blockIds + [tables[i][FloorDiv(pos, bs)]];
        offsets := offsets + [pos % bs];
      } else {
        OneSlot(bs, scratch);
        OneTarget(bs, [scratch], 1, tails[i]);
        TargetsConcat(bs, blockIds, offsets, Concat(tails[..i]), [scratch], [0], tails[i]);
        blockIds := blockIds + [scratch];
        offsets := offsets + [0];
      }
    }
    assert tails[..b] == tails;
  }

  lemma OneTarget(bs: nat, table: seq<BlockId>, sLen: nat, tail: seq<nat>)
    requires bs > 0 && sLen >= 1 && Covers(bs, table, sLen) && tail == Slots(bs, table, sLen)[sLen - 1..]
    ensures FloorDiv(sLen - 1, bs) < |table|
    ensures Targets(bs, [table[FloorDiv(sLen - 1, bs)]], [(sLen - 1) % bs], tail)
  {
  }

  /** The real rows of the padded batch are the eager batch. */
  lemma RealRowsAreEager(bs: nat, b: nat, seqLens: seq<nat>, tables: seq<seq<BlockId>>, scratch: BlockId)
    requires DecodeOk(bs, seqLens, tables, b)
    ensures BatchOk(bs, Ones(b), Padded(seqLens, b, 1), Padded(tables, b, [scratch]))
    ensures BatchOk(bs, Ones(|seqLens|), seqLens, tables)
    ensures var padded := Metadata(bs, Ones(b), Padded(seqLens, b, 1), Padded(tables, b, [scratch])).slotMapping;
      var eager := Metadata(bs, Ones(|seqLens|), seqLens, tables).slotMapping;
      && |eager| == |seqLens| && |padded| == b
      && padded[..|seqLens|] == eager
      && forall i :: |seqLens| <= i < b ==> padded[i] == scratch * bs
  {
    hide Concat, Slots, Covers, Ones, TailSlots;
    PaddedOk(bs, seqLens, tables, b, scratch);
    var lens, tabs, n := Padded(seqLens, b, 1), Padded(tables, b, [scratch]), |seqLens|;
    var all := TailSlots(bs, Ones(b), lens, tabs);
    var own := TailSlots(bs, Ones(n), seqLens, tables);
    OnePerRow(all);
    OnePerRow(own);
    forall i | 0 <= i < n ensures Concat(all)[i] == Concat(own)[i] {
      TailOf(bs, lens, tabs, i);
      TailOf(bs, seqLens, tables, i);
    }
    forall i | n <= i < b ensures Concat(all)[i] == scratch * bs {
      TailOf(bs, lens, tabs, i);
      ScratchSlot(bs, scratch);
    }
  }

  /** Row i of a decode batch writes the last slot of its sequence. */
  lemma TailOf(bs: nat, seqLens: seq<nat>, tables: seq<seq<BlockId>>, i: nat)
    requires BatchOk(bs, Ones(|seqLens|), seqLens, tables) && i < |seqLens|
    ensures seqLens[i] >= 1 && FloorDiv(seqLens[i] - 1, bs) < |tables[i]|
    ensures TailSlots(bs, Ones(|seqLens|), seqLens, tables)[i] == [SlotOf(bs, tables[i], seqLens[i] - 1)]
  {
    assert Ones(|seqLens|)[i] == 1;
  }

  lemma ScratchSlot(bs: nat, scratch: BlockId)
    requires bs > 0
    ensures FloorDiv(0, bs) == 0 && SlotOf(bs, [scratch], 0) == scratch * bs
  {
    OneSlot(bs, scratch);
  }

  lemma {:induction false} OnePerRow<T>(rows: seq<seq<T>>)
    requires forall k :: 0 <= k < |rows| ==> |rows[k]| == 1
    ensures |Concat(rows)| == |rows| && forall k :: 0 <= k < |rows| ==> Concat(rows)[k] == rows[k][0]
  {
    if rows != [] { OnePerRow(rows[..|rows| - 1]); }
  }

  // ------------------------------------------------------------------ buffer size

  /** A row that denotes a sequence's slots has the minimum number of pages. */
  lemma PagesMinimal(bs: nat, table: seq<BlockId>, sLen: nat, pages: seq<BlockId>, last: int)
    requires bs > 0 && sLen >= 1 && PagesOk(bs, table, sLen, pages, last)
    ensures |pages| == CeilDiv(sLen, bs)
  {
    assert |PageSlots(bs, pages, last)| == sLen;
    assert (|pages| - 1) * bs + last == sLen;
    assert |pages| * bs == (|pages| - 1) * bs + bs;
    if |pages| == 0 { MulMono(-1, -1, bs); }
    CeilDivUnique(sLen, bs, |pages|);
  }

  /** Planned indices fit the buffer of b * max_blocks_per_seq entries. */
  lemma {:induction false} PlanFits(bs: nat, lens: seq<nat>, tables: seq<seq<BlockId>>, k: nat, indptr: seq<nat>, indices: seq<BlockId>, last: seq<int>, maxLen: nat)
    requires bs > 0 && Laid(bs, lens, tables, |lens|, indptr, indices, last) && k <= |lens|
    requires forall i :: 0 <= i < |lens| ==> 1 <= lens[i] <= maxLen
    ensures indptr[k] <= k * CeilDiv(maxLen, bs)
    ensures k == |lens| ==> |indices| <= |lens| * CeilDiv(maxLen, bs)
    decreases k
  {
    hide PagesOk;
    var m := CeilDiv(maxLen, bs);
    if k > 0 {
      PlanFits(bs, lens, tables, k - 1, indptr, indices, last, maxLen);
      Below(indptr, k, |lens|);
      assert indptr[k - 1] <= indptr[k - 1 + 1];
      assert PagesOk(bs, tables[k - 1], lens[k - 1], Pages(indptr, indices, k - 1), last[k - 1]);
      PagesMinimal(bs, tables[k - 1], lens[k - 1], Pages(indptr, indices, k - 1), last[k - 1]);
      assert |Pages(indptr, indices, k - 1)| == indptr[k] - indptr[k - 1];
      CeilDivMono(lens[k - 1], maxLen, bs);
      assert k * m == (k - 1) * m + m;
    }
  }

  // ------------------------------------------------------------------ reachable decode steps

  /** In every step a reachable scheduler plans, a pure decode batch has a bucket, its lengths
      are within the model's, and no table mentions the scratch block behind the pool. */
  lemma DecodeStepFits(cfg: Config, s: Sched, out: seq<Item>, b: nat)
    requires SInv(cfg, s, out) && PureDecode(out) && 0 < |out| <= |s.running| && |out| <= b
    ensures |out| <= cfg.maxNumSeqs
    ensures DecodeOk(cfg.blockSize, ItemSeqLens(out), ItemTables(out), b)
    ensures forall k :: 0 <= k < |out| ==> 1 <= ItemSeqLens(out)[k] <= cfg.maxModelLen
    ensures forall k :: 0 <= k < |out| ==> PoolSize(s) !in ItemTables(out)[k]
  {
    hide SInv;
    SlotsTaken(cfg, s, out);
    forall k | 0 <= k < |out|
      ensures 1 <= ItemSeqLens(out)[k] <= cfg.maxModelLen
      ensures Covers(cfg.blockSize, ItemTables(out)[k], ItemSeqLens(out)[k])
      ensures PoolSize(s) !in ItemTables(out)[k]
    {
      DecodeItem(cfg, s, out, k);
      forall p: nat | p < ItemSeqLens(out)[k] ensures FloorDiv(p, cfg.blockSize) < |ItemTables(out)[k]| {
        BlockOfPosition(cfg, s, out, k, p);
      }
    }
  }

  /** Whatever the graph plans for a reachable pure decode step fits its index buffer. */
  lemma StepPlanFits(cfg: Config, s: Sched, out: seq<Item>, b: nat, indptr: seq<nat>, indices: seq<BlockId>, last: seq<int>)
    requires SInv(cfg, s, out) && PureDecode(out) && 0 < |out| <= |s.running| && |out| <= b
    requires Laid(cfg.blockSize, Padded(ItemSeqLens(out), b, 1), Padded(ItemTables(out), b, [PoolSize(s)]), b, indptr, indices, last)
    ensures |indices| <= b * CeilDiv(cfg.maxModelLen, cfg.blockSize)
  {
    hide SInv, Laid;
    DecodeStepFits(cfg, s, out, b);
    var lens := Padded(ItemSeqLens(out), b, 1);
    assert lens[0] == ItemSeqLens(out)[0];
    PlanFits(cfg.blockSize, lens, Padded(ItemTables(out), b, [PoolSize(s)]), b, indptr, indices, last, cfg.maxModelLen);
  }

  lemma SlotsTaken(cfg: Config, s: Sched, out: seq<Item>)
    requires SInv(cfg, s, out)
    ensures cfg.blockSize > 0 && (s.running != [] ==> |s.running| <= cfg.maxNumSeqs)
  {
    hide Rows, Filling, Items, Statuses, Bounded, Arrivals, Lists;
  }

  lemma DecodeItem(cfg: Config, s: Sched, out: seq<Item>, k: nat)
    requires SInv(cfg, s, out) && k < |out|
    ensures out[k].start + |out[k].chunk| <= cfg.maxModelLen
    ensures PoolSize(s) !in out[k].table
  {
    hide Filling, Arrivals, Statuses, Lists, SlotCap, RowOk, PoolOk, Counted, HashesBlocked;
    assert ItemOk(s, out[k]);
    var id := out[k].id;
    assert id in s.kv.tables && InPool(s.kv.pool, s.kv.tables[id]);
  }

  /** The graph feeds token ids only. Its input rows are the eager path's exactly when no
      scheduled token sits inside its request's prompt embeddings under a different row. */
  lemma GraphRowsAreEager(net: Net, media: Media, out: seq<Item>)
    requires PureDecode(out)
    ensures EmbedAll(net, Concat(Chunks(out))) == InputRows(net, media, out) <==>
      forall k :: 0 <= k < |out| && out[k].start < |EmbedsOf(media, out[k].id)| ==>
        EmbedsOf(media, out[k].id)[out[k].start] == net.embed(out[k].chunk[0])
  {
    hide Concat, ChunkRows;
    InputRowsCorrect(net, media, out);
    var rows, plain := EmbedRows(net, media, out), seq(|out|, k requires 0 <= k < |out| => EmbedAll(net, out[k].chunk));
    EmbedConcat(net, Chunks(out), plain);
    forall k | 0 <= k < |out| ensures |rows[k]| == 1 { ChunkRowsAt(net, media, out[k]); }
    OnePerRow(rows);
    OnePerRow(plain);
    forall k | 0 <= k < |out|
      ensures rows[k][0] == plain[k][0] <==>
        (out[k].start < |EmbedsOf(media, out[k].id)| ==> EmbedsOf(media, out[k].id)[out[k].start] == net.embed(out[k].chunk[0]))
    {
      ChunkRowsAt(net, media, out[k]);
    }
    if Concat(rows) == Concat(plain) {
      forall k | 0 <= k < |out| ensures rows[k][0] == plain[k][0] { assert Concat(rows)[k] == Concat(plain)[k]; }
    }
  }
}
