/** Replaying the decode graph: the model over a batch padded with rows in the scratch block does
    to the real rows and to every other slot what it does over the batch itself. */
module GraphReplay {
  import opened Util
  import opened Hashing
  import opened BlockPoolSpec
  import opened SchedulerSpec
  import opened Model
  import opened Flat
  import opened Attention
  import opened ForwardCorrect
  import opened LabelInv
  import opened RunnerSpec
  import opened GraphSpec
  import opened BatchReadiness
  import opened FlashInfer
  import opened CudaGraph

  /** Equal but for what one slot holds. */
  ghost predicate SameBut(c: seq<KVal>, d: seq<KVal>, x: nat) {
    |c| == |d| && forall i :: 0 <= i < |c| && i != x ==> c[i] == d[i]
  }

  ghost predicate AllSameBut(cs: seq<seq<KVal>>, ds: seq<seq<KVal>>, x: nat) {
    |cs| == |ds| && forall l :: 0 <= l < |cs| ==> SameBut(cs[l], ds[l], x)
  }

  /** The padded batch: the same rows, then rows that live in slot x alone. */
  ghost predicate PadsTo(m: SdpaMeta, mp: SdpaMeta, n: nat, b: nat, x: nat) {
    && n <= b && m.queryLens == Ones(n) && mp.queryLens == Ones(b)
    && |m.slotMapping| == n && |mp.slotMapping| == b && mp.slotMapping[..n] == m.slotMapping && x !in m.slotMapping
    && (forall i :: n <= i < b ==> mp.slotMapping[i] == x)
    && |m.seqSlots| == |m.masks| == n && |mp.seqSlots| == |mp.masks| == b
    && (forall k :: 0 <= k < n ==> mp.seqSlots[k] == m.seqSlots[k] && mp.masks[k] == m.masks[k] && x !in m.seqSlots[k])
  }

  // ------------------------------------------------------------------ one layer

  lemma {:induction false} ScatterSame(c: seq<KVal>, d: seq<KVal>, slots: seq<nat>, vals: seq<KVal>, x: nat)
    requires SameBut(c, d, x) && |slots| == |vals| && forall i :: 0 <= i < |slots| ==> slots[i] < |c|
    ensures SameBut(Scatter(c, slots, vals), Scatter(d, slots, vals), x)
    decreases |slots|
  {
    if slots != [] { ScatterSame(c, d, slots[..|slots| - 1], vals[..|slots| - 1], x); }
  }

  /** Writes to slot x alone change nothing else. */
  lemma {:induction false} ScatterPads(c: seq<KVal>, d: seq<KVal>, slots: seq<nat>, vals: seq<KVal>, n: nat, x: nat)
    requires SameBut(c, d, x) && n <= |slots| == |vals| && forall i :: 0 <= i < |slots| ==> slots[i] < |c|
    requires forall i :: n <= i < |slots| ==> slots[i] == x
    ensures SameBut(Scatter(c, slots[..n], vals[..n]), Scatter(d, slots, vals), x)
    decreases |slots|
  {
    if n == |slots| {
      assert slots[..n] == slots && vals[..n] == vals;
      ScatterSame(c, d, slots, vals, x);
    } else {
      var k := |slots| - 1;
      assert slots[..k][..n] == slots[..n] && vals[..k][..n] == vals[..n];
      ScatterPads(c, d, slots[..k], vals[..k], n, x);
    }
  }

  lemma {:induction false} StartOnes(n: nat, k: nat)
    requires k <= n
    ensures Start(Ones(n), k) == k
    decreases k
  {
    if k > 0 { StartOnes(n, k - 1); }
  }

  lemma GatherSame(c: seq<KVal>, d: seq<KVal>, slots: seq<nat>, x: nat)
    requires SameBut(c, d, x) && x !in slots && forall i :: 0 <= i < |slots| ==> slots[i] < |c|
    ensures Gather(c, slots) == Gather(d, slots)
  {
  }

  /** Real rows read real slots. */
  lemma {:induction false} RowsSame(net: Net, l: nat, hs: seq<Row>, hp: seq<Row>, ps: seq<nat>, pp: seq<nat>, c: seq<KVal>, d: seq<KVal>,
                                    m: SdpaMeta, mp: SdpaMeta, n: nat, b: nat, x: nat, k: nat)
    requires PadsTo(m, mp, n, b, x) && SameBut(c, d, x) && k <= n
    requires |hs| == |ps| == n && |hp| == |pp| == b && hp[..n] == hs && pp[..n] == ps
    requires MetaOk(m, n, |c|) && MetaOk(mp, b, |d|)
    ensures LayerRows(net, l, hp, pp, d, mp, k) == LayerRows(net, l, hs, ps, c, m, k)
    decreases k
  {
    hide MetaOk, AttendRows, MaskOk, Gather, SameBut, LayerRows, Start;
    SameLength(c, d, x);
    NoRows(net, l, hs, ps, c, m);
    NoRows(net, l, hp, pp, d, mp);
    if k > 0 {
      RowsSame(net, l, hs, hp, ps, pp, c, d, m, mp, n, b, x, k - 1);
      LayerRowsStep(net, l, hs, ps, c, m, k - 1);
      LayerRowsStep(net, l, hp, pp, d, mp, k - 1);
      StartOnes(n, k - 1);
      StartOnes(b, k - 1);
      SameRow(hs, hp, n, k - 1);
      SameRow(ps, pp, n, k - 1);
      GatherSame(c, d, m.seqSlots[k - 1], x);
    }
  }

  lemma NoRows(net: Net, l: nat, hs: seq<Row>, ps: seq<nat>, c: seq<KVal>, m: SdpaMeta)
    requires |hs| == |ps| && MetaOk(m, |hs|, |c|)
    ensures LayerRows(net, l, hs, ps, c, m, 0) == []
  {
  }

  lemma SameRow<T>(s: seq<T>, t: seq<T>, n: nat, i: nat)
    requires |s| == n <= |t| && t[..n] == s && i < n
    ensures t[i..i + 1] == s[i..i + 1]
  {
    assert t[..n][i] == t[i];
  }

  lemma SameLength(c: seq<KVal>, d: seq<KVal>, x: nat)
    requires SameBut(c, d, x)
    ensures |c| == |d|
  {
  }

  lemma {:induction false} RowsPrefix(net: Net, l: nat, hs: seq<Row>, ps: seq<nat>, c: seq<KVal>, m: SdpaMeta, k: nat, j: nat)
    requires |hs| == |ps| && MetaOk(m, |hs|, |c|) && k <= j <= |m.queryLens|
    ensures LayerRows(net, l, hs, ps, c, m, k) <= LayerRows(net, l, hs, ps, c, m, j)
    decreases j
  {
    hide MetaOk, AttendRows, Gather;
    if k < j {
      RowsPrefix(net, l, hs, ps, c, m, k, j - 1);
      LayerRowsStep(net, l, hs, ps, c, m, j - 1);
    }
  }

  /** One layer over the padded batch. */
  lemma LayerPadded(net: Net, l: nat, hs: seq<Row>, hp: seq<Row>, ps: seq<nat>, pp: seq<nat>, c: seq<KVal>, d: seq<KVal>,
                    m: SdpaMeta, mp: SdpaMeta, n: nat, b: nat, x: nat)
    requires PadsTo(m, mp, n, b, x) && SameBut(c, d, x)
    requires |hs| == |ps| == n && |hp| == |pp| == b && hp[..n] == hs && pp[..n] == ps
    requires MetaOk(m, n, |c|) && MetaOk(mp, b, |d|)
    ensures SameBut(Layer(net, l, hs, ps, c, m).0, Layer(net, l, hp, pp, d, mp).0, x)
    ensures Layer(net, l, hp, pp, d, mp).1[..n] == Layer(net, l, hs, ps, c, m).1
  {
    hide AttendRows, Gather, RequestMetaOk, Scatter;
    var vp := Projected(net, l, hp, pp);
    assert vp[..n] == Projected(net, l, hs, ps);
    ScatterPads(c, d, mp.slotMapping, vp, n, x);
    var c', d' := Scatter(c, m.slotMapping, Projected(net, l, hs, ps)), Scatter(d, mp.slotMapping, vp);
    RowsSame(net, l, hs, hp, ps, pp, c', d', m, mp, n, b, x, n);
    RowsPrefix(net, l, hp, pp, d', mp, n, b);
    StartOnes(b, n);
    StartOnes(n, n);
  }

  // ------------------------------------------------------------------ all layers

  /** The whole model over the padded batch: real rows and all slots but x as over the batch. */
  lemma {:induction false} ModelPadded(net: Net, l: nat, hs: seq<Row>, hp: seq<Row>, ps: seq<nat>, pp: seq<nat>, cs: seq<seq<KVal>>,
                                       ds: seq<seq<KVal>>, m: SdpaMeta, mp: SdpaMeta, n: nat, b: nat, x: nat, size: nat)
    requires PadsTo(m, mp, n, b, x) && AllSameBut(cs, ds, x) && CachesOk(net, cs, size) && CachesOk(net, ds, size) && l <= net.layers
    requires |hs| == |ps| == n && |hp| == |pp| == b && hp[..n] == hs && pp[..n] == ps
    requires MetaOk(m, n, size) && MetaOk(mp, b, size)
    ensures var r, rp := RunLayers(net, l, hs, ps, cs, m, size), RunLayers(net, l, hp, pp, ds, mp, size);
      AllSameBut(r.0, rp.0, x) && rp.1[..n] == r.1
    decreases net.layers - l
  {
    hide MetaOk, Layer, PadsTo, SameBut;
    if l < net.layers {
      LayerPadded(net, l, hs, hp, ps, pp, cs[l], ds[l], m, mp, n, b, x);
      var a, p := Layer(net, l, hs, ps, cs[l], m), Layer(net, l, hp, pp, ds[l], mp);
      ModelPadded(net, l + 1, a.1, p.1, ps, pp, cs[l := a.0], ds[l := p.0], m, mp, n, b, x, size);
    }
  }

  lemma SelfSame(cs: seq<seq<KVal>>, x: nat)
    ensures AllSameBut(cs, cs, x)
  {
  }

  // ------------------------------------------------------------------ the arrays of the graph

  ghost predicate Apart(bs: nat, tables: seq<seq<BlockId>>, scratch: BlockId) {
    forall k :: 0 <= k < |tables| ==> scratch !in tables[k]
  }

  lemma NotScratch(bs: nat, table: seq<BlockId>, sLen: nat, scratch: BlockId)
    requires bs > 0 && Covers(bs, table, sLen) && scratch !in table
    ensures scratch * bs !in Slots(bs, table, sLen)
  {
    var slots := Slots(bs, table, sLen);
    forall p | 0 <= p < sLen ensures slots[p] != scratch * bs {
      var b := table[FloorDiv(p, bs)];
      assert b in table;
      if slots[p] == scratch * bs { SlotInjective(bs, b, p % bs, scratch, 0); }
    }
  }

  /** The padded metadata pads the batch's. */
  lemma PaddedMeta(bs: nat, b: nat, seqLens: seq<nat>, tables: seq<seq<BlockId>>, scratch: BlockId)
    requires DecodeOk(bs, seqLens, tables, b) && Apart(bs, tables, scratch)
    ensures BatchOk(bs, Ones(|seqLens|), seqLens, tables) && BatchOk(bs, Ones(b), Padded(seqLens, b, 1), Padded(tables, b, [scratch]))
    ensures PadsTo(Metadata(bs, Ones(|seqLens|), seqLens, tables), Metadata(bs, Ones(b), Padded(seqLens, b, 1), Padded(tables, b, [scratch])),
                   |seqLens|, b, scratch * bs)
  {
    hide Slots, Mask, Concat, Covers;
    RealRowsAreEager(bs, b, seqLens, tables, scratch);
    var n := |seqLens|;
    var m, mp := Metadata(bs, Ones(n), seqLens, tables), Metadata(bs, Ones(b), Padded(seqLens, b, 1), Padded(tables, b, [scratch]));
    forall k | 0 <= k < n ensures mp.seqSlots[k] == m.seqSlots[k] && mp.masks[k] == m.masks[k] && scratch * bs !in m.seqSlots[k] {
      NotScratch(bs, tables[k], seqLens[k], scratch);
    }
    var tails := TailSlots(bs, Ones(n), seqLens, tables);
    OnePerRow(tails);
    forall k | 0 <= k < n ensures m.slotMapping[k] != scratch * bs {
      NotScratch(bs, tables[k], seqLens[k], scratch);
      assert tails[k] == Slots(bs, tables[k], seqLens[k])[seqLens[k] - 1..];
      assert tails[k][0] == Slots(bs, tables[k], seqLens[k])[seqLens[k] - 1];
      assert tails[k][0] in Slots(bs, tables[k], seqLens[k]);
    }
  }

  /** What the captured forward reads out of its index buffers: where row i writes, and which
      slots its one query sees. */
  function Denoted(bs: nat, b: nat, blockIds: seq<BlockId>, offsets: seq<nat>, indptr: seq<nat>, indices: seq<BlockId>, last: seq<int>): SdpaMeta
    requires bs > 0 && |blockIds| == |offsets| == |last| == b
  {
    var rows := seq(b, k requires 0 <= k < b => PageSlots(bs, Pages(indptr, indices, k), last[k]));
    SdpaMeta(Ones(b), seq(b, k requires 0 <= k < b => |rows[k]|), seq(b, i requires 0 <= i < b => blockIds[i] * bs + offsets[i]),
             rows, seq(b, k requires 0 <= k < b => Mask(1, |rows[k]|)))
  }

  /** The buffers denote the padded batch's metadata. */
  lemma DenotedIs(bs: nat, b: nat, lens: seq<nat>, tables: seq<seq<BlockId>>, blockIds: seq<BlockId>, offsets: seq<nat>, indptr: seq<nat>,
                  indices: seq<BlockId>, last: seq<int>)
    requires BatchOk(bs, Ones(b), lens, tables) && Laid(bs, lens, tables, b, indptr, indices, last)
    requires Targets(bs, blockIds, offsets, Metadata(bs, Ones(b), lens, tables).slotMapping)
    requires |Metadata(bs, Ones(b), lens, tables).slotMapping| == b
    ensures |blockIds| == |offsets| == |last| == b
    ensures Denoted(bs, b, blockIds, offsets, indptr, indices, last) == Metadata(bs, Ones(b), lens, tables)
  {
    hide Concat, Slots, PageSlots, Pages, Mask, Covers, TailSlots;
    var m, d := Metadata(bs, Ones(b), lens, tables), Denoted(bs, b, blockIds, offsets, indptr, indices, last);
    forall k | 0 <= k < b ensures d.seqSlots[k] == m.seqSlots[k] && d.masks[k] == m.masks[k] && d.seqLens[k] == m.seqLens[k] {
      assert PagesOk(bs, tables[k], lens[k], Pages(indptr, indices, k), last[k]);
    }
    assert d.slotMapping == m.slotMapping;
  }

  /** The padded batch's indices are inside the caches when the batch's are. */
  lemma PaddedMetaOk(bs: nat, b: nat, seqLens: seq<nat>, tables: seq<seq<BlockId>>, scratch: BlockId, size: nat)
    requires DecodeOk(bs, seqLens, tables, b) && Apart(bs, tables, scratch) && scratch * bs < size
    requires BatchOk(bs, Ones(|seqLens|), seqLens, tables) && MetaOk(Metadata(bs, Ones(|seqLens|), seqLens, tables), |seqLens|, size)
    ensures BatchOk(bs, Ones(b), Padded(seqLens, b, 1), Padded(tables, b, [scratch]))
    ensures MetaOk(Metadata(bs, Ones(b), Padded(seqLens, b, 1), Padded(tables, b, [scratch])), b, size)
  {
    hide Slots, Mask, Concat, Covers, MaskOk, TailSlots;
    PaddedMeta(bs, b, seqLens, tables, scratch);
    var n := |seqLens|;
    var m, mp := Metadata(bs, Ones(n), seqLens, tables), Metadata(bs, Ones(b), Padded(seqLens, b, 1), Padded(tables, b, [scratch]));
    StartOnes(b, b);
    forall i | 0 <= i < b ensures mp.slotMapping[i] < size {
      if i < n { assert mp.slotMapping[..n][i] == m.slotMapping[i]; }
    }
    forall k | 0 <= k < b ensures RequestMetaOk(mp, k, b, size) {
      StartOnes(b, k);
      if k < n { assert RequestMetaOk(m, k, n, size); } else { ScratchRow(bs, scratch); }
      MaskShape(1, mp.seqLens[k]);
    }
  }

  lemma ScratchRow(bs: nat, scratch: BlockId)
    requires bs > 0
    ensures Covers(bs, [scratch], 1) && Slots(bs, [scratch], 1) == [scratch * bs]
  {
    ScratchSlot(bs, scratch);
  }

  // ------------------------------------------------------------------ execute() by replay

  lemma IdRows(net: Net, bs: nat, embeds: Media, caches: seq<seq<KVal>>, items: seq<Item>, size: nat)
    requires Runnable(net, bs, embeds, caches, items, size)
    ensures |EmbedAll(net, Concat(Chunks(items)))| == |Concat(ChunkPositions(items))| == |InputRows(net, embeds, items)|
  {
    hide InputRows, MetaOk, Metadata, Concat;
    ConcatLength(Chunks(items), ChunkPositions(items));
  }

  /** The model over this batch from the token ids alone. */
  function IdModel(net: Net, bs: nat, embeds: Media, caches: seq<seq<KVal>>, items: seq<Item>, size: nat): (r: (seq<seq<KVal>>, seq<Row>))
    requires Runnable(net, bs, embeds, caches, items, size)
    ensures |r.1| == |InputRows(net, embeds, items)|
  {
    IdRows(net, bs, embeds, caches, items, size);
    RunLayers(net, 0, EmbedAll(net, Concat(Chunks(items))), Concat(ChunkPositions(items)), caches,
              Metadata(bs, ItemQueryLens(items), ItemSeqLens(items), ItemTables(items)), size)
  }

  lemma SameModel(net: Net, bs: nat, embeds: Media, caches: seq<seq<KVal>>, items: seq<Item>, size: nat)
    requires Runnable(net, bs, embeds, caches, items, size) && EmbedAll(net, Concat(Chunks(items))) == InputRows(net, embeds, items)
    ensures IdModel(net, bs, embeds, caches, items, size) == RunModel(net, bs, embeds, caches, items, size)
  {
    hide InputRows, MetaOk, Metadata, Concat;
  }

  /** The lists of a pure decode batch. */
  lemma DecodeLists(net: Net, bs: nat, embeds: Media, caches: seq<seq<KVal>>, items: seq<Item>, size: nat)
    requires Runnable(net, bs, embeds, caches, items, size) && PureDecode(items)
    ensures ItemQueryLens(items) == Ones(|items|) && |ItemSeqLens(items)| == |items|
    ensures DecodeOk(bs, ItemSeqLens(items), ItemTables(items), |items|)
    ensures |Concat(Chunks(items))| == |Concat(ChunkPositions(items))| == |items|
    ensures MetaOk(Metadata(bs, Ones(|items|), ItemSeqLens(items), ItemTables(items)), |items|, size)
  {
    hide MetaOk, Metadata, InputRows, Concat, Covers;
    assert ItemQueryLens(items) == Ones(|items|);
    OnePerRow(Chunks(items));
    OnePerRow(ChunkPositions(items));
  }

  lemma BiggerBatch(bs: nat, seqLens: seq<nat>, tables: seq<seq<BlockId>>, n: nat, b: nat)
    requires DecodeOk(bs, seqLens, tables, n) && n <= b
    ensures DecodeOk(bs, seqLens, tables, b) && bs > 0
  {
    hide Covers;
  }

  /** A batch that may run eagerly may be replayed. */
  lemma ReplayRuns(net: Net, bs: nat, g: Graphs, embeds: Media, caches: seq<seq<KVal>>, items: seq<Item>, size: nat)
    requires Runnable(net, bs, embeds, caches, items, size) && PureDecode(items)
    requires Apart(bs, ItemTables(items), g.scratch) && ScratchAt(g, bs) < size
    ensures Replayable(net, bs, g, caches, items, size)
  {
    hide MetaOk, Metadata, InputRows, Concat, BatchOk, Apart, BucketFor, DecodeOk, PureDecode;
    DecodeLists(net, bs, embeds, caches, items, size);
    BiggerBatch(bs, ItemSeqLens(items), ItemTables(items), |items|, BatchBucket(g, items));
    PaddedMetaOk(bs, BatchBucket(g, items), ItemSeqLens(items), ItemTables(items), g.scratch, size);
  }

  lemma EmbedPadded(net: Net, ids: seq<Token>, b: nat)
    requires |ids| <= b
    ensures EmbedAll(net, Padded(ids, b, 0))[..|ids|] == EmbedAll(net, ids)
  {
  }

  /** Replaying gives the real rows and every slot but the scratch one what the model over the
      batch's own token ids gives them. */
  lemma ReplayIsModel(net: Net, bs: nat, g: Graphs, embeds: Media, caches: seq<seq<KVal>>, items: seq<Item>, size: nat)
    requires Runnable(net, bs, embeds, caches, items, size) && PureDecode(items)
    requires Apart(bs, ItemTables(items), g.scratch) && Replayable(net, bs, g, caches, items, size)
    ensures var q, p := ReplayModel(net, bs, g, caches, items, size), IdModel(net, bs, embeds, caches, items, size);
      q.1 == p.1 && AllSameBut(p.0, q.0, ScratchAt(g, bs))
  {
    hide MetaOk, Metadata, InputRows, Concat, BatchOk, Apart, BucketFor, DecodeOk, PureDecode, RunLayers, PadsTo, AllSameBut, ItemQueryLens;
    DecodeLists(net, bs, embeds, caches, items, size);
    var b, n := BatchBucket(g, items), |items|;
    BiggerBatch(bs, ItemSeqLens(items), ItemTables(items), n, b);
    PaddedMeta(bs, b, ItemSeqLens(items), ItemTables(items), g.scratch);
    var ids, pos := Concat(Chunks(items)), Concat(ChunkPositions(items));
    EmbedPadded(net, ids, b);
    SelfSame(caches, ScratchAt(g, bs));
    assert Padded(pos, b, 0)[..n] == pos;
    ModelPadded(net, 0, EmbedAll(net, ids), EmbedAll(net, Padded(ids, b, 0)), pos, Padded(pos, b, 0), caches, caches,
                Metadata(bs, Ones(n), ItemSeqLens(items), ItemTables(items)), ReplayMeta(bs, g, items), n, b, ScratchAt(g, bs), size);
  }

  /** No scheduled token lies inside prompt embeddings under a row other than its own. */
  ghost predicate TokensSuffice(net: Net, media: Media, items: seq<Item>) {
    forall k :: 0 <= k < |items| && |items[k].chunk| > 0 && items[k].start < |EmbedsOf(media, items[k].id)| ==>
      EmbedsOf(media, items[k].id)[items[k].start] == net.embed(items[k].chunk[0])
  }

  /** The path a batch takes, graph or eager, gives it what the eager path gives, but for what the
      scratch slot holds, when tokens suffice for what is replayed. */
  lemma ForwardIsEager(net: Net, bs: nat, r: Runner, items: seq<Item>, size: nat)
    requires Forwardable(net, bs, r, items, size)
    requires Replays(r.graphs, items) ==> TokensSuffice(net, r.embeds, items) && Apart(bs, ItemTables(items), r.graphs.value.scratch)
    ensures var q, p := ForwardModel(net, bs, r, items, size), RunModel(net, bs, r.embeds, r.caches, items, size);
      && q.1 == p.1
      && (Replays(r.graphs, items) ==> AllSameBut(p.0, q.0, ScratchAt(r.graphs.value, bs)))
      && (!Replays(r.graphs, items) ==> q == p)
  {
    hide Runnable, Replayable, ReplayModel, RunModel, IdModel, Apart, AllSameBut, InputRows;
    if Replays(r.graphs, items) {
      GraphRowsAreEager(net, r.embeds, items);
      SameModel(net, bs, r.embeds, r.caches, items, size);
      ReplayIsModel(net, bs, r.graphs.value, r.embeds, r.caches, items, size);
    }
  }

  /** What the padding rows write is behind the pool: every labelled place is as it should be. */
  lemma CleanBehind(net: Net, cs: seq<seq<KVal>>, ds: seq<seq<KVal>>, bs: nat, labels: Labels, numBlocks: nat, scratch: BlockId)
    requires AllClean(net, cs, bs, labels) && AllSameBut(cs, ds, scratch * bs) && LabelsInside(labels, bs, numBlocks) && numBlocks <= scratch
    ensures AllClean(net, ds, bs, labels)
  {
    hide Value;
    forall l | 0 <= l < |ds| ensures Clean(net, l, ds[l], bs, labels) {
      assert Clean(net, l, cs[l], bs, labels);
      forall at | at in labels.held ensures CleanAt(net, l, ds[l], bs, labels, at) {
        assert CleanAt(net, l, cs[l], bs, labels, at);
        if at.0 * bs + at.1 == scratch * bs { SlotInjective(bs, at.0, at.1, scratch, 0); }
      }
    }
  }
}
