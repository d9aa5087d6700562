/** execute() and update_from_output() on a batch of one request, over a model of one layer. */
module OneItem {
  import opened Util
  import opened Hashing
  import opened BlockPoolSpec
  import opened BlockManagerSpec
  import opened RequestSpec
  import opened SchedulerSpec
  import opened Model
  import opened Flat
  import opened Attention
  import opened ForwardCorrect
  import opened LabelInv
  import opened RunnerSpec
  import opened ExecuteCorrect

  lemma One<T>(x: seq<T>)
    ensures Concat([x]) == x
  {
    assert Concat([x][..0]) == [];
  }

  lemma StartOne(n: nat)
    ensures Start([n], 1) == n && Start([n], 0) == 0
  {
  }

  ghost predicate Fits(bs: nat, it: Item) {
    bs > 0 && it.chunk != [] && Covers(bs, it.table, it.start + |it.chunk|)
  }

  /** The slots of all positions of the item's request so far. */
  function ItemSlots(bs: nat, it: Item): (r: seq<nat>)
    requires Fits(bs, it)
    ensures |r| == it.start + |it.chunk|
  {
    Slots(bs, it.table, it.start + |it.chunk|)
  }

  function ItemPositions(it: Item): (r: seq<nat>)
    ensures |r| == |it.chunk|
  {
    seq(|it.chunk|, j => it.start + j)
  }

  ghost predicate OneBatch(net: Net, bs: nat, embeds: Media, caches: seq<seq<KVal>>, it: Item, size: nat) {
    net.layers == 1 && it.chunk != [] && Runnable(net, bs, embeds, caches, [it], size)
  }

  lemma BatchLists(net: Net, bs: nat, embeds: Media, it: Item)
    ensures ItemQueryLens([it]) == [|it.chunk|] && ItemSeqLens([it]) == [it.start + |it.chunk|] && ItemTables([it]) == [it.table]
    ensures Concat(ChunkPositions([it])) == ItemPositions(it)
    ensures InputRows(net, embeds, [it]) == ChunkRows(net, embeds, it, it.chunk)
  {
    hide InputRows, ChunkRows;
    One(ItemPositions(it));
    assert ChunkPositions([it]) == [ItemPositions(it)];
    InputRowsCorrect(net, embeds, [it]);
    One(ChunkRows(net, embeds, it, it.chunk));
    assert EmbedRows(net, embeds, [it]) == [ChunkRows(net, embeds, it, it.chunk)];
  }

  lemma OneMeta(bs: nat, it: Item)
    requires it.chunk != [] && BatchOk(bs, [|it.chunk|], [it.start + |it.chunk|], [it.table])
    ensures Fits(bs, it)
    ensures var n := it.start + |it.chunk|; var m := Metadata(bs, [|it.chunk|], [n], [it.table]);
      && m.queryLens == [|it.chunk|] && m.slotMapping == ItemSlots(bs, it)[it.start..]
      && m.seqSlots == [ItemSlots(bs, it)] && m.masks == [Mask(|it.chunk|, n)]
  {
    hide Mask, SlotOf;
    var n := it.start + |it.chunk|;
    var lens, ns, tables := [|it.chunk|], [n], [it.table];
    assert lens[0] <= ns[0] && Covers(bs, tables[0], ns[0]);
    var tails := TailSlots(bs, lens, ns, tables);
    assert tails == [ItemSlots(bs, it)[it.start..]];
    One(ItemSlots(bs, it)[it.start..]);
    var m := Metadata(bs, lens, ns, tables);
    assert m.seqSlots == [ItemSlots(bs, it)];
    assert m.masks == [Mask(|it.chunk|, n)];
  }

  /** The cache once the chunk's own entries are in. */
  function Stored(net: Net, bs: nat, embeds: Media, cache: seq<KVal>, it: Item): (c: seq<KVal>)
    requires Fits(bs, it) && forall i :: 0 <= i < |ItemSlots(bs, it)| ==> ItemSlots(bs, it)[i] < |cache|
    ensures |c| == |cache|
  {
    Scatter(cache, ItemSlots(bs, it)[it.start..], Projected(net, 0, ChunkRows(net, embeds, it, it.chunk), ItemPositions(it)))
  }

  lemma BatchFits(net: Net, bs: nat, embeds: Media, caches: seq<seq<KVal>>, it: Item, size: nat)
    requires OneBatch(net, bs, embeds, caches, it, size)
    ensures Fits(bs, it) && |caches| == 1 && |caches[0]| == size
    ensures forall i :: 0 <= i < |ItemSlots(bs, it)| ==> ItemSlots(bs, it)[i] < size
    ensures MetaOk(Metadata(bs, [|it.chunk|], [it.start + |it.chunk|], [it.table]), |it.chunk|, size)
  {
    hide ItemSlots;
    BatchLists(net, bs, embeds, it);
    OneMeta(bs, it);
    var m := Metadata(bs, [|it.chunk|], [it.start + |it.chunk|], [it.table]);
    assert RequestMetaOk(m, 0, |it.chunk|, size);
  }

  /** The whole forward pass: store, then attend once. */
  lemma OneModel(net: Net, bs: nat, embeds: Media, caches: seq<seq<KVal>>, it: Item, size: nat)
    requires OneBatch(net, bs, embeds, caches, it, size)
    ensures Fits(bs, it) && |caches| == 1 && |caches[0]| == size
    ensures forall i :: 0 <= i < |ItemSlots(bs, it)| ==> ItemSlots(bs, it)[i] < size
    ensures MaskOk(Mask(|it.chunk|, it.start + |it.chunk|), |it.chunk|, it.start + |it.chunk|)
    ensures var c := Stored(net, bs, embeds, caches[0], it);
      RunModel(net, bs, embeds, caches, [it], size)
      == ([c], AttendRows(net, 0, ChunkRows(net, embeds, it, it.chunk), ItemPositions(it), Gather(c, ItemSlots(bs, it)),
                          Mask(|it.chunk|, it.start + |it.chunk|)))
  {
    hide ItemSlots, ChunkRows, InputRows, MetaOk, Metadata, Layer, Mask, Concat;
    BatchFits(net, bs, embeds, caches, it, size);
    BatchLists(net, bs, embeds, it);
    MaskShape(|it.chunk|, it.start + |it.chunk|);
    var rows, pos := ChunkRows(net, embeds, it, it.chunk), ItemPositions(it);
    var m := Metadata(bs, [|it.chunk|], [it.start + |it.chunk|], [it.table]);
    OneLayer(net, rows, pos, caches[0], m, size);
    assert caches == [caches[0]];
    OneRows(net, bs, embeds, caches[0], it, rows, pos, m);
  }

  lemma OneRows(net: Net, bs: nat, embeds: Media, cache: seq<KVal>, it: Item, rows: seq<Row>, pos: seq<nat>, m: SdpaMeta)
    requires it.chunk != [] && BatchOk(bs, [|it.chunk|], [it.start + |it.chunk|], [it.table])
    requires m == Metadata(bs, [|it.chunk|], [it.start + |it.chunk|], [it.table])
    requires rows == ChunkRows(net, embeds, it, it.chunk) && pos == ItemPositions(it)
    requires MetaOk(m, |rows|, |cache|)
    ensures Fits(bs, it) && MaskOk(Mask(|it.chunk|, it.start + |it.chunk|), |it.chunk|, it.start + |it.chunk|)
    ensures forall i :: 0 <= i < |ItemSlots(bs, it)| ==> ItemSlots(bs, it)[i] < |cache|
    ensures var c := Stored(net, bs, embeds, cache, it);
      Layer(net, 0, rows, pos, cache, m)
      == (c, AttendRows(net, 0, rows, pos, Gather(c, ItemSlots(bs, it)), Mask(|it.chunk|, it.start + |it.chunk|)))
  {
    hide ItemSlots, ChunkRows, Metadata, Mask, AttendRows, Gather, Scatter, Projected, BatchOk;
    OneMeta(bs, it);
    MaskShape(|it.chunk|, it.start + |it.chunk|);
    StartOne(|it.chunk|);
    assert RequestMetaOk(m, 0, |rows|, |cache|);
    var c := Stored(net, bs, embeds, cache, it);
    LayerRowsStep(net, 0, rows, pos, c, m, 0);
    assert rows[0..|it.chunk|] == rows && pos[0..|it.chunk|] == pos;
    assert LayerRows(net, 0, rows, pos, c, m, 0) == [];
    assert m.seqSlots[0] == ItemSlots(bs, it) && m.masks[0] == Mask(|it.chunk|, it.start + |it.chunk|) && m.queryLens[0] == |it.chunk|;
    var mine := AttendRows(net, 0, rows, pos, Gather(c, ItemSlots(bs, it)), Mask(|it.chunk|, it.start + |it.chunk|));
    assert LayerRows(net, 0, rows, pos, c, m, 1) == mine;
    assert |m.queryLens| == 1;
    assert Scatter(cache, m.slotMapping, Projected(net, 0, rows, pos)) == c;
    assert Layer(net, 0, rows, pos, cache, m) == (c, LayerRows(net, 0, rows, pos, c, m, 1));
  }

  lemma OneLayer(net: Net, rows: seq<Row>, pos: seq<nat>, cache: seq<KVal>, m: SdpaMeta, size: nat)
    requires net.layers == 1 && |cache| == size && |rows| == |pos| && MetaOk(m, |rows|, size)
    ensures CachesOk(net, [cache], size)
    ensures RunLayers(net, 0, rows, pos, [cache], m, size) == ([Layer(net, 0, rows, pos, cache, m).0], Layer(net, 0, rows, pos, cache, m).1)
  {
    hide Layer, MetaOk;
    var r := Layer(net, 0, rows, pos, cache, m);
    assert [cache][0 := r.0] == [r.0];
    assert RunLayers(net, 1, r.1, pos, [r.0], m, size) == ([r.0], r.1);
  }

  /** The row sampled from: the last one, which attends to every position so far. */
  lemma LastRow(net: Net, bs: nat, embeds: Media, caches: seq<seq<KVal>>, it: Item, size: nat)
    requires OneBatch(net, bs, embeds, caches, it, size)
    ensures Fits(bs, it) && |caches| == 1 && |caches[0]| == size
    ensures forall i :: 0 <= i < |ItemSlots(bs, it)| ==> ItemSlots(bs, it)[i] < size
    ensures |RunModel(net, bs, embeds, caches, [it], size).1| == |it.chunk|
    ensures RunModel(net, bs, embeds, caches, [it], size).1[|it.chunk| - 1]
         == net.attend(0, ChunkRows(net, embeds, it, it.chunk)[|it.chunk| - 1], it.start + |it.chunk| - 1,
                       Gather(Stored(net, bs, embeds, caches[0], it), ItemSlots(bs, it)))
  {
    hide RunModel, Runnable, Stored, ItemSlots, ChunkRows, Gather, Mask, Visible;
    OneModel(net, bs, embeds, caches, it, size);
    var vals := Gather(Stored(net, bs, embeds, caches[0], it), ItemSlots(bs, it));
    VisibleIsPrefix(vals, |it.chunk|, |it.chunk| - 1);
    assert vals[..|vals|] == vals;
  }

  /** Slots of other positions keep what they hold. */
  lemma OtherSlots(net: Net, bs: nat, embeds: Media, caches: seq<seq<KVal>>, it: Item, size: nat, x: nat)
    requires OneBatch(net, bs, embeds, caches, it, size) && x < size
    requires Fits(bs, it) && x !in ItemSlots(bs, it)[it.start..]
    ensures |caches| == 1 && |caches[0]| == size && |RunModel(net, bs, embeds, caches, [it], size).0| == 1
    ensures |RunModel(net, bs, embeds, caches, [it], size).0[0]| == size
    ensures RunModel(net, bs, embeds, caches, [it], size).0[0][x] == caches[0][x]
    ensures forall i :: 0 <= i < |ItemSlots(bs, it)| ==> ItemSlots(bs, it)[i] < size
    ensures Stored(net, bs, embeds, caches[0], it)[x] == caches[0][x]
  {
    hide RunModel, Runnable, ItemSlots, ChunkRows, Gather, Mask, AttendRows, Projected;
    OneModel(net, bs, embeds, caches, it, size);
    ScatterElse(caches[0], ItemSlots(bs, it)[it.start..], Projected(net, 0, ChunkRows(net, embeds, it, it.chunk), ItemPositions(it)), x);
  }

  /** A position of another block, or an earlier one, is not written. */
  lemma NotWritten(bs: nat, it: Item, b: BlockId, o: nat, p: nat)
    requires Fits(bs, it) && Distinct(it.table) && o < bs
    requires b !in it.table || (p < it.start && it.table[FloorDiv(p, bs)] == b && p % bs == o)
    ensures b * bs + o !in ItemSlots(bs, it)[it.start..]
  {
    var slots := ItemSlots(bs, it);
    if b * bs + o in slots[it.start..] {
      var j :| 0 <= j < |it.chunk| && slots[it.start..][j] == b * bs + o;
      var q := it.start + j;
      assert slots[q] == SlotOf(bs, it.table, q);
      DivModParts(q, bs);
      SlotInjective(bs, it.table[FloorDiv(q, bs)], q % bs, b, o);
      assert it.table[FloorDiv(q, bs)] in it.table;
      DivModParts(p, bs);
      assert false;
    }
  }

  // ------------------------------------------------------------------ sampling and updating

  /** The token sampled for the item: from the last row and the request's whole history. */
  lemma OneSampled(net: Net, bs: nat, s: Sched, r: Runner, out: Output, it: Item, size: nat)
    requires net.layers == 1 && out.scheduled == [it] && it.doSample && it.chunk != [] && Executable(net, bs, r, out, size)
    requires r.graphs == None
    requires InSync(net, s, out, r, Execute(net, bs, r, out, size).0, Execute(net, bs, r, out, size).1, size)
    ensures OneBatch(net, bs, Forget(r, out).embeds, r.caches, it, size) && it.id in s.reqs
    ensures var m := RunModel(net, bs, Forget(r, out).embeds, r.caches, [it], size); var q := Execute(net, bs, r, out, size);
      && q.0.caches == m.0 && |m.1| == |it.chunk|
      && q.1 == map[it.id := net.sample(m.1[|it.chunk| - 1], Mirror(s.reqs[it.id], it.start + |it.chunk|))]
  {
    hide RunModel, Runnable, Mirror, FeedAll, Forget, InputRows;
    var embeds := Forget(r, out).embeds;
    var states := FeedAll(Forget(r, out).states, [it]).value;
    assert Forget(r, out).graphs == None && Forget(r, out).caches == r.caches by { ForgetKeeps(r, out); }
    ForwardShape(net, bs, Forget(r, out), [it], size);
    BatchLists(net, bs, embeds, it);
    var q := Execute(net, bs, r, out, size);
    assert FedAt(s, q.0.states, it) by { assert out.scheduled[0] == it; }
    var hidden := RunModel(net, bs, embeds, r.caches, [it], size).1;
    SampleOne(net, hidden, it, states);
  }

  lemma SampleOne(net: Net, hidden: seq<Row>, it: Item, states: map<Id, SamplerState>)
    requires it.doSample && it.id in states && 0 < |it.chunk| <= |hidden|
    ensures SampleOk(hidden, [it], states)
    ensures SampleRows(net, hidden, [it], states, 1) == map[it.id := net.sample(hidden[|it.chunk| - 1], states[it.id])]
  {
    assert ItemQueryLens([it]) == [|it.chunk|];
    StartOne(|it.chunk|);
    assert RowEndOk(hidden, [it], states, 0);
    assert SampleRows(net, hidden, [it], states, 0) == map[];
  }

  /** The request with the token it sampled. */
  function WithToken(r: Req, n: nat, t: Token): Req {
    r.(computed := r.computed + n, output := r.output + [t])
  }

  lemma UpdateOf(cfg: Config, s: Sched, it: Item, sampled: map<Id, Token>)
    requires Settled(s) && it.id !in s.waiting && (it.doSample ==> it.id in sampled)
    ensures Update(cfg, s, [it], sampled) == UpdateOne(cfg, s, it, sampled)
  {
    hide UpdateOne, KvShaped;
    assert [it][1..] == [] && [it][0] == it;
    var u := UpdateOne(cfg, s, it, sampled);
    assert Update(cfg, u.0, [], sampled) == (u.0, []);
    assert u.1 + [] == u.1;
  }

  lemma FinishLonger(s: Sched, id: Id, r: Req)
    requires Settled(s) && id !in s.waiting && id in s.reqs
    ensures Settled(s.(reqs := s.reqs[id := r])) && FinishRunning(s.(reqs := s.reqs[id := r]), id) == FinishRunning(s, id)
  {
    hide KvShaped, FreeRequest;
    assert s.reqs[id := r] - {id} == s.reqs - {id};
  }

  /** One item: the request grows by its token and leaves if that stops it. */
  lemma OneUpdate(cfg: Config, s: Sched, it: Item, t: Token)
    requires Settled(s) && it.id !in s.waiting && it.doSample && it.id in s.reqs && !s.reqs[it.id].status.Finished()
    ensures var r2 := WithToken(s.reqs[it.id], |it.chunk|, t); var u := Update(cfg, s, [it], map[it.id := t]);
      match CheckStop(r2, cfg.maxModelLen)
      case None => u == (s.(reqs := s.reqs[it.id := r2]), [(it.id, r2)])
      case Some(st) => u == (FinishRunning(s.(reqs := s.reqs[it.id := r2]), it.id), [(it.id, r2.(status := st))])
  {
    hide KvShaped, FinishRunning, CheckStop, Update;
    UpdateOf(cfg, s, it, map[it.id := t]);
    FinishLonger(s, it.id, WithToken(s.reqs[it.id], |it.chunk|, t));
  }
}
