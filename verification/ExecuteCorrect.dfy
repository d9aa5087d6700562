/** execute() on a scheduled batch: histories stay in sync, the caches realise the new labels,
    and every sampled token is the one the request would sample alone. */
module ExecuteCorrect {
  import opened Util
  import opened Hashing
  import opened BlockPoolSpec
  import opened BlockManagerSpec
  import opened RequestSpec
  import opened SchedulerSpec
  import opened SchedulerInv
  import opened Model
  import opened Flat
  import opened Attention
  import opened ForwardCorrect
  import opened LabelInv
  import opened WriteLabels
  import opened BatchReadiness
  import opened GraphSpec
  import opened RunnerSpec
  import opened GraphReplay

  // ------------------------------------------------------------------ the mirrored history

  /** The state the sampler should hold for a request of which n tokens went through the model. */
  function Mirror(r: Req, n: nat): SamplerState {
    SamplerState(r.params, |r.prompt|, Slice(r.Tokens(), 0, n))
  }

  /** Before the step, each item finds the history up to its start. */
  ghost predicate MirrorReady(s: Sched, states: map<Id, SamplerState>, out: seq<Item>) {
    forall k :: 0 <= k < |out| ==> MirrorReadyAt(s, states, out[k])
  }

  ghost predicate MirrorReadyAt(s: Sched, states: map<Id, SamplerState>, it: Item) {
    it.id in s.reqs && (!it.isNew ==> it.id in states && states[it.id] == Mirror(s.reqs[it.id], it.start))
  }

  lemma BeforeIs(s: Sched, states: map<Id, SamplerState>, it: Item)
    requires ItemOk(s, it) && MirrorReadyAt(s, states, it)
    ensures StateBefore(states, it) == Some(Mirror(s.reqs[it.id], it.start))
    ensures Feed(states, it) == Some(states[it.id := Mirror(s.reqs[it.id], it.start + |it.chunk|)])
  {
    var t := s.reqs[it.id].Tokens();
    assert t[..it.start] + it.chunk == t[..it.start + |it.chunk|];
  }

  /** Each item's history ends at its chunk's end; everyone else's is untouched. */
  ghost predicate FedAll(s: Sched, states: map<Id, SamplerState>, m: map<Id, SamplerState>, out: seq<Item>) {
    && (forall k :: 0 <= k < |out| ==> FedAt(s, m, out[k]))
    && (forall id :: Fresh(out, id) ==> (id in m <==> id in states) && (id in states ==> m[id] == states[id]))
  }

  lemma FeedNext(s: Sched, states: map<Id, SamplerState>, m: map<Id, SamplerState>, out: seq<Item>)
    requires out != [] && Items(s, out) && MirrorReady(s, states, out) && FedAll(s, states, m, out[..|out| - 1])
    ensures Feed(m, out[|out| - 1]).Some? && FedAll(s, states, Feed(m, out[|out| - 1]).value, out)
  {
    hide ItemOk, Feed;
    var n := |out| - 1;
    var init, it := out[..n], out[n];
    assert MirrorReadyAt(s, states, it) && ItemOk(s, it);
    assert Fresh(init, it.id);
    BeforeIs(s, m, it);
    KnownItem(s, it);
    FedRest(s, states, m, out, Mirror(s.reqs[it.id], it.start + |it.chunk|));
  }

  /** Setting the last item's history leaves the others'. */
  lemma FedRest(s: Sched, states: map<Id, SamplerState>, m: map<Id, SamplerState>, out: seq<Item>, last: SamplerState)
    requires out != [] && FedAll(s, states, m, out[..|out| - 1]) && Fresh(out[..|out| - 1], out[|out| - 1].id)
    requires var it := out[|out| - 1]; it.id in s.reqs && last == Mirror(s.reqs[it.id], it.start + |it.chunk|)
    ensures FedAll(s, states, m[out[|out| - 1].id := last], out)
  {
    hide Mirror;
    var n := |out| - 1;
    var init, m' := out[..n], m[out[n].id := last];
    forall k | 0 <= k < |out| ensures FedAt(s, m', out[k]) {
      if k < n { assert init[k] == out[k]; assert FedAt(s, m, init[k]); }
    }
    forall id | Fresh(out, id) ensures (id in m' <==> id in states) && (id in states ==> m'[id] == states[id]) {
      assert out[n].id != id;
      assert forall k :: 0 <= k < n ==> init[k] == out[k];
      assert Fresh(init, id);
    }
  }

  /** "Runner out of sync" never fires, and afterwards each scheduled request's history is its
      tokens up to the end of its chunk. */
  lemma {:induction false} FeedAllCorrect(s: Sched, states: map<Id, SamplerState>, out: seq<Item>)
    requires Items(s, out) && MirrorReady(s, states, out)
    ensures FeedAll(states, out).Some?
    ensures FedAll(s, states, FeedAll(states, out).value, out)
  {
    hide ItemOk, MirrorReadyAt, Feed, FedAt;
    if out == [] {
      NobodyFed(s, states);
    } else {
      var init := out[..|out| - 1];
      assert forall k :: 0 <= k < |init| ==> init[k] == out[k];
      FeedAllCorrect(s, states, init);
      FeedNext(s, states, FeedAll(states, init).value, out);
    }
  }

  lemma NobodyFed(s: Sched, states: map<Id, SamplerState>)
    ensures FedAll(s, states, states, [])
  {
  }

  lemma KnownItem(s: Sched, it: Item)
    requires ItemOk(s, it)
    ensures it.id in s.reqs
  {
  }

  ghost predicate FedAt(s: Sched, states: map<Id, SamplerState>, it: Item) {
    it.id in s.reqs && it.id in states && states[it.id] == Mirror(s.reqs[it.id], it.start + |it.chunk|)
  }

  // ------------------------------------------------------------------ the batch

  lemma BatchRowsAt(net: Net, media: Media, cfg: Config, s: Sched, out: seq<Item>, k: nat)
    requires SInv(cfg, s, out) && ItemsKnown(s, out) && k < |out|
    ensures var q := BatchOf(net, media, s, out)[k];
      && q.start == out[k].start && |q.xs| == out[k].start + |out[k].chunk| && q.table == out[k].table
      && EmbedRows(net, media, out)[k] == q.xs[q.start..]
  {
    hide SInv;
    ItemFacts(cfg, s, out, k);
    ChunkRowsAt(net, media, out[k]);
  }

  /** The batch's queries and the items describe the same chunks. */
  ghost predicate SameBatch(out: seq<Item>, qs: seq<Query>) {
    && |qs| == |out|
    && forall k :: 0 <= k < |out| ==>
         qs[k].start == out[k].start && |qs[k].xs| == out[k].start + |out[k].chunk| && qs[k].table == out[k].table
  }

  lemma SameLists(bs: nat, out: seq<Item>, qs: seq<Query>)
    requires QueriesOk(bs, qs) && SameBatch(out, qs)
    ensures ItemQueryLens(out) == QueryLens(bs, qs) && ItemSeqLens(out) == SeqLens(qs) && ItemTables(out) == Tables(qs)
  {
    hide Covers;
    forall k | 0 <= k < |qs| ensures QueryLens(bs, qs)[k] == |out[k].chunk| { assert QueryOk(bs, qs[k]); }
  }

  lemma SamePositions(bs: nat, out: seq<Item>, qs: seq<Query>)
    requires QueriesOk(bs, qs) && SameBatch(out, qs)
    ensures ChunkPositions(out) == Positions(bs, qs)
  {
    hide Covers;
    forall k | 0 <= k < |qs| ensures ChunkPositions(out)[k] == Positions(bs, qs)[k] { assert QueryOk(bs, qs[k]); }
  }

  lemma SameInputs(net: Net, media: Media, bs: nat, out: seq<Item>, qs: seq<Query>)
    requires QueriesOk(bs, qs) && |qs| == |out|
    requires forall k :: 0 <= k < |out| ==> qs[k].start <= |qs[k].xs| && EmbedRows(net, media, out)[k] == qs[k].xs[qs[k].start..]
    ensures InputRows(net, media, out) == FlatInputs(bs, qs)
  {
    hide Covers, EmbedRows, InputRows, Concat;
    InputRowsCorrect(net, media, out);
    assert EmbedRows(net, media, out) == seq(|qs|, k requires 0 <= k < |qs| => assert QueryOk(bs, qs[k]); qs[k].xs[qs[k].start..]);
  }

  /** The lists execute() builds are the batch's own. */
  lemma BatchLists(net: Net, media: Media, cfg: Config, s: Sched, out: seq<Item>)
    requires SInv(cfg, s, out)
    ensures ItemsKnown(s, out) && QueriesOk(cfg.blockSize, BatchOf(net, media, s, out))
    ensures var qs := BatchOf(net, media, s, out);
      && ItemQueryLens(out) == QueryLens(cfg.blockSize, qs)
      && ItemSeqLens(out) == SeqLens(qs)
      && ItemTables(out) == Tables(qs)
      && ChunkPositions(out) == Positions(cfg.blockSize, qs)
      && InputRows(net, media, out) == FlatInputs(cfg.blockSize, qs)
  {
    hide SInv, BatchOf, QueriesOk, EmbedRows, InputRows, FlatInputs, ItemQueryLens, ItemSeqLens, ItemTables, ChunkPositions,
         Positions, QueryLens, SeqLens, Tables;
    BatchQueries(net, media, cfg, s, out);
    var bs, qs := cfg.blockSize, BatchOf(net, media, s, out);
    forall k | 0 <= k < |out|
      ensures qs[k].start == out[k].start && |qs[k].xs| == out[k].start + |out[k].chunk| && qs[k].table == out[k].table
      ensures EmbedRows(net, media, out)[k] == qs[k].xs[qs[k].start..]
    {
      BatchRowsAt(net, media, cfg, s, out, k);
    }
    SameLists(bs, out, qs);
    SamePositions(bs, out, qs);
    SameInputs(net, media, bs, out, qs);
  }

  /** Every index of the step's torch calls is in range. */
  lemma StepRunnable(net: Net, media: Media, cfg: Config, s: Sched, out: seq<Item>, caches: seq<seq<KVal>>, size: nat)
    requires SInv(cfg, s, out) && CacheSize(s, cfg.blockSize, size) && CachesOk(net, caches, size)
    ensures Runnable(net, cfg.blockSize, media, caches, out, size)
    ensures ItemsKnown(s, out) && BatchReady(cfg.blockSize, BatchOf(net, media, s, out), size)
    ensures Metadata(cfg.blockSize, ItemQueryLens(out), ItemSeqLens(out), ItemTables(out)) == Meta(cfg.blockSize, BatchOf(net, media, s, out))
  {
    hide SInv, BatchOf, FlatInputs, InputRows, MetaOk, Metadata, SlotsOk, SlotInside, Positions, QueryOk;
    var bs := cfg.blockSize;
    BatchLists(net, media, cfg, s, out);
    StepBatchReady(net, media, cfg, s, out, size);
    var qs := BatchOf(net, media, s, out);
    QueriesBatchOk(bs, qs);
    InputsAreOwnRows(net, bs, qs);
    InputShape(net, 0, bs, qs, FlatInputs(bs, qs), Concat(Positions(bs, qs)));
    BatchMetaOk(net, 0, bs, qs, FlatInputs(bs, qs), Concat(Positions(bs, qs)), size);
  }

  /** One step of the model: caches clean for the new labels, rows each request's own. */
  lemma StepForward(net: Net, media: Media, cfg: Config, s: Sched, out: seq<Item>, caches: seq<seq<KVal>>, size: nat, labels: Labels)
    requires SInv(cfg, s, out) && CacheSize(s, cfg.blockSize, size) && CachesOk(net, caches, size)
    requires LInv(net, media, cfg, s, out, labels) && LabelsInside(labels, cfg.blockSize, |s.kv.pool.refs|)
    requires AllClean(net, caches, cfg.blockSize, labels)
    ensures Runnable(net, cfg.blockSize, media, caches, out, size)
    ensures ItemsKnown(s, out) && QueriesOk(cfg.blockSize, BatchOf(net, media, s, out))
    ensures var qs := BatchOf(net, media, s, out); var r := RunModel(net, cfg.blockSize, media, caches, out, size);
      && AllClean(net, r.0, cfg.blockSize, WriteAll(labels, cfg.blockSize, qs))
      && r.1 == Concat(AllOwnRows(net, net.layers, cfg.blockSize, qs))
  {
    hide SInv, BatchOf, FlatInputs, InputRows, MetaOk, Metadata, Meta, SlotsOk, SlotInside, QueryOk, LInv, LabelsInside,
         AllClean, Relabelled, RunLayers, AllOwnRows, WriteAll, Concat, Positions;
    StepRunnable(net, media, cfg, s, out, caches, size);
    BatchLists(net, media, cfg, s, out);
    StepRelabelled(net, media, cfg, s, out, labels);
    var bs, qs := cfg.blockSize, BatchOf(net, media, s, out);
    FlatForwardCorrect(net, bs, qs, caches, size, labels, WriteAll(labels, bs, qs));
  }

  // ------------------------------------------------------------------ sampling

  lemma {:induction false} SampleRowsAt(net: Net, hidden: seq<Row>, items: seq<Item>, states: map<Id, SamplerState>, k: nat)
    requires k <= |items| && SampleOk(hidden, items, states)
    requires forall i, j :: 0 <= i < j < |items| ==> items[i].id != items[j].id
    ensures forall j :: 0 <= j < k && items[j].doSample ==> SampledAt(net, hidden, items, states, j, SampleRows(net, hidden, items, states, k))
    decreases k
  {
    if k > 0 {
      SampleRowsAt(net, hidden, items, states, k - 1);
      var m, m' := SampleRows(net, hidden, items, states, k - 1), SampleRows(net, hidden, items, states, k);
      assert RowEndOk(hidden, items, states, k - 1);
      forall j | 0 <= j < k && items[j].doSample ensures SampledAt(net, hidden, items, states, j, m') {
        assert RowEndOk(hidden, items, states, j);
        if j < k - 1 {
          assert SampledAt(net, hidden, items, states, j, m);
          assert items[j].id != items[k - 1].id;
        }
      }
    }
  }

  ghost predicate SampledAt(net: Net, hidden: seq<Row>, items: seq<Item>, states: map<Id, SamplerState>, j: nat, m: map<Id, Token>) {
    && RowEndOk(hidden, items, states, j)
    && items[j].id in m
    && m[items[j].id] == net.sample(hidden[Start(ItemQueryLens(items), j + 1) - 1], states[items[j].id])
  }

  /** Item k's row is the hidden row of its request's whole known prefix. */
  lemma RowOfItem(net: Net, media: Media, cfg: Config, s: Sched, out: seq<Item>, hidden: seq<Row>, k: nat)
    requires SInv(cfg, s, out) && ItemsKnown(s, out) && QueriesOk(cfg.blockSize, BatchOf(net, media, s, out)) && k < |out|
    requires hidden == Concat(AllOwnRows(net, net.layers, cfg.blockSize, BatchOf(net, media, s, out)))
    ensures 0 < Start(ItemQueryLens(out), k + 1) <= |hidden|
    ensures s.reqs[out[k].id].Tokens() != []
    ensures out[k].doSample ==>
      hidden[Start(ItemQueryLens(out), k + 1) - 1] == Hidden(net, net.layers, RowsFor(net, media, out[k].id, s.reqs[out[k].id].Tokens()))
  {
    hide SInv, Concat, AllOwnRows, Hidden, QueriesOk, ItemQueryLens, QueryLens, Start, Inputs;
    BatchLists(net, media, cfg, s, out);
    SampledRow(net, cfg.blockSize, BatchOf(net, media, s, out), k);
    ItemFacts(cfg, s, out, k);
    var xs := RowsFor(net, media, out[k].id, s.reqs[out[k].id].Tokens());
    assert Slice(xs, 0, |xs|) == xs;
  }

  lemma SampledTokens(net: Net, media: Media, cfg: Config, s: Sched, out: seq<Item>, hidden: seq<Row>, states: map<Id, SamplerState>)
    requires SInv(cfg, s, out) && ItemsKnown(s, out) && QueriesOk(cfg.blockSize, BatchOf(net, media, s, out))
    requires hidden == Concat(AllOwnRows(net, net.layers, cfg.blockSize, BatchOf(net, media, s, out)))
    requires forall k :: 0 <= k < |out| ==> FedAt(s, states, out[k])
    ensures SampleOk(hidden, out, states)
    ensures forall k :: 0 <= k < |out| && out[k].doSample ==>
      SoloSampled(net, media, s, out[k].id, SampleRows(net, hidden, out, states, |out|))
  {
    hide SInv, Concat, AllOwnRows, QueriesOk, ItemQueryLens, Start, BatchOf, NextToken;
    forall k | 0 <= k < |out| ensures RowEndOk(hidden, out, states, k) {
      RowOfItem(net, media, cfg, s, out, hidden, k);
      assert FedAt(s, states, out[k]);
    }
    DistinctItems(cfg, s, out);
    SampleRowsAt(net, hidden, out, states, |out|);
    var m := SampleRows(net, hidden, out, states, |out|);
    forall k | 0 <= k < |out| && out[k].doSample ensures SoloSampled(net, media, s, out[k].id, m) {
      RowOfItem(net, media, cfg, s, out, hidden, k);
      assert FedAt(s, states, out[k]);
      assert SampledAt(net, hidden, out, states, k, m);
      ItemFacts(cfg, s, out, k);
      NextTokenIs(net, EmbedsOf(media, out[k].id), s.reqs[out[k].id]);
    }
  }

  lemma DistinctItems(cfg: Config, s: Sched, out: seq<Item>)
    requires SInv(cfg, s, out)
    ensures forall i, j :: 0 <= i < j < |out| ==> out[i].id != out[j].id
  {
  }

  lemma NextTokenIs(net: Net, embeds: seq<Row>, r: Req)
    requires r.Tokens() != []
    ensures NextToken(net, embeds, r.prompt, r.params, r.Tokens())
         == net.sample(Hidden(net, net.layers, Inputs(net, embeds, r.Tokens())), Mirror(r, |r.Tokens()|))
  {
    assert Slice(r.Tokens(), 0, |r.Tokens()|) == r.Tokens();
  }

  /** The token sampled for id is the one it would sample running alone. */
  ghost predicate SoloSampled(net: Net, media: Media, s: Sched, id: Id, sampled: map<Id, Token>) {
    && id in s.reqs && id in sampled && s.reqs[id].Tokens() != []
    && sampled[id] == NextToken(net, EmbedsOf(media, id), s.reqs[id].prompt, s.reqs[id].params, s.reqs[id].Tokens())
  }

  // ------------------------------------------------------------------ execute

  /** Prompt embeddings of live requests survive Forget. */
  ghost predicate LiveMedia(s: Sched, media: Media, media': Media) {
    forall id :: id in s.reqs ==> EmbedsOf(media', id) == EmbedsOf(media, id)
  }

  /** What execute() keeps in step with the scheduler, whatever the numbers in the caches are. */
  ghost predicate InSync(net: Net, s: Sched, out: Output, r: Runner, r': Runner, sampled: map<Id, Token>, size: nat) {
    && CachesOk(net, r'.caches, size)
    && r'.embeds == Forget(r, out).embeds && r'.graphs == r.graphs
    && (forall k :: 0 <= k < |out.scheduled| ==> FedAt(s, r'.states, out.scheduled[k]))
    && (forall id :: Fresh(out.scheduled, id) ==>
          (id in r'.states <==> id in Forget(r, out).states) && (id in r'.states ==> r'.states[id] == Forget(r, out).states[id]))
    && (forall k :: 0 <= k < |out.scheduled| && out.scheduled[k].doSample ==> out.scheduled[k].id in sampled)
  }

  /** Everything execute() establishes for a scheduled batch. */
  ghost predicate Executed(net: Net, cfg: Config, s: Sched, out: Output, r: Runner, r': Runner, sampled: map<Id, Token>,
                           size: nat, labels': Labels) {
    && InSync(net, s, out, r, r', sampled, size)
    && AllClean(net, r'.caches, cfg.blockSize, labels')
    && (forall k :: 0 <= k < |out.scheduled| && out.scheduled[k].doSample ==>
          SoloSampled(net, r'.embeds, s, out.scheduled[k].id, sampled))
  }

  lemma RowEnds(net: Net, bs: nat, media: Media, cfg: Config, s: Sched, items: seq<Item>, hidden: seq<Row>, states: map<Id, SamplerState>, size: nat)
    requires SInv(cfg, s, items) && BatchOk(bs, ItemQueryLens(items), ItemSeqLens(items), ItemTables(items))
    requires MetaOk(Metadata(bs, ItemQueryLens(items), ItemSeqLens(items), ItemTables(items)), |hidden|, size)
    requires forall k :: 0 <= k < |items| ==> FedAt(s, states, items[k])
    ensures SampleOk(hidden, items, states)
    ensures forall k :: 0 <= k < |items| && items[k].doSample ==> items[k].id in SampleRows(net, hidden, items, states, |items|)
  {
    hide SInv, BatchOk, Mirror, SampleRows;
    var m := Metadata(bs, ItemQueryLens(items), ItemSeqLens(items), ItemTables(items));
    forall k | 0 <= k < |items| ensures RowEndOk(hidden, items, states, k) {
      ItemFacts(cfg, s, items, k);
      assert FedAt(s, states, items[k]);
      assert RequestMetaOk(m, k, |hidden|, size);
    }
    DistinctItems(cfg, s, items);
    SampleRowsAt(net, hidden, items, states, |items|);
    forall k | 0 <= k < |items| && items[k].doSample ensures items[k].id in SampleRows(net, hidden, items, states, |items|) {
      assert SampledAt(net, hidden, items, states, k, SampleRows(net, hidden, items, states, |items|));
    }
  }

  /** No assertion of execute() fires and no index leaves its tensor, whatever the embeddings
      are and whatever the caches hold. */
  lemma ExecutesSafely(net: Net, cfg: Config, s: Sched, out: Output, r: Runner, size: nat)
    requires SInv(cfg, s, out.scheduled) && CacheSize(s, cfg.blockSize, size) && CachesOk(net, r.caches, size)
    requires MirrorReady(s, Forget(r, out).states, out.scheduled) && GraphsFit(r.graphs, PoolSize(s), cfg.blockSize, size)
    ensures Executable(net, cfg.blockSize, r, out, size)
    ensures var q := Execute(net, cfg.blockSize, r, out, size); InSync(net, s, out, r, q.0, q.1, size)
  {
    hide SInv, ForwardModel, SampleOk, MirrorReady, FedAt, Forget, CacheSize, BatchReady, BatchOf, InputRows, Metadata, MetaOk, BatchOk, CachesOk,
         Replayable, GraphsFit, Replays;
    var r1, items := Forget(r, out), out.scheduled;
    ForgetKeeps(r, out);
    StepRunnable(net, r1.embeds, cfg, s, items, r.caches, size);
    ItemsOf(cfg, s, items);
    FeedAllCorrect(s, r1.states, items);
    if items != [] {
      StepForwardable(net, cfg, s, items, r1, size);
      var m := ForwardModel(net, cfg.blockSize, r1, items, size);
      ForwardShape(net, cfg.blockSize, r1, items, size);
      RowEnds(net, cfg.blockSize, r1.embeds, cfg, s, items, m.1, FeedAll(r1.states, items).value, size);
    }
  }

  /** No table of a step names a block behind the pool. */
  lemma TablesApart(cfg: Config, s: Sched, items: seq<Item>, scratch: BlockId)
    requires SInv(cfg, s, items) && PoolSize(s) <= scratch
    ensures Apart(cfg.blockSize, ItemTables(items), scratch)
  {
    hide Filling, Arrivals, Statuses, Lists, SlotCap, RowOk, PoolOk;
    forall k | 0 <= k < |items| ensures scratch !in ItemTables(items)[k] {
      assert ItemOk(s, items[k]);
      var id := items[k].id;
      assert id in s.kv.tables && InPool(s.kv.pool, s.kv.tables[id]);
    }
  }

  lemma StepForwardable(net: Net, cfg: Config, s: Sched, items: seq<Item>, r: Runner, size: nat)
    requires SInv(cfg, s, items) && GraphsFit(r.graphs, PoolSize(s), cfg.blockSize, size)
    requires Runnable(net, cfg.blockSize, r.embeds, r.caches, items, size)
    ensures Forwardable(net, cfg.blockSize, r, items, size)
    ensures Replays(r.graphs, items) ==> Apart(cfg.blockSize, ItemTables(items), r.graphs.value.scratch)
  {
    hide SInv, Runnable, Replayable, BucketsOk, Apart;
    if Replays(r.graphs, items) {
      TablesApart(cfg, s, items, r.graphs.value.scratch);
      ReplayRuns(net, cfg.blockSize, r.graphs.value, r.embeds, r.caches, items, size);
    }
  }

  lemma ForwardShape(net: Net, bs: nat, r: Runner, items: seq<Item>, size: nat)
    requires Forwardable(net, bs, r, items, size)
    ensures |ForwardModel(net, bs, r, items, size).1| == |InputRows(net, r.embeds, items)|
  {
    hide MetaOk, Metadata, InputRows, Concat, PaddedBatch, ReplayMeta, ReplayModel;
  }

  lemma ExecuteSteps(net: Net, cfg: Config, s: Sched, out: Output, r: Runner, size: nat, labels: Labels)
    requires SInv(cfg, s, out.scheduled) && CacheSize(s, cfg.blockSize, size) && CachesOk(net, r.caches, size)
    requires LInv(net, Forget(r, out).embeds, cfg, s, out.scheduled, labels) && LabelsInside(labels, cfg.blockSize, |s.kv.pool.refs|)
    requires AllClean(net, r.caches, cfg.blockSize, labels)
    requires MirrorReady(s, Forget(r, out).states, out.scheduled) && GraphsFit(r.graphs, PoolSize(s), cfg.blockSize, size)
    requires Replays(r.graphs, out.scheduled) ==> TokensSuffice(net, Forget(r, out).embeds, out.scheduled)
    ensures Executable(net, cfg.blockSize, r, out, size)
    ensures ItemsKnown(s, out.scheduled) && QueriesOk(cfg.blockSize, BatchOf(net, Forget(r, out).embeds, s, out.scheduled))
    ensures var q := Execute(net, cfg.blockSize, r, out, size);
      Executed(net, cfg, s, out, r, q.0, q.1, size,
               WriteAll(labels, cfg.blockSize, BatchOf(net, Forget(r, out).embeds, s, out.scheduled)))
  {
    hide SInv, LInv, LabelsInside, AllClean, BatchOf, Runnable, RunModel, WriteAll, AllOwnRows, Concat, SampleOk, QueriesOk,
         MirrorReady, SoloSampled, FedAt, Forget, CacheSize, InSync, CachesOk, ForwardModel, GraphsFit, TokensSuffice, Replays;
    var r1, items := Forget(r, out), out.scheduled;
    ForgetKeeps(r, out);
    ExecutesSafely(net, cfg, s, out, r, size);
    StepForward(net, r1.embeds, cfg, s, items, r.caches, size, labels);
    if items != [] {
      StepForwarded(net, cfg, s, items, r1, size, labels);
      SyncedFed(net, s, out, r, Execute(net, cfg.blockSize, r, out, size).0, Execute(net, cfg.blockSize, r, out, size).1, size);
      SampledTokens(net, r1.embeds, cfg, s, items, RunModel(net, cfg.blockSize, r1.embeds, r.caches, items, size).1,
                    FeedAll(r1.states, items).value);
    } else {
      NothingWritten(net, r1.embeds, cfg, s, labels);
    }
  }

  /** On the path the batch takes, rows are the eager ones and the caches realise the new labels. */
  lemma StepForwarded(net: Net, cfg: Config, s: Sched, items: seq<Item>, r: Runner, size: nat, labels: Labels)
    requires SInv(cfg, s, items) && LabelsInside(labels, cfg.blockSize, |s.kv.pool.refs|)
    requires Forwardable(net, cfg.blockSize, r, items, size) && GraphsFit(r.graphs, PoolSize(s), cfg.blockSize, size)
    requires Replays(r.graphs, items) ==> TokensSuffice(net, r.embeds, items)
    requires LInv(net, r.embeds, cfg, s, items, labels)
    requires ItemsKnown(s, items) && QueriesOk(cfg.blockSize, BatchOf(net, r.embeds, s, items))
    requires AllClean(net, RunModel(net, cfg.blockSize, r.embeds, r.caches, items, size).0, cfg.blockSize,
                      WriteAll(labels, cfg.blockSize, BatchOf(net, r.embeds, s, items)))
    ensures var q := ForwardModel(net, cfg.blockSize, r, items, size);
      && q.1 == RunModel(net, cfg.blockSize, r.embeds, r.caches, items, size).1
      && AllClean(net, q.0, cfg.blockSize, WriteAll(labels, cfg.blockSize, BatchOf(net, r.embeds, s, items)))
  {
    hide SInv, LInv, LabelsInside, AllClean, BatchOf, RunModel, WriteAll, QueriesOk, ForwardModel, TokensSuffice, BucketsOk, Apart, Runnable,
         Replayable, Replays;
    StepForwardable(net, cfg, s, items, r, size);
    ForwardIsEager(net, cfg.blockSize, r, items, size);
    StepRelabelled(net, r.embeds, cfg, s, items, labels);
    if Replays(r.graphs, items) {
      ReplaysSome(r.graphs, items);
      CleanBehind(net, RunModel(net, cfg.blockSize, r.embeds, r.caches, items, size).0, ForwardModel(net, cfg.blockSize, r, items, size).0,
                  cfg.blockSize, WriteAll(labels, cfg.blockSize, BatchOf(net, r.embeds, s, items)), PoolSize(s), r.graphs.value.scratch);
    }
  }

  lemma ReplaysSome(g: Option<Graphs>, items: seq<Item>)
    requires Replays(g, items)
    ensures g.Some? && items != []
  {
  }

  lemma SyncedFed(net: Net, s: Sched, out: Output, r: Runner, r': Runner, sampled: map<Id, Token>, size: nat)
    requires InSync(net, s, out, r, r', sampled, size)
    ensures forall k :: 0 <= k < |out.scheduled| ==> FedAt(s, r'.states, out.scheduled[k])
  {
    hide FedAt;
  }

  lemma ItemsOf(cfg: Config, s: Sched, out: seq<Item>)
    requires SInv(cfg, s, out)
    ensures Items(s, out)
  {
  }

  lemma ForgetKeeps(r: Runner, out: Output)
    ensures Forget(r, out).caches == r.caches && Forget(r, out).graphs == r.graphs
  {
  }

  lemma NothingWritten(net: Net, media: Media, cfg: Config, s: Sched, labels: Labels)
    requires ItemsKnown(s, []) && QueriesOk(cfg.blockSize, BatchOf(net, media, s, []))
    ensures WriteAll(labels, cfg.blockSize, BatchOf(net, media, s, [])) == labels
  {
  }
}
