/** inferneo/executor/torch_runner.py: execute() and _build_embeds() as functions on values. */
module RunnerSpec {
  import opened Util
  import opened Hashing
  import opened BlockPoolSpec
  import opened BlockManagerSpec
  import opened SchedulerSpec
  import opened Model
  import opened Flat
  import opened Attention
  import opened ForwardCorrect
  import opened LabelInv
  import opened GraphSpec

  /** _states (the mirrored token histories), _prompt_embeds, kv_caches and graph_runner. */
  datatype Runner = Runner(states: map<Id, SamplerState>, embeds: Media, caches: seq<seq<KVal>>, graphs: Option<Graphs>)

  /** Drop the state of finished and preempted requests; embeddings survive preemption. */
  function Forget(r: Runner, out: Output): Runner {
    r.(states := r.states - Members(out.finished) - Members(out.preempted),
       embeds := r.embeds - Members(out.finished))
  }

  function Members(ids: seq<Id>): (m: set<Id>)
    ensures forall id :: id in m <==> id in ids
  {
    set id | id in ids
  }

  /** The state an item extends: newly registered from the cached prefix, or the one mirrored so far. */
  function StateBefore(states: map<Id, SamplerState>, it: Item): Option<SamplerState> {
    if it.isNew then
      match it.params
      case Some(p) => Some(SamplerState(p, it.promptLen, it.cachedPrefix))
      case None => None
    else if it.id in states then Some(states[it.id])
    else None
  }

  /** The source asserts that the mirrored history ends where the chunk starts; None if not. */
  function Feed(states: map<Id, SamplerState>, it: Item): Option<map<Id, SamplerState>> {
    match StateBefore(states, it)
    case None => None
    case Some(st) =>
      if |st.tokenIds| == it.start then Some(states[it.id := st.(tokenIds := st.tokenIds + it.chunk)]) else None
  }

  function FeedAll(states: map<Id, SamplerState>, items: seq<Item>): Option<map<Id, SamplerState>> {
    if items == [] then Some(states)
    else
      match FeedAll(states, items[..|items| - 1])
      case None => None
      case Some(m) => Feed(m, items[|items| - 1])
  }

  // ------------------------------------------------------------------ batch lists

  function Chunks(items: seq<Item>): (r: seq<seq<Token>>)
    ensures |r| == |items|
  {
    seq(|items|, k requires 0 <= k < |items| => items[k].chunk)
  }

  function ChunkPositions(items: seq<Item>): (r: seq<seq<nat>>)
    ensures |r| == |items|
  {
    seq(|items|, k requires 0 <= k < |items| => seq(|items[k].chunk|, j => items[k].start + j))
  }

  function ItemQueryLens(items: seq<Item>): seq<nat> {
    seq(|items|, k requires 0 <= k < |items| => |items[k].chunk|)
  }

  function ItemSeqLens(items: seq<Item>): seq<nat> {
    seq(|items|, k requires 0 <= k < |items| => items[k].start + |items[k].chunk|)
  }

  function ItemTables(items: seq<Item>): seq<seq<BlockId>> {
    seq(|items|, k requires 0 <= k < |items| => items[k].table)
  }

  // ------------------------------------------------------------------ _build_embeds

  function EmbedAll(net: Net, ids: seq<Token>): (r: seq<Row>)
    ensures |r| == |ids|
  {
    seq(|ids|, i requires 0 <= i < |ids| => net.embed(ids[i]))
  }

  /** The rows of one chunk whose ids are given. */
  function ChunkRows(net: Net, embeds: Media, it: Item, ids: seq<Token>): (r: seq<Row>)
    requires |ids| == |it.chunk|
    ensures |r| == |ids|
  {
    var n := |ids|;
    if it.id in embeds && it.start < |embeds[it.id]| then
      var e := embeds[it.id];
      var end := Min(it.start + n, |e|);
      var chunk := e[it.start..end];
      if |chunk| < n then chunk + EmbedAll(net, ids[|chunk|..]) else chunk
    else EmbedAll(net, ids)
  }

  function EmbedRows(net: Net, embeds: Media, items: seq<Item>): (r: seq<seq<Row>>)
    ensures |r| == |items|
  {
    seq(|items|, k requires 0 <= k < |items| => ChunkRows(net, embeds, items[k], items[k].chunk))
  }

  predicate AnyEmbeds(embeds: Media, items: seq<Item>) {
    exists k :: 0 <= k < |items| && items[k].id in embeds
  }

  /** The rows the model starts from: embeddings of the flat ids when no request carries its own. */
  function InputRows(net: Net, embeds: Media, items: seq<Item>): seq<Row> {
    if AnyEmbeds(embeds, items) then Concat(EmbedRows(net, embeds, items))
    else EmbedAll(net, Concat(Chunks(items)))
  }

  /** Row j of a chunk: the request's own embedding inside its prompt embeddings, the token's elsewhere. */
  lemma ChunkRowsAt(net: Net, embeds: Media, it: Item)
    ensures ChunkRows(net, embeds, it, it.chunk)
         == seq(|it.chunk|, j requires 0 <= j < |it.chunk| =>
              if it.start + j < |EmbedsOf(embeds, it.id)| then EmbedsOf(embeds, it.id)[it.start + j] else net.embed(it.chunk[j]))
  {
    var rows := ChunkRows(net, embeds, it, it.chunk);
    var e := EmbedsOf(embeds, it.id);
    if it.start < |e| {
      var chunk := e[it.start..Min(it.start + |it.chunk|, |e|)];
      forall j | 0 <= j < |it.chunk|
        ensures rows[j] == if it.start + j < |e| then e[it.start + j] else net.embed(it.chunk[j])
      {
        if j < |chunk| {
          assert rows[j] == chunk[j];
        } else {
          assert rows[j] == EmbedAll(net, it.chunk[|chunk|..])[j - |chunk|];
        }
      }
    }
  }

  /** For any chunking of any mixed batch, the rows are, request by request, the prompt
      embedding at positions that have one and the token embedding elsewhere. */
  lemma InputRowsCorrect(net: Net, embeds: Media, items: seq<Item>)
    ensures InputRows(net, embeds, items) == Concat(EmbedRows(net, embeds, items))
  {
    if !AnyEmbeds(embeds, items) {
      var rows, chunks := EmbedRows(net, embeds, items), Chunks(items);
      forall k | 0 <= k < |items| ensures rows[k] == EmbedAll(net, chunks[k]) {
        assert items[k].id !in embeds;
      }
      EmbedConcat(net, chunks, rows);
    }
  }

  lemma {:induction false} EmbedConcat(net: Net, chunks: seq<seq<Token>>, rows: seq<seq<Row>>)
    requires |rows| == |chunks| && forall k :: 0 <= k < |rows| ==> rows[k] == EmbedAll(net, chunks[k])
    ensures EmbedAll(net, Concat(chunks)) == Concat(rows)
  {
    if chunks != [] {
      var n := |chunks| - 1;
      EmbedConcat(net, chunks[..n], rows[..n]);
      assert EmbedAll(net, Concat(chunks[..n]) + chunks[n]) == EmbedAll(net, Concat(chunks[..n])) + EmbedAll(net, chunks[n]);
    }
  }

  // ------------------------------------------------------------------ execute

  /** Tokens of the sampling requests among the first k items: each from its chunk's last row. */
  function SampleRows(net: Net, hidden: seq<Row>, items: seq<Item>, states: map<Id, SamplerState>, k: nat): (r: map<Id, Token>)
    requires k <= |items| && SampleOk(hidden, items, states)
    decreases k
  {
    if k == 0 then map[]
    else
      var m := SampleRows(net, hidden, items, states, k - 1);
      var it := items[k - 1];
      assert RowEndOk(hidden, items, states, k - 1);
      if it.doSample then m[it.id := net.sample(hidden[Start(ItemQueryLens(items), k) - 1], states[it.id])] else m
  }

  ghost predicate RowEndOk(hidden: seq<Row>, items: seq<Item>, states: map<Id, SamplerState>, k: nat) {
    k < |items| && items[k].id in states && 0 < Start(ItemQueryLens(items), k + 1) <= |hidden|
  }

  ghost predicate SampleOk(hidden: seq<Row>, items: seq<Item>, states: map<Id, SamplerState>) {
    forall k :: 0 <= k < |items| ==> RowEndOk(hidden, items, states, k)
  }

  /** The torch calls of this step index inside their tensors. */
  ghost predicate Runnable(net: Net, bs: nat, embeds: Media, caches: seq<seq<KVal>>, items: seq<Item>, size: nat) {
    && BatchOk(bs, ItemQueryLens(items), ItemSeqLens(items), ItemTables(items))
    && CachesOk(net, caches, size)
    && |InputRows(net, embeds, items)| == |Concat(ChunkPositions(items))|
    && MetaOk(Metadata(bs, ItemQueryLens(items), ItemSeqLens(items), ItemTables(items)), |InputRows(net, embeds, items)|, size)
  }

  /** Hidden rows and caches after the batch's forward pass. */
  function RunModel(net: Net, bs: nat, embeds: Media, caches: seq<seq<KVal>>, items: seq<Item>, size: nat): (r: (seq<seq<KVal>>, seq<Row>))
    requires Runnable(net, bs, embeds, caches, items, size)
    ensures CachesOk(net, r.0, size)
  {
    RunLayers(net, 0, InputRows(net, embeds, items), Concat(ChunkPositions(items)), caches,
              Metadata(bs, ItemQueryLens(items), ItemSeqLens(items), ItemTables(items)), size)
  }

  // ------------------------------------------------------------------ the decode graph

  /** Every request advances one token and samples. */
  predicate PureDecode(out: seq<Item>) {
    forall k :: 0 <= k < |out| ==> out[k].doSample && |out[k].chunk| == 1
  }

  /** This batch replays a captured graph. */
  predicate Replays(g: Option<Graphs>, items: seq<Item>) {
    g.Some? && items != [] && PureDecode(items) && |items| <= g.value.max
  }

  /** The bucket the batch is padded to. */
  function BatchBucket(g: Graphs, items: seq<Item>): (b: nat)
    ensures |items| <= b
  {
    BucketFor(g.buckets, |items|)
  }

  /** The padded lists fit together. */
  ghost predicate PaddedBatch(bs: nat, g: Graphs, items: seq<Item>) {
    && |ItemSeqLens(items)| == |ItemTables(items)| == |items|
    && var b := BatchBucket(g, items);
    BatchOk(bs, Ones(b), Padded(ItemSeqLens(items), b, 1), Padded(ItemTables(items), b, [g.scratch]))
  }

  /** The metadata of the batch padded to its bucket with rows in the scratch block. */
  function ReplayMeta(bs: nat, g: Graphs, items: seq<Item>): SdpaMeta
    requires PaddedBatch(bs, g, items)
  {
    var b := BatchBucket(g, items);
    Metadata(bs, Ones(b), Padded(ItemSeqLens(items), b, 1), Padded(ItemTables(items), b, [g.scratch]))
  }

  /** The captured forward's indices are inside its tensors. */
  ghost predicate Replayable(net: Net, bs: nat, g: Graphs, caches: seq<seq<KVal>>, items: seq<Item>, size: nat) {
    && PaddedBatch(bs, g, items) && MetaOk(ReplayMeta(bs, g, items), BatchBucket(g, items), size)
    && CachesOk(net, caches, size)
    && |Concat(Chunks(items))| == |Concat(ChunkPositions(items))| == |items|
  }

  /** Caches and the real rows after the captured forward, which starts from token ids. */
  function ReplayModel(net: Net, bs: nat, g: Graphs, caches: seq<seq<KVal>>, items: seq<Item>, size: nat): (r: (seq<seq<KVal>>, seq<Row>))
    requires Replayable(net, bs, g, caches, items, size)
    ensures CachesOk(net, r.0, size) && |r.1| == |items|
  {
    var b := BatchBucket(g, items);
    var q := RunLayers(net, 0, EmbedAll(net, Padded(Concat(Chunks(items)), b, 0)), Padded(Concat(ChunkPositions(items)), b, 0), caches,
                       ReplayMeta(bs, g, items), size);
    (q.0, q.1[..|items|])
  }

  // ------------------------------------------------------------------ both paths

  /** No index of the path this batch takes leaves its tensor. */
  ghost predicate Forwardable(net: Net, bs: nat, r: Runner, items: seq<Item>, size: nat) {
    && Runnable(net, bs, r.embeds, r.caches, items, size)
    && (Replays(r.graphs, items) ==> Replayable(net, bs, r.graphs.value, r.caches, items, size))
  }

  /** A pure decode batch that fits a captured graph is replayed, any other runs eagerly. */
  function ForwardModel(net: Net, bs: nat, r: Runner, items: seq<Item>, size: nat): (q: (seq<seq<KVal>>, seq<Row>))
    requires Forwardable(net, bs, r, items, size)
    ensures CachesOk(net, q.0, size)
  {
    if Replays(r.graphs, items) then ReplayModel(net, bs, r.graphs.value, r.caches, items, size)
    else RunModel(net, bs, r.embeds, r.caches, items, size)
  }

  /** The runner and the batch fit together: histories in sync, indices inside the tensors. */
  ghost predicate Executable(net: Net, bs: nat, r: Runner, out: Output, size: nat) {
    out.scheduled != [] ==>
      && FeedAll(Forget(r, out).states, out.scheduled).Some?
      && Forwardable(net, bs, Forget(r, out), out.scheduled, size)
      && SampleOk(ForwardModel(net, bs, Forget(r, out), out.scheduled, size).1, out.scheduled,
                  FeedAll(Forget(r, out).states, out.scheduled).value)
  }

  /** execute(): the runner afterwards and the sampled tokens. */
  function Execute(net: Net, bs: nat, r: Runner, out: Output, size: nat): (Runner, map<Id, Token>)
    requires Executable(net, bs, r, out, size)
  {
    var r1 := Forget(r, out);
    if out.scheduled == [] then (r1, map[])
    else
      var states := FeedAll(r1.states, out.scheduled).value;
      var (caches, hidden) := ForwardModel(net, bs, r1, out.scheduled, size);
      (r1.(states := states, caches := caches), SampleRows(net, hidden, out.scheduled, states, |out.scheduled|))
  }
}
