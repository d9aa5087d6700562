/** inferneo/executor/torch_runner.py: the runner object with one key/value array per layer;
    execute and _build_embeds proved against their functions on values. */
module RunnerImpl {
  import opened Util
  import opened Hashing
  import opened BlockPoolSpec
  import opened BlockManagerSpec
  import opened SchedulerSpec
  import opened Model
  import opened Flat
  import opened Attention
  import opened ForwardCorrect
  import opened LabelInv
  import opened GraphSpec
  import opened RunnerSpec
  import opened FlashInfer
  import opened CudaGraph
  import opened GraphReplay

  class TorchRunner {
    const net: Net
    const blockSize: nat
    /** Slots per layer. */
    const size: nat
    const kvCaches: seq<array<KVal>>
    /** The captured decode graphs, if any. */
    const graphs: Option<Graphs>
    var states: map<Id, SamplerState>
    var promptEmbeds: Media

    ghost function Caches(): (r: seq<seq<KVal>>)
      reads kvCaches
      ensures |r| == |kvCaches| && forall i :: 0 <= i < |kvCaches| ==> r[i] == kvCaches[i][..]
    {
      seq(|kvCaches|, i requires 0 <= i < |kvCaches| reads kvCaches => kvCaches[i][..])
    }

    ghost function View(): Runner
      reads this, kvCaches
    {
      Runner(states, promptEmbeds, Caches(), graphs)
    }

    ghost predicate Valid()
      reads this, kvCaches
    {
      && |kvCaches| == net.layers
      && (forall i, j :: 0 <= i < j < |kvCaches| ==> kvCaches[i] != kvCaches[j])
      && (forall i :: 0 <= i < |kvCaches| ==> kvCaches[i].Length == size)
      && (graphs.Some? ==> BucketsOk(graphs.value.buckets, graphs.value.max))
    }

    constructor (n: Net, bs: nat, slots: nat, caches: seq<array<KVal>>, captured: Option<Graphs>)
      requires |caches| == n.layers && forall i :: 0 <= i < |caches| ==> caches[i].Length == slots
      requires forall i, j :: 0 <= i < j < |caches| ==> caches[i] != caches[j]
      requires captured.Some? ==> BucketsOk(captured.value.buckets, captured.value.max)
      ensures Valid() && net == n && blockSize == bs && size == slots && kvCaches == caches && graphs == captured
      ensures View() == Runner(map[], map[], Caches(), graphs)
    {
      net, blockSize, size, kvCaches, graphs, states, promptEmbeds := n, bs, slots, caches, captured, map[], map[];
    }

    /** set_prompt_embeds */
    method SetPromptEmbeds(id: Id, rows: seq<Row>)
      requires Valid()
      modifies this
      ensures Valid()
      ensures View() == old(View()).(embeds := old(promptEmbeds)[id := rows])
    {
      promptEmbeds := promptEmbeds[id := rows];
    }

    /** The first loops of execute: drop what finished and preempted requests left. */
    method ForgetAll(out: Output)
      requires Valid()
      modifies this
      ensures Valid()
      ensures View() == Forget(old(View()), out)
      ensures forall id :: id in states <==> id in old(states) && id !in out.finished && id !in out.preempted
      ensures forall id :: id in promptEmbeds <==> id in old(promptEmbeds) && id !in out.finished
      ensures (forall id :: id in states ==> states[id] == old(states)[id]) && forall id :: id in promptEmbeds ==> promptEmbeds[id] == old(promptEmbeds)[id]
    {
      ghost var s0, e0 := states, promptEmbeds;
      for i := 0 to |out.finished|
        invariant states == s0 - Members(out.finished[..i]) && promptEmbeds == e0 - Members(out.finished[..i])
      {
        states := states - {out.finished[i]};
        promptEmbeds := promptEmbeds - {out.finished[i]};
        assert Members(out.finished[..i + 1]) == Members(out.finished[..i]) + {out.finished[i]};
      }
      assert out.finished[..|out.finished|] == out.finished;
      ghost var s1 := states;
      for i := 0 to |out.preempted|
        invariant states == s1 - Members(out.preempted[..i]) && promptEmbeds == e0 - Members(out.finished)
      {
        states := states - {out.preempted[i]};
        assert Members(out.preempted[..i + 1]) == Members(out.preempted[..i]) + {out.preempted[i]};
      }
      assert out.preempted[..|out.preempted|] == out.preempted;
      assert states == s0 - Members(out.finished) - Members(out.preempted);
      assert promptEmbeds == e0 - Members(out.finished);
      assert Caches() == old(Caches());
    }

    /** One iteration of the batch loop: the history is registered if new and extended. The
        source's "runner out of sync" assertion holds. */
    method FeedItem(it: Item)
      requires Valid() && Feed(states, it).Some?
      modifies this
      ensures Valid()
      ensures View() == old(View()).(states := Feed(old(states), it).value)
    {
      if it.isNew {
        states := states[it.id := SamplerState(it.params.value, it.promptLen, it.cachedPrefix)];
      }
      assert |states[it.id].tokenIds| == it.start;
      states := states[it.id := states[it.id].(tokenIds := states[it.id].tokenIds + it.chunk)];
    }

    /** The rows of one chunk: its slice of the request's prompt embeddings, and token
        embeddings where the chunk runs past them. */
    method ChunkEmbeds(it: Item, inputIds: seq<Token>, offset: nat) returns (rows: seq<Row>)
      requires offset + |it.chunk| <= |inputIds|
      ensures rows == ChunkRows(net, promptEmbeds, it, inputIds[offset..offset + |it.chunk|])
    {
      var n := |it.chunk|;
      if it.id in promptEmbeds && it.start < |promptEmbeds[it.id]| {
        var end := Min(it.start + n, |promptEmbeds[it.id]|);
        rows := promptEmbeds[it.id][it.start..end];
        if |rows| < n {
          assert inputIds[offset + |rows|..offset + n] == inputIds[offset..offset + n][|rows|..];
          var tail := EmbedAll(net, inputIds[offset + |rows|..offset + n]);
          rows := rows + tail;
        }
      } else {
        rows := EmbedAll(net, inputIds[offset..offset + n]);
      }
    }

    /** _build_embeds: the batch's input rows, sliced out of prompt embeddings where a request
        has them. inputIds are the chunks laid end to end. */
    method BuildEmbeds(items: seq<Item>, inputIds: seq<Token>) returns (rows: seq<Row>)
      requires inputIds == Concat(Chunks(items))
      ensures rows == Concat(EmbedRows(net, promptEmbeds, items))
    {
      hide ChunkRows, EmbedAll, Concat;
      var any := false;
      for k := 0 to |items|
        invariant any <==> exists j :: 0 <= j < k && items[j].id in promptEmbeds
      {
        any := any || items[k].id in promptEmbeds;
      }
      InputRowsCorrect(net, promptEmbeds, items);
      if !any {
        return EmbedAll(net, inputIds);
      }
      var offset := 0;
      rows := [];
      ghost var all := EmbedRows(net, promptEmbeds, items);
      NothingYet(all, Chunks(items));
      for k := 0 to |items|
        invariant offset == Offset(Chunks(items), k)
        invariant rows == Concat(all[..k])
      {
        ConcatSlice(Chunks(items), k);
        OffsetStep(Chunks(items), k);
        ConcatSnoc(all, k);
        var chunk := ChunkEmbeds(items[k], inputIds, offset);
        assert chunk == all[k];
        rows := rows + chunk;
        offset := offset + |items[k].chunk|;
      }
      assert all[..|items|] == all;
    }

    /** The decoder stack: each layer scatters into its own cache and attends through it. */
    method ForwardAll(hidden0: seq<Row>, pos: seq<nat>, m: SdpaMeta) returns (hidden: seq<Row>)
      requires Valid() && |hidden0| == |pos| && MetaOk(m, |hidden0|, size)
      modifies kvCaches
      ensures Valid()
      ensures CachesOk(net, Caches(), size)
      ensures (Caches(), hidden) == RunLayers(net, 0, hidden0, pos, old(Caches()), m, size)
    {
      hide MetaOk, Layer;
      hidden := hidden0;
      ghost var c0 := Caches();
      for l := 0 to |kvCaches|
        invariant Valid() && |hidden| == |pos| == |hidden0|
        invariant CachesOk(net, Caches(), size)
        invariant RunLayers(net, l, hidden, pos, Caches(), m, size) == RunLayers(net, 0, hidden0, pos, c0, m, size)
      {
        ghost var c := Caches();
        hidden := Forward(net, l, hidden, pos, kvCaches[l], m);
        assert Caches() == c[l := kvCaches[l][..]];
      }
    }

    /** The rows to sample, one per sampling request: the last of its chunk. */
    method SampleAll(items: seq<Item>, hidden: seq<Row>) returns (sampled: map<Id, Token>)
      requires SampleOk(hidden, items, states)
      ensures sampled == SampleRows(net, hidden, items, states, |items|)
    {
      sampled := map[];
      var end := 0;
      for k := 0 to |items|
        invariant end == Start(ItemQueryLens(items), k)
        invariant sampled == SampleRows(net, hidden, items, states, k)
      {
        assert RowEndOk(hidden, items, states, k);
        end := end + |items[k].chunk|;
        if items[k].doSample {
          sampled := sampled[items[k].id := net.sample(hidden[end - 1], states[items[k].id])];
        }
      }
    }

    /** Every request advances one token and samples. */
    method AllDecode(items: seq<Item>) returns (pure: bool)
      ensures pure <==> PureDecode(items)
    {
      pure := true;
      for k := 0 to |items|
        invariant pure <==> forall j :: 0 <= j < k ==> items[j].doSample && |items[j].chunk| == 1
      {
        pure := pure && items[k].doSample && |items[k].chunk| == 1;
      }
    }

    /** run(): pad the batch to its bucket, fill the index buffers, and let the captured forward
        read them; the real rows come back. */
    method Replay(g: Graphs, ghost items: seq<Item>, inputIds: seq<Token>, positions: seq<nat>, seqLens: seq<nat>, tables: seq<seq<BlockId>>)
        returns (hidden: seq<Row>)
      requires Valid() && graphs == Some(g) && |items| <= g.max && Replayable(net, blockSize, g, Caches(), items, size)
      requires inputIds == Concat(Chunks(items)) && positions == Concat(ChunkPositions(items))
      requires seqLens == ItemSeqLens(items) && tables == ItemTables(items)
      modifies kvCaches
      ensures Valid()
      ensures (Caches(), hidden) == ReplayModel(net, blockSize, g, old(Caches()), items, size)
    {
      hide MetaOk, Metadata, Laid, Targets, RunLayers, BatchOk, Denoted, BucketsOk, Concat, Chunks, ChunkPositions, ItemSeqLens, ItemTables,
           BucketFor, DecodeOk, EmbedAll;
      var n := |inputIds|;
      var bucket := PickBucket(g.buckets, g.max, n);
      var b: nat := bucket.value;
      DecodeOfPadded(blockSize, b, seqLens, tables, g.scratch);
      var blockIds, offsets := RunTargets(blockSize, b, seqLens, tables, g.scratch);
      var ids, pos := inputIds + seq(b - n, _ => 0), positions + seq(b - n, _ => 0);
      var indptr, indices, last := Plan(blockSize, b, seqLens, tables, g.scratch);
      MetaSlotCount(ReplayMeta(blockSize, g, items), b, size);
      DenotedIs(blockSize, b, Padded(seqLens, b, 1), Padded(tables, b, [g.scratch]), blockIds, offsets, indptr, indices, last);
      var m := Denoted(blockSize, b, blockIds, offsets, indptr, indices, last);
      assert ids == Padded(inputIds, b, 0) && pos == Padded(positions, b, 0);
      EmbedLength(net, ids);
      hidden := ForwardAll(EmbedAll(net, ids), pos, m);
      hidden := hidden[..n];
    }

    /** The batch loop: every item's history is fed and the five lists are laid out. */
    method FeedBatch(items: seq<Item>)
        returns (inputIds: seq<Token>, positions: seq<nat>, queryLens: seq<nat>, seqLens: seq<nat>, tables: seq<seq<BlockId>>)
      requires Valid() && FeedAll(states, items).Some?
      modifies this
      ensures Valid() && View() == old(View()).(states := FeedAll(old(states), items).value)
      ensures inputIds == Concat(Chunks(items)) && positions == Concat(ChunkPositions(items))
      ensures queryLens == ItemQueryLens(items) && seqLens == ItemSeqLens(items) && tables == ItemTables(items)
    {
      hide Feed, Lists, Concat, BucketsOk;
      ListsNone(items);
      ghost var r1 := View();
      inputIds, positions, queryLens, seqLens, tables := [], [], [], [], [];
      for k := 0 to |items|
        invariant Valid() && View() == r1.(states := states)
        invariant FeedAll(r1.states, items[..k]) == Some(states)
        invariant Lists(items, k, inputIds, positions, queryLens, seqLens, tables)
      {
        var it := items[k];
        FeedPrefix(r1.states, items, k);
        FeedItem(it);
        ListsNext(items, k, inputIds, positions, queryLens, seqLens, tables);
        inputIds := inputIds + it.chunk;
        positions := positions + seq(|it.chunk|, j => it.start + j);
        queryLens := queryLens + [|it.chunk|];
        seqLens := seqLens + [it.start + |it.chunk|];
        tables := tables + [it.table];
      }
      assert items[..|items|] == items;
      ListsAll(items, inputIds, positions, queryLens, seqLens, tables);
    }

    /** execute(): a pure decode batch that fits a captured graph is replayed, any other runs eagerly. */
    method Execute(out: Output) returns (sampled: map<Id, Token>)
      requires Valid() && Executable(net, blockSize, View(), out, size)
      modifies this, kvCaches
      ensures Valid()
      ensures (View(), sampled) == RunnerSpec.Execute(net, blockSize, old(View()), out, size)
    {
      hide Runnable, SampleOk, RunModel, ReplayModel, SampleRows, Metadata, MetaOk, RunLayers, InputRows, EmbedRows, Concat, BatchOk, BucketsOk,
           ItemQueryLens, ItemSeqLens, ItemTables, Chunks, ChunkPositions, PureDecode, Replayable;
      ForgetAll(out);
      var items := out.scheduled;
      if items == [] {
        return map[];
      }
      var inputIds, positions, queryLens, seqLens, tables := FeedBatch(items);
      RunnableFacts(net, blockSize, promptEmbeds, Caches(), items, size);
      var pure := AllDecode(items);
      if graphs.Some? && pure && |items| <= graphs.value.max {
        var rows := Replay(graphs.value, items, inputIds, positions, seqLens, tables);
        sampled := SampleAll(items, rows);
      } else {
        var m := BuildMetadata(blockSize, queryLens, seqLens, tables);
        var rows := BuildEmbeds(items, inputIds);
        InputRowsCorrect(net, promptEmbeds, items);
        var hidden := ForwardAll(rows, positions, m);
        sampled := SampleAll(items, hidden);
      }
    }
  }

  lemma NothingYet<S, T>(ss: seq<seq<S>>, ts: seq<seq<T>>)
    ensures Concat(ss[..0]) == [] && Offset(ts, 0) == 0
  {
  }

  /** The lists the batch loop has built after k items. */
  ghost predicate Lists(items: seq<Item>, k: nat, inputIds: seq<Token>, positions: seq<nat>, queryLens: seq<nat>, seqLens: seq<nat>,
                        tables: seq<seq<BlockId>>) {
    && k <= |items|
    && inputIds == Concat(Chunks(items)[..k])
    && positions == Concat(ChunkPositions(items)[..k])
    && queryLens == ItemQueryLens(items)[..k]
    && seqLens == ItemSeqLens(items)[..k]
    && tables == ItemTables(items)[..k]
  }

  lemma ListsNone(items: seq<Item>)
    ensures Lists(items, 0, [], [], [], [], [])
  {
  }

  lemma ListsNext(items: seq<Item>, k: nat, inputIds: seq<Token>, positions: seq<nat>, queryLens: seq<nat>, seqLens: seq<nat>,
                  tables: seq<seq<BlockId>>)
    requires k < |items| && Lists(items, k, inputIds, positions, queryLens, seqLens, tables)
    ensures var it := items[k];
      Lists(items, k + 1, inputIds + it.chunk, positions + seq(|it.chunk|, j => it.start + j), queryLens + [|it.chunk|],
            seqLens + [it.start + |it.chunk|], tables + [it.table])
  {
    ConcatSnoc(Chunks(items), k);
    ConcatSnoc(ChunkPositions(items), k);
    assert ChunkPositions(items)[k] == seq(|items[k].chunk|, j => items[k].start + j);
  }

  lemma ListsAll(items: seq<Item>, inputIds: seq<Token>, positions: seq<nat>, queryLens: seq<nat>, seqLens: seq<nat>,
                 tables: seq<seq<BlockId>>)
    requires Lists(items, |items|, inputIds, positions, queryLens, seqLens, tables)
    ensures inputIds == Concat(Chunks(items)) && positions == Concat(ChunkPositions(items))
    ensures queryLens == ItemQueryLens(items) && seqLens == ItemSeqLens(items) && tables == ItemTables(items)
  {
    assert Chunks(items)[..|items|] == Chunks(items);
    assert ChunkPositions(items)[..|items|] == ChunkPositions(items);
  }

  lemma DecodeOfPadded(bs: nat, b: nat, seqLens: seq<nat>, tables: seq<seq<BlockId>>, scratch: BlockId)
    requires |seqLens| == |tables| <= b && BatchOk(bs, Ones(b), Padded(seqLens, b, 1), Padded(tables, b, [scratch]))
    ensures DecodeOk(bs, seqLens, tables, b)
  {
    hide Covers;
    var lens, tabs := Padded(seqLens, b, 1), Padded(tables, b, [scratch]);
    forall k | 0 <= k < |seqLens| ensures seqLens[k] >= 1 && Covers(bs, tables[k], seqLens[k]) {
      assert Ones(b)[k] <= lens[k] && Covers(bs, tabs[k], lens[k]);
    }
  }

  lemma MetaSlotCount(m: SdpaMeta, tokens: nat, size: nat)
    requires MetaOk(m, tokens, size)
    ensures |m.slotMapping| == tokens
  {
  }

  lemma EmbedLength(net: Net, ids: seq<Token>)
    ensures |EmbedAll(net, ids)| == |ids|
  {
  }

  lemma RunnableFacts(net: Net, bs: nat, embeds: Media, caches: seq<seq<KVal>>, items: seq<Item>, size: nat)
    requires Runnable(net, bs, embeds, caches, items, size)
    ensures BatchOk(bs, ItemQueryLens(items), ItemSeqLens(items), ItemTables(items))
    ensures |InputRows(net, embeds, items)| == |Concat(ChunkPositions(items))|
    ensures CachesOk(net, caches, size)
    ensures var m := Metadata(bs, ItemQueryLens(items), ItemSeqLens(items), ItemTables(items));
      && MetaOk(m, |InputRows(net, embeds, items)|, size)
      && RunModel(net, bs, embeds, caches, items, size)
         == RunLayers(net, 0, InputRows(net, embeds, items), Concat(ChunkPositions(items)), caches, m, size)
  {
  }

  /** In a batch that feeds to the end, each item feeds after those before it. */
  lemma {:induction false} FeedPrefix(states: map<Id, SamplerState>, items: seq<Item>, k: nat)
    requires k < |items| && FeedAll(states, items).Some?
    ensures FeedAll(states, items[..k]).Some?
    ensures FeedAll(states, items[..k + 1]) == Feed(FeedAll(states, items[..k]).value, items[k])
    ensures FeedAll(states, items[..k + 1]).Some?
    decreases |items|
  {
    var n := |items| - 1;
    if k < n {
      FeedPrefix(states, items[..n], k);
      assert items[..n][..k] == items[..k] && items[..n][..k + 1] == items[..k + 1];
    } else {
      assert items[..k + 1] == items && items[..k] == items[..n];
    }
  }
}
