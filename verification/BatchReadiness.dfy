/** The batch a schedule() call hands to the runner meets everything the forward pass needs. */
module BatchReadiness {
  import opened Util
  import opened BlockPoolSpec
  import opened BlockManagerSpec
  import opened SchedulerSpec
  import opened SchedulerInv
  import opened Sharing
  import opened Model
  import opened Flat
  import opened Attention
  import opened ForwardCorrect
  import opened LabelInv
  import opened WriteLabels

  /** Labels name places inside the pool, and never an empty prefix. */
  ghost predicate LabelsInside(labels: Labels, bs: nat, numBlocks: nat) {
    forall at :: at in labels.held ==> at.1 < bs && at.0 < numBlocks && labels.held[at] != []
  }

  /** The pool's own slots; the runner's cache also has the scratch block behind them. */
  ghost predicate CacheSize(s: Sched, bs: nat, size: nat) {
    |s.kv.pool.refs| * bs <= size
  }

  lemma SlotBound(b: nat, o: nat, bs: nat, n: nat)
    requires b < n && o < bs
    ensures b * bs + o < n * bs
  {
    MulMono(b + 1, n, bs);
    assert (b + 1) * bs == b * bs + bs;
  }

  lemma PositionInside(net: Net, media: Media, cfg: Config, s: Sched, out: seq<Item>, size: nat, k: nat, p: nat)
    requires SInv(cfg, s, out) && ItemsKnown(s, out) && CacheSize(s, cfg.blockSize, size)
    requires k < |out| && p < out[k].start + |out[k].chunk|
    ensures SlotInside(cfg.blockSize, out[k].table, p, size)
    ensures FloorDiv(p, cfg.blockSize) < |out[k].table| && out[k].table[FloorDiv(p, cfg.blockSize)] < |s.kv.pool.refs|
  {
    hide SInv;
    BlockOfPosition(cfg, s, out, k, p);
    ItemFacts(cfg, s, out, k);
    TableOfRunning(cfg, s, out, out[k].id);
    SlotBound(out[k].table[FloorDiv(p, cfg.blockSize)], p % cfg.blockSize, cfg.blockSize, |s.kv.pool.refs|);
  }

  lemma BatchItem(net: Net, media: Media, s: Sched, out: seq<Item>, k: nat)
    requires ItemsKnown(s, out) && k < |out|
    ensures BatchOf(net, media, s, out)[k].table == out[k].table && BatchOf(net, media, s, out)[k].start == out[k].start
  {
  }

  /** Slot k of the flat mapping is some request's position. */
  lemma FlatSlotOwner(bs: nat, qs: seq<Query>, i: nat) returns (k: nat, p: nat)
    requires QueriesOk(bs, qs) && i < |AllSlots(bs, qs)|
    ensures k < |qs| && qs[k].start <= p < |qs[k].xs| && FloorDiv(p, bs) < |qs[k].table|
    ensures AllSlots(bs, qs)[i] == SlotOf(bs, qs[k].table, p)
    ensures i == Offset(Tails(bs, qs), k) + (p - qs[k].start)
  {
    var j: nat;
    k, j := Locate(Tails(bs, qs), i);
    TailLengths(bs, qs, k);
    p := qs[k].start + j;
    TailAt(bs, qs, k, p);
  }

  lemma UniqueDistinct(bs: nat, qs: seq<Query>)
    requires QueriesOk(bs, qs) && WritesUnique(bs, qs)
    ensures Distinct(AllSlots(bs, qs))
  {
    hide Tails, AllSlots, QueriesOk;
    forall i, j | 0 <= i < j < |AllSlots(bs, qs)| ensures AllSlots(bs, qs)[i] != AllSlots(bs, qs)[j] {
      var k, p := FlatSlotOwner(bs, qs, i);
      var k', p' := FlatSlotOwner(bs, qs, j);
      if AllSlots(bs, qs)[i] == AllSlots(bs, qs)[j] {
        PositiveSize(bs, qs);
        SlotInjective(bs, qs[k].table[FloorDiv(p, bs)], p % bs, qs[k'].table[FloorDiv(p', bs)], p' % bs);
        SameWriter(bs, qs, k, p, k', p');
      }
    }
  }

  lemma SameWriter(bs: nat, qs: seq<Query>, k: nat, p: nat, k': nat, p': nat)
    requires bs > 0 && WritesUnique(bs, qs) && k < |qs| && k' < |qs|
    requires qs[k].start <= p < |qs[k].xs| && FloorDiv(p, bs) < |qs[k].table|
    requires qs[k'].start <= p' < |qs[k'].xs| && FloorDiv(p', bs) < |qs[k'].table|
    requires PlaceOf(bs, qs[k].table, p) == PlaceOf(bs, qs[k'].table, p')
    ensures k == k' && p == p'
  {
    var at := PlaceOf(bs, qs[k].table, p);
    assert Writes(bs, qs, at, k, p) && Writes(bs, qs, at, k', p');
  }

  lemma PositiveSize(bs: nat, qs: seq<Query>)
    requires QueriesOk(bs, qs)
    ensures bs > 0
  {
  }

  /** Slots written by all scheduled requests of a step are pairwise distinct, inside the
      pool's own part of the cache, and so are the slots read. */
  lemma StepBatchReady(net: Net, media: Media, cfg: Config, s: Sched, out: seq<Item>, size: nat)
    requires SInv(cfg, s, out) && CacheSize(s, cfg.blockSize, size)
    ensures ItemsKnown(s, out) && BatchReady(cfg.blockSize, BatchOf(net, media, s, out), size)
  {
    hide SInv, AllSlots, SlotInside, WritesUnique, BatchOf;
    var bs := cfg.blockSize;
    BatchQueries(net, media, cfg, s, out);
    var qs := BatchOf(net, media, s, out);
    BatchUnique(net, media, cfg, s, out);
    UniqueDistinct(bs, qs);
    forall k, p | 0 <= k < |qs| && 0 <= p < |qs[k].xs| ensures SlotInside(bs, qs[k].table, p, size) {
      PositionInside(net, media, cfg, s, out, size, k, p);
      BatchItem(net, media, s, out, k);
    }
    forall i | 0 <= i < |AllSlots(bs, qs)| ensures AllSlots(bs, qs)[i] < size {
      var k, p := FlatSlotOwner(bs, qs, i);
      InsideSlot(bs, qs[k].table, p, size);
    }
  }

  lemma InsideSlot(bs: nat, table: seq<BlockId>, p: nat, size: nat)
    requires SlotInside(bs, table, p, size)
    ensures SlotOf(bs, table, p) < size
  {
  }

  lemma ItemLabelled(net: Net, media: Media, cfg: Config, s: Sched, out: seq<Item>, labels': Labels, k: nat, p: nat)
    requires SInv(cfg, s, out) && ItemsKnown(s, out) && RunSettled(net, media, s, out, cfg.blockSize, labels')
    requires k < |out| && p < |BatchOf(net, media, s, out)[k].xs|
    ensures Labelled(labels', cfg.blockSize, BatchOf(net, media, s, out)[k], p)
  {
    hide SInv, RowsFor, RunSettled;
    var bs := cfg.blockSize;
    PositiveBlock(cfg, s, out);
    ItemFacts(cfg, s, out, k);
    BlockOfPosition(cfg, s, out, k, p);
    SettledAt(net, media, s, out, bs, labels', out[k].id, FloorDiv(p, bs), p % bs);
  }

  lemma SettledAt(net: Net, media: Media, s: Sched, out: seq<Item>, bs: nat, labels: Labels, id: Id, i: nat, o: nat)
    requires RunSettled(net, media, s, out, bs, labels) && id in s.running
    ensures RunSettledAt(net, media, s, out, bs, labels, id, i, o)
  {
  }

  /** The relabelling a step performs is exactly what the forward pass realises. */
  lemma StepRelabelled(net: Net, media: Media, cfg: Config, s: Sched, out: seq<Item>, labels: Labels)
    requires SInv(cfg, s, out) && LInv(net, media, cfg, s, out, labels) && LabelsInside(labels, cfg.blockSize, |s.kv.pool.refs|)
    ensures ItemsKnown(s, out) && QueriesOk(cfg.blockSize, BatchOf(net, media, s, out))
    ensures var qs := BatchOf(net, media, s, out); var labels' := WriteAll(labels, cfg.blockSize, qs);
      Relabelled(labels, labels', cfg.blockSize, qs) && LabelsInside(labels', cfg.blockSize, |s.kv.pool.refs|)
  {
    hide SInv, LInv, RunSettled, BatchOf, WriteAll, Writes, Labelled, QueryOk, HashSettled;
    var bs := cfg.blockSize;
    StepSettles(net, media, cfg, s, out, labels);
    var qs := BatchOf(net, media, s, out);
    var labels' := WriteAll(labels, bs, qs);
    forall k, p | 0 <= k < |qs| && 0 <= p < |qs[k].xs| ensures Labelled(labels', bs, qs[k], p) {
      ItemLabelled(net, media, cfg, s, out, labels', k, p);
    }
    forall at: Place | at in labels'.held
      ensures Written(bs, qs, at) || (at in labels.held && labels'.held[at] == labels.held[at])
      ensures at.1 < bs && at.0 < |s.kv.pool.refs| && labels'.held[at] != []
    {
      if Written(bs, qs, at) {
        var k: nat, p: nat :| Writes(bs, qs, at, k, p);
        WrittenInside(net, media, cfg, s, out, labels, at, k, p);
      } else {
        WriteAllElse(labels, bs, qs, at);
      }
    }
  }

  lemma WrittenInside(net: Net, media: Media, cfg: Config, s: Sched, out: seq<Item>, labels: Labels, at: Place, k: nat, p: nat)
    requires SInv(cfg, s, out) && ItemsKnown(s, out) && QueriesOk(cfg.blockSize, BatchOf(net, media, s, out))
    requires Writes(cfg.blockSize, BatchOf(net, media, s, out), at, k, p)
    ensures at.1 < cfg.blockSize && at.0 < |s.kv.pool.refs|
    ensures HasLabel(WriteAll(labels, cfg.blockSize, BatchOf(net, media, s, out)), at.0, at.1, BatchOf(net, media, s, out)[k].xs[..p + 1])
    ensures p < |BatchOf(net, media, s, out)[k].xs|
  {
    hide SInv, WriteAll, BatchOf, PendingAt;
    WritesPending(net, media, cfg, s, out, at, k, p);
    BatchUnique(net, media, cfg, s, out);
    WriteAllAt(labels, cfg.blockSize, BatchOf(net, media, s, out), at, k, p);
    PendingTable(s, out, cfg.blockSize, at.0, at.1, out[k].id, FloorDiv(p, cfg.blockSize));
    TableOfRunning(cfg, s, out, out[k].id);
  }
}
