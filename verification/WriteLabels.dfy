/** What a step writes: all its places are distinct, and afterwards every promise of the
    schedule is kept. */
module WriteLabels {
  import opened Util
  import opened Hashing
  import opened BlockPoolSpec
  import opened BlockManagerSpec
  import opened BlockManagerInv
  import opened SchedulerSpec
  import opened SchedulerInv
  import opened Sharing
  import opened Model
  import opened Attention
  import opened ForwardCorrect
  import opened LabelInv

  // ------------------------------------------------------------------ what a place should hold

  /** Two running requests that both have a position at one place want the same prefix there. */
  lemma SameWant(net: Net, media: Media, book: Book, cfg: Config, s: Sched, out: seq<Item>, a: Id, i: nat, t: Id, j: nat, o: nat)
    requires SInv(cfg, s, out) && MediaOk(net, cfg.blockSize, s, media, book) && a in s.running && t in s.running && o < cfg.blockSize
    requires i < |TableOf(s.kv, a)| && j < |TableOf(s.kv, t)| && TableOf(s.kv, a)[i] == TableOf(s.kv, t)[j]
    ensures i == j && a in s.reqs && t in s.reqs
    ensures i * cfg.blockSize + o + 1 <= |s.reqs[a].Tokens()| || i * cfg.blockSize + o + 1 <= |s.reqs[t].Tokens()| ==>
      && i * cfg.blockSize + o + 1 <= |s.reqs[a].Tokens()| && i * cfg.blockSize + o + 1 <= |s.reqs[t].Tokens()|
      && RowsFor(net, media, a, s.reqs[a].Tokens())[..i * cfg.blockSize + o + 1]
         == RowsFor(net, media, t, s.reqs[t].Tokens())[..i * cfg.blockSize + o + 1]
  {
    hide SInv, Inputs, Respects;
    var bs := cfg.blockSize;
    TableOfRunning(cfg, s, out, a);
    if a != t {
      SharedPrefix(cfg, s, out, a, t, i, j);
      assert (i + 1) * bs == i * bs + bs;
      ChainAgree(s.reqs[a].Tokens(), s.reqs[t].Tokens(), bs, i + 1, i + 1);
      TokensFromPrompt(s.reqs[a]);
      TokensFromPrompt(s.reqs[t]);
      HashWantIs(net, book, bs, EmbedsOf(media, a), s.reqs[a].prompt, s.reqs[a].Tokens(), i, o);
      HashWantIs(net, book, bs, EmbedsOf(media, t), s.reqs[t].prompt, s.reqs[t].Tokens(), i, o);
    } else {
      assert i == j;
    }
  }

  /** At most one of the requests sharing a block still has to fill it. */
  lemma OneFiller(cfg: Config, s: Sched, out: seq<Item>, a: Id, b: Id, i: nat)
    requires SInv(cfg, s, out) && a in s.running && b in s.running && a != b && SharedAt(s.kv, a, b, i)
    ensures PastOne(s, cfg.blockSize, a, b, i)
    ensures (i + 1) * cfg.blockSize == i * cfg.blockSize + cfg.blockSize
  {
    hide Items, Statuses, Bounded, Arrivals, SlotCap, Rows, Lists;
  }

  /** In every step the places written by all scheduled requests are pairwise distinct. */
  lemma PendingUnique(cfg: Config, s: Sched, out: seq<Item>, b: BlockId, o: nat, t: Id, j: nat, u: Id, k: nat)
    requires SInv(cfg, s, out) && o < cfg.blockSize
    requires PendingAt(s, out, cfg.blockSize, b, o, t, j) && PendingAt(s, out, cfg.blockSize, b, o, u, k)
    ensures t == u && j == k
  {
    hide SInv;
    TableOfRunning(cfg, s, out, t);
    if t != u {
      SharedPrefix(cfg, s, out, t, u, j, k);
      OneFiller(cfg, s, out, t, u, j);
    }
  }

  /** A place written for t that another request counts as computed is in a block all of
      which that request counts as computed, at the same index. */
  lemma PendingNotComputed(cfg: Config, s: Sched, out: seq<Item>, b: BlockId, o: nat, t: Id, j: nat, a: Id, i: nat)
    requires SInv(cfg, s, out) && o < cfg.blockSize && PendingAt(s, out, cfg.blockSize, b, o, t, j)
    requires a in s.running && a in s.reqs && i < |TableOf(s.kv, a)| && TableOf(s.kv, a)[i] == b
    requires i * cfg.blockSize + o < s.reqs[a].computed
    ensures a != t && i == j && (i + 1) * cfg.blockSize <= s.reqs[a].computed
  {
    hide SInv;
    TableOfRunning(cfg, s, out, t);
    if a != t {
      SharedPrefix(cfg, s, out, a, t, i, j);
      OneFiller(cfg, s, out, a, t, i);
    }
  }

  // ------------------------------------------------------------------ the batch of a step

  function QueryOf(net: Net, media: Media, s: Sched, it: Item): Query
    requires it.id in s.reqs
  {
    Query(it.start, Slice(RowsFor(net, media, it.id, s.reqs[it.id].Tokens()), 0, it.start + |it.chunk|), it.table)
  }

  ghost predicate ItemsKnown(s: Sched, out: seq<Item>) {
    forall k :: 0 <= k < |out| ==> out[k].id in s.reqs
  }

  function BatchOf(net: Net, media: Media, s: Sched, out: seq<Item>): (qs: seq<Query>)
    requires ItemsKnown(s, out)
    ensures |qs| == |out|
  {
    seq(|out|, k requires 0 <= k < |out| => QueryOf(net, media, s, out[k]))
  }

  lemma ItemFacts(cfg: Config, s: Sched, out: seq<Item>, k: nat)
    requires SInv(cfg, s, out) && k < |out|
    ensures ItemOk(s, out[k]) && ItemsKnown(s, out)
    ensures Cover(s, out, out[k].id) == out[k].start + |out[k].chunk|
    ensures RowOk(cfg, s, out, out[k].id)
  {
    hide Filling, Statuses, Bounded, Arrivals, SlotCap, Lists, KvOk, RowOk;
    assert ItemOk(s, out[k]);
    forall k | 0 <= k < |out| ensures out[k].id in s.reqs { assert ItemOk(s, out[k]); }
    GrantedAt(out, k);
  }

  lemma KnownItems(cfg: Config, s: Sched, out: seq<Item>)
    requires SInv(cfg, s, out)
    ensures ItemsKnown(s, out)
  {
    hide Filling, Statuses, Bounded, Arrivals, SlotCap, Lists, Rows;
    forall k | 0 <= k < |out| ensures out[k].id in s.reqs { assert ItemOk(s, out[k]); }
  }

  lemma BlockOfPosition(cfg: Config, s: Sched, out: seq<Item>, k: nat, p: nat)
    requires SInv(cfg, s, out) && k < |out| && p < out[k].start + |out[k].chunk|
    ensures FloorDiv(p, cfg.blockSize) < |out[k].table| && out[k].table == TableOf(s.kv, out[k].id)
    ensures p == FloorDiv(p, cfg.blockSize) * cfg.blockSize + p % cfg.blockSize && p % cfg.blockSize < cfg.blockSize
  {
    hide SInv, TableOk;
    PositiveBlock(cfg, s, out);
    ItemFacts(cfg, s, out, k);
    DivModParts(p, cfg.blockSize);
    ComputedBlock(s.kv, cfg.blockSize, out[k].id, s.reqs[out[k].id].Tokens(), Cover(s, out, out[k].id),
                  FloorDiv(p, cfg.blockSize), p % cfg.blockSize);
  }

  lemma PositiveBlock(cfg: Config, s: Sched, out: seq<Item>)
    requires SInv(cfg, s, out)
    ensures cfg.blockSize > 0
  {
  }

  lemma BatchQueries(net: Net, media: Media, cfg: Config, s: Sched, out: seq<Item>)
    requires SInv(cfg, s, out)
    ensures ItemsKnown(s, out) && QueriesOk(cfg.blockSize, BatchOf(net, media, s, out))
    ensures forall k :: 0 <= k < |out| ==>
      |BatchOf(net, media, s, out)[k].xs| == out[k].start + |out[k].chunk| && BatchOf(net, media, s, out)[k].start == out[k].start
  {
    hide SInv;
    PositiveBlock(cfg, s, out);
    KnownItems(cfg, s, out);
    var qs := BatchOf(net, media, s, out);
    forall k | 0 <= k < |out|
      ensures QueryOk(cfg.blockSize, qs[k]) && |qs[k].xs| == out[k].start + |out[k].chunk|
    {
      ItemFacts(cfg, s, out, k);
      forall p | 0 <= p < |qs[k].xs| ensures FloorDiv(p, cfg.blockSize) < |qs[k].table| {
        BlockOfPosition(cfg, s, out, k, p);
      }
    }
  }

  /** A place the batch writes is pending for the request that owns the position. */
  lemma WritesPending(net: Net, media: Media, cfg: Config, s: Sched, out: seq<Item>, at: Place, k: nat, p: nat)
    requires SInv(cfg, s, out) && ItemsKnown(s, out)
    requires Writes(cfg.blockSize, BatchOf(net, media, s, out), at, k, p)
    ensures k < |out| && cfg.blockSize > 0 && p == FloorDiv(p, cfg.blockSize) * cfg.blockSize + at.1
    ensures PendingAt(s, out, cfg.blockSize, at.0, at.1, out[k].id, FloorDiv(p, cfg.blockSize)) && at.1 < cfg.blockSize
  {
    hide SInv;
    BatchQueries(net, media, cfg, s, out);
    ItemFacts(cfg, s, out, k);
    BlockOfPosition(cfg, s, out, k, p);
  }

  /** A pending place is written by the batch. */
  lemma PendingWrites(net: Net, media: Media, cfg: Config, s: Sched, out: seq<Item>, b: BlockId, o: nat, t: Id, j: nat) returns (k: nat)
    requires SInv(cfg, s, out) && ItemsKnown(s, out) && o < cfg.blockSize
    requires PendingAt(s, out, cfg.blockSize, b, o, t, j)
    ensures k < |out| && out[k].id == t
    ensures Writes(cfg.blockSize, BatchOf(net, media, s, out), (b, o), k, j * cfg.blockSize + o)
  {
    hide SInv;
    var bs := cfg.blockSize;
    k := GrantedFrom(out, t);
    ItemFacts(cfg, s, out, k);
    BatchQueries(net, media, cfg, s, out);
    DivModUnique(j, o, bs);
    BlockOfPosition(cfg, s, out, k, j * bs + o);
  }

  // ------------------------------------------------------------------ rewriting the labels

  function WriteItem(labels: Labels, bs: nat, q: Query, n: nat): (r: Labels)
    requires bs > 0 && q.start + n <= |q.xs| && Covers(bs, q.table, |q.xs|)
    ensures r.book == labels.book
  {
    if n == 0 then labels
    else
      var l := WriteItem(labels, bs, q, n - 1);
      l.(held := l.held[PlaceOf(bs, q.table, q.start + n - 1) := q.xs[..q.start + n]])
  }

  /** The labels after the step: each written place carries its own position's prefix. */
  function WriteAll(labels: Labels, bs: nat, qs: seq<Query>): (r: Labels)
    requires QueriesOk(bs, qs)
    ensures r.book == labels.book
  {
    if qs == [] then labels
    else
      var n := |qs| - 1;
      assert QueryOk(bs, qs[n]);
      assert forall k :: 0 <= k < n ==> QueryOk(bs, qs[k]);
      WriteItem(WriteAll(labels, bs, qs[..n]), bs, qs[n], |qs[n].xs| - qs[n].start)
  }

  lemma {:induction false} WriteItemElse(labels: Labels, bs: nat, q: Query, n: nat, at: Place)
    requires bs > 0 && q.start + n <= |q.xs| && Covers(bs, q.table, |q.xs|)
    requires forall p :: q.start <= p < q.start + n ==> PlaceOf(bs, q.table, p) != at
    ensures at in WriteItem(labels, bs, q, n).held <==> at in labels.held
    ensures at in labels.held ==> WriteItem(labels, bs, q, n).held[at] == labels.held[at]
  {
    if n > 0 {
      assert PlaceOf(bs, q.table, q.start + n - 1) != at;
      WriteItemElse(labels, bs, q, n - 1, at);
    }
  }

  lemma {:induction false} WriteItemAt(labels: Labels, bs: nat, q: Query, n: nat, p: nat)
    requires bs > 0 && q.start + n <= |q.xs| && Covers(bs, q.table, |q.xs|)
    requires q.start <= p < q.start + n
    requires forall r :: q.start <= r < q.start + n && r != p ==> PlaceOf(bs, q.table, r) != PlaceOf(bs, q.table, p)
    ensures HasLabel(WriteItem(labels, bs, q, n), PlaceOf(bs, q.table, p).0, PlaceOf(bs, q.table, p).1, q.xs[..p + 1])
  {
    if p < q.start + n - 1 {
      assert PlaceOf(bs, q.table, q.start + n - 1) != PlaceOf(bs, q.table, p);
      WriteItemAt(labels, bs, q, n - 1, p);
    }
  }

  ghost predicate WritesUnique(bs: nat, qs: seq<Query>) {
    forall at: Place, k: nat, p: nat, k': nat, p': nat ::
      Writes(bs, qs, at, k, p) && Writes(bs, qs, at, k', p') ==> k == k' && p == p'
  }

  lemma InitWrites(bs: nat, qs: seq<Query>, at: Place, k: nat, p: nat)
    requires qs != []
    ensures Writes(bs, qs[..|qs| - 1], at, k, p) <==> Writes(bs, qs, at, k, p) && k < |qs| - 1
  {
  }

  lemma InitQueries(bs: nat, qs: seq<Query>)
    requires QueriesOk(bs, qs) && qs != []
    ensures QueriesOk(bs, qs[..|qs| - 1]) && QueryOk(bs, qs[|qs| - 1])
    ensures WritesUnique(bs, qs) ==> WritesUnique(bs, qs[..|qs| - 1])
  {
    var init := qs[..|qs| - 1];
    assert forall k :: 0 <= k < |init| ==> QueryOk(bs, qs[k]);
    if WritesUnique(bs, qs) {
      forall at: Place, k: nat, p: nat, k': nat, p': nat | Writes(bs, init, at, k, p) && Writes(bs, init, at, k', p')
        ensures k == k' && p == p'
      {
        InitWrites(bs, qs, at, k, p);
        InitWrites(bs, qs, at, k', p');
      }
    }
  }

  lemma {:induction false} WriteAllElse(labels: Labels, bs: nat, qs: seq<Query>, at: Place)
    requires QueriesOk(bs, qs) && !Written(bs, qs, at)
    ensures at in WriteAll(labels, bs, qs).held <==> at in labels.held
    ensures at in labels.held ==> WriteAll(labels, bs, qs).held[at] == labels.held[at]
  {
    if qs != [] {
      var n := |qs| - 1;
      InitQueries(bs, qs);
      if Written(bs, qs[..n], at) {
        var k: nat, p: nat :| Writes(bs, qs[..n], at, k, p);
        InitWrites(bs, qs, at, k, p);
      }
      WriteAllElse(labels, bs, qs[..n], at);
      forall p | qs[n].start <= p < |qs[n].xs| ensures PlaceOf(bs, qs[n].table, p) != at {
        assert Writes(bs, qs, PlaceOf(bs, qs[n].table, p), n, p);
      }
      WriteItemElse(WriteAll(labels, bs, qs[..n]), bs, qs[n], |qs[n].xs| - qs[n].start, at);
    }
  }

  lemma {:induction false} WriteAllAt(labels: Labels, bs: nat, qs: seq<Query>, at: Place, k: nat, p: nat)
    requires QueriesOk(bs, qs) && WritesUnique(bs, qs) && Writes(bs, qs, at, k, p)
    ensures HasLabel(WriteAll(labels, bs, qs), at.0, at.1, qs[k].xs[..p + 1])
  {
    var n := |qs| - 1;
    InitQueries(bs, qs);
    var rest := WriteAll(labels, bs, qs[..n]);
    if k < n {
      InitWrites(bs, qs, at, k, p);
      WriteAllAt(labels, bs, qs[..n], at, k, p);
      forall r | qs[n].start <= r < |qs[n].xs| ensures PlaceOf(bs, qs[n].table, r) != at {
        assert Writes(bs, qs, PlaceOf(bs, qs[n].table, r), n, r);
      }
      WriteItemElse(rest, bs, qs[n], |qs[n].xs| - qs[n].start, at);
    } else {
      forall r | qs[n].start <= r < |qs[n].xs| && r != p ensures PlaceOf(bs, qs[n].table, r) != at {
        assert Writes(bs, qs, PlaceOf(bs, qs[n].table, r), n, r);
      }
      WriteItemAt(rest, bs, qs[n], |qs[n].xs| - qs[n].start, p);
    }
  }

  // ------------------------------------------------------------------ after the step

  lemma BatchUnique(net: Net, media: Media, cfg: Config, s: Sched, out: seq<Item>)
    requires SInv(cfg, s, out) && ItemsKnown(s, out)
    ensures WritesUnique(cfg.blockSize, BatchOf(net, media, s, out))
  {
    hide SInv, Writes, PendingAt;
    var bs, qs := cfg.blockSize, BatchOf(net, media, s, out);
    forall at: Place, k: nat, p: nat, k': nat, p': nat | Writes(bs, qs, at, k, p) && Writes(bs, qs, at, k', p')
      ensures k == k' && p == p'
    {
      WritesPending(net, media, cfg, s, out, at, k, p);
      WritesPending(net, media, cfg, s, out, at, k', p');
      PendingUnique(cfg, s, out, at.0, at.1, out[k].id, FloorDiv(p, bs), out[k'].id, FloorDiv(p', bs));
      SameItem(cfg, s, out, k, k');
    }
  }

  lemma SameItem(cfg: Config, s: Sched, out: seq<Item>, k: nat, k': nat)
    requires SInv(cfg, s, out) && k < |out| && k' < |out| && out[k].id == out[k'].id
    ensures k == k'
  {
    hide Filling, Statuses, Bounded, Arrivals, SlotCap, Lists, Rows, ItemOk;
  }

  /** A ready place carries its label once the batch is written, provided every position
      pending there wants that label. */
  lemma ReadyResolved(net: Net, media: Media, cfg: Config, s: Sched, out: seq<Item>, labels: Labels, b: BlockId, o: nat, want: seq<Row>)
    requires SInv(cfg, s, out) && ItemsKnown(s, out) && o < cfg.blockSize
    requires QueriesOk(cfg.blockSize, BatchOf(net, media, s, out))
    requires Ready(s, out, cfg.blockSize, labels, b, o, want)
    requires forall t: Id, j: nat :: PendingAt(s, out, cfg.blockSize, b, o, t, j) && t in s.reqs ==> Wants(net, media, s, cfg.blockSize, t, j, o, want)
    ensures HasLabel(WriteAll(labels, cfg.blockSize, BatchOf(net, media, s, out)), b, o, want)
  {
    hide SInv, Writes, PendingAt, RowsFor, WriteAll, QueryOk;
    var bs, qs := cfg.blockSize, BatchOf(net, media, s, out);
    if Pending(s, out, bs, b, o) {
      var t: Id, j: nat :| PendingAt(s, out, bs, b, o, t, j);
      var k := PendingWrites(net, media, cfg, s, out, b, o, t, j);
      BatchUnique(net, media, cfg, s, out);
      WriteAllAt(labels, bs, qs, (b, o), k, j * bs + o);
      PendingPrefix(net, media, cfg, s, out, b, o, t, j, k);
    } else {
      if Written(bs, qs, (b, o)) {
        var k: nat, p: nat :| Writes(bs, qs, (b, o), k, p);
        WritesPending(net, media, cfg, s, out, (b, o), k, p);
      }
      WriteAllElse(labels, bs, qs, (b, o));
    }
  }

  /** Request t's own prefix up to position j*bs+o is `want`. */
  ghost predicate Wants(net: Net, media: Media, s: Sched, bs: nat, t: Id, j: nat, o: nat, want: seq<Row>)
    requires t in s.reqs
  {
    j * bs + o + 1 <= |s.reqs[t].Tokens()| && RowsFor(net, media, t, s.reqs[t].Tokens())[..j * bs + o + 1] == want
  }

  lemma PendingPrefix(net: Net, media: Media, cfg: Config, s: Sched, out: seq<Item>, b: BlockId, o: nat, t: Id, j: nat, k: nat)
    requires SInv(cfg, s, out) && ItemsKnown(s, out) && k < |out| && out[k].id == t
    requires PendingAt(s, out, cfg.blockSize, b, o, t, j)
    ensures t in s.reqs && j * cfg.blockSize + o + 1 <= |s.reqs[t].Tokens()|
    ensures j * cfg.blockSize + o + 1 <= |BatchOf(net, media, s, out)[k].xs|
    ensures BatchOf(net, media, s, out)[k].xs[..j * cfg.blockSize + o + 1]
         == RowsFor(net, media, t, s.reqs[t].Tokens())[..j * cfg.blockSize + o + 1]
  {
    hide SInv, RowsFor;
    ItemFacts(cfg, s, out, k);
  }

  /** Every promise is kept: all positions covered so far, and all hashed blocks, hold their prefix. */
  ghost predicate RunSettled(net: Net, media: Media, s: Sched, out: seq<Item>, bs: nat, labels: Labels) {
    forall id, i: nat, o: nat :: id in s.running ==> RunSettledAt(net, media, s, out, bs, labels, id, i, o)
  }

  ghost predicate RunSettledAt(net: Net, media: Media, s: Sched, out: seq<Item>, bs: nat, labels: Labels, id: Id, i: nat, o: nat) {
    && id in s.reqs
    && (i < |TableOf(s.kv, id)| && o < bs && i * bs + o < Cover(s, out, id) && i * bs + o < |s.reqs[id].Tokens()| ==>
          HasLabel(labels, TableOf(s.kv, id)[i], o, RowsFor(net, media, id, s.reqs[id].Tokens())[..i * bs + o + 1]))
  }

  ghost predicate HashSettled(s: Sched, bs: nat, labels: Labels) {
    forall b: nat, o: nat :: HashSettledAt(s, bs, labels, b, o)
  }

  ghost predicate HashSettledAt(s: Sched, bs: nat, labels: Labels, b: BlockId, o: nat) {
    b < |s.kv.pool.hash| && s.kv.pool.hash[b] != NoHash && o < bs ==>
      HasLabel(labels, b, o, HashWant(labels.book, bs, s.kv.pool.hash[b], o))
  }

  lemma PendingIsReady(s: Sched, out: seq<Item>, bs: nat, labels: Labels, id: Id, i: nat, o: nat, want: seq<Row>)
    requires id in s.running && id in s.reqs && i < |TableOf(s.kv, id)|
    requires s.reqs[id].computed <= i * bs + o < Cover(s, out, id)
    ensures Ready(s, out, bs, labels, TableOf(s.kv, id)[i], o, want)
  {
    assert PendingAt(s, out, bs, TableOf(s.kv, id)[i], o, id, i);
  }

  lemma RunSettles(net: Net, media: Media, cfg: Config, s: Sched, out: seq<Item>, labels: Labels, id: Id, i: nat, o: nat)
    requires SInv(cfg, s, out) && LInv(net, media, cfg, s, out, labels) && ItemsKnown(s, out) && id in s.running
    requires QueriesOk(cfg.blockSize, BatchOf(net, media, s, out))
    ensures RunSettledAt(net, media, s, out, cfg.blockSize, WriteAll(labels, cfg.blockSize, BatchOf(net, media, s, out)), id, i, o)
  {
    hide SInv, PendingAt, RowsFor, WriteAll, QueryOk, BatchOf, HashReady, RunReady;
    var bs := cfg.blockSize;
    LInvRun(net, media, cfg, s, out, labels, id, i, o);
    if i < |TableOf(s.kv, id)| && o < bs && i * bs + o < Cover(s, out, id) && i * bs + o < |s.reqs[id].Tokens()| {
      var b, want := TableOf(s.kv, id)[i], RowsFor(net, media, id, s.reqs[id].Tokens())[..i * bs + o + 1];
      if s.reqs[id].computed <= i * bs + o {
        PendingIsReady(s, out, bs, labels, id, i, o, want);
      }
      forall t: Id, j: nat | PendingAt(s, out, bs, b, o, t, j) && t in s.reqs ensures Wants(net, media, s, bs, t, j, o, want) {
        PendingTable(s, out, bs, b, o, t, j);
        SameWant(net, media, labels.book, cfg, s, out, id, i, t, j, o);
      }
      ReadyResolved(net, media, cfg, s, out, labels, b, o, want);
    }
  }

  lemma PendingTable(s: Sched, out: seq<Item>, bs: nat, b: BlockId, o: nat, t: Id, j: nat)
    requires PendingAt(s, out, bs, b, o, t, j)
    ensures t in s.running && j < |TableOf(s.kv, t)| && TableOf(s.kv, t)[j] == b
  {
  }

  lemma LInvRun(net: Net, media: Media, cfg: Config, s: Sched, out: seq<Item>, labels: Labels, id: Id, i: nat, o: nat)
    requires LInv(net, media, cfg, s, out, labels) && id in s.running
    ensures RunReadyAt(net, media, s, out, cfg.blockSize, labels, id, i, o) && MediaOk(net, cfg.blockSize, s, media, labels.book)
  {
  }

  lemma HashSettles(net: Net, media: Media, cfg: Config, s: Sched, out: seq<Item>, labels: Labels, b: nat, o: nat)
    requires SInv(cfg, s, out) && LInv(net, media, cfg, s, out, labels) && ItemsKnown(s, out)
    requires QueriesOk(cfg.blockSize, BatchOf(net, media, s, out))
    ensures HashSettledAt(s, cfg.blockSize, WriteAll(labels, cfg.blockSize, BatchOf(net, media, s, out)), b, o)
  {
    hide SInv, PendingAt, RowsFor, WriteAll, QueryOk, BatchOf, RunReady, HashWant;
    var bs := cfg.blockSize;
    if b < |s.kv.pool.hash| && s.kv.pool.hash[b] != NoHash && o < bs {
      assert HashReadyAt(s, out, bs, labels, b, o);
      var want := HashWant(labels.book, bs, s.kv.pool.hash[b], o);
      forall t: Id, j: nat | PendingAt(s, out, bs, b, o, t, j) && t in s.reqs ensures Wants(net, media, s, bs, t, j, o, want) {
        HashPendingWant(net, media, labels.book, cfg, s, out, b, o, t, j);
      }
      ReadyResolved(net, media, cfg, s, out, labels, b, o, want);
    }
  }

  lemma HashPendingWant(net: Net, media: Media, book: Book, cfg: Config, s: Sched, out: seq<Item>, b: BlockId, o: nat, t: Id, j: nat)
    requires SInv(cfg, s, out) && MediaOk(net, cfg.blockSize, s, media, book) && o < cfg.blockSize && t in s.reqs
    requires PendingAt(s, out, cfg.blockSize, b, o, t, j) && b < |s.kv.pool.hash| && s.kv.pool.hash[b] != NoHash
    ensures Wants(net, media, s, cfg.blockSize, t, j, o, HashWant(book, cfg.blockSize, s.kv.pool.hash[b], o))
  {
    hide SInv, HashWant, Inputs, TableOk, Chain, Respects;
    PendingTable(s, out, cfg.blockSize, b, o, t, j);
    TableOfRunning(cfg, s, out, t);
    RegisteredChain(s.kv, cfg.blockSize, t, s.reqs[t].Tokens(), Cover(s, out, t), j);
    TokensFromPrompt(s.reqs[t]);
    HashWantIs(net, book, cfg.blockSize, EmbedsOf(media, t), s.reqs[t].prompt, s.reqs[t].Tokens(), j, o);
  }

  /** After the batch is written, every covered position of every running request and every
      hashed block holds exactly the prefix it stands for. */
  lemma StepSettles(net: Net, media: Media, cfg: Config, s: Sched, out: seq<Item>, labels: Labels)
    requires SInv(cfg, s, out) && LInv(net, media, cfg, s, out, labels)
    ensures ItemsKnown(s, out) && QueriesOk(cfg.blockSize, BatchOf(net, media, s, out))
    ensures var labels' := WriteAll(labels, cfg.blockSize, BatchOf(net, media, s, out));
      RunSettled(net, media, s, out, cfg.blockSize, labels') && HashSettled(s, cfg.blockSize, labels')
  {
    hide SInv, LInv, RunSettledAt, HashSettledAt, WriteAll, BatchOf, QueryOk;
    BatchQueries(net, media, cfg, s, out);
    var labels' := WriteAll(labels, cfg.blockSize, BatchOf(net, media, s, out));
    forall id, i: nat, o: nat | id in s.running ensures RunSettledAt(net, media, s, out, cfg.blockSize, labels', id, i, o) {
      RunSettles(net, media, cfg, s, out, labels, id, i, o);
    }
    forall b: nat, o: nat ensures HashSettledAt(s, cfg.blockSize, labels', b, o) {
      HashSettles(net, media, cfg, s, out, labels, b, o);
    }
  }
}
