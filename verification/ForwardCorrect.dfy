/** One flat forward over a mixed batch computes, for every request, exactly what the
    request's own causal forward over a contiguous cache computes. */
module ForwardCorrect {
  import opened Util
  import opened Hashing
  import opened BlockPoolSpec
  import opened Model
  import opened Flat
  import opened Attention

  /** One request's share of a batch: its input rows so far, of which positions from
      `start` on are computed in this step. */
  datatype Query = Query(start: nat, xs: seq<Row>, table: seq<BlockId>)

  /** A physical position: block and offset. */
  type Place = (BlockId, nat)

  /** The input rows that a prefix of full blocks, known by its token ids, stands for. */
  type Book = seq<Token> -> seq<Row>

  /** Which input prefix each written place belongs to, and the book hashes are read with. */
  datatype Labels = Labels(held: map<Place, seq<Row>>, book: Book)

  ghost predicate QueryOk(bs: nat, q: Query) {
    bs > 0 && q.start < |q.xs| && Covers(bs, q.table, |q.xs|)
  }

  ghost predicate QueriesOk(bs: nat, qs: seq<Query>) {
    bs > 0 && forall k :: 0 <= k < |qs| ==> QueryOk(bs, qs[k])
  }

  function PlaceOf(bs: nat, table: seq<BlockId>, p: nat): Place
    requires bs > 0 && FloorDiv(p, bs) < |table|
  {
    (table[FloorDiv(p, bs)], p % bs)
  }

  function QueryLens(bs: nat, qs: seq<Query>): (r: seq<nat>)
    requires QueriesOk(bs, qs)
  {
    seq(|qs|, k requires 0 <= k < |qs| => assert QueryOk(bs, qs[k]); |qs[k].xs| - qs[k].start)
  }

  function SeqLens(qs: seq<Query>): seq<nat> {
    seq(|qs|, k requires 0 <= k < |qs| => |qs[k].xs|)
  }

  function Tables(qs: seq<Query>): seq<seq<BlockId>> {
    seq(|qs|, k requires 0 <= k < |qs| => qs[k].table)
  }

  lemma QueriesBatchOk(bs: nat, qs: seq<Query>)
    requires QueriesOk(bs, qs)
    ensures BatchOk(bs, QueryLens(bs, qs), SeqLens(qs), Tables(qs))
  {
    forall k | 0 <= k < |qs| ensures QueryLens(bs, qs)[k] <= SeqLens(qs)[k] && Covers(bs, Tables(qs)[k], SeqLens(qs)[k]) {
      assert QueryOk(bs, qs[k]);
    }
  }

  /** Hidden rows of one request's chunk after l layers of its own causal forward. */
  ghost function OwnRows(net: Net, l: nat, q: Query): (r: seq<Row>)
    requires q.start <= |q.xs|
    ensures |r| == |q.xs| - q.start
  {
    seq(|q.xs| - q.start, j requires 0 <= j < |q.xs| - q.start => Hidden(net, l, q.xs[..q.start + j + 1]))
  }

  ghost function AllOwnRows(net: Net, l: nat, bs: nat, qs: seq<Query>): (r: seq<seq<Row>>)
    requires QueriesOk(bs, qs)
    ensures |r| == |qs|
  {
    seq(|qs|, k requires 0 <= k < |qs| => assert QueryOk(bs, qs[k]); OwnRows(net, l, qs[k]))
  }

  function Positions(bs: nat, qs: seq<Query>): (r: seq<seq<nat>>)
    requires QueriesOk(bs, qs)
    ensures |r| == |qs|
  {
    seq(|qs|, k requires 0 <= k < |qs| =>
      assert QueryOk(bs, qs[k]); seq(|qs[k].xs| - qs[k].start, j requires 0 <= j < |qs[k].xs| - qs[k].start => qs[k].start + j))
  }

  // ------------------------------------------------------------------ labels

  /** Every labelled place of the layer's cache holds the value of its prefix. */
  ghost predicate Clean(net: Net, l: nat, cache: seq<KVal>, bs: nat, labels: Labels) {
    forall at :: at in labels.held ==> CleanAt(net, l, cache, bs, labels, at)
  }

  ghost predicate CleanAt(net: Net, l: nat, cache: seq<KVal>, bs: nat, labels: Labels, at: Place)
    requires at in labels.held
  {
    && at.1 < bs && at.0 * bs + at.1 < |cache|
    && labels.held[at] != [] && cache[at.0 * bs + at.1] == Value(net, l, labels.held[at])
  }

  ghost predicate Labelled(labels: Labels, bs: nat, q: Query, p: nat) {
    && bs > 0 && p < |q.xs| && FloorDiv(p, bs) < |q.table|
    && PlaceOf(bs, q.table, p) in labels.held && labels.held[PlaceOf(bs, q.table, p)] == q.xs[..p + 1]
  }

  /** Position p of request k is computed in this step and lives at `at`. */
  ghost predicate Writes(bs: nat, qs: seq<Query>, at: Place, k: nat, p: nat) {
    && k < |qs| && bs > 0 && qs[k].start <= p < |qs[k].xs| && FloorDiv(p, bs) < |qs[k].table|
    && at == PlaceOf(bs, qs[k].table, p)
  }

  ghost predicate Written(bs: nat, qs: seq<Query>, at: Place) {
    exists k: nat, p: nat :: Writes(bs, qs, at, k, p)
  }

  /** labels' is labels with the batch's own positions rewritten, and gives every position
      of every request in the batch its own prefix. */
  ghost predicate Relabelled(labels: Labels, labels': Labels, bs: nat, qs: seq<Query>) {
    && (forall k, p :: 0 <= k < |qs| && 0 <= p < |qs[k].xs| ==> Labelled(labels', bs, qs[k], p))
    && (forall at :: at in labels'.held ==> Written(bs, qs, at) || (at in labels.held && labels'.held[at] == labels.held[at]))
    && (forall at :: at in labels'.held ==> at.1 < bs)
  }

  // ------------------------------------------------------------------ scatter and gather

  lemma {:induction false} ScatterAt(cache: seq<KVal>, slots: seq<nat>, vals: seq<KVal>, i: nat)
    requires |slots| == |vals| && (forall j :: 0 <= j < |slots| ==> slots[j] < |cache|)
    requires Distinct(slots) && i < |slots|
    ensures Scatter(cache, slots, vals)[slots[i]] == vals[i]
    decreases |slots|
  {
    var n := |slots| - 1;
    if i < n {
      assert slots[i] != slots[n];
      ScatterAt(cache, slots[..n], vals[..n], i);
    }
  }

  lemma {:induction false} ScatterElse(cache: seq<KVal>, slots: seq<nat>, vals: seq<KVal>, x: nat)
    requires |slots| == |vals| && (forall j :: 0 <= j < |slots| ==> slots[j] < |cache|)
    requires x < |cache| && x !in slots
    ensures Scatter(cache, slots, vals)[x] == cache[x]
    decreases |slots|
  {
    if slots != [] {
      var n := |slots| - 1;
      assert slots[n] in slots;
      assert forall y :: y in slots[..n] ==> y in slots;
      ScatterElse(cache, slots[..n], vals[..n], x);
    }
  }

  /** With distinct slots, the order of the writes does not matter. */
  lemma SlotInjective(bs: nat, a: nat, o: nat, b: nat, q: nat)
    requires o < bs && q < bs && a * bs + o == b * bs + q
    ensures a == b && o == q
  {
    DivModUnique(a, o, bs);
    DivModUnique(b, q, bs);
  }

  lemma {:induction false} SelectPrefix(vals: seq<KVal>, row: seq<bool>, c: nat)
    requires |row| == |vals| && forall j :: 0 <= j < |row| ==> (row[j] <==> j < c)
    ensures Select(vals, row) == vals[..if c < |vals| then c else |vals|]
  {
    if vals != [] {
      var n := |vals| - 1;
      SelectPrefix(vals[..n], row[..n], c);
      if c > n {
        assert vals == vals[..n] + [vals[n]];
      }
    }
  }

  /** Query i sees exactly the positions up to its own: sLen - qLen + i. */
  lemma VisibleIsPrefix(vals: seq<KVal>, qLen: nat, i: nat)
    requires i < qLen <= |vals|
    ensures MaskOk(Mask(qLen, |vals|), qLen, |vals|)
    ensures Visible(vals, Mask(qLen, |vals|), qLen, i) == vals[..|vals| - qLen + i + 1]
  {
    var c := |vals| - qLen + i + 1;
    if qLen == |vals| {
      if qLen == 1 { assert vals[..1] == vals; }
    } else {
      SelectPrefix(vals, Mask(qLen, |vals|).value[i], c);
    }
  }

  function Meta(bs: nat, qs: seq<Query>): SdpaMeta
    requires QueriesOk(bs, qs)
  {
    QueriesBatchOk(bs, qs);
    Metadata(bs, QueryLens(bs, qs), SeqLens(qs), Tables(qs))
  }

  function Tails(bs: nat, qs: seq<Query>): (r: seq<seq<nat>>)
    requires QueriesOk(bs, qs)
    ensures |r| == |qs|
  {
    QueriesBatchOk(bs, qs);
    TailSlots(bs, QueryLens(bs, qs), SeqLens(qs), Tables(qs))
  }

  lemma TailAt(bs: nat, qs: seq<Query>, k: nat, p: nat)
    requires QueriesOk(bs, qs) && k < |qs| && qs[k].start <= p < |qs[k].xs|
    ensures QueryOk(bs, qs[k]) && FloorDiv(p, bs) < |qs[k].table|
    ensures |Tails(bs, qs)[k]| == |qs[k].xs| - qs[k].start
    ensures Tails(bs, qs)[k][p - qs[k].start] == SlotOf(bs, qs[k].table, p)
  {
    assert QueryOk(bs, qs[k]);
    QueriesBatchOk(bs, qs);
    var slots := Slots(bs, qs[k].table, |qs[k].xs|);
    assert Tails(bs, qs)[k] == slots[qs[k].start..];
    assert slots[qs[k].start..][p - qs[k].start] == slots[p];
  }

  lemma TailLengths(bs: nat, qs: seq<Query>, k: nat)
    requires QueriesOk(bs, qs) && k < |qs|
    ensures QueryOk(bs, qs[k]) && |Tails(bs, qs)[k]| == |qs[k].xs| - qs[k].start
  {
    assert QueryOk(bs, qs[k]);
    TailAt(bs, qs, k, qs[k].start);
  }

  /** The batch's slot mapping. */
  function AllSlots(bs: nat, qs: seq<Query>): seq<nat>
    requires QueriesOk(bs, qs)
  {
    Concat(Tails(bs, qs))
  }

  /** The layer's inputs: every flat row is its request's own row, at its own position. */
  ghost predicate LayerInput(net: Net, l: nat, bs: nat, qs: seq<Query>, hidden: seq<Row>, pos: seq<nat>)
    requires QueriesOk(bs, qs)
  {
    hidden == Concat(AllOwnRows(net, l, bs, qs)) && pos == Concat(Positions(bs, qs))
  }

  ghost predicate SameShape<S, T, U>(a: seq<seq<S>>, b: seq<seq<T>>, c: seq<seq<U>>) {
    |a| == |b| == |c| && forall k :: 0 <= k < |a| ==> |a[k]| == |b[k]| == |c[k]|
  }

  lemma RowShapes(net: Net, l: nat, bs: nat, qs: seq<Query>)
    requires QueriesOk(bs, qs)
    ensures SameShape(AllOwnRows(net, l, bs, qs), Positions(bs, qs), Tails(bs, qs))
  {
    hide Tails;
    forall k | 0 <= k < |qs|
      ensures |AllOwnRows(net, l, bs, qs)[k]| == |Positions(bs, qs)[k]| == |Tails(bs, qs)[k]|
    {
      TailLengths(bs, qs, k);
    }
  }

  lemma InputShape(net: Net, l: nat, bs: nat, qs: seq<Query>, hidden: seq<Row>, pos: seq<nat>)
    requires QueriesOk(bs, qs) && LayerInput(net, l, bs, qs, hidden, pos)
    ensures |hidden| == |pos| == |AllSlots(bs, qs)|
  {
    hide Tails, Positions, AllOwnRows;
    RowShapes(net, l, bs, qs);
    ConcatLength(AllOwnRows(net, l, bs, qs), Tails(bs, qs));
    ConcatLength(Positions(bs, qs), Tails(bs, qs));
  }

  lemma RowEntries(net: Net, l: nat, bs: nat, qs: seq<Query>, k: nat, p: nat)
    requires QueriesOk(bs, qs) && k < |qs| && qs[k].start <= p < |qs[k].xs|
    ensures var j := p - qs[k].start; var hs := AllOwnRows(net, l, bs, qs); var ps := Positions(bs, qs);
      j < |hs[k]| && j < |ps[k]| && hs[k][j] == Hidden(net, l, qs[k].xs[..p + 1]) && ps[k][j] == p
  {
    assert QueryOk(bs, qs[k]);
  }

  lemma SameOffsets<S, T, U>(hs: seq<seq<S>>, ps: seq<seq<T>>, ts: seq<seq<U>>, k: nat, j: nat) returns (i: nat)
    requires SameShape(hs, ps, ts) && k < |hs| && j < |hs[k]|
    ensures i < |Concat(hs)| && i < |Concat(ps)| && i < |Concat(ts)|
    ensures Concat(hs)[i] == hs[k][j] && Concat(ps)[i] == ps[k][j] && Concat(ts)[i] == ts[k][j]
  {
    OffsetSame(hs, ts, k);
    OffsetSame(ps, ts, k);
    ConcatAt(hs, k, j);
    ConcatAt(ps, k, j);
    ConcatAt(ts, k, j);
    i := Offset(ts, k) + j;
  }

  /** Flat row of position p of request k. */
  lemma FlatAt(net: Net, l: nat, bs: nat, qs: seq<Query>, hidden: seq<Row>, pos: seq<nat>, k: nat, p: nat) returns (i: nat)
    requires QueriesOk(bs, qs) && LayerInput(net, l, bs, qs, hidden, pos)
    requires k < |qs| && qs[k].start <= p < |qs[k].xs|
    ensures i < |hidden| && i < |pos| && i < |AllSlots(bs, qs)|
    ensures hidden[i] == Hidden(net, l, qs[k].xs[..p + 1]) && pos[i] == p
    ensures FloorDiv(p, bs) < |qs[k].table| && AllSlots(bs, qs)[i] == SlotOf(bs, qs[k].table, p)
  {
    hide Tails, Positions, AllOwnRows, Hidden, SlotOf, QueriesOk, Concat, FloorDiv;
    RowShapes(net, l, bs, qs);
    TailAt(bs, qs, k, p);
    RowEntries(net, l, bs, qs, k, p);
    i := SameOffsets(AllOwnRows(net, l, bs, qs), Positions(bs, qs), Tails(bs, qs), k, p - qs[k].start);
  }

  /** A slot written in this step belongs to some request's own position. */
  lemma SlotOwner(bs: nat, qs: seq<Query>, at: Place)
    requires QueriesOk(bs, qs) && at.1 < bs && at.0 * bs + at.1 in AllSlots(bs, qs)
    ensures Written(bs, qs, at)
  {
    var ts := Tails(bs, qs);
    var i :| 0 <= i < |Concat(ts)| && Concat(ts)[i] == at.0 * bs + at.1;
    var k, j := Locate(ts, i);
    TailLengths(bs, qs, k);
    var p := qs[k].start + j;
    TailAt(bs, qs, k, p);
    SlotInjective(bs, qs[k].table[FloorDiv(p, bs)], p % bs, at.0, at.1);
    assert Writes(bs, qs, at, k, p);
  }

  /** Slots of the whole batch inside the cache, each written once. */
  ghost predicate SlotsOk(bs: nat, qs: seq<Query>, cacheLen: nat)
    requires QueriesOk(bs, qs)
  {
    && Distinct(AllSlots(bs, qs))
    && (forall i :: 0 <= i < |AllSlots(bs, qs)| ==> AllSlots(bs, qs)[i] < cacheLen)
  }

  lemma ScatterWritten(net: Net, l: nat, bs: nat, qs: seq<Query>, hidden: seq<Row>, pos: seq<nat>,
                       cache: seq<KVal>, k: nat, p: nat)
    requires QueriesOk(bs, qs) && LayerInput(net, l, bs, qs, hidden, pos) && SlotsOk(bs, qs, |cache|)
    requires |hidden| == |pos| == |AllSlots(bs, qs)|
    requires k < |qs| && qs[k].start <= p < |qs[k].xs|
    ensures FloorDiv(p, bs) < |qs[k].table| && SlotOf(bs, qs[k].table, p) < |cache|
    ensures Scatter(cache, AllSlots(bs, qs), Projected(net, l, hidden, pos))[SlotOf(bs, qs[k].table, p)]
         == Value(net, l, qs[k].xs[..p + 1])
  {
    hide AllSlots, QueryOk, Value, Hidden, SlotOf, Scatter, FloorDiv, LayerInput;
    var i := FlatAt(net, l, bs, qs, hidden, pos, k, p);
    ScatterAt(cache, AllSlots(bs, qs), Projected(net, l, hidden, pos), i);
    ValueIs(net, l, qs[k].xs[..p + 1]);
  }

  lemma ScatterUnwritten(net: Net, l: nat, bs: nat, qs: seq<Query>, hidden: seq<Row>, pos: seq<nat>, cache: seq<KVal>, at: Place)
    requires QueriesOk(bs, qs) && SlotsOk(bs, qs, |cache|) && |hidden| == |pos| == |AllSlots(bs, qs)|
    requires at.1 < bs && at.0 * bs + at.1 < |cache| && !Written(bs, qs, at)
    ensures Scatter(cache, AllSlots(bs, qs), Projected(net, l, hidden, pos))[at.0 * bs + at.1] == cache[at.0 * bs + at.1]
  {
    hide AllSlots, Scatter, Written, QueriesOk;
    if at.0 * bs + at.1 in AllSlots(bs, qs) { SlotOwner(bs, qs, at); }
    ScatterElse(cache, AllSlots(bs, qs), Projected(net, l, hidden, pos), at.0 * bs + at.1);
  }

  lemma ScatterCleanAt(net: Net, l: nat, bs: nat, qs: seq<Query>, hidden: seq<Row>, pos: seq<nat>,
                       cache: seq<KVal>, labels: Labels, labels': Labels, at: Place)
    requires QueriesOk(bs, qs) && LayerInput(net, l, bs, qs, hidden, pos) && SlotsOk(bs, qs, |cache|)
    requires Clean(net, l, cache, bs, labels) && Relabelled(labels, labels', bs, qs) && at in labels'.held
    requires |hidden| == |pos| == |AllSlots(bs, qs)|
    ensures CleanAt(net, l, Scatter(cache, AllSlots(bs, qs), Projected(net, l, hidden, pos)), bs, labels', at)
  {
    hide AllSlots, LayerInput, QueryOk, Value, Scatter, QueriesOk, SlotsOk, Projected;
    ProjectedFits(bs, qs, |cache|);
    if Written(bs, qs, at) {
      var k: nat, p: nat :| Writes(bs, qs, at, k, p);
      ScatterWritten(net, l, bs, qs, hidden, pos, cache, k, p);
      assert Labelled(labels', bs, qs[k], p);
    } else {
      assert CleanAt(net, l, cache, bs, labels, at);
      ScatterUnwritten(net, l, bs, qs, hidden, pos, cache, at);
    }
  }

  lemma ProjectedFits(bs: nat, qs: seq<Query>, cacheLen: nat)
    requires QueriesOk(bs, qs) && SlotsOk(bs, qs, cacheLen)
    ensures forall i :: 0 <= i < |AllSlots(bs, qs)| ==> AllSlots(bs, qs)[i] < cacheLen
  {
  }

  lemma ValueIs(net: Net, l: nat, xs: seq<Row>)
    requires xs != []
    ensures Value(net, l, xs) == net.project(l, Hidden(net, l, xs), |xs| - 1)
  {
  }

  /** Gathering through the table yields the request's own past. */
  lemma GatherIsPast(net: Net, l: nat, bs: nat, q: Query, cache: seq<KVal>, labels: Labels)
    requires QueryOk(bs, q) && Clean(net, l, cache, bs, labels)
    requires forall p :: 0 <= p < |q.xs| ==> Labelled(labels, bs, q, p)
    ensures forall p :: 0 <= p < |q.xs| ==> Slots(bs, q.table, |q.xs|)[p] < |cache|
    ensures Gather(cache, Slots(bs, q.table, |q.xs|)) == Past(net, l, q.xs)
  {
    hide Value;
    var slots := Slots(bs, q.table, |q.xs|);
    forall p | 0 <= p < |q.xs| ensures slots[p] < |cache| && cache[slots[p]] == Value(net, l, q.xs[..p + 1]) {
      assert Labelled(labels, bs, q, p);
      assert CleanAt(net, l, cache, bs, labels, PlaceOf(bs, q.table, p));
    }
  }

  lemma PastPrefix(net: Net, l: nat, xs: seq<Row>, n: nat)
    requires n <= |xs|
    ensures Past(net, l, xs)[..n] == Past(net, l, xs[..n])
  {
    hide Value;
    forall p | 0 <= p < n ensures Past(net, l, xs)[p] == Past(net, l, xs[..n])[p] {
      assert xs[..n][..p + 1] == xs[..p + 1];
    }
  }

  lemma HiddenStep(net: Net, l: nat, xs: seq<Row>)
    requires xs != []
    ensures Hidden(net, l + 1, xs) == net.attend(l, Hidden(net, l, xs), |xs| - 1, Past(net, l, xs))
  {
  }

  /** One request's rows of one layer. */
  lemma RowsCorrect(net: Net, l: nat, bs: nat, q: Query, cache: seq<KVal>, labels: Labels)
    requires QueryOk(bs, q) && Clean(net, l, cache, bs, labels)
    requires forall p :: 0 <= p < |q.xs| ==> Labelled(labels, bs, q, p)
    ensures forall p :: 0 <= p < |q.xs| ==> Slots(bs, q.table, |q.xs|)[p] < |cache|
    ensures var n := |q.xs| - q.start;
      var kv := Gather(cache, Slots(bs, q.table, |q.xs|));
      && MaskOk(Mask(n, |q.xs|), n, |kv|)
      && AttendRows(net, l, OwnRows(net, l, q), seq(n, j requires 0 <= j < n => q.start + j), kv, Mask(n, |q.xs|))
         == OwnRows(net, l + 1, q)
  {
    hide Value, Hidden, Visible, Mask, Labelled, Clean, Select, Gather;
    GatherIsPast(net, l, bs, q, cache, labels);
    var n := |q.xs| - q.start;
    var past := Past(net, l, q.xs);
    VisibleIsPrefix(past, n, 0);
    forall i | 0 <= i < n
      ensures Visible(past, Mask(n, |q.xs|), n, i) == Past(net, l, q.xs[..q.start + i + 1])
      ensures net.attend(l, Hidden(net, l, q.xs[..q.start + i + 1]), q.start + i, Past(net, l, q.xs[..q.start + i + 1]))
           == Hidden(net, l + 1, q.xs[..q.start + i + 1])
    {
      VisibleIsPrefix(past, n, i);
      PastPrefix(net, l, q.xs, q.start + i + 1);
      HiddenStep(net, l, q.xs[..q.start + i + 1]);
    }
  }

  // ------------------------------------------------------------------ layers

  ghost predicate LensOf<T>(lens: seq<nat>, ss: seq<seq<T>>) {
    |lens| == |ss| && forall i :: 0 <= i < |ss| ==> |ss[i]| == lens[i]
  }

  lemma {:induction false} StartIsOffset<T>(lens: seq<nat>, ss: seq<seq<T>>, k: nat)
    requires LensOf(lens, ss) && k <= |ss|
    ensures Start(lens, k) == Offset(ss, k)
    decreases k
  {
    if k > 0 {
      StartIsOffset(lens, ss, k - 1);
      OffsetStep(ss, k - 1);
    }
  }

  lemma SliceAt<T>(lens: seq<nat>, ss: seq<seq<T>>, k: nat)
    requires LensOf(lens, ss) && k < |ss|
    ensures Start(lens, k) + lens[k] <= |Concat(ss)|
    ensures Concat(ss)[Start(lens, k)..Start(lens, k) + lens[k]] == ss[k]
  {
    StartIsOffset(lens, ss, k);
    ConcatSlice(ss, k);
  }

  lemma BatchLens(net: Net, l: nat, bs: nat, qs: seq<Query>)
    requires QueriesOk(bs, qs)
    ensures LensOf(QueryLens(bs, qs), AllOwnRows(net, l, bs, qs)) && LensOf(QueryLens(bs, qs), Positions(bs, qs))
  {
    forall i | 0 <= i < |qs|
      ensures |AllOwnRows(net, l, bs, qs)[i]| == QueryLens(bs, qs)[i] == |Positions(bs, qs)[i]|
    {
      assert QueryOk(bs, qs[i]);
    }
  }

  lemma RowsAt(net: Net, l: nat, bs: nat, qs: seq<Query>, k: nat)
    requires QueriesOk(bs, qs) && k < |qs|
    ensures QueryOk(bs, qs[k])
    ensures QueryLens(bs, qs)[k] == |qs[k].xs| - qs[k].start
    ensures AllOwnRows(net, l, bs, qs)[k] == OwnRows(net, l, qs[k])
    ensures Positions(bs, qs)[k] == seq(|qs[k].xs| - qs[k].start, j requires 0 <= j < |qs[k].xs| - qs[k].start => qs[k].start + j)
  {
    assert QueryOk(bs, qs[k]);
  }

  /** The slice of the flat batch that belongs to request k. */
  lemma FlatSlice(net: Net, l: nat, bs: nat, qs: seq<Query>, hidden: seq<Row>, pos: seq<nat>, k: nat)
    requires QueriesOk(bs, qs) && LayerInput(net, l, bs, qs, hidden, pos) && k < |qs|
    ensures QueryOk(bs, qs[k])
    ensures var a := Start(QueryLens(bs, qs), k); var n := |qs[k].xs| - qs[k].start;
      && QueryLens(bs, qs)[k] == n
      && a + n <= |hidden| && a + n <= |pos|
      && hidden[a..a + n] == OwnRows(net, l, qs[k])
      && pos[a..a + n] == seq(n, j requires 0 <= j < n => qs[k].start + j)
  {
    hide Concat, Hidden, AllOwnRows, Positions, QueryLens, Start, QueriesOk, OwnRows;
    RowsAt(net, l, bs, qs, k);
    BatchLens(net, l, bs, qs);
    SliceAt(QueryLens(bs, qs), AllOwnRows(net, l, bs, qs), k);
    SliceAt(QueryLens(bs, qs), Positions(bs, qs), k);
  }

  lemma BatchMetaOk(net: Net, l: nat, bs: nat, qs: seq<Query>, hidden: seq<Row>, pos: seq<nat>, cacheLen: nat)
    requires QueriesOk(bs, qs) && LayerInput(net, l, bs, qs, hidden, pos) && SlotsOk(bs, qs, cacheLen)
    requires forall k, p :: 0 <= k < |qs| && 0 <= p < |qs[k].xs| ==> SlotInside(bs, qs[k].table, p, cacheLen)
    ensures |hidden| == |pos| && MetaOk(Meta(bs, qs), |hidden|, cacheLen)
  {
    hide Hidden, SlotOf, Distinct;
    var m := Meta(bs, qs);
    InputShape(net, l, bs, qs, hidden, pos);
    BatchLens(net, l, bs, qs);
    StartIsOffset(QueryLens(bs, qs), AllOwnRows(net, l, bs, qs), |qs|);
    assert AllOwnRows(net, l, bs, qs)[..|qs|] == AllOwnRows(net, l, bs, qs);
    forall k | 0 <= k < |qs| ensures RequestMetaOk(m, k, |hidden|, cacheLen) {
      RequestMeta(net, l, bs, qs, hidden, pos, cacheLen, k);
    }
  }

  ghost predicate SlotInside(bs: nat, table: seq<BlockId>, p: nat, cacheLen: nat) {
    bs > 0 && FloorDiv(p, bs) < |table| && SlotOf(bs, table, p) < cacheLen
  }

  lemma RequestMeta(net: Net, l: nat, bs: nat, qs: seq<Query>, hidden: seq<Row>, pos: seq<nat>, cacheLen: nat, k: nat)
    requires QueriesOk(bs, qs) && LayerInput(net, l, bs, qs, hidden, pos) && k < |qs|
    requires forall p :: 0 <= p < |qs[k].xs| ==> SlotInside(bs, qs[k].table, p, cacheLen)
    ensures RequestMetaOk(Meta(bs, qs), k, |hidden|, cacheLen)
    ensures Meta(bs, qs).seqSlots[k] == Slots(bs, qs[k].table, |qs[k].xs|)
    ensures Meta(bs, qs).masks[k] == Mask(|qs[k].xs| - qs[k].start, |qs[k].xs|)
    ensures Meta(bs, qs).queryLens == QueryLens(bs, qs)
  {
    hide Concat, Hidden, SlotOf, Select;
    FlatSlice(net, l, bs, qs, hidden, pos, k);
    QueriesBatchOk(bs, qs);
    MaskShape(|qs[k].xs| - qs[k].start, |qs[k].xs|);
    var slots := Slots(bs, qs[k].table, |qs[k].xs|);
    forall i | 0 <= i < |slots| ensures slots[i] < cacheLen { assert SlotInside(bs, qs[k].table, i, cacheLen); }
  }

  lemma MaskShape(qLen: nat, sLen: nat)
    requires qLen <= sLen
    ensures MaskOk(Mask(qLen, sLen), qLen, sLen)
  {
  }

  /** Rows of the first k requests after the layer are their own rows. */
  lemma {:induction false} LayerRowsCorrect(net: Net, l: nat, bs: nat, qs: seq<Query>, hidden: seq<Row>, pos: seq<nat>,
                                            cache: seq<KVal>, labels: Labels, k: nat)
    requires QueriesOk(bs, qs) && LayerInput(net, l, bs, qs, hidden, pos) && k <= |qs|
    requires |hidden| == |pos| && MetaOk(Meta(bs, qs), |hidden|, |cache|) && Meta(bs, qs).queryLens == QueryLens(bs, qs)
    requires Clean(net, l, cache, bs, labels)
    requires forall k, p :: 0 <= k < |qs| && 0 <= p < |qs[k].xs| ==> Labelled(labels, bs, qs[k], p)
    requires forall k, p :: 0 <= k < |qs| && 0 <= p < |qs[k].xs| ==> SlotInside(bs, qs[k].table, p, |cache|)
    ensures LayerRows(net, l, hidden, pos, cache, Meta(bs, qs), k) == Concat(AllOwnRows(net, l + 1, bs, qs)[..k])
    decreases k
  {
    hide Clean, Labelled, SlotInside, MetaOk, Meta, Hidden, AttendRows, Gather, LayerInput, RequestMetaOk, QueryOk,
         Start, Concat, AllOwnRows, OwnRows, LayerRows, MaskOk, Mask, Slots, Visible, QueryLens, QueriesOk;
    MetaSlots(bs, qs);
    LayerRowsNone(net, l, hidden, pos, cache, Meta(bs, qs));
    ConcatNone(AllOwnRows(net, l + 1, bs, qs));
    if k > 0 {
      LayerRowsCorrect(net, l, bs, qs, hidden, pos, cache, labels, k - 1);
      LayerRowsNext(net, l, bs, qs, hidden, pos, cache, labels, k - 1);
      ConcatSnoc(AllOwnRows(net, l + 1, bs, qs), k - 1);
    }
  }

  /** Request k's rows after the layer. */
  lemma LayerRowsNext(net: Net, l: nat, bs: nat, qs: seq<Query>, hidden: seq<Row>, pos: seq<nat>, cache: seq<KVal>, labels: Labels, k: nat)
    requires QueriesOk(bs, qs) && LayerInput(net, l, bs, qs, hidden, pos) && k < |qs|
    requires |hidden| == |pos| && MetaOk(Meta(bs, qs), |hidden|, |cache|) && Meta(bs, qs).queryLens == QueryLens(bs, qs)
    requires Clean(net, l, cache, bs, labels)
    requires forall k, p :: 0 <= k < |qs| && 0 <= p < |qs[k].xs| ==> Labelled(labels, bs, qs[k], p)
    requires forall k, p :: 0 <= k < |qs| && 0 <= p < |qs[k].xs| ==> SlotInside(bs, qs[k].table, p, |cache|)
    ensures LayerRows(net, l, hidden, pos, cache, Meta(bs, qs), k + 1)
         == LayerRows(net, l, hidden, pos, cache, Meta(bs, qs), k) + AllOwnRows(net, l + 1, bs, qs)[k]
  {
    hide Clean, Labelled, SlotInside, MetaOk, Meta, Hidden, AttendRows, Gather, LayerInput, RequestMetaOk, QueryOk,
         Start, Concat, AllOwnRows, OwnRows, LayerRows, MaskOk, Mask, Slots, Visible, QueryLens, QueriesOk;
    MetaSlots(bs, qs);
    LayerRowsStep(net, l, hidden, pos, cache, Meta(bs, qs), k);
    FlatSlice(net, l, bs, qs, hidden, pos, k);
    RequestMeta(net, l, bs, qs, hidden, pos, |cache|, k);
    RowsCorrect(net, l, bs, qs[k], cache, labels);
    RowsAt(net, l + 1, bs, qs, k);
  }

  lemma LayerRowsNone(net: Net, l: nat, hidden: seq<Row>, pos: seq<nat>, cache: seq<KVal>, m: SdpaMeta)
    requires |hidden| == |pos| && MetaOk(m, |hidden|, |cache|)
    ensures LayerRows(net, l, hidden, pos, cache, m, 0) == []
  {
  }

  lemma ConcatNone<T>(ss: seq<seq<T>>)
    ensures Concat(ss[..0]) == []
  {
  }

  /** One layer: the cache ends up clean for the new labels, and every row is its own request's. */
  lemma LayerCorrect(net: Net, l: nat, bs: nat, qs: seq<Query>, hidden: seq<Row>, pos: seq<nat>,
                     cache: seq<KVal>, labels: Labels, labels': Labels)
    requires QueriesOk(bs, qs) && LayerInput(net, l, bs, qs, hidden, pos) && SlotsOk(bs, qs, |cache|)
    requires forall k, p :: 0 <= k < |qs| && 0 <= p < |qs[k].xs| ==> SlotInside(bs, qs[k].table, p, |cache|)
    requires Clean(net, l, cache, bs, labels) && Relabelled(labels, labels', bs, qs)
    ensures |hidden| == |pos| && MetaOk(Meta(bs, qs), |hidden|, |cache|)
    ensures var r := Layer(net, l, hidden, pos, cache, Meta(bs, qs));
      && Clean(net, l, r.0, bs, labels')
      && LayerInput(net, l + 1, bs, qs, r.1, pos)
  {
    hide Hidden, AttendRows, Gather, Scatter, QueryOk, CleanAt, SlotInside, Value, Meta, AllSlots, MetaOk, AllOwnRows, LayerRows;
    BatchMetaOk(net, l, bs, qs, hidden, pos, |cache|);
    InputShape(net, l, bs, qs, hidden, pos);
    MetaSlots(bs, qs);
    var cache' := Scatter(cache, AllSlots(bs, qs), Projected(net, l, hidden, pos));
    forall at | at in labels'.held ensures CleanAt(net, l, cache', bs, labels', at) {
      ScatterCleanAt(net, l, bs, qs, hidden, pos, cache, labels, labels', at);
    }
    LayerRowsCorrect(net, l, bs, qs, hidden, pos, cache', labels', |qs|);
    assert AllOwnRows(net, l + 1, bs, qs)[..|qs|] == AllOwnRows(net, l + 1, bs, qs);
  }

  lemma MetaSlots(bs: nat, qs: seq<Query>)
    requires QueriesOk(bs, qs)
    ensures Meta(bs, qs).slotMapping == AllSlots(bs, qs)
    ensures Meta(bs, qs).queryLens == QueryLens(bs, qs) && |Meta(bs, qs).queryLens| == |qs|
  {
  }

  /** Caches of all layers, of one size. */
  ghost predicate CachesOk(net: Net, caches: seq<seq<KVal>>, size: nat) {
    |caches| == net.layers && forall i :: 0 <= i < |caches| ==> |caches[i]| == size
  }

  /** The decoder stack from layer l on, each layer over its own cache. */
  function RunLayers(net: Net, l: nat, hidden: seq<Row>, pos: seq<nat>, caches: seq<seq<KVal>>, m: SdpaMeta, size: nat)
    : (r: (seq<seq<KVal>>, seq<Row>))
    requires |hidden| == |pos| && MetaOk(m, |hidden|, size) && CachesOk(net, caches, size) && l <= net.layers
    ensures CachesOk(net, r.0, size) && |r.1| == |hidden|
    decreases net.layers - l
  {
    if l == net.layers then (caches, hidden)
    else
      var (cache', hidden') := Layer(net, l, hidden, pos, caches[l], m);
      RunLayers(net, l + 1, hidden', pos, caches[l := cache'], m, size)
  }

  /** Layers below l already carry the new labels, the others still the old ones. */
  ghost predicate HalfClean(net: Net, caches: seq<seq<KVal>>, bs: nat, labels: Labels, labels': Labels, l: nat) {
    forall i :: 0 <= i < |caches| ==> Clean(net, i, caches[i], bs, if i < l then labels' else labels)
  }

  ghost predicate AllClean(net: Net, caches: seq<seq<KVal>>, bs: nat, labels: Labels) {
    forall i :: 0 <= i < |caches| ==> Clean(net, i, caches[i], bs, labels)
  }

  ghost predicate BatchReady(bs: nat, qs: seq<Query>, size: nat) {
    && QueriesOk(bs, qs) && SlotsOk(bs, qs, size)
    && forall k, p :: 0 <= k < |qs| && 0 <= p < |qs[k].xs| ==> SlotInside(bs, qs[k].table, p, size)
  }

  lemma {:induction false} LayersCorrect(net: Net, l: nat, bs: nat, qs: seq<Query>, hidden: seq<Row>, pos: seq<nat>,
                                         caches: seq<seq<KVal>>, size: nat, labels: Labels, labels': Labels)
    requires BatchReady(bs, qs, size) && LayerInput(net, l, bs, qs, hidden, pos)
    requires CachesOk(net, caches, size) && l <= net.layers
    requires HalfClean(net, caches, bs, labels, labels', l) && Relabelled(labels, labels', bs, qs)
    ensures |hidden| == |pos| && MetaOk(Meta(bs, qs), |hidden|, size)
    ensures var r := RunLayers(net, l, hidden, pos, caches, Meta(bs, qs), size);
      && AllClean(net, r.0, bs, labels')
      && r.1 == Concat(AllOwnRows(net, net.layers, bs, qs))
    decreases net.layers - l
  {
    hide Meta, MetaOk, Layer, AllOwnRows, Clean, Relabelled, SlotsOk, SlotInside, Concat, Hidden, Positions;
    InputShape(net, l, bs, qs, hidden, pos);
    BatchMetaOk(net, l, bs, qs, hidden, pos, size);
    if l < net.layers {
      assert Clean(net, l, caches[l], bs, labels);
      LayerCorrect(net, l, bs, qs, hidden, pos, caches[l], labels, labels');
      var r := Layer(net, l, hidden, pos, caches[l], Meta(bs, qs));
      LayersCorrect(net, l + 1, bs, qs, r.1, pos, caches[l := r.0], size, labels, labels');
    }
  }

  /** The embedding rows fed to the first layer. */
  function FlatInputs(bs: nat, qs: seq<Query>): seq<Row>
    requires QueriesOk(bs, qs)
  {
    Concat(seq(|qs|, k requires 0 <= k < |qs| => assert QueryOk(bs, qs[k]); qs[k].xs[qs[k].start..]))
  }

  lemma InputsAreOwnRows(net: Net, bs: nat, qs: seq<Query>)
    requires QueriesOk(bs, qs)
    ensures LayerInput(net, 0, bs, qs, FlatInputs(bs, qs), Concat(Positions(bs, qs)))
  {
    var a := seq(|qs|, k requires 0 <= k < |qs| => assert QueryOk(bs, qs[k]); qs[k].xs[qs[k].start..]);
    var b := AllOwnRows(net, 0, bs, qs);
    forall k | 0 <= k < |qs| ensures a[k] == b[k] {
      assert QueryOk(bs, qs[k]);
      var q := qs[k];
      forall j | 0 <= j < |q.xs| - q.start ensures a[k][j] == b[k][j] {
        var ys := q.xs[..q.start + j + 1];
        assert Hidden(net, 0, ys) == ys[|ys| - 1] == q.xs[q.start + j];
      }
    }
    assert a == b;
  }

  /** The whole step. One flat multi-layer forward over any mixed batch leaves every layer's
      cache holding each labelled prefix's value, and its rows are each request's own causal
      forward, also when a request reads a block another one is filling in the same step. */
  lemma FlatForwardCorrect(net: Net, bs: nat, qs: seq<Query>, caches: seq<seq<KVal>>, size: nat, labels: Labels, labels': Labels)
    requires BatchReady(bs, qs, size) && CachesOk(net, caches, size)
    requires AllClean(net, caches, bs, labels) && Relabelled(labels, labels', bs, qs)
    ensures var x0 := FlatInputs(bs, qs); var pos := Concat(Positions(bs, qs));
      && |x0| == |pos| && MetaOk(Meta(bs, qs), |x0|, size)
      && var r := RunLayers(net, 0, x0, pos, caches, Meta(bs, qs), size);
      && AllClean(net, r.0, bs, labels')
      && r.1 == Concat(AllOwnRows(net, net.layers, bs, qs))
  {
    hide Meta, MetaOk, AllOwnRows, Clean, Relabelled, SlotsOk, SlotInside, Concat, Hidden, Positions, FlatInputs, RunLayers, LayerInput;
    InputsAreOwnRows(net, bs, qs);
    LayersCorrect(net, 0, bs, qs, FlatInputs(bs, qs), Concat(Positions(bs, qs)), caches, size, labels, labels');
  }

  /** The row a request samples from: the last of its chunk. */
  lemma SampledRow(net: Net, bs: nat, qs: seq<Query>, k: nat)
    requires QueriesOk(bs, qs) && k < |qs|
    ensures var rows := Concat(AllOwnRows(net, net.layers, bs, qs));
      var end := Start(QueryLens(bs, qs), k + 1);
      0 < end <= |rows| && qs[k].xs != [] && rows[end - 1] == Hidden(net, net.layers, qs[k].xs)
  {
    hide Concat, Hidden, QueryLens, AllOwnRows, QueriesOk, Offset, Start;
    var ss := AllOwnRows(net, net.layers, bs, qs);
    RowsAt(net, net.layers, bs, qs, k);
    BatchLens(net, net.layers, bs, qs);
    StartIsOffset(QueryLens(bs, qs), ss, k);
    var n := |qs[k].xs| - qs[k].start;
    StartNext(QueryLens(bs, qs), k);
    ConcatAt(ss, k, n - 1);
    assert qs[k].xs[..qs[k].start + n] == qs[k].xs;
  }

  lemma StartNext(lens: seq<nat>, k: nat)
    requires k < |lens|
    ensures Start(lens, k + 1) == Start(lens, k) + lens[k]
  {
  }
}
