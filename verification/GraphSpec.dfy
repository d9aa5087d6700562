/** inferneo/executor/cuda_graph.py as functions on values: buckets and the padded batch. */
module GraphSpec {
  import opened Util
  import opened BlockPoolSpec
  import opened Attention

  // ------------------------------------------------------------------ buckets

  function Pow2(i: nat): (p: nat)
    ensures p > i
  {
    if i == 0 then 1 else 2 * Pow2(i - 1)
  }

  /** Powers of two below the largest bucket, then that one: strictly increasing. */
  ghost predicate BucketsOk(buckets: seq<int>, max: int) {
    && buckets != [] && buckets[|buckets| - 1] == max
    && (forall i :: 0 <= i < |buckets| - 1 ==> buckets[i] == Pow2(i))
    && (forall i, j :: 0 <= i < j < |buckets| ==> buckets[i] < buckets[j])
    && (max >= 1 ==> forall i :: 0 <= i < |buckets| - 1 ==> buckets[i + 1] <= 2 * buckets[i])
    && (max >= 1 ==> buckets[0] == 1)
  }

  /** pick_bucket: the first bucket the batch fits. */
  function BucketFor(buckets: seq<int>, n: nat): (b: nat)
    ensures b >= n
  {
    if buckets == [] then n else if buckets[0] >= n then buckets[0] else BucketFor(buckets[1..], n)
  }

  /** In an increasing list the first bucket that fits is the smallest. */
  lemma {:induction false} BucketIs(buckets: seq<int>, n: nat, v: int)
    requires forall i, j :: 0 <= i < j < |buckets| ==> buckets[i] < buckets[j]
    requires v in buckets && n <= v && forall b :: b in buckets && n <= b ==> v <= b
    ensures BucketFor(buckets, n) == v
  {
    assert buckets[0] in buckets;
    if buckets[0] < n {
      var rest := buckets[1..];
      assert buckets == [buckets[0]] + rest;
      forall i, j | 0 <= i < j < |rest| ensures rest[i] < rest[j] { assert rest[i] == buckets[i + 1] && rest[j] == buckets[j + 1]; }
      assert v in rest && forall b :: b in rest ==> b in buckets;
      BucketIs(rest, n, v);
    } else {
      var i :| 0 <= i < |buckets| && buckets[i] == v;
      assert i > 0 ==> buckets[0] < buckets[i];
    }
  }

  /** The captured graphs: bucket sizes, the largest, and the block behind the pool. */
  datatype Graphs = Graphs(buckets: seq<int>, max: int, scratch: BlockId)

  /** The slot every padding row writes. */
  function ScratchAt(g: Graphs, bs: nat): nat {
    g.scratch * bs
  }

  /** Graphs were captured over these caches, with the scratch block behind the pool's blocks. */
  ghost predicate GraphsFit(g: Option<Graphs>, numBlocks: nat, bs: nat, size: nat) {
    g.Some? ==> BucketsOk(g.value.buckets, g.value.max) && numBlocks <= g.value.scratch && ScratchAt(g.value, bs) < size
  }

  // ------------------------------------------------------------------ the padded batch

  /** xs, filled up to length b. */
  function Padded<T>(xs: seq<T>, b: nat, pad: T): (r: seq<T>)
    requires |xs| <= b
    ensures |r| == b
  {
    xs + seq(b - |xs|, _ => pad)
  }

  /** The query lengths of a decode batch of n rows. */
  function Ones(n: nat): (r: seq<nat>)
    ensures |r| == n && forall i :: 0 <= i < n ==> r[i] == 1
  {
    seq(n, _ => 1)
  }

  /** A decode batch: one new token per row. */
  ghost predicate DecodeOk(bs: nat, seqLens: seq<nat>, tables: seq<seq<BlockId>>, b: nat) {
    && bs > 0 && |seqLens| == |tables| <= b
    && forall k :: 0 <= k < |seqLens| ==> seqLens[k] >= 1 && Covers(bs, tables[k], seqLens[k])
  }
}
