/** inferneo/attention/sdpa_backend.py: positions to flat slots, scatter of the new keys and
    values, then per-request causal attention gathered through the block tables. */
module Attention {
  import opened Util
  import opened BlockPoolSpec
  import opened Model
  import opened Flat

  datatype SdpaMeta = SdpaMeta(
    queryLens: seq<nat>,
    seqLens: seq<nat>,
    slotMapping: seq<nat>,
    seqSlots: seq<seq<nat>>,
    masks: seq<Option<seq<seq<bool>>>>)

  /** The flat slot of one position: table[pos // bs] * bs + pos % bs. */
  function SlotOf(bs: nat, table: seq<BlockId>, pos: nat): nat
    requires bs > 0 && FloorDiv(pos, bs) < |table|
  {
    table[FloorDiv(pos, bs)] * bs + pos % bs
  }

  ghost predicate Covers(bs: nat, table: seq<BlockId>, sLen: nat)
    requires bs > 0
  {
    forall p :: 0 <= p < sLen ==> FloorDiv(p, bs) < |table|
  }

  function Slots(bs: nat, table: seq<BlockId>, sLen: nat): (r: seq<nat>)
    requires bs > 0 && Covers(bs, table, sLen)
    ensures |r| == sLen
  {
    seq(sLen, p requires 0 <= p < sLen => SlotOf(bs, table, p))
  }

  /** None stands for the kernel's own causal flag; otherwise query i sees positions up to
      sLen - qLen + i. */
  function Mask(qLen: nat, sLen: nat): Option<seq<seq<bool>>> {
    if qLen == sLen then None
    else Some(seq(qLen, i => seq(sLen, j => j <= sLen - qLen + i)))
  }

  /** The rows of one request's arguments make sense to the backend. */
  ghost predicate BatchOk(bs: nat, queryLens: seq<nat>, seqLens: seq<nat>, tables: seq<seq<BlockId>>) {
    && bs > 0
    && |queryLens| == |seqLens| == |tables|
    && forall k :: 0 <= k < |queryLens| ==> queryLens[k] <= seqLens[k] && Covers(bs, tables[k], seqLens[k])
  }

  function TailSlots(bs: nat, queryLens: seq<nat>, seqLens: seq<nat>, tables: seq<seq<BlockId>>): (r: seq<seq<nat>>)
    requires BatchOk(bs, queryLens, seqLens, tables)
    ensures |r| == |queryLens| && forall k :: 0 <= k < |r| ==> |r[k]| == queryLens[k]
  {
    seq(|queryLens|, k requires 0 <= k < |queryLens| => Slots(bs, tables[k], seqLens[k])[seqLens[k] - queryLens[k]..])
  }

  function Metadata(bs: nat, queryLens: seq<nat>, seqLens: seq<nat>, tables: seq<seq<BlockId>>): SdpaMeta
    requires BatchOk(bs, queryLens, seqLens, tables)
  {
    SdpaMeta(queryLens, seqLens,
             Concat(TailSlots(bs, queryLens, seqLens, tables)),
             seq(|queryLens|, k requires 0 <= k < |queryLens| => Slots(bs, tables[k], seqLens[k])),
             seq(|queryLens|, k requires 0 <= k < |queryLens| => Mask(queryLens[k], seqLens[k])))
  }

  /** build_metadata */
  method BuildMetadata(bs: nat, queryLens: seq<nat>, seqLens: seq<nat>, tables: seq<seq<BlockId>>) returns (m: SdpaMeta)
    requires BatchOk(bs, queryLens, seqLens, tables)
    ensures m == Metadata(bs, queryLens, seqLens, tables)
  {
    hide Slots, Mask;
    ghost var full := Metadata(bs, queryLens, seqLens, tables);
    ghost var tails := TailSlots(bs, queryLens, seqLens, tables);
    var slotChunks, seqSlots, masks := [], [], [];
    for k := 0 to |queryLens|
      invariant slotChunks == Concat(tails[..k])
      invariant seqSlots == full.seqSlots[..k]
      invariant masks == full.masks[..k]
    {
      var slots := Slots(bs, tables[k], seqLens[k]);
      seqSlots := seqSlots + [slots];
      ConcatSnoc(tails, k);
      slotChunks := slotChunks + slots[seqLens[k] - queryLens[k]..];
      masks := masks + [Mask(queryLens[k], seqLens[k])];
    }
    assert tails[..|queryLens|] == tails;
    m := SdpaMeta(queryLens, seqLens, slotChunks, seqSlots, masks);
  }

  // ------------------------------------------------------------------ forward

  /** kv_cache[slots] = vals */
  function Scatter(cache: seq<KVal>, slots: seq<nat>, vals: seq<KVal>): (r: seq<KVal>)
    requires |slots| == |vals| && forall i :: 0 <= i < |slots| ==> slots[i] < |cache|
    ensures |r| == |cache|
    decreases |slots|
  {
    if slots == [] then cache
    else
      var n := |slots| - 1;
      Scatter(cache, slots[..n], vals[..n])[slots[n] := vals[n]]
  }

  /** kv_cache[slots] */
  function Gather(cache: seq<KVal>, slots: seq<nat>): (r: seq<KVal>)
    requires forall i :: 0 <= i < |slots| ==> slots[i] < |cache|
    ensures |r| == |slots|
  {
    seq(|slots|, i requires 0 <= i < |slots| => cache[slots[i]])
  }

  /** The entries a mask row lets through, in order. */
  function Select(vals: seq<KVal>, row: seq<bool>): seq<KVal>
    requires |row| == |vals|
  {
    if vals == [] then []
    else Select(vals[..|vals| - 1], row[..|row| - 1]) + (if row[|row| - 1] then [vals[|vals| - 1]] else [])
  }

  ghost predicate MaskOk(mask: Option<seq<seq<bool>>>, qLen: nat, sLen: nat) {
    match mask
    case None => qLen <= sLen
    case Some(m) => |m| == qLen && forall i :: 0 <= i < qLen ==> |m[i]| == sLen
  }

  /** What query i of a request attends to. Without a mask the kernel is causal only when
      there is more than one query. */
  function Visible(vals: seq<KVal>, mask: Option<seq<seq<bool>>>, qLen: nat, i: nat): seq<KVal>
    requires i < qLen && MaskOk(mask, qLen, |vals|)
  {
    match mask
    case None => if qLen > 1 then vals[..i + 1] else vals
    case Some(m) => Select(vals, m[i])
  }

  function AttendRows(net: Net, l: nat, rows: seq<Row>, pos: seq<nat>, kv: seq<KVal>, mask: Option<seq<seq<bool>>>): (r: seq<Row>)
    requires |rows| == |pos| && MaskOk(mask, |rows|, |kv|)
    ensures |r| == |rows|
  {
    seq(|rows|, i requires 0 <= i < |rows| => net.attend(l, rows[i], pos[i], Visible(kv, mask, |rows|, i)))
  }

  function Start(lens: seq<nat>, k: nat): nat
    requires k <= |lens|
  {
    if k == 0 then 0 else Start(lens, k - 1) + lens[k - 1]
  }

  ghost predicate RequestMetaOk(m: SdpaMeta, k: nat, tokens: nat, cacheLen: nat) {
    && k < |m.queryLens| == |m.seqLens| == |m.seqSlots| == |m.masks|
    && Start(m.queryLens, k) + m.queryLens[k] <= tokens
    && |m.seqSlots[k]| == m.seqLens[k]
    && (forall i :: 0 <= i < |m.seqSlots[k]| ==> m.seqSlots[k][i] < cacheLen)
    && MaskOk(m.masks[k], m.queryLens[k], m.seqLens[k])
  }

  ghost predicate MetaOk(m: SdpaMeta, tokens: nat, cacheLen: nat) {
    && |m.slotMapping| == tokens == Start(m.queryLens, |m.queryLens|)
    && (forall i :: 0 <= i < |m.slotMapping| ==> m.slotMapping[i] < cacheLen)
    && (forall k :: 0 <= k < |m.queryLens| ==> RequestMetaOk(m, k, tokens, cacheLen))
  }

  function Projected(net: Net, l: nat, hidden: seq<Row>, pos: seq<nat>): (r: seq<KVal>)
    requires |hidden| == |pos|
    ensures |r| == |hidden|
  {
    seq(|hidden|, i requires 0 <= i < |hidden| => net.project(l, hidden[i], pos[i]))
  }

  /** The output rows of requests 0..k-1, gathered from a cache that already holds the step's own entries. */
  function LayerRows(net: Net, l: nat, hidden: seq<Row>, pos: seq<nat>, cache: seq<KVal>, m: SdpaMeta, k: nat): (r: seq<Row>)
    requires |hidden| == |pos| && MetaOk(m, |hidden|, |cache|) && k <= |m.queryLens|
    ensures |r| == Start(m.queryLens, k)
  {
    if k == 0 then []
    else
      var a, b := Start(m.queryLens, k - 1), Start(m.queryLens, k - 1) + m.queryLens[k - 1];
      assert RequestMetaOk(m, k - 1, |hidden|, |cache|);
      LayerRows(net, l, hidden, pos, cache, m, k - 1)
      + AttendRows(net, l, hidden[a..b], pos[a..b], Gather(cache, m.seqSlots[k - 1]), m.masks[k - 1])
  }

  /** One layer of the forward pass: its cache afterwards and its output rows. */
  function Layer(net: Net, l: nat, hidden: seq<Row>, pos: seq<nat>, cache: seq<KVal>, m: SdpaMeta): (r: (seq<KVal>, seq<Row>))
    requires |hidden| == |pos| && MetaOk(m, |hidden|, |cache|)
    ensures |r.0| == |cache| && |r.1| == |hidden|
  {
    var cache' := Scatter(cache, m.slotMapping, Projected(net, l, hidden, pos));
    (cache', LayerRows(net, l, hidden, pos, cache', m, |m.queryLens|))
  }

  lemma ScatterSnoc(cache: seq<KVal>, slots: seq<nat>, vals: seq<KVal>, i: nat)
    requires |slots| == |vals| && i < |slots| && forall j :: 0 <= j < |slots| ==> slots[j] < |cache|
    ensures Scatter(cache, slots[..i + 1], vals[..i + 1]) == Scatter(cache, slots[..i], vals[..i])[slots[i] := vals[i]]
  {
    assert slots[..i + 1][..i] == slots[..i] && vals[..i + 1][..i] == vals[..i];
  }

  /** kv_cache[slots] = vals, in place. */
  method ScatterInPlace(cache: array<KVal>, slots: seq<nat>, vals: seq<KVal>)
    requires |slots| == |vals| && forall i :: 0 <= i < |slots| ==> slots[i] < cache.Length
    modifies cache
    ensures cache[..] == Scatter(old(cache[..]), slots, vals)
  {
    ghost var before := cache[..];
    for i := 0 to |slots|
      invariant cache[..] == Scatter(before, slots[..i], vals[..i])
    {
      ScatterSnoc(before, slots, vals, i);
      cache[slots[i]] := vals[i];
    }
    assert slots[..|slots|] == slots && vals[..|slots|] == vals;
  }

  lemma LayerRowsStep(net: Net, l: nat, hidden: seq<Row>, pos: seq<nat>, cache: seq<KVal>, m: SdpaMeta, k: nat)
    requires |hidden| == |pos| && MetaOk(m, |hidden|, |cache|) && k < |m.queryLens|
    ensures RequestMetaOk(m, k, |hidden|, |cache|)
    ensures Start(m.queryLens, k + 1) == Start(m.queryLens, k) + m.queryLens[k]
    ensures var a, b := Start(m.queryLens, k), Start(m.queryLens, k) + m.queryLens[k];
      LayerRows(net, l, hidden, pos, cache, m, k + 1)
      == LayerRows(net, l, hidden, pos, cache, m, k)
         + AttendRows(net, l, hidden[a..b], pos[a..b], Gather(cache, m.seqSlots[k]), m.masks[k])
  {
    hide AttendRows, Gather, MaskOk;
    assert RequestMetaOk(m, k, |hidden|, |cache|);
  }

  /** The attention half of forward: gather and attend request by request. */
  method AttendAll(net: Net, l: nat, hidden: seq<Row>, pos: seq<nat>, cache: array<KVal>, m: SdpaMeta) returns (out: seq<Row>)
    requires |hidden| == |pos| && MetaOk(m, |hidden|, cache.Length)
    ensures out == LayerRows(net, l, hidden, pos, cache[..], m, |m.queryLens|)
  {
    hide MetaOk, AttendRows, Gather, LayerRows;
    out := [];
    var start := 0;
    assert LayerRows(net, l, hidden, pos, cache[..], m, 0) == [];
    for k := 0 to |m.queryLens|
      invariant start == Start(m.queryLens, k)
      invariant out == LayerRows(net, l, hidden, pos, cache[..], m, k)
    {
      LayerRowsStep(net, l, hidden, pos, cache[..], m, k);
      var end := start + m.queryLens[k];
      var kv := Gather(cache[..], m.seqSlots[k]);
      out := out + AttendRows(net, l, hidden[start..end], pos[start..end], kv, m.masks[k]);
      start := end;
    }
  }

  /** forward: scatter in place, then attend through the cache. */
  method Forward(net: Net, l: nat, hidden: seq<Row>, pos: seq<nat>, cache: array<KVal>, m: SdpaMeta) returns (out: seq<Row>)
    requires |hidden| == |pos| && MetaOk(m, |hidden|, cache.Length)
    modifies cache
    ensures (cache[..], out) == Layer(net, l, hidden, pos, old(cache[..]), m)
  {
    ScatterInPlace(cache, m.slotMapping, Projected(net, l, hidden, pos));
    out := AttendAll(net, l, hidden, pos, cache, m);
  }
}
