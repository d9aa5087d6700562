/** What the engine invariant says of a reachable state between events, read off in the
    allocator's and the cache's own terms. */
module Conservation {
  import opened Util
  import opened Hashing
  import opened BlockPoolSpec
  import opened BlockManagerSpec
  import opened BlockManagerInv
  import opened SchedulerSpec
  import opened SchedulerInv
  import opened Model
  import opened Attention
  import opened ForwardCorrect
  import opened LabelInv
  import opened EngineSpec
  import opened EngineInv
  import opened EngineSafe
  import opened EngineStep

  /** The running requests whose table lists block b. */
  ghost function Users(s: Sched, b: BlockId): set<Id> {
    set id | id in s.running && b in TableOf(s.kv, id)
  }

  /** Blocks: a count equals the number of running tables holding the block; the free queue
      holds exactly the blocks of count zero, once each; the cache map and the blocks' own
      hashes are inverse. */
  lemma BlocksConserved(cfg: Config, s: Sched)
    requires SInv(cfg, s, [])
    ensures var p := s.kv.pool;
      && |p.hash| == |p.refs|
      && (forall b :: 0 <= b < |p.refs| ==> p.refs[b] == |Users(s, b)|)
      && (forall b: nat :: b in p.free <==> b < |p.refs| && p.refs[b] == 0)
      && Distinct(p.free)
      && (forall h, b: nat :: (h in p.cached && p.cached[h] == b) <==> (h != NoHash && b < |p.hash| && p.hash[b] == h))
  {
    hide Filling, Items, Statuses, Bounded, Arrivals, RowOk, HashesBlocked, Lists;
    var p := s.kv.pool;
    forall b | 0 <= b < |p.refs| ensures p.refs[b] == |Users(s, b)| {
      assert Holders(s.kv.tables, b) == Users(s, b);
    }
  }

  /** Tables: live requests are waiting or running, never both; a running one's table has no
      repeats and exactly ceil(computed / block size) blocks; a waiting one has none. */
  lemma TablesConserved(cfg: Config, s: Sched)
    requires SInv(cfg, s, [])
    ensures forall id :: id in s.reqs <==> id in s.waiting || id in s.running
    ensures forall id :: id in s.waiting ==> id !in s.running && TableOf(s.kv, id) == [] && s.reqs[id].computed == 0
    ensures forall id :: id in s.running ==>
      Distinct(TableOf(s.kv, id)) && |TableOf(s.kv, id)| == CeilDiv(s.reqs[id].computed, cfg.blockSize)
  {
    hide Filling, Items, Bounded, Arrivals, KvOk, HashAt;
    forall id | id in s.running
      ensures Distinct(TableOf(s.kv, id)) && |TableOf(s.kv, id)| == CeilDiv(s.reqs[id].computed, cfg.blockSize)
    {
      assert RowOk(cfg, s, [], id);
    }
    forall id | id in s.waiting ensures id !in s.running && TableOf(s.kv, id) == [] && s.reqs[id].computed == 0 {
      assert StatusOk(s, id);
    }
  }

  // ------------------------------------------------------------------ contents

  lemma NothingPending(s: Sched, bs: nat, labels: Labels, b: BlockId, o: nat, want: seq<Row>)
    requires Ready(s, [], bs, labels, b, o, want)
    ensures (b, o) in labels.held && labels.held[(b, o)] == want
  {
    assert forall t: Id, j: nat :: !PendingAt(s, [], bs, b, o, t, j);
  }

  lemma CleanPlace(net: Net, size: nat, caches: seq<seq<KVal>>, bs: nat, labels: Labels, at: Place, l: nat)
    requires AllClean(net, caches, bs, labels) && CachesOk(net, caches, size) && at in labels.held && l < net.layers
    ensures at.1 < bs && at.0 * bs + at.1 < |caches[l]|
    ensures labels.held[at] != [] && caches[l][at.0 * bs + at.1] == Value(net, l, labels.held[at])
  {
    assert Clean(net, l, caches[l], bs, labels);
    assert CleanAt(net, l, caches[l], bs, labels, at);
  }

  lemma PositionHasBlock(p: nat, n: nat, bs: nat)
    requires bs > 0 && p < n
    ensures FloorDiv(p, bs) < CeilDiv(n, bs)
  {
    FloorBounds(p, bs);
    CeilDivBounds(n, bs);
    MulStrict(FloorDiv(p, bs), CeilDiv(n, bs), bs);
  }

  lemma PositionInTable(cfg: Config, s: Sched, id: Id, p: nat)
    requires SInv(cfg, s, []) && id in s.running && id in s.reqs && p < s.reqs[id].computed
    ensures p < |s.reqs[id].Tokens()| && FloorDiv(p, cfg.blockSize) < |TableOf(s.kv, id)|
  {
    hide Statuses, Filling, Items, Bounded, Arrivals, KvOk, HashAt;
    assert RowOk(cfg, s, [], id);
    PositionHasBlock(p, s.reqs[id].computed, cfg.blockSize);
  }

  lemma PositionLabelled(net: Net, media: Media, cfg: Config, s: Sched, labels: Labels, id: Id, p: nat)
    requires cfg.blockSize > 0 && RunReady(net, media, s, [], cfg.blockSize, labels)
    requires id in s.running && id in s.reqs && p < s.reqs[id].computed
    requires p < |s.reqs[id].Tokens()| && FloorDiv(p, cfg.blockSize) < |TableOf(s.kv, id)|
    ensures var at := (TableOf(s.kv, id)[FloorDiv(p, cfg.blockSize)], p % cfg.blockSize);
      at in labels.held && labels.held[at] == RowsFor(net, media, id, s.reqs[id].Tokens())[..p + 1]
  {
    hide Ready;
    var bs := cfg.blockSize;
    var i, o := FloorDiv(p, bs), p % bs;
    DivModParts(p, bs);
    assert RunReadyAt(net, media, s, [], bs, labels, id, i, o);
    NothingPending(s, bs, labels, TableOf(s.kv, id)[i], o, RowsFor(net, media, id, s.reqs[id].Tokens())[..p + 1]);
  }

  lemma Readied(net: Net, cfg: Config, size: nat, e: Engine, labels: Labels)
    requires EInv(net, cfg, size, e, labels)
    ensures RunReady(net, Held(e), e.s, [], cfg.blockSize, labels) && HashReady(e.s, [], cfg.blockSize, labels)
    ensures forall id :: id in e.s.running ==> id in e.s.reqs
    ensures HashesBlocked(e.s.kv.pool, cfg.blockSize)
  {
    hide RunReady, HashReady, RowOk, Mirrored, OnStream, AllClean;
  }

  lemma CleanSlot(net: Net, size: nat, caches: seq<seq<KVal>>, bs: nat, labels: Labels, table: seq<BlockId>, p: nat, l: nat)
    requires bs > 0 && FloorDiv(p, bs) < |table| && (table[FloorDiv(p, bs)], p % bs) in labels.held
    requires AllClean(net, caches, bs, labels) && CachesOk(net, caches, size) && l < net.layers
    ensures SlotOf(bs, table, p) < |caches[l]| && labels.held[(table[FloorDiv(p, bs)], p % bs)] != []
    ensures caches[l][SlotOf(bs, table, p)] == Value(net, l, labels.held[(table[FloorDiv(p, bs)], p % bs)])
  {
    hide AllClean, Value, FloorDiv;
    CleanPlace(net, size, caches, bs, labels, (table[FloorDiv(p, bs)], p % bs), l);
  }

  /** At every layer, the slot of every computed position of every running request holds the
      value a contiguous cache would hold for exactly that token prefix. */
  lemma ComputedPositionsHoldTheirValue(net: Net, cfg: Config, size: nat, e: Engine, labels: Labels, id: Id, p: nat, l: nat)
    requires EInv(net, cfg, size, e, labels) && id in e.s.running && l < net.layers
    requires id in e.s.reqs && p < e.s.reqs[id].computed
    ensures p < |e.s.reqs[id].Tokens()| && FloorDiv(p, cfg.blockSize) < |TableOf(e.s.kv, id)| && l < |e.r.caches|
    ensures var slot := SlotOf(cfg.blockSize, TableOf(e.s.kv, id), p);
      && slot < |e.r.caches[l]|
      && e.r.caches[l][slot] == Value(net, l, Inputs(net, EmbedsOf(Held(e), id), e.s.reqs[id].Tokens()[..p + 1]))
  {
    hide SInv, RunReady, HashReady, Mirrored, OnStream, AllClean, Value, Inputs, IdsOk, SlotOf, FloorDiv;
    Readied(net, cfg, size, e, labels);
    PositionInTable(cfg, e.s, id, p);
    PositionLabelled(net, Held(e), cfg, e.s, labels, id, p);
    CleanSlot(net, size, e.r.caches, cfg.blockSize, labels, TableOf(e.s.kv, id), p, l);
    InputsPrefix(net, EmbedsOf(Held(e), id), e.s.reqs[id].Tokens(), p + 1);
  }

  /** Every hashed block, held or free, holds the values of the prefix its hash commits to: those
      any request that agrees with the book would itself compute for these tokens. */
  lemma HashedBlocksHoldTheirPrefix(net: Net, cfg: Config, size: nat, e: Engine, labels: Labels, b: BlockId, o: nat, l: nat,
                                    embeds: seq<Row>, prompt: seq<Token>)
    requires EInv(net, cfg, size, e, labels) && l < net.layers
    requires b < |e.s.kv.pool.hash| && e.s.kv.pool.hash[b] != NoHash && o < cfg.blockSize
    requires Respects(net, cfg.blockSize, labels.book, embeds, prompt) && Reaches(prompt, Prefix(e.s.kv.pool.hash[b]))
    ensures l < |e.r.caches| && b * cfg.blockSize + o < |e.r.caches[l]|
    ensures var h := e.s.kv.pool.hash[b];
      && |Prefix(h)| == Depth(h) * cfg.blockSize && Depth(h) > 0
      && e.r.caches[l][b * cfg.blockSize + o] == Value(net, l, Inputs(net, embeds, Prefix(h)[..(Depth(h) - 1) * cfg.blockSize + o + 1]))
  {
    hide SInv, RunReady, HashReady, Mirrored, OnStream, AllClean, Value, Inputs, IdsOk, Respects, HashWant;
    Readied(net, cfg, size, e, labels);
    HashLabelled(net, cfg, e.s, labels, b, o, embeds, prompt);
    CleanPlace(net, size, e.r.caches, cfg.blockSize, labels, (b, o), l);
  }

  lemma HashLabelled(net: Net, cfg: Config, s: Sched, labels: Labels, b: BlockId, o: nat, embeds: seq<Row>, prompt: seq<Token>)
    requires HashReady(s, [], cfg.blockSize, labels) && HashesBlocked(s.kv.pool, cfg.blockSize)
    requires b < |s.kv.pool.hash| && s.kv.pool.hash[b] != NoHash && o < cfg.blockSize
    requires Respects(net, cfg.blockSize, labels.book, embeds, prompt) && Reaches(prompt, Prefix(s.kv.pool.hash[b]))
    ensures (b, o) in labels.held
    ensures var h := s.kv.pool.hash[b];
      && |Prefix(h)| == Depth(h) * cfg.blockSize && Depth(h) > 0
      && (Depth(h) - 1) * cfg.blockSize + o + 1 <= |Prefix(h)|
      && labels.held[(b, o)] == Inputs(net, embeds, Prefix(h)[..(Depth(h) - 1) * cfg.blockSize + o + 1])
  {
    hide Ready, Inputs;
    var h := s.kv.pool.hash[b];
    assert HashReadyAt(s, [], cfg.blockSize, labels, b, o);
    NothingPending(s, cfg.blockSize, labels, b, o, HashWant(labels.book, cfg.blockSize, h, o));
    assert Blocked(h, cfg.blockSize);
    BlockedLength(h, cfg.blockSize);
    assert Depth(h) * cfg.blockSize == (Depth(h) - 1) * cfg.blockSize + cfg.blockSize;
    assert RespectsAt(net, cfg.blockSize, labels.book, embeds, prompt, Prefix(h), Depth(h));
    InputsPrefix(net, embeds, Prefix(h), (Depth(h) - 1) * cfg.blockSize + o + 1);
  }
}
