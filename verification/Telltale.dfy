/** A network that shows whose row a cached position holds. It follows a given token prefix
    whatever it reads; past the prefix it says 1 if the entry at one chosen position was
    computed from one chosen row, and 0 otherwise. */
module Telltale {
  import opened Util
  import opened Hashing
  import opened BlockPoolSpec
  import opened BlockManagerSpec
  import opened BlockManagerInv
  import opened RequestSpec
  import opened SchedulerSpec
  import opened SchedulerInv
  import opened Model
  import opened LabelInv
  import opened RunnerSpec
  import opened EngineSpec
  import opened EngineSafe
  import opened EngineStep
  import opened Untouched
  import opened OneSlot
  import opened OneItem
  import opened LoneStep

  /** The embedding comes from net; x and y are the rows to tell apart at position p, which
      lies in block k, the last full block of the prefix. */
  datatype Scene = Scene(net: Net, bs: nat, prefix: seq<Token>, k: nat, p: nat, x: Row, y: Row, k1: KVal, k2: KVal)
  {
    ghost predicate Ok() {
      bs > 0 && k > 0 && |prefix| == k * bs && (k - 1) * bs <= p < k * bs && x != y && k1 != k2
    }

    function Network(): Net {
      Net(1, net.embed,
          (l: nat, row: Row, pos: nat) => if pos == p && row == x then k1 else k2,
          (l: nat, row: Row, pos: nat, kvs: seq<KVal>) => if |kvs| > p && kvs[p] == k1 then x else y,
          (row: Row, st: SamplerState) => if |st.tokenIds| < |prefix| then prefix[|st.tokenIds|] else if row == x then 1 else 0)
    }

    /** Room for everything, one slot, chunks never cut. */
    function Cfg(len: nat): Config {
      Config(bs, 1, len, 0, len)
    }
  }

  /** The prefix goes on with the token after ts, or is over. */
  predicate Follows(prefix: seq<Token>, ts: seq<Token>) {
    ts <= prefix || prefix <= ts
  }

  lemma SceneToken(w: Scene, row: Row, r: Req)
    requires w.Ok() && Follows(w.prefix, r.Tokens())
    ensures var t := w.Network().sample(row, SamplerState(r.params, |r.prompt|, r.Tokens()));
      Follows(w.prefix, r.Tokens() + [t]) && (|r.Tokens()| >= |w.prefix| ==> t == if row == w.x then 1 else 0)
  {
    var t := w.Network().sample(row, SamplerState(r.params, |r.prompt|, r.Tokens()));
    var ts := r.Tokens();
    if |ts| < |w.prefix| {
      assert ts + [t] == w.prefix[..|ts| + 1];
    } else {
      assert (ts + [t])[..|w.prefix|] == w.prefix;
    }
  }

  // ------------------------------------------------------------------ states

  /** Nothing stops the request but its length. */
  ghost predicate Plain(r: Req) {
    r.params.ignoreEos && r.params.stopTokenIds == []
  }

  lemma PlainStops(r: Req, n: nat, t: Token, len: nat)
    requires Plain(r)
    ensures CheckStop(WithToken(r, n, t), len).Some? <==> |r.output| + 1 >= r.params.maxTokens || r.NumTokens() + 1 >= len
  {
  }

  /** The one live request, in its slot or in the queue, over a pool that evicts nothing yet. */
  ghost predicate Lone(net: Net, cfg: Config, size: nat, e: Engine, id: Id, m: nat) {
    && EBase(net, cfg, size, e) && net.layers == 1 && e.r.graphs == None && OneAtATime(cfg)
    && e.s.reqs.Keys == {id} && e.s.kv.pool.caching && Virgin(e.s.kv.pool, m)
    && (if e.s.running == [] then e.s.waiting == [id] else e.s.running == [id] && e.s.waiting == [] && Chained(e.s.kv, id))
  }

  /** Nobody lives. */
  ghost predicate Quiet(net: Net, cfg: Config, size: nat, e: Engine, m: nat) {
    && EBase(net, cfg, size, e) && net.layers == 1 && e.r.graphs == None && OneAtATime(cfg)
    && e.s.reqs == map[] && e.s.kv.pool.caching && Virgin(e.s.kv.pool, m)
    && e.s.running == [] && e.s.waiting == []
  }

  /** A cached block that nobody holds, and what its offset o holds. */
  ghost predicate Parked(bs: nat, e: Engine, b: BlockId, h: BlockHash, o: nat, v: KVal) {
    && b < |e.s.kv.pool.refs| && e.s.kv.pool.refs[b] == 0
    && h != NoHash && h in e.s.kv.pool.cached && e.s.kv.pool.cached[h] == b
    && o < bs && |e.r.caches| == 1 && b * bs + o < |e.r.caches[0]| && e.r.caches[0][b * bs + o] == v
  }

  /** Cached blocks stay cached, and free ones deeper than len tokens keep their contents. */
  ghost predicate Keeps(bs: nat, e: Engine, e': Engine, len: nat) {
    && Grows(e.s.kv.pool, e'.s.kv.pool)
    && forall b: nat, h, o: nat, v :: Parked(bs, e, b, h, o, v) && Depth(h) * bs >= len ==> Parked(bs, e', b, h, o, v)
  }

  lemma KeepsTrans(bs: nat, e: Engine, e1: Engine, e2: Engine, len: nat)
    requires Keeps(bs, e, e1, len) && Keeps(bs, e1, e2, len)
    ensures Keeps(bs, e, e2, len)
  {
    hide Parked;
  }

  lemma KeepsMore(bs: nat, e: Engine, e': Engine, len: nat, more: nat)
    requires Keeps(bs, e, e', len) && len <= more
    ensures Keeps(bs, e, e', more)
  {
    hide Parked;
  }

  // ------------------------------------------------------------------ one step

  lemma CeilLess(n: nat, bs: nat)
    requires bs > 0
    ensures CeilDiv(n, bs) <= n
  {
    CeilDivBounds(n, bs);
    if CeilDiv(n, bs) > n {
      MulMono(n, CeilDiv(n, bs) - 1, bs);
      MulMono(1, bs, n);
    }
  }

  /** Every full block of the served request is cached. */
  lemma ServedChained(cfg: Config, s': Sched, it: Item, i: nat)
    requires SInv(cfg, s', [it]) && s'.kv.pool.caching && Chained(s'.kv, it.id) && it.id in s'.reqs && it.id in s'.running
    requires s'.reqs[it.id].computed + |it.chunk| == s'.reqs[it.id].NumTokens()
    requires (i + 1) * cfg.blockSize <= s'.reqs[it.id].NumTokens()
    ensures Chain(s'.reqs[it.id].Tokens(), cfg.blockSize, i + 1) in s'.kv.pool.cached
  {
    hide KvOk, Filling, Items, Statuses, Bounded, Arrivals, HashAt, Chain;
    assert RowOk(cfg, s', [it], it.id);
    assert [it] == [] + [it];
    GrantedSnoc([], it, it.id);
    var n := s'.reqs[it.id].NumTokens();
    FloorBounds(n, cfg.blockSize);
    if FloorDiv(n, cfg.blockSize) <= i { MulMono(FloorDiv(n, cfg.blockSize) + 1, i + 1, cfg.blockSize); }
    assert ChainOf(s'.kv, it.id)[i] in s'.kv.pool.cached;
  }

  ghost predicate CachedAt(p: Pool, bs: nat, toks: seq<Token>, i: nat) {
    (i + 1) * bs <= |toks| ==> Chain(toks, bs, i + 1) in p.cached
  }

  /** Every full block of these tokens is cached. */
  ghost predicate AllCached(p: Pool, bs: nat, toks: seq<Token>) {
    forall i: nat :: CachedAt(p, bs, toks, i)
  }

  /** The pool once the served request has its token, whether that stops it or not. */
  lemma AfterPool(cfg: Config, s': Sched, it: Item, t: Token, m: nat)
    requires SInv(cfg, s', [it]) && Settled(s') && s'.running == [it.id] && it.id in s'.reqs && it.id !in s'.waiting
    requires Virgin(s'.kv.pool, m) && Chained(s'.kv, it.id)
    ensures var s2 := After(cfg, s', it, t);
      && SameContents(s'.kv.pool, s2.kv.pool) && |s2.kv.pool.refs| == |s'.kv.pool.refs| && Virgin(s2.kv.pool, m)
      && (forall b :: 0 <= b < |s'.kv.pool.refs| && s'.kv.pool.refs[b] == 0 ==> s2.kv.pool.refs[b] == 0)
      && (s2.running == [it.id] ==> Chained(s2.kv, it.id))
  {
    hide Filling, Items, Statuses, Bounded, Arrivals, FreeRequest, CheckStop, KvShaped, KvOk, HashAt, Chain;
    assert RowOk(cfg, s', [it], it.id);
    var s2 := After(cfg, s', it, t);
    FreeVirgin(s'.kv, cfg.blockSize, it.id, m);
    RemoveDistinct(s'.running, it.id);
  }

  /** Slots of a free block are not written by the served request. */
  lemma ParkedSlot(net: Net, cfg: Config, s': Sched, embeds: Media, caches: seq<seq<KVal>>, it: Item, size: nat, b: BlockId, o: nat, at: nat)
    requires SInv(cfg, s', [it]) && OneBatch(net, cfg.blockSize, embeds, caches, it, size) && it.id in s'.running && it.id in s'.reqs
    requires it.table == TableOf(s'.kv, it.id) && b < |s'.kv.pool.refs| && s'.kv.pool.refs[b] == 0 && o < cfg.blockSize
    requires |caches| == 1 && at == b * cfg.blockSize + o && at < |caches[0]|
    ensures var c := RunModel(net, cfg.blockSize, embeds, caches, [it], size).0;
      |c| == 1 && |c[0]| == |caches[0]| && c[0][at] == caches[0][at]
  {
    hide SInv, OneBatch, RunModel, ItemSlots, Fits, Distinct;
    FreeNotHeld(cfg, s', it.id, [it], b);
    BatchFits(net, cfg.blockSize, embeds, caches, it, size);
    NotWritten(cfg.blockSize, it, b, o, it.start);
    OtherSlots(net, cfg.blockSize, embeds, caches, it, size, at);
  }

  lemma FreeNotHeld(cfg: Config, s: Sched, id: Id, out: seq<Item>, b: BlockId)
    requires SInv(cfg, s, out) && id in s.running && id in s.reqs && b < |s.kv.pool.refs| && s.kv.pool.refs[b] == 0
    ensures b !in TableOf(s.kv, id) && Distinct(TableOf(s.kv, id))
  {
    hide HashAt, Chain, Filling, Items, Statuses, Bounded, Arrivals, PoolOk, Counted, HashesBlocked;
    assert RowOk(cfg, s, out, id);
    ZeroUnheld(s.kv, cfg.blockSize, [], b);
  }

  /** What happens to the pool between a step's start and schedule()'s phase 2. */
  ghost predicate Before(s: Sched, s0: Sched) {
    && SameContents(s.kv.pool, s0.kv.pool) && |s0.kv.pool.refs| == |s.kv.pool.refs|
    && forall b :: 0 <= b < |s.kv.pool.refs| && s.kv.pool.refs[b] == 0 ==> s0.kv.pool.refs[b] == 0
  }

  /** A step that serves one request, as the pool and the caches see it. */
  lemma ServedPool(net: Net, cfg: Config, size: nat, e: Engine, s0: Sched, r: Req, s': Sched, it: Item, preempted: seq<Id>, m: nat, len: nat)
    requires EBase(net, cfg, size, e) && net.layers == 1 && e.r.graphs == None && Serves(cfg, e.s, r, s', it, preempted)
    requires Before(e.s, s0) && Gentle(s0, s', it.id, m) && PoolOk(s0.kv.pool)
    requires forall b: nat :: b < |s0.kv.pool.hash| && Depth(s0.kv.pool.hash[b]) * cfg.blockSize >= len ==> LeftAlone(s0, s', b)
    ensures StepDefined(net, cfg, e, size)
    ensures var e' := Step(net, cfg, e, size).0;
      && EBase(net, cfg, size, e') && e'.r.graphs == None && Keeps(cfg.blockSize, e, e', len) && Virgin(e'.s.kv.pool, m) && e'.s.kv.pool.caching
      && (e'.s.running == [it.id] ==> Chained(e'.s.kv, it.id))
      && AllCached(e'.s.kv.pool, cfg.blockSize, r.Tokens())
  {
    hide EBase, SInv, Schedule, KvShaped, RunModel, OneBatch, ServedToken, After, Virgin, Chained, PoolOk, Chain, Step, StepDefined, Settled;
    StepSafe(net, cfg, size, e);
    StepServes(net, cfg, size, e, r, s', it, preempted);
    var t := ServedToken(net, cfg.blockSize, Held(e), e.r.caches, it, r, size);
    AfterPool(cfg, s', it, t, m);
    var e' := Step(net, cfg, e, size).0;
    forall i: nat ensures CachedAt(e'.s.kv.pool, cfg.blockSize, r.Tokens(), i) {
      if (i + 1) * cfg.blockSize <= r.NumTokens() { ServedChained(cfg, s', it, i); }
    }
    forall b: nat, h, o: nat, v | Parked(cfg.blockSize, e, b, h, o, v) && Depth(h) * cfg.blockSize >= len
      ensures Parked(cfg.blockSize, e', b, h, o, v)
    {
      ParkedHash(s0.kv.pool, h);
      assert LeftAlone(s0, s', b);
      ParkedSlot(net, cfg, s', Held(e), e.r.caches, it, size, b, o, b * cfg.blockSize + o);
    }
  }

  lemma ParkedHash(p: Pool, h: BlockHash)
    requires PoolOk(p) && h in p.cached
    ensures p.cached[h] < |p.hash| && p.hash[p.cached[h]] == h
  {
  }
}
