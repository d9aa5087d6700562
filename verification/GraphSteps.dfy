/** Replayed steps in the engine: what the padding rows leave behind disturbs nothing, and a
    reachable step in which the graph and the eager path start from different rows: a prompt of
    one token that came with its own embedding. */
module GraphSteps {
  import opened Util
  import opened Hashing
  import opened BlockPoolSpec
  import opened BlockManagerSpec
  import opened BlockManagerInv
  import opened RequestSpec
  import opened SchedulerSpec
  import opened SchedulerInv
  import opened ScheduleStep
  import opened Model
  import opened Flat
  import opened ForwardCorrect
  import opened LabelInv
  import opened RunnerSpec
  import opened EngineSpec
  import opened EngineInv
  import opened EngineSafe
  import opened EngineStep
  import opened EngineRun
  import opened OneSlot
  import opened LoneStep
  import opened Telltale
  import opened Solitary
  import opened CudaGraph
  import opened GraphReplay

  /** The engine invariant does not look at the scratch block behind the pool. */
  lemma ScratchIrrelevant(net: Net, cfg: Config, size: nat, e: Engine, caches: seq<seq<KVal>>, scratch: BlockId, labels: Labels)
    requires EInv(net, cfg, size, e, labels) && PoolSize(e.s) <= scratch
    requires AllSameBut(e.r.caches, caches, scratch * cfg.blockSize)
    ensures EInv(net, cfg, size, e.(r := e.r.(caches := caches)), labels)
  {
    hide LInv, AllClean, OnStream, SInv, Mirrored;
    CleanBehind(net, e.r.caches, caches, cfg.blockSize, labels, PoolSize(e.s), scratch);
  }

  lemma FirstHit(p: Pool, bs: nat, toks: seq<Token>, hits: seq<BlockId>)
    requires Leading(p, bs, toks, hits) && hits != []
    ensures hits[0] < |p.hash| && p.hash[hits[0]] != NoHash
  {
    ChainStep(toks, bs, 0);
  }

  lemma NoHitsInEmpty(p: Pool, bs: nat, toks: seq<Token>, hits: seq<BlockId>)
    requires Leading(p, bs, toks, hits) && forall b :: 0 <= b < |p.hash| ==> p.hash[b] == NoHash
    ensures hits == []
  {
    hide Leading;
    if hits != [] { FirstHit(p, bs, toks, hits); }
  }

  /** The state after the only addition. */
  function Asked(cfg: Config, numBlocks: nat, caches: seq<seq<KVal>>, id: Id, t: Token, row: Row, params: Params): Engine {
    EngineSpec.AddRequest(cfg, NewEngine(numBlocks, true, caches, None), id, [t], params, None, 0, Some([row])).0
  }

  lemma AskedIs(net: Net, cfg: Config, size: nat, numBlocks: nat, caches: seq<seq<KVal>>, id: Id, t: Token, row: Row, params: Params)
    requires OneAtATime(cfg) && cfg.maxBatched > 0 && CachesOk(net, caches, size) && numBlocks * cfg.blockSize <= size
    requires !Refused(cfg, [t], params)
    ensures var e := Asked(cfg, numBlocks, caches, id, t, row, params);
      && EBase(net, cfg, size, e) && e.s.running == [] && e.s.waiting == [id] && e.s.finished == []
      && e.s.reqs == map[id := NewRequest([t], params, None, 0, 0)]
      && e.s.kv.pool == NewPool(numBlocks, true) && Held(e) == map[id := [row]]
  {
    hide EBase, NewPool;
    NewEngineBase(net, cfg, size, numBlocks, true, caches, None);
    AddBase(net, cfg, size, NewEngine(numBlocks, true, caches, None), id, [t], params, None, 0, Some([row]));
    assert [] + [id] == [id];
  }

  /** What the one item of a served call is. */
  lemma ServedItem(cfg: Config, s: Sched, r: Req, s': Sched, it: Item, t: Token)
    requires SInv(cfg, s, []) && cfg.maxBatched >= 0 && Serves(cfg, s, r, s', it, []) && it.start == 0 && r.Tokens() == [t]
    ensures it.chunk == [t]
  {
    hide Schedule, KvShaped, Rows, Filling, SameTokens;
    ScheduleInv(cfg, s);
    assert [it][0] == it;
    assert ItemOk(s', it);
  }

  /** The engine's first step then is a pure decode batch on which the graph's rows are not the
      eager ones. */
  lemma FirstTokenDiverges(net: Net, cfg: Config, size: nat, numBlocks: nat, caches: seq<seq<KVal>>, id: Id, t: Token, row: Row, params: Params)
    requires OneAtATime(cfg) && cfg.maxBatched > 0 && CachesOk(net, caches, size) && numBlocks * cfg.blockSize <= size
    requires !Refused(cfg, [t], params) && numBlocks > 0 && row != net.embed(t)
    ensures var e := Asked(cfg, numBlocks, caches, id, t, row, params);
      && Wf(e.s) && Schedule(cfg, e.s).1.Some?
      && var out := Schedule(cfg, e.s).1.value.scheduled;
      && out != [] && PureDecode(out)
      && EmbedAll(net, Concat(Chunks(out))) != InputRows(net, Held(e), out)
  {
    hide EBase, SInv, Schedule, KvShaped, Serves, Chain, AdmitPhase, Concat, InputRows;
    var e := Asked(cfg, numBlocks, caches, id, t, row, params);
    AskedIs(net, cfg, size, numBlocks, caches, id, t, row, params);
    var r := e.s.reqs[id];
    BaseInv(net, cfg, size, e);
    Cleared(cfg, e.s);
    CeilLess(1, cfg.blockSize);
    LoneQueue(cfg, e.s, id);
    assert e.s == e.s.(finished := []) && e.s.waiting == [id] + [];
    var s', it, hits := PlanHead(cfg, e.s, e.s, [], id, [], numBlocks);
    NoHitsInEmpty(e.s.kv.pool, cfg.blockSize, r.Tokens(), hits);
    ServedItem(cfg, e.s, r, s', it, t);
    ServedOut(cfg, e.s, r, s', it);
    assert EmbedsOf(Held(e), id) == [row];
    GraphRowsAreEager(net, Held(e), [it]);
    assert [it][0] == it;
  }

  lemma ServedOut(cfg: Config, s: Sched, r: Req, s': Sched, it: Item)
    requires Serves(cfg, s, r, s', it, [])
    ensures cfg.blockSize > 0 && Wf(s) && Schedule(cfg, s).1.Some? && Schedule(cfg, s).1.value.scheduled == [it] && it.doSample
  {
    hide Schedule, KvShaped;
  }

  lemma BaseInv(net: Net, cfg: Config, size: nat, e: Engine)
    requires EBase(net, cfg, size, e)
    ensures SInv(cfg, e.s, [])
  {
    hide SInv;
  }
}
