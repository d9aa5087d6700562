/** Whole engine steps that serve one request, in a single slot over a single layer. */
module LoneStep {
  import opened Util
  import opened Hashing
  import opened BlockPoolSpec
  import opened BlockManagerSpec
  import opened BlockManagerInv
  import opened RequestSpec
  import opened SchedulerSpec
  import opened SchedulerInv
  import opened Model
  import opened LabelInv
  import opened RunnerSpec
  import opened ExecuteCorrect
  import opened EngineSpec
  import opened EngineInv
  import opened EngineSafe
  import opened EngineStep
  import opened Untouched
  import opened OneSlot
  import opened OneItem
  import opened Alone

  // ------------------------------------------------------------------ schedule()

  /** A call that serves all of request r's pending tokens, r being what it was before. */
  ghost predicate Serves(cfg: Config, s: Sched, r: Req, s': Sched, it: Item, preempted: seq<Id>) {
    && cfg.blockSize > 0 && Wf(s) && Schedule(cfg, s) == (s', Some(Output([it], preempted, s.finished)))
    && s'.running == [it.id] && s'.finished == [] && it.id in s'.reqs && it.id !in s'.waiting
    && s'.reqs[it.id] == r.(status := Running, computed := it.start)
    && it.doSample && it.start + |it.chunk| == r.NumTokens() && it.chunk != [] && it.table == TableOf(s'.kv, it.id)
  }

  /** And what it leaves of the pool. */
  ghost predicate Gentle(s: Sched, s': Sched, id: Id, m: nat) {
    && s'.kv.pool.caching && Grows(s.kv.pool, s'.kv.pool) && Virgin(s'.kv.pool, m) && Chained(s'.kv, id)
  }

  /** A cached block nobody holds is not taken up. */
  ghost predicate LeftAlone(s: Sched, s': Sched, b: BlockId) {
    b < |s.kv.pool.refs| && s.kv.pool.refs[b] == 0 && b < |s.kv.pool.hash| && s.kv.pool.hash[b] != NoHash ==>
      b < |s'.kv.pool.refs| && s'.kv.pool.refs[b] == 0
  }

  lemma PlanRunning(cfg: Config, s: Sched, id: Id, m: nat) returns (s': Sched, it: Item)
    requires SInv(cfg, s, []) && OneAtATime(cfg) && s.running == [id] && s.waiting == [] && id in s.reqs
    requires s.kv.pool.caching && Virgin(s.kv.pool, m) && Chained(s.kv, id)
    requires s.reqs[id].NumTokens() <= cfg.maxBatched && CeilDiv(s.reqs[id].NumTokens(), cfg.blockSize) <= m
    ensures it.id == id && Serves(cfg, s, s.reqs[id], s', it, []) && s'.waiting == [] && s'.reqs.Keys == s.reqs.Keys
    ensures Gentle(s, s', id, m - CeilDiv(s.reqs[id].NumTokens(), cfg.blockSize))
    ensures forall b :: LeftAlone(s, s', b)
  {
    hide Rows, Filling, Bounded, Arrivals, AllocateSlots, Virgin, Chained, KvShaped, Schedule, CeilDiv;
    SInvWf(cfg, s, []);
    assert StatusOk(s, id);
    GrantGently(cfg, s, id, m);
    var r := s.reqs[id];
    var n := r.NumTokens() - r.computed;
    var a := AllocateSlots(s.kv, cfg.blockSize, id, r.Tokens(), r.computed, n, []);
    s' := s.(finished := [], kv := a.0);
    ScheduleLone(cfg, s, id, a.0, a.1.value);
    it := MakeScheduled(s', id, n, false);
    assert r == r.(status := Running, computed := r.computed);
  }

  /** The head of the queue is admitted into the free slot. */
  lemma PlanHead(cfg: Config, s: Sched, s0: Sched, evicted: seq<Id>, id: Id, rest: seq<Id>, m: nat)
      returns (s': Sched, it: Item, hits: seq<BlockId>)
    requires OneAtATime(cfg) && Wf(s) && SInv(cfg, s0, []) && Wf(s0)
    requires PreemptForPriority(cfg, s.(finished := [])) == (s0, evicted) && Sort(s0.reqs, s0.waiting) == s0.waiting
    requires s0.running == [] && s0.finished == [] && s0.waiting == [id] + rest && id in s0.reqs && id !in rest
    requires s0.kv.pool.caching && Virgin(s0.kv.pool, m)
    requires s0.reqs[id].NumTokens() <= cfg.maxBatched && CeilDiv(s0.reqs[id].NumTokens(), cfg.blockSize) <= m
    ensures it.id == id && Serves(cfg, s, s0.reqs[id], s', it, evicted) && s'.waiting == rest && s'.reqs.Keys == s0.reqs.Keys
    ensures forall x :: x in s0.reqs && x != id ==> s'.reqs[x] == s0.reqs[x]
    ensures Gentle(s0, s', id, m - CeilDiv(s0.reqs[id].NumTokens(), cfg.blockSize))
    ensures forall b :: b !in hits ==> LeftAlone(s0, s', b)
    ensures it.start == |hits| * cfg.blockSize && hits <= it.table && Leading(s0.kv.pool, cfg.blockSize, s0.reqs[id].Tokens(), hits)
    ensures (|hits| + 1) * cfg.blockSize < s0.reqs[id].NumTokens() ==>
      Chain(s0.reqs[id].Tokens(), cfg.blockSize, |hits| + 1) !in s0.kv.pool.cached
  {
    hide SInv, AllocateSlots, GetComputed, Virgin, Chained, KvShaped, Schedule, CeilDiv, Sort, PreemptForPriority, Leading, Chain;
    AdmitGently(cfg, s0, id, m);
    var r, bs := s0.reqs[id], cfg.blockSize;
    var g := GetComputed(s0.kv, bs, r.Tokens());
    hits := g.1;
    var a := AllocateSlots(g.0, bs, id, r.Tokens(), 0, r.NumTokens() - g.2, hits);
    assert s0.waiting[1..] == rest;
    ScheduleHead(cfg, s, s0, evicted, id, rest, g.0, hits, g.2, a.0, a.1.value);
    s' := Let(s0, id, a.0, g.2);
    it := MakeScheduled(s', id, r.NumTokens() - g.2, true);
  }

  /** Blocks deeper than the request is long are no hits of it. */
  lemma DeepBlock(p: Pool, bs: nat, toks: seq<Token>, hits: seq<BlockId>, b: BlockId)
    requires bs > 0 && Leading(p, bs, toks, hits) && |hits| * bs < |toks| && b < |p.hash| && Depth(p.hash[b]) * bs >= |toks|
    ensures b !in hits
  {
    if b in hits {
      var i :| 0 <= i < |hits| && hits[i] == b;
      MulMono(i + 1, |hits|, bs);
      ChainShape(toks, bs, i + 1);
      assert false;
    }
  }

  // ------------------------------------------------------------------ the step

  /** The row the served request is sampled from. */
  function LastHidden(net: Net, bs: nat, embeds: Media, caches: seq<seq<KVal>>, it: Item, size: nat): Row
    requires OneBatch(net, bs, embeds, caches, it, size)
  {
    LastRow(net, bs, embeds, caches, it, size);
    RunModel(net, bs, embeds, caches, [it], size).1[|it.chunk| - 1]
  }

  /** The token the model gives the served request. */
  function ServedToken(net: Net, bs: nat, embeds: Media, caches: seq<seq<KVal>>, it: Item, r: Req, size: nat): Token
    requires OneBatch(net, bs, embeds, caches, it, size)
  {
    net.sample(LastHidden(net, bs, embeds, caches, it, size), SamplerState(r.params, |r.prompt|, r.Tokens()))
  }

  /** Where the scheduler stands once the served request has its token. */
  function After(cfg: Config, s': Sched, it: Item, t: Token): Sched
    requires Settled(s') && it.id in s'.reqs && it.id !in s'.waiting
  {
    var r2 := WithToken(s'.reqs[it.id], |it.chunk|, t);
    match CheckStop(r2, cfg.maxModelLen)
    case None => s'.(reqs := s'.reqs[it.id := r2])
    case Some(_) => FinishRunning(s'.(reqs := s'.reqs[it.id := r2]), it.id)
  }

  function Answer(cfg: Config, s': Sched, it: Item, t: Token): Req
    requires it.id in s'.reqs
  {
    var r2 := WithToken(s'.reqs[it.id], |it.chunk|, t);
    match CheckStop(r2, cfg.maxModelLen)
    case None => r2
    case Some(st) => r2.(status := st)
  }

  lemma StepServes(net: Net, cfg: Config, size: nat, e: Engine, r: Req, s': Sched, it: Item, preempted: seq<Id>)
    requires EBase(net, cfg, size, e) && net.layers == 1 && e.r.graphs == None && Serves(cfg, e.s, r, s', it, preempted)
    ensures StepDefined(net, cfg, e, size) && Settled(s') && SInv(cfg, s', [it])
    ensures OneBatch(net, cfg.blockSize, Held(e), e.r.caches, it, size)
    ensures var t := ServedToken(net, cfg.blockSize, Held(e), e.r.caches, it, r, size); var q := Step(net, cfg, e, size);
      && q.1 == Outputs([(it.id, Answer(cfg, s', it, t))])
      && q.0.s == After(cfg, s', it, t) && q.0.clock == e.clock && q.0.used == e.used && q.0.r.graphs == None
      && q.0.r.caches == RunModel(net, cfg.blockSize, Held(e), e.r.caches, [it], size).0
  {
    hide EBase, Plan, Schedule, Execute, Executable, Update, SInv, KvShaped, Mirrored, FinishRunning, RunModel, Runnable, CheckStop;
    var out := Output([it], preempted, e.s.finished);
    assert out.scheduled[0] == it;
    StepSafe(net, cfg, size, e);
    SchedulePlans(net, cfg, size, e);
    PlanExecutes(net, cfg, size, e, s', out);
    var q := Execute(net, cfg.blockSize, e.r, out, size);
    ForgetIsHeld(e, out);
    OneSampled(net, cfg.blockSize, s', e.r, out, it, size);
    MirrorWhole(s'.reqs[it.id], r, it);
    LastRow(net, cfg.blockSize, Held(e), e.r.caches, it, size);
    OneUpdate(cfg, s', it, ServedToken(net, cfg.blockSize, Held(e), e.r.caches, it, r, size));
  }

  lemma MirrorWhole(r': Req, r: Req, it: Item)
    requires r' == r.(status := Running, computed := it.start) && it.start + |it.chunk| == r.NumTokens()
    ensures Mirror(r', it.start + |it.chunk|) == SamplerState(r.params, |r.prompt|, r.Tokens())
  {
    assert r'.Tokens() == r.Tokens();
    assert Slice(r.Tokens(), 0, r.NumTokens()) == r.Tokens();
  }
}
