/** Runs of the telltale network with one live request at a time. */
module Solitary {
  import opened Util
  import opened Hashing
  import opened BlockPoolSpec
  import opened BlockManagerSpec
  import opened BlockManagerInv
  import opened RequestSpec
  import opened SchedulerSpec
  import opened SchedulerInv
  import opened Model
  import opened Attention
  import opened ForwardCorrect
  import opened LabelInv
  import opened RunnerSpec
  import opened EngineSpec
  import opened EngineInv
  import opened EngineSafe
  import opened EngineStep
  import opened Untouched
  import opened OneSlot
  import opened OneItem
  import opened LoneStep
  import opened Telltale

  /** The request with one more token. */
  ghost predicate Next(r: Req, r': Req, t: Token) {
    && r'.prompt == r.prompt && r'.output == r.output + [t] && r'.params == r.params
    && r'.eos == r.eos && r'.priority == r.priority
  }

  /** This token is its last. */
  predicate Ends(cfg: Config, r: Req) {
    |r.output| + 1 >= r.params.maxTokens || r.NumTokens() + 1 >= cfg.maxModelLen
  }

  lemma Cleared(cfg: Config, s: Sched)
    requires SInv(cfg, s, [])
    ensures SInv(cfg, s.(finished := []), []) && Wf(s) && Wf(s.(finished := []))
  {
    hide KvOk, HashAt, Chain;
    var s0 := s.(finished := []);
    forall id | id in s0.running ensures RowOk(cfg, s0, [], id) { assert RowOk(cfg, s, [], id); }
    forall id | id in s0.reqs ensures StatusOk(s0, id) { assert StatusOk(s, id); }
    forall a, b, i: nat | a in s0.running && b in s0.running && a != b && SharedAt(s0.kv, a, b, i) ensures PastOne(s0, cfg.blockSize, a, b, i) {
      assert PastOne(s, cfg.blockSize, a, b, i);
    }
    SInvWf(cfg, s, []);
  }

  /** What schedule() makes of one live request. */
  lemma PlanLone(net: Net, cfg: Config, size: nat, e: Engine, id: Id, m: nat) returns (s': Sched, it: Item)
    requires Lone(net, cfg, size, e, id, m) && e.s.reqs[id].NumTokens() <= cfg.maxBatched && e.s.reqs[id].NumTokens() <= m
    ensures it.id == id && Serves(cfg, e.s, e.s.reqs[id], s', it, []) && s'.waiting == [] && s'.reqs.Keys == {id}
    ensures Gentle(e.s, s', id, m - e.s.reqs[id].NumTokens()) && PoolOk(e.s.kv.pool)
    ensures forall b: nat :: b < |e.s.kv.pool.hash| && Depth(e.s.kv.pool.hash[b]) * cfg.blockSize >= e.s.reqs[id].NumTokens() ==>
      LeftAlone(e.s, s', b)
  {
    hide SInv, Mirrored, IdsOk, CachesOk, Virgin, Chained, Serves, Leading, Grows, PoolOk, CeilDiv, KvShaped;
    var r := e.s.reqs[id];
    CeilLess(r.NumTokens(), cfg.blockSize);
    PoolOfSched(cfg, e.s);
    if e.s.running == [id] {
      s', it := PlanRunning(cfg, e.s, id, m);
    } else {
      Cleared(cfg, e.s);
      var s0 := e.s.(finished := []);
      LoneQueue(cfg, s0, id);
      assert s0.waiting == [id] + [];
      var hits;
      s', it, hits := PlanHead(cfg, e.s, s0, [], id, [], m);
      forall b: nat | b < |e.s.kv.pool.hash| && Depth(e.s.kv.pool.hash[b]) * cfg.blockSize >= r.NumTokens() ensures LeftAlone(e.s, s', b) {
        LeadingShort(cfg, e.s, r, s', it, [], hits);
        DeepBlock(s0.kv.pool, cfg.blockSize, r.Tokens(), hits, b);
      }
    }
    VirginLess(s'.kv.pool, m - CeilDiv(r.NumTokens(), cfg.blockSize), m - r.NumTokens());
  }

  lemma PoolOfSched(cfg: Config, s: Sched)
    requires SInv(cfg, s, [])
    ensures PoolOk(s.kv.pool)
  {
  }

  lemma LeadingShort(cfg: Config, s: Sched, r: Req, s': Sched, it: Item, pre: seq<Id>, hits: seq<BlockId>)
    requires Serves(cfg, s, r, s', it, pre) && it.start == |hits| * cfg.blockSize
    ensures |hits| * cfg.blockSize < |r.Tokens()|
  {
    hide Schedule, KvShaped;
  }

  /** What one step makes of a lone request that samples t: the token is handed back, and the
      request goes on with it or is gone. */
  ghost predicate Advances(net: Net, cfg: Config, size: nat, e: Engine, id: Id, m: nat, t: Token, e': Engine, out: StepResult)
    requires id in e.s.reqs && e.s.reqs[id].NumTokens() <= m
  {
    var r := e.s.reqs[id];
    && out.Outputs? && |out.outputs| == 1 && out.outputs[0].0 == id && Next(r, out.outputs[0].1, t)
    && Keeps(cfg.blockSize, e, e', r.NumTokens()) && AllCached(e'.s.kv.pool, cfg.blockSize, r.Tokens())
    && (forall x :: x in e'.s.finished ==> x == id)
    && if Ends(cfg, r) then Quiet(net, cfg, size, e', m - r.NumTokens())
       else Lone(net, cfg, size, e', id, m - r.NumTokens()) && Next(r, e'.s.reqs[id], t) && e'.s.running == [id]
  }

  /** One step of a lone request, that samples from some row. */
  lemma LoneServed(net: Net, cfg: Config, size: nat, e: Engine, id: Id, m: nat) returns (row: Row)
    requires Lone(net, cfg, size, e, id, m) && Plain(e.s.reqs[id])
    requires e.s.reqs[id].NumTokens() <= cfg.maxBatched && e.s.reqs[id].NumTokens() <= m
    ensures StepDefined(net, cfg, e, size)
    ensures var r := e.s.reqs[id]; var (e', out) := Step(net, cfg, e, size);
      Advances(net, cfg, size, e, id, m, net.sample(row, SamplerState(r.params, |r.prompt|, r.Tokens())), e', out)
  {
    hide EBase, SInv, Virgin, Chained, Grows, PoolOk, KvShaped, Schedule, RunModel, OneBatch, StepDefined, Step, Settled,
         FreeRequest, Keeps, AllCached, CheckStop, FinishRunning, Serves, LastHidden, After, Answer;
    var r := e.s.reqs[id];
    BaseOf(net, cfg, size, e, id, m);
    var s', it := PlanLone(net, cfg, size, e, id, m);
    StepServes(net, cfg, size, e, r, s', it, []);
    ServedPool(net, cfg, size, e, e.s, r, s', it, [], m - r.NumTokens(), r.NumTokens());
    row := LastHidden(net, cfg.blockSize, Held(e), e.r.caches, it, size);
    ServesFacts(cfg, e.s, r, s', it, []);
    AfterLists(cfg, s', it, r, ServedToken(net, cfg.blockSize, Held(e), e.r.caches, it, r, size));
  }

  lemma ServesFacts(cfg: Config, s: Sched, r: Req, s': Sched, it: Item, pre: seq<Id>)
    requires Serves(cfg, s, r, s', it, pre)
    ensures s'.running == [it.id] && s'.finished == [] && it.id in s'.reqs && it.id !in s'.waiting
    ensures s'.reqs[it.id] == r.(status := Running, computed := it.start)
  {
    hide Schedule, KvShaped;
  }

  lemma BaseOf(net: Net, cfg: Config, size: nat, e: Engine, id: Id, m: nat)
    requires Lone(net, cfg, size, e, id, m)
    ensures EBase(net, cfg, size, e) && SInv(cfg, e.s, []) && cfg.blockSize > 0 && e.r.graphs == None
  {
    hide SInv;
  }

  /** The lists once the served request has its token. */
  lemma AfterLists(cfg: Config, s': Sched, it: Item, r: Req, t: Token)
    requires Settled(s') && s'.running == [it.id] && s'.finished == [] && it.id in s'.reqs && it.id !in s'.waiting && Plain(r)
    requires s'.reqs[it.id] == r.(status := Running, computed := it.start)
    ensures var s2 := After(cfg, s', it, t);
      && s2.waiting == s'.waiting && (forall x :: x in s2.finished ==> x == it.id)
      && Next(r, Answer(cfg, s', it, t), t)
      && if Ends(cfg, r) then s2.running == [] && s2.reqs == s'.reqs - {it.id}
         else s2.running == [it.id] && Next(r, s2.reqs[it.id], t) && s2.reqs.Keys == s'.reqs.Keys
              && forall x :: x in s'.reqs && x != it.id ==> s2.reqs[x] == s'.reqs[x]
  {
    hide KvShaped, FreeRequest;
    PlainStops(s'.reqs[it.id], |it.chunk|, t, cfg.maxModelLen);
    var r2 := WithToken(s'.reqs[it.id], |it.chunk|, t);
    assert s'.reqs[it.id := r2] - {it.id} == s'.reqs - {it.id};
    assert Remove([it.id], it.id) == [];
  }

  // ------------------------------------------------------------------ a more urgent request in between

  /** One request in the slot and a more urgent one, about to end, in the queue. */
  ghost predicate Rivals(net: Net, cfg: Config, size: nat, e: Engine, b: Id, c: Id, m: nat) {
    && EBase(net, cfg, size, e) && net.layers == 1 && e.r.graphs == None && OneAtATime(cfg)
    && b != c && e.s.reqs.Keys == {b, c} && e.s.running == [b] && e.s.waiting == [c]
    && e.s.reqs[c].priority > e.s.reqs[b].priority && Plain(e.s.reqs[c]) && Ends(cfg, e.s.reqs[c])
    && e.s.kv.pool.caching && Virgin(e.s.kv.pool, m)
  }

  /** Evicting the running request. */
  lemma EvictedOk(cfg: Config, s: Sched, b: Id, c: Id, m: nat)
    requires SInv(cfg, s, []) && Wf(s) && s.running == [b] && s.waiting == [c] && b in s.reqs && s.finished == []
    requires Virgin(s.kv.pool, m)
    ensures var s0 := Evicted(s, b);
      && SInv(cfg, s0, []) && Before(s, s0) && Virgin(s0.kv.pool, m)
      && s0.reqs == s.reqs[b := s.reqs[b].(status := Preempted, computed := 0)]
  {
    hide Rows, Filling, KvShaped, FreeRequest, Virgin;
    PreemptInv(cfg, s, [], b, []);
    RowOfRunning(cfg, s, b);
    FreeVirgin(s.kv, cfg.blockSize, b, m);
  }

  lemma RowOfRunning(cfg: Config, s: Sched, b: Id)
    requires SInv(cfg, s, []) && b in s.running
    ensures KvOk(s.kv, cfg.blockSize, []) && Distinct(TableOf(s.kv, b)) && cfg.blockSize > 0
  {
    hide KvOk, HashAt, Chain, Filling, Items, Statuses, Bounded, Arrivals;
    assert RowOk(cfg, s, [], b);
  }

  lemma PlanRivals(net: Net, cfg: Config, size: nat, e: Engine, b: Id, c: Id, m: nat) returns (s0: Sched, s': Sched, it: Item)
    requires Rivals(net, cfg, size, e, b, c, m) && e.s.reqs[c].NumTokens() <= cfg.maxBatched && e.s.reqs[c].NumTokens() <= m
    ensures it.id == c && Serves(cfg, e.s, e.s.reqs[c], s', it, [b]) && s'.waiting == [b] && s'.reqs.Keys == {b, c}
    ensures s'.reqs[b] == e.s.reqs[b].(status := Preempted, computed := 0)
    ensures Before(e.s, s0) && Gentle(s0, s', c, m - e.s.reqs[c].NumTokens()) && PoolOk(s0.kv.pool)
    ensures forall x: nat :: x < |s0.kv.pool.hash| && Depth(s0.kv.pool.hash[x]) * cfg.blockSize >= e.s.reqs[c].NumTokens() ==>
      LeftAlone(s0, s', x)
  {
    hide SInv, Mirrored, IdsOk, CachesOk, Virgin, Chained, Serves, Leading, Grows, PoolOk, CeilDiv, KvShaped, Preempt, Evicted, Ends;
    var r := e.s.reqs[c];
    CeilLess(r.NumTokens(), cfg.blockSize);
    Cleared(cfg, e.s);
    var s1 := e.s.(finished := []);
    UrgentQueue(cfg, s1, b, c);
    EvictedOk(cfg, s1, b, c, m);
    s0 := Evicted(s1, b);
    PoolOfSched(cfg, s0);
    var hits;
    s', it, hits := PlanHead(cfg, e.s, s0, [b], c, [b], m);
    LeadingShort(cfg, e.s, r, s', it, [b], hits);
    forall x: nat | x < |s0.kv.pool.hash| && Depth(s0.kv.pool.hash[x]) * cfg.blockSize >= r.NumTokens() ensures LeftAlone(s0, s', x) {
      DeepBlock(s0.kv.pool, cfg.blockSize, r.Tokens(), hits, x);
    }
    VirginLess(s'.kv.pool, m - CeilDiv(r.NumTokens(), cfg.blockSize), m - r.NumTokens());
  }

  /** The urgent request is answered and gone; the other is back in the queue. */
  lemma RivalServed(net: Net, cfg: Config, size: nat, e: Engine, b: Id, c: Id, m: nat)
    requires Rivals(net, cfg, size, e, b, c, m) && e.s.reqs[c].NumTokens() <= cfg.maxBatched && e.s.reqs[c].NumTokens() <= m
    ensures StepDefined(net, cfg, e, size)
    ensures var (e', out) := Step(net, cfg, e, size);
      && out.Outputs? && Lone(net, cfg, size, e', b, m - e.s.reqs[c].NumTokens()) && e'.s.running == []
      && e'.s.reqs[b] == e.s.reqs[b].(status := Preempted, computed := 0)
      && Keeps(cfg.blockSize, e, e', e.s.reqs[c].NumTokens())
  {
    hide EBase, SInv, Virgin, Chained, Grows, PoolOk, KvShaped, Schedule, RunModel, OneBatch, StepDefined, Step, Settled,
         FreeRequest, Keeps, AllCached, CheckStop, FinishRunning, Serves, LastHidden, After, Answer, Before, Ends;
    var r := e.s.reqs[c];
    var s0, s', it := PlanRivals(net, cfg, size, e, b, c, m);
    StepServes(net, cfg, size, e, r, s', it, [b]);
    ServedPool(net, cfg, size, e, s0, r, s', it, [b], m - r.NumTokens(), r.NumTokens());
    ServesFacts(cfg, e.s, r, s', it, [b]);
    AfterLists(cfg, s', it, r, ServedToken(net, cfg.blockSize, Held(e), e.r.caches, it, r, size));
  }

  // ------------------------------------------------------------------ the telling step

  /** A waiting request whose tokens go past the prefix, while the prefix is cached with the
      telling entry in its last block. */
  ghost predicate Primed(w: Scene, e: Engine, r: Req, b: BlockId) {
    && w.Ok() && w.prefix <= r.Tokens() && |w.prefix| < r.NumTokens()
    && (forall i: nat :: i < w.k ==> CachedAt(e.s.kv.pool, w.bs, w.prefix, i))
    && Parked(w.bs, e, b, Chain(w.prefix, w.bs, w.k), w.p % w.bs, w.k1)
  }

  /** The hits reach the telling block. */
  lemma HitsReach(w: Scene, p: Pool, toks: seq<Token>, hits: seq<BlockId>, b: BlockId)
    requires w.Ok() && w.prefix <= toks && |w.prefix| < |toks| && PoolOk(p)
    requires forall i: nat :: i < w.k ==> CachedAt(p, w.bs, w.prefix, i)
    requires Chain(w.prefix, w.bs, w.k) in p.cached && p.cached[Chain(w.prefix, w.bs, w.k)] == b
    requires Leading(p, w.bs, toks, hits)
    requires (|hits| + 1) * w.bs < |toks| ==> Chain(toks, w.bs, |hits| + 1) !in p.cached
    ensures w.k <= |hits| && hits[w.k - 1] == b
  {
    hide Chain;
    if |hits| < w.k {
      MulMono(|hits| + 1, w.k, w.bs);
      SamePrefixChain(w.prefix, toks, w.bs, |hits| + 1);
      NotMissing(w, p, toks, |hits|);
    }
    SamePrefixChain(w.prefix, toks, w.bs, w.k);
    assert p.hash[hits[w.k - 1]] == Chain(w.prefix, w.bs, w.k);
  }

  lemma NotMissing(w: Scene, p: Pool, toks: seq<Token>, i: nat)
    requires CachedAt(p, w.bs, w.prefix, i) && (i + 1) * w.bs <= |w.prefix| && Chain(w.prefix, w.bs, i + 1) == Chain(toks, w.bs, i + 1)
    ensures Chain(toks, w.bs, i + 1) in p.cached
  {
  }

  lemma SamePrefixChain(prefix: seq<Token>, toks: seq<Token>, bs: nat, i: nat)
    requires prefix <= toks && i * bs <= |prefix|
    ensures Chain(prefix, bs, i) == Chain(toks, bs, i)
  {
    assert toks == prefix + toks[|prefix|..];
    ChainAppend(prefix, toks[|prefix|..], bs, i);
  }

  /** What the served request reads at position p is what was parked there. */
  lemma ReadsParked(w: Scene, cfg: Config, s': Sched, embeds: Media, caches: seq<seq<KVal>>, it: Item, size: nat, b: BlockId, at: nat)
    requires w.Ok() && cfg.blockSize == w.bs && SInv(cfg, s', [it]) && OneBatch(w.Network(), w.bs, embeds, caches, it, size)
    requires it.id in s'.running && it.id in s'.reqs && it.table == TableOf(s'.kv, it.id)
    requires w.p < it.start && w.k <= |it.table| && it.table[w.k - 1] == b
    requires |caches| == 1 && at == b * w.bs + w.p % w.bs && at < |caches[0]| && caches[0][at] == w.k1
    ensures LastHidden(w.Network(), w.bs, embeds, caches, it, size) == w.x
  {
    hide SInv, OneBatch, RunModel, Distinct, Stored, SlotOf;
    var net := w.Network();
    BatchFits(net, w.bs, embeds, caches, it, size);
    FloorUnique(w.p, w.bs, w.k - 1);
    RowDistinctHere(cfg, s', it);
    NotWritten(w.bs, it, b, w.p % w.bs, w.p);
    OtherSlots(net, w.bs, embeds, caches, it, size, at);
    LastRow(net, w.bs, embeds, caches, it, size);
    assert ItemSlots(w.bs, it)[w.p] == SlotOf(w.bs, it.table, w.p);
    SlotIs(w.bs, it.table, w.p, b, at);
  }

  lemma SlotIs(bs: nat, table: seq<BlockId>, p: nat, b: BlockId, at: nat)
    requires bs > 0 && FloorDiv(p, bs) < |table| && table[FloorDiv(p, bs)] == b && at == b * bs + p % bs
    ensures SlotOf(bs, table, p) == at
  {
  }

  lemma RowDistinctHere(cfg: Config, s': Sched, it: Item)
    requires SInv(cfg, s', [it]) && it.id in s'.running
    ensures Distinct(TableOf(s'.kv, it.id))
  {
    hide KvOk, HashAt, Chain, Filling, Items, Statuses, Bounded, Arrivals;
    assert RowOk(cfg, s', [it], it.id);
  }

  /** The telling step: the request's next token is 1, whatever its own row at p is. */
  lemma Telling(w: Scene, cfg: Config, size: nat, e: Engine, id: Id, m: nat, b: BlockId)
    requires Lone(w.Network(), cfg, size, e, id, m) && e.s.running == [] && cfg.blockSize == w.bs && Plain(e.s.reqs[id])
    requires Primed(w, e, e.s.reqs[id], b) && e.s.reqs[id].NumTokens() <= cfg.maxBatched && e.s.reqs[id].NumTokens() <= m
    ensures StepDefined(w.Network(), cfg, e, size)
    ensures var out := Step(w.Network(), cfg, e, size).1;
      out.Outputs? && |out.outputs| == 1 && out.outputs[0].0 == id && Next(e.s.reqs[id], out.outputs[0].1, 1)
  {
    hide EBase, SInv, Virgin, Chained, Grows, PoolOk, KvShaped, Schedule, RunModel, OneBatch, StepDefined, Step, Settled,
         FreeRequest, AllCached, CheckStop, FinishRunning, Serves, LastHidden, After, Answer, Leading, Chain, CeilDiv, CachedAt;
    var r, net := e.s.reqs[id], w.Network();
    BaseOf(net, cfg, size, e, id, m);
    CeilLess(r.NumTokens(), cfg.blockSize);
    Cleared(cfg, e.s);
    PoolOfSched(cfg, e.s);
    var s0 := e.s.(finished := []);
    LoneQueue(cfg, s0, id);
    assert s0.waiting == [id] + [];
    var s', it, hits := PlanHead(cfg, e.s, s0, [], id, [], m);
    HitsReach(w, e.s.kv.pool, r.Tokens(), hits, b);
    StepServes(net, cfg, size, e, r, s', it, []);
    ServesFacts(cfg, e.s, r, s', it, []);
    MulMono(w.k, |hits|, w.bs);
    assert it.table[w.k - 1] == hits[w.k - 1];
    TableServed(cfg, e.s, r, s', it, []);
    ReadsParked(w, cfg, s', Held(e), e.r.caches, it, size, b, b * w.bs + w.p % w.bs);
    AfterLists(cfg, s', it, r, ServedToken(net, cfg.blockSize, Held(e), e.r.caches, it, r, size));
  }

  lemma TableServed(cfg: Config, s: Sched, r: Req, s': Sched, it: Item, pre: seq<Id>)
    requires Serves(cfg, s, r, s', it, pre)
    ensures it.table == TableOf(s'.kv, it.id)
  {
    hide Schedule, KvShaped;
  }
}
