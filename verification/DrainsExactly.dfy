/** Exactly when the step loop ends, for requests that nothing but a length limit stops. */
module DrainsExactly {
  import opened Util
  import opened Hashing
  import opened BlockPoolSpec
  import opened BlockManagerSpec
  import opened BlockManagerInv
  import opened RequestSpec
  import opened SchedulerSpec
  import opened SchedulerInv
  import opened ScheduleStep
  import opened UpdateStep
  import opened Model
  import opened RunnerSpec
  import opened EngineSpec
  import opened EngineSafe
  import opened Progress
  import opened Drain
  import opened WriteLabels

  /** No token ends the request early. */
  predicate RunsToLength(r: Req) {
    (r.params.ignoreEos || r.eos.None?) && r.params.stopTokenIds == []
  }

  /** The request must come to compute more tokens than the whole pool holds. */
  ghost predicate TooLong(cfg: Config, blocks: nat, r: Req) {
    RunsToLength(r) && Longest(cfg, r) - 1 > blocks * cfg.blockSize
  }

  lemma LacksRoom(cfg: Config, blocks: nat, r: Req)
    requires cfg.blockSize > 0 && Admissible(r, cfg.maxModelLen)
    ensures CapacityFor(cfg, blocks, r) <==> Longest(cfg, r) - 1 <= blocks * cfg.blockSize
  {
    BlocksHold(Longest(cfg, r) - 1, cfg.blockSize, blocks);
  }

  lemma BlocksHold(n: nat, bs: nat, blocks: nat)
    requires bs > 0
    ensures CeilDiv(n, bs) <= blocks <==> n <= blocks * bs
  {
    CeilDivBounds(n, bs);
    if CeilDiv(n, bs) <= blocks {
      MulMono(CeilDiv(n, bs), blocks, bs);
    } else if n <= blocks * bs {
      MulMono(blocks, CeilDiv(n, bs) - 1, bs);
    }
  }

  lemma {:induction false} DistinctBelow(t: seq<BlockId>, n: nat)
    requires Distinct(t) && forall b :: b in t ==> b < n
    ensures |t| <= n
    decreases n
  {
    assert |t| > 0 ==> t[0] in t;
    if n > 0 {
      var last: BlockId := n - 1;
      RemoveDistinct(t, last);
      DistinctBelow(Remove(t, last), n - 1);
    }
  }

  /** What a step computes of one request fits the pool. */
  lemma ItemWithinPool(cfg: Config, s: Sched, out: seq<Item>, k: nat)
    requires SInv(cfg, s, out) && k < |out|
    ensures out[k].start + |out[k].chunk| <= PoolSize(s) * cfg.blockSize
    ensures out[k].id in s.reqs && s.reqs[out[k].id].computed == out[k].start
    ensures out[k].doSample ==> out[k].start + |out[k].chunk| == s.reqs[out[k].id].NumTokens()
  {
    hide SInv, HashAt, Chain;
    ItemFacts(cfg, s, out, k);
    var id := out[k].id;
    TableWithinPool(cfg, s, out, id);
    CeilDivBounds(Cover(s, out, id), cfg.blockSize);
    MulMono(CeilDiv(Cover(s, out, id), cfg.blockSize), PoolSize(s), cfg.blockSize);
  }

  lemma TableWithinPool(cfg: Config, s: Sched, out: seq<Item>, id: Id)
    requires SInv(cfg, s, out) && id in s.running
    ensures cfg.blockSize > 0 && id in s.reqs && CeilDiv(Cover(s, out, id), cfg.blockSize) <= PoolSize(s)
  {
    hide Filling, Items, Statuses, Bounded, Arrivals, PoolOk, Counted, HashesBlocked, HashAt, Chain;
    assert RowOk(cfg, s, out, id);
    assert InPool(s.kv.pool, s.kv.tables[id]);
    DistinctBelow(TableOf(s.kv, id), PoolSize(s));
  }

  /** A too long request outlives any update. */
  lemma UpdateOneTooLong(cfg: Config, s: Sched, it: Item, rest: seq<Item>, sampled: map<Id, Token>, id: Id)
    requires SInv(cfg, s, [it] + rest) && (it.doSample ==> it.id in sampled) && Settled(s) && it.id !in s.waiting
    requires id in s.reqs && TooLong(cfg, PoolSize(s), s.reqs[id])
    ensures var s1 := UpdateOne(cfg, s, it, sampled).0;
      id in s1.reqs && TooLong(cfg, PoolSize(s), s1.reqs[id]) && PoolSize(s1) == PoolSize(s)
  {
    hide SInv, KvShaped, FreeRequest;
    var all := [it] + rest;
    assert all[0] == it;
    ItemWithinPool(cfg, s, all, 0);
  }

  lemma {:induction false} UpdateTooLong(cfg: Config, s: Sched, items: seq<Item>, sampled: map<Id, Token>, id: Id)
    requires SInv(cfg, s, items) && Settled(s)
    requires forall it :: it in items ==> it.id !in s.waiting && (it.doSample ==> it.id in sampled)
    requires id in s.reqs && TooLong(cfg, PoolSize(s), s.reqs[id])
    ensures var s' := Update(cfg, s, items, sampled).0; id in s'.reqs && TooLong(cfg, PoolSize(s'), s'.reqs[id])
    decreases |items|
  {
    hide SInv, UpdateOne, KvShaped, TooLong;
    if items != [] {
      var it, rest := items[0], items[1..];
      assert items == [it] + rest;
      assert it in items && forall x :: x in rest ==> x in items;
      UpdateOneTooLong(cfg, s, it, rest, sampled, id);
      UpdateOneInv(cfg, s, it, rest, sampled);
      UpdateTooLong(cfg, UpdateOne(cfg, s, it, sampled).0, rest, sampled, id);
    }
  }

  lemma ScheduleTooLong(cfg: Config, s: Sched, s': Sched, id: Id)
    requires SameTokens(s, s') && PoolSize(s') == PoolSize(s) && id in s.reqs && TooLong(cfg, PoolSize(s), s.reqs[id])
    ensures id in s'.reqs && TooLong(cfg, PoolSize(s'), s'.reqs[id])
  {
    SameFields(s.reqs[id], s'.reqs[id]);
  }

  /** A step leaves a too long request live. */
  lemma StepTooLong(net: Net, cfg: Config, size: nat, e: Engine, id: Id)
    requires EBase(net, cfg, size, e) && StepDefined(net, cfg, e, size)
    requires id in e.s.reqs && TooLong(cfg, PoolSize(e.s), e.s.reqs[id])
    ensures var s' := Step(net, cfg, e, size).0.s; id in s'.reqs && TooLong(cfg, PoolSize(s'), s'.reqs[id])
  {
    hide SInv, KvShaped, Schedule, Execute, Executable, Update, SameTokens, TooLong;
    SInvWf(cfg, e.s, []);
    ScheduleInv(cfg, e.s);
    var (s', o) := Schedule(cfg, e.s);
    ScheduleTooLong(cfg, e.s, s', id);
    if o.Some? && (o.value.scheduled != [] || o.value.finished != []) {
      UpdateTooLong(cfg, s', o.value.scheduled, Execute(net, cfg.blockSize, e.r, o.value, size).1, id);
    }
  }

  /** Without a slot nobody is ever admitted, and whoever waits goes on waiting. */
  lemma StepNoSlot(net: Net, cfg: Config, size: nat, e: Engine)
    requires EBase(net, cfg, size, e) && StepDefined(net, cfg, e, size) && cfg.maxNumSeqs < 1
    ensures Step(net, cfg, e, size).0.s.reqs.Keys == e.s.reqs.Keys
  {
    hide SInv, KvShaped, Schedule, Execute, Executable;
    SInvWf(cfg, e.s, []);
    ScheduleInv(cfg, e.s);
    var (s', o) := Schedule(cfg, e.s);
    if o.Some? {
      NoSlots(cfg, s', o.value.scheduled);
    }
  }

  lemma NoSlots(cfg: Config, s: Sched, out: seq<Item>)
    requires SInv(cfg, s, out) && cfg.maxNumSeqs < 1
    ensures out == []
  {
    hide Rows, Filling, Statuses, Bounded, Arrivals, Items;
    ItemsRun(s, out);
  }

  lemma ItemsRun(s: Sched, out: seq<Item>)
    requires Items(s, out)
    ensures out != [] ==> s.running != []
  {
    if out != [] { assert ItemOk(s, out[0]); }
  }

  /** What keeps the loop from ever ending. */
  ghost predicate Stuck(cfg: Config, s: Sched) {
    || (s.reqs != map[] && cfg.maxNumSeqs < 1)
    || (exists id :: id in s.reqs && TooLong(cfg, PoolSize(s), s.reqs[id]))
  }

  lemma StuckLive(net: Net, cfg: Config, size: nat, e: Engine)
    requires EBase(net, cfg, size, e)
    ensures HasUnfinished(e.s) <==> e.s.reqs != map[]
    ensures forall id :: id in e.s.reqs ==> Admissible(e.s.reqs[id], cfg.maxModelLen)
    ensures cfg.blockSize > 0
  {
    hide Rows, Filling, Items, Statuses, Arrivals;
    if HasUnfinished(e.s) {
      var id := if e.s.waiting != [] then e.s.waiting[0] else e.s.running[0];
      assert id in e.s.waiting || id in e.s.running;
    }
  }

  lemma StaysStuck(net: Net, cfg: Config, size: nat, e: Engine)
    requires EBase(net, cfg, size, e) && StepDefined(net, cfg, e, size) && Stuck(cfg, e.s)
    ensures Stuck(cfg, Step(net, cfg, e, size).0.s)
  {
    hide EBase, StepDefined, Step, TooLong;
    if e.s.reqs != map[] && cfg.maxNumSeqs < 1 {
      StepNoSlot(net, cfg, size, e);
      var id :| id in e.s.reqs;
      assert id in e.s.reqs.Keys && id in Step(net, cfg, e, size).0.s.reqs;
    } else {
      var id :| id in e.s.reqs && TooLong(cfg, PoolSize(e.s), e.s.reqs[id]);
      StepTooLong(net, cfg, size, e, id);
    }
  }

  /** A stuck engine never drains. */
  lemma {:induction false} StuckForever(net: Net, cfg: Config, size: nat, e: Engine, states: seq<Engine>)
    requires EBase(net, cfg, size, e) && Stuck(cfg, e.s)
    ensures !Drained(net, cfg, size, e, states)
    decreases |states|
  {
    hide EBase, Step, StepDefined, Stuck;
    StuckLive(net, cfg, size, e);
    StuckHasSome(cfg, e.s);
    if Drained(net, cfg, size, e, states) {
      assert |states| > 1;
      assert Continues(net, cfg, size, states[0], states[1]);
      StepSafe(net, cfg, size, e);
      StaysStuck(net, cfg, size, e);
      var later := states[1..];
      forall i | 0 <= i < |later| - 1 ensures HasUnfinished(later[i].s) && Continues(net, cfg, size, later[i], later[i + 1]) {
        assert Continues(net, cfg, size, states[i + 1], states[i + 2]);
      }
      StuckForever(net, cfg, size, states[1], later);
    }
  }

  lemma StuckHasSome(cfg: Config, s: Sched)
    requires Stuck(cfg, s)
    ensures s.reqs != map[]
  {
  }

  /** The step loop ends, from a reachable state whose requests run to their length, if and only
      if there is a slot for whoever is live and the pool holds each of them on its own. */
  lemma DrainsIff(net: Net, cfg: Config, size: nat, e: Engine)
    requires EBase(net, cfg, size, e)
    requires forall id :: id in e.s.reqs ==> RunsToLength(e.s.reqs[id])
    ensures cfg.blockSize > 0
    ensures (exists states :: Drained(net, cfg, size, e, states))
      <==> (HasUnfinished(e.s) ==> cfg.maxNumSeqs >= 1) && Capacity(cfg, e.s)
  {
    hide EBase, Drained, CapacityFor, RunsToLength;
    StuckLive(net, cfg, size, e);
    forall id | id in e.s.reqs
      ensures !CapacityFor(cfg, PoolSize(e.s), e.s.reqs[id]) <==> TooLong(cfg, PoolSize(e.s), e.s.reqs[id])
    {
      LacksRoom(cfg, PoolSize(e.s), e.s.reqs[id]);
    }
    if Stuck(cfg, e.s) {
      forall states ensures !Drained(net, cfg, size, e, states) { StuckForever(net, cfg, size, e, states); }
    } else if HasUnfinished(e.s) {
      var states := StepLoopDrains(net, cfg, size, e);
    } else {
      NothingToDrain(net, cfg, size, e);
    }
  }

  lemma NothingToDrain(net: Net, cfg: Config, size: nat, e: Engine)
    requires !HasUnfinished(e.s)
    ensures Drained(net, cfg, size, e, [e])
  {
  }
}
