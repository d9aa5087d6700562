/** Which forward pass a step runs, said of the scheduled items in numbers. */
module Paths {
  import opened Hashing
  import opened BlockManagerSpec
  import opened SchedulerSpec
  import opened SchedulerInv
  import opened SchedulePhases
  import opened Assertions
  import opened Model
  import opened NewItems
  import opened RunnerSpec
  import opened WriteLabels
  import opened ExecuteCorrect
  import opened EngineSpec
  import opened EngineInv
  import opened EngineSafe
  import opened EngineStep

  /** Every item is one token, and it is the last its request has. */
  ghost predicate LastTokens(s: Sched, items: seq<Item>) {
    forall k :: 0 <= k < |items| ==>
      items[k].id in s.reqs && |items[k].chunk| == 1
      && items[k].start + 1 == |s.reqs[items[k].id].prompt| + |s.reqs[items[k].id].output|
  }

  lemma DecodesLast(cfg: Config, s: Sched, items: seq<Item>)
    requires SInv(cfg, s, items)
    ensures PureDecode(items) <==> LastTokens(s, items)
  {
    hide SInv;
    forall k | 0 <= k < |items| ensures items[k].id in s.reqs &&
      (items[k].doSample <==> items[k].start + |items[k].chunk| == |s.reqs[items[k].id].prompt| + |s.reqs[items[k].id].output|)
    {
      ItemFacts(cfg, s, items, k);
    }
  }

  /** The forward pass a batch gets: the captured graph's if one was captured, the batch is no
      larger than its largest bucket and every item is its request's last token; the eager one
      on the requests' own rows otherwise. */
  ghost predicate PathIs(net: Net, bs: nat, e: Engine, s: Sched, items: seq<Item>, size: nat, q: (Runner, map<Id, Token>)) {
    var graph := e.r.graphs.Some? && |items| <= e.r.graphs.value.max && LastTokens(s, items);
    && (if graph then Replayable(net, bs, e.r.graphs.value, e.r.caches, items, size) else Runnable(net, bs, Held(e), e.r.caches, items, size))
    && var p := if graph then ReplayModel(net, bs, e.r.graphs.value, e.r.caches, items, size) else RunModel(net, bs, Held(e), e.r.caches, items, size);
    && q.0.caches == p.0
    && SampleOk(p.1, items, q.0.states) && q.1 == SampleRows(net, p.1, items, q.0.states, |items|)
  }

  /** Every step that serves somebody takes exactly that path. */
  lemma PathTaken(net: Net, cfg: Config, size: nat, e: Engine)
    requires EBase(net, cfg, size, e)
    ensures StepDefined(net, cfg, e, size)
    ensures var (s', o) := Schedule(cfg, e.s);
      o.Some? && o.value.scheduled != [] ==>
        PathIs(net, cfg.blockSize, e, s', o.value.scheduled, size, Execute(net, cfg.blockSize, e.r, o.value, size))
  {
    hide EBase, Schedule, Update, SInv, KvShaped, Settled, ScheduleAsserts, UpdateAsserts, SameTokens, Accounted, AllButLast, InSync, Mirrored, LastTokens,
         Replayable, Runnable, SampleOk, SampleRows, FeedAll, PureDecode;
    StepSafe(net, cfg, size, e);
    SchedulePlans(net, cfg, size, e);
    var (s', o) := Schedule(cfg, e.s);
    if o.Some? && o.value.scheduled != [] {
      PlanExecutes(net, cfg, size, e, s', o.value);
      DecodesLast(cfg, s', o.value.scheduled);
      ForgetIsHeld(e, o.value);
    }
  }
}
