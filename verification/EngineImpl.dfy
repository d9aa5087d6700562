/** inferneo/engine/engine.py: the engine object. Its ghost labels witness the engine invariant;
    every method takes whatever the source's takes, and says when it keeps that invariant. */
module EngineImpl {
  import opened Util
  import opened Hashing
  import opened BlockPoolSpec
  import opened BlockManagerSpec
  import opened BlockManagerImpl
  import opened RequestSpec
  import opened RequestImpl
  import opened SchedulerSpec
  import opened SchedulerInv
  import opened SchedulerImpl
  import opened ScheduleStep
  import opened Model
  import opened ForwardCorrect
  import opened GraphSpec
  import opened RunnerSpec
  import opened RunnerImpl
  import opened EngineSpec
  import opened LabelInv
  import opened EngineInv
  import opened EngineSafe
  import opened Endings
  import opened EngineStep
  import opened EngineRun

  class InferneoEngine {
    const scheduler: Scheduler
    const runner: TorchRunner
    /** Arrival times: a sequence number per accepted request. */
    var clock: nat
    ghost var used: set<Id>
    ghost var labels: Labels

    ghost function View(): Engine
      reads this, scheduler, scheduler.requests.Values, scheduler.kv, scheduler.kv.pool, scheduler.kv.pool.blocks, runner, runner.kvCaches
    {
      Engine(scheduler.View(), runner.View(), clock, used)
    }

    /** What every call keeps. */
    ghost predicate Valid()
      reads this, scheduler, scheduler.requests.Values, scheduler.kv, scheduler.kv.pool, scheduler.kv.pool.blocks, runner, runner.kvCaches
    {
      && scheduler.Valid() && runner.Valid() && runner.blockSize == scheduler.cfg.blockSize
      && EBase(runner.net, scheduler.cfg, runner.size, View())
    }

    /** The caches hold what the tables say, and every live request is on its solo stream. */
    ghost predicate Sound()
      reads this, scheduler, scheduler.requests.Values, scheduler.kv, scheduler.kv.pool, scheduler.kv.pool.blocks, runner, runner.kvCaches
    {
      EInv(runner.net, scheduler.cfg, runner.size, View(), labels)
    }

    /** The addition is refused by its own checks or keeps the invariant. */
    ghost predicate Keeps(e: Engine, id: Id, prompt: seq<Token>, params: Params, embeds: Option<seq<Row>>)
      reads this
    {
      Refused(scheduler.cfg, prompt, params) || AddKeepable(runner.net, scheduler.cfg, e, id, prompt, embeds, labels.book)
    }

    /** The runner's caches hold at least the pool's blocks. The book is the reader's choice. */
    constructor (cfg: Config, net: Net, numBlocks: nat, caching: bool, caches: seq<array<KVal>>, size: nat, graphs: Option<Graphs>, ghost book: Book)
      requires cfg.blockSize > 0 && cfg.maxBatched > 0 && numBlocks > 0 && numBlocks * cfg.blockSize <= size
      requires |caches| == net.layers && forall i :: 0 <= i < |caches| ==> caches[i].Length == size
      requires forall i, j :: 0 <= i < j < |caches| ==> caches[i] != caches[j]
      requires GraphsFit(graphs, numBlocks, cfg.blockSize, size)
      ensures Valid() && Sound() && labels.book == book && scheduler.cfg == cfg && runner.net == net
      ensures View() == NewEngine(numBlocks, caching, runner.Caches(), graphs)
      ensures fresh(scheduler) && fresh(scheduler.kv) && fresh(scheduler.kv.pool) && fresh(scheduler.kv.pool.blocks) && fresh(runner)
      ensures scheduler.requests == map[] && runner.kvCaches == caches
    {
      hide EInv, EBase, SInv, KvShaped, Wf, NewPool;
      var kv := new KVCacheManager(numBlocks, cfg.blockSize, caching);
      scheduler := new Scheduler(cfg, kv);
      runner := new TorchRunner(net, cfg.blockSize, size, caches, graphs);
      clock, used, labels := 0, {}, Labels(map[], book);
      new;
      assert scheduler.requests == map[] && runner.kvCaches == caches;
      NewEngineBase(net, cfg, size, numBlocks, caching, runner.Caches(), graphs);
      NewEngineInv(net, cfg, size, numBlocks, caching, runner.Caches(), graphs, book);
    }

    /** add_request: length checks, then embeddings to the runner, then the scheduler's check. */
    method AddRequest(id: Id, prompt: seq<Token>, params: Params, eos: Option<Token>, priority: int, embeds: Option<seq<Row>>)
        returns (r: AddResult)
      requires Valid()
      modifies this, scheduler, runner
      ensures Valid() && fresh(scheduler.requests.Values - old(scheduler.requests.Values)) && labels == old(labels)
      ensures (View(), r) == EngineSpec.AddRequest(scheduler.cfg, old(View()), id, prompt, params, eos, priority, embeds)
      ensures old(Sound()) && Keeps(old(View()), id, prompt, params, embeds) ==> Sound()
    {
      hide EBase, EInv, scheduler.View, scheduler.Valid, runner.Caches, AddKeepable, EngineSpec.AddRequest;
      ghost var e := View();
      AddCases(scheduler.cfg, e, id, prompt, params, eos, priority, embeds);
      AddBase(runner.net, scheduler.cfg, runner.size, e, id, prompt, params, eos, priority, embeds);
      if Sound() && Keeps(e, id, prompt, params, embeds) {
        AddKeeps(runner.net, scheduler.cfg, runner.size, e, id, prompt, params, eos, priority, embeds, labels);
      }
      if !(1 <= params.maxTokens && params.minTokens <= params.maxTokens) || prompt == [] || |prompt| >= scheduler.cfg.maxModelLen {
        return Rejected;
      }
      var ok := Enqueue(id, prompt, params, eos, priority, embeds);
      if !ok {
        return Rejected;
      }
      clock := clock + 1;
      used := used + {id};
      r := Accepted(id);
    }

    /** The part of add_request after its length checks. */
    method Enqueue(id: Id, prompt: seq<Token>, params: Params, eos: Option<Token>, priority: int, embeds: Option<seq<Row>>)
        returns (ok: bool)
      requires scheduler.Valid() && runner.Valid()
      modifies scheduler, runner
      ensures scheduler.Valid() && runner.Valid() && fresh(scheduler.requests.Values - old(scheduler.requests.Values))
      ensures runner.View() == old(runner.View()).(embeds := if embeds.Some? then old(runner.promptEmbeds)[id := embeds.value] else old(runner.promptEmbeds))
      ensures var r := SchedulerSpec.AddRequest(old(scheduler.View()), id, Req(prompt, [], 0, Waiting, priority, clock, eos, params));
        ok == r.Some? && scheduler.View() == if ok then r.value else old(scheduler.View())
    {
      hide runner.Caches, scheduler.Reqs;
      var req := new EngineRequest(id, prompt, params, eos, priority, clock);
      assert scheduler.View() == old(scheduler.View());
      if embeds.Some? {
        runner.SetPromptEmbeds(id, embeds.value);
      }
      assert scheduler.View() == old(scheduler.View());
      ok := scheduler.AddRequest(req);
    }

    /** abort_request */
    method AbortRequest(id: Id)
      requires Valid()
      modifies this, scheduler, scheduler.requests.Values, scheduler.kv, scheduler.kv.pool, scheduler.kv.pool.blocks
      ensures Valid() && scheduler.requests == old(scheduler.requests) - {id} && labels == old(labels)
      ensures View() == EngineSpec.AbortRequest(old(View()), id)
      ensures old(Sound()) ==> Sound()
    {
      hide EBase, EInv, SInv, scheduler.View, scheduler.Valid, runner.Caches;
      AbortBase(runner.net, scheduler.cfg, runner.size, View(), id);
      if Sound() {
        AbortKeeps(runner.net, scheduler.cfg, runner.size, View(), id, labels);
      }
      AbortNeeds(runner.net, scheduler.cfg, runner.size, View());
      scheduler.Abort(id);
    }

    function HasUnfinished(): (b: bool)
      reads this, scheduler, scheduler.requests.Values, scheduler.kv, scheduler.kv.pool, scheduler.kv.pool.blocks
      ensures b == SchedulerSpec.HasUnfinished(scheduler.View())
    {
      scheduler.HasUnfinished()
    }

    /** step(): schedule, execute, update. Nothing it relies on can fail but the source's own
        RuntimeError; from a sound state, each output is where the request's solo run is. */
    method Step() returns (r: StepResult)
      requires Valid()
      modifies this, scheduler, scheduler.requests.Values, scheduler.kv, scheduler.kv.pool, scheduler.kv.pool.blocks, runner, runner.kvCaches
      ensures Valid() && scheduler.requests.Values <= old(scheduler.requests.Values) && labels.book == old(labels.book)
      ensures StepDefined(runner.net, scheduler.cfg, old(View()), runner.size)
      ensures (View(), r) == EngineSpec.Step(runner.net, scheduler.cfg, old(View()), runner.size)
      ensures r.Outputs? ==> forall u :: u in r.outputs ==> EndsRight(u.1, scheduler.cfg.maxModelLen)
      ensures old(Sound()) && r.Outputs? && GraphSound(runner.net, scheduler.cfg, old(View())) ==> Sound() && forall j :: 0 <= j < |r.outputs| ==>
        Emitted(runner.net, scheduler.cfg.maxModelLen, Held(old(View())), r.outputs[j])
      ensures old(Sound()) && r.Raised? ==>
        (Sound() <==> MediaOk(runner.net, scheduler.cfg.blockSize, View().s, Held(View()), labels.book))
    {
      hide EBase, EInv, Emitted, StepDefined, EngineSpec.Step, scheduler.View, scheduler.Valid, runner.Caches, runner.Valid, Held, GraphSound, MediaOk,
           EndsRight;
      ghost var e := View();
      StepEndsRight(runner.net, scheduler.cfg, runner.size, e);
      ghost var after := labels;
      if Sound() {
        after := StepKeeps(runner.net, scheduler.cfg, runner.size, e, labels);
      }
      r := Advance();
      labels := after;
    }

    /** The code of step(). */
    method Advance() returns (r: StepResult)
      requires Valid()
      modifies scheduler, scheduler.requests.Values, scheduler.kv, scheduler.kv.pool, scheduler.kv.pool.blocks, runner, runner.kvCaches
      ensures Valid() && scheduler.requests.Values <= old(scheduler.requests.Values)
      ensures StepDefined(runner.net, scheduler.cfg, old(View()), runner.size)
      ensures (View(), r) == EngineSpec.Step(runner.net, scheduler.cfg, old(View()), runner.size)
    {
      hide EBase, SInv, KvShaped, SchedulerSpec.Schedule, RunnerSpec.Execute, Executable, Update, Settled, StepDefined, EngineSpec.Step,
           scheduler.View, scheduler.Valid, runner.Caches;
      ghost var e := View();
      StepSafe(runner.net, scheduler.cfg, runner.size, e);
      StepNeeds(runner.net, scheduler.cfg, runner.size, e);
      var out := scheduler.Schedule();
      assert runner.View() == e.r;
      match out {
        case None => r := Raised;
        case Some(o) =>
          if o.scheduled == [] && o.finished == [] {
            r := Outputs([]);
          } else {
            var updated := RunBatch(o);
            r := Outputs(updated);
          }
      }
    }

    /** execute, then update_from_output. */
    method RunBatch(o: Output) returns (updated: seq<(Id, Req)>)
      requires scheduler.Valid() && runner.Valid() && runner.blockSize == scheduler.cfg.blockSize
      requires SInv(scheduler.cfg, scheduler.View(), o.scheduled) && Settled(scheduler.View())
      requires Executable(runner.net, runner.blockSize, runner.View(), o, runner.size)
      requires forall it :: it in o.scheduled ==>
        it.id !in scheduler.View().waiting && (it.doSample ==> it.id in RunnerSpec.Execute(runner.net, runner.blockSize, runner.View(), o, runner.size).1)
      modifies scheduler, scheduler.requests.Values, scheduler.kv, scheduler.kv.pool, scheduler.kv.pool.blocks, runner, runner.kvCaches
      ensures scheduler.Valid() && runner.Valid() && scheduler.requests.Values <= old(scheduler.requests.Values)
      ensures var q := RunnerSpec.Execute(runner.net, runner.blockSize, old(runner.View()), o, runner.size);
        && runner.View() == q.0
        && (scheduler.View(), updated) == Update(scheduler.cfg, old(scheduler.View()), o.scheduled, q.1)
    {
      hide SInv, KvShaped, RunnerSpec.Execute, Executable, Update, Settled, runner.Caches, scheduler.Reqs;
      ghost var s := scheduler.View();
      var sampled := runner.Execute(o);
      assert scheduler.View() == s;
      updated := scheduler.UpdateFromOutput(o.scheduled, sampled);
    }
  }

  /** What the scheduler's own calls rely on. */
  lemma AbortNeeds(net: Net, cfg: Config, size: nat, e: Engine)
    requires EBase(net, cfg, size, e)
    ensures SInv(cfg, e.s, []) && Wf(e.s)
  {
    hide SInv, KvShaped;
    SInvWf(cfg, e.s, []);
  }

  /** add_request, spelled out. */
  lemma AddCases(cfg: Config, e: Engine, id: Id, prompt: seq<Token>, params: Params, eos: Option<Token>, priority: int, embeds: Option<seq<Row>>)
    ensures var all := EngineSpec.AddRequest(cfg, e, id, prompt, params, eos, priority, embeds);
      var media := if embeds.Some? then e.r.embeds[id := embeds.value] else e.r.embeds;
      if !(1 <= params.maxTokens && params.minTokens <= params.maxTokens) || prompt == [] || |prompt| >= cfg.maxModelLen then all == (e, Rejected)
      else match SchedulerSpec.AddRequest(e.s, id, Req(prompt, [], 0, Waiting, priority, e.clock, eos, params))
        case None => all == (e.(r := e.r.(embeds := media)), Rejected)
        case Some(s') => all == (e.(s := s', r := e.r.(embeds := media), clock := e.clock + 1, used := e.used + {id}), Accepted(id))
  {
    assert e.r.(embeds := e.r.embeds) == e.r;
  }

  /** What the calls inside a step rely on, and the step spelled out. */
  lemma StepNeeds(net: Net, cfg: Config, size: nat, e: Engine)
    requires EBase(net, cfg, size, e) && StepDefined(net, cfg, e, size)
    ensures SInv(cfg, e.s, []) && cfg.maxBatched >= 0 && cfg.blockSize > 0 && Wf(e.s)
    ensures var (s', o) := Schedule(cfg, e.s);
      && (o.None? ==> EngineSpec.Step(net, cfg, e, size) == (e.(s := s'), Raised))
      && (o.Some? ==> SInv(cfg, s', o.value.scheduled))
      && (o.Some? && o.value.scheduled == [] && o.value.finished == [] ==>
            EngineSpec.Step(net, cfg, e, size) == (e.(s := s'), Outputs([])))
      && (o.Some? && (o.value.scheduled != [] || o.value.finished != []) ==>
            && Settled(s') && Executable(net, cfg.blockSize, e.r, o.value, size)
            && var q := Execute(net, cfg.blockSize, e.r, o.value, size);
            && (forall it :: it in o.value.scheduled ==> it.id !in s'.waiting && (it.doSample ==> it.id in q.1))
            && var u := Update(cfg, s', o.value.scheduled, q.1);
            EngineSpec.Step(net, cfg, e, size) == (e.(s := u.0, r := q.0), Outputs(u.1)))
  {
    hide SInv, KvShaped, Schedule, Execute, Executable, SameTokens, Update, Settled;
    ScheduleInv(cfg, e.s);
  }
}
