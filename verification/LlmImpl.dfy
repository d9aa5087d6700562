/** inferneo/engine/llm.py: offline batch generation over the engine object. */
module LlmImpl {
  import opened Util
  import opened BlockManagerSpec
  import opened RequestSpec
  import opened Endings
  import opened SchedulerSpec
  import opened Model
  import opened ForwardCorrect
  import opened EngineSpec
  import opened LabelInv
  import opened EngineInv
  import opened EngineSafe
  import opened EngineStep
  import opened Asks
  import opened EngineRun
  import opened EngineImpl
  import opened Lifecycle
  import opened Progress
  import opened Draining
  import opened Drain
  import opened DrainsExactly
  import opened SoloDrains
  import opened Generate

  /** One round of the drain loop. */
  lemma LoopStep(net: Net, cfg: Config, size: nat, e: Engine, labels: Labels, j: Job, finished: map<Id, Req>, others: set<Id>, sound: bool)
    requires EBase(net, cfg, size, e) && Roomy(cfg, e.s) && HasUnfinished(e.s)
    requires sound ==> EInv(net, cfg, size, e, labels) && GraphFree(net, e)
    requires Entered(net, cfg, j, e, finished, others, sound)
    ensures StepDefined(net, cfg, e, size)
    ensures var r := Step(net, cfg, e, size);
      && r.1.Outputs? && Roomy(cfg, r.0.s) && Smaller(cfg, e.s, r.0.s)
      && (sound ==> GraphSound(net, cfg, e) && GraphFree(net, r.0))
      && Entered(net, cfg, j, r.0, Collect(finished, r.1.outputs), others, sound)
  {
    hide EBase, LInv, AllClean, OnStream, Held, StepDefined, Step, Roomy, HasUnfinished, Entered, Smaller, AskKept, Grown, Emitted, Collect, GraphFree, EndsRight,
         GraphSound, EInv;
    EngineStepDrains(net, cfg, size, e);
    StepAsk(net, cfg, size, e);
    StepLived(net, cfg, size, e);
    GrownBy(net, cfg, size, e);
    StepEndsRight(net, cfg, size, e);
    var r := Step(net, cfg, e, size);
    if sound {
      FreeSound(net, cfg, size, e);
      StepSame(net, cfg, size, e);
      var labels' := SoloStep(net, cfg, size, e, labels);
    }
    EnteredStep(net, cfg, j, e, r.1.outputs, r.0, finished, others, sound);
  }

  lemma AddRefused(cfg: Config, j: Job, e: Engine, i: nat)
    requires i < |j.ids| == |j.prompts| == |j.params| && !Accepts(cfg, j, i)
    ensures EngineSpec.AddRequest(cfg, e, j.ids[i], j.prompts[i], j.params[i], j.eos, 0, None) == (e, Rejected)
    ensures Refused(cfg, j.prompts[i], j.params[i])
  {
  }

  /** Room for whoever is live and for each prompt on its own is room for all of them together. */
  lemma RoomyEntered(cfg: Config, j: Job, e: Engine, e': Engine)
    requires WaitBehind(e, j, |j.ids|, e') && Roomy(cfg, e.s) && PromptsFit(cfg, j, PoolSize(e.s))
    ensures Roomy(cfg, e'.s)
  {
    assert j.ids[..|j.ids|] == j.ids;
    forall id | id in e'.s.reqs ensures CapacityFor(cfg, PoolSize(e'.s), e'.s.reqs[id]) {
      if id in e.s.reqs {
        assert CapacityFor(cfg, PoolSize(e.s), e.s.reqs[id]);
      } else {
        var i :| 0 <= i < |j.ids| && j.ids[i] == id;
        assert CapacityFor(cfg, PoolSize(e.s), NewRequest(j.prompts[i], j.params[i], j.eos, 0, 0));
      }
    }
  }

  /** The pool can hold each prompt's request on its own. */
  ghost predicate PromptsFit(cfg: Config, j: Job, blocks: nat)
    requires cfg.blockSize > 0 && |j.ids| == |j.prompts| == |j.params|
  {
    forall i :: 0 <= i < |j.ids| ==> CapacityFor(cfg, blocks, NewRequest(j.prompts[i], j.params[i], j.eos, 0, 0))
  }

  /** With prefix caching on, the prompts' rows are those the book gives their full blocks. */
  ghost predicate InBook(net: Net, cfg: Config, caching: bool, book: Book, j: Job)
    requires |j.ids| == |j.prompts| == |j.params|
  {
    caching ==> forall i :: 0 <= i < |j.ids| && Accepts(cfg, j, i) ==> Respects(net, cfg.blockSize, book, [], j.prompts[i])
  }

  lemma PromptKeepable(net: Net, cfg: Config, e: Engine, book: Book, j: Job, i: nat)
    requires i < |j.ids| == |j.prompts| == |j.params|
    requires Unknown(e, j.ids[i]) && Accepts(cfg, j, i) && InBook(net, cfg, e.s.kv.pool.caching, book, j)
    ensures AddKeepable(net, cfg, e, j.ids[i], j.prompts[i], None, book)
  {
    hide Respects;
  }

  lemma StillUnknown(e: Engine, j: Job, n: nat, e': Engine)
    requires JobOk(j) && WaitBehind(e, j, n, e') && n < |j.ids| && Unknown(e, j.ids[n])
    ensures Unknown(e', j.ids[n]) && e'.s.kv.pool.caching == e.s.kv.pool.caching
  {
    assert j.ids[n] !in j.ids[..n];
  }

  /** The prompts bring no embeddings. */
  lemma FreeEntered(net: Net, e: Engine, j: Job, n: nat, e': Engine)
    requires WaitBehind(e, j, n, e') && GraphFree(net, e) && forall i :: 0 <= i < n ==> Unknown(e, j.ids[i])
    ensures GraphFree(net, e')
  {
    if e.r.graphs.Some? {
      forall id | id in e'.s.reqs ensures Textual(net, EmbedsOf(Held(e'), id), e'.s.reqs[id].prompt) {
        if id in e.s.reqs {
          assert Textual(net, EmbedsOf(Held(e), id), e.s.reqs[id].prompt);
        } else {
          var i :| 0 <= i < n && j.ids[i] == id;
          assert Unknown(e, j.ids[i]);
        }
      }
    }
  }

  lemma EngineBase(eng: InferneoEngine)
    requires eng.Valid()
    ensures EBase(eng.runner.net, eng.scheduler.cfg, eng.runner.size, eng.View())
  {
    hide EBase, eng.scheduler.Valid, eng.runner.Valid, eng.scheduler.View, eng.runner.Caches;
  }

  /** order gives the first n ids their places. */
  ghost predicate Numbered(ids: seq<Id>, n: nat, order: map<Id, nat>) {
    n <= |ids| && (forall id :: id in order <==> id in ids[..n]) && forall i :: 0 <= i < n ==> ids[i] in order && order[ids[i]] == i
  }

  lemma NoneNumbered(ids: seq<Id>)
    ensures Numbered(ids, 0, map[])
  {
  }

  lemma NumberedNext(ids: seq<Id>, n: nat, order: map<Id, nat>)
    requires Distinct(ids) && n < |ids| && Numbered(ids, n, order)
    ensures Numbered(ids, n + 1, order[ids[n] := n])
  {
    assert ids[..n + 1] == ids[..n] + [ids[n]];
  }

  /** A finished id that the call did not hand out is somebody's who was live before it. */
  lemma Strangers(e: Engine, j: Job, finished: map<Id, Req>, order: map<Id, nat>)
    requires (forall i :: 0 <= i < |j.ids| ==> Unknown(e, j.ids[i])) && Numbered(j.ids, |j.ids|, order)
    requires forall id :: id in finished <==> id in j.ids || id in e.s.reqs
    ensures finished.Keys <= order.Keys <==> e.s.reqs == map[]
  {
    assert j.ids[..|j.ids|] == j.ids;
    if e.s.reqs != map[] {
      var id :| id in e.s.reqs;
      assert id in finished.Keys;
    }
  }

  /** What generate returns or raises. */
  datatype Answer = Answers(results: seq<Req>) | WrongLength | RefusedAt(k: nat) | KeyError {
    /** The ending this is. */
    function Ending(): Ending {
      match this
      case Answers(_) => Answered
      case WrongLength => Mismatch
      case RefusedAt(k) => Refusal(k)
      case KeyError => Missing
    }
  }

  /** sorted(finished.values(), key = order): as order numbers the ids in turn, that is listing
      by it, unless some id has no number. */
  function Listed(ids: seq<Id>, finished: map<Id, Req>, order: map<Id, nat>): (r: Answer)
    requires (forall i :: 0 <= i < |ids| ==> ids[i] in finished) && Numbered(ids, |ids|, order)
    ensures if finished.Keys <= order.Keys then r.Answers? else r.KeyError?
    ensures r.Answers? ==> |r.results| == |ids| && forall i :: 0 <= i < |ids| ==> r.results[i] == finished[ids[i]]
  {
    if finished.Keys <= order.Keys then Answers(seq(|ids|, i requires 0 <= i < |ids| => finished[ids[i]]))
    else KeyError
  }

  class LLM {
    const engine: InferneoEngine

    constructor (e: InferneoEngine)
      ensures engine == e
    {
      engine := e;
    }

    /** Sound, and the prompts keep it so whichever way a step computes them. */
    ghost predicate Ready(j: Job)
      requires |j.ids| == |j.prompts| == |j.params|
      reads engine, engine.scheduler, engine.scheduler.requests.Values, engine.scheduler.kv, engine.scheduler.kv.pool,
        engine.scheduler.kv.pool.blocks, engine.runner, engine.runner.kvCaches
    {
      && engine.Sound() && GraphFree(engine.runner.net, engine.View())
      && InBook(engine.runner.net, engine.scheduler.cfg, engine.View().s.kv.pool.caching, engine.labels.book, j)
    }

    /** Every prompt is added, up to the first the engine refuses; order numbers the ids. */
    method EnterAll(j: Job) returns (n: nat, order: map<Id, nat>)
      requires engine.Valid() && JobOk(j) && forall i :: 0 <= i < |j.ids| ==> Unknown(engine.View(), j.ids[i])
      modifies engine, engine.scheduler, engine.runner
      ensures engine.Valid() && fresh(engine.scheduler.requests.Values - old(engine.scheduler.requests.Values))
      ensures n == FirstBad(engine.scheduler.cfg, j, 0)
      ensures engine.View() == Enter(engine.scheduler.cfg, old(engine.View()), j, n)
      ensures WaitBehind(old(engine.View()), j, n, engine.View())
      ensures old(Ready(j)) ==> engine.Sound() && GraphFree(engine.runner.net, engine.View())
      ensures Numbered(j.ids, n, order)
    {
      hide EBase, EInv, engine.scheduler.View, engine.scheduler.Valid, engine.runner.Caches, engine.runner.Valid,
           Accepts, EngineSpec.AddRequest, InBook, AddKeepable, Refused, WaitBehind, GraphFree, Unknown, engine.Sound, Numbered;
      ghost var net, cfg := engine.runner.net, engine.scheduler.cfg;
      ghost var e0 := engine.View();
      ghost var sound := Ready(j);
      EnterEffect(cfg, e0, j, 0);
      order := map[];
      n := 0;
      NoneNumbered(j.ids);
      while n < |j.ids|
        invariant n <= |j.ids| && engine.Valid() && fresh(engine.scheduler.requests.Values - old(engine.scheduler.requests.Values))
        invariant engine.View() == Enter(cfg, e0, j, n) && WaitBehind(e0, j, n, engine.View())
        invariant engine.labels == old(engine.labels) && (sound ==> engine.Sound())
        invariant FirstBad(cfg, j, n) == FirstBad(cfg, j, 0)
        invariant Numbered(j.ids, n, order)
      {
        ghost var e := engine.View();
        if !Accepts(cfg, j, n) {
          AddRefused(cfg, j, e, n);
        } else {
          EnterNext(cfg, e0, j, n, e);
          StillUnknown(e0, j, n, e);
          if sound { PromptKeepable(net, cfg, e, engine.labels.book, j, n); }
        }
        var r := engine.AddRequest(j.ids[n], j.prompts[n], j.params[n], j.eos, 0, None);
        if r == Rejected {
          break;
        }
        NumberedNext(j.ids, n, order);
        order := order[j.ids[n] := n];
        n := n + 1;
      }
      if sound { FreeEntered(net, e0, j, n, engine.View()); }
    }

    /** The step loop, keeping every finished output. */
    method DrainAll(j: Job, ghost others: set<Id>, ghost sound: bool) returns (finished: map<Id, Req>)
      requires engine.Valid() && Entered(engine.runner.net, engine.scheduler.cfg, j, engine.View(), map[], others, sound)
      requires sound ==> engine.Sound() && GraphFree(engine.runner.net, engine.View())
      requires Roomy(engine.scheduler.cfg, engine.View().s)
      modifies engine, engine.scheduler, engine.scheduler.requests.Values, engine.scheduler.kv, engine.scheduler.kv.pool,
        engine.scheduler.kv.pool.blocks, engine.runner, engine.runner.kvCaches
      ensures engine.Valid() && (sound ==> engine.Sound()) && !SchedulerSpec.HasUnfinished(engine.scheduler.View())
      ensures forall id :: id in finished <==> id in j.ids || id in others
      ensures forall i :: 0 <= i < |j.ids| ==> AskedFor(j, i, finished[j.ids[i]]) && Ended(engine.scheduler.cfg, finished[j.ids[i]])
      ensures sound ==> forall i :: 0 <= i < |j.ids| ==>
        SoloFinished(engine.runner.net, engine.scheduler.cfg.maxModelLen, j.prompts[i], j.params[i], j.eos, finished[j.ids[i]])
    {
      hide EBase, EInv, Entered, Roomy, OutLeft, Above, HeadLeft, Emitted, StepDefined, Held, NoStale, EngineSpec.Step, Collect, SoloFinished,
           GraphFree, GraphSound, MediaOk, AskedFor, Ended, EndsRight,
           engine.scheduler.View, engine.scheduler.Valid, engine.runner.Caches, engine.runner.Valid;
      ghost var net, cfg, size := engine.runner.net, engine.scheduler.cfg, engine.runner.size;
      finished := map[];
      while engine.HasUnfinished()
        invariant engine.Valid() && engine.scheduler.requests.Values <= old(engine.scheduler.requests.Values)
        invariant sound ==> engine.Sound() && GraphFree(net, engine.View())
        invariant Entered(net, cfg, j, engine.View(), finished, others, sound) && Roomy(cfg, engine.View().s)
        decreases OutLeft(cfg, engine.View().s), Above(engine.View().s), HeadLeft(engine.View().s)
      {
        EngineBase(engine);
        LoopStep(net, cfg, size, engine.View(), engine.labels, j, finished, others, sound);
        var r := engine.Step();
        finished := Gather(finished, r.outputs);
      }
      EngineBase(engine);
      EnteredDone(net, cfg, size, j, engine.View(), finished, others, sound);
    }

    /** for out in step(): if out.finished: finished[out.request_id] = out */
    method Gather(finished: map<Id, Req>, us: seq<(Id, Req)>) returns (m: map<Id, Req>)
      ensures m == Collect(finished, us)
    {
      m := finished;
      assert us[..0] == [];
      for k := 0 to |us|
        invariant m == Collect(finished, us[..k])
      {
        assert us[..k + 1][..k] == us[..k];
        if us[k].1.status.Finished() {
          m := m[us[k].0 := us[k].1];
        }
      }
      assert us[..|us|] == us;
    }

    /** generate() from its step loop on, every prompt being in. */
    method AnswerEntered(j: Job, order: map<Id, nat>, ghost e0: Engine, ghost sound: bool) returns (r: Answer)
      requires engine.Valid() && JobOk(j) && (forall i :: 0 <= i < |j.ids| ==> Unknown(e0, j.ids[i])) && WaitBehind(e0, j, |j.ids|, engine.View())
      requires (sound ==> engine.Sound() && GraphFree(engine.runner.net, engine.View())) && (HasUnfinished(e0.s) <==> e0.s.reqs != map[])
      requires Roomy(engine.scheduler.cfg, e0.s) && PromptsFit(engine.scheduler.cfg, j, PoolSize(e0.s))
      requires Numbered(j.ids, |j.ids|, order)
      modifies engine, engine.scheduler, engine.scheduler.requests.Values, engine.scheduler.kv, engine.scheduler.kv.pool,
        engine.scheduler.kv.pool.blocks, engine.runner, engine.runner.kvCaches
      ensures engine.Valid() && (sound ==> engine.Sound()) && !SchedulerSpec.HasUnfinished(engine.scheduler.View())
      ensures if HasUnfinished(e0.s) then r.KeyError? else r.Answers?
      ensures r.Answers? ==> |r.results| == |j.ids| && forall i :: 0 <= i < |j.ids| ==> AskedFor(j, i, r.results[i]) && Ended(engine.scheduler.cfg, r.results[i])
      ensures sound && r.Answers? ==> forall i :: 0 <= i < |j.ids| ==>
        SoloFinished(engine.runner.net, engine.scheduler.cfg.maxModelLen, j.prompts[i], j.params[i], j.eos, r.results[i])
    {
      hide EBase, Entered, Roomy, PromptsFit, SoloFinished, AskedFor, Unknown, GraphFree, WaitBehind, HasUnfinished, Ended, engine.scheduler.Valid, engine.scheduler.Reqs,
           engine.runner.Caches, engine.runner.Valid, engine.scheduler.View, engine.Sound;
      EnteredFirst(engine.runner.net, engine.scheduler.cfg, j, e0, engine.View(), sound);
      RoomyEntered(engine.scheduler.cfg, j, e0, engine.View());
      var finished := DrainAll(j, e0.s.reqs.Keys, sound);
      Strangers(e0, j, finished, order);
      r := Listed(j.ids, finished, order);
    }

    /** generate(): one result per prompt, in order, if the parameters are as many as the prompts,
        the engine takes every prompt and nothing was unfinished at entry; otherwise the error
        the call raises, a refusal leaving exactly the prompts before it live and waiting. The
        loop ends because every step makes the measure smaller, given room in the pool for
        whoever is live and for each prompt on its own. */
    method Generate(j: Job) returns (r: Answer)
      requires engine.Valid() && |j.ids| == |j.prompts| && Distinct(j.ids) && forall i :: 0 <= i < |j.ids| ==> Unknown(engine.View(), j.ids[i])
      requires EndingOf(engine.scheduler.cfg, engine.View(), j) in {Answered, Missing} ==>
        Roomy(engine.scheduler.cfg, engine.View().s) && PromptsFit(engine.scheduler.cfg, j, PoolSize(engine.View().s))
      modifies engine, engine.scheduler, engine.scheduler.requests.Values, engine.scheduler.kv, engine.scheduler.kv.pool,
        engine.scheduler.kv.pool.blocks, engine.runner, engine.runner.kvCaches
      ensures engine.Valid()
      ensures r.Ending() == EndingOf(engine.scheduler.cfg, old(engine.View()), j)
      ensures r.Answers? <==>
        && |j.params| == |j.prompts|
        && (forall i :: 0 <= i < |j.ids| ==> Accepts(engine.scheduler.cfg, j, i))
        && !old(SchedulerSpec.HasUnfinished(engine.scheduler.View()))
      ensures r.WrongLength? ==> engine.View() == old(engine.View())
      ensures r.RefusedAt? ==>
        && |j.params| == |j.prompts| && r.k < |j.ids|
        && engine.View() == Enter(engine.scheduler.cfg, old(engine.View()), j, r.k) && WaitBehind(old(engine.View()), j, r.k, engine.View())
      ensures r.Answers? || r.KeyError? ==> !SchedulerSpec.HasUnfinished(engine.scheduler.View())
      ensures r.Answers? ==> |r.results| == |j.ids| && forall i :: 0 <= i < |j.ids| ==> AskedFor(j, i, r.results[i]) && Ended(engine.scheduler.cfg, r.results[i])
      ensures |j.params| == |j.prompts| && old(Ready(j)) ==> engine.Sound()
      ensures |j.params| == |j.prompts| && old(Ready(j)) && r.Answers? ==> forall i :: 0 <= i < |j.ids| ==>
        SoloFinished(engine.runner.net, engine.scheduler.cfg.maxModelLen, j.prompts[i], j.params[i], j.eos, r.results[i])
    {
      hide EBase, EInv, Entered, Roomy, PromptsFit, InBook, SoloFinished, AskedFor, Accepts, Unknown, GraphFree, Numbered, Ended, engine.scheduler.Valid, engine.scheduler.Reqs,
           engine.runner.Caches, engine.runner.Valid, engine.scheduler.View, engine.Sound;
      if |j.params| != |j.prompts| {
        return WrongLength;
      }
      ghost var net, cfg, e0 := engine.runner.net, engine.scheduler.cfg, engine.View();
      ghost var sound := Ready(j);
      EngineBase(engine);
      StuckLive(net, cfg, engine.runner.size, e0);
      var n, order := EnterAll(j);
      if n < |j.ids| {
        return RefusedAt(n);
      }
      assert j.ids[..n] == j.ids;
      r := AnswerEntered(j, order, e0, sound);
    }
  }
}
