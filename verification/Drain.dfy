/** With no arrivals the step loop finishes every request. */
module Drain {
  import opened BlockManagerSpec
  import opened SchedulerSpec
  import opened Assertions
  import opened SchedulerInv
  import opened Model
  import opened RunnerSpec
  import opened EngineSpec
  import opened EngineSafe
  import opened Asks
  import opened Progress
  import opened Draining

  /** What the drain assumes of the configuration and the requests: a slot, and room in the
      pool for each request on its own. */
  ghost predicate Roomy(cfg: Config, s: Sched) {
    cfg.blockSize > 0 && cfg.maxNumSeqs >= 1 && Capacity(cfg, s)
  }

  /** One engine step with room for what each request has: it does not raise, and makes the
      measure smaller. */
  lemma FittingStepDrains(net: Net, cfg: Config, size: nat, e: Engine)
    requires EBase(net, cfg, size, e) && cfg.blockSize > 0 && cfg.maxNumSeqs >= 1 && Fits(cfg, e.s) && HasUnfinished(e.s)
    ensures StepDefined(net, cfg, e, size)
    ensures var r := Step(net, cfg, e, size); r.1.Outputs? && Smaller(cfg, e.s, r.0.s)
  {
    hide SInv, Schedule, Execute, Executable, Update, KvShaped, Fits, Smaller, HeadMoves, ScheduleAsserts, UpdateAsserts;
    StepSafe(net, cfg, size, e);
    SInvWf(cfg, e.s, []);
    HeadAlwaysMoves(cfg, e.s);
    var (s', o) := Schedule(cfg, e.s);
    var sampled := Execute(net, cfg.blockSize, e.r, o.value, size).1;
    StepDrains(cfg, e.s, sampled);
  }

  /** With room for all that each may ever compute, that room stays. */
  lemma EngineStepDrains(net: Net, cfg: Config, size: nat, e: Engine)
    requires EBase(net, cfg, size, e) && Roomy(cfg, e.s) && HasUnfinished(e.s)
    ensures StepDefined(net, cfg, e, size)
    ensures var r := Step(net, cfg, e, size);
      r.1.Outputs? && Roomy(cfg, r.0.s) && Smaller(cfg, e.s, r.0.s)
  {
    hide SInv, Schedule, Execute, Executable, Update, KvShaped, Capacity, Fits, Smaller, Step, StepDefined;
    CapacityFits(cfg, e.s, []);
    FittingStepDrains(net, cfg, size, e);
    StepAsk(net, cfg, size, e);
    StepPool(net, cfg, size, e);
    CapacitySame(cfg, e.s, Step(net, cfg, e, size).0.s);
  }

  /** A step neither adds nor loses blocks. */
  lemma StepPool(net: Net, cfg: Config, size: nat, e: Engine)
    requires StepDefined(net, cfg, e, size)
    ensures PoolSize(Step(net, cfg, e, size).0.s) == PoolSize(e.s)
  {
    hide Schedule, Execute, Executable, Update, KvShaped, ScheduleAsserts, UpdateAsserts;
  }

  ghost predicate Continues(net: Net, cfg: Config, size: nat, e: Engine, e': Engine) {
    StepDefined(net, cfg, e, size) && Step(net, cfg, e, size).1.Outputs? && e' == Step(net, cfg, e, size).0
  }

  /** states starts at e, each step follows the last without raising, and nothing is left at the end. */
  ghost predicate Drained(net: Net, cfg: Config, size: nat, e: Engine, states: seq<Engine>) {
    && states != [] && states[0] == e
    && (forall i :: 0 <= i < |states| - 1 ==> HasUnfinished(states[i].s) && Continues(net, cfg, size, states[i], states[i + 1]))
    && !HasUnfinished(states[|states| - 1].s)
  }

  /** Termination of the step loop from every reachable state, whatever the budget,
      threshold and caching: the measure is the output tokens still allowed, then the live
      requests outranking the first running one, then what that one has left to compute. */
  lemma {:induction false} StepLoopDrains(net: Net, cfg: Config, size: nat, e: Engine) returns (states: seq<Engine>)
    requires EBase(net, cfg, size, e) && Roomy(cfg, e.s)
    ensures Drained(net, cfg, size, e, states)
    decreases OutLeft(cfg, e.s), Above(e.s), HeadLeft(e.s)
  {
    hide EBase, Step, StepDefined, Roomy, OutLeft, Above, HeadLeft;
    if HasUnfinished(e.s) {
      StepSafe(net, cfg, size, e);
      EngineStepDrains(net, cfg, size, e);
      var e' := Step(net, cfg, e, size).0;
      var later := StepLoopDrains(net, cfg, size, e');
      states := [e] + later;
      forall i | 0 <= i < |states| - 1 ensures HasUnfinished(states[i].s) && Continues(net, cfg, size, states[i], states[i + 1]) {
        assert states[i + 1] == later[i];
        if i == 0 { assert Continues(net, cfg, size, e, e'); } else { assert states[i] == later[i - 1]; }
      }
    } else {
      states := [e];
    }
  }
}
