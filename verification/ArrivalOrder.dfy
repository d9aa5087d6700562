/** First come, first served, over whole runs: arrival numbers are the order of the additions. */
module ArrivalOrder {
  import opened Util
  import opened BlockManagerSpec
  import opened RequestSpec
  import opened SchedulerSpec
  import opened SchedulerInv
  import opened ScheduleStep
  import opened Queueing
  import opened Assertions
  import opened Model
  import opened ForwardCorrect
  import opened GraphSpec
  import opened RunnerSpec
  import opened ExecuteCorrect
  import opened EngineSpec
  import opened EngineInv
  import opened EngineSafe
  import opened EngineRun
  import opened SoloRuns

  // ------------------------------------------------------------------ one event

  /** The clock never goes back, ticks for each request taken in, and whoever lives on keeps the
      number he got. */
  ghost predicate Numbers(cfg: Config, e: Engine, ev: Event, e': Engine) {
    && e.clock <= e'.clock && (TakenIn(cfg, e, ev) ==> e.clock < e'.clock)
    && forall id :: id in e'.s.reqs ==>
         if TakenIn(cfg, e, ev) && ev.id == id then e'.s.reqs[id].arrival == e.clock
         else id in e.s.reqs && e'.s.reqs[id].arrival == e.s.reqs[id].arrival
  }

  lemma StepNumbers(net: Net, cfg: Config, size: nat, e: Engine)
    requires EBase(net, cfg, size, e)
    ensures StepDefined(net, cfg, e, size) && Numbers(cfg, e, StepEvent, Step(net, cfg, e, size).0)
  {
    hide EBase, Schedule, Execute, Executable, Update, SInv, KvShaped, Settled, ScheduleAsserts, UpdateAsserts, SameTokens, Mirrored, InSync;
    StepSafe(net, cfg, size, e);
    SchedulePlans(net, cfg, size, e);
    var p := Schedule(cfg, e.s);
    SameKeys(e.s, p.0);
    if p.1.Some? && (p.1.value.scheduled != [] || p.1.value.finished != []) {
      PlanExecutes(net, cfg, size, e, p.0, p.1.value);
      UpdateIds(cfg, p.0, p.1.value.scheduled, Execute(net, cfg.blockSize, e.r, p.1.value, size).1);
      KeysOver(e.s, p.0, Step(net, cfg, e, size).0.s);
    } else {
      KeysOver(e.s, p.0, p.0);
    }
  }

  lemma KeysOver(s: Sched, s': Sched, s'': Sched)
    requires s'.reqs.Keys == s.reqs.Keys && forall id :: id in s.reqs ==> s'.reqs[id].arrival == s.reqs[id].arrival
    requires forall id :: id in s''.reqs ==> id in s'.reqs && s''.reqs[id].arrival == s'.reqs[id].arrival
    ensures forall id :: id in s''.reqs ==> id in s.reqs && s''.reqs[id].arrival == s.reqs[id].arrival
  {
    forall id | id in s''.reqs ensures id in s.reqs { assert id in s'.reqs.Keys; }
  }

  lemma EventNumbers(net: Net, cfg: Config, size: nat, e: Engine, ev: Event)
    requires EBase(net, cfg, size, e)
    ensures Defined(net, cfg, size, e, ev) && Numbers(cfg, e, ev, Apply(net, cfg, size, e, ev).0)
  {
    hide EBase, Step, StepDefined, KvShaped, AbortAsserts, Abort;
    match ev
    case Add(_, _, _, _, _, _) =>
    case AbortEvent(id) => AbortBase(net, cfg, size, e, id);
    case StepEvent => StepNumbers(net, cfg, size, e);
  }

  // ------------------------------------------------------------------ whole runs

  /** A live request's number is the clock at the addition it came from. */
  ghost predicate NumberedBy(cfg: Config, states: seq<Engine>, evs: seq<Event>, i: nat, id: Id) {
    i <= |evs| < |states| && id in states[i].s.reqs
    && exists j: nat :: AskedAt(cfg, states, evs, i, j, id, states[i].s.reqs[id]) && states[i].s.reqs[id].arrival == states[j].clock
  }

  lemma {:induction false} RunNumbers(net: Net, cfg: Config, size: nat, states: seq<Engine>, evs: seq<Event>, outs: seq<seq<(Id, Req)>>, i: nat)
    requires IsRun(net, cfg, size, states, evs, outs) && states[0].s.reqs == map[] && i <= |evs|
    requires forall k :: 0 <= k < |evs| ==> EBase(net, cfg, size, states[k]) && Defined(net, cfg, size, states[k], evs[k])
    ensures forall id :: id in states[i].s.reqs ==> NumberedBy(cfg, states, evs, i, id)
    decreases i
  {
    hide EBase, Defined, Apply, NumberedBy, AskedAt, Numbers;
    if i > 0 {
      RunNumbers(net, cfg, size, states, evs, outs, i - 1);
      assert RunStep(net, cfg, size, states, evs, outs, i - 1);
      forall id | id in states[i].s.reqs ensures NumberedBy(cfg, states, evs, i, id) {
        NumberOne(net, cfg, size, states, evs, outs, i - 1, id);
      }
    }
  }

  lemma NumberOne(net: Net, cfg: Config, size: nat, states: seq<Engine>, evs: seq<Event>, outs: seq<seq<(Id, Req)>>, i: nat, id: Id)
    requires IsRun(net, cfg, size, states, evs, outs) && i < |evs|
    requires EBase(net, cfg, size, states[i]) && Defined(net, cfg, size, states[i], evs[i])
    requires forall x :: x in states[i].s.reqs ==> NumberedBy(cfg, states, evs, i, x)
    requires id in states[i + 1].s.reqs
    ensures NumberedBy(cfg, states, evs, i + 1, id)
  {
    hide EBase, Apply, Defined, Meets, Refused;
    assert RunStep(net, cfg, size, states, evs, outs, i);
    EventCarries(net, cfg, size, states[i], evs[i]);
    EventNumbers(net, cfg, size, states[i], evs[i]);
    if TakenIn(cfg, states[i], evs[i]) && evs[i].id == id {
      assert AskedAt(cfg, states, evs, i + 1, i, id, states[i + 1].s.reqs[id]);
    } else {
      assert Carried(states[i], outs[i], states[i + 1], id);
      assert NumberedBy(cfg, states, evs, i, id);
      var j: nat :| AskedAt(cfg, states, evs, i, j, id, states[i].s.reqs[id]) && states[i].s.reqs[id].arrival == states[j].clock;
      MeetsSame(evs[j], states[i].s.reqs[id], states[i + 1].s.reqs[id]);
      assert AskedAt(cfg, states, evs, i + 1, j, id, states[i + 1].s.reqs[id]);
    }
  }

  lemma {:induction false} ClockGrows(net: Net, cfg: Config, size: nat, states: seq<Engine>, evs: seq<Event>, outs: seq<seq<(Id, Req)>>, j: nat, k: nat)
    requires IsRun(net, cfg, size, states, evs, outs) && j <= k <= |evs|
    requires forall i :: 0 <= i < |evs| ==> EBase(net, cfg, size, states[i]) && Defined(net, cfg, size, states[i], evs[i])
    ensures states[j].clock <= states[k].clock
    decreases k
  {
    hide EBase, Defined, Apply;
    if j < k {
      ClockGrows(net, cfg, size, states, evs, outs, j, k - 1);
      assert RunStep(net, cfg, size, states, evs, outs, k - 1);
      EventNumbers(net, cfg, size, states[k - 1], evs[k - 1]);
    }
  }

  /** Of two live requests the one added first arrived first. */
  lemma AddedFirst(net: Net, cfg: Config, size: nat, states: seq<Engine>, evs: seq<Event>, outs: seq<seq<(Id, Req)>>, i: nat, a: Id, b: Id, j: nat, k: nat)
    requires IsRun(net, cfg, size, states, evs, outs) && states[0].s.reqs == map[] && i <= |evs| && a in states[i].s.reqs && b in states[i].s.reqs
    requires forall x :: 0 <= x < |evs| ==> EBase(net, cfg, size, states[x]) && Defined(net, cfg, size, states[x], evs[x])
    requires AskedAt(cfg, states, evs, i, j, a, states[i].s.reqs[a]) && AskedAt(cfg, states, evs, i, k, b, states[i].s.reqs[b]) && j < k
    ensures states[i].s.reqs[a].arrival < states[i].s.reqs[b].arrival
  {
    hide EBase, Defined, Apply, Meets, Refused;
    RunNumbers(net, cfg, size, states, evs, outs, i);
    assert NumberedBy(cfg, states, evs, i, a) && NumberedBy(cfg, states, evs, i, b);
    var j': nat :| AskedAt(cfg, states, evs, i, j', a, states[i].s.reqs[a]) && states[i].s.reqs[a].arrival == states[j'].clock;
    var k': nat :| AskedAt(cfg, states, evs, i, k', b, states[i].s.reqs[b]) && states[i].s.reqs[b].arrival == states[k'].clock;
    assert j' == j && k' == k;
    EventNumbers(net, cfg, size, states[j], evs[j]);
    assert RunStep(net, cfg, size, states, evs, outs, j);
    ClockGrows(net, cfg, size, states, evs, outs, j + 1, k);
  }

  /** In every run from an empty engine: whoever is admitted in a step leaves nobody waiting who has
      a higher priority, or the same and was added before. */
  lemma FirstComeFirstServed(net: Net, cfg: Config, size: nat, numBlocks: nat, caching: bool, caches: seq<seq<KVal>>, graphs: Option<Graphs>,
                             states: seq<Engine>, evs: seq<Event>, outs: seq<seq<(Id, Req)>>, i: nat, a: Id, b: Id, j: nat, k: nat)
    requires cfg.blockSize > 0 && cfg.maxBatched > 0
    requires CachesOk(net, caches, size) && numBlocks * cfg.blockSize <= size && GraphsFit(graphs, numBlocks, cfg.blockSize, size)
    requires IsRun(net, cfg, size, states, evs, outs) && states[0] == NewEngine(numBlocks, caching, caches, graphs) && i < |evs|
    requires a in states[i].s.reqs && b in states[i].s.reqs && b !in states[i].s.running
    requires AskedAt(cfg, states, evs, i, j, a, states[i].s.reqs[a]) && AskedAt(cfg, states, evs, i, k, b, states[i].s.reqs[b])
    requires evs[j].priority > evs[k].priority || (evs[j].priority == evs[k].priority && j < k)
    ensures Wf(states[i].s)
    ensures var s' := Schedule(cfg, states[i].s).0; b in s'.running ==> a in s'.running
  {
    hide EBase, Defined, Apply, CachesOk, GraphsFit, Schedule, KvShaped, SInv, Refused, SameTokens;
    RunsAreSafe(net, cfg, size, numBlocks, caching, caches, graphs, states, evs, outs);
    BaseFacts(net, cfg, size, states[i]);
    var s, s' := states[i].s, Schedule(cfg, states[i].s).0;
    if b in s'.running && a !in s'.running {
      LiveWaits(cfg, s, a);
      FirstCome(cfg, s, a, b);
      if j < k { AddedFirst(net, cfg, size, states, evs, outs, i, a, b, j, k); }
    }
  }

  lemma BaseFacts(net: Net, cfg: Config, size: nat, e: Engine)
    requires EBase(net, cfg, size, e)
    ensures SInv(cfg, e.s, []) && Wf(e.s) && cfg.maxBatched >= 0 && cfg.blockSize > 0
  {
    hide SInv;
    SInvWf(cfg, e.s, []);
  }

  lemma LiveWaits(cfg: Config, s: Sched, id: Id)
    requires SInv(cfg, s, []) && Wf(s) && cfg.maxBatched >= 0 && cfg.blockSize > 0 && id in s.reqs && id !in Schedule(cfg, s).0.running
    ensures id in Schedule(cfg, s).0.waiting
  {
    hide Schedule, Rows, Filling, Items, Statuses, Bounded, Arrivals, KvShaped;
    ScheduleInv(cfg, s);
    assert id in Schedule(cfg, s).0.reqs.Keys;
  }
}
