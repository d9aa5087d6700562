/** Whose token histories the runner keeps. */
module Histories {
  import opened Util
  import opened Hashing
  import opened BlockManagerSpec
  import opened RequestSpec
  import opened SchedulerSpec
  import opened SchedulerInv
  import opened SchedulePhases
  import opened ScheduleStep
  import opened NewItems
  import opened Queueing
  import opened Assertions
  import opened Model
  import opened ForwardCorrect
  import opened GraphSpec
  import opened RunnerSpec
  import opened ExecuteCorrect
  import opened EngineSpec
  import opened EngineInv
  import opened EngineSafe
  import opened EngineRun

  // ------------------------------------------------------------------ execute()

  ghost predicate Served(items: seq<Item>, id: Id) {
    exists k :: 0 <= k < |items| && items[k].id == id
  }

  lemma {:induction false} FedKeys(states: map<Id, SamplerState>, items: seq<Item>)
    requires FeedAll(states, items).Some?
    ensures forall id :: id in FeedAll(states, items).value <==> id in states || Served(items, id)
  {
    if items != [] {
      var n := |items| - 1;
      FedKeys(states, items[..n]);
      forall id ensures Served(items, id) <==> Served(items[..n], id) || items[n].id == id {
        if Served(items[..n], id) { var k :| 0 <= k < n && items[..n][k].id == id; assert items[k].id == id; }
        if Served(items, id) && items[n].id != id { var k :| 0 <= k < |items| && items[k].id == id; assert items[..n][k].id == id; }
      }
    }
  }

  lemma {:induction false} SampledKeys(net: Net, hidden: seq<Row>, items: seq<Item>, states: map<Id, SamplerState>, k: nat)
    requires k <= |items| && SampleOk(hidden, items, states)
    ensures forall id :: id in SampleRows(net, hidden, items, states, k) <==> exists j :: 0 <= j < k && items[j].id == id && items[j].doSample
    decreases k
  {
    hide SampleOk;
    if k > 0 { SampledKeys(net, hidden, items, states, k - 1); }
  }

  /** After execute() a history is there exactly for who was served, and for who had one and was
      told neither finished nor preempted; embeddings go for the finished only; a token is sampled
      exactly for the items that ask for one. */
  lemma ExecutedKeys(net: Net, bs: nat, r: Runner, out: Output, size: nat)
    requires Executable(net, bs, r, out, size)
    ensures var (r', sampled) := Execute(net, bs, r, out, size);
      && (forall id :: id in r'.states <==> Served(out.scheduled, id) || (id in r.states && id !in out.finished && id !in out.preempted))
      && (forall id :: id in r'.embeds <==> id in r.embeds && id !in out.finished)
      && (forall id :: id in sampled <==> exists k :: 0 <= k < |out.scheduled| && out.scheduled[k].id == id && out.scheduled[k].doSample)
  {
    hide FeedAll, ForwardModel, Forwardable, SampleOk, SampleRows;
    if out.scheduled != [] {
      FedKeys(Forget(r, out).states, out.scheduled);
      var states := FeedAll(Forget(r, out).states, out.scheduled).value;
      SampledKeys(net, ForwardModel(net, bs, Forget(r, out), out.scheduled, size).1, out.scheduled, states, |out.scheduled|);
    }
  }

  // ------------------------------------------------------------------ one step

  /** A history of somebody who neither runs nor is about to be reported. */
  ghost predicate Stray(e: Engine, id: Id) {
    id in e.r.states && id !in e.s.running && id !in e.s.finished
  }

  /** The step calls execute(). */
  ghost predicate Told(cfg: Config, e: Engine) {
    cfg.blockSize > 0 && Wf(e.s) && Schedule(cfg, e.s).1.Some?
    && (Schedule(cfg, e.s).1.value.scheduled != [] || Schedule(cfg, e.s).1.value.finished != [])
  }

  /** What a step that does not call it keeps from the runner: an end, or a preemption. */
  ghost predicate Missed(cfg: Config, e: Engine, id: Id) {
    cfg.blockSize > 0 && Wf(e.s) && id in e.r.states
    && (id in e.s.finished || (id in e.s.running && id in Schedule(cfg, e.s).0.waiting))
  }

  lemma FinishedApart(net: Net, cfg: Config, size: nat, e: Engine)
    requires EBase(net, cfg, size, e)
    ensures forall id :: id in e.s.finished ==> id !in e.s.running
    ensures forall id :: id in e.s.running ==> id in e.r.states && id in e.s.reqs && id !in e.s.waiting
  {
    hide Rows, Filling, Items, Statuses, Bounded, Arrivals, Mirror;
    forall id | id in e.s.running ensures id in e.r.states { assert MirrorAt(e.s, e.r.states, [], id); }
  }

  /** Everyone running is accounted for by the lists and the items of the step. */
  ghost predicate Placed(s: Sched, s': Sched, out: seq<Item>) {
    && (forall id :: id in s'.running ==> id !in s'.waiting && (id in s.running || Served(out, id)))
    && (forall id :: Served(out, id) ==> id in s'.running)
    && (forall id :: id in s.running ==> id in s'.running || id in s'.waiting)
  }

  lemma SchedulePlaces(cfg: Config, s: Sched)
    requires SInv(cfg, s, []) && Wf(s) && cfg.maxBatched >= 0 && cfg.blockSize > 0
    ensures var (s', o) := Schedule(cfg, s);
      && (o.Some? ==> Placed(s, s', o.value.scheduled) && forall id :: id in o.value.preempted <==> id in s.running && id in s'.waiting)
      && (o.None? ==> s'.running == [] && forall id :: id in s.running ==> id in s'.waiting)
  {
    hide SInv, KvShaped, Schedule, AdmitPhase, SameTokens, Accounted, AllButLast, Kept;
    ScheduleInv(cfg, s);
    PreemptedExactly(cfg, s);
    ScheduleAccounted(cfg, s);
    ScheduleStages(cfg, s);
    var (s', o) := Schedule(cfg, s);
    LiveSplit(cfg, s, s', if o.Some? then o.value.scheduled else []);
    if o.Some? { Places(s, s', o.value.scheduled, |Kept(cfg, s)|); }
  }

  lemma LiveSplit(cfg: Config, s: Sched, s': Sched, out: seq<Item>)
    requires SInv(cfg, s, []) && SInv(cfg, s', out) && SameTokens(s, s')
    ensures forall id :: id in s.running ==> id in s'.running || id in s'.waiting
    ensures forall id :: id in s'.running ==> id !in s'.waiting
  {
    hide Rows, Filling, Items, Statuses, Bounded, Arrivals;
    forall id | id in s.running ensures id in s'.running || id in s'.waiting { assert id in s.reqs.Keys; }
  }

  lemma Places(s: Sched, s': Sched, out: seq<Item>, kept: nat)
    requires Accounted(s, s', out, kept) && |out| <= |s'.running| && forall k :: 0 <= k < |out| ==> out[k].id == s'.running[k]
    requires forall id :: id in s.running ==> id in s'.running || id in s'.waiting
    requires forall id :: id in s'.running ==> id !in s'.waiting
    ensures Placed(s, s', out)
  {
    forall id | id in s'.running ensures id in s.running || Served(out, id) {
      var i :| 0 <= i < |s'.running| && s'.running[i] == id;
      if i < kept { assert OldAt(s, s', s'.running[i]); } else { assert out[i].id == id; }
    }
  }

  /** The update ends whom it takes from the running list, and takes only whom it served. */
  lemma UpdateOnePlaces(cfg: Config, s: Sched, it: Item, sampled: map<Id, Token>)
    requires Settled(s) && it.id !in s.waiting && (it.doSample ==> it.id in sampled)
    ensures var s' := UpdateOne(cfg, s, it, sampled).0;
      && (forall id :: id in s.running || id in s.finished ==> id in s'.running || id in s'.finished)
      && (forall id :: id in s.running && id != it.id ==> id in s'.running)
      && (forall id :: id in s'.running ==> id in s.running)
      && (forall id :: id in s'.finished ==> id in s.finished || id == it.id)
  {
    hide KvShaped, FreeRequest, CheckStop;
  }

  lemma {:induction false} UpdatePlaces(cfg: Config, s: Sched, items: seq<Item>, sampled: map<Id, Token>)
    requires Settled(s) && forall it :: it in items ==> it.id !in s.waiting && (it.doSample ==> it.id in sampled)
    ensures var s' := Update(cfg, s, items, sampled).0;
      && (forall id :: id in s.running || id in s.finished ==> id in s'.running || id in s'.finished)
      && (forall id :: id in s.running && !Served(items, id) ==> id in s'.running)
      && (forall id :: id in s'.running ==> id in s.running)
      && (forall id :: id in s'.finished ==> id in s.finished || Served(items, id))
    decreases |items|
  {
    hide KvShaped, UpdateOne;
    if items != [] {
      var it, rest := items[0], items[1..];
      assert it in items && forall x :: x in rest ==> x in items;
      UpdateOnePlaces(cfg, s, it, sampled);
      UpdatePlaces(cfg, UpdateOne(cfg, s, it, sampled).0, rest, sampled);
      forall id ensures Served(items, id) <==> Served(rest, id) || it.id == id {
        if Served(rest, id) { var k :| 0 <= k < |rest| && rest[k].id == id; assert items[k + 1].id == id; }
        if Served(items, id) && it.id != id { var k :| 0 <= k < |items| && items[k].id == id; assert rest[k - 1].id == id; }
        if it.id == id { assert items[0].id == id; }
      }
    }
  }

  /** A step that calls execute() strays nobody, and takes in whoever it serves; one that does not
      strays exactly those whose end or preemption it kept from the runner. */
  lemma StepStrays(net: Net, cfg: Config, size: nat, e: Engine)
    requires EBase(net, cfg, size, e)
    ensures StepDefined(net, cfg, e, size)
    ensures var e' := Step(net, cfg, e, size).0;
      if Told(cfg, e) then
        forall id :: Stray(e', id) <==> Stray(e, id) && !Served(Schedule(cfg, e.s).1.value.scheduled, id)
      else
        e'.r == e.r && forall id :: Stray(e', id) <==> Stray(e, id) || Missed(cfg, e, id)
  {
    hide EBase, Schedule, Execute, Executable, Update, SInv, KvShaped, Settled, ScheduleAsserts, UpdateAsserts, SameTokens, Accounted, AllButLast, InSync,
         Mirrored, Placed;
    StepSafe(net, cfg, size, e);
    SchedulePlans(net, cfg, size, e);
    BudgetThere(net, cfg, size, e);
    SchedulePlaces(cfg, e.s);
    FinishedApart(net, cfg, size, e);
    var (s', o) := Schedule(cfg, e.s);
    var e' := Step(net, cfg, e, size).0;
    if Told(cfg, e) {
      var out := o.value;
      PlanExecutes(net, cfg, size, e, s', out);
      ExecutedKeys(net, cfg.blockSize, e.r, out, size);
      var q := Execute(net, cfg.blockSize, e.r, out, size);
      UpdatePlaces(cfg, s', out.scheduled, q.1);
      ToldStrays(e, s', out, e');
    } else {
      assert s'.finished == [];
      if o.Some? { IdlePlaces(e.s, s'); }
    }
  }

  lemma BudgetThere(net: Net, cfg: Config, size: nat, e: Engine)
    requires EBase(net, cfg, size, e)
    ensures SInv(cfg, e.s, []) && cfg.maxBatched >= 0 && cfg.blockSize > 0
  {
    hide SInv;
  }

  lemma IdlePlaces(s: Sched, s': Sched)
    requires Placed(s, s', [])
    ensures forall id :: id in s'.running ==> id in s.running && id !in s'.waiting
    ensures forall id :: id in s.running ==> id in s'.running || id in s'.waiting
  {
  }

  lemma ToldStrays(e: Engine, s': Sched, out: Output, e': Engine)
    requires Placed(e.s, s', out.scheduled) && out.finished == e.s.finished && s'.finished == []
    requires forall id :: id in out.preempted <==> id in e.s.running && id in s'.waiting
    requires forall id :: id in e.s.finished ==> id !in e.s.running
    requires forall id :: id in e'.r.states <==> Served(out.scheduled, id) || (id in e.r.states && id !in out.finished && id !in out.preempted)
    requires forall id :: id in s'.running || id in s'.finished ==> id in e'.s.running || id in e'.s.finished
    requires forall id :: id in s'.running && !Served(out.scheduled, id) ==> id in e'.s.running
    requires forall id :: id in e'.s.running ==> id in s'.running
    requires forall id :: id in e'.s.finished ==> id in s'.finished || Served(out.scheduled, id)
    ensures forall id :: Stray(e', id) <==> Stray(e, id) && !Served(out.scheduled, id)
  {
    hide Served;
  }

  // ------------------------------------------------------------------ whole runs

  /** An addition leaves the strays; an abort reports one that waits, and takes him off. */
  lemma EventStrays(net: Net, cfg: Config, size: nat, e: Engine, ev: Event)
    requires EBase(net, cfg, size, e) && Defined(net, cfg, size, e, ev) && !ev.StepEvent?
    ensures var e' := Apply(net, cfg, size, e, ev).0;
      forall id :: Stray(e', id) <==> Stray(e, id) && !(ev == AbortEvent(id) && id in e.s.reqs)
  {
    hide EBase, KvShaped, FreeRequest, AbortAsserts;
    FinishedApart(net, cfg, size, e);
    match ev
    case Add(_, _, _, _, _, _) =>
    case AbortEvent(id) => AbortPlaces(net, cfg, size, e, id);
  }

  lemma AbortPlaces(net: Net, cfg: Config, size: nat, e: Engine, id: Id)
    requires EBase(net, cfg, size, e) && Wf(e.s)
    ensures var s' := Abort(e.s, id);
      if id in e.s.reqs then
        && (forall x :: x in s'.running <==> x in e.s.running && x != id)
        && (forall x :: x in s'.finished <==> x in e.s.finished || x == id)
      else s' == e.s
  {
    hide KvShaped, FreeRequest, Rows, Filling, Items, Bounded, Arrivals, Mirrored;
    if id in e.s.reqs {
      assert StatusOk(e.s, id);
      RemoveDistinct(e.s.running, id);
    }
  }

  /** The event keeps no end and no preemption of anyone with a history from the runner. */
  ghost predicate Tells(cfg: Config, e: Engine, ev: Event) {
    ev.StepEvent? ==> Told(cfg, e) || forall id :: !Missed(cfg, e, id)
  }

  ghost predicate NoStrays(e: Engine) {
    forall id :: !Stray(e, id)
  }

  lemma EventTells(net: Net, cfg: Config, size: nat, e: Engine, ev: Event)
    requires EBase(net, cfg, size, e) && Defined(net, cfg, size, e, ev) && NoStrays(e)
    ensures NoStrays(Apply(net, cfg, size, e, ev).0) <==> Tells(cfg, e, ev)
  {
    hide EBase, Step, StepDefined, Told, Missed, Stray, AbortAsserts, AbortRequest, EngineSpec.AddRequest;
    if ev.StepEvent? {
      StepStrays(net, cfg, size, e);
    } else {
      EventStrays(net, cfg, size, e, ev);
    }
  }

  /** In every run from an empty engine: whoever has a history runs or is about to be reported, in
      every state, if and only if no step kept from the runner, by raising or by serving nobody,
      the end or the preemption of anyone who had one. */
  lemma HistoriesIff(net: Net, cfg: Config, size: nat, numBlocks: nat, caching: bool, caches: seq<seq<KVal>>, graphs: Option<Graphs>,
                     states: seq<Engine>, evs: seq<Event>, outs: seq<seq<(Id, Req)>>)
    requires cfg.blockSize > 0 && cfg.maxBatched > 0
    requires CachesOk(net, caches, size) && numBlocks * cfg.blockSize <= size && GraphsFit(graphs, numBlocks, cfg.blockSize, size)
    requires IsRun(net, cfg, size, states, evs, outs) && states[0] == NewEngine(numBlocks, caching, caches, graphs)
    ensures (forall i :: 0 <= i <= |evs| ==> NoStrays(states[i])) <==> forall i :: 0 <= i < |evs| ==> Tells(cfg, states[i], evs[i])
  {
    hide EBase, Defined, Apply, CachesOk, GraphsFit, NoStrays, Tells;
    RunsAreSafe(net, cfg, size, numBlocks, caching, caches, graphs, states, evs, outs);
    if forall i :: 0 <= i < |evs| ==> Tells(cfg, states[i], evs[i]) {
      forall i | 0 <= i <= |evs| ensures NoStrays(states[i]) { TellsNoStrays(net, cfg, size, states, evs, outs, i); }
    }
    if forall i :: 0 <= i <= |evs| ==> NoStrays(states[i]) {
      forall i | 0 <= i < |evs| ensures Tells(cfg, states[i], evs[i]) {
        assert RunStep(net, cfg, size, states, evs, outs, i);
        assert NoStrays(states[i]) && NoStrays(states[i + 1]);
        EventTells(net, cfg, size, states[i], evs[i]);
      }
    }
  }

  lemma {:induction false} TellsNoStrays(net: Net, cfg: Config, size: nat, states: seq<Engine>, evs: seq<Event>, outs: seq<seq<(Id, Req)>>, i: nat)
    requires IsRun(net, cfg, size, states, evs, outs) && i <= |evs| && states[0].r.states == map[]
    requires forall k :: 0 <= k < |evs| ==> EBase(net, cfg, size, states[k]) && Defined(net, cfg, size, states[k], evs[k]) && Tells(cfg, states[k], evs[k])
    ensures NoStrays(states[i])
    decreases i
  {
    hide EBase, Defined, Apply, Tells;
    if i > 0 {
      TellsNoStrays(net, cfg, size, states, evs, outs, i - 1);
      assert RunStep(net, cfg, size, states, evs, outs, i - 1);
      EventTells(net, cfg, size, states[i - 1], evs[i - 1]);
    }
  }
}
