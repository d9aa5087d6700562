/** Whatever the requests carry and whatever the caches hold, an engine step trips no assertion
    of the source, keeps every index inside its tensor, and leaves the runner's histories in
    step with the scheduler. */
module EngineSafe {
  import opened Util
  import opened Hashing
  import opened BlockManagerSpec
  import opened BlockManagerInv
  import opened RequestSpec
  import opened SchedulerSpec
  import opened SchedulerInv
  import opened SchedulePhases
  import opened ScheduleStep
  import opened NewItems
  import opened UpdateStep
  import opened Model
  import opened ForwardCorrect
  import opened WriteLabels
  import opened BatchReadiness
  import opened GraphSpec
  import opened RunnerSpec
  import opened ExecuteCorrect
  import opened Assertions
  import opened AssertionsHold
  import opened EngineSpec
  import opened EngineInv
  import opened Endings

  /** An id whose end is still to be reported is not running, and a request that reuses it has
      generated nothing yet; arrival numbers were handed out by the clock. */
  ghost predicate IdsOk(e: Engine) {
    && (forall id :: id in e.s.finished ==> id !in e.s.running)
    && (forall id :: id in e.s.finished && id in e.s.reqs ==> e.s.reqs[id].output == [])
    && (forall id :: id in e.s.reqs ==> e.s.reqs[id].arrival < e.clock)
  }

  /** Every live request runs through all it has. */
  ghost predicate Unended(maxModelLen: nat, s: Sched) {
    forall id :: id in s.reqs ==> RunsThrough(s.reqs[id], maxModelLen, |s.reqs[id].output|)
  }

  /** What holds between events in every run at all. */
  ghost predicate EBase(net: Net, cfg: Config, size: nat, e: Engine) {
    && cfg.blockSize > 0 && cfg.maxBatched > 0
    && SInv(cfg, e.s, [])
    && CacheSize(e.s, cfg.blockSize, size)
    && CachesOk(net, e.r.caches, size)
    && GraphsFit(e.r.graphs, PoolSize(e.s), cfg.blockSize, size)
    && Mirrored(e.s, e.r.states, [])
    && IdsOk(e)
    && Unended(cfg.maxModelLen, e.s)
  }

  // ------------------------------------------------------------------ pool size never changes

  /** The pool has as many blocks as its hash list, which no operation resizes. */
  lemma SizeOf(cfg: Config, s: Sched, out: seq<Item>)
    requires SInv(cfg, s, out)
    ensures |s.kv.pool.refs| == |s.kv.pool.hash|
  {
    hide Filling, Items, Statuses, Bounded, Arrivals, Lists, RowOk, Counted, HashesBlocked;
  }

  // ------------------------------------------------------------------ mirrors through schedule

  lemma MirrorFromBefore(cfg: Config, s: Sched, s': Sched, states: map<Id, SamplerState>, id: Id)
    requires Mirrored(s, states, []) && OldAt(s, s', id)
    ensures id in states && states[id] == Mirror(s'.reqs[id], s'.reqs[id].computed)
  {
    assert MirrorAt(s, states, [], id);
  }

  /** Each item finds its history, unless it re-registers it; requests that were not scheduled
      keep theirs. */
  lemma MirrorsReady(cfg: Config, s: Sched, s': Sched, out: seq<Item>, states: map<Id, SamplerState>, states': map<Id, SamplerState>, kept: nat)
    requires SInv(cfg, s', out) && Mirrored(s, states, []) && Accounted(s, s', out, kept)
    requires |out| <= |s'.running| && (forall k :: 0 <= k < |out| ==> out[k].id == s'.running[k])
    requires forall id :: id in s.running && id in s'.running && id in states ==> id in states' && states'[id] == states[id]
    ensures MirrorReady(s', states', out)
    ensures forall id :: id in s'.running && Fresh(out, id) ==> MirrorAt(s', states', out, id)
  {
    hide OldAt, Mirrored, SInv;
    KnownItems(cfg, s', out);
    forall k | 0 <= k < |out| ensures MirrorReadyAt(s', states', out[k]) {
      ItemFacts(cfg, s', out, k);
      if !out[k].isNew {
        assert OldAt(s, s', s'.running[k]);
        OldKnown(s, s', out[k].id);
        MirrorFromBefore(cfg, s, s', states, out[k].id);
      }
    }
    forall id | id in s'.running && Fresh(out, id) ensures MirrorAt(s', states', out, id) {
      var i :| 0 <= i < |s'.running| && s'.running[i] == id;
      assert i >= |out|;
      assert OldAt(s, s', s'.running[i]);
      OldKnown(s, s', id);
      MirrorFromBefore(cfg, s, s', states, id);
      GrantedFresh(out, id);
    }
  }

  lemma OldKnown(s: Sched, s': Sched, id: Id)
    requires OldAt(s, s', id)
    ensures id in s'.reqs && id in s.running
  {
  }

  // ------------------------------------------------------------------ ids through update

  /** Nobody new lives, and whoever ended is gone. */
  ghost predicate IdsKept(s: Sched, s': Sched) {
    && (forall id :: id in s'.reqs ==> id in s.reqs && s'.reqs[id].arrival == s.reqs[id].arrival && s'.reqs[id].prompt == s.reqs[id].prompt)
    && (forall id :: id in s'.finished ==> id !in s'.reqs && (id in s.finished || id in s.reqs))
  }

  lemma UpdateOneIds(cfg: Config, s: Sched, it: Item, sampled: map<Id, Token>)
    requires Settled(s) && it.id !in s.waiting && (it.doSample ==> it.id in sampled)
    requires forall id :: id in s.finished ==> id !in s.reqs
    ensures IdsKept(s, UpdateOne(cfg, s, it, sampled).0)
  {
    hide KvShaped, FreeRequest, CheckStop;
  }

  lemma {:induction false} UpdateIds(cfg: Config, s: Sched, items: seq<Item>, sampled: map<Id, Token>)
    requires Settled(s) && forall it :: it in items ==> it.id !in s.waiting && (it.doSample ==> it.id in sampled)
    requires forall id :: id in s.finished ==> id !in s.reqs
    ensures IdsKept(s, Update(cfg, s, items, sampled).0)
    decreases |items|
  {
    hide KvShaped, UpdateOne;
    if items != [] {
      var it, rest := items[0], items[1..];
      assert it in items && forall x :: x in rest ==> x in items;
      UpdateOneIds(cfg, s, it, sampled);
      UpdateIds(cfg, UpdateOne(cfg, s, it, sampled).0, rest, sampled);
    }
  }

  lemma SameKeys(s: Sched, s': Sched)
    requires SameTokens(s, s')
    ensures s'.reqs.Keys == s.reqs.Keys
    ensures forall id :: id in s.reqs ==> s'.reqs[id].arrival == s.reqs[id].arrival && s'.reqs[id].prompt == s.reqs[id].prompt
  {
    forall id | id in s.reqs ensures s'.reqs[id].arrival == s.reqs[id].arrival && s'.reqs[id].prompt == s.reqs[id].prompt { SameFields(s.reqs[id], s'.reqs[id]); }
  }

  lemma RunningKnown(cfg: Config, s: Sched, out: seq<Item>)
    requires SInv(cfg, s, out)
    ensures forall id :: id in s.running ==> id in s.reqs
  {
  }

  lemma ForgetMirror(s: Sched, r: Runner, out: Output, id: Id)
    requires MirrorAt(s, Forget(r, out).states, [], id)
    ensures MirrorAt(s, r.states, [], id)
  {
  }

  lemma SameCacheSize(s: Sched, s': Sched, bs: nat, size: nat)
    requires CacheSize(s, bs, size) && PoolSize(s') == PoolSize(s)
    ensures CacheSize(s', bs, size)
    ensures |s'.kv.pool.refs| == |s.kv.pool.refs|
  {
  }

  lemma MirrorsExecuted(net: Net, cfg: Config, s: Sched, out: Output, r: Runner, r': Runner, sampled: map<Id, Token>, size: nat)
    requires SInv(cfg, s, out.scheduled) && InSync(net, s, out, r, r', sampled, size)
    requires forall id :: id in s.running && Fresh(out.scheduled, id) ==> MirrorAt(s, Forget(r, out).states, out.scheduled, id)
    ensures Mirrored(s, r'.states, out.scheduled)
  {
    hide SInv, CachesOk, Forget;
    forall id | id in s.running ensures MirrorAt(s, r'.states, out.scheduled, id) {
      if Fresh(out.scheduled, id) {
        assert MirrorAt(s, Forget(r, out).states, out.scheduled, id);
      } else {
        var k :| 0 <= k < |out.scheduled| && out.scheduled[k].id == id;
        ItemFacts(cfg, s, out.scheduled, k);
        assert FedAt(s, r'.states, out.scheduled[k]);
      }
    }
  }

  lemma SampledMembers(cfg: Config, s: Sched, items: seq<Item>, sampled: map<Id, Token>)
    requires SInv(cfg, s, items)
    requires forall k :: 0 <= k < |items| && items[k].doSample ==> items[k].id in sampled
    ensures Settled(s) && forall it :: it in items ==> it.id !in s.waiting && (it.doSample ==> it.id in sampled)
  {
    hide Rows, Filling, Bounded, Arrivals, Statuses;
    SInvWf(cfg, s, items);
    forall it | it in items ensures it.id !in s.waiting && (it.doSample ==> it.id in sampled) {
      var k :| 0 <= k < |items| && items[k] == it;
      assert ItemOk(s, items[k]);
    }
  }

  // ------------------------------------------------------------------ mirrors through update

  lemma UpdateOneMirrors(cfg: Config, s: Sched, it: Item, rest: seq<Item>, sampled: map<Id, Token>, states: map<Id, SamplerState>)
    requires SInv(cfg, s, [it] + rest) && Mirrored(s, states, [it] + rest)
    requires Settled(s) && it.id !in s.waiting && (it.doSample ==> it.id in sampled)
    ensures Mirrored(UpdateOne(cfg, s, it, sampled).0, states, rest)
  {
    hide SInv, SInvBut, Mirror, KvShaped, FreeRequest, CheckStop, Granted;
    AdvanceFacts(cfg, s, it, rest);
    var s' := UpdateOne(cfg, s, it, sampled).0;
    var s1 := AdvancedSched(s, it, sampled);
    forall id | id in s'.running ensures MirrorAt(s', states, rest, id) {
      CoverBound(cfg, s, [it] + rest, id);
      assert MirrorAt(s, states, [it] + rest, id);
      AdvancedMirror(s, it, rest, sampled, states, id);
      assert MirrorAt(s1, states, rest, id);
    }
  }

  lemma {:induction false} UpdateMirrors(cfg: Config, s: Sched, items: seq<Item>, sampled: map<Id, Token>, states: map<Id, SamplerState>)
    requires SInv(cfg, s, items) && Mirrored(s, states, items)
    requires Settled(s) && forall it :: it in items ==> it.id !in s.waiting && (it.doSample ==> it.id in sampled)
    ensures Mirrored(Update(cfg, s, items, sampled).0, states, [])
    decreases |items|
  {
    hide SInv, Mirrored, UpdateOne, KvShaped;
    if items != [] {
      var it, rest := items[0], items[1..];
      assert items == [it] + rest;
      assert it in items && forall x :: x in rest ==> x in items;
      UpdateOneInv(cfg, s, it, rest, sampled);
      UpdateOneMirrors(cfg, s, it, rest, sampled, states);
      UpdateMirrors(cfg, UpdateOne(cfg, s, it, sampled).0, rest, sampled, states);
    }
  }

  // ------------------------------------------------------------------ endings through a step

  lemma ScheduleUnended(maxModelLen: nat, s: Sched, s': Sched)
    requires Unended(maxModelLen, s) && SameTokens(s, s')
    ensures Unended(maxModelLen, s')
  {
    hide RunsThrough;
    forall id | id in s'.reqs ensures RunsThrough(s'.reqs[id], maxModelLen, |s'.reqs[id].output|) {
      SameFields(s.reqs[id], s'.reqs[id]);
      assert s'.reqs[id].output[..|s.reqs[id].output|] == s.reqs[id].output;
      SameEnds(s.reqs[id], s'.reqs[id], maxModelLen, |s.reqs[id].output|);
    }
  }

  lemma UpdateOneEnds(cfg: Config, s: Sched, it: Item, sampled: map<Id, Token>)
    requires Settled(s) && it.id !in s.waiting && (it.doSample ==> it.id in sampled)
    requires Unended(cfg.maxModelLen, s) && (it.id in s.reqs ==> s.reqs[it.id].status == Running)
    ensures var (s', us) := UpdateOne(cfg, s, it, sampled);
      Unended(cfg.maxModelLen, s') && forall u :: u in us ==> EndsRight(u.1, cfg.maxModelLen)
  {
    hide RunsThrough, EndsRight, KvShaped, FreeRequest, CheckStop;
    if it.id in s.reqs {
      var r := s.reqs[it.id];
      if it.doSample {
        AppendEnds(r, sampled[it.id], r.computed + |it.chunk|, cfg.maxModelLen);
      } else {
        SameEnds(r, r.(computed := r.computed + |it.chunk|), cfg.maxModelLen, |r.output|);
      }
    }
  }

  lemma {:induction false} UpdateEnds(cfg: Config, s: Sched, items: seq<Item>, sampled: map<Id, Token>)
    requires SInv(cfg, s, items) && Unended(cfg.maxModelLen, s)
    requires Settled(s) && forall it :: it in items ==> it.id !in s.waiting && (it.doSample ==> it.id in sampled)
    ensures var (s', us) := Update(cfg, s, items, sampled);
      Unended(cfg.maxModelLen, s') && forall u :: u in us ==> EndsRight(u.1, cfg.maxModelLen)
    decreases |items|
  {
    hide SInv, UpdateOne, KvShaped, Unended, EndsRight;
    if items != [] {
      var it, rest := items[0], items[1..];
      assert items == [it] + rest;
      assert it in items && forall x :: x in rest ==> x in items;
      AdvanceFacts(cfg, s, it, rest);
      UpdateOneInv(cfg, s, it, rest, sampled);
      UpdateOneEnds(cfg, s, it, sampled);
      UpdateEnds(cfg, UpdateOne(cfg, s, it, sampled).0, rest, sampled);
    }
  }

  // ------------------------------------------------------------------ the step

  /** What schedule() leaves behind. */
  ghost predicate Plan(cfg: Config, s: Sched, s': Sched, o: Option<Output>) {
    && Scheduled(cfg, s, s', o)
    && PoolSize(s') == PoolSize(s)
    && (o.Some? ==> exists kept: nat :: Accounted(s, s', o.value.scheduled, kept))
    && (o.Some? ==> forall id :: id in o.value.preempted ==> id !in s'.running)
  }

  lemma SchedulePlans(net: Net, cfg: Config, size: nat, e: Engine)
    requires EBase(net, cfg, size, e)
    ensures cfg.blockSize > 0 && Wf(e.s) && ScheduleAsserts(cfg, e.s)
    ensures Plan(cfg, e.s, Schedule(cfg, e.s).0, Schedule(cfg, e.s).1)
  {
    hide SInv, SameTokens, Schedule, AdmitPhase, Stage2, Kept, Accounted, KvShaped, CachesOk, Mirrored, CacheSize, Shape, AllButLast, Fresh,
         ScheduleAsserts;
    SInvWf(cfg, e.s, []);
    ScheduleHolds(cfg, e.s);
    ScheduleInv(cfg, e.s);
    ScheduleShape(cfg, e.s);
    ScheduleAccounted(cfg, e.s);
    PreemptedStayOut(cfg, e.s);
  }

  /** The runner's view of the plan. */
  lemma PlanMeetsRunner(net: Net, cfg: Config, size: nat, e: Engine, s': Sched, out: Output)
    requires EBase(net, cfg, size, e) && Plan(cfg, e.s, s', Some(out))
    ensures SInv(cfg, s', out.scheduled)
    ensures MirrorReady(s', Forget(e.r, out).states, out.scheduled)
    ensures forall id :: id in s'.running && Fresh(out.scheduled, id) ==> MirrorAt(s', Forget(e.r, out).states, out.scheduled, id)
  {
    hide SInv, SameTokens, CachesOk, Mirrored, MirrorAt, MirrorReady, Accounted, CacheSize;
    var kept: nat :| Accounted(e.s, s', out.scheduled, kept);
    MirrorsReady(cfg, e.s, s', out.scheduled, e.r.states, Forget(e.r, out).states, kept);
  }

  lemma PlanIds(e: Engine, s': Sched)
    requires IdsOk(e) && SameTokens(e.s, s') && s'.finished == []
    ensures IdsOk(e.(s := s'))
  {
    hide SameTokens;
    SameKeys(e.s, s');
  }

  /** When nothing is handed to the runner, the state between steps is just the scheduler's. */
  lemma IdleSafe(net: Net, cfg: Config, size: nat, e: Engine, s': Sched, o: Option<Output>)
    requires EBase(net, cfg, size, e) && Plan(cfg, e.s, s', o)
    requires o.None? || (o.value.scheduled == [] && o.value.finished == [])
    ensures EBase(net, cfg, size, e.(s := s'))
  {
    hide SInv, SameTokens, CachesOk, MirrorAt, Accounted, AllButLast, MirrorReady, Forget, IdsOk, Unended;
    PlanIds(e, s');
    ScheduleUnended(cfg.maxModelLen, e.s, s');
    SameCacheSize(e.s, s', cfg.blockSize, size);
    match o
    case None => assert Mirrored(s', e.r.states, []);
    case Some(out) =>
      PlanMeetsRunner(net, cfg, size, e, s', out);
      forall id | id in s'.running ensures MirrorAt(s', e.r.states, [], id) {
        assert Fresh(out.scheduled, id);
        ForgetMirror(s', e.r, out, id);
      }
  }

  /** execute() */
  lemma PlanExecutes(net: Net, cfg: Config, size: nat, e: Engine, s': Sched, out: Output)
    requires EBase(net, cfg, size, e) && Plan(cfg, e.s, s', Some(out))
    ensures SInv(cfg, s', out.scheduled)
    ensures Executable(net, cfg.blockSize, e.r, out, size)
    ensures var q := Execute(net, cfg.blockSize, e.r, out, size);
      && InSync(net, s', out, e.r, q.0, q.1, size)
      && Mirrored(s', q.0.states, out.scheduled)
      && Settled(s') && (forall it :: it in out.scheduled ==> it.id !in s'.waiting && (it.doSample ==> it.id in q.1))
      && UpdateAsserts(cfg, s', out.scheduled, q.1)
  {
    hide UpdateAsserts, SInv, SameTokens, CachesOk, MirrorReady, Forget, Mirrored, MirrorAt, IdsOk, CacheSize, Execute, Executable, Accounted, AllButLast,
         Fresh, Settled, FedAt;
    PlanMeetsRunner(net, cfg, size, e, s', out);
    SameCacheSize(e.s, s', cfg.blockSize, size);
    ExecutesSafely(net, cfg, s', out, e.r, size);
    var q := Execute(net, cfg.blockSize, e.r, out, size);
    MirrorsExecuted(net, cfg, s', out, e.r, q.0, q.1, size);
    SampledMembers(cfg, s', out.scheduled, q.1);
    UpdateHolds(cfg, s', out.scheduled, q.1);
  }

  /** update_from_output() */
  lemma UpdateSafe(net: Net, cfg: Config, size: nat, e: Engine, s': Sched, out: Output, r': Runner, sampled: map<Id, Token>)
    requires EBase(net, cfg, size, e) && Plan(cfg, e.s, s', Some(out))
    requires InSync(net, s', out, e.r, r', sampled, size) && Mirrored(s', r'.states, out.scheduled)
    requires Settled(s') && forall it :: it in out.scheduled ==> it.id !in s'.waiting && (it.doSample ==> it.id in sampled)
    ensures EBase(net, cfg, size, e.(s := Update(cfg, s', out.scheduled, sampled).0, r := r'))
    ensures forall u :: u in Update(cfg, s', out.scheduled, sampled).1 ==> EndsRight(u.1, cfg.maxModelLen)
  {
    hide SInv, SameTokens, CachesOk, Mirrored, FedAt, Update, KvShaped, Accounted, AllButLast, Fresh, Forget, Unended, EndsRight;
    ScheduleUnended(cfg.maxModelLen, e.s, s');
    UpdateEnds(cfg, s', out.scheduled, sampled);
    UpdateInv(cfg, s', out.scheduled, sampled);
    UpdateMirrors(cfg, s', out.scheduled, sampled, r'.states);
    UpdateIds(cfg, s', out.scheduled, sampled);
    var u := Update(cfg, s', out.scheduled, sampled);
    RunningKnown(cfg, u.0, []);
    SameKeys(e.s, s');
    SameCacheSize(e.s, u.0, cfg.blockSize, size);
  }

  /** A step is defined, and leads to a state from which the next one is too. */
  lemma StepSafe(net: Net, cfg: Config, size: nat, e: Engine)
    requires EBase(net, cfg, size, e)
    ensures StepDefined(net, cfg, e, size)
    ensures EBase(net, cfg, size, Step(net, cfg, e, size).0)
  {
    hide EBase, Plan, Schedule, Execute, Executable, Update, InSync, SInv, KvShaped, Mirrored, Settled, ScheduleAsserts, UpdateAsserts, EndsRight;
    SchedulePlans(net, cfg, size, e);
    var p := Schedule(cfg, e.s);
    if p.1.None? || (p.1.value.scheduled == [] && p.1.value.finished == []) {
      IdleSafe(net, cfg, size, e, p.0, p.1);
    } else {
      PlanExecutes(net, cfg, size, e, p.0, p.1.value);
      var q := Execute(net, cfg.blockSize, e.r, p.1.value, size);
      UpdateSafe(net, cfg, size, e, p.0, p.1.value, q.0, q.1);
    }
  }

  /** Whatever the requests carry and whatever the caches hold, a step hands back an output as
      stopped exactly when its last token is an eos that counts or a stop token, as too long
      exactly when otherwise a limit is reached, as running exactly otherwise, and never one that
      an earlier token should have ended. */
  lemma StepEndsRight(net: Net, cfg: Config, size: nat, e: Engine)
    requires EBase(net, cfg, size, e)
    ensures StepDefined(net, cfg, e, size)
    ensures var r := Step(net, cfg, e, size).1; r.Outputs? ==> forall u :: u in r.outputs ==> EndsRight(u.1, cfg.maxModelLen)
  {
    hide EBase, Plan, Schedule, Execute, Executable, Update, InSync, SInv, KvShaped, Mirrored, Settled, ScheduleAsserts, UpdateAsserts, EndsRight;
    SchedulePlans(net, cfg, size, e);
    var p := Schedule(cfg, e.s);
    if p.1.Some? && (p.1.value.scheduled != [] || p.1.value.finished != []) {
      PlanExecutes(net, cfg, size, e, p.0, p.1.value);
      var q := Execute(net, cfg.blockSize, e.r, p.1.value, size);
      UpdateSafe(net, cfg, size, e, p.0, p.1.value, q.0, q.1);
    }
  }
}
