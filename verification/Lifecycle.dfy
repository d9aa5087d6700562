/** The life of a request over a run: its outputs grow by one token each, the finished one
    comes last, and its end is reported to the runner once. */
module Lifecycle {
  import opened Util
  import opened Hashing
  import opened BlockManagerSpec
  import opened RequestSpec
  import opened SchedulerSpec
  import opened SchedulerInv
  import opened SchedulePhases
  import opened ScheduleStep
  import opened UpdateStep
  import opened Draining
  import opened Model
  import opened ForwardCorrect
  import opened RunnerSpec
  import opened GraphSpec
  import opened Assertions
  import opened EngineSpec
  import opened EngineInv
  import opened EngineSafe
  import opened EngineRun

  // ------------------------------------------------------------------ update_from_output

  ghost predicate NotAmong(us: seq<(Id, Req)>, id: Id) {
    forall k :: 0 <= k < |us| ==> us[k].0 != id
  }

  /** The output handed back is the request's last known one plus a token; it goes on living
      with that output unless the output carries a finished status. */
  ghost predicate GrownAt(cfg: Config, s: Sched, u: (Id, Req), s': Sched) {
    && u.0 in s.reqs
    && |u.1.output| == |s.reqs[u.0].output| + 1 && s.reqs[u.0].output <= u.1.output
    && |u.1.output| <= OutputCap(u.1, cfg.maxModelLen)
    && (if u.1.status.Finished() then u.0 !in s'.reqs else u.0 in s'.reqs && s'.reqs[u.0].output == u.1.output)
  }

  /** How a step changes the set of live requests and their outputs. */
  ghost predicate Grown(cfg: Config, s: Sched, us: seq<(Id, Req)>, s': Sched) {
    && (forall k :: 0 <= k < |us| ==> GrownAt(cfg, s, us[k], s'))
    && (forall i, j :: 0 <= i < j < |us| ==> us[i].0 != us[j].0)
    && (forall id :: id in s'.reqs ==> id in s.reqs)
    && (forall id :: id in s.reqs && NotAmong(us, id) ==> id in s'.reqs && s'.reqs[id].output == s.reqs[id].output)
    && (forall id :: id in s'.finished <==> id in s.finished || (id in s.reqs && id !in s'.reqs))
    && Distinct(s'.finished)
  }

  ghost predicate Fin(s: Sched) {
    Distinct(s.finished) && forall id :: id in s.finished ==> id !in s.reqs
  }

  /** A token fits while the request has not reached its cap. */
  lemma CapNext(cfg: Config, r: Req, t: Token, computed: nat, status: Status)
    requires |r.output| < OutputCap(r, cfg.maxModelLen)
    ensures var r' := r.(computed := computed, output := r.output + [t], status := status);
      |r'.output| <= OutputCap(r', cfg.maxModelLen)
  {
  }

  lemma CapOf(cfg: Config, s: Sched, it: Item, rest: seq<Item>)
    requires SInv(cfg, s, [it] + rest)
    ensures it.id in s.reqs && it.id in s.running && s.reqs[it.id].status == Running
    ensures |s.reqs[it.id].output| < OutputCap(s.reqs[it.id], cfg.maxModelLen)
    ensures Fresh(rest, it.id)
  {
    hide Rows, Filling, Arrivals, SlotCap;
    AdvanceFactsOf(cfg, s, it, rest);
    FreshTail(s, it, rest);
  }

  lemma StoppedIsFinished(r: Req, maxModelLen: nat)
    requires r.output != [] && CheckStop(r, maxModelLen).Some?
    ensures CheckStop(r, maxModelLen).value.Finished()
  {
  }

  lemma UpdateOneGrown(cfg: Config, s: Sched, it: Item, rest: seq<Item>, sampled: map<Id, Token>)
    requires SInv(cfg, s, [it] + rest) && (it.doSample ==> it.id in sampled)
    requires Settled(s) && it.id !in s.waiting && Fin(s)
    ensures var r := UpdateOne(cfg, s, it, sampled); Grown(cfg, s, r.1, r.0) && Fin(r.0)
    ensures forall k :: 0 <= k < |UpdateOne(cfg, s, it, sampled).1| ==> UpdateOne(cfg, s, it, sampled).1[k].0 == it.id
  {
    hide SInv, KvShaped, FreeRequest, CheckStop, OutputCap;
    CapOf(cfg, s, it, rest);
    var r := UpdateOne(cfg, s, it, sampled);
    if it.doSample {
      var r0 := s.reqs[it.id];
      var r2 := r0.(computed := r0.computed + |it.chunk|, output := r0.output + [sampled[it.id]]);
      CapNext(cfg, r0, sampled[it.id], r2.computed, r2.status);
      match CheckStop(r2, cfg.maxModelLen) {
        case None => assert r.1 == [(it.id, r2)];
        case Some(status) =>
          StoppedIsFinished(r2, cfg.maxModelLen);
          CapNext(cfg, r0, sampled[it.id], r2.computed, status);
          assert r.1 == [(it.id, r2.(status := status))];
          DistinctAppend(s.finished, it.id);
      }
      forall id | id in s.reqs && NotAmong(r.1, id) ensures id != it.id { assert r.1[0].0 != id; }
    }
  }

  lemma GrownFirst(cfg: Config, s: Sched, u: (Id, Req), s1: Sched, u2: seq<(Id, Req)>, s2: Sched)
    requires GrownAt(cfg, s, u, s1) && Grown(cfg, s1, u2, s2) && NotAmong(u2, u.0)
    ensures GrownAt(cfg, s, u, s2)
  {
    hide OutputCap;
  }

  lemma GrownSecond(cfg: Config, s: Sched, u1: seq<(Id, Req)>, s1: Sched, u: (Id, Req), s2: Sched)
    requires Grown(cfg, s, u1, s1) && GrownAt(cfg, s1, u, s2) && NotAmong(u1, u.0)
    ensures GrownAt(cfg, s, u, s2)
  {
    hide OutputCap;
  }

  lemma GrownCompose(cfg: Config, s: Sched, u1: seq<(Id, Req)>, s1: Sched, u2: seq<(Id, Req)>, s2: Sched)
    requires Grown(cfg, s, u1, s1) && Grown(cfg, s1, u2, s2)
    requires forall i, j :: 0 <= i < |u1| && 0 <= j < |u2| ==> u1[i].0 != u2[j].0
    ensures Grown(cfg, s, u1 + u2, s2)
  {
    hide GrownAt;
    var us := u1 + u2;
    forall k | 0 <= k < |us| ensures GrownAt(cfg, s, us[k], s2) {
      if k < |u1| {
        assert us[k] == u1[k] && GrownAt(cfg, s, u1[k], s1);
        GrownFirst(cfg, s, u1[k], s1, u2, s2);
      } else {
        var j := k - |u1|;
        assert us[k] == u2[j] && GrownAt(cfg, s1, u2[j], s2);
        GrownSecond(cfg, s, u1, s1, u2[j], s2);
      }
    }
    forall id | NotAmong(us, id) ensures NotAmong(u1, id) && NotAmong(u2, id) {
      forall k | 0 <= k < |u1| ensures u1[k].0 != id { assert us[k] == u1[k]; }
      forall k | 0 <= k < |u2| ensures u2[k].0 != id { assert us[|u1| + k] == u2[k]; }
    }
  }

  lemma {:induction false} UpdateGrown(cfg: Config, s: Sched, items: seq<Item>, sampled: map<Id, Token>)
    requires SInv(cfg, s, items) && Fin(s)
    requires Settled(s) && forall it :: it in items ==> it.id !in s.waiting && (it.doSample ==> it.id in sampled)
    ensures var r := Update(cfg, s, items, sampled); Grown(cfg, s, r.1, r.0) && Fin(r.0)
    ensures forall k :: 0 <= k < |Update(cfg, s, items, sampled).1| ==> !Fresh(items, Update(cfg, s, items, sampled).1[k].0)
    decreases |items|
  {
    hide SInv, UpdateOne, KvShaped, Grown, Fresh;
    if items == [] {
      NothingGrown(cfg, s);
    } else {
      var it, rest := items[0], items[1..];
      assert items == [it] + rest;
      assert it in items && forall x :: x in rest ==> x in items;
      UpdateOneGrown(cfg, s, it, rest, sampled);
      UpdateOneInv(cfg, s, it, rest, sampled);
      var r1 := UpdateOne(cfg, s, it, sampled);
      UpdateGrown(cfg, r1.0, rest, sampled);
      var r2 := Update(cfg, r1.0, rest, sampled);
      CapOf(cfg, s, it, rest);
      forall id ensures Fresh(items, id) <==> id != it.id && Fresh(rest, id) { FreshCons(it, rest, id); }
      GrownCompose(cfg, s, r1.1, r1.0, r2.1, r2.0);
    }
  }

  lemma NothingGrown(cfg: Config, s: Sched)
    requires Fin(s)
    ensures Grown(cfg, s, [], s)
  {
  }

  lemma FreshCons(it: Item, rest: seq<Item>, id: Id)
    ensures Fresh([it] + rest, id) <==> id != it.id && Fresh(rest, id)
  {
    var all := [it] + rest;
    assert all[0] == it && forall k :: 0 <= k < |rest| ==> all[k + 1] == rest[k];
  }

  // ------------------------------------------------------------------ one event

  /** Scheduling changes no output and no one's life, and hands over the finished list. */
  lemma ScheduleGrown(cfg: Config, s: Sched, s': Sched, us: seq<(Id, Req)>, s'': Sched)
    requires SameTokens(s, s') && s'.finished == [] && Grown(cfg, s', us, s'')
    ensures Grown(cfg, s.(finished := []), us, s'')
  {
    hide OutputCap;
    forall id | id in s.reqs ensures s'.reqs[id].output == s.reqs[id].output { RankSame(s, s', id); }
    forall k | 0 <= k < |us| ensures GrownAt(cfg, s.(finished := []), us[k], s'') { assert GrownAt(cfg, s', us[k], s''); }
  }

  /** Apart from additions, an event only grows outputs and ends lives. */
  ghost predicate Lived(net: Net, cfg: Config, size: nat, e: Engine, ev: Event)
    requires Defined(net, cfg, size, e, ev)
  {
    var (e', us) := Apply(net, cfg, size, e, ev);
    && e.used <= e'.used
    && match ev
       case StepEvent => Grown(cfg, e.s.(finished := []), us, e'.s)
       case AbortEvent(id) =>
         && us == [] && e'.s.reqs == e.s.reqs - {id}
         && e'.s.finished == (if id in e.s.reqs then e.s.finished + [id] else e.s.finished)
       case Add(id, _, _, _, _, _) =>
         && us == [] && e'.s.finished == e.s.finished
         && (e'.s.reqs == e.s.reqs || (id !in e.s.reqs && id in e'.used && e'.s.reqs.Keys == e.s.reqs.Keys + {id}
              && e'.s.reqs[id].output == [] && forall x :: x in e.s.reqs ==> e'.s.reqs[x] == e.s.reqs[x]))
  }

  lemma StepLived(net: Net, cfg: Config, size: nat, e: Engine)
    requires EBase(net, cfg, size, e)
    ensures StepDefined(net, cfg, e, size)
    ensures Lived(net, cfg, size, e, StepEvent)
  {
    hide SInv, KvShaped, Schedule, Execute, Executable, Update, Grown, SameTokens, AllButLast, OutputCap, ScheduleAsserts, UpdateAsserts;
    StepSafe(net, cfg, size, e);
    SInvWf(cfg, e.s, []);
    ScheduleInv(cfg, e.s);
    var (s', o) := Schedule(cfg, e.s);
    if o.Some? && (o.value.scheduled != [] || o.value.finished != []) {
      var sampled := Execute(net, cfg.blockSize, e.r, o.value, size).1;
      UpdateGrown(cfg, s', o.value.scheduled, sampled);
      var u := Update(cfg, s', o.value.scheduled, sampled);
      ScheduleGrown(cfg, e.s, s', u.1, u.0);
    } else {
      NothingGrown(cfg, s');
      ScheduleGrown(cfg, e.s, s', [], s');
    }
  }

  lemma EventLived(net: Net, cfg: Config, size: nat, e: Engine, ev: Event)
    requires EBase(net, cfg, size, e) && Defined(net, cfg, size, e, ev)
    ensures Lived(net, cfg, size, e, ev)
  {
    hide SInv, KvShaped, Step, StepDefined, Abort, Grown, Mirrored;
    match ev {
      case StepEvent => StepLived(net, cfg, size, e);
      case AbortEvent(id) =>
        AbortCases(cfg, e.s, id);
      case Add(id, prompt, params, eos, priority, embeds) =>
    }
  }

  // ------------------------------------------------------------------ whole runs

  ghost predicate LifeAt(net: Net, cfg: Config, size: nat, states: seq<Engine>, evs: seq<Event>, outs: seq<seq<(Id, Req)>>, i: nat) {
    && i < |evs| == |outs| && |states| == |evs| + 1
    && Defined(net, cfg, size, states[i], evs[i])
    && (states[i + 1], outs[i]) == Apply(net, cfg, size, states[i], evs[i])
    && Lived(net, cfg, size, states[i], evs[i])
  }

  ghost predicate Known(e: Engine) {
    && (forall id :: id in e.s.reqs ==> id in e.used)
    && (forall id :: id in e.s.finished ==> id in e.used)
  }

  /** No id is given to a second request; asking again for a live one is refused. */
  ghost predicate FreshIds(states: seq<Engine>, evs: seq<Event>) {
    |states| == |evs| + 1 && forall i :: 0 <= i < |evs| ==> FreshAt(states[i], evs[i])
  }

  ghost predicate FreshAt(e: Engine, ev: Event) {
    ev.Add? && ev.id in e.used ==> ev.id in e.s.reqs
  }

  lemma KnownKept(net: Net, cfg: Config, size: nat, e: Engine, ev: Event)
    requires Defined(net, cfg, size, e, ev) && Lived(net, cfg, size, e, ev) && Known(e)
    ensures Known(Apply(net, cfg, size, e, ev).0)
  {
    hide Apply, Defined, GrownAt;
  }

  ghost predicate LifeRun(net: Net, cfg: Config, size: nat, states: seq<Engine>, evs: seq<Event>, outs: seq<seq<(Id, Req)>>) {
    && |states| == |evs| + 1 && |outs| == |evs|
    && FreshIds(states, evs)
    && (forall i :: 0 <= i < |evs| ==> LifeAt(net, cfg, size, states, evs, outs, i))
    && (forall i :: 0 <= i < |states| ==> Fin(states[i].s) && Known(states[i]))
  }

  lemma NobodyKnown(numBlocks: nat, caching: bool, caches: seq<seq<KVal>>, graphs: Option<Graphs>)
    ensures Known(NewEngine(numBlocks, caching, caches, graphs)) && Fin(NewEngine(numBlocks, caching, caches, graphs).s)
  {
  }

  /** Every run from an empty engine. */
  lemma {:induction false} RunLives(net: Net, cfg: Config, size: nat, numBlocks: nat, caching: bool, caches: seq<seq<KVal>>, graphs: Option<Graphs>,
                                    states: seq<Engine>, evs: seq<Event>, outs: seq<seq<(Id, Req)>>)
    requires cfg.blockSize > 0 && cfg.maxBatched > 0
    requires CachesOk(net, caches, size) && numBlocks * cfg.blockSize <= size && GraphsFit(graphs, numBlocks, cfg.blockSize, size)
    requires IsRun(net, cfg, size, states, evs, outs) && states[0] == NewEngine(numBlocks, caching, caches, graphs)
    requires FreshIds(states, evs)
    ensures LifeRun(net, cfg, size, states, evs, outs)
  {
    hide EBase, StepDefined, Apply, CachesOk, Lived, Known;
    if evs == [] {
      NobodyKnown(numBlocks, caching, caches, graphs);
    } else {
      var n := |evs| - 1;
      InitRun(net, cfg, size, states, evs, outs);
      var ss := states[..|states| - 1];
      FreshInit(states, evs);
      RunLives(net, cfg, size, numBlocks, caching, caches, graphs, ss, evs[..n], outs[..n]);
      assert RunStep(net, cfg, size, states, evs, outs, n);
      RunsAreSafe(net, cfg, size, numBlocks, caching, caches, graphs, states, evs, outs);
      assert Fin(ss[n].s);
      EventLived(net, cfg, size, states[n], evs[n]);
      KnownKept(net, cfg, size, states[n], evs[n]);
      LivedFin(net, cfg, size, states[n], evs[n]);
      forall i: nat | i < |evs| ensures LifeAt(net, cfg, size, states, evs, outs, i) {
        if i < n { assert LifeAt(net, cfg, size, ss, evs[..n], outs[..n], i); }
      }
      forall i | 0 <= i < |states| ensures Fin(states[i].s) && Known(states[i]) {
        if i <= n { assert ss[i] == states[i]; }
      }
    }
  }

  lemma FreshInit(states: seq<Engine>, evs: seq<Event>)
    requires FreshIds(states, evs) && evs != []
    ensures FreshIds(states[..|states| - 1], evs[..|evs| - 1])
  {
    hide FreshAt;
    var n := |evs| - 1;
    var ss, es := states[..|states| - 1], evs[..n];
    forall i | 0 <= i < n ensures FreshAt(ss[i], es[i]) { assert FreshAt(states[i], evs[i]); }
  }

  lemma LivedFin(net: Net, cfg: Config, size: nat, e: Engine, ev: Event)
    requires Defined(net, cfg, size, e, ev) && Lived(net, cfg, size, e, ev) && Fin(e.s) && Known(e) && FreshAt(e, ev)
    ensures Fin(Apply(net, cfg, size, e, ev).0.s)
  {
    hide Apply, GrownAt;
    match ev
    case StepEvent =>
    case AbortEvent(id) => if id in e.s.reqs { DistinctAppend(e.s.finished, id); }
    case Add(_, _, _, _, _, _) =>
  }

  ghost predicate Speaks(out: seq<(Id, Req)>, id: Id) {
    exists k :: 0 <= k < |out| && out[k].0 == id
  }

  /** The number of steps before i that handed back a token of id. */
  ghost function Said(outs: seq<seq<(Id, Req)>>, id: Id, i: nat): nat
    requires i <= |outs|
  {
    if i == 0 then 0 else Said(outs, id, i - 1) + if Speaks(outs[i - 1], id) then 1 else 0
  }

  /** What one event does to one id. */
  lemma OneLife(net: Net, cfg: Config, size: nat, states: seq<Engine>, evs: seq<Event>, outs: seq<seq<(Id, Req)>>, i: nat, id: Id)
    requires i < |evs| && LifeRun(net, cfg, size, states, evs, outs)
    ensures id in states[i].used ==> id in states[i + 1].used
    ensures id in states[i + 1].s.reqs && id !in states[i].s.reqs ==>
      id !in states[i].used && !Speaks(outs[i], id) && states[i + 1].s.reqs[id].output == []
    ensures id in states[i].s.reqs && id in states[i + 1].s.reqs ==>
      && states[i].s.reqs[id].output <= states[i + 1].s.reqs[id].output
      && |states[i + 1].s.reqs[id].output| == |states[i].s.reqs[id].output| + if Speaks(outs[i], id) then 1 else 0
    ensures id in states[i + 1].s.finished && !evs[i].StepEvent? ==> id in states[i].s.finished || id in states[i].s.reqs
    ensures id in states[i + 1].s.finished && evs[i].StepEvent? ==> id in states[i].s.reqs
  {
    hide Apply, Defined, OutputCap;
    assert LifeAt(net, cfg, size, states, evs, outs, i);
    var s, s' := states[i].s, states[i + 1].s;
    assert Known(states[i]) && FreshAt(states[i], evs[i]);
    if evs[i].StepEvent? {
      assert Grown(cfg, s.(finished := []), outs[i], s');
      if Speaks(outs[i], id) {
        var k :| 0 <= k < |outs[i]| && outs[i][k].0 == id;
        assert GrownAt(cfg, s.(finished := []), outs[i][k], s');
      } else {
        assert NotAmong(outs[i], id);
      }
    }
  }

  /** The output a step hands back extends the live one, and ends the life if it is finished. */
  lemma OneOutput(net: Net, cfg: Config, size: nat, states: seq<Engine>, evs: seq<Event>, outs: seq<seq<(Id, Req)>>, i: nat, k: nat)
    requires i < |evs| && LifeRun(net, cfg, size, states, evs, outs) && k < |outs[i]|
    ensures var u := outs[i][k];
      && u.0 in states[i].s.reqs && u.0 in states[i].used
      && states[i].s.reqs[u.0].output <= u.1.output && |u.1.output| == |states[i].s.reqs[u.0].output| + 1
      && |u.1.output| <= OutputCap(u.1, cfg.maxModelLen)
      && (if u.1.status.Finished() then u.0 !in states[i + 1].s.reqs
          else u.0 in states[i + 1].s.reqs && states[i + 1].s.reqs[u.0].output == u.1.output)
    ensures forall l :: 0 <= l < |outs[i]| && l != k ==> outs[i][l].0 != outs[i][k].0
  {
    hide Apply, Defined, OutputCap;
    assert LifeAt(net, cfg, size, states, evs, outs, i);
    assert Known(states[i]);
    assert evs[i].StepEvent?;
    assert GrownAt(cfg, states[i].s.(finished := []), outs[i][k], states[i + 1].s);
  }

  /** A live request has as many output tokens as were handed back; an unused id has none. */
  lemma {:induction false} SaidIsLength(net: Net, cfg: Config, size: nat, states: seq<Engine>, evs: seq<Event>, outs: seq<seq<(Id, Req)>>, i: nat, id: Id)
    requires i <= |evs| && LifeRun(net, cfg, size, states, evs, outs) && states[0].s.reqs == map[] && states[0].used == {}
    ensures id in states[i].s.reqs ==> |states[i].s.reqs[id].output| == Said(outs, id, i)
    ensures id !in states[i].used ==> Said(outs, id, i) == 0
    decreases i
  {
    hide LifeRun;
    RunShape(net, cfg, size, states, evs, outs);
    if i > 0 {
      SaidIsLength(net, cfg, size, states, evs, outs, i - 1, id);
      OneLife(net, cfg, size, states, evs, outs, i - 1, id);
      if Speaks(outs[i - 1], id) {
        var k :| 0 <= k < |outs[i - 1]| && outs[i - 1][k].0 == id;
        OneOutput(net, cfg, size, states, evs, outs, i - 1, k);
      }
    }
  }

  lemma RunShape(net: Net, cfg: Config, size: nat, states: seq<Engine>, evs: seq<Event>, outs: seq<seq<(Id, Req)>>)
    requires LifeRun(net, cfg, size, states, evs, outs)
    ensures |states| == |evs| + 1 && |outs| == |evs|
    ensures forall i, id :: 0 <= i < |states| && id in states[i].s.reqs ==> id in states[i].used
  {
    forall i, id | 0 <= i < |states| && id in states[i].s.reqs ensures id in states[i].used { assert Known(states[i]); }
  }

  /** After an output of i, whoever still lives has grown from it; a finished one never lives again. */
  lemma {:induction false} AfterOutput(net: Net, cfg: Config, size: nat, states: seq<Engine>, evs: seq<Event>, outs: seq<seq<(Id, Req)>>, i: nat, k: nat, j: nat)
    requires LifeRun(net, cfg, size, states, evs, outs) && i < j <= |evs| && k < |outs[i]|
    ensures outs[i][k].0 in states[j].used
    ensures outs[i][k].0 in states[j].s.reqs ==>
      !outs[i][k].1.status.Finished() && outs[i][k].1.output <= states[j].s.reqs[outs[i][k].0].output
    decreases j
  {
    hide LifeRun;
    RunShape(net, cfg, size, states, evs, outs);
    if j == i + 1 {
      OneOutput(net, cfg, size, states, evs, outs, i, k);
      OneLife(net, cfg, size, states, evs, outs, i, outs[i][k].0);
    } else {
      AfterOutput(net, cfg, size, states, evs, outs, i, k, j - 1);
      OneLife(net, cfg, size, states, evs, outs, j - 1, outs[i][k].0);
    }
  }

  /** Outputs over a run with fresh ids: the n-th one handed back for an id has n tokens and
      extends all before it, none follows a finished one, and none exceeds the length cap. */
  lemma OutputsGrowByOne(net: Net, cfg: Config, size: nat, states: seq<Engine>, evs: seq<Event>, outs: seq<seq<(Id, Req)>>)
    requires LifeRun(net, cfg, size, states, evs, outs) && states[0].s.reqs == map[] && states[0].used == {}
    ensures |states| == |evs| + 1 && |outs| == |evs|
    ensures forall i, k :: 0 <= i < |outs| && 0 <= k < |outs[i]| ==>
      && |outs[i][k].1.output| == Said(outs, outs[i][k].0, i) + 1
      && |outs[i][k].1.output| <= OutputCap(outs[i][k].1, cfg.maxModelLen)
    ensures forall i, k, j, l :: 0 <= i < j < |outs| && 0 <= k < |outs[i]| && 0 <= l < |outs[j]| && outs[i][k].0 == outs[j][l].0 ==>
      !outs[i][k].1.status.Finished() && outs[i][k].1.output < outs[j][l].1.output
  {
    hide LifeRun, OutputCap;
    RunShape(net, cfg, size, states, evs, outs);
    forall i, k | 0 <= i < |outs| && 0 <= k < |outs[i]|
      ensures |outs[i][k].1.output| == Said(outs, outs[i][k].0, i) + 1
      ensures |outs[i][k].1.output| <= OutputCap(outs[i][k].1, cfg.maxModelLen)
    {
      OneOutput(net, cfg, size, states, evs, outs, i, k);
      SaidIsLength(net, cfg, size, states, evs, outs, i, outs[i][k].0);
    }
    forall i, k, j, l | 0 <= i < j < |outs| && 0 <= k < |outs[i]| && 0 <= l < |outs[j]| && outs[i][k].0 == outs[j][l].0
      ensures !outs[i][k].1.status.Finished() && outs[i][k].1.output < outs[j][l].1.output
    {
      AfterOutput(net, cfg, size, states, evs, outs, i, k, j);
      OneOutput(net, cfg, size, states, evs, outs, j, l);
    }
  }

  // ------------------------------------------------------------------ finished ids

  /** The step hands this finished id to the runner. */
  ghost predicate Told(cfg: Config, e: Engine, ev: Event, id: Id) {
    && ev.StepEvent? && cfg.blockSize > 0 && Wf(e.s)
    && Schedule(cfg, e.s).1.Some? && id in Schedule(cfg, e.s).1.value.finished
  }

  lemma ToldFinished(cfg: Config, e: Engine, ev: Event, id: Id)
    requires Told(cfg, e, ev, id)
    ensures id in e.s.finished && ev.StepEvent?
  {
    hide KvShaped, AdmitPhase, RunPhase, PreemptForPriority, SortPhase;
  }

  /** Once finished and past a step, an id is neither live nor on the finished list. */
  lemma {:induction false} StaysGone(net: Net, cfg: Config, size: nat, states: seq<Engine>, evs: seq<Event>, outs: seq<seq<(Id, Req)>>, i: nat, j: nat, id: Id)
    requires LifeRun(net, cfg, size, states, evs, outs) && i < j <= |evs|
    requires id in states[i].s.finished && evs[i].StepEvent?
    ensures id in states[j].used && id !in states[j].s.reqs && id !in states[j].s.finished
    decreases j
  {
    hide LifeRun;
    RunShape(net, cfg, size, states, evs, outs);
    if j == i + 1 {
      FinishedGone(net, cfg, size, states, evs, outs, i, id);
    } else {
      StaysGone(net, cfg, size, states, evs, outs, i, j - 1, id);
    }
    OneLife(net, cfg, size, states, evs, outs, j - 1, id);
  }

  lemma FinishedGone(net: Net, cfg: Config, size: nat, states: seq<Engine>, evs: seq<Event>, outs: seq<seq<(Id, Req)>>, i: nat, id: Id)
    requires LifeRun(net, cfg, size, states, evs, outs) && i < |states| && id in states[i].s.finished
    ensures id in states[i].used && id !in states[i].s.reqs
  {
    assert Fin(states[i].s) && Known(states[i]);
  }

  /** Each finished id reaches the runner in at most one step, and once in that step. */
  lemma ToldOnce(net: Net, cfg: Config, size: nat, states: seq<Engine>, evs: seq<Event>, outs: seq<seq<(Id, Req)>>)
    requires LifeRun(net, cfg, size, states, evs, outs)
    ensures |states| == |evs| + 1
    ensures forall i, j, id :: 0 <= i < j < |evs| && Told(cfg, states[i], evs[i], id) ==> !Told(cfg, states[j], evs[j], id)
    ensures forall i :: 0 <= i < |states| ==> Distinct(states[i].s.finished)
  {
    hide LifeRun, Told;
    RunShape(net, cfg, size, states, evs, outs);
    forall i, j, id | 0 <= i < j < |evs| && Told(cfg, states[i], evs[i], id) ensures !Told(cfg, states[j], evs[j], id) {
      ToldFinished(cfg, states[i], evs[i], id);
      StaysGone(net, cfg, size, states, evs, outs, i, j, id);
      if Told(cfg, states[j], evs[j], id) { ToldFinished(cfg, states[j], evs[j], id); }
    }
    forall i | 0 <= i < |states| ensures Distinct(states[i].s.finished) { FinAt(net, cfg, size, states, evs, outs, i); }
  }

  lemma FinAt(net: Net, cfg: Config, size: nat, states: seq<Engine>, evs: seq<Event>, outs: seq<seq<(Id, Req)>>, i: nat)
    requires LifeRun(net, cfg, size, states, evs, outs) && i < |states|
    ensures Fin(states[i].s)
  {
  }
}
