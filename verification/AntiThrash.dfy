/** Priority eviction cannot thrash: between arrivals, whoever was admitted outranks all who
    wait, so no request is evicted for priority twice. */
module AntiThrash {
  import opened Util
  import opened Hashing
  import opened BlockManagerSpec
  import opened RequestSpec
  import opened SchedulerSpec
  import opened SchedulerInv
  import opened SchedulePhases
  import opened Ranking
  import opened ScheduleStep
  import opened Model
  import opened RunnerSpec
  import opened EngineSpec
  import opened EngineSafe
  import opened EngineRun

  ghost predicate Before(ids: seq<Id>, a: Id, b: Id) {
    exists i, j :: 0 <= i < j < |ids| && ids[i] == a && ids[j] == b
  }

  lemma BeforeIn(ids: seq<Id>, a: Id, b: Id)
    requires Before(ids, a, b)
    ensures a in ids && b in ids && (Distinct(ids) ==> a != b)
  {
  }

  lemma BeforeConcat(xs: seq<Id>, ys: seq<Id>, a: Id, b: Id)
    requires Before(xs + ys, a, b)
    ensures Before(xs, a, b) || Before(ys, a, b) || (a in xs && b in ys)
  {
    var all := xs + ys;
    var i, j :| 0 <= i < j < |all| && all[i] == a && all[j] == b;
    if j < |xs| {
      assert xs[i] == a && xs[j] == b;
    } else if i >= |xs| {
      assert ys[i - |xs|] == a && ys[j - |xs|] == b;
    } else {
      assert xs[i] == a && ys[j - |xs|] == b;
    }
  }

  lemma BeforePrefix(xs: seq<Id>, ys: seq<Id>, a: Id, b: Id)
    requires xs <= ys && Before(xs, a, b)
    ensures Before(ys, a, b)
  {
    var i, j :| 0 <= i < j < |xs| && xs[i] == a && xs[j] == b;
    assert ys[i] == a && ys[j] == b;
  }

  lemma BeforeTail(ids: seq<Id>, a: Id, b: Id)
    requires ids != [] && Before(ids[1..], a, b)
    ensures Before(ids, a, b)
  {
    var t := ids[1..];
    var i, j :| 0 <= i < j < |t| && t[i] == a && t[j] == b;
    assert ids[i + 1] == a && ids[j + 1] == b;
  }

  lemma {:induction false} BeforeRemove(ids: seq<Id>, x: Id, a: Id, b: Id)
    requires Before(Remove(ids, x), a, b)
    ensures Before(ids, a, b)
  {
    if ids != [] {
      var t := ids[1..];
      if ids[0] == x {
        BeforeTail(ids, a, b);
      } else {
        var r := Remove(t, x);
        BeforeConcat([ids[0]], r, a, b);
        if Before(r, a, b) {
          BeforeRemove(t, x, a, b);
          BeforeTail(ids, a, b);
        } else {
          assert !Before([ids[0]], a, b);
          assert b in t;
          var j :| 0 <= j < |t| && t[j] == b;
          assert ids[0] == a && ids[j + 1] == b;
        }
      }
    }
  }

  /** vets ran when the last request arrived; everyone else who runs was admitted since,
      stands behind them in rank order, and outranks all who wait. */
  ghost predicate Calm(s: Sched, vets: set<Id>) {
    && Wf(s)
    && (forall a, b :: Before(s.running, a, b) && a !in vets ==> b !in vets && Outranked(s, a, b))
    && (forall a, b :: a in s.running && b in s.waiting && a !in vets ==> Outranked(s, a, b))
  }

  /** a outranks b */
  ghost predicate Outranked(s: Sched, a: Id, b: Id) {
    a in s.reqs && b in s.reqs && Outranks(s.reqs[a], s.reqs[b])
  }

  /** Every running request counts as a veteran at an arrival. */
  lemma CalmAtArrival(s: Sched)
    requires Wf(s)
    ensures Calm(s, set id | id in s.running)
  {
    forall a, b | Before(s.running, a, b) ensures a in s.running { BeforeIn(s.running, a, b); }
  }

  /** In a calm state only a veteran can be evicted for priority. */
  lemma VictimIsVeteran(cfg: Config, s: Sched, vets: set<Id>)
    requires Calm(s, vets) && Evicts(cfg, s)
    ensures Lowest(s.reqs, s.running) in vets
  {
    hide KvShaped;
    var v, t := Lowest(s.reqs, s.running), Top(s.reqs, s.waiting);
    LowestIsLeast(s.reqs, s.running);
    assert v in s.running && t in s.waiting;
    assert v !in vets ==> Outranked(s, v, t);
  }

  // ------------------------------------------------------------------ one schedule call

  lemma OutrankedSame(s: Sched, s': Sched, a: Id, b: Id)
    requires SameTokens(s, s') && Outranked(s, a, b)
    ensures Outranked(s', a, b)
  {
    RankSame(s, s', a);
    RankSame(s, s', b);
  }

  /** The victim of priority eviction is outranked by everyone who keeps running. */
  lemma VictimBelow(cfg: Config, s: Sched, a: Id)
    requires Wf(s) && Evicts(cfg, s) && Arrivals(s) && Distinct(s.running)
    requires a in Remove(s.running, Lowest(s.reqs, s.running))
    ensures Outranked(s, a, Lowest(s.reqs, s.running))
  {
    hide KvShaped;
    var v := Lowest(s.reqs, s.running);
    RemoveDistinct(s.running, v);
    LowestIsLeast(s.reqs, s.running);
  }

  ghost function Stay(cfg: Config, s: Sched): seq<Id>
    requires Wf(s)
  {
    if Evicts(cfg, s) then Remove(s.running, Lowest(s.reqs, s.running)) else s.running
  }

  /** Whoever waits after the call waited before it, was evicted, or was popped off the back. */
  lemma WhoWaits(cfg: Config, s: Sched, s': Sched, kept: seq<Id>, w: Id)
    requires Wf(s) && Lists(s) && Lists(s') && s'.reqs.Keys == s.reqs.Keys
    requires kept <= s'.running && kept <= Stay(cfg, s)
    requires w in s.reqs && w !in kept
    ensures w in s.waiting || (Evicts(cfg, s) && w == Lowest(s.reqs, s.running)) || (w in Stay(cfg, s) && forall a :: a in kept ==> Before(Stay(cfg, s), a, w))
  {
    hide KvShaped;
    var stay := Stay(cfg, s);
    if w !in s.waiting && !(Evicts(cfg, s) && w == Lowest(s.reqs, s.running)) {
      assert w in stay by { if Evicts(cfg, s) { RemoveWithout(s.running, Lowest(s.reqs, s.running)); } }
      var j :| 0 <= j < |stay| && stay[j] == w;
      assert forall i :: 0 <= i < |kept| ==> stay[i] in kept;
      forall a | a in kept ensures Before(stay, a, w) {
        var i :| 0 <= i < |kept| && kept[i] == a;
        assert stay[i] == a && i < j;
      }
    }
  }

  lemma StayBefore(cfg: Config, s: Sched, a: Id, b: Id)
    requires Wf(s) && Before(Stay(cfg, s), a, b)
    ensures Before(s.running, a, b)
  {
    if Evicts(cfg, s) { BeforeRemove(s.running, Lowest(s.reqs, s.running), a, b); }
  }

  /** A kept newcomer outranks every request that was not kept. */
  lemma KeptOutranks(cfg: Config, s: Sched, s': Sched, vets: set<Id>, kept: seq<Id>, a: Id, w: Id)
    requires Calm(s, vets) && Lists(s) && Lists(s') && Arrivals(s) && SameTokens(s, s')
    requires kept <= s'.running && kept <= Stay(cfg, s)
    requires a in kept && a !in vets && w in s.reqs && w !in kept
    ensures Outranked(s', a, w)
  {
    hide KvShaped, Evicts, SameTokens;
    KnownOf(s, s');
    WhoWaits(cfg, s, s', kept, w);
    var stay := Stay(cfg, s);
    assert a in stay;
    assert a in s.running;
    if w in s.waiting {
      assert Outranked(s, a, w);
    } else if Evicts(cfg, s) && w == Lowest(s.reqs, s.running) {
      VictimBelow(cfg, s, a);
    } else {
      StayBefore(cfg, s, a, w);
    }
    OutrankedSame(s, s', a, w);
  }

  lemma KnownOf(s: Sched, s': Sched)
    requires SameTokens(s, s')
    ensures s'.reqs.Keys == s.reqs.Keys
  {
  }

  /** Admitted requests stand in rank order ahead of everyone who still waits. */
  lemma AdmittedOutranks(s': Sched, admitted: seq<Id>, a: Id, b: Id)
    requires Arrivals(s') && Known(s'.reqs, admitted + s'.waiting) && Sorted(s'.reqs, admitted + s'.waiting)
    requires a != b && (Before(admitted, a, b) || (a in admitted && b in s'.waiting))
    ensures Outranked(s', a, b)
  {
    var all := admitted + s'.waiting;
    assert Before(all, a, b) by {
      if Before(admitted, a, b) {
        BeforePrefix(admitted, all, a, b);
      } else {
        var i :| 0 <= i < |admitted| && admitted[i] == a;
        var j :| 0 <= j < |s'.waiting| && s'.waiting[j] == b;
        assert all[i] == a && all[|admitted| + j] == b;
      }
    }
    var i, j :| 0 <= i < j < |all| && all[i] == a && all[j] == b;
    assert a in all && b in all;
    assert !Outranks(s'.reqs[all[j]], s'.reqs[all[i]]);
  }

  lemma DisjointConcat(xs: seq<Id>, ys: seq<Id>, b: Id)
    requires Distinct(xs + ys) && b in ys
    ensures b !in xs
  {
    var all := xs + ys;
    var j :| 0 <= j < |ys| && ys[j] == b;
    assert all[|xs| + j] == b;
    forall i | 0 <= i < |xs| ensures xs[i] != b { assert all[i] != all[|xs| + j]; }
  }

  lemma CalmAfter(cfg: Config, s: Sched, s': Sched, vets: set<Id>, out: seq<Item>, kept: seq<Id>, admitted: seq<Id>)
    requires Calm(s, vets) && Lists(s) && Lists(s') && Arrivals(s) && Arrivals(s') && SameTokens(s, s') && Wf(s')
    requires Shape(cfg, s, s', out, kept, admitted)
    ensures Calm(s', vets * set id | id in kept)
  {
    hide KvShaped, Evicts, SameTokens, Sorted, Outranked;
    KnownOf(s, s');
    var vets' := vets * set id | id in kept;
    forall a, b | Before(s'.running, a, b) && a !in vets' ensures b !in vets' && Outranked(s', a, b) {
      BeforeIn(s'.running, a, b);
      BeforeConcat(kept, admitted, a, b);
      CalmPair(cfg, s, s', vets, out, kept, admitted, a, b);
    }
    forall a, b | a in s'.running && b in s'.waiting && a !in vets' ensures Outranked(s', a, b) {
      assert b in s.reqs && b !in kept by { assert forall x :: x in kept ==> x in s'.running; }
      if a in kept {
        KeptOutranks(cfg, s, s', vets, kept, a, b);
      } else {
        assert a in admitted;
        AdmittedOutranks(s', admitted, a, b);
      }
    }
  }

  lemma CalmPair(cfg: Config, s: Sched, s': Sched, vets: set<Id>, out: seq<Item>, kept: seq<Id>, admitted: seq<Id>, a: Id, b: Id)
    requires Calm(s, vets) && Lists(s) && Lists(s') && Arrivals(s) && Arrivals(s') && SameTokens(s, s')
    requires Shape(cfg, s, s', out, kept, admitted)
    requires a != b && (a in kept ==> a !in vets) && (Before(kept, a, b) || Before(admitted, a, b) || (a in kept && b in admitted))
    ensures Outranked(s', a, b) && (b in kept ==> b !in vets)
  {
    hide KvShaped, Evicts, SameTokens, Sorted, Outranked, Arrivals;
    KnownOf(s, s');
    if Before(kept, a, b) {
      BeforeIn(kept, a, b);
      BeforePrefix(kept, Stay(cfg, s), a, b);
      StayBefore(cfg, s, a, b);
      OutrankedSame(s, s', a, b);
    } else if Before(admitted, a, b) {
      BeforeIn(admitted, a, b);
      DisjointConcat(kept, admitted, b);
      AdmittedOutranks(s', admitted, a, b);
    } else {
      DisjointConcat(kept, admitted, b);
      assert b in s'.running;
      KeptOutranks(cfg, s, s', vets, kept, a, b);
    }
  }

  /** schedule() keeps the state calm; the veterans it leaves were veterans and kept running. */
  lemma ScheduleCalm(cfg: Config, s: Sched, vets: set<Id>)
    requires SInv(cfg, s, []) && Wf(s) && cfg.maxBatched >= 0 && cfg.blockSize > 0 && Calm(s, vets)
    ensures Calm(Schedule(cfg, s).0, vets * set id | id in Kept(cfg, s))
  {
    hide SInv, KvShaped, Schedule, AdmitPhase, Stage2, Kept, AdmittedIds, Evicts, SameTokens, Calm, AllButLast, Shape;
    ScheduleInv(cfg, s);
    ScheduleShape(cfg, s);
    var (s', o) := Schedule(cfg, s);
    var out := if o.Some? then o.value.scheduled else [];
    Parts(cfg, s, []);
    Parts(cfg, s', out);
    var r := AdmitPhase(cfg, Stage2(cfg, s));
    CalmAfter(cfg, s, s', vets, r.0.out, Kept(cfg, s), AdmittedIds(cfg, s));
  }

  lemma Parts(cfg: Config, s: Sched, out: seq<Item>)
    requires SInv(cfg, s, out)
    ensures Lists(s) && Arrivals(s)
  {
  }

  // ------------------------------------------------------------------ update and abort

  /** Fewer run, the same or fewer wait, ranks are kept. */
  lemma CalmFewer(s: Sched, s': Sched, vets: set<Id>, gone: Id)
    requires Calm(s, vets) && Wf(s')
    requires s'.running == s.running || s'.running == Remove(s.running, gone)
    requires forall id :: id in s'.waiting ==> id in s.waiting
    requires forall id :: id in s'.reqs ==> id in s.reqs && s'.reqs[id].priority == s.reqs[id].priority && s'.reqs[id].arrival == s.reqs[id].arrival
    ensures Calm(s', vets)
  {
    hide KvShaped;
    forall a, b | Before(s'.running, a, b) && a !in vets ensures b !in vets && Outranked(s', a, b) {
      BeforeIn(s'.running, a, b);
      if s'.running != s.running { BeforeRemove(s.running, gone, a, b); }
      assert Outranked(s, a, b);
    }
    forall a, b | a in s'.running && b in s'.waiting && a !in vets ensures Outranked(s', a, b) {
      assert Outranked(s, a, b);
    }
  }

  lemma UpdateOneCalm(cfg: Config, s: Sched, it: Item, sampled: map<Id, Token>, vets: set<Id>)
    requires Settled(s) && it.id !in s.waiting && (it.doSample ==> it.id in sampled) && Calm(s, vets)
    ensures Calm(UpdateOne(cfg, s, it, sampled).0, vets)
  {
    hide KvShaped, FreeRequest, CheckStop, Calm;
    CalmFewer(s, UpdateOne(cfg, s, it, sampled).0, vets, it.id);
  }

  lemma {:induction false} UpdateCalm(cfg: Config, s: Sched, items: seq<Item>, sampled: map<Id, Token>, vets: set<Id>)
    requires Settled(s) && forall it :: it in items ==> it.id !in s.waiting && (it.doSample ==> it.id in sampled)
    requires Calm(s, vets)
    ensures Calm(Update(cfg, s, items, sampled).0, vets)
    decreases |items|
  {
    hide KvShaped, UpdateOne, Calm;
    if items != [] {
      var it, rest := items[0], items[1..];
      assert it in items && forall x :: x in rest ==> x in items;
      UpdateOneCalm(cfg, s, it, sampled, vets);
      UpdateCalm(cfg, UpdateOne(cfg, s, it, sampled).0, rest, sampled, vets);
    }
  }

  lemma AbortCalm(s: Sched, id: Id, vets: set<Id>)
    requires Wf(s) && Wf(Abort(s, id)) && Calm(s, vets)
    ensures Calm(Abort(s, id), vets)
  {
    hide KvShaped, FreeRequest, Calm;
    if id in s.reqs && !s.reqs[id].status.Finished() {
      CalmFewer(s, Abort(s, id), vets, id);
    }
  }

  // ------------------------------------------------------------------ whole runs

  ghost predicate EvictedNow(cfg: Config, e: Engine, ev: Event, id: Id) {
    ev.StepEvent? && Wf(e.s) && Evicts(cfg, e.s) && id == Lowest(e.s.reqs, e.s.running)
  }

  /** What calm says of one newcomer. */
  ghost predicate Secure(cfg: Config, e: Engine, id: Id) {
    && (forall w :: w in e.s.waiting ==> Outranked(e.s, id, w))
    && (Wf(e.s) && Evicts(cfg, e.s) ==> id != Lowest(e.s.reqs, e.s.running))
  }

  lemma CalmSecure(cfg: Config, e: Engine, vets: set<Id>, id: Id)
    requires Calm(e.s, vets) && id in e.s.running && id !in vets
    ensures Secure(cfg, e, id)
  {
    hide KvShaped, Evicts;
    if Evicts(cfg, e.s) { VictimIsVeteran(cfg, e.s, vets); }
  }

  /** A step or an abort leaves a calm state calm, with no new veterans; a victim is none. */
  lemma EventCalm(net: Net, cfg: Config, size: nat, e: Engine, ev: Event, vets: set<Id>) returns (vets': set<Id>)
    requires EBase(net, cfg, size, e) && Calm(e.s, vets) && !ev.Add?
    requires Defined(net, cfg, size, e, ev)
    requires Wf(Apply(net, cfg, size, e, ev).0.s)
    ensures vets' <= vets && Calm(Apply(net, cfg, size, e, ev).0.s, vets')
    ensures forall id :: id in vets' ==> id in Apply(net, cfg, size, e, ev).0.s.running
    ensures forall id :: EvictedNow(cfg, e, ev, id) ==> id !in vets'
  {
    hide KvShaped, Schedule, Calm, Execute, Executable, Update, Abort, SInv, Evicts, Kept;
    match ev {
    case AbortEvent(id) =>
      vets' := vets;
      AbortCalm(e.s, id, vets);
    case StepEvent =>
      SInvWf(cfg, e.s, []);
      vets' := vets * set id | id in Kept(cfg, e.s);
      ScheduleCalm(cfg, e.s, vets);
      VictimNotKept(cfg, e.s);
      var (s', o) := Schedule(cfg, e.s);
      if o.Some? && (o.value.scheduled != [] || o.value.finished != []) {
        UpdateCalm(cfg, s', o.value.scheduled, Execute(net, cfg.blockSize, e.r, o.value, size).1, vets');
      }
    }
    vets' := StillRunning(Apply(net, cfg, size, e, ev).0.s, vets');
  }

  lemma VictimNotKept(cfg: Config, s: Sched)
    requires SInv(cfg, s, []) && Wf(s) && cfg.maxBatched >= 0 && cfg.blockSize > 0
    ensures Evicts(cfg, s) ==> Lowest(s.reqs, s.running) !in Kept(cfg, s)
  {
    hide SInv, KvShaped, Kept, Evicts, Schedule, AdmitPhase, Stage2;
    ScheduleShape(cfg, s);
    Parts(cfg, s, []);
    if Evicts(cfg, s) {
      RemoveDistinct(s.running, Lowest(s.reqs, s.running));
    }
  }

  /** Only running requests need to be counted as veterans. */
  lemma StillRunning(s: Sched, vets: set<Id>) returns (vets': set<Id>)
    requires Calm(s, vets)
    ensures vets' <= vets && Calm(s, vets') && forall id :: id in vets' ==> id in s.running
  {
    hide KvShaped, Outranked;
    vets' := set id | id in vets && id in s.running;
    forall a, b | Before(s.running, a, b) ensures a in s.running { BeforeIn(s.running, a, b); }
  }

  /** Along a run without arrivals, the veterans only dwindle. */
  lemma {:induction false} RunCalm(net: Net, cfg: Config, size: nat, states: seq<Engine>, evs: seq<Event>, outs: seq<seq<(Id, Req)>>)
      returns (vets: seq<set<Id>>)
    requires IsRun(net, cfg, size, states, evs, outs) && EBase(net, cfg, size, states[0])
    requires forall i :: 0 <= i < |evs| ==> !evs[i].Add?
    ensures |vets| == |states| && vets[0] == set id | id in states[0].s.running
    ensures EBase(net, cfg, size, states[|evs|])
    ensures forall i :: 0 <= i < |states| ==> Calm(states[i].s, vets[i])
    ensures forall i, id :: 0 <= i < |states| && id in vets[i] ==> id in states[i].s.running
    ensures forall i :: 0 <= i < |evs| ==> vets[i + 1] <= vets[i]
    ensures forall i, id :: 0 <= i < |evs| && EvictedNow(cfg, states[i], evs[i], id) ==> id !in vets[i + 1]
  {
    hide EBase, Apply, Calm, StepDefined, EvictedNow;
    if evs == [] {
      WfOf(net, cfg, size, states[0]);
      CalmAtArrival(states[0].s);
      vets := [set id | id in states[0].s.running];
    } else {
      var n := |evs| - 1;
      InitRun(net, cfg, size, states, evs, outs);
      var ss := states[..|states| - 1];
      var before := RunCalm(net, cfg, size, ss, evs[..n], outs[..n]);
      assert RunStep(net, cfg, size, states, evs, outs, n);
      EventSafe(net, cfg, size, states[n], evs[n]);
      WfOf(net, cfg, size, states[n + 1]);
      assert Calm(ss[n].s, before[n]);
      var last := EventCalm(net, cfg, size, states[n], evs[n], before[n]);
      vets := before + [last];
      forall i, id | 0 <= i < |states| && id in vets[i] ensures id in states[i].s.running {
        if i < |ss| { assert ss[i] == states[i]; }
      }
      forall i | 0 <= i < |states| ensures Calm(states[i].s, vets[i]) { if i < |ss| { assert ss[i] == states[i]; } }
      forall i, id | 0 <= i < |evs| && EvictedNow(cfg, states[i], evs[i], id) ensures id !in vets[i + 1] {
        if i < n { assert ss[i] == states[i] && evs[..n][i] == evs[i]; }
      }
    }
  }

  lemma WfOf(net: Net, cfg: Config, size: nat, e: Engine)
    requires EBase(net, cfg, size, e)
    ensures Wf(e.s)
  {
    hide SInv, KvShaped;
    SInvWf(cfg, e.s, []);
  }

  lemma {:induction false} Dwindle(vets: seq<set<Id>>, i: nat, j: nat)
    requires i <= j < |vets| && forall k :: 0 <= k < |vets| - 1 ==> vets[k + 1] <= vets[k]
    ensures vets[j] <= vets[i]
    decreases j
  {
    if i < j { Dwindle(vets, i, j - 1); assert vets[j - 1 + 1] <= vets[j - 1]; }
  }

  /** No thrashing. In any run of steps and aborts, from any reachable state and with any
      block pressure: a request that was not running at some point and runs later outranks
      everyone who waits, and is not the one priority eviction picks. */
  lemma NewcomersSecure(net: Net, cfg: Config, size: nat, states: seq<Engine>, evs: seq<Event>, outs: seq<seq<(Id, Req)>>)
    requires IsRun(net, cfg, size, states, evs, outs) && EBase(net, cfg, size, states[0])
    requires forall i :: 0 <= i < |evs| ==> !evs[i].Add?
    ensures forall i, j, id :: 0 <= i <= j < |states| && id !in states[i].s.running && id in states[j].s.running ==>
      Secure(cfg, states[j], id)
    ensures forall i, j, id :: 0 <= i < j < |evs| && EvictedNow(cfg, states[i], evs[i], id) ==> !EvictedNow(cfg, states[j], evs[j], id)
  {
    hide EBase, IsRun, Calm, Evicts, EvictedNow, Secure;
    StatesLength(net, cfg, size, states, evs, outs);
    var vets := RunCalm(net, cfg, size, states, evs, outs);
    forall i, j, id | 0 <= i <= j < |states| && id !in states[i].s.running && id in states[j].s.running
      ensures Secure(cfg, states[j], id)
    {
      Dwindle(vets, i, j);
      CalmSecure(cfg, states[j], vets[j], id);
    }
    forall i, j, id | 0 <= i < j < |evs| && EvictedNow(cfg, states[i], evs[i], id) && id in states[j].s.running
      ensures Secure(cfg, states[j], id)
    {
      Dwindle(vets, i + 1, j);
      CalmSecure(cfg, states[j], vets[j], id);
    }
    forall e, ev, id | EvictedNow(cfg, e, ev, id) ensures id in e.s.running && !Secure(cfg, e, id) { VictimRuns(cfg, e, ev, id); }
  }

  lemma VictimRuns(cfg: Config, e: Engine, ev: Event, id: Id)
    requires EvictedNow(cfg, e, ev, id)
    ensures id in e.s.running && !Secure(cfg, e, id)
  {
    hide KvShaped;
  }

  lemma StatesLength(net: Net, cfg: Config, size: nat, states: seq<Engine>, evs: seq<Event>, outs: seq<seq<(Id, Req)>>)
    requires IsRun(net, cfg, size, states, evs, outs)
    ensures |states| == |evs| + 1
  {
  }
}
