/** schedule() as a whole. */
module ScheduleStep {
  import opened Util
  import opened BlockManagerSpec
  import opened RequestSpec
  import opened SchedulerSpec
  import opened SchedulerInv
  import opened Sharing
  import opened SchedulePhases
  import opened AdmissionPhase
  import opened Ranking

  /** The stages of schedule(), named. */
  function Stage0(cfg: Config, s: Sched): (w: Work)
    requires Wf(s)
    ensures Wf(w.s)
  {
    var (s0, evicted) := PreemptForPriority(cfg, s.(finished := []));
    Work(s0, cfg.maxBatched, [], evicted, false)
  }

  function Stage1(cfg: Config, s: Sched): (w: Work)
    requires cfg.blockSize > 0 && Wf(s)
    ensures Wf(w.s)
  {
    RunPhase(cfg, Stage0(cfg, s), 0)
  }

  function Stage2(cfg: Config, s: Sched): (w: Work)
    requires cfg.blockSize > 0 && Wf(s)
    ensures Wf(w.s)
  {
    SortPhase(Stage1(cfg, s))
  }

  lemma ScheduleStages(cfg: Config, s: Sched)
    requires cfg.blockSize > 0 && Wf(s)
    ensures var r := AdmitPhase(cfg, Stage2(cfg, s));
      Schedule(cfg, s) == (r.0.s, if r.1 then Some(Output(r.0.out, r.0.preempted, s.finished)) else None)
  {
  }

  lemma SInvFinished(cfg: Config, s: Sched, f: seq<Id>)
    requires SInv(cfg, s, [])
    ensures SInv(cfg, s.(finished := f), []) && Wf(s.(finished := f))
  {
    hide Rows, Filling;
    SInvWf(cfg, s, []);
    var s' := s.(finished := f);
    StatusesFewer(s, s');
    RowsSame(cfg, s, s', []);
    FillingFewer(s, s', cfg.blockSize);
  }

  lemma SortInv(cfg: Config, s: Sched, out: seq<Item>, sorted: seq<Id>)
    requires SInv(cfg, s, out) && multiset(sorted) == multiset(s.waiting)
    requires forall id :: id in sorted <==> id in s.waiting
    ensures SInv(cfg, s.(waiting := sorted), out)
  {
    hide Rows, Filling, ItemOk;
    var s' := s.(waiting := sorted);
    DistinctByMultiset(s.waiting, sorted);
    StatusesFewer(s, s');
    RowsSame(cfg, s, s', out);
    FillingFewer(s, s', cfg.blockSize);
    SameItems(s, s', out);
  }

  /** Items do not look at the queue. */
  lemma SameItems(s: Sched, s': Sched, out: seq<Item>)
    requires Items(s, out) && s' == s.(waiting := s'.waiting)
    ensures Items(s', out)
  {
    forall k | 0 <= k < |out| ensures ItemOk(s', out[k]) { assert ItemOk(s, out[k]); }
  }

  lemma Stage0Inv(cfg: Config, s: Sched)
    requires SInv(cfg, s, []) && Wf(s) && cfg.maxBatched >= 0
    ensures var w := Stage0(cfg, s);
      && WInv(cfg, w) && !w.blocked && w.out == [] && w.s.finished == []
      && SameTokens(s, w.s)
      && (if Evicts(cfg, s)
          then w.preempted == [Lowest(s.reqs, s.running)] && w.s == Evicted(s.(finished := []))
          else w.preempted == [] && w.s == s.(finished := []))
  {
    hide Rows, Filling, Statuses, Bounded, Arrivals, Lists, KvShaped, LateSharing;
    var s1 := s.(finished := []);
    SInvFinished(cfg, s, []);
    SInvWf(cfg, s1, []);
    EvictOnce(cfg, s1);
    assert Evicts(cfg, s1) == Evicts(cfg, s);
    NoLateSharing(cfg, s1);
    if Evicts(cfg, s) {
      EvictedInv(cfg, s1);
      NoLateSharing(cfg, Evicted(s1));
    }
  }

  lemma Stage1Inv(cfg: Config, s: Sched)
    requires SInv(cfg, s, []) && Wf(s) && cfg.maxBatched >= 0
    ensures cfg.blockSize > 0 && RunDone(cfg, Stage0(cfg, s), Stage1(cfg, s))
  {
    hide WInv, Trimmed, RunDone, SameTokens;
    KvShapedOf(cfg, s, []);
    Stage0Inv(cfg, s);
    RunPhaseInv(cfg, Stage0(cfg, s));
  }

  lemma Stage2Inv(cfg: Config, s: Sched)
    requires SInv(cfg, s, []) && Wf(s) && cfg.maxBatched >= 0
    ensures cfg.blockSize > 0
    ensures var w1 := Stage1(cfg, s); var w2 := Stage2(cfg, s);
      && AInv(cfg, w2)
      && w2 == w1.(s := w1.s.(waiting := w2.s.waiting))
      && multiset(w2.s.waiting) == multiset(w1.s.waiting)
      && (forall id :: id in w2.s.waiting <==> id in w1.s.waiting)
      && (!w2.blocked ==> Known(w2.s.reqs, w2.s.waiting) && Sorted(w2.s.reqs, w2.s.waiting))
  {
    hide SInv, Trimmed, SameTokens, KvShaped, PreemptForPriority, Insert, LateSharing;
    Stage1Inv(cfg, s);
    var w1, w2 := Stage1(cfg, s), Stage2(cfg, s);
    if !w1.blocked && w1.s.waiting != [] {
      SortSorted(w1.s.reqs, w1.s.waiting);
      SortInv(cfg, w1.s, w1.out, w2.s.waiting);
      SharingFewer(cfg.blockSize, w1.s, w2.s, w1.out);
    }
  }

  /** What one schedule() call promises its caller. */
  ghost predicate Scheduled(cfg: Config, s: Sched, s': Sched, o: Option<Output>) {
    && SameTokens(s, s')
    && s'.finished == []
    && (o.None? ==> SInv(cfg, s', []) && s'.running == [])
    && (o.Some? ==>
          && SInv(cfg, s', o.value.scheduled)
          && o.value.finished == s.finished
          && TotalTokens(o.value.scheduled) <= cfg.maxBatched
          && |o.value.scheduled| <= |s'.running|
          && (forall k :: 0 <= k < |o.value.scheduled| ==> o.value.scheduled[k].id == s'.running[k])
          && (cfg.threshold <= 0 ==> AllButLast(o.value.scheduled)))
  }

  /** schedule() keeps the invariant, stays within the token budget and the slot limit,
      serves the front of the running list, and with no prefill threshold leaves at most
      the last scheduled request short of its known tokens. */
  lemma ScheduleInv(cfg: Config, s: Sched)
    requires SInv(cfg, s, []) && Wf(s) && cfg.maxBatched >= 0 && cfg.blockSize > 0
    ensures Scheduled(cfg, s, Schedule(cfg, s).0, Schedule(cfg, s).1)
  {
    hide SInv, KvShaped, Stage2, Stage1, Stage0, AllComplete, AdmitPhase, Schedule, RunDone;
    ScheduleStages(cfg, s);
    Stage0Inv(cfg, s);
    Stage1Inv(cfg, s);
    Stage2Inv(cfg, s);
    var w0, w1, w2 := Stage0(cfg, s), Stage1(cfg, s), Stage2(cfg, s);
    AdmitPhaseInv(cfg, w2);
    var r := AdmitPhase(cfg, w2);
    RunDoneTrimmed(cfg, w0, w1);
    assert SameTokens(s, r.0.s) by {
      SameTokensTrans(s, w0.s, w1.s);
      SameTokensTrans(s, w1.s, w2.s);
      SameTokensTrans(s, w2.s, r.0.s);
    }
  }

  lemma RunDoneTrimmed(cfg: Config, w: Work, r: Work)
    requires RunDone(cfg, w, r)
    ensures Trimmed(w, r) && AllButLast(r.out)
  {
  }

  // ------------------------------------------------------------------ who runs, who waits

  /** The requests admitted by this call: what phase 2 put behind the running requests phase 1 kept. */
  ghost predicate Shape(cfg: Config, s: Sched, s': Sched, out: seq<Item>, kept: seq<Id>, admitted: seq<Id>)
    requires Wf(s)
  {
    && s'.running == kept + admitted
    && kept <= (if Evicts(cfg, s) then Remove(s.running, Lowest(s.reqs, s.running)) else s.running)
    && (forall id :: id in admitted + s'.waiting ==> id in s'.reqs)
    && (forall id :: id in kept ==> id in s.reqs && id in s'.reqs && s'.reqs[id] == s.reqs[id])
    && (admitted != [] ==>
          && kept == (if Evicts(cfg, s) then Remove(s.running, Lowest(s.reqs, s.running)) else s.running)
          && Sorted(s'.reqs, admitted + s'.waiting)
          && |kept| <= |out| && (forall k :: 0 <= k < |kept| ==> out[k].id == kept[k] && out[k].doSample))
  }

  function Kept(cfg: Config, s: Sched): seq<Id>
    requires cfg.blockSize > 0 && Wf(s)
  {
    Stage1(cfg, s).s.running
  }

  function AdmittedIds(cfg: Config, s: Sched): seq<Id>
    requires cfg.blockSize > 0 && Wf(s)
  {
    var all := Schedule(cfg, s).0.running;
    Slice(all, |Kept(cfg, s)|, |all|)
  }

  /** Queue order depends on priority and arrival only, which scheduling never changes. */
  lemma SortedSameTokens(s: Sched, s': Sched, ids: seq<Id>)
    requires SameTokens(s, s') && Known(s.reqs, ids) && Sorted(s.reqs, ids)
    ensures Known(s'.reqs, ids) && Sorted(s'.reqs, ids)
  {
    forall i, j | 0 <= i < j < |ids| ensures !Outranks(s'.reqs[ids[j]], s'.reqs[ids[i]]) {
      assert ids[i] in ids && ids[j] in ids;
      RankSame(s, s', ids[i]);
      RankSame(s, s', ids[j]);
    }
  }

  lemma RankSame(s: Sched, s': Sched, id: Id)
    requires SameTokens(s, s') && id in s.reqs
    ensures id in s'.reqs
    ensures s'.reqs[id].priority == s.reqs[id].priority && s'.reqs[id].arrival == s.reqs[id].arrival
    ensures s'.reqs[id].prompt == s.reqs[id].prompt && s'.reqs[id].output == s.reqs[id].output
  {
    assert s'.reqs[id].(status := Running, computed := 0) == s.reqs[id].(status := Running, computed := 0);
    assert s'.reqs[id].(status := Running, computed := 0).priority == s'.reqs[id].priority;
    assert s'.reqs[id].(status := Running, computed := 0).arrival == s'.reqs[id].arrival;
    assert s'.reqs[id].(status := Running, computed := 0).prompt == s'.reqs[id].prompt;
    assert s'.reqs[id].(status := Running, computed := 0).output == s'.reqs[id].output;
  }

  lemma ShapeFromStages(cfg: Config, s: Sched, w0: Work, w1: Work, w2: Work, w3: Work)
    requires Wf(s) && !w0.blocked
    requires w0.s.running == if Evicts(cfg, s) then Remove(s.running, Lowest(s.reqs, s.running)) else s.running
    requires forall id :: id in w0.s.running ==> id in s.reqs && id in w0.s.reqs && w0.s.reqs[id] == s.reqs[id]
    requires Trimmed(w0, w1) && w2 == w1.(s := w1.s.(waiting := w2.s.waiting)) && Wf(w2.s)
    requires !w2.blocked ==> Known(w2.s.reqs, w2.s.waiting) && Sorted(w2.s.reqs, w2.s.waiting)
    requires w1.budget > 0 && !w1.blocked ==> |w1.out| == |w1.s.running| && AllComplete(w1.out)
    requires ServedInOrder(w1)
    requires Moved(w2, w3) && (w3.s.running != w2.s.running ==> w2.budget > 0 && !w2.blocked)
    ensures Shape(cfg, s, w3.s, w3.out, w1.s.running, w3.s.running[|w1.s.running|..])
  {
    var kept := w1.s.running;
    var admitted := w3.s.running[|kept|..];
    assert w3.s.running == kept + admitted;
    assert kept + (admitted + w3.s.waiting) == kept + w2.s.waiting;
    assert (kept + (admitted + w3.s.waiting))[|kept|..] == admitted + w3.s.waiting;
    assert (kept + w2.s.waiting)[|kept|..] == w2.s.waiting;
    forall id | id in kept ensures id in s.reqs && id in w3.s.reqs && w3.s.reqs[id] == s.reqs[id] {
      var i :| 0 <= i < |kept| && kept[i] == id;
      assert w0.s.running[i] == id;
      assert id in w1.s.running && id in w2.s.running;
    }
    if admitted != [] {
      SortedSameTokens(w2.s, w3.s, w2.s.waiting);
      assert forall k :: 0 <= k < |kept| ==> w3.out[k] == w1.out[k];
    }
  }

  lemma {:induction false} AdmitPhaseIdle(cfg: Config, w: Work)
    requires cfg.blockSize > 0 && Wf(w.s)
    ensures AdmitPhase(cfg, w).0.s.running != w.s.running ==> w.budget > 0 && !w.blocked && |w.s.running| < cfg.maxNumSeqs
  {
  }

  lemma Stage0Running(cfg: Config, s: Sched)
    requires SInv(cfg, s, []) && Wf(s) && cfg.maxBatched >= 0
    ensures var w0 := Stage0(cfg, s);
      && w0.s.running == (if Evicts(cfg, s) then Remove(s.running, Lowest(s.reqs, s.running)) else s.running)
      && (forall id :: id in w0.s.running ==> id in s.reqs && id in w0.s.reqs && w0.s.reqs[id] == s.reqs[id])
  {
    hide Rows, Filling, Statuses, Bounded, Arrivals, KvShaped, WInv, PreemptForPriority;
    Stage0Inv(cfg, s);
    if Evicts(cfg, s) {
      RemoveDistinct(s.running, Lowest(s.reqs, s.running));
    }
  }

  /** Admission happens only when every request phase 1 kept runs all its pending tokens,
      and takes the top of the waiting queue in rank order. */
  lemma ScheduleShape(cfg: Config, s: Sched)
    requires SInv(cfg, s, []) && Wf(s) && cfg.maxBatched >= 0 && cfg.blockSize > 0
    ensures var r := AdmitPhase(cfg, Stage2(cfg, s));
      && Schedule(cfg, s).0 == r.0.s
      && (Schedule(cfg, s).1.Some? ==> Schedule(cfg, s).1.value.scheduled == r.0.out)
      && Shape(cfg, s, r.0.s, r.0.out, Kept(cfg, s), AdmittedIds(cfg, s))
  {
    hide SInv, KvShaped, Stage2, Stage1, Stage0, AllComplete, AdmitPhase, Schedule, Evicts, BudgetKept, Shape;
    ScheduleStages(cfg, s);
    Stage0Inv(cfg, s);
    Stage0Running(cfg, s);
    Stage1Inv(cfg, s);
    Stage2Inv(cfg, s);
    var w0, w1, w2 := Stage0(cfg, s), Stage1(cfg, s), Stage2(cfg, s);
    AdmitPhaseInv(cfg, w2);
    AdmitPhaseIdle(cfg, w2);
    var w3 := AdmitPhase(cfg, w2).0;
    ShapeFromStages(cfg, s, w0, w1, w2, w3);
    assert AdmittedIds(cfg, s) == w3.s.running[|w1.s.running|..];
  }

  /** A victim of priority eviction is outranked by whoever it made way for, so it cannot
      head the sorted queue in the same call. */
  lemma VictimNotHead(cfg: Config, s: Sched, s2: Sched)
    requires Wf(s) && Evicts(cfg, s) && SameTokens(s, s2)
    requires Known(s2.reqs, s2.waiting) && Sorted(s2.reqs, s2.waiting)
    requires forall id :: id in s.waiting ==> id in s2.waiting
    ensures s2.waiting != [] && s2.waiting[0] != Lowest(s.reqs, s.running)
  {
    var t, v := Top(s.reqs, s.waiting), Lowest(s.reqs, s.running);
    LowestIsLeast(s.reqs, s.running);
    RankSame(s, s2, t);
    RankSame(s, s2, v);
    assert t in s2.waiting;
    var j :| 0 <= j < |s2.waiting| && s2.waiting[j] == t;
    assert j > 0 ==> !Outranks(s2.reqs[s2.waiting[j]], s2.reqs[s2.waiting[0]]);
  }

  lemma StayOutFromStages(cfg: Config, s: Sched, w0: Work, w1: Work, w2: Work, w3: Work)
    requires Wf(s) && !w0.blocked && (forall id :: id in w0.preempted ==> id in w0.s.waiting)
    requires if Evicts(cfg, s) then w0.preempted == [Lowest(s.reqs, s.running)] && |w0.s.running| == |s.running| - 1
             else w0.preempted == []
    requires SameTokens(s, w0.s) && (forall id :: id in s.waiting ==> id in w0.s.waiting)
    requires Trimmed(w0, w1) && w2 == w1.(s := w1.s.(waiting := w2.s.waiting))
    requires forall id :: id in w2.s.waiting <==> id in w1.s.waiting
    requires !w2.blocked ==> Known(w2.s.reqs, w2.s.waiting) && Sorted(w2.s.reqs, w2.s.waiting)
    requires Moved(w2, w3) && (w3.s.running != w2.s.running ==> !w2.blocked)
    requires w3.s.running == [] || |w3.s.running| <= cfg.maxNumSeqs
    ensures forall id :: id in w3.preempted ==> id in w3.s.waiting
  {
    hide KvShaped, SameTokens, Sorted, Lowest;
    if w3.s.running == w2.s.running {
      assert (w2.s.running + w2.s.waiting)[|w2.s.running|..] == w2.s.waiting;
      assert (w3.s.running + w3.s.waiting)[|w3.s.running|..] == w3.s.waiting;
    } else if Evicts(cfg, s) {
      SameTokensTrans(s, w0.s, w1.s);
      SameTokensTrans(s, w1.s, w2.s);
      VictimNotHead(cfg, s, w2.s);
      MovedShrinks(w2, w3);
      var v := Lowest(s.reqs, s.running);
      assert v in w2.s.waiting;
      var i :| 0 <= i < |w2.s.waiting| && w2.s.waiting[i] == v;
      assert |w3.s.running| + |w3.s.waiting| == |w2.s.running| + |w2.s.waiting| by {
        assert |w3.s.running + w3.s.waiting| == |w2.s.running + w2.s.waiting|;
      }
      assert w3.s.waiting[i - 1] == v;
    }
  }

  lemma Stage0Waiting(cfg: Config, s: Sched)
    requires SInv(cfg, s, []) && Wf(s) && cfg.maxBatched >= 0
    ensures var w0 := Stage0(cfg, s);
      && (forall id :: id in w0.preempted ==> id in w0.s.waiting)
      && (forall id :: id in s.waiting ==> id in w0.s.waiting)
  {
    hide Rows, Filling, Statuses, Bounded, Arrivals, KvShaped, WInv, PreemptForPriority, Lists;
    Stage0Inv(cfg, s);
  }

  lemma SlotsOf(cfg: Config, w: Work)
    requires WInv(cfg, w)
    ensures w.s.running == [] || |w.s.running| <= cfg.maxNumSeqs
    ensures Lists(w.s) && Items(w.s, w.out)
  {
  }

  /** Whoever is preempted in a step, by either mechanism, waits when the call returns:
      it is neither scheduled in that step nor re-admitted in it. */
  lemma PreemptedStayOut(cfg: Config, s: Sched)
    requires SInv(cfg, s, []) && Wf(s) && cfg.maxBatched >= 0 && cfg.blockSize > 0
    ensures var (s', o) := Schedule(cfg, s);
      o.Some? ==> forall id :: id in o.value.preempted ==>
        id in s'.waiting && id !in s'.running && Fresh(o.value.scheduled, id)
  {
    hide SInv, KvShaped, Stage2, Stage1, Stage0, AllComplete, AdmitPhase, Schedule, Evicts, BudgetKept, ServedInOrder, ItemOk;
    ScheduleStages(cfg, s);
    Stage0Inv(cfg, s);
    Stage0Running(cfg, s);
    Stage0Waiting(cfg, s);
    Stage1Inv(cfg, s);
    Stage2Inv(cfg, s);
    var w0, w1, w2 := Stage0(cfg, s), Stage1(cfg, s), Stage2(cfg, s);
    AdmitPhaseInv(cfg, w2);
    AdmitPhaseIdle(cfg, w2);
    var w3 := AdmitPhase(cfg, w2).0;
    SlotsOf(cfg, w3);
    EvictsRunning(cfg, s);
    StayOutFromStages(cfg, s, w0, w1, w2, w3);
    forall id | id in w3.preempted ensures Fresh(w3.out, id) {
      forall k | 0 <= k < |w3.out| ensures w3.out[k].id != id { ItemRuns(w3.s, w3.out[k]); }
    }
  }

  lemma EvictsRunning(cfg: Config, s: Sched)
    requires Wf(s)
    ensures Evicts(cfg, s) ==> s.running != [] && |Remove(s.running, Lowest(s.reqs, s.running))| == |s.running| - 1
  {
  }
}
