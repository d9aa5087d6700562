/** Labels through a whole schedule() call. */
module ScheduleLabels {
  import opened Util
  import opened BlockManagerSpec
  import opened BlockManagerInv
  import opened AllocationInv
  import opened SchedulerSpec
  import opened SchedulerInv
  import opened SchedulePhases
  import opened AdmissionPhase
  import opened ScheduleStep
  import opened Model
  import opened ForwardCorrect
  import opened LabelInv

  lemma PreemptStays(cfg: Config, s: Sched, out: seq<Item>, id: Id, rest: seq<Id>)
    requires SInv(cfg, s, out) && Without(s.running, id, rest) && Wf(s.(running := rest)) && Wf(s)
    ensures RowsStay(s, Preempt(s.(running := rest), id))
  {
    hide KvOk, TableOk;
    assert RowOk(cfg, s, out, id);
    RowDistinct(cfg, s, out, id);
    FreeRequestKv(s.kv, cfg.blockSize, id);
  }

  lemma PreemptLabels(net: Net, media: Media, cfg: Config, s: Sched, out: seq<Item>, id: Id, rest: seq<Id>, labels: Labels)
    requires SInv(cfg, s, out) && Without(s.running, id, rest) && Fresh(out, id) && LInv(net, media, cfg, s, out, labels)
    ensures Wf(s.(running := rest)) && LInv(net, media, cfg, Preempt(s.(running := rest), id), out, labels)
  {
    hide LInv, Rows, Filling, Statuses, Bounded, Arrivals, Items, RowsStay;
    SInvWf(cfg, s, out);
    GrantedFresh(out, id);
    PreemptStays(cfg, s, out, id, rest);
    StayLabels(net, media, cfg, s, Preempt(s.(running := rest), id), out, labels);
  }

  lemma PopLabels(net: Net, media: Media, cfg: Config, w: Work, labels: Labels)
    requires WInv(cfg, w) && |w.out| < |w.s.running| && LInv(net, media, cfg, w.s, w.out, labels) && Wf(w.s)
    ensures LInv(net, media, cfg, PopVictim(w).s, w.out, labels)
  {
    hide SInv, LInv, KvShaped, Preempt, Without;
    var k := |w.s.running| - 1;
    FreshBeyond(cfg, w, k);
    DistinctRunning(cfg, w.s, w.out);
    PopWithout(w.s.running);
    PreemptLabels(net, media, cfg, w.s, w.out, w.s.running[k], w.s.running[..k], labels);
  }

  lemma DistinctRunning(cfg: Config, s: Sched, out: seq<Item>)
    requires SInv(cfg, s, out)
    ensures Distinct(s.running) && Distinct(s.waiting)
  {
  }

  lemma GrantStepLabels(net: Net, media: Media, cfg: Config, s: Sched, out: seq<Item>, id: Id, n: nat, labels: Labels)
    requires SInv(cfg, s, out) && Wf(s) && id in s.running && Fresh(out, id) && LInv(net, media, cfg, s, out, labels)
    requires 0 < n && s.reqs[id].computed + n <= s.reqs[id].NumTokens() && cfg.blockSize > 0
    ensures var r := s.reqs[id];
      var a := AllocateSlots(s.kv, cfg.blockSize, id, r.Tokens(), r.computed, n, []);
      a.1.Some? ==> var s' := s.(kv := a.0); LInv(net, media, cfg, s', out + [MakeScheduled(s', id, n, false)], labels)
  {
    hide SInv, LInv, AllocateSlots, Extended, MakeScheduled, KvShaped;
    GrantAllocates(cfg, s, out, id, n);
    var r := s.reqs[id];
    var a := AllocateSlots(s.kv, cfg.blockSize, id, r.Tokens(), r.computed, n, []);
    if a.1.Some? {
      var s' := s.(kv := a.0);
      MadeLength(s', id, n, false);
      GrantLabels(net, media, cfg, s, out, s', id, MakeScheduled(s', id, n, false), labels);
    }
  }

  lemma {:induction false} SqueezeLabels(net: Net, media: Media, cfg: Config, w: Work, id: Id, n: nat, labels: Labels)
    requires cfg.blockSize > 0 && WInv(cfg, w) && Wf(w.s) && LInv(net, media, cfg, w.s, w.out, labels)
    requires |w.out| < |w.s.running| && w.s.running[|w.out|] == id
    requires 0 < n && id in w.s.reqs && w.s.reqs[id].computed + n <= w.s.reqs[id].NumTokens()
    ensures var r := Squeeze(cfg, w, id, n);
      && (r.1 ==> id in r.0.s.reqs && LInv(net, media, cfg, r.0.s, w.out + [MakeScheduled(r.0.s, id, n, false)], labels))
      && (!r.1 ==> LInv(net, media, cfg, r.0.s, w.out, labels))
    decreases |w.s.running|
  {
    hide SInv, LInv, ServedInOrder, BudgetKept, AllocateSlots, MakeScheduled, KvShaped, PopVictim, Squeezed;
    FreshBeyond(cfg, w, |w.out|);
    GrantStep(cfg, w.s, w.out, id, n);
    GrantStepLabels(net, media, cfg, w.s, w.out, id, n, labels);
    var r := w.s.reqs[id];
    var a := AllocateSlots(w.s.kv, cfg.blockSize, id, r.Tokens(), r.computed, n, []);
    var w1 := w.(s := w.s.(kv := a.0));
    if a.1.None? {
      assert w1 == w;
      PopVictimInv(cfg, w);
      PopLabels(net, media, cfg, w, labels);
      var w2 := PopVictim(w);
      if w.s.running[|w.s.running| - 1] != id {
        PopFront(w, w2, id);
        SqueezeLabels(net, media, cfg, w2, id, n, labels);
      } else {
        PopOut(w);
      }
    }
  }

  lemma PopOut(w: Work)
    requires Wf(w.s) && w.s.running != []
    ensures PopVictim(w).out == w.out
  {
  }

  lemma RunStepLabels(net: Net, media: Media, cfg: Config, w: Work, labels: Labels)
    requires cfg.blockSize > 0 && WInv(cfg, w) && Wf(w.s) && LInv(net, media, cfg, w.s, w.out, labels)
    requires |w.out| < |w.s.running| && w.budget > 0
    ensures var id := w.s.running[|w.out|];
      var n := Min(w.s.reqs[id].NumTokens() - w.s.reqs[id].computed, w.budget);
      && n > 0
      && var q := Squeeze(cfg, w, id, n);
      && (q.1 ==> LInv(net, media, cfg, Grant(q.0, id, n, false).s, Grant(q.0, id, n, false).out, labels))
      && (!q.1 ==> LInv(net, media, cfg, q.0.s, q.0.out, labels))
  {
    hide WInv, LInv, Squeeze, Wf, SInv, Squeezed, MakeScheduled, Trimmed;
    PositiveWork(cfg, w);
    var id := w.s.running[|w.out|];
    var n := Min(w.s.reqs[id].NumTokens() - w.s.reqs[id].computed, w.budget);
    SqueezeLabels(net, media, cfg, w, id, n, labels);
    SqueezeInv(cfg, w, id, n);
    SqueezedSame(w, Squeeze(cfg, w, id, n).0, id);
  }

  lemma {:induction false} RunPhaseLabels(net: Net, media: Media, cfg: Config, w: Work, labels: Labels)
    requires cfg.blockSize > 0 && WInv(cfg, w) && Wf(w.s) && LInv(net, media, cfg, w.s, w.out, labels)
    requires AllButLast(w.out) && (w.budget > 0 ==> AllComplete(w.out))
    ensures LInv(net, media, cfg, RunPhase(cfg, w, |w.out|).s, RunPhase(cfg, w, |w.out|).out, labels)
    decreases |w.s.running| - |w.out|
  {
    hide WInv, LInv, AllComplete, AllButLast, Squeeze, Grant, KvShaped, Trimmed;
    var idx := |w.out|;
    RunPhaseStep(cfg, w);
    if idx < |w.s.running| && w.budget > 0 {
      RunStepLabels(net, media, cfg, w, labels);
      var id := w.s.running[idx];
      var n := Min(w.s.reqs[id].NumTokens() - w.s.reqs[id].computed, w.budget);
      var q := Squeeze(cfg, w, id, n);
      if q.1 {
        var w2 := Grant(q.0, id, n, false);
        assert |w2.s.running| - |w2.out| < |w.s.running| - |w.out| by { TrimmedShorter(w, w2); }
        RunPhaseLabels(net, media, cfg, w2, labels);
        assert RunPhase(cfg, w, idx) == RunPhase(cfg, w2, |w2.out|);
      } else {
        assert RunPhase(cfg, w, idx) == q.0;
      }
    } else {
      assert RunPhase(cfg, w, idx) == w;
    }
  }

  // ------------------------------------------------------------------ phase 2

  lemma FreshWaiting(s: Sched, out: seq<Item>, id: Id)
    requires Lists(s) && Items(s, out) && id in s.waiting
    ensures Fresh(out, id)
  {
    forall k | 0 <= k < |out| ensures out[k].id != id { assert ItemOk(s, out[k]); }
  }

  lemma RestoredStays(s: Sched, kv': KV)
    requires Restored(s.kv, kv') && Lists(s)
    ensures RowsStay(s, s.(kv := kv'))
  {
  }

  lemma RunningHaveTables(cfg: Config, s: Sched, out: seq<Item>)
    requires SInv(cfg, s, out)
    ensures forall x :: x in s.running ==> x in s.kv.tables
    ensures Lists(s) && Items(s, out)
  {
    hide KvOk, RowOk, Filling, Statuses, Bounded, Arrivals;
  }

  lemma AdmitStepLabels(net: Net, media: Media, cfg: Config, s: Sched, out: seq<Item>, budget: int, labels: Labels)
    requires SInv(cfg, s, out) && s.waiting != [] && budget > 0 && |s.running| < cfg.maxNumSeqs
    requires s.waiting[0] in s.reqs && KvShaped(s.kv) && cfg.blockSize > 0 && LInv(net, media, cfg, s, out, labels)
    ensures var id := s.waiting[0]; var r := s.reqs[id];
      var g := GetComputed(s.kv, cfg.blockSize, r.Tokens());
      var n := AdmitTokens(cfg, r, g.2, budget);
      && n > 0
      && var a := AllocateSlots(g.0, cfg.blockSize, id, r.Tokens(), r.computed, n, g.1);
      if a.1.Some? then var s' := Admitted(s, id, s.waiting[1..], a.0, g.2); LInv(net, media, cfg, s', out + [MakeScheduled(s', id, n, true)], labels)
      else LInv(net, media, cfg, s.(kv := a.0), out, labels)
  {
    hide SInv, LInv, GetComputed, AllocateSlots, MakeScheduled, KvShaped, Restored, Allocated, Without, Leading, KvOk, SameRowsAll, RowsStay, Items, Lists, Fresh;
    HeadWaiting(cfg, s, out);
    AdmitStep(cfg, s, out, budget);
    RunningHaveTables(cfg, s, out);
    var id := s.waiting[0];
    FreshWaiting(s, out, id);
    var r := s.reqs[id];
    var g := GetComputed(s.kv, cfg.blockSize, r.Tokens());
    var n := AdmitTokens(cfg, r, g.2, budget);
    AdmitAllocates(cfg, s, out, id, n);
    var a := AllocateSlots(g.0, cfg.blockSize, id, r.Tokens(), r.computed, n, g.1);
    if a.1.Some? {
      var s' := Admitted(s, id, s.waiting[1..], a.0, g.2);
      MadeLength(s', id, n, true);
      AdmitLabels(net, media, cfg, s, out, g.0, a.0, id, g.1, s.waiting[1..], MakeScheduled(s', id, n, true), labels);
    } else {
      RestoredStays(s, a.0);
      StayLabels(net, media, cfg, s, s.(kv := a.0), out, labels);
    }
  }

  lemma AdmitNextLabels(net: Net, media: Media, cfg: Config, w: Work, labels: Labels)
    requires AInv(cfg, w) && Wf(w.s) && Admitting(cfg, w) && cfg.blockSize > 0 && LInv(net, media, cfg, w.s, w.out, labels)
    ensures AdmitFits(cfg, w) ==> LInv(net, media, cfg, AdmitNext(cfg, w).s, AdmitNext(cfg, w).out, labels)
    ensures !AdmitFits(cfg, w) ==> LInv(net, media, cfg, AdmitPhase(cfg, w).0.s, AdmitPhase(cfg, w).0.out, labels)
  {
    hide SInv, LInv, GetComputed, AllocateSlots, MakeScheduled, KvShaped, AllComplete, AllButLast;
    HeadWaiting(cfg, w.s, w.out);
    AdmitStepLabels(net, media, cfg, w.s, w.out, w.budget, labels);
  }

  lemma {:induction false} AdmitPhaseLabels(net: Net, media: Media, cfg: Config, w: Work, labels: Labels)
    requires cfg.blockSize > 0 && AInv(cfg, w) && Wf(w.s) && LInv(net, media, cfg, w.s, w.out, labels)
    ensures LInv(net, media, cfg, AdmitPhase(cfg, w).0.s, AdmitPhase(cfg, w).0.out, labels)
    decreases |w.s.waiting|
  {
    hide WInv, AInv, LInv, Moved, AdmitFits, AdmitNext, GetComputed, AllocateSlots, Grant, Admit, KvShaped;
    if Admitting(cfg, w) {
      AdmitNextPhase(cfg, w);
      AdmitNextLabels(net, media, cfg, w, labels);
      if AdmitFits(cfg, w) {
        AdmitNextAInv(cfg, w);
        AdmitNextMoved(cfg, w);
        AdmitPhaseLabels(net, media, cfg, AdmitNext(cfg, w), labels);
      }
    }
  }

  // ------------------------------------------------------------------ the whole call

  lemma Stage0Labels(net: Net, media: Media, cfg: Config, s: Sched, labels: Labels)
    requires SInv(cfg, s, []) && Wf(s) && cfg.maxBatched >= 0 && LInv(net, media, cfg, s, [], labels)
    ensures LInv(net, media, cfg, Stage0(cfg, s).s, [], labels)
  {
    hide SInv, LInv, KvShaped, WInv, SameTokens, Lowest, Evicts, Preempt, RowsStay, Without;
    var s1 := s.(finished := []);
    Stage0Inv(cfg, s);
    SInvFinished(cfg, s, []);
    FinishedStays(cfg, s, []);
    StayLabels(net, media, cfg, s, s1, [], labels);
    if Evicts(cfg, s) {
      EvictsRunning(cfg, s);
      DistinctRunning(cfg, s1, []);
      RemoveWithout(s1.running, Lowest(s1.reqs, s1.running));
      PreemptLabels(net, media, cfg, s1, [], Lowest(s1.reqs, s1.running), Remove(s1.running, Lowest(s1.reqs, s1.running)), labels);
    }
  }

  lemma FinishedStays(cfg: Config, s: Sched, f: seq<Id>)
    requires SInv(cfg, s, [])
    ensures RowsStay(s, s.(finished := f))
    ensures forall id :: Granted([], id) == 0
  {
  }

  lemma SortStays(cfg: Config, s: Sched, out: seq<Item>, w: seq<Id>)
    requires SInv(cfg, s, out)
    ensures RowsStay(s, s.(waiting := w))
  {
  }

  lemma WInvOf(cfg: Config, w: Work)
    requires WInv(cfg, w)
    ensures SInv(cfg, w.s, w.out)
  {
  }

  /** schedule() keeps the label invariant: whatever it promises the runner is either in the
      cache already or about to be written by a request scheduled in this very step. */
  lemma ScheduleLabelsKept(net: Net, media: Media, cfg: Config, s: Sched, labels: Labels)
    requires SInv(cfg, s, []) && Wf(s) && cfg.maxBatched >= 0 && cfg.blockSize > 0 && LInv(net, media, cfg, s, [], labels)
    ensures var (s', o) := Schedule(cfg, s);
      && (o.Some? ==> LInv(net, media, cfg, s', o.value.scheduled, labels))
      && (o.None? ==> LInv(net, media, cfg, s', [], labels))
  {
    hide SInv, LInv, KvShaped, Stage2, Stage1, AdmitPhase, Schedule, BudgetKept, ServedInOrder, RowsStay, Trimmed, SameTokens, Evicted, Evicts;
    ScheduleStages(cfg, s);
    Stage0Inv(cfg, s);
    Stage0Labels(net, media, cfg, s, labels);
    Stage1Inv(cfg, s);
    Stage2Inv(cfg, s);
    var w0, w1, w2 := Stage0(cfg, s), Stage1(cfg, s), Stage2(cfg, s);
    RunPhaseLabels(net, media, cfg, w0, labels);
    Stage1Is(cfg, s);
    WInvOf(cfg, w1);
    SortStays(cfg, w1.s, w1.out, w2.s.waiting);
    StayLabels(net, media, cfg, w1.s, w2.s, w1.out, labels);
    AdmitPhaseInv(cfg, w2);
    AdmitPhaseLabels(net, media, cfg, w2, labels);
  }

  lemma Stage1Is(cfg: Config, s: Sched)
    requires cfg.blockSize > 0 && Wf(s)
    ensures Stage1(cfg, s) == RunPhase(cfg, Stage0(cfg, s), 0)
  {
  }
}
