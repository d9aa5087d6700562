/** Which items of a step are new: exactly those of requests phase 2 admitted. */
module NewItems {
  import opened Util
  import opened BlockManagerSpec
  import opened SchedulerSpec
  import opened SchedulerInv
  import opened SchedulePhases
  import opened AdmissionPhase
  import opened ScheduleStep

  ghost predicate NoneNew(out: seq<Item>) {
    forall k :: 0 <= k < |out| ==> !out[k].isNew
  }

  lemma {:induction false} SqueezeOut(cfg: Config, w: Work, id: Id, n: nat)
    requires cfg.blockSize > 0 && Wf(w.s) && id in w.s.running
    ensures Squeeze(cfg, w, id, n).0.out == w.out
    decreases |w.s.running|
  {
    hide AllocateSlots, Preempt;
    var r := w.s.reqs[id];
    var a := AllocateSlots(w.s.kv, cfg.blockSize, id, r.Tokens(), r.computed, n, []);
    if a.1.None? && w.s.running[|w.s.running| - 1] != id {
      SqueezeOut(cfg, PopVictim(w.(s := w.s.(kv := a.0))), id, n);
    }
  }

  lemma {:induction false} RunPhaseOld(cfg: Config, w: Work, idx: nat)
    requires cfg.blockSize > 0 && Wf(w.s) && NoneNew(w.out)
    ensures NoneNew(RunPhase(cfg, w, idx).out)
    decreases |w.s.running| - idx
  {
    hide Squeeze;
    if idx < |w.s.running| && w.budget > 0 {
      var id := w.s.running[idx];
      var n := Min(w.s.reqs[id].NumTokens() - w.s.reqs[id].computed, w.budget);
      if n > 0 {
        SqueezeOut(cfg, w, id, n);
        var q := Squeeze(cfg, w, id, n);
        if q.1 { RunPhaseOld(cfg, Grant(q.0, id, n, false), idx + 1); }
      }
    }
  }

  /** Each admission adds one running request and one new item. */
  ghost predicate Paired(w: Work, w': Work) {
    && |w'.out| - |w.out| == |w'.s.running| - |w.s.running| >= 0
    && w.out <= w'.out
    && forall k :: |w.out| <= k < |w'.out| ==> w'.out[k].isNew
  }

  lemma {:induction false} AdmitPhasePaired(cfg: Config, w: Work)
    requires cfg.blockSize > 0 && Wf(w.s)
    ensures Paired(w, AdmitPhase(cfg, w).0)
    decreases |w.s.waiting|
  {
    hide GetComputed, AllocateSlots;
    if Admitting(cfg, w) {
      assert w.s.waiting[0] in w.s.waiting;
      if AdmitFits(cfg, w) {
        var w1 := AdmitNext(cfg, w);
        assert Paired(w, w1);
        AdmitPhasePaired(cfg, w1);
      }
    }
  }

  /** Every running request is either an old one with its state untouched, or newly admitted
      with an item that re-registers it; items of old requests are not new. */
  ghost predicate Accounted(s: Sched, s': Sched, out: seq<Item>, kept: nat) {
    && kept <= |s'.running|
    && (forall k :: 0 <= k < kept ==> OldAt(s, s', s'.running[k]))
    && (kept < |s'.running| ==> |out| == |s'.running|)
    && (forall k :: 0 <= k < |out| ==> (out[k].isNew <==> kept <= k))
  }

  ghost predicate OldAt(s: Sched, s': Sched, id: Id) {
    id in s.running && id in s.reqs && id in s'.reqs && s'.reqs[id] == s.reqs[id]
  }

  lemma StageItems(cfg: Config, s: Sched)
    requires SInv(cfg, s, []) && Wf(s) && cfg.maxBatched >= 0 && cfg.blockSize > 0
    ensures var w1 := Stage1(cfg, s); var w2 := Stage2(cfg, s); var w3 := AdmitPhase(cfg, w2).0;
      && NoneNew(w1.out) && w2.out == w1.out && w2.s.running == w1.s.running
      && |w1.out| <= |w1.s.running|
      && Paired(w2, w3)
      && (w3.s.running != w2.s.running ==> |w2.out| == |w2.s.running|)
  {
    hide SInv, SameTokens, KvShaped, Trimmed, AllComplete, AllButLast, Evicted, Evicts;
    Stage0Inv(cfg, s);
    Stage1Inv(cfg, s);
    Stage2Inv(cfg, s);
    RunPhaseOld(cfg, Stage0(cfg, s), 0);
    var w2 := Stage2(cfg, s);
    AdmitPhasePaired(cfg, w2);
    AdmitPhaseIdle(cfg, w2);
  }

  lemma KeptOld(cfg: Config, s: Sched, s': Sched, out: seq<Item>, kept: seq<Id>, admitted: seq<Id>)
    requires Wf(s) && Shape(cfg, s, s', out, kept, admitted)
    ensures forall id :: id in kept ==> OldAt(s, s', id)
  {
    forall id | id in kept ensures OldAt(s, s', id) {
      var i :| 0 <= i < |kept| && kept[i] == id;
      var base := if Evicts(cfg, s) then Remove(s.running, Lowest(s.reqs, s.running)) else s.running;
      assert base[i] == id && id in base;
    }
  }

  lemma ScheduleAccounted(cfg: Config, s: Sched)
    requires SInv(cfg, s, []) && Wf(s) && cfg.maxBatched >= 0 && cfg.blockSize > 0
    ensures var w3 := AdmitPhase(cfg, Stage2(cfg, s)).0;
      Accounted(s, Schedule(cfg, s).0, w3.out, |Kept(cfg, s)|)
  {
    hide SInv, KvShaped, Stage1, Stage2, AdmitPhase, Schedule, Shape, OldAt;
    ScheduleShape(cfg, s);
    StageItems(cfg, s);
    var w1, w2 := Stage1(cfg, s), Stage2(cfg, s);
    var w3 := AdmitPhase(cfg, w2).0;
    KeptOld(cfg, s, w3.s, w3.out, Kept(cfg, s), AdmittedIds(cfg, s));
    ShapeRunning(cfg, s, w3.s, w3.out, Kept(cfg, s), AdmittedIds(cfg, s));
  }

  lemma ShapeRunning(cfg: Config, s: Sched, s': Sched, out: seq<Item>, kept: seq<Id>, admitted: seq<Id>)
    requires Wf(s) && Shape(cfg, s, s', out, kept, admitted)
    ensures s'.running == kept + admitted
  {
  }
}
