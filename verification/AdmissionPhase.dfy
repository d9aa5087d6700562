/** Phase 2 of schedule(): admissions take the front of the sorted queue, serve whole
    requests until the budget runs out, and raise only when nothing at all could run. */
module AdmissionPhase {
  import opened Util
  import opened BlockPoolSpec
  import opened BlockManagerSpec
  import opened BlockManagerInv
  import opened AllocationInv
  import opened SchedulerSpec
  import opened SchedulerInv
  import opened Sharing
  import opened SchedulePhases

  /** WInv, and every running request has been granted its tokens while budget remains. */
  ghost predicate AInv(cfg: Config, w: Work) {
    && WInv(cfg, w)
    && (w.budget > 0 && !w.blocked ==> |w.out| == |w.s.running|)
    && (cfg.threshold <= 0 ==> AllButLast(w.out) && (w.budget > 0 && !w.blocked ==> AllComplete(w.out)))
  }

  ghost predicate Admitting(cfg: Config, w: Work) {
    !w.blocked && w.s.waiting != [] && w.budget > 0 && |w.s.running| < cfg.maxNumSeqs
  }

  /** Admissions move a prefix of the queue to the back of the running list and change
      nothing but the admitted requests' status and computed count. */
  ghost predicate Moved(w: Work, w': Work) {
    && w'.s.running + w'.s.waiting == w.s.running + w.s.waiting
    && w.s.running <= w'.s.running
    && w.out <= w'.out
    && w'.s.finished == w.s.finished && w'.preempted == w.preempted && w'.blocked == w.blocked
    && SameTokens(w.s, w'.s)
    && (forall id :: id in w.s.reqs && (id in w.s.running || id in w'.s.waiting) ==> w'.s.reqs[id] == w.s.reqs[id])
  }

  lemma HeadWithout(ids: seq<Id>)
    requires Distinct(ids) && ids != []
    ensures Without(ids, ids[0], ids[1..])
  {
    var rest := ids[1..];
    assert ids == [ids[0]] + rest;
    forall i, j | 0 <= i < j < |rest| ensures rest[i] != rest[j] { assert rest[i] == ids[i + 1] && rest[j] == ids[j + 1]; }
    forall i | 0 <= i < |rest| ensures rest[i] != ids[0] { assert rest[i] == ids[i + 1]; }
  }

  lemma HeadWaiting(cfg: Config, s: Sched, out: seq<Item>)
    requires SInv(cfg, s, out) && s.waiting != []
    ensures s.waiting[0] in s.waiting && s.waiting[0] in s.reqs && s.waiting[0] !in s.running
    ensures s.reqs[s.waiting[0]].computed == 0 && |s.reqs[s.waiting[0]].Tokens()| == s.reqs[s.waiting[0]].NumTokens() > 0
    ensures Without(s.waiting, s.waiting[0], s.waiting[1..])
    ensures KvShaped(s.kv) && cfg.blockSize > 0
  {
    hide Rows, Filling, Items, Arrivals, SlotCap;
    KvShapedOf(cfg, s, out);
    assert StatusOk(s, s.waiting[0]);
    HeadWithout(s.waiting);
  }

  lemma KvShapedOf(cfg: Config, s: Sched, out: seq<Item>)
    requires SInv(cfg, s, out)
    ensures KvShaped(s.kv) && cfg.blockSize > 0
  {
  }

  /** One admission attempt at the head of the queue. */
  lemma AdmitStep(cfg: Config, s: Sched, out: seq<Item>, budget: int)
    requires SInv(cfg, s, out) && s.waiting != [] && budget > 0 && |s.running| < cfg.maxNumSeqs
    requires s.waiting[0] in s.reqs && KvShaped(s.kv) && cfg.blockSize > 0
    ensures var id := s.waiting[0]; var r := s.reqs[id];
      var g := GetComputed(s.kv, cfg.blockSize, r.Tokens());
      var n := AdmitTokens(cfg, r, g.2, budget);
      && 0 < n <= budget && g.2 + n <= r.NumTokens()
      && var a := AllocateSlots(g.0, cfg.blockSize, id, r.Tokens(), r.computed, n, g.1);
      if a.1.Some? then
        var s' := Admitted(s, id, s.waiting[1..], a.0, g.2); var out' := out + [MakeScheduled(s', id, n, true)];
        SInv(cfg, s', out') && (LateSharing(cfg.blockSize, s, out) ==> LateSharing(cfg.blockSize, s', out'))
      else
        var s' := s.(kv := a.0);
        SInv(cfg, s', out) && (LateSharing(cfg.blockSize, s, out) ==> LateSharing(cfg.blockSize, s', out))
  {
    hide LateSharing, SInv, GetComputed, AllocateSlots, MakeScheduled, KvShaped, Restored, Allocated, Without, Leading, KvOk, SameRowsAll;
    HeadWaiting(cfg, s, out);
    var id := s.waiting[0];
    var r := s.reqs[id];
    AdmitAllocates(cfg, s, out, id, 0);
    var g := GetComputed(s.kv, cfg.blockSize, r.Tokens());
    var n := AdmitTokens(cfg, r, g.2, budget);
    AdmitAllocates(cfg, s, out, id, n);
    var a := AllocateSlots(g.0, cfg.blockSize, id, r.Tokens(), r.computed, n, g.1);
    if a.1.Some? {
      AdmitInv(cfg, s, out, g.0, a.0, id, g.1, s.waiting[1..], n);
      if LateSharing(cfg.blockSize, s, out) {
        AdmitSharing(cfg, s, out, g.0, a.0, id, g.1, s.waiting[1..], n);
      }
    } else {
      RestoredInv(cfg, s, out, a.0);
      if LateSharing(cfg.blockSize, s, out) { KvSharing(cfg.blockSize, s, a.0, out); }
    }
  }

  lemma AdmitSharing(cfg: Config, s: Sched, out: seq<Item>, kv1: KV, kv2: KV, id: Id, hits: seq<BlockId>, rest: seq<Id>, n: nat)
    requires SInv(cfg, s, out) && id in s.waiting && LateSharing(cfg.blockSize, s, out) && AdmittedKv(cfg, s, kv1, kv2, id, hits, n)
    ensures var s' := Admitted(s, id, rest, kv2, |hits| * cfg.blockSize);
      LateSharing(cfg.blockSize, s', out + [MakeScheduled(s', id, n, true)])
  {
    hide Rows, Filling, Statuses, Bounded, Arrivals, Items, AdmittedKv, LateSharing;
    var s' := Admitted(s, id, rest, kv2, |hits| * cfg.blockSize);
    SharingAdmit(cfg, s, out, kv1, kv2, id, hits, rest, n, MakeScheduled(s', id, n, true));
  }

  lemma KvSharing(bs: nat, s: Sched, kv: KV, out: seq<Item>)
    requires LateSharing(bs, s, out) && Restored(s.kv, kv)
    ensures LateSharing(bs, s.(kv := kv), out)
  {
    hide LateSharing;
    SharingFewer(bs, s, s.(kv := kv), out);
  }

  /** The Work after one successful admission. */
  function AdmitNext(cfg: Config, w: Work): (w': Work)
    requires cfg.blockSize > 0 && Wf(w.s) && w.s.waiting != []
    ensures Wf(w'.s)
  {
    var id := w.s.waiting[0];
    assert id in w.s.waiting;
    var r := w.s.reqs[id];
    var g := GetComputed(w.s.kv, cfg.blockSize, r.Tokens());
    var n := AdmitTokens(cfg, r, g.2, w.budget);
    var a := AllocateSlots(g.0, cfg.blockSize, id, r.Tokens(), r.computed, if n > 0 then n else 0, g.1);
    Grant(Admit(w, id, a.0, g.2), id, if n > 0 then n else 0, true)
  }

  ghost predicate AdmitFits(cfg: Config, w: Work)
    requires cfg.blockSize > 0 && Wf(w.s) && w.s.waiting != []
  {
    var id := w.s.waiting[0];
    assert id in w.s.waiting;
    var r := w.s.reqs[id];
    var g := GetComputed(w.s.kv, cfg.blockSize, r.Tokens());
    var n := AdmitTokens(cfg, r, g.2, w.budget);
    AllocateSlots(g.0, cfg.blockSize, id, r.Tokens(), r.computed, if n > 0 then n else 0, g.1).1.Some?
  }

  lemma MadeLength(s: Sched, id: Id, n: nat, isNew: bool)
    requires id in s.reqs && s.reqs[id].computed + n <= s.reqs[id].NumTokens()
    ensures MakeScheduled(s, id, n, isNew).id == id && |MakeScheduled(s, id, n, isNew).chunk| == n
    ensures MakeScheduled(s, id, n, isNew).doSample <==> s.reqs[id].computed + n == s.reqs[id].NumTokens()
  {
  }

  lemma AdmitNextAInv(cfg: Config, w: Work)
    requires AInv(cfg, w) && Wf(w.s) && Admitting(cfg, w) && cfg.blockSize > 0 && AdmitFits(cfg, w)
    ensures AInv(cfg, AdmitNext(cfg, w))
  {
    hide SInv, GetComputed, AllocateSlots, MakeScheduled, KvShaped, LateSharing;
    HeadWaiting(cfg, w.s, w.out);
    AdmitStep(cfg, w.s, w.out, w.budget);
    var id := w.s.waiting[0];
    var w' := AdmitNext(cfg, w);
    var g := GetComputed(w.s.kv, cfg.blockSize, w.s.reqs[id].Tokens());
    var n := AdmitTokens(cfg, w.s.reqs[id], g.2, w.budget);
    MadeLength(w'.s, id, n, true);
    TotalSnoc(w.out, MakeScheduled(w'.s, id, n, true));
  }

  lemma AdmitNextMoved(cfg: Config, w: Work)
    requires AInv(cfg, w) && Wf(w.s) && Admitting(cfg, w) && cfg.blockSize > 0 && AdmitFits(cfg, w)
    ensures Moved(w, AdmitNext(cfg, w)) && |AdmitNext(cfg, w).s.waiting| < |w.s.waiting|
  {
    hide SInv, GetComputed, AllocateSlots, MakeScheduled, KvShaped, BudgetKept, AllComplete, AllButLast;
    HeadWaiting(cfg, w.s, w.out);
    assert w.s.waiting == [w.s.waiting[0]] + w.s.waiting[1..];
  }

  lemma AdmitNextPhase(cfg: Config, w: Work)
    requires AInv(cfg, w) && Wf(w.s) && Admitting(cfg, w) && cfg.blockSize > 0
    ensures AdmitFits(cfg, w) ==> AdmitPhase(cfg, w) == AdmitPhase(cfg, AdmitNext(cfg, w))
    ensures !AdmitFits(cfg, w) ==>
      var r := AdmitPhase(cfg, w);
      && WInv(cfg, r.0) && r.0 == w.(s := w.s.(kv := r.0.s.kv))
      && (!r.1 <==> w.s.running == [] && w.out == [])
  {
    hide SInv, GetComputed, AllocateSlots, MakeScheduled, KvShaped, AllComplete, AllButLast, LateSharing;
    HeadWaiting(cfg, w.s, w.out);
    AdmitStep(cfg, w.s, w.out, w.budget);
  }

  lemma MovedTrans(w: Work, w1: Work, w2: Work)
    requires Moved(w, w1) && Moved(w1, w2)
    ensures Moved(w, w2)
  {
    forall id | id in w.s.reqs && (id in w.s.running || id in w2.s.waiting)
      ensures w2.s.reqs[id] == w.s.reqs[id]
    {
      if id in w.s.running {
        var i :| 0 <= i < |w.s.running| && w.s.running[i] == id;
        assert w1.s.running[i] == id;
      } else {
        MovedShrinks(w, w1);
        MovedShrinks(w1, w2);
      }
    }
  }

  lemma MovedShrinks(w: Work, w': Work)
    requires Moved(w, w')
    ensures |w'.s.waiting| <= |w.s.waiting| && w'.s.waiting == w.s.waiting[|w.s.waiting| - |w'.s.waiting|..]
    ensures forall id :: id in w'.s.waiting ==> id in w.s.waiting
  {
    var d := |w.s.waiting| - |w'.s.waiting|;
    var a, b := w.s.running + w.s.waiting, w'.s.running + w'.s.waiting;
    assert |w'.s.running| - |w.s.running| == d;
    forall i | 0 <= i < |w'.s.waiting| ensures w'.s.waiting[i] == w.s.waiting[d + i] {
      assert b[|w'.s.running| + i] == w'.s.waiting[i];
      assert a[|w.s.running| + (d + i)] == w.s.waiting[d + i];
    }
  }

  ghost predicate AdmitDone(cfg: Config, w: Work, r: (Work, bool)) {
    && WInv(cfg, r.0)
    && Moved(w, r.0)
    && (!r.1 ==> r.0.s.running == [] && r.0.out == [])
    && (cfg.threshold <= 0 ==> AllButLast(r.0.out))
  }

  /** Phase 2 as a whole. */
  lemma {:induction false} AdmitPhaseInv(cfg: Config, w: Work)
    requires cfg.blockSize > 0 && AInv(cfg, w) && Wf(w.s)
    ensures AdmitDone(cfg, w, AdmitPhase(cfg, w))
    decreases |w.s.waiting|
  {
    hide WInv, Moved, AllButLast, AllComplete, AdmitFits, AdmitNext, GetComputed, AllocateSlots, Grant, Admit, KvShaped;
    if Admitting(cfg, w) {
      AdmitNextPhase(cfg, w);
      if AdmitFits(cfg, w) {
        AdmitNextAInv(cfg, w);
        AdmitNextMoved(cfg, w);
        var w1 := AdmitNext(cfg, w);
        AdmitPhaseInv(cfg, w1);
        MovedTrans(w, w1, AdmitPhase(cfg, w1).0);
      } else {
        MovedKv(w, AdmitPhase(cfg, w).0);
      }
    } else {
      MovedKv(w, w);
    }
  }

  lemma MovedKv(w: Work, w': Work)
    requires w' == w.(s := w.s.(kv := w'.s.kv))
    ensures Moved(w, w') && w'.out == w.out && w'.s.running == w.s.running
  {
  }
}
