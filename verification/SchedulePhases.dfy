/** The three phases of schedule() as whole loops: they keep the invariant, serve running
    requests from the front, and never preempt or re-admit what they scheduled. */
module SchedulePhases {
  import opened Util
  import opened BlockManagerSpec
  import opened BlockManagerInv
  import opened SchedulerSpec
  import opened SchedulerInv
  import opened Sharing

  function TotalTokens(out: seq<Item>): nat {
    if out == [] then 0 else TotalTokens(out[..|out| - 1]) + |out[|out| - 1].chunk|
  }

  lemma TotalSnoc(out: seq<Item>, it: Item)
    ensures TotalTokens(out + [it]) == TotalTokens(out) + |it.chunk|
  {
    assert (out + [it])[..|out|] == out;
  }

  /** Granted items are exactly the front of the running list, in order. */
  ghost predicate ServedInOrder(w: Work) {
    && |w.out| <= |w.s.running|
    && forall k :: 0 <= k < |w.out| ==> w.out[k].id == w.s.running[k]
  }

  /** Tokens granted and tokens left make up the step's budget. */
  ghost predicate BudgetKept(cfg: Config, w: Work) {
    0 <= w.budget && (w.out == [] || w.budget < cfg.maxBatched) && TotalTokens(w.out) + w.budget == cfg.maxBatched
  }

  ghost predicate AllComplete(out: seq<Item>) {
    forall k :: 0 <= k < |out| ==> out[k].doSample
  }

  /** Only the last item may stop short of its request's known tokens. */
  ghost predicate AllButLast(out: seq<Item>) {
    forall k :: 0 <= k < |out| - 1 ==> out[k].doSample
  }

  /** The loop invariant of schedule(). */
  ghost predicate WInv(cfg: Config, w: Work) {
    && SInv(cfg, w.s, w.out)
    && ServedInOrder(w)
    && BudgetKept(cfg, w)
    && LateSharing(cfg.blockSize, w.s, w.out)
  }

  lemma FreshBeyond(cfg: Config, w: Work, k: nat)
    requires WInv(cfg, w) && |w.out| <= k < |w.s.running|
    ensures Fresh(w.out, w.s.running[k])
  {
  }

  lemma PopWithout(running: seq<Id>)
    requires Distinct(running) && running != []
    ensures Without(running, running[|running| - 1], running[..|running| - 1])
  {
    var id, rest := running[|running| - 1], running[..|running| - 1];
    forall x ensures x in rest <==> x in running && x != id {
      if x in rest { var i :| 0 <= i < |rest| && rest[i] == x; assert running[i] == x; }
      if x in running && x != id { var i :| 0 <= i < |running| && running[i] == x; assert rest[i] == x; }
    }
  }

  lemma RemoveWithout(running: seq<Id>, id: Id)
    requires Distinct(running) && id in running
    ensures Without(running, id, Remove(running, id))
  {
    RemoveDistinct(running, id);
  }

  // ------------------------------------------------------------------ phase 0

  /** When _preempt_for_priority evicts: every slot taken, and someone strictly lower runs. */
  ghost predicate Evicts(cfg: Config, s: Sched)
    requires Wf(s)
  {
    && s.waiting != [] && s.running != [] && |s.running| >= cfg.maxNumSeqs
    && s.reqs[Top(s.reqs, s.waiting)].priority > MinPriority(s.reqs, s.running)
  }

  /** The state after evicting the lowest-ranked running request. */
  function Evicted(s: Sched): (r: Sched)
    requires Wf(s) && s.running != []
    ensures Wf(r)
  {
    var victim := Lowest(s.reqs, s.running);
    Preempt(s.(running := Remove(s.running, victim)), victim)
  }

  /** With the slot limit respected, the eviction loop evicts at most one request. */
  lemma EvictOnce(cfg: Config, s: Sched)
    requires Wf(s) && SlotCap(cfg, s)
    ensures PreemptForPriority(cfg, s)
         == if Evicts(cfg, s) then (Evicted(s), [Lowest(s.reqs, s.running)]) else (s, [])
  {
    if Evicts(cfg, s) {
      var victim := Lowest(s.reqs, s.running);
      var top, s1 := Top(s.reqs, s.waiting), Evicted(s);
      assert [] + [victim] == [victim];
      assert |s1.running| < cfg.maxNumSeqs;
      assert EvictLoop(cfg, s, top, []) == EvictLoop(cfg, s1, top, [victim]);
    }
  }

  lemma EvictedInv(cfg: Config, s: Sched)
    requires SInv(cfg, s, []) && Wf(s) && s.running != []
    ensures SInv(cfg, Evicted(s), [])
  {
    hide Rows, Filling, Statuses, Bounded, Arrivals;
    var victim := Lowest(s.reqs, s.running);
    RemoveWithout(s.running, victim);
    PreemptInv(cfg, s, [], victim, Remove(s.running, victim));
  }

  // ------------------------------------------------------------------ phase 1

  /** Preemption from the back: a prefix of the running list stays, with its requests
      unchanged, and whoever left waits. */
  ghost predicate Trimmed(w: Work, w': Work) {
    && w'.s.running <= w.s.running
    && SameTokens(w.s, w'.s)
    && w'.s.finished == w.s.finished
    && (forall id :: id in w.s.waiting ==> id in w'.s.waiting)
    && (forall id :: id in w'.preempted ==> id in w.preempted || id in w'.s.waiting)
    && (!w'.blocked ==> !w.blocked && w'.s.running == w.s.running && w'.s.waiting == w.s.waiting && w'.preempted == w.preempted)
    && (forall id :: id in w'.s.running ==> id in w.s.reqs && id in w'.s.reqs && w'.s.reqs[id] == w.s.reqs[id])
  }

  ghost predicate Squeezed(w: Work, w': Work) {
    w'.out == w.out && w'.budget == w.budget && Trimmed(w, w')
  }

  lemma TrimmedTrans(w: Work, w1: Work, w2: Work)
    requires Trimmed(w, w1) && Trimmed(w1, w2)
    ensures Trimmed(w, w2)
  {
    forall id | id in w2.s.running
      ensures id in w.s.reqs && id in w2.s.reqs && w2.s.reqs[id] == w.s.reqs[id]
    {
      var i :| 0 <= i < |w2.s.running| && w2.s.running[i] == id;
      assert w1.s.running[i] == id;
    }
  }

  lemma PopSqueezed(w: Work)
    requires Wf(w.s) && w.s.running != [] && Distinct(w.s.running)
    requires |w.out| < |w.s.running| && ServedInOrder(w)
    ensures Squeezed(w, PopVictim(w)) && ServedInOrder(PopVictim(w)) && PopVictim(w).blocked
  {
    hide KvShaped, FreeRequest;
    var k := |w.s.running| - 1;
    var w' := PopVictim(w);
    assert w'.s.running == w.s.running[..k];
    forall id | id in w'.s.running
      ensures id in w.s.reqs && id in w'.s.reqs && w'.s.reqs[id] == w.s.reqs[id]
    {
      var i :| 0 <= i < k && w.s.running[i] == id;
    }
  }

  lemma PopVictimInv(cfg: Config, w: Work)
    requires WInv(cfg, w) && |w.out| < |w.s.running|
    ensures Wf(w.s) && WInv(cfg, PopVictim(w)) && Squeezed(w, PopVictim(w)) && PopVictim(w).blocked
  {
    hide Rows, Filling, Statuses, Bounded, Arrivals, Items, Squeezed, SlotCap, KvShaped, FreeRequest, Without, LateSharing;
    SInvWf(cfg, w.s, w.out);
    var k := |w.s.running| - 1;
    FreshBeyond(cfg, w, k);
    PopWithout(w.s.running);
    PreemptInv(cfg, w.s, w.out, w.s.running[k], w.s.running[..k]);
    PreemptSharing(cfg, w.s, w.out, w.s.running[k], w.s.running[..k]);
    PopSqueezed(w);
  }

  lemma PreemptSharing(cfg: Config, s: Sched, out: seq<Item>, id: Id, rest: seq<Id>)
    requires SInv(cfg, s, out) && Without(s.running, id, rest) && LateSharing(cfg.blockSize, s, out)
    ensures Wf(s.(running := rest)) && LateSharing(cfg.blockSize, Preempt(s.(running := rest), id), out)
  {
    hide Rows, Filling, SameRow, KvShaped, FreeRequest, LateSharing, Statuses, Bounded, Arrivals, Items;
    SInvWf(cfg, s, out);
    PreemptRows(cfg, s, out, id, rest);
    var s' := Preempt(s.(running := rest), id);
    SameTables(s.kv, s'.kv, rest);
    SharingFewer(cfg.blockSize, s, s', out);
  }

  /** One allocation attempt for a running request. */
  lemma GrantStep(cfg: Config, s: Sched, out: seq<Item>, id: Id, n: nat)
    requires SInv(cfg, s, out) && Wf(s) && id in s.running && Fresh(out, id)
    requires 0 < n && s.reqs[id].computed + n <= s.reqs[id].NumTokens()
    ensures var r := s.reqs[id];
      var a := AllocateSlots(s.kv, cfg.blockSize, id, r.Tokens(), r.computed, n, []);
      if a.1.Some? then
        var s' := s.(kv := a.0); var out' := out + [MakeScheduled(s', id, n, false)];
        SInv(cfg, s', out') && (LateSharing(cfg.blockSize, s, out) ==> LateSharing(cfg.blockSize, s', out'))
      else a.0 == s.kv
  {
    hide Rows, Filling, Statuses, Bounded, Arrivals, Items, Lists, SlotCap, AllocateSlots, Extended, MakeScheduled, LateSharing;
    GrantAllocates(cfg, s, out, id, n);
    var r := s.reqs[id];
    var a := AllocateSlots(s.kv, cfg.blockSize, id, r.Tokens(), r.computed, n, []);
    if a.1.Some? {
      var s' := s.(kv := a.0);
      GrantInv(cfg, s, out, s', id, n);
      if LateSharing(cfg.blockSize, s, out) { SharingGrant(cfg, s, out, s', id, n, MakeScheduled(s', id, n, false)); }
    }
  }

  lemma {:induction false} SqueezeInv(cfg: Config, w: Work, id: Id, n: nat)
    requires cfg.blockSize > 0 && WInv(cfg, w) && Wf(w.s)
    requires |w.out| < |w.s.running| && w.s.running[|w.out|] == id
    requires 0 < n && id in w.s.reqs && w.s.reqs[id].computed + n <= w.s.reqs[id].NumTokens()
    ensures var r := Squeeze(cfg, w, id, n);
      && Squeezed(w, r.0)
      && (r.1 ==> id in r.0.s.reqs && |w.out| < |r.0.s.running| && r.0.s.running[|w.out|] == id)
      && (r.1 ==> SInv(cfg, r.0.s, w.out + [MakeScheduled(r.0.s, id, n, false)]))
      && (r.1 ==> LateSharing(cfg.blockSize, r.0.s, w.out + [MakeScheduled(r.0.s, id, n, false)]))
      && (!r.1 ==> WInv(cfg, r.0) && r.0.blocked)
    decreases |w.s.running|
  {
    hide SInv, ServedInOrder, BudgetKept, AllocateSlots, MakeScheduled, KvShaped, PopVictim, Squeezed, LateSharing;
    FreshBeyond(cfg, w, |w.out|);
    GrantStep(cfg, w.s, w.out, id, n);
    var r := w.s.reqs[id];
    var a := AllocateSlots(w.s.kv, cfg.blockSize, id, r.Tokens(), r.computed, n, []);
    var w1 := w.(s := w.s.(kv := a.0));
    if a.1.Some? {
      SqueezedKv(w, a.0);
    } else {
      assert w1 == w;
      PopVictimInv(cfg, w);
      var w2 := PopVictim(w);
      if w.s.running[|w.s.running| - 1] != id {
        PopFront(w, w2, id);
        SqueezeInv(cfg, w2, id, n);
        SqueezedTrans(w, w2, Squeeze(cfg, w2, id, n).0);
      }
    }
  }

  lemma SqueezedTrans(w: Work, w1: Work, w2: Work)
    requires Squeezed(w, w1) && Squeezed(w1, w2)
    ensures Squeezed(w, w2)
  {
    TrimmedTrans(w, w1, w2);
  }

  lemma SqueezedKv(w: Work, kv: KV)
    requires Wf(w.s)
    ensures Squeezed(w, w.(s := w.s.(kv := kv)))
  {
  }

  lemma PopFront(w: Work, w2: Work, id: Id)
    requires Squeezed(w, w2) && |w.out| < |w.s.running| && w.s.running[|w.out|] == id
    requires |w2.s.running| == |w.s.running| - 1 && w.s.running[|w.s.running| - 1] != id
    ensures w2.out == w.out && |w2.out| < |w2.s.running| && w2.s.running[|w2.out|] == id && id in w2.s.running
    ensures id in w2.s.reqs && id in w.s.reqs && w2.s.reqs[id] == w.s.reqs[id]
  {
  }

  lemma GrantWInv(cfg: Config, w: Work, w1: Work, id: Id, n: nat)
    requires WInv(cfg, w) && Squeezed(w, w1) && Wf(w1.s)
    requires id in w1.s.reqs && |w.out| < |w1.s.running| && w1.s.running[|w.out|] == id
    requires SInv(cfg, w1.s, w.out + [MakeScheduled(w1.s, id, n, false)])
    requires LateSharing(cfg.blockSize, w1.s, w.out + [MakeScheduled(w1.s, id, n, false)])
    requires 0 < n <= w.budget && w1.s.reqs[id].computed + n <= w1.s.reqs[id].NumTokens()
    ensures WInv(cfg, Grant(w1, id, n, false)) && Trimmed(w, Grant(w1, id, n, false))
    ensures n == w1.s.reqs[id].NumTokens() - w1.s.reqs[id].computed && AllComplete(w.out) ==> AllComplete(Grant(w1, id, n, false).out)
    ensures AllComplete(w.out) ==> AllButLast(Grant(w1, id, n, false).out)
    ensures |Grant(w1, id, n, false).out| == |w.out| + 1 && Grant(w1, id, n, false).budget == w.budget - n
  {
    hide SInv, Statuses, Rows, Filling, Items, KvShaped, LateSharing;
    TotalSnoc(w.out, MakeScheduled(w1.s, id, n, false));
  }

  /** Tokens left over after phase 1 mean that every running request was served in full. */
  ghost predicate RunDone(cfg: Config, w: Work, r: Work) {
    && WInv(cfg, r) && Trimmed(w, r)
    && (r.budget > 0 && !r.blocked ==> |r.out| == |r.s.running| && AllComplete(r.out))
    && w.out <= r.out
    && AllButLast(r.out)
  }

  /** Phase 1 as a whole. */
  lemma {:induction false} RunPhaseInv(cfg: Config, w: Work)
    requires cfg.blockSize > 0 && WInv(cfg, w) && Wf(w.s)
    requires AllButLast(w.out) && (w.budget > 0 ==> AllComplete(w.out))
    ensures RunDone(cfg, w, RunPhase(cfg, w, |w.out|))
    decreases |w.s.running| - |w.out|
  {
    hide WInv, AllComplete, AllButLast, Squeeze, Grant, KvShaped, Trimmed, RunDone;
    var idx := |w.out|;
    RunPhaseStep(cfg, w);
    if idx < |w.s.running| && w.budget > 0 {
      var id := w.s.running[idx];
      var n := Min(w.s.reqs[id].NumTokens() - w.s.reqs[id].computed, w.budget);
      var q := Squeeze(cfg, w, id, n);
      if q.1 {
        var w2 := Grant(q.0, id, n, false);
        assert |w2.s.running| - |w2.out| < |w.s.running| - |w.out| by { TrimmedShorter(w, w2); }
        RunPhaseInv(cfg, w2);
        assert RunPhase(cfg, w, idx) == RunPhase(cfg, w2, |w2.out|);
        RunDoneTrans(cfg, w, w2, RunPhase(cfg, w2, |w2.out|));
      } else {
        assert RunPhase(cfg, w, idx) == q.0;
        RunDoneNow(cfg, w, q.0);
      }
    } else {
      assert RunPhase(cfg, w, idx) == w;
      TrimmedSelf(w);
      RunDoneNow(cfg, w, w);
    }
  }

  lemma TrimmedShorter(w: Work, w2: Work)
    requires Trimmed(w, w2)
    ensures |w2.s.running| <= |w.s.running|
  {
  }

  lemma TrimmedSelf(w: Work)
    requires Wf(w.s)
    ensures Trimmed(w, w)
  {
  }

  lemma RunDoneTrans(cfg: Config, w: Work, w2: Work, r: Work)
    requires Trimmed(w, w2) && w.out <= w2.out && RunDone(cfg, w2, r)
    ensures RunDone(cfg, w, r)
  {
    hide WInv;
    TrimmedTrans(w, w2, r);
  }

  lemma RunDoneNow(cfg: Config, w: Work, r: Work)
    requires WInv(cfg, r) && Trimmed(w, r) && w.out == r.out && AllButLast(r.out)
    requires r.blocked || ((r.budget > 0 ==> AllComplete(r.out)) && (|r.out| == |r.s.running| || r.budget <= 0))
    ensures RunDone(cfg, w, r)
  {
    hide SInv;
  }

  lemma PositiveWork(cfg: Config, w: Work)
    requires WInv(cfg, w)
    ensures |w.out| <= |w.s.running|
    ensures |w.out| < |w.s.running| ==>
      w.s.running[|w.out|] in w.s.reqs && w.s.reqs[w.s.running[|w.out|]].computed < w.s.reqs[w.s.running[|w.out|]].NumTokens()
  {
    hide Rows, Filling, Items, Bounded, Arrivals, SlotCap, BudgetKept;
    if |w.out| < |w.s.running| { assert StatusOk(w.s, w.s.running[|w.out|]); }
  }

  lemma RunPhaseStep(cfg: Config, w: Work)
    requires cfg.blockSize > 0 && WInv(cfg, w) && Wf(w.s)
    requires w.budget > 0 ==> AllComplete(w.out)
    ensures |w.out| <= |w.s.running|
    ensures |w.out| < |w.s.running| && w.budget > 0 ==>
      var id := w.s.running[|w.out|];
      var n := Min(w.s.reqs[id].NumTokens() - w.s.reqs[id].computed, w.budget);
      && n > 0
      && var q := Squeeze(cfg, w, id, n);
      && (q.1 ==> var w2 := Grant(q.0, id, n, false);
                 WInv(cfg, w2) && Trimmed(w, w2) && |w2.out| == |w.out| + 1 && w.out <= w2.out
                 && (w2.budget > 0 ==> AllComplete(w2.out)) && AllButLast(w2.out))
      && (!q.1 ==> WInv(cfg, q.0) && Trimmed(w, q.0) && q.0.blocked && q.0.out == w.out)
  {
    hide WInv, AllComplete, AllButLast, Squeeze, MakeScheduled, KvShaped, Trimmed;
    PositiveWork(cfg, w);
    if |w.out| < |w.s.running| && w.budget > 0 {
      var id := w.s.running[|w.out|];
      var n := Min(w.s.reqs[id].NumTokens() - w.s.reqs[id].computed, w.budget);
      SqueezeInv(cfg, w, id, n);
      var q := Squeeze(cfg, w, id, n);
      if q.1 {
        assert w.s.reqs[id] == q.0.s.reqs[id] by { SqueezedSame(w, q.0, id); }
        GrantWInv(cfg, w, q.0, id, n);
      } else {
        SqueezedSame(w, q.0, id);
      }
    }
  }

  lemma SqueezedSame(w: Work, w': Work, id: Id)
    requires Squeezed(w, w')
    ensures id in w'.s.running ==> id in w.s.reqs && id in w'.s.reqs && w'.s.reqs[id] == w.s.reqs[id]
    ensures w'.out == w.out && w'.budget == w.budget && Trimmed(w, w')
  {
  }
}
