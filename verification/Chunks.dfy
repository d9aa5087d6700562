/** How many tokens each request gets in a step, said of the output of schedule() in numbers. */
module Chunks {
  import opened Util
  import opened BlockManagerSpec
  import opened SchedulerSpec
  import opened SchedulerInv
  import opened SchedulePhases
  import opened AdmissionPhase
  import opened ScheduleStep
  import opened NewItems
  import opened Queueing
  import opened Sharing

  /** The k-th item takes what its request has left, but no more than the items before it left of
      the budget and, if it is admitted by this call, no more than a positive threshold. */
  ghost predicate ChunkAt(cfg: Config, s: Sched, out: seq<Item>, k: nat) {
    && k < |out| && out[k].id in s.reqs
    && var r, n := s.reqs[out[k].id], |out[k].chunk|;
    var left, budget := |r.prompt| + |r.output| - out[k].start, cfg.maxBatched - TotalTokens(out[..k]);
    var limited := out[k].isNew && cfg.threshold > 0;
    && n <= left && n <= budget && (limited ==> n <= cfg.threshold)
    && (n == left || n == budget || (limited && n == cfg.threshold))
  }

  ghost predicate AllChunks(cfg: Config, s: Sched, out: seq<Item>) {
    forall k :: 0 <= k < |out| ==> ChunkAt(cfg, s, out, k)
  }

  lemma ChunksSame(cfg: Config, s: Sched, s': Sched, out: seq<Item>)
    requires AllChunks(cfg, s, out) && SameTokens(s, s')
    ensures AllChunks(cfg, s', out)
  {
    forall k | 0 <= k < |out| ensures ChunkAt(cfg, s', out, k) {
      assert ChunkAt(cfg, s, out, k);
      SameFields(s.reqs[out[k].id], s'.reqs[out[k].id]);
    }
  }

  lemma ChunksSnoc(cfg: Config, s: Sched, out: seq<Item>, it: Item)
    requires AllChunks(cfg, s, out) && ChunkAt(cfg, s, out + [it], |out|)
    ensures AllChunks(cfg, s, out + [it])
  {
    var all := out + [it];
    forall k | 0 <= k < |all| ensures ChunkAt(cfg, s, all, k) {
      if k < |out| { assert ChunkAt(cfg, s, out, k) && all[..k] == out[..k]; }
    }
  }

  /** A grant of n tokens, as the item that makes it. */
  lemma GrantChunk(cfg: Config, s: Sched, out: seq<Item>, id: Id, n: nat, isNew: bool, budget: int)
    requires id in s.reqs && AllChunks(cfg, s, out) && budget == cfg.maxBatched - TotalTokens(out)
    requires var left := s.reqs[id].NumTokens() - s.reqs[id].computed; var limited := isNew && cfg.threshold > 0;
      && n <= left && n <= budget && (limited ==> n <= cfg.threshold)
      && (n == left || n == budget || (limited && n == cfg.threshold))
    ensures AllChunks(cfg, s, out + [MakeScheduled(s, id, n, isNew)])
  {
    hide MakeScheduled, AllChunks;
    var it := MakeScheduled(s, id, n, isNew);
    MadeChunk(s, id, n, isNew);
    assert (out + [it])[..|out|] == out && (out + [it])[|out|] == it;
    ChunksSnoc(cfg, s, out, it);
  }

  lemma MadeChunk(s: Sched, id: Id, n: nat, isNew: bool)
    requires id in s.reqs && s.reqs[id].computed + n <= s.reqs[id].NumTokens()
    ensures var it := MakeScheduled(s, id, n, isNew);
      it.id == id && it.start == s.reqs[id].computed && |it.chunk| == n && it.isNew == isNew
  {
  }

  // ------------------------------------------------------------------ phase 1

  lemma {:induction false} RunChunks(cfg: Config, w: Work)
    requires cfg.blockSize > 0 && WInv(cfg, w) && Wf(w.s) && AllChunks(cfg, w.s, w.out)
    requires w.budget > 0 ==> AllComplete(w.out)
    ensures var r := RunPhase(cfg, w, |w.out|); AllChunks(cfg, r.s, r.out)
    decreases |w.s.running| - |w.out|
  {
    hide WInv, AllComplete, AllButLast, Squeeze, KvShaped, Trimmed, AllChunks, MakeScheduled;
    RunPhaseStep(cfg, w);
    PositiveWork(cfg, w);
    if |w.out| < |w.s.running| && w.budget > 0 {
      var id := w.s.running[|w.out|];
      var n := Min(w.s.reqs[id].NumTokens() - w.s.reqs[id].computed, w.budget);
      var q := Squeeze(cfg, w, id, n);
      SqueezeKeeps(cfg, w, id, n);
      ChunksSame(cfg, w.s, q.0.s, w.out);
      if q.1 {
        var w2 := Grant(q.0, id, n, false);
        BudgetOf(cfg, w);
        GrantChunk(cfg, q.0.s, w.out, id, n, false, w.budget);
        TrimmedShorter(w, w2);
        RunChunks(cfg, w2);
      }
    }
  }

  lemma BudgetOf(cfg: Config, w: Work)
    requires WInv(cfg, w)
    ensures w.budget == cfg.maxBatched - TotalTokens(w.out)
  {
    hide SInv, ServedInOrder, LateSharing;
  }

  lemma SqueezeKeeps(cfg: Config, w: Work, id: Id, n: nat)
    requires cfg.blockSize > 0 && WInv(cfg, w) && Wf(w.s)
    requires |w.out| < |w.s.running| && w.s.running[|w.out|] == id
    requires 0 < n && id in w.s.reqs && w.s.reqs[id].computed + n <= w.s.reqs[id].NumTokens()
    ensures var q := Squeeze(cfg, w, id, n);
      SameTokens(w.s, q.0.s) && q.0.out == w.out && q.0.budget == w.budget
      && (q.1 ==> id in q.0.s.reqs && q.0.s.reqs[id] == w.s.reqs[id])
  {
    hide WInv, Squeeze, SameTokens, KvShaped;
    SqueezeInv(cfg, w, id, n);
  }

  // ------------------------------------------------------------------ phase 2

  lemma {:induction false} AdmitChunks(cfg: Config, w: Work)
    requires cfg.blockSize > 0 && AInv(cfg, w) && Wf(w.s) && AllChunks(cfg, w.s, w.out)
    ensures var r := AdmitPhase(cfg, w).0; AllChunks(cfg, r.s, r.out)
    decreases |w.s.waiting|
  {
    hide WInv, Moved, AllButLast, AllComplete, AdmitFits, AdmitNext, GetComputed, AllocateSlots, KvShaped, AllChunks, AInv;
    if Admitting(cfg, w) {
      AdmitNextPhase(cfg, w);
      if AdmitFits(cfg, w) {
        AdmitNextAInv(cfg, w);
        AdmitNextMoved(cfg, w);
        NextChunk(cfg, w);
        AdmitChunks(cfg, AdmitNext(cfg, w));
      } else {
        ChunksKv(cfg, w.s, AdmitPhase(cfg, w).0.s, w.out);
      }
    }
  }

  lemma ChunksKv(cfg: Config, s: Sched, s': Sched, out: seq<Item>)
    requires AllChunks(cfg, s, out) && s'.reqs == s.reqs
    ensures AllChunks(cfg, s', out)
  {
    ChunksSame(cfg, s, s', out);
  }

  lemma NextChunk(cfg: Config, w: Work)
    requires cfg.blockSize > 0 && AInv(cfg, w) && Wf(w.s) && Admitting(cfg, w) && AllChunks(cfg, w.s, w.out)
    ensures var w' := AdmitNext(cfg, w); AllChunks(cfg, w'.s, w'.out)
  {
    hide SInv, GetComputed, AllocateSlots, MakeScheduled, KvShaped, AllChunks, LateSharing, AllComplete, AllButLast, ServedInOrder;
    HeadWaiting(cfg, w.s, w.out);
    AdmitStep(cfg, w.s, w.out, w.budget);
    var id := w.s.waiting[0];
    var w' := AdmitNext(cfg, w);
    var g := GetComputed(w.s.kv, cfg.blockSize, w.s.reqs[id].Tokens());
    var n := AdmitTokens(cfg, w.s.reqs[id], g.2, w.budget);
    ChunksSame(cfg, w.s, w'.s, w.out);
    GrantChunk(cfg, w'.s, w.out, id, n, true, w.budget);
  }

  // ------------------------------------------------------------------ schedule

  /** An admitted request is one that waited before the call; any other ran. */
  ghost predicate NewAt(s: Sched, out: seq<Item>, k: nat) {
    k < |out| && (if out[k].isNew then out[k].id in s.waiting else out[k].id in s.running)
  }

  /** Every chunk of a step has the size the source's three minima give it, and the requests it
      admits are exactly the scheduled ones that waited before the call. */
  lemma ScheduleChunks(cfg: Config, s: Sched)
    requires SInv(cfg, s, []) && Wf(s) && cfg.maxBatched >= 0 && cfg.blockSize > 0
    ensures var (s', o) := Schedule(cfg, s);
      o.Some? ==> forall k :: 0 <= k < |o.value.scheduled| ==> ChunkAt(cfg, s', o.value.scheduled, k) && NewAt(s, o.value.scheduled, k)
  {
    hide SInv, KvShaped, Stage2, Stage1, Stage0, AllComplete, AdmitPhase, Schedule, RunDone, ChunkAt, NewAt, Accounted, SameTokens;
    ScheduleStages(cfg, s);
    Stage0Inv(cfg, s);
    Stage1Inv(cfg, s);
    Stage2Inv(cfg, s);
    NothingComplete();
    var w0, w1, w2 := Stage0(cfg, s), Stage1(cfg, s), Stage2(cfg, s);
    Stage1Is(cfg, s);
    RunChunks(cfg, w0);
    ChunksKv(cfg, w1.s, w2.s, w1.out);
    AdmitChunks(cfg, w2);
    ScheduleInv(cfg, s);
    ScheduleAccounted(cfg, s);
    var r := AdmitPhase(cfg, w2);
    if r.1 {
      StageLeavers(cfg, s);
      PreemptedStayOut(cfg, s);
      AdmitPhaseInv(cfg, w2);
      forall k | 0 <= k < |r.0.out| ensures NewAt(s, r.0.out, k) { NewWaited(cfg, s, r.0.s, r.0.out, Kept(cfg, s), r.0.preempted, k); }
    }
  }

  lemma NothingComplete()
    ensures AllComplete([])
  {
  }

  lemma Stage1Is(cfg: Config, s: Sched)
    requires cfg.blockSize > 0 && Wf(s)
    ensures Stage1(cfg, s) == RunPhase(cfg, Stage0(cfg, s), 0)
  {
  }

  lemma NewWaited(cfg: Config, s: Sched, s': Sched, out: seq<Item>, kept: seq<Id>, preempted: seq<Id>, k: nat)
    requires SInv(cfg, s, []) && SInv(cfg, s', out) && Accounted(s, s', out, |kept|) && SameTokens(s, s') && k < |out| <= |s'.running|
    requires out[k].id == s'.running[k] && kept <= s'.running
    requires forall id :: id in s.running && id !in kept ==> id in preempted
    requires forall id :: id in preempted ==> id !in s'.running
    ensures NewAt(s, out, k)
  {
    hide Rows, Filling, Items, Statuses, Bounded, Arrivals;
    var id := out[k].id;
    assert id in s'.running && id in s'.reqs.Keys;
    if k < |kept| { assert OldAt(s, s', s'.running[k]); } else { assert id !in kept; }
  }
}
