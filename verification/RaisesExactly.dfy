/** Exactly when schedule() raises its RuntimeError. */
module RaisesExactly {
  import opened Util
  import opened BlockManagerSpec
  import opened BlockManagerInv
  import opened AllocationInv
  import opened SchedulerSpec
  import opened SchedulerInv
  import opened SchedulePhases
  import opened AdmissionPhase
  import opened ScheduleStep
  import opened Progress

  /** The blocks the request at the head of the queue needs for its first chunk. */
  ghost function HeadBlocks(cfg: Config, w: Work): nat
    requires cfg.blockSize > 0 && Wf(w.s) && w.s.waiting != []
  {
    var id := w.s.waiting[0];
    assert id in w.s.waiting;
    var r := w.s.reqs[id];
    var g := GetComputed(w.s.kv, cfg.blockSize, r.Tokens());
    var n := AdmitTokens(cfg, r, g.2, w.budget);
    CeilDiv(g.2 + if n > 0 then n else 0, cfg.blockSize)
  }

  /** Phase 2 starts with nothing running, may admit, and the head needs more blocks than the pool has. */
  ghost predicate Stuck(cfg: Config, w: Work)
    requires cfg.blockSize > 0 && Wf(w.s)
  {
    Admitting(cfg, w) && w.s.running == [] && HeadBlocks(cfg, w) > PoolSize(w.s)
  }

  /** With nothing running, an admission fits exactly when the whole pool could hold it. */
  lemma FitsExactly(cfg: Config, w: Work)
    requires AInv(cfg, w) && Wf(w.s) && Admitting(cfg, w) && cfg.blockSize > 0 && w.s.running == []
    ensures AdmitFits(cfg, w) <==> HeadBlocks(cfg, w) <= PoolSize(w.s)
  {
    hide SInv, AInv, GetComputed, KvOk, MakeScheduled, KvShaped, CeilDiv, Leading, CacheFull;
    WhatAInvSays(cfg, w);
    HeadWaiting(cfg, w.s, w.out);
    AdmitStep(cfg, w.s, w.out, w.budget);
    var id := w.s.waiting[0];
    var r := w.s.reqs[id];
    NoTables(cfg, w.s, w.out, id);
    GetComputedKv(w.s.kv, cfg.blockSize, r.Tokens());
    var g := GetComputed(w.s.kv, cfg.blockSize, r.Tokens());
    var n := AdmitTokens(cfg, r, g.2, w.budget);
    FreeAlone(g.0, cfg.blockSize, g.1, id);
    EmptyRow(g.0, cfg.blockSize, id, r.Tokens());
    FreshCount(g.0, cfg.blockSize, id, r.Tokens(), 0, n, g.1);
    assert Total(cfg.blockSize, 0, n, g.1) == g.2 + n;
  }

  lemma WhatAInvSays(cfg: Config, w: Work)
    requires AInv(cfg, w)
    ensures SInv(cfg, w.s, w.out) && (w.s.running == [] ==> w.out == [])
  {
    hide SInv;
  }

  lemma AdmitRaises(cfg: Config, w: Work)
    requires AInv(cfg, w) && Wf(w.s) && cfg.blockSize > 0
    ensures !AdmitPhase(cfg, w).1 <==> Stuck(cfg, w)
  {
    hide SInv, AInv, AdmitFits, AdmitNext, HeadBlocks, KvShaped, AdmitPhase;
    WhatAInvSays(cfg, w);
    AdmitPhaseInv(cfg, w);
    MovedKeeps(cfg, w, AdmitPhase(cfg, w));
    if Admitting(cfg, w) {
      AdmitNextPhase(cfg, w);
      if w.s.running == [] {
        FitsExactly(cfg, w);
        if AdmitFits(cfg, w) {
          AdmitNextAInv(cfg, w);
          AdmitPhaseInv(cfg, AdmitNext(cfg, w));
          NextRuns(cfg, w);
          MovedKeeps(cfg, AdmitNext(cfg, w), AdmitPhase(cfg, AdmitNext(cfg, w)));
        }
      }
    } else {
      Idle(cfg, w);
    }
  }

  lemma Idle(cfg: Config, w: Work)
    requires cfg.blockSize > 0 && Wf(w.s) && !Admitting(cfg, w)
    ensures AdmitPhase(cfg, w) == (w, true)
  {
    hide KvShaped;
  }

  lemma NextRuns(cfg: Config, w: Work)
    requires cfg.blockSize > 0 && Wf(w.s) && w.s.waiting != []
    ensures AdmitNext(cfg, w).s.running != []
  {
    hide KvShaped, GetComputed, AllocateSlots, MakeScheduled;
  }

  lemma MovedKeeps(cfg: Config, w: Work, r: (Work, bool))
    requires AdmitDone(cfg, w, r)
    ensures w.s.running != [] ==> r.1
  {
    hide WInv, SameTokens;
  }

  /** schedule() raises exactly when phase 2 begins with nothing running and the pool, even
      empty, is too small for the first chunk of the request at the head of the queue. */
  lemma ScheduleRaises(cfg: Config, s: Sched)
    requires SInv(cfg, s, []) && Wf(s) && cfg.maxBatched >= 0 && cfg.blockSize > 0
    ensures Schedule(cfg, s).1.None? <==> Stuck(cfg, Stage2(cfg, s))
  {
    hide SInv, Stuck, AInv, Stage2, Stage1, KvShaped, AdmitPhase, Schedule;
    ScheduleStages(cfg, s);
    Stage2Inv(cfg, s);
    AdmitRaises(cfg, Stage2(cfg, s));
  }

  // ------------------------------------------------------------------ read off the state before the call

  /** The blocks a waiting request needs for its first chunk. */
  ghost function FirstBlocks(cfg: Config, s: Sched, id: Id): nat
    requires cfg.blockSize > 0 && Wf(s) && id in s.reqs
  {
    var g := GetComputed(s.kv, cfg.blockSize, s.reqs[id].Tokens());
    var n := AdmitTokens(cfg, s.reqs[id], g.2, cfg.maxBatched);
    CeilDiv(g.2 + if n > 0 then n else 0, cfg.blockSize)
  }

  /** Somebody waits who may be admitted, and whoever is first in rank order does not fit the pool. */
  ghost predicate TooTight(cfg: Config, s: Sched)
    requires cfg.blockSize > 0 && Wf(s)
  {
    s.waiting != [] && cfg.maxBatched > 0 && cfg.maxNumSeqs > 0 && FirstBlocks(cfg, s, Sort(s.reqs, s.waiting)[0]) > PoolSize(s)
  }

  lemma SortedStuck(cfg: Config, s: Sched, evicted: seq<Id>)
    requires cfg.blockSize > 0 && Wf(s) && s.running == []
    ensures var w := Work(s, cfg.maxBatched, [], evicted, false);
      Stuck(cfg, SortPhase(RunPhase(cfg, w, 0))) <==> TooTight(cfg, s)
  {
    hide KvShaped, GetComputed;
    var w := Work(s, cfg.maxBatched, [], evicted, false);
    assert RunPhase(cfg, w, 0) == w;
  }

  /** A running request that is left, or one lost to block pressure, keeps the call from raising. */
  lemma NotStuck(cfg: Config, w: Work)
    requires cfg.blockSize > 0 && Wf(w.s) && (w.blocked || w.s.running != [])
    ensures !Stuck(cfg, SortPhase(w))
  {
    hide KvShaped, Sort;
  }

  lemma TrimmedRuns(w: Work, r: Work)
    requires Trimmed(w, r)
    ensures r.blocked || r.s.running == w.s.running
  {
  }

  /** schedule() raises if and only if priority eviction leaves nobody running and the first of
      the queue, in rank order, needs more blocks for its first chunk than the pool has. */
  lemma RaisesIff(cfg: Config, s: Sched)
    requires SInv(cfg, s, []) && Wf(s) && cfg.maxBatched >= 0 && cfg.blockSize > 0
    ensures var s0 := PreemptForPriority(cfg, s.(finished := [])).0;
      Schedule(cfg, s).1.None? <==> s0.running == [] && TooTight(cfg, s0)
  {
    hide SInv, Stuck, TooTight, KvShaped, Schedule, PreemptForPriority, RunPhase, SortPhase, RunDone;
    ScheduleRaises(cfg, s);
    var (s0, evicted) := PreemptForPriority(cfg, s.(finished := []));
    if s0.running == [] {
      SortedStuck(cfg, s0, evicted);
    } else {
      Stage0Inv(cfg, s);
      Stage1Inv(cfg, s);
      RunDoneTrimmed(cfg, Stage0(cfg, s), Stage1(cfg, s));
      TrimmedRuns(Stage0(cfg, s), Stage1(cfg, s));
      NotStuck(cfg, Stage1(cfg, s));
    }
  }

  /** With nobody running there is nobody to evict. */
  lemma IdleRaisesIff(cfg: Config, s: Sched)
    requires SInv(cfg, s, []) && Wf(s) && cfg.maxBatched >= 0 && cfg.blockSize > 0 && s.running == []
    ensures Wf(s.(finished := []))
    ensures Schedule(cfg, s).1.None? <==> TooTight(cfg, s.(finished := []))
  {
    hide SInv, TooTight, KvShaped, Schedule;
    RaisesIff(cfg, s);
    NobodyToEvict(cfg, s.(finished := []));
  }

  lemma NobodyToEvict(cfg: Config, s: Sched)
    requires Wf(s) && s.running == []
    ensures PreemptForPriority(cfg, s) == (s, [])
  {
    hide KvShaped;
  }
}
