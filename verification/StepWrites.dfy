/** What a step may overwrite: nothing that was computed before it. */
module StepWrites {
  import opened BlockPoolSpec
  import opened BlockManagerSpec
  import opened SchedulerSpec
  import opened SchedulerInv
  import opened Sharing
  import opened AdmissionPhase
  import opened ScheduleStep
  import opened LabelInv
  import opened WriteLabels

  lemma ScheduleSharing(cfg: Config, s: Sched)
    requires SInv(cfg, s, []) && Wf(s) && cfg.maxBatched >= 0 && cfg.blockSize > 0 && Schedule(cfg, s).1.Some?
    ensures var (s', o) := Schedule(cfg, s);
      SInv(cfg, s', o.value.scheduled) && LateSharing(cfg.blockSize, s', o.value.scheduled)
  {
    hide SInv, LateSharing, KvShaped, Stage2, AdmitPhase, Schedule;
    ScheduleStages(cfg, s);
    Stage2Inv(cfg, s);
    AdmitPhaseInv(cfg, Stage2(cfg, s));
  }

  /** Place (b, o) is written in this step for t although running request a counts it as
      computed. Then a is another request, admitted in this very step on the strength of the
      block t is filling: nothing computed before the step is overwritten. */
  lemma WrittenNotComputed(cfg: Config, s: Sched, b: BlockId, o: nat, t: Id, j: nat, a: Id, i: nat)
    requires SInv(cfg, s, []) && Wf(s) && cfg.maxBatched >= 0 && cfg.blockSize > 0 && Schedule(cfg, s).1.Some? && o < cfg.blockSize
    requires PendingAt(Schedule(cfg, s).0, Schedule(cfg, s).1.value.scheduled, cfg.blockSize, b, o, t, j)
    requires var s' := Schedule(cfg, s).0;
      && a in s'.running && a in s'.reqs && i < |TableOf(s'.kv, a)| && TableOf(s'.kv, a)[i] == b
      && i * cfg.blockSize + o < s'.reqs[a].computed
    ensures a != t && i == j && NewIn(Schedule(cfg, s).1.value.scheduled, a)
  {
    hide SInv, Schedule, NewIn, KvShaped;
    var s', out := Schedule(cfg, s).0, Schedule(cfg, s).1.value.scheduled;
    ScheduleSharing(cfg, s);
    PendingNotComputed(cfg, s', out, b, o, t, j, a, i);
    assert SharedAt(s'.kv, a, t, i);
    assert (i + 1) * cfg.blockSize == i * cfg.blockSize + cfg.blockSize;
    assert Unfilled(s', cfg.blockSize, t, i);
  }
}
