/** The termination measure of the step loop, and its decrease in every step. */
module Draining {
  import opened Util
  import opened Hashing
  import opened BlockManagerSpec
  import opened BlockManagerInv
  import opened RequestSpec
  import opened SchedulerSpec
  import opened SchedulerInv
  import opened SchedulePhases
  import opened ScheduleStep
  import opened UpdateStep
  import opened Progress

  /** Output tokens a request may still produce. */
  function Left(cfg: Config, r: Req): nat {
    var n := OutputCap(r, cfg.maxModelLen) - |r.output|;
    if n > 0 then n else 0
  }

  ghost function SumLeft(cfg: Config, reqs: map<Id, Req>, ids: set<Id>): nat
    requires ids <= reqs.Keys
  {
    if ids == {} then 0
    else
      var x :| x in ids;
      Left(cfg, reqs[x]) + SumLeft(cfg, reqs, ids - {x})
  }

  lemma {:induction false} SumSplit(cfg: Config, reqs: map<Id, Req>, ids: set<Id>, x: Id)
    requires ids <= reqs.Keys && x in ids
    ensures SumLeft(cfg, reqs, ids) == Left(cfg, reqs[x]) + SumLeft(cfg, reqs, ids - {x})
    decreases ids
  {
    hide Left;
    var y :| y in ids && SumLeft(cfg, reqs, ids) == Left(cfg, reqs[y]) + SumLeft(cfg, reqs, ids - {y});
    if y != x {
      SumSplit(cfg, reqs, ids - {y}, x);
      SumSplit(cfg, reqs, ids - {x}, y);
      assert ids - {y} - {x} == ids - {x} - {y};
    }
  }

  /** Fewer requests, each with no more left: the sum does not grow, and shrinks if one of
      them lost something. */
  lemma {:induction false} SumMono(cfg: Config, reqs: map<Id, Req>, ids: set<Id>, reqs': map<Id, Req>, ids': set<Id>)
    requires ids <= reqs.Keys && ids' <= reqs'.Keys && ids' <= ids
    requires forall x :: x in ids' ==> Left(cfg, reqs'[x]) <= Left(cfg, reqs[x])
    ensures SumLeft(cfg, reqs', ids') <= SumLeft(cfg, reqs, ids)
    ensures forall x :: x in ids && (x in ids' ==> Left(cfg, reqs'[x]) < Left(cfg, reqs[x])) && Left(cfg, reqs[x]) > 0 ==>
      SumLeft(cfg, reqs', ids') < SumLeft(cfg, reqs, ids)
    decreases ids
  {
    hide Left;
    if ids != {} {
      var y :| y in ids;
      SumSplit(cfg, reqs, ids, y);
      if y in ids' { SumSplit(cfg, reqs', ids', y); } else { assert ids' - {y} == ids'; }
      SumMono(cfg, reqs, ids - {y}, reqs', ids' - {y});
    }
  }

  /** First component: output tokens all live requests may still produce. */
  ghost function OutLeft(cfg: Config, s: Sched): nat {
    SumLeft(cfg, s.reqs, s.reqs.Keys)
  }

  /** Second component: live requests that outrank the first running one. */
  ghost function Above(s: Sched): nat {
    if s.running == [] || s.running[0] !in s.reqs then |s.reqs.Keys|
    else |Better(s, s.running[0])|
  }

  ghost function Better(s: Sched, h: Id): set<Id>
    requires h in s.reqs
  {
    set id | id in s.reqs && Outranks(s.reqs[id], s.reqs[h])
  }

  /** Third component: tokens the first running request has left to compute. */
  ghost function HeadLeft(s: Sched): nat {
    if s.running == [] || s.running[0] !in s.reqs then 0
    else
      var r := s.reqs[s.running[0]];
      if r.computed <= r.NumTokens() then r.NumTokens() - r.computed else 0
  }

  /** Lexicographic decrease. */
  ghost predicate Smaller(cfg: Config, s: Sched, s': Sched) {
    || OutLeft(cfg, s') < OutLeft(cfg, s)
    || (OutLeft(cfg, s') == OutLeft(cfg, s) && Above(s') < Above(s))
    || (OutLeft(cfg, s') == OutLeft(cfg, s) && Above(s') == Above(s) && HeadLeft(s') < HeadLeft(s))
  }

  // ------------------------------------------------------------------ the update's effect

  /** One item never adds output left; a sampling item takes some away. */
  lemma UpdateOneLeft(cfg: Config, s: Sched, it: Item, rest: seq<Item>, sampled: map<Id, Token>)
    requires SInv(cfg, s, [it] + rest) && (it.doSample ==> it.id in sampled)
    requires Settled(s) && it.id !in s.waiting
    ensures OutLeft(cfg, UpdateOne(cfg, s, it, sampled).0) <= OutLeft(cfg, s)
    ensures it.doSample ==> OutLeft(cfg, UpdateOne(cfg, s, it, sampled).0) < OutLeft(cfg, s)
  {
    hide Rows, Filling, Arrivals, SlotCap, Items, CheckStop, KvShaped, SumLeft;
    AdvanceFactsOf(cfg, s, it, rest);
    var s1 := UpdateOne(cfg, s, it, sampled).0;
    assert Left(cfg, s.reqs[it.id]) > 0;
    SumMono(cfg, s.reqs, s.reqs.Keys, s1.reqs, s1.reqs.Keys);
  }

  lemma AdvanceFactsOf(cfg: Config, s: Sched, it: Item, rest: seq<Item>)
    requires SInv(cfg, s, [it] + rest)
    ensures it.id in s.reqs && it.id in s.running && s.reqs[it.id].status == Running
  {
    hide KvOk, RowOk, Filling, Bounded, Arrivals;
    FreshTail(s, it, rest);
    assert StatusOk(s, it.id);
  }

  lemma {:induction false} UpdateLeft(cfg: Config, s: Sched, items: seq<Item>, sampled: map<Id, Token>)
    requires SInv(cfg, s, items)
    requires Settled(s) && forall it :: it in items ==> it.id !in s.waiting && (it.doSample ==> it.id in sampled)
    ensures OutLeft(cfg, Update(cfg, s, items, sampled).0) <= OutLeft(cfg, s)
    ensures (exists k :: 0 <= k < |items| && items[k].doSample) ==> OutLeft(cfg, Update(cfg, s, items, sampled).0) < OutLeft(cfg, s)
    decreases |items|
  {
    hide SInv, UpdateOne, KvShaped, OutLeft;
    if items != [] {
      var it, rest := items[0], items[1..];
      assert items == [it] + rest;
      assert it in items && forall x :: x in rest ==> x in items;
      UpdateOneInv(cfg, s, it, rest, sampled);
      UpdateOneLeft(cfg, s, it, rest, sampled);
      UpdateLeft(cfg, UpdateOne(cfg, s, it, sampled).0, rest, sampled);
    }
  }

  /** What the update does when no item samples: it advances computed counts. */
  ghost predicate OnlyAdvanced(s: Sched, items: seq<Item>, s': Sched) {
    && s' == s.(reqs := s'.reqs) && s'.reqs.Keys == s.reqs.Keys
    && (forall id :: id in s.reqs ==> s'.reqs[id] == s.reqs[id].(computed := s'.reqs[id].computed))
    && (forall id :: id in s.reqs && Fresh(items, id) ==> s'.reqs[id] == s.reqs[id])
    && (forall k :: 0 <= k < |items| && items[k].id in s.reqs ==> s'.reqs[items[k].id].computed == s.reqs[items[k].id].computed + |items[k].chunk|)
  }

  ghost predicate NoDuplicates(items: seq<Item>) {
    forall i, j :: 0 <= i < j < |items| ==> items[i].id != items[j].id
  }

  lemma OneAdvanced(s: Sched, items: seq<Item>, s1: Sched, s': Sched)
    requires items != [] && NoDuplicates(items) && items[0].id in s.reqs
    requires s1 == s.(reqs := s.reqs[items[0].id := s.reqs[items[0].id].(computed := s.reqs[items[0].id].computed + |items[0].chunk|)])
    requires OnlyAdvanced(s1, items[1..], s')
    ensures OnlyAdvanced(s, items, s')
  {
    var it, rest := items[0], items[1..];
    forall k | 0 <= k < |rest| ensures rest[k].id != it.id { assert rest[k] == items[k + 1]; }
    assert Fresh(rest, it.id);
    forall id | id in s.reqs && Fresh(items, id) ensures s'.reqs[id] == s.reqs[id] {
      assert items[0].id != id;
      forall k | 0 <= k < |rest| ensures rest[k].id != id { assert rest[k] == items[k + 1]; }
      assert Fresh(rest, id);
    }
    forall k | 0 <= k < |items| && items[k].id in s.reqs
      ensures s'.reqs[items[k].id].computed == s.reqs[items[k].id].computed + |items[k].chunk|
    {
      if k > 0 { assert items[k] == rest[k - 1]; }
    }
  }

  lemma NoneAdvanced(s: Sched)
    ensures OnlyAdvanced(s, [], s)
  {
  }

  lemma UpdateOnePlain(cfg: Config, s: Sched, it: Item, sampled: map<Id, Token>)
    requires Settled(s) && it.id !in s.waiting && !it.doSample
    requires it.id in s.reqs && !s.reqs[it.id].status.Finished()
    ensures UpdateOne(cfg, s, it, sampled).0 == s.(reqs := s.reqs[it.id := s.reqs[it.id].(computed := s.reqs[it.id].computed + |it.chunk|)])
  {
  }

  /** Without a sampling item the update only advances computed counts. */
  lemma {:induction false} UpdatePlain(cfg: Config, s: Sched, items: seq<Item>, sampled: map<Id, Token>)
    requires Settled(s) && forall it :: it in items ==> it.id !in s.waiting && !it.doSample
    requires forall id :: id in s.reqs ==> !s.reqs[id].status.Finished()
    requires NoDuplicates(items) && forall k :: 0 <= k < |items| ==> items[k].id in s.reqs
    ensures OnlyAdvanced(s, items, Update(cfg, s, items, sampled).0)
    decreases |items|
  {
    hide KvShaped, UpdateOne, OnlyAdvanced;
    if items == [] {
      NoneAdvanced(s);
    } else {
      var it, rest := items[0], items[1..];
      assert it in items && forall x :: x in rest ==> x in items;
      UpdateOnePlain(cfg, s, it, sampled);
      var s1 := UpdateOne(cfg, s, it, sampled).0;
      forall i, j | 0 <= i < j < |rest| ensures rest[i].id != rest[j].id { assert items[i + 1].id != items[j + 1].id; }
      forall k | 0 <= k < |rest| ensures rest[k].id in s1.reqs { assert items[k + 1] == rest[k]; }
      UpdatePlain(cfg, s1, rest, sampled);
      OneAdvanced(s, items, s1, Update(cfg, s, items, sampled).0);
    }
  }

  // ------------------------------------------------------------------ the step

  /** Same requests, as far as rank and remaining output go. */
  ghost predicate SameShares(cfg: Config, s: Sched, s': Sched) {
    && s'.reqs.Keys == s.reqs.Keys
    && forall id :: id in s.reqs ==>
         && s'.reqs[id].priority == s.reqs[id].priority && s'.reqs[id].arrival == s.reqs[id].arrival
         && Left(cfg, s'.reqs[id]) == Left(cfg, s.reqs[id])
  }

  lemma SharesSame(cfg: Config, s: Sched, s': Sched)
    requires SameShares(cfg, s, s')
    ensures OutLeft(cfg, s') == OutLeft(cfg, s)
  {
    hide Left;
    SumMono(cfg, s.reqs, s.reqs.Keys, s'.reqs, s'.reqs.Keys);
    SumMono(cfg, s'.reqs, s'.reqs.Keys, s.reqs, s.reqs.Keys);
  }

  lemma ScheduleShares(cfg: Config, s: Sched, s': Sched)
    requires SameTokens(s, s')
    ensures SameShares(cfg, s, s')
  {
    forall id | id in s.reqs
      ensures s'.reqs[id].priority == s.reqs[id].priority && s'.reqs[id].arrival == s.reqs[id].arrival
      ensures Left(cfg, s'.reqs[id]) == Left(cfg, s.reqs[id])
    {
      RankSame(s, s', id);
      assert s'.reqs[id].(status := Running, computed := 0).params == s'.reqs[id].params;
      assert s.reqs[id].(status := Running, computed := 0).params == s.reqs[id].params;
    }
  }

  lemma AdvanceShares(cfg: Config, s: Sched, items: seq<Item>, s': Sched)
    requires OnlyAdvanced(s, items, s')
    ensures SameShares(cfg, s, s')
  {
    forall id | id in s.reqs ensures s'.reqs[id] == s.reqs[id].(computed := s'.reqs[id].computed) {}
  }

  /** No sampling item: the head advanced, or a higher-ranked request took its place. */
  lemma PlainStepDrains(cfg: Config, s: Sched, s': Sched, items: seq<Item>, s'': Sched)
    requires SameShares(cfg, s, s') && HeadMoves(s, s') && OnlyAdvanced(s', items, s'')
    requires items != [] && items[0].id == s'.running[0] && |items[0].chunk| > 0
    requires s'.reqs[s'.running[0]].computed + |items[0].chunk| <= s'.reqs[s'.running[0]].NumTokens()
    ensures Smaller(cfg, s, s'')
  {
    hide Left, OutLeft;
    AdvanceShares(cfg, s', items, s'');
    SharesSame(cfg, s, s');
    SharesSame(cfg, s', s'');
    var h := s'.running[0];
    assert h !in Better(s'', h) && Better(s'', h) <= s''.reqs.Keys;
    if s.running == [] {
      Fewer(Better(s'', h), s.reqs.Keys, h);
    } else if h == s.running[0] && s'.reqs[h] == s.reqs[h] {
      assert Better(s'', h) == Better(s, h);
    } else {
      assert Better(s'', h) <= Better(s, s.running[0]);
      Fewer(Better(s'', h), Better(s, s.running[0]), h);
    }
  }

  lemma Fewer(a: set<Id>, b: set<Id>, x: Id)
    requires a <= b && x in b && x !in a
    ensures |a| < |b|
  {
    assert b == a + (b - a);
    assert x in b - a;
  }

  /** The head is served in every step that starts with work, and schedule() never raises. */
  lemma HeadAlwaysMoves(cfg: Config, s: Sched)
    requires SInv(cfg, s, []) && Wf(s) && cfg.maxBatched > 0 && cfg.blockSize > 0 && Fits(cfg, s) && cfg.maxNumSeqs >= 1
    requires HasUnfinished(s)
    ensures var (s', o) := Schedule(cfg, s);
      o.Some? && o.value.scheduled != [] && HeadMoves(s, s') && o.value.scheduled[0].id == s'.running[0]
  {
    hide SInv, KvShaped, Stage2, Stage0, AdmitPhase, Fits, HeadMoves, Evicts, Schedule;
    ScheduleStages(cfg, s);
    Stage0Running(cfg, s);
    if Stage0(cfg, s).s.running == [] {
      HeadFromQueue(cfg, s);
    } else {
      NoneToEvict(cfg, s);
      HeadFromRunning(cfg, s);
    }
  }

  lemma NoneToEvict(cfg: Config, s: Sched)
    requires Wf(s) && Stage0(cfg, s).s.running == (if Evicts(cfg, s) then Remove(s.running, Lowest(s.reqs, s.running)) else s.running)
    requires Stage0(cfg, s).s.running != []
    ensures s.running != []
  {
  }

  lemma ItemsFine(cfg: Config, s: Sched, items: seq<Item>)
    requires SInv(cfg, s, items)
    ensures Settled(s) && NoDuplicates(items)
    ensures forall it :: it in items ==> it.id !in s.waiting
    ensures forall k :: 0 <= k < |items| ==>
      && items[k].id in s.reqs && |items[k].chunk| > 0
      && s.reqs[items[k].id].computed + |items[k].chunk| <= s.reqs[items[k].id].NumTokens()
    ensures forall id :: id in s.reqs ==> !s.reqs[id].status.Finished()
  {
    hide Rows, Filling, Bounded, Arrivals, SlotCap;
    forall k | 0 <= k < |items| ensures items[k].id !in s.waiting && items[k].id in s.reqs && |items[k].chunk| > 0
      && s.reqs[items[k].id].computed + |items[k].chunk| <= s.reqs[items[k].id].NumTokens() { assert ItemOk(s, items[k]); }
    forall id | id in s.reqs ensures !s.reqs[id].status.Finished() { assert StatusOk(s, id); }
    ListsOf(cfg, s, items);
  }

  /** Every step that starts with work makes the measure smaller. */
  lemma StepDrains(cfg: Config, s: Sched, sampled: map<Id, Token>)
    requires SInv(cfg, s, []) && Wf(s) && cfg.maxBatched > 0 && cfg.blockSize > 0 && Fits(cfg, s) && cfg.maxNumSeqs >= 1
    requires HasUnfinished(s)
    requires Schedule(cfg, s).1.Some? ==>
      forall it :: it in Schedule(cfg, s).1.value.scheduled && it.doSample ==> it.id in sampled
    ensures var (s', o) := Schedule(cfg, s);
      && o.Some? && Settled(s') && (forall it :: it in o.value.scheduled ==> it.id !in s'.waiting)
      && Smaller(cfg, s, Update(cfg, s', o.value.scheduled, sampled).0)
  {
    hide SInv, KvShaped, Schedule, Fits, HeadMoves, Update, OutLeft, Above, HeadLeft, OnlyAdvanced, SameTokens, AllButLast;
    HeadAlwaysMoves(cfg, s);
    ScheduleInv(cfg, s);
    var s', items := Schedule(cfg, s).0, Schedule(cfg, s).1.value.scheduled;
    ItemsFine(cfg, s', items);
    ScheduleShares(cfg, s, s');
    if exists k :: 0 <= k < |items| && items[k].doSample {
      SharesSame(cfg, s, s');
      UpdateLeft(cfg, s', items, sampled);
    } else {
      UpdatePlain(cfg, s', items, sampled);
      HeadKnown(s, s');
      PlainStepDrains(cfg, s, s', items, Update(cfg, s', items, sampled).0);
    }
  }

  lemma HeadKnown(s: Sched, s': Sched)
    requires HeadMoves(s, s')
    ensures s'.running != [] && s'.running[0] in s'.reqs
  {
  }
}
