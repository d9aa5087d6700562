/** inferneo/engine/scheduler.py: the scheduler object, each method proved against its
    function on values. The queues list request ids, which are unique among live requests;
    sorted(), max() and min() are the functions that specify them. */
module SchedulerImpl {
  import opened Util
  import opened Hashing
  import opened BlockPoolSpec
  import opened BlockManagerSpec
  import opened BlockManagerInv
  import opened BlockManagerImpl
  import opened RequestSpec
  import opened RequestImpl
  import opened SchedulerSpec
  import opened SchedulerInv
  import opened SchedulePhases
  import opened AdmissionPhase
  import opened ScheduleStep
  import opened UpdateStep

  class Scheduler {
    const cfg: Config
    const kv: KVCacheManager
    var requests: map<Id, EngineRequest>
    var waiting: seq<Id>
    var running: seq<Id>
    /** Finished or aborted since the last Schedule(). */
    var newlyFinished: seq<Id>

    function Reqs(): map<Id, Req>
      reads this`requests, requests.Values
    {
      map id | id in requests :: requests[id].View()
    }

    ghost function View(): Sched
      reads this, requests.Values, kv, kv.pool, kv.pool.blocks
    {
      Sched(Reqs(), waiting, running, newlyFinished, kv.View())
    }

    ghost predicate Valid()
      reads this, requests.Values, kv, kv.pool, kv.pool.blocks
    {
      && kv.Valid() && kv.blockSize == cfg.blockSize > 0
      && (forall id :: id in requests ==> requests[id].requestId == id)
      && Wf(View())
    }

    constructor (config: Config, manager: KVCacheManager)
      requires manager.Valid() && manager.blockSize == config.blockSize > 0
      ensures Valid() && cfg == config && kv == manager && requests == map[]
      ensures View() == Sched(map[], [], [], [], manager.View())
    {
      cfg, kv := config, manager;
      requests, waiting, running, newlyFinished := map[], [], [], [];
    }

    /** add_request: false is the source's duplicate-id error. */
    method AddRequest(req: EngineRequest) returns (ok: bool)
      requires Valid()
      modifies this
      ensures Valid()
      ensures var r := SchedulerSpec.AddRequest(old(View()), req.requestId, old(req.View()));
        ok == r.Some? && View() == if ok then r.value else old(View())
      ensures requests == if ok then old(requests)[req.requestId := req] else old(requests)
    {
      if req.requestId in requests {
        return false;
      }
      ghost var s := View();
      requests := requests[req.requestId := req];
      waiting := waiting + [req.requestId];
      assert Reqs() == s.reqs[req.requestId := req.View()];
      ok := true;
    }

    function HasUnfinished(): (b: bool)
      reads this, requests.Values, kv, kv.pool, kv.pool.blocks
      ensures b == SchedulerSpec.HasUnfinished(View())
    {
      waiting != [] || running != []
    }

    /** _finish */
    method Finish(id: Id, status: Status)
      requires Valid() && id in requests && id !in waiting && id !in running
      modifies this, requests[id]
      ensures Valid() && requests == old(requests) - {id}
      ensures View() == SchedulerSpec.Finish(old(View()), id)
      ensures old(requests[id]).status == status && old(requests[id]).View() == old(requests[id].View()).(status := status)
    {
      ghost var s := View();
      requests[id].status := status;
      newlyFinished := newlyFinished + [id];
      requests := requests - {id};
      assert Reqs() == s.reqs - {id};
    }

    /** abort: any id, live or not. */
    method Abort(id: Id)
      requires Valid() && SInv(cfg, View(), [])
      modifies this, requests.Values, kv, kv.pool, kv.pool.blocks
      ensures Valid() && requests == old(requests) - {id}
      ensures View() == SchedulerSpec.Abort(old(View()), id)
    {
      hide SInv, KvShaped, KvOk, FreeRequest, kv.View, kv.Valid;
      if id in requests {
        LiveFacts(cfg, View(), [], id);
      }
      if id !in requests || requests[id].status.Finished() {
        assert id !in View().reqs;
        assert requests - {id} == requests;
        return;
      }
      ghost var s := View();
      var req := requests[id];
      if req.status == Running {
        running := Remove(running, id);
        kv.Free(req);
      } else {
        waiting := Remove(waiting, id);
      }
      assert Reqs() == s.reqs;
      Finish(id, FinishedAborted);
    }

    /** _preempt */
    method Preempt(id: Id)
      requires Valid() && id in requests
      requires KvOk(kv.View(), cfg.blockSize, []) && Distinct(TableOf(kv.View(), id))
      modifies this`waiting, requests[id], kv, kv.pool, kv.pool.blocks
      ensures Valid()
      ensures View() == SchedulerSpec.Preempt(old(View()), id)
    {
      hide KvShaped, KvOk, FreeRequest, kv.View, kv.Valid;
      ghost var s := View();
      kv.Free(requests[id]);
      assert Reqs() == s.reqs;
      assert View() == s.(kv := FreeRequest(s.kv, id));
      Requeue(id);
    }

    /** A preempted request starts over at the back of the queue. */
    method Requeue(id: Id)
      requires Valid() && id in requests
      modifies this`waiting, requests[id]
      ensures Valid()
      ensures var s := old(View());
        View() == s.(reqs := s.reqs[id := s.reqs[id].(status := Preempted, computed := 0)], waiting := s.waiting + [id])
    {
      hide KvShaped, kv.View, kv.Valid;
      ghost var s := View();
      requests[id].status := Preempted;
      requests[id].numComputedTokens := 0;
      waiting := waiting + [id];
      assert Reqs() == s.reqs[id := s.reqs[id].(status := Preempted, computed := 0)];
    }

    /** A running request leaves its slot and is preempted. */
    method Evict(victim: Id, ghost out: seq<Item>)
      requires Valid() && SInv(cfg, View(), out) && victim in running
      modifies this`waiting, this`running, requests.Values, kv, kv.pool, kv.pool.blocks
      ensures Valid()
      ensures View() == SchedulerSpec.Preempt(old(View()).(running := Remove(old(running), victim)), victim)
    {
      hide SInv, KvShaped, KvOk, FreeRequest, kv.View, kv.Valid;
      ghost var s := View();
      LiveFacts(cfg, s, out, victim);
      SetRunning(Remove(running, victim));
      Preempt(victim);
    }

    /** The most recently admitted running request is preempted. */
    method PopLast(ghost out: seq<Item>) returns (victim: Id)
      requires Valid() && SInv(cfg, View(), out) && View().running != []
      modifies this`waiting, this`running, requests.Values, kv, kv.pool, kv.pool.blocks
      ensures Valid()
      ensures var s := old(View());
        && victim == s.running[|s.running| - 1]
        && View() == SchedulerSpec.Preempt(s.(running := s.running[..|s.running| - 1]), victim)
    {
      hide SInv, KvShaped, KvOk, FreeRequest, kv.View, kv.Valid;
      ghost var s := View();
      victim := running[|running| - 1];
      LiveFacts(cfg, s, out, victim);
      SetRunning(running[..|running| - 1]);
      Preempt(victim);
    }

    /** Some of the running requests go on running. */
    method SetRunning(rest: seq<Id>)
      requires Valid() && forall id :: id in rest ==> id in running
      modifies this`running
      ensures Valid() && View() == old(View()).(running := rest) && requests == old(requests)
    {
      hide KvShaped, kv.View, kv.Valid;
      running := rest;
    }

    /** PopLast, as a step of schedule's working state. */
    method PopFor(ghost w: Work) returns (victim: Id)
      requires Valid() && WInv(cfg, w) && w.s == View() && |w.out| < |w.s.running| && Wf(w.s)
      modifies this`waiting, this`running, requests.Values, kv, kv.pool, kv.pool.blocks
      ensures Valid() && victim == w.s.running[|w.s.running| - 1] && View() == PopVictim(w).s
    {
      hide SInv, KvShaped, SchedulerSpec.Preempt, View, Valid, BudgetKept, ServedInOrder, PopVictim;
      PopVictimIs(w);
      victim := PopLast(w.out);
    }

    /** One call of allocate_slots on a known request. */
    method TryAllocate(id: Id, n: nat, hits: seq<BlockId>) returns (got: Option<seq<BlockId>>)
      requires Valid() && id in View().reqs
      requires InPool(View().kv.pool, hits) && KvOk(View().kv, cfg.blockSize, hits)
      requires TableOf(View().kv, id) == [] || hits == []
      modifies kv, kv.pool, kv.pool.blocks
      ensures Valid()
      ensures var r := old(View()).reqs[id];
        var a := BlockManagerSpec.AllocateSlots(old(View()).kv, cfg.blockSize, id, r.Tokens(), r.computed, n, hits);
        View() == old(View()).(kv := a.0) && got == a.1
    {
      hide KvShaped, KvOk, BlockManagerSpec.AllocateSlots, kv.View, kv.Valid;
      ghost var s := View();
      got := kv.AllocateSlots(requests[id], n, hits);
      assert Reqs() == s.reqs;
    }

    /** _preempt_for_priority: phase 0 of schedule. */
    method PreemptForPriority() returns (preempted: seq<Id>)
      requires Valid() && SInv(cfg, View(), [])
      modifies this`waiting, this`running, requests.Values, kv, kv.pool, kv.pool.blocks
      ensures Valid()
      ensures (View(), preempted) == SchedulerSpec.PreemptForPriority(cfg, old(View()))
    {
      hide SInv, KvShaped, KvOk, FreeRequest, kv.View, kv.Valid, Lowest, Top, MinPriority;
      preempted := [];
      if waiting == [] {
        return;
      }
      ghost var s0 := View();
      var top := Top(Reqs(), waiting);
      while |running| >= cfg.maxNumSeqs && running != [] && requests[top].priority > MinPriority(Reqs(), running)
        invariant Valid() && SInv(cfg, View(), []) && top in requests
        invariant EvictLoop(cfg, View(), top, preempted) == EvictLoop(cfg, s0, top, [])
        decreases |running|
      {
        ghost var s := View();
        var victim := Lowest(Reqs(), running);
        EvictedInv(cfg, s);
        Evict(victim, []);
        preempted := preempted + [victim];
        assert View() == Evicted(s);
      }
    }

    /** _make_scheduled */
    function MakeScheduled(id: Id, n: nat, isNew: bool): (it: Item)
      requires kv.Valid() && id in requests
      reads this, requests.Values, kv, kv.pool, kv.pool.blocks
      ensures it == SchedulerSpec.MakeScheduled(View(), id, n, isNew)
    {
      var r := requests[id];
      Item(id, Slice(r.AllTokenIds(), r.numComputedTokens, r.numComputedTokens + n), r.numComputedTokens,
           kv.GetBlockIds(id), r.numComputedTokens + n == r.NumTokens(), isNew,
           if isNew then Some(r.samplingParams) else None,
           if isNew then |r.promptTokenIds| else 0,
           if isNew then Slice(r.AllTokenIds(), 0, r.numComputedTokens) else [])
    }

    /** The inner loop of phase 1: slots for id, preempting from the back of the running list. */
    method AllocateOrPreempt(id: Id, n: nat, preempted0: seq<Id>, blocked0: bool, ghost w0: Work)
        returns (ok: bool, preempted: seq<Id>, blocked: bool)
      requires Valid() && WInv(cfg, w0) && w0.s == View() && w0.preempted == preempted0 && w0.blocked == blocked0
      requires |w0.out| < |w0.s.running| && w0.s.running[|w0.out|] == id
      requires 0 < n && id in w0.s.reqs && w0.s.reqs[id].computed + n <= w0.s.reqs[id].NumTokens()
      modifies this`waiting, this`running, requests.Values, kv, kv.pool, kv.pool.blocks
      ensures Valid()
      ensures (w0.(s := View(), preempted := preempted, blocked := blocked), ok) == Squeeze(cfg, w0, id, n)
    {
      hide SInv, KvShaped, KvOk, BlockManagerSpec.AllocateSlots, SchedulerSpec.Preempt, kv.View, kv.Valid, BudgetKept, Squeezed,
           ServedInOrder, View, Valid, PopVictim;
      preempted, blocked := preempted0, blocked0;
      ghost var w := w0;
      ValidWf();
      while true
        invariant Valid() && WInv(cfg, w) && w.out == w0.out && w.budget == w0.budget
        invariant cfg.blockSize > 0 && Wf(w.s) && Wf(w0.s)
        invariant w == w0.(s := View(), preempted := preempted, blocked := blocked)
        invariant |w.out| < |w.s.running| && w.s.running[|w.out|] == id
        invariant id in w.s.reqs && w.s.reqs[id].computed + n <= w.s.reqs[id].NumTokens()
        invariant Squeeze(cfg, w, id, n) == Squeeze(cfg, w0, id, n)
        decreases |w.s.running|
      {
        FreshBeyond(cfg, w, |w.out|);
        GrantStep(cfg, w.s, w.out, id, n);
        LiveFacts(cfg, w.s, w.out, id);
        KnownRequest(id);
        var got := TryAllocate(id, n, []);
        if got.Some? {
          return true, preempted, blocked;
        }
        assert View() == w.s;
        PopVictimInv(cfg, w);
        ghost var w2 := PopVictim(w);
        SqueezeAgain(cfg, w, id, n);
        var victim := PopFor(w);
        preempted, blocked := preempted + [victim], true;
        ValidWf();
        if victim == id {
          return false, preempted, blocked;
        }
        PopFront(w, w2, id);
        w := w2;
      }
    }

    /** One round of phase 1: allocate for the next running request, preempting from the back if
        need be. */
    method ServeNext(idx: nat, budget: int, preempted0: seq<Id>, blocked0: bool, ghost w: Work)
        returns (n: int, it: Option<Item>, preempted: seq<Id>, blocked: bool)
      requires Valid() && WInv(cfg, w) && w == Work(View(), budget, w.out, preempted0, blocked0)
      requires idx == |w.out| < |running| && budget > 0 && AllComplete(w.out)
      modifies this`waiting, this`running, requests.Values, kv, kv.pool, kv.pool.blocks
      ensures Valid() && |running| <= old(|running|)
      ensures it.Some? ==> var w2 := Work(View(), budget - n, w.out + [it.value], preempted, blocked);
        && WInv(cfg, w2) && (w2.budget > 0 ==> AllComplete(w2.out))
        && RunPhase(cfg, w, |w.out|) == RunPhase(cfg, w2, |w.out| + 1)
      ensures it.None? ==> RunPhase(cfg, w, |w.out|) == Work(View(), budget, w.out, preempted, blocked)
    {
      hide SInv, WInv, KvShaped, KvOk, Squeeze, RunPhase, SchedulerSpec.MakeScheduled, kv.View, kv.Valid, AllComplete, AllButLast, Trimmed, Reqs, Fresh;
      RunPhaseStep(cfg, w);
      RunAgain(cfg, w, idx);
      var id := running[idx];
      assert id in w.s.running;
      KnownRequest(id);
      n := Min(requests[id].NumTokens() - requests[id].numComputedTokens, budget);
      // the source's assertion
      assert n > 0;
      FreshBeyond(cfg, w, idx);
      ghost var q := Squeeze(cfg, w, id, n);
      var ok;
      ok, preempted, blocked := AllocateOrPreempt(id, n, preempted0, blocked0, w);
      if !ok {
        return n, None, preempted, blocked;
      }
      KnownRequest(id);
      assert id in q.0.s.running;
      TrimmedShorter(w, Grant(q.0, id, n, false));
      it := Some(MakeScheduled(id, n, false));
    }

    /** Phase 1 of schedule: the running requests in list order. */
    method ServeRunning(budget0: int, preempted0: seq<Id>, ghost w0: Work)
        returns (budget: int, out: seq<Item>, preempted: seq<Id>, blocked: bool)
      requires Valid() && WInv(cfg, w0) && w0 == Work(View(), budget0, [], preempted0, false)
      modifies this`waiting, this`running, requests.Values, kv, kv.pool, kv.pool.blocks
      ensures Valid()
      ensures Work(View(), budget, out, preempted, blocked) == SchedulerSpec.RunPhase(cfg, w0, 0)
    {
      hide SInv, WInv, RunPhase, AllComplete, View, Valid;
      budget, out, preempted, blocked := budget0, [], preempted0, false;
      NothingServed();
      ValidWf();
      ghost var w := w0;
      while |out| < |running| && budget > 0
        invariant Valid() && WInv(cfg, w) && w == Work(View(), budget, out, preempted, blocked)
        invariant budget > 0 ==> AllComplete(out)
        invariant cfg.blockSize > 0 && Wf(w0.s) && Wf(w.s) && RunPhase(cfg, w, |out|) == RunPhase(cfg, w0, 0)
        decreases |running| - |out|
      {
        var n, it, pre, blk := ServeNext(|out|, budget, preempted, blocked, w);
        preempted, blocked := pre, blk;
        ValidWf();
        if it.None? {
          return;
        }
        budget, out := budget - n, out + [it.value];
        w := Work(View(), budget, out, preempted, blocked);
      }
      ViewRunning();
      RunStops(cfg, w, |out|);
    }

    /** get_computed_blocks on a known request. */
    method LookupPrefix(id: Id) returns (hits: seq<BlockId>, cached: nat)
      requires Valid() && id in requests && KvOk(kv.View(), cfg.blockSize, [])
      modifies kv, kv.pool, kv.pool.blocks
      ensures Valid()
      ensures var g := GetComputed(old(View()).kv, cfg.blockSize, old(View()).reqs[id].Tokens());
        View() == old(View()).(kv := g.0) && hits == g.1 && cached == g.2
    {
      hide KvShaped, KvOk, GetComputed, kv.View, kv.Valid;
      ghost var s := View();
      hits, cached := kv.GetComputedBlocks(requests[id]);
      assert Reqs() == s.reqs;
    }

    /** The head of the queue starts running with its cached tokens computed. */
    method StartHead(cached: nat)
      requires Valid() && waiting != []
      modifies this`waiting, this`running, requests.Values
      ensures Valid()
      ensures var s := old(View()); var id := s.waiting[0];
        View() == s.(waiting := s.waiting[1..], running := s.running + [id],
                     reqs := s.reqs[id := s.reqs[id].(status := Running, computed := cached)])
    {
      hide KvShaped, kv.View, kv.Valid;
      ghost var s := View();
      var id := waiting[0];
      assert id in waiting && forall x :: x in waiting[1..] ==> x in waiting;
      waiting := waiting[1..];
      requests[id].status := Running;
      requests[id].numComputedTokens := cached;
      running := running + [id];
      assert Reqs() == s.reqs[id := s.reqs[id].(status := Running, computed := cached)];
    }

    /** One round of phase 2: look the prefix up, allocate, and if that works start the head. */
    method AdmitHead(budget: int, ghost w: Work) returns (fits: bool, n: int, it: Option<Item>)
      requires Valid() && AInv(cfg, w) && w.s == View() && w.budget == budget && Admitting(cfg, w)
      modifies this`waiting, this`running, requests.Values, kv, kv.pool, kv.pool.blocks
      ensures Valid() && fits == AdmitFits(cfg, w) && fits == it.Some?
      ensures fits ==> AdmitNext(cfg, w) == w.(s := View(), budget := budget - n, out := w.out + [it.value])
      ensures !fits ==> View() == w.s.(kv := View().kv) && AdmitPhase(cfg, w) == (w.(s := View()), w.s.running != [] || w.out != [])
    {
      hide SInv, AInv, KvShaped, KvOk, GetComputed, BlockManagerSpec.AllocateSlots, AdmitPhase, SchedulerSpec.MakeScheduled, kv.View, kv.Valid,
           Reqs, AdmitNext, AdmitFits;
      var id := waiting[0];
      AdmitReady(cfg, w);
      AdmitNextIs(cfg, w);
      KnownRequest(id);
      var hits, cached := LookupPrefix(id);
      KnownRequest(id);
      n := requests[id].NumTokens() - cached;
      if cfg.threshold > 0 {
        n := Min(n, cfg.threshold);
      }
      n := Min(n, budget);
      // the source's assertion
      assert n > 0;
      var got := TryAllocate(id, n, hits);
      if got.None? {
        return false, n, None;
      }
      StartHead(cached);
      KnownRequest(id);
      fits, it := true, Some(MakeScheduled(id, n, true));
    }

    /** Phase 2 of schedule: admissions from the sorted queue. */
    method AdmitWaiting(budget0: int, out0: seq<Item>, preempted: seq<Id>, blocked: bool, ghost w0: Work)
        returns (out: seq<Item>, raised: bool)
      requires Valid() && AInv(cfg, w0) && w0 == Work(View(), budget0, out0, preempted, blocked)
      modifies this`waiting, this`running, requests.Values, kv, kv.pool, kv.pool.blocks
      ensures Valid()
      ensures var r := SchedulerSpec.AdmitPhase(cfg, w0); View() == r.0.s && out == r.0.out && raised == !r.1
    {
      hide SInv, AInv, KvShaped, KvOk, AdmitPhase, kv.View, kv.Valid, Reqs, AdmitNext, AdmitFits;
      var budget := budget0;
      out, raised := out0, false;
      ghost var w := w0;
      while !blocked && waiting != [] && budget > 0 && |running| < cfg.maxNumSeqs
        invariant Valid() && AInv(cfg, w)
        invariant w == Work(View(), budget, out, preempted, blocked)
        invariant AdmitPhase(cfg, w) == AdmitPhase(cfg, w0)
        decreases |waiting|
      {
        AdmitRound(cfg, w);
        var fits, n, it := AdmitHead(budget, w);
        if !fits {
          raised := running == [] && out == [];
          return;
        }
        budget := budget - n;
        out := out + [it.value];
        w := AdmitNext(cfg, w);
      }
      AdmitStops(cfg, w);
    }

    /** schedule(); None is the source's RuntimeError. */
    method Schedule() returns (r: Option<Output>)
      requires Valid() && SInv(cfg, View(), []) && cfg.maxBatched >= 0
      modifies this, requests.Values, kv, kv.pool, kv.pool.blocks
      ensures Valid() && requests == old(requests)
      ensures (View(), r) == SchedulerSpec.Schedule(cfg, old(View()))
    {
      hide SInv, WInv, AInv, Wf, KvOk, SchedulerSpec.PreemptForPriority, RunPhase, AdmitPhase, Sort, kv.View, kv.Valid, Reqs, RunDone, SameTokens, Evicts, Evicted, Lowest;
      ghost var s := View();
      var finished := newlyFinished;
      newlyFinished := [];
      assert View() == s.(finished := []);
      SInvFinished(cfg, s, []);
      Stage0Inv(cfg, s);
      Stage1Inv(cfg, s);
      Stage2Inv(cfg, s);
      var evicted := PreemptForPriority();
      ghost var w0 := Stage0(cfg, s);
      assert w0 == Work(View(), cfg.maxBatched, [], evicted, false);
      var budget, out, preempted, blocked := ServeRunning(cfg.maxBatched, evicted, w0);
      ghost var w1 := Stage1(cfg, s);
      assert w1 == Work(View(), budget, out, preempted, blocked);
      if !blocked && waiting != [] {
        SortQueue();
      }
      ghost var w2 := Stage2(cfg, s);
      assert w2 == Work(View(), budget, out, preempted, blocked);
      var all, raised := AdmitWaiting(budget, out, preempted, blocked, w2);
      AdmitKeepsPreempted(cfg, w2);
      r := if raised then None else Some(Output(all, preempted, finished));
    }

    /** waiting.sort */
    method SortQueue()
      requires Valid()
      modifies this`waiting
      ensures Valid()
      ensures View() == old(View()).(waiting := Sort(old(View()).reqs, old(View()).waiting))
    {
      hide KvShaped, kv.View, kv.Valid, Sort;
      ghost var s := View();
      waiting := Sort(Reqs(), waiting);
      assert Reqs() == s.reqs && kv.View() == s.kv;
    }

    /** update_from_output: the requests that produced a token, as they then are. */
    method UpdateFromOutput(items: seq<Item>, sampled: map<Id, Token>) returns (updated: seq<(Id, Req)>)
      requires Valid() && SInv(cfg, View(), items) && Settled(View())
      requires forall it :: it in items ==> it.id !in waiting && (it.doSample ==> it.id in sampled)
      modifies this, requests.Values, kv, kv.pool, kv.pool.blocks
      ensures Valid() && requests.Values <= old(requests.Values)
      ensures (View(), updated) == Update(cfg, old(View()), items, sampled)
    {
      hide SInv, KvShaped, KvOk, UpdateOne, kv.View, kv.Valid, Reqs;
      updated := [];
      ghost var s0 := View();
      UpdateStart(cfg, s0, items, sampled);
      for k := 0 to |items|
        invariant Valid() && SInv(cfg, View(), items[k..]) && Settled(View()) && waiting == old(waiting)
        invariant requests.Values <= old(requests.Values)
        invariant Updated(cfg, s0, items, sampled, View(), updated, items[k..])
      {
        var it := items[k];
        assert items[k..] == [it] + items[k + 1..];
        UpdateOneInv(cfg, View(), it, items[k + 1..], sampled);
        UpdateRound(cfg, s0, items, sampled, View(), updated, it, items[k + 1..]);
        var one := UpdateRequest(it, sampled, items[k + 1..]);
        updated := updated + one;
      }
      assert items[|items|..] == [];
      UpdateDone(cfg, s0, items, sampled, View(), updated);
    }

    /** One round of update_from_output. */
    method UpdateRequest(it: Item, sampled: map<Id, Token>, ghost rest: seq<Item>) returns (one: seq<(Id, Req)>)
      requires Valid() && SInv(cfg, View(), [it] + rest) && Settled(View())
      requires it.id !in waiting && (it.doSample ==> it.id in sampled)
      modifies this, requests.Values, kv, kv.pool, kv.pool.blocks
      ensures Valid() && requests.Values <= old(requests.Values)
      ensures (View(), one) == UpdateOne(cfg, old(View()), it, sampled)
    {
      hide SInv, KvShaped, KvOk, FreeRequest, kv.View, kv.Valid, RequestSpec.CheckStop, Settled, SchedulerSpec.FinishRunning, UpdateOne;
      one := [];
      ghost var s := View();
      KnownRequest(it.id);
      UpdateOneSkips(cfg, s, it, sampled);
      if it.id !in requests || requests[it.id].status.Finished() {
        return;
      }
      UpdateOneCases(cfg, s, it, sampled, rest);
      Advance(it.id, |it.chunk|);
      ghost var s1 := View();
      FinishSame(s, it.id, s1.reqs[it.id]);
      if it.doSample {
        var r := AppendAndCheck(it.id, sampled[it.id]);
        assert s1.reqs[it.id := r] == s.reqs[it.id := r];
        one := [(it.id, r)];
      }
    }

    /** A sampled token is appended; a request it stops is finished. */
    method AppendAndCheck(id: Id, t: Token) returns (r: Req)
      requires Valid() && id in requests && id in running && id !in waiting
      requires Settled(View()) && KvOk(kv.View(), cfg.blockSize, []) && Distinct(TableOf(kv.View(), id))
      modifies this, requests.Values, kv, kv.pool, kv.pool.blocks
      ensures Valid() && requests.Values <= old(requests.Values)
      ensures var s := old(View());
        var r2 := s.reqs[id].(output := s.reqs[id].output + [t]);
        var stop := RequestSpec.CheckStop(r2, cfg.maxModelLen);
        && View() == (if stop.None? then s.(reqs := s.reqs[id := r2]) else SchedulerSpec.FinishRunning(s, id))
        && r == if stop.None? then r2 else r2.(status := stop.value)
    {
      hide KvShaped, KvOk, FreeRequest, kv.View, kv.Valid, RequestSpec.CheckStop, Settled, SchedulerSpec.FinishRunning;
      ghost var s := View();
      AppendToken(id, t);
      KnownRequest(id);
      var req := requests[id];
      FinishSame(s, id, req.View());
      SettledRunning(s);
      var stop := req.CheckStop(cfg.maxModelLen);
      if stop.Some? {
        FinishRunning(id, stop.value);
      }
      r := req.View();
    }

    method Advance(id: Id, n: nat)
      requires Valid() && id in requests
      modifies requests[id]
      ensures Valid()
      ensures View() == old(View()).(reqs := old(View()).reqs[id := old(View()).reqs[id].(computed := old(View()).reqs[id].computed + n)])
    {
      hide KvShaped, kv.View, kv.Valid;
      ghost var s := View();
      requests[id].numComputedTokens := requests[id].numComputedTokens + n;
      assert Reqs() == s.reqs[id := requests[id].View()];
    }

    method AppendToken(id: Id, t: Token)
      requires Valid() && id in requests
      modifies requests[id]
      ensures Valid()
      ensures View() == old(View()).(reqs := old(View()).reqs[id := old(View()).reqs[id].(output := old(View()).reqs[id].output + [t])])
    {
      hide KvShaped, kv.View, kv.Valid;
      ghost var s := View();
      requests[id].AppendOutputToken(t);
      assert Reqs() == s.reqs[id := requests[id].View()];
    }

    /** A request that stopped leaves the running list and gives back its blocks. */
    method FinishRunning(id: Id, status: Status)
      requires Valid() && id in requests && id in running && id !in waiting && Distinct(running)
      requires Settled(View()) && KvOk(kv.View(), cfg.blockSize, []) && Distinct(TableOf(kv.View(), id))
      modifies this, requests[id], kv, kv.pool, kv.pool.blocks
      ensures Valid() && requests == old(requests) - {id}
      ensures old(requests[id]).View() == old(requests[id].View()).(status := status)
      ensures View() == SchedulerSpec.FinishRunning(old(View()), id)
    {
      hide KvShaped, KvOk, FreeRequest, kv.View, kv.Valid;
      ghost var s := View();
      RemoveDistinct(running, id);
      running := Remove(running, id);
      assert kv.View() == s.kv && Reqs() == s.reqs;
      kv.Free(requests[id]);
      assert Reqs() == s.reqs;
      Finish(id, status);
    }

    lemma ValidWf()
      requires Valid()
      ensures cfg.blockSize > 0 && Wf(View())
    {
    }

    lemma ViewRunning()
      ensures View().running == running
    {
    }

    lemma KnownRequest(id: Id)
      ensures id in View().reqs <==> id in requests
      ensures id in requests ==> View().reqs[id] == requests[id].View()
    {
    }
  }

  /** What an admission attempt relies on. */
  lemma AdmitReady(cfg: Config, w: Work)
    requires AInv(cfg, w) && Wf(w.s) && Admitting(cfg, w) && cfg.blockSize > 0
    ensures w.s.waiting[0] in w.s.reqs && KvOk(w.s.kv, cfg.blockSize, []) && TableOf(w.s.kv, w.s.waiting[0]) == []
    ensures w.s.reqs[w.s.waiting[0]].computed == 0
    ensures var g := GetComputed(w.s.kv, cfg.blockSize, w.s.reqs[w.s.waiting[0]].Tokens());
      && KvOk(g.0, cfg.blockSize, g.1) && TableOf(g.0, w.s.waiting[0]) == []
      && InPool(g.0.pool, g.1)
      && AdmitTokens(cfg, w.s.reqs[w.s.waiting[0]], g.2, w.budget) > 0
  {
    hide SInv, GetComputed, AllocateSlots, MakeScheduled, KvOk;
    HeadWaiting(cfg, w.s, w.out);
    var id := w.s.waiting[0];
    LiveFacts(cfg, w.s, w.out, id);
    AdmitStep(cfg, w.s, w.out, w.budget);
    GetComputedKv(w.s.kv, cfg.blockSize, w.s.reqs[id].Tokens());
  }

  /** One round of phase 2, spelled out. */
  lemma AdmitNextIs(cfg: Config, w: Work)
    requires cfg.blockSize > 0 && Wf(w.s) && Admitting(cfg, w) && w.s.waiting[0] in w.s.reqs
    requires var g := GetComputed(w.s.kv, cfg.blockSize, w.s.reqs[w.s.waiting[0]].Tokens());
      AdmitTokens(cfg, w.s.reqs[w.s.waiting[0]], g.2, w.budget) > 0
    ensures var id := w.s.waiting[0]; var r := w.s.reqs[id];
      var g := GetComputed(w.s.kv, cfg.blockSize, r.Tokens());
      var n := AdmitTokens(cfg, r, g.2, w.budget);
      var a := AllocateSlots(g.0, cfg.blockSize, id, r.Tokens(), r.computed, n, g.1);
      && AdmitFits(cfg, w) == a.1.Some?
      && AdmitNext(cfg, w).s == w.s.(waiting := w.s.waiting[1..], running := w.s.running + [id], kv := a.0,
                                     reqs := w.s.reqs[id := r.(status := Running, computed := g.2)])
      && id in AdmitNext(cfg, w).s.reqs
      && AdmitNext(cfg, w) == w.(s := AdmitNext(cfg, w).s, budget := w.budget - n,
                                 out := w.out + [MakeScheduled(AdmitNext(cfg, w).s, id, n, true)])
      && (a.1.None? ==> AdmitPhase(cfg, w) == (w.(s := w.s.(kv := a.0)), w.s.running != [] || w.out != []))
  {
    hide GetComputed, AllocateSlots, KvShaped, MakeScheduled;
  }

  lemma AdmitRound(cfg: Config, w: Work)
    requires AInv(cfg, w) && Wf(w.s) && Admitting(cfg, w) && cfg.blockSize > 0
    ensures AdmitFits(cfg, w) ==>
      && AInv(cfg, AdmitNext(cfg, w)) && |AdmitNext(cfg, w).s.waiting| < |w.s.waiting|
      && AdmitPhase(cfg, w) == AdmitPhase(cfg, AdmitNext(cfg, w))
  {
    hide AInv, Wf, AdmitFits, AdmitNext, AdmitPhase;
    AdmitNextPhase(cfg, w);
    if AdmitFits(cfg, w) {
      AdmitNextAInv(cfg, w);
      AdmitNextMoved(cfg, w);
    }
  }

  lemma AdmitStops(cfg: Config, w: Work)
    requires cfg.blockSize > 0 && Wf(w.s)
    ensures !Admitting(cfg, w) ==> AdmitPhase(cfg, w) == (w, true)
  {
    hide KvShaped;
  }

  lemma {:induction false} AdmitKeepsPreempted(cfg: Config, w: Work)
    requires cfg.blockSize > 0 && Wf(w.s)
    ensures AdmitPhase(cfg, w).0.preempted == w.preempted
    decreases |w.s.waiting|
  {
    hide GetComputed, AllocateSlots, KvShaped, MakeScheduled;
    if Admitting(cfg, w) {
      var id := w.s.waiting[0];
      assert id in w.s.waiting;
      var r := w.s.reqs[id];
      var g := GetComputed(w.s.kv, cfg.blockSize, r.Tokens());
      var n := AdmitTokens(cfg, r, g.2, w.budget);
      if n > 0 {
        var a := AllocateSlots(g.0, cfg.blockSize, id, r.Tokens(), r.computed, n, g.1);
        if a.1.Some? { AdmitKeepsPreempted(cfg, Grant(Admit(w, id, a.0, g.2), id, n, true)); }
      }
    }
  }

  /** The state and outputs so far, with the items still to come, give the whole update. */
  ghost predicate Updated(cfg: Config, s0: Sched, items: seq<Item>, sampled: map<Id, Token>, s: Sched, updated: seq<(Id, Req)>, rest: seq<Item>) {
    && Settled(s0) && Settled(s)
    && (forall it :: it in items ==> it.id !in s0.waiting && (it.doSample ==> it.id in sampled))
    && (forall it :: it in rest ==> it.id !in s.waiting && (it.doSample ==> it.id in sampled))
    && Update(cfg, s0, items, sampled) == (Update(cfg, s, rest, sampled).0, updated + Update(cfg, s, rest, sampled).1)
  }

  lemma UpdateStart(cfg: Config, s: Sched, items: seq<Item>, sampled: map<Id, Token>)
    requires Settled(s) && forall it :: it in items ==> it.id !in s.waiting && (it.doSample ==> it.id in sampled)
    ensures Updated(cfg, s, items, sampled, s, [], items[0..])
  {
    hide KvShaped;
    assert items[0..] == items;
    var u := Update(cfg, s, items, sampled);
    assert [] + u.1 == u.1;
  }

  lemma UpdateOneSkips(cfg: Config, s: Sched, it: Item, sampled: map<Id, Token>)
    requires Settled(s) && it.id !in s.waiting && (it.doSample ==> it.id in sampled)
    ensures it.id !in s.reqs || s.reqs[it.id].status.Finished() ==> UpdateOne(cfg, s, it, sampled) == (s, [])
  {
  }

  lemma SettledRunning(s: Sched)
    requires Settled(s)
    ensures Distinct(s.running)
  {
  }

  lemma FinishSame(s: Sched, id: Id, r: Req)
    requires Settled(s) && id in s.reqs && id !in s.waiting
    ensures var s1 := s.(reqs := s.reqs[id := r]); Settled(s1) && FinishRunning(s1, id) == FinishRunning(s, id)
  {
    hide FreeRequest, KvShaped;
  }

  /** What one round of the update does to a live request, as the spec function computes it. */
  lemma UpdateOneCases(cfg: Config, s: Sched, it: Item, sampled: map<Id, Token>, rest: seq<Item>)
    requires SInv(cfg, s, [it] + rest) && Settled(s) && it.id !in s.waiting && (it.doSample ==> it.id in sampled)
    ensures it.id in s.reqs && it.id in s.running && Distinct(s.running)
    ensures KvOk(s.kv, cfg.blockSize, []) && Distinct(TableOf(s.kv, it.id))
    ensures it.doSample || UpdateOne(cfg, s, it, sampled)
      == (s.(reqs := s.reqs[it.id := s.reqs[it.id].(computed := s.reqs[it.id].computed + |it.chunk|)]), [])
    ensures it.doSample ==>
      var r0 := s.reqs[it.id];
      var r2 := r0.(computed := r0.computed + |it.chunk|, output := r0.output + [sampled[it.id]]);
      var stop := CheckStop(r2, cfg.maxModelLen);
      UpdateOne(cfg, s, it, sampled)
        == if stop.None? then (s.(reqs := s.reqs[it.id := r2]), [(it.id, r2)])
           else (SchedulerSpec.FinishRunning(s, it.id), [(it.id, r2.(status := stop.value))])
  {
    hide SInv, KvOk, KvShaped, CheckStop, SInvBut, Fresh, FinishRunning;
    AdvanceInv(cfg, s, it, rest, sampled);
    LiveFacts(cfg, s, [it] + rest, it.id);
  }

  lemma UpdateRound(cfg: Config, s0: Sched, items: seq<Item>, sampled: map<Id, Token>, s: Sched, updated: seq<(Id, Req)>, it: Item, rest: seq<Item>)
    requires Updated(cfg, s0, items, sampled, s, updated, [it] + rest)
    ensures it.id !in s.waiting && (it.doSample ==> it.id in sampled)
    ensures var r := UpdateOne(cfg, s, it, sampled); Updated(cfg, s0, items, sampled, r.0, updated + r.1, rest)
  {
    hide UpdateOne, KvShaped;
    var all := [it] + rest;
    assert all[0] == it && all[1..] == rest;
    assert it in all && forall x :: x in rest ==> x in all;
    var r := UpdateOne(cfg, s, it, sampled);
    var u := Update(cfg, r.0, rest, sampled);
    assert Update(cfg, s, all, sampled) == (u.0, r.1 + u.1);
    assert updated + (r.1 + u.1) == updated + r.1 + u.1;
  }

  lemma UpdateDone(cfg: Config, s0: Sched, items: seq<Item>, sampled: map<Id, Token>, s: Sched, updated: seq<(Id, Req)>)
    requires Updated(cfg, s0, items, sampled, s, updated, [])
    ensures Update(cfg, s0, items, sampled) == (s, updated)
  {
    hide KvShaped;
    assert updated + [] == updated;
  }

  lemma NothingServed()
    ensures AllComplete([])
  {
  }

  /** One round of phase 1. */
  lemma RunAgain(cfg: Config, w: Work, idx: nat)
    requires cfg.blockSize > 0 && Wf(w.s) && idx < |w.s.running| && w.budget > 0
    ensures var id := w.s.running[idx]; var n := Min(w.s.reqs[id].NumTokens() - w.s.reqs[id].computed, w.budget);
      n > 0 ==> var q := Squeeze(cfg, w, id, n);
        RunPhase(cfg, w, idx) == if q.1 then RunPhase(cfg, Grant(q.0, id, n, false), idx + 1) else q.0
  {
    hide Squeeze, KvShaped, MakeScheduled;
  }

  lemma RunStops(cfg: Config, w: Work, idx: nat)
    requires cfg.blockSize > 0 && Wf(w.s)
    ensures idx >= |w.s.running| || w.budget <= 0 ==> RunPhase(cfg, w, idx) == w
  {
    hide KvShaped;
  }

  lemma PopVictimIs(w: Work)
    requires Wf(w.s) && w.s.running != []
    ensures var rest := w.s.running[..|w.s.running| - 1];
      && (forall x :: x in rest ==> x in w.s.running)
      && PopVictim(w) == w.(s := Preempt(w.s.(running := rest), w.s.running[|w.s.running| - 1]),
                            preempted := w.preempted + [w.s.running[|w.s.running| - 1]], blocked := true)
  {
    hide Preempt, KvShaped;
  }

  /** The inner loop goes round when the pool cannot cover the request. */
  lemma SqueezeAgain(cfg: Config, w: Work, id: Id, n: nat)
    requires cfg.blockSize > 0 && Wf(w.s) && id in w.s.running
    requires AllocateSlots(w.s.kv, cfg.blockSize, id, w.s.reqs[id].Tokens(), w.s.reqs[id].computed, n, []) == (w.s.kv, None)
    ensures PopVictim(w)
         == w.(s := PopVictim(w).s, preempted := w.preempted + [w.s.running[|w.s.running| - 1]], blocked := true)
    ensures w.s.running[|w.s.running| - 1] == id ==> Squeeze(cfg, w, id, n) == (PopVictim(w), false)
    ensures w.s.running[|w.s.running| - 1] != id ==> id in PopVictim(w).s.running && Squeeze(cfg, w, id, n) == Squeeze(cfg, PopVictim(w), id, n)
  {
    hide AllocateSlots, Preempt, KvShaped;
    assert w.(s := w.s.(kv := w.s.kv)) == w;
  }

  /** What releasing a live request's blocks relies on. */
  lemma LiveFacts(cfg: Config, s: Sched, out: seq<Item>, id: Id)
    requires SInv(cfg, s, out) && id in s.reqs
    ensures KvOk(s.kv, cfg.blockSize, []) && Distinct(TableOf(s.kv, id)) && KvShaped(s.kv)
    ensures !s.reqs[id].status.Finished()
    ensures s.reqs[id].status == Running <==> id in s.running
    ensures s.reqs[id].status != Running <==> id in s.waiting
    ensures id in s.running ==> id !in s.waiting && id !in Remove(s.running, id)
    ensures id in s.waiting ==> id !in s.running && id !in Remove(s.waiting, id)
    ensures id in s.waiting ==> TableOf(s.kv, id) == []
  {
    hide Filling, Items, Bounded, Arrivals, SlotCap, KvOk;
    assert StatusOk(s, id);
    RemoveDistinct(s.running, id);
    RemoveDistinct(s.waiting, id);
    if id in s.running {
      assert RowOk(cfg, s, out, id);
      RowDistinct(cfg, s, out, id);
    }
    KvShapedOf(cfg, s, out);
  }
}
