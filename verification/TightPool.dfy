/** Why draining needs room in the pool for each request on its own: with one block and a
    prompt of two, chunked prefill preempts itself for ever, and unchunked admission raises. */
module TightPool {
  import opened Util
  import opened Hashing
  import opened BlockPoolSpec
  import opened BlockManagerSpec
  import opened RequestSpec
  import opened SchedulerSpec
  import opened Progress

  function Tight(budget: int): Config { Config(1, 1, budget, 0, 8) }

  function Lone(knobs: Knobs): Req {
    Req([0, 0], [], 0, Preempted, 0, 0, None, Params(1, 0, true, [], knobs))
  }

  function Unused(): Pool { Pool([0], [NoHash], [0], map[], false) }
  function Used(): Pool { Pool([1], [NoHash], [], map[], false) }

  function Queued(id: Id, knobs: Knobs): Sched {
    Sched(map[id := Lone(knobs)], [id], [], [], KV(Unused(), map[], map[]))
  }

  function Started(id: Id, knobs: Knobs, computed: nat): Sched {
    Sched(map[id := Lone(knobs).(status := Running, computed := computed)], [], [id], [], KV(Used(), map[id := [0]], map[]))
  }

  function FirstItem(id: Id, knobs: Knobs): Item {
    Item(id, [0], 0, [0], false, true, Some(Lone(knobs).params), 2, [])
  }

  lemma Units(n: nat)
    ensures CeilDiv(n, 1) == n && FloorDiv(n, 1) == n
  {
  }

  /** A first block can be had, a second cannot. */
  lemma OneBlockOnly(id: Id)
    ensures var kv0, kv1 := KV(Unused(), map[], map[]), KV(Used(), map[id := [0]], map[]);
      && KvShaped(kv0) && KvShaped(kv1) && InPool(kv0.pool, []) && InPool(kv1.pool, [])
      && GetComputed(kv0, 1, [0, 0]) == (kv0, [], 0)
      && AllocateSlots(kv0, 1, id, [0, 0], 0, 1, []) == (kv1, Some([0]))
      && AllocateSlots(kv0, 1, id, [0, 0], 0, 2, []) == (kv0, None)
      && AllocateSlots(kv1, 1, id, [0, 0], 1, 1, []) == (kv1, None)
      && FreeRequest(kv1, id) == kv0
  {
    Units(1);
    Units(2);
    var kv0, kv1 := KV(Unused(), map[], map[]), KV(Used(), map[id := [0]], map[]);
    assert FreshNeeded(kv0, 1, id, 0, 1, []) == 1 && FreshNeeded(kv0, 1, id, 0, 2, []) == 2 && FreshNeeded(kv1, 1, id, 1, 1, []) == 1;
    assert TakeOne(Unused()) == Used();
    assert Take(Used(), 0) == Used();
    assert Take(Unused(), 1) == Used();
    assert Unused().free[..1] == [0];
    assert TableOf(kv0, id) + [] + [0] == [0];
    assert ReleaseAll(Unused(), []) == Unused() && ReleaseAll(Used(), []) == Used();
    ReleaseOne(id);
  }

  lemma ReleaseOne(id: Id)
    ensures KvShaped(KV(Used(), map[id := [0]], map[])) && FreeRequest(KV(Used(), map[id := [0]], map[]), id) == KV(Unused(), map[], map[])
  {
    var t: seq<BlockId> := [0];
    assert Reverse(t[1..]) == [] && Reverse(t) == [0];
    assert Release(Used(), 0) == Unused();
    assert t[1..] == [] && ReleaseAll(Unused(), []) == Unused();
    assert ReleaseAll(Used(), t) == Unused();
    var none: map<Id, seq<BlockHash>> := map[];
    assert map[id := t] - {id} == map[] && none - {id} == none;
  }

  lemma Waits(id: Id, knobs: Knobs, budget: int)
    requires budget == 1 || budget == 2
    ensures Wf(Queued(id, knobs))
    ensures budget == 1 ==>
      Schedule(Tight(1), Queued(id, knobs)) == (Started(id, knobs, 0), Some(Output([FirstItem(id, knobs)], [], [])))
    ensures budget == 2 ==> Schedule(Tight(2), Queued(id, knobs)) == (Queued(id, knobs), None)
  {
    hide GetComputed, AllocateSlots, KvShaped, FreeRequest;
    OneBlockOnly(id);
    var cfg, s, r := Tight(budget), Queued(id, knobs), Lone(knobs);
    assert r.Tokens() == [0, 0];
    assert PreemptForPriority(cfg, s) == (s, []);
    var w := Work(s, budget, [], [], false);
    assert RunPhase(cfg, w, 0) == w;
    assert Sort(s.reqs, []) == [];
    assert Sort(s.reqs, [id]) == [id];
    assert SortPhase(w) == w;
    assert AdmitTokens(cfg, r, 0, budget) == budget;
    if budget == 1 {
      var kv1 := KV(Used(), map[id := [0]], map[]);
      var s' := Started(id, knobs, 0);
      assert Admit(w, id, kv1, 0).s == s';
      var w' := Grant(Admit(w, id, kv1, 0), id, 1, true);
      assert AdmitPhase(cfg, w') == (w', true);
      assert AdmitPhase(cfg, w) == AdmitPhase(cfg, w');
      assert s'.reqs[id].Tokens() == [0, 0];
      assert MakeScheduled(s', id, 1, true) == FirstItem(id, knobs);
      assert w'.out == [FirstItem(id, knobs)] && w'.preempted == [] && w'.s == s';
    } else {
      assert w.(s := w.s.(kv := KV(Unused(), map[], map[]))) == w;
      assert AdmitPhase(cfg, w) == (w, false);
    }
  }

  lemma FallsBack(id: Id, knobs: Knobs)
    ensures Wf(Started(id, knobs, 1))
    ensures Schedule(Tight(1), Started(id, knobs, 1)) == (Queued(id, knobs), Some(Output([], [id], [])))
  {
    hide GetComputed, AllocateSlots, KvShaped, FreeRequest;
    OneBlockOnly(id);
    var cfg, s := Tight(1), Started(id, knobs, 1);
    var r := s.reqs[id];
    assert r.Tokens() == [0, 0];
    assert PreemptForPriority(cfg, s) == (s, []);
    var w := Work(s, 1, [], [], false);
    assert w.(s := w.s.(kv := s.kv)) == w;
    assert [id][..0] == [];
    var w2 := PopVictim(w);
    assert w2.s == Queued(id, knobs);
    assert Squeeze(cfg, w, id, 1) == (w2, false);
    assert RunPhase(cfg, w, 0) == w2;
    assert AdmitPhase(cfg, w2) == (w2, true);
  }

  lemma Advances(id: Id, knobs: Knobs, it: Item)
    requires it.id == id && |it.chunk| == 1 && !it.doSample
    ensures Settled(Started(id, knobs, 0)) && Update(Tight(1), Started(id, knobs, 0), [it], map[]) == (Started(id, knobs, 1), [])
  {
    OneBlockOnly(id);
    var s := Started(id, knobs, 0);
    assert UpdateOne(Tight(1), s, it, map[]).0 == Started(id, knobs, 1);
    assert [it][1..] == [];
    assert Update(Tight(1), Started(id, knobs, 1), [], map[]) == (Started(id, knobs, 1), []);
  }

  /** Without the room the loop never ends: two steps, no token, and the same state again. With
      a budget that takes the whole prompt, schedule() raises instead. */
  lemma NoRoomNoProgress(id: Id, knobs: Knobs)
    ensures var s := Queued(id, knobs); var cfg := Tight(1);
      && Wf(s) && HasUnfinished(s)
      && !Capacity(cfg, s)
      && var (s1, o1) := Schedule(cfg, s);
      && o1.Some? && |o1.value.scheduled| == 1 && !o1.value.scheduled[0].doSample && Settled(s1) && id !in s1.waiting
      && o1.value.scheduled[0].id == id
      && var (s2, u2) := Update(cfg, s1, o1.value.scheduled, map[]);
      && u2 == [] && Schedule(cfg, s2) == (s, Some(Output([], [id], [])))
    ensures Schedule(Tight(2), Queued(id, knobs)).1 == None
  {
    hide Schedule, Update, KvShaped;
    Waits(id, knobs, 1);
    Waits(id, knobs, 2);
    FallsBack(id, knobs);
    var it := FirstItem(id, knobs);
    Advances(id, knobs, it);
    assert Queued(id, knobs).reqs[id] == Lone(knobs);
    Units(3);
  }
}
