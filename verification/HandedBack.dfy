/** What a step hands back, item by item. */
module HandedBack {
  import opened Hashing
  import opened BlockManagerSpec
  import opened RequestSpec
  import opened SchedulerSpec
  import opened SchedulerInv
  import opened UpdateStep
  import opened Assertions
  import opened Model
  import opened RunnerSpec
  import opened WriteLabels
  import opened ExecuteCorrect
  import opened EngineSpec
  import opened EngineInv
  import opened EngineSafe

  /** The items that end at the last token their request has, in order. */
  function Asking(s: Sched, items: seq<Item>): seq<Item> {
    if items == [] then []
    else
      var it := items[0];
      (if it.id in s.reqs && it.start + |it.chunk| == |s.reqs[it.id].prompt| + |s.reqs[it.id].output| then [it] else []) + Asking(s, items[1..])
  }

  lemma {:induction false} AskingSame(s: Sched, s': Sched, items: seq<Item>)
    requires forall k :: 0 <= k < |items| ==> items[k].id in s.reqs && items[k].id in s'.reqs && s'.reqs[items[k].id] == s.reqs[items[k].id]
    ensures Asking(s', items) == Asking(s, items)
  {
    if items != [] {
      assert forall k :: 0 <= k < |items| - 1 ==> items[1..][k] == items[k + 1];
      AskingSame(s, s', items[1..]);
    }
  }

  /** One request handed back: the item's, with the sampled token appended. */
  ghost predicate HandsBack(s: Sched, it: Item, sampled: map<Id, Token>, u: (Id, Req)) {
    u.0 == it.id && it.id in s.reqs && it.id in sampled && u.1.output == s.reqs[it.id].output + [sampled[it.id]]
  }

  ghost predicate AllHandedBack(s: Sched, asking: seq<Item>, sampled: map<Id, Token>, us: seq<(Id, Req)>) {
    |us| == |asking| && forall k :: 0 <= k < |us| ==> HandsBack(s, asking[k], sampled, us[k])
  }

  lemma UpdateOneHands(cfg: Config, s: Sched, it: Item, rest: seq<Item>, sampled: map<Id, Token>)
    requires SInv(cfg, s, [it] + rest) && Settled(s) && it.id !in s.waiting && (it.doSample ==> it.id in sampled)
    ensures AllHandedBack(s, Asking(s, [it]), sampled, UpdateOne(cfg, s, it, sampled).1)
    ensures forall id :: id in s.reqs && id != it.id ==> id in UpdateOne(cfg, s, it, sampled).0.reqs && UpdateOne(cfg, s, it, sampled).0.reqs[id] == s.reqs[id]
  {
    hide SInv, KvShaped, FreeRequest, CheckStop;
    AdvanceFacts(cfg, s, it, rest);
    var all := [it] + rest;
    assert all[0] == it;
    ItemFacts(cfg, s, all, 0);
    assert Asking(s, []) == [];
    assert [it][1..] == [];
  }

  lemma RestSame(cfg: Config, s: Sched, s1: Sched, it: Item, rest: seq<Item>)
    requires SInv(cfg, s, [it] + rest) && forall id :: id in s.reqs && id != it.id ==> id in s1.reqs && s1.reqs[id] == s.reqs[id]
    ensures Asking(s1, rest) == Asking(s, rest) && Asking(s, [it] + rest) == Asking(s, [it]) + Asking(s, rest)
    ensures forall k :: 0 <= k < |rest| ==> rest[k].id in s.reqs && s1.reqs.Keys >= {rest[k].id} && s1.reqs[rest[k].id] == s.reqs[rest[k].id]
  {
    hide SInv;
    RestKnown(cfg, s, it, rest);
    AskingSame(s, s1, rest);
    AskingCons(s, it, rest);
  }

  lemma RestKnown(cfg: Config, s: Sched, it: Item, rest: seq<Item>)
    requires SInv(cfg, s, [it] + rest)
    ensures forall k :: 0 <= k < |rest| ==> rest[k].id in s.reqs && rest[k].id != it.id
  {
    hide SInv, ItemOk, RowOk;
    AdvanceFacts(cfg, s, it, rest);
    var all := [it] + rest;
    ItemFacts(cfg, s, all, 0);
    assert forall k :: 0 <= k < |rest| ==> all[k + 1] == rest[k];
  }

  lemma AskingCons(s: Sched, it: Item, rest: seq<Item>)
    ensures Asking(s, [it] + rest) == Asking(s, [it]) + Asking(s, rest)
  {
    assert ([it] + rest)[1..] == rest && [it][1..] == [];
    assert Asking(s, []) == [];
  }

  /** Everything asked for comes from the items. */
  lemma {:induction false} AskingFrom(s: Sched, items: seq<Item>)
    ensures forall k :: 0 <= k < |Asking(s, items)| ==> exists j :: 0 <= j < |items| && items[j] == Asking(s, items)[k]
  {
    if items != [] {
      AskingFrom(s, items[1..]);
      var a, b := Asking(s, items), Asking(s, items[1..]);
      forall k | 0 <= k < |a| ensures exists j :: 0 <= j < |items| && items[j] == a[k] {
        if a[k] == items[0] {
        } else {
          var k' := k - (|a| - |b|);
          assert b[k'] == a[k];
          var j :| 0 <= j < |items[1..]| && items[1..][j] == b[k'];
          assert items[j + 1] == a[k];
        }
      }
    }
  }

  lemma JoinHanded(s: Sched, s1: Sched, a: seq<Item>, b: seq<Item>, sampled: map<Id, Token>, u1: seq<(Id, Req)>, u2: seq<(Id, Req)>)
    requires AllHandedBack(s, a, sampled, u1) && AllHandedBack(s1, b, sampled, u2)
    requires forall k :: 0 <= k < |b| ==> b[k].id in s.reqs && b[k].id in s1.reqs && s1.reqs[b[k].id] == s.reqs[b[k].id]
    ensures AllHandedBack(s, a + b, sampled, u1 + u2)
  {
    forall k | 0 <= k < |u1 + u2| ensures HandsBack(s, (a + b)[k], sampled, (u1 + u2)[k]) {
      if k >= |u1| { assert HandsBack(s1, b[k - |u1|], sampled, u2[k - |u1|]); }
    }
  }

  /** update_from_output hands back, in order, exactly the requests whose items end at their last
      token, each with its sampled token appended. */
  lemma {:induction false} UpdateHandsBack(cfg: Config, s: Sched, items: seq<Item>, sampled: map<Id, Token>)
    requires SInv(cfg, s, items) && Settled(s) && forall it :: it in items ==> it.id !in s.waiting && (it.doSample ==> it.id in sampled)
    ensures AllHandedBack(s, Asking(s, items), sampled, Update(cfg, s, items, sampled).1)
    decreases |items|
  {
    hide SInv, UpdateOne, KvShaped, Asking, HandsBack;
    if items == [] {
      NothingAsked(s);
    } else {
      var it, rest := items[0], items[1..];
      assert items == [it] + rest;
      assert it in items && forall x :: x in rest ==> x in items;
      UpdateOneInv(cfg, s, it, rest, sampled);
      UpdateOneHands(cfg, s, it, rest, sampled);
      var s1 := UpdateOne(cfg, s, it, sampled).0;
      UpdateHandsBack(cfg, s1, rest, sampled);
      RestSame(cfg, s, s1, it, rest);
      AskingFrom(s, rest);
      JoinHanded(s, s1, Asking(s, [it]), Asking(s, rest), sampled, UpdateOne(cfg, s, it, sampled).1, Update(cfg, s1, rest, sampled).1);
    }
  }

  lemma NothingAsked(s: Sched)
    ensures Asking(s, []) == []
  {
  }

  /** A step hands back, in the order scheduled, exactly the requests it took to their last token,
      each with the token sampled for it appended. */
  lemma StepHandsBack(net: Net, cfg: Config, size: nat, e: Engine)
    requires EBase(net, cfg, size, e)
    ensures StepDefined(net, cfg, e, size)
    ensures var (s', o) := Schedule(cfg, e.s); var r := Step(net, cfg, e, size).1;
      && r.Outputs? == o.Some?
      && (o.Some? && o.value.scheduled != [] ==>
            AllHandedBack(s', Asking(s', o.value.scheduled), Execute(net, cfg.blockSize, e.r, o.value, size).1, r.outputs))
      && (o.Some? && o.value.scheduled == [] ==> r.outputs == [])
  {
    hide EBase, Plan, Schedule, Execute, Executable, Update, InSync, SInv, KvShaped, Mirrored, Settled, ScheduleAsserts, UpdateAsserts, AllHandedBack, Asking;
    StepSafe(net, cfg, size, e);
    SchedulePlans(net, cfg, size, e);
    var p := Schedule(cfg, e.s);
    if p.1.Some? && (p.1.value.scheduled != [] || p.1.value.finished != []) {
      PlanExecutes(net, cfg, size, e, p.0, p.1.value);
      var sampled := Execute(net, cfg.blockSize, e.r, p.1.value, size).1;
      UpdateHandsBack(cfg, p.0, p.1.value.scheduled, sampled);
      if p.1.value.scheduled == [] { NoUpdate(cfg, p.0, sampled); }
    }
  }

  lemma NoUpdate(cfg: Config, s: Sched, sampled: map<Id, Token>)
    requires Settled(s)
    ensures Update(cfg, s, [], sampled) == (s, [])
  {
  }
}
