/** update_from_output: consuming a step's items one by one turns the invariant with
    granted items into the invariant between steps. */
module UpdateStep {
  import opened Util
  import opened Hashing
  import opened BlockManagerSpec
  import opened BlockManagerInv
  import opened AllocationInv
  import opened RequestSpec
  import opened SchedulerSpec
  import opened SchedulerInv
  import opened SchedulePhases

  lemma {:induction false} GrantedCons(it: Item, rest: seq<Item>, id: Id)
    requires Fresh(rest, it.id)
    ensures Granted([it] + rest, id) == if it.id == id then |it.chunk| else Granted(rest, id)
  {
    var all := [it] + rest;
    if rest == [] {
      assert all == [it];
      assert all[..0] == [];
    } else {
      var last := rest[|rest| - 1];
      assert all[|all| - 1] == last;
      assert all[..|all| - 1] == [it] + rest[..|rest| - 1];
      GrantedCons(it, rest[..|rest| - 1], id);
      if id == it.id {
        GrantedFresh(rest, id);
      }
    }
  }

  /** The request after its chunk was computed and, if it sampled, its token appended. */
  function Advanced(r: Req, it: Item, sampled: map<Id, Token>): Req
    requires it.doSample ==> it.id in sampled
  {
    var r1 := r.(computed := r.computed + |it.chunk|);
    if it.doSample then r1.(output := r1.output + [sampled[it.id]]) else r1
  }

  lemma AdvancedRow(cfg: Config, s: Sched, it: Item, rest: seq<Item>, sampled: map<Id, Token>, s': Sched)
    requires cfg.blockSize > 0 && RowOk(cfg, s, [it] + rest, it.id) && Fresh(rest, it.id)
    requires it.doSample ==> it.id in sampled
    requires s' == s.(reqs := s.reqs[it.id := Advanced(s.reqs[it.id], it, sampled)])
    ensures RowOk(cfg, s', rest, it.id)
  {
    GrantedCons(it, rest, it.id);
    GrantedFresh(rest, it.id);
    var id := it.id;
    var t, t' := s.reqs[id].Tokens(), s'.reqs[id].Tokens();
    assert Cover(s', rest, id) == Cover(s, [it] + rest, id);
    var c := ChainOf(s.kv, id);
    forall i | 0 <= i < |c| ensures c[i] == Chain(t', cfg.blockSize, i + 1) {
      if it.doSample {
        var more := [sampled[id]];
        assert t' == t + more;
        FloorBounds(Cover(s, [it] + rest, id), cfg.blockSize);
        MulMono(i + 1, |c|, cfg.blockSize);
        ChainAppend(t, more, cfg.blockSize, i + 1);
      }
    }
  }

  lemma AdvancedItems(s: Sched, it: Item, rest: seq<Item>, sampled: map<Id, Token>, s': Sched)
    requires Items(s, [it] + rest) && (it.doSample ==> it.id in sampled)
    requires it.id in s.reqs && s' == s.(reqs := s.reqs[it.id := Advanced(s.reqs[it.id], it, sampled)])
    ensures Items(s', rest)
  {
    var all := [it] + rest;
    forall k | 0 <= k < |rest| ensures ItemOk(s', rest[k]) {
      assert all[k + 1] == rest[k];
      assert ItemOk(s, all[k + 1]);
      assert all[0].id != all[k + 1].id;
    }
    forall i, j | 0 <= i < j < |rest| ensures rest[i].id != rest[j].id {
      assert all[i + 1] == rest[i] && all[j + 1] == rest[j];
    }
  }

  /** The invariant but for the stopping bound of the request just advanced. */
  ghost predicate SInvBut(cfg: Config, s: Sched, out: seq<Item>, id: Id) {
    && cfg.blockSize > 0
    && Lists(s)
    && Statuses(s)
    && (forall x :: x in s.reqs ==> Admissible(s.reqs[x], cfg.maxModelLen))
    && (forall x :: x in s.reqs && x != id ==> |s.reqs[x].output| < OutputCap(s.reqs[x], cfg.maxModelLen))
    && Arrivals(s)
    && SlotCap(cfg, s)
    && Rows(cfg, s, out)
    && Filling(s, cfg.blockSize)
    && Items(s, out)
  }

  lemma FreshTail(s: Sched, it: Item, rest: seq<Item>)
    requires Items(s, [it] + rest)
    ensures Fresh(rest, it.id) && ItemOk(s, it)
  {
    var all := [it] + rest;
    assert ItemOk(s, all[0]);
    forall k | 0 <= k < |rest| ensures rest[k].id != it.id {
      assert all[k + 1] == rest[k] && all[0].id != all[k + 1].id;
    }
  }

  lemma AdvanceRows(cfg: Config, s: Sched, it: Item, rest: seq<Item>, sampled: map<Id, Token>, s': Sched)
    requires cfg.blockSize > 0 && Rows(cfg, s, [it] + rest) && Fresh(rest, it.id) && it.id in s.reqs
    requires it.doSample ==> it.id in sampled
    requires s' == s.(reqs := s.reqs[it.id := Advanced(s.reqs[it.id], it, sampled)])
    ensures Rows(cfg, s', rest)
  {
    hide KvOk, TableOk;
    forall r | r in s'.running ensures RowOk(cfg, s', rest, r) {
      assert RowOk(cfg, s, [it] + rest, r);
      if r == it.id {
        AdvancedRow(cfg, s, it, rest, sampled, s');
      } else {
        GrantedCons(it, rest, r);
        RowFrame(cfg, s, s', [it] + rest, rest, r);
      }
    }
  }

  lemma AdvanceFilling(s: Sched, s': Sched, bs: nat, id: Id, r: Req)
    requires Filling(s, bs) && id in s.reqs && r.computed >= s.reqs[id].computed
    requires s' == s.(reqs := s.reqs[id := r])
    ensures Filling(s', bs)
  {
    FillingFewer(s, s', bs);
  }

  lemma AdvanceInv(cfg: Config, s: Sched, it: Item, rest: seq<Item>, sampled: map<Id, Token>)
    requires SInv(cfg, s, [it] + rest) && (it.doSample ==> it.id in sampled)
    ensures it.id in s.reqs && it.id in s.running && Fresh(rest, it.id)
    ensures SInvBut(cfg, s.(reqs := s.reqs[it.id := Advanced(s.reqs[it.id], it, sampled)]), rest, it.id)
  {
    hide Rows, Filling, Items, Fresh;
    var id := it.id;
    FreshTail(s, it, rest);
    var s' := s.(reqs := s.reqs[id := Advanced(s.reqs[id], it, sampled)]);
    AdvancedItems(s, it, rest, sampled, s');
    AdvanceRows(cfg, s, it, rest, sampled, s');
    AdvanceFilling(s, s', cfg.blockSize, id, s'.reqs[id]);
    forall x | x in s'.reqs ensures StatusOk(s', x) { assert StatusOk(s, x); }
  }

  lemma FinishRows(cfg: Config, s: Sched, out: seq<Item>, id: Id)
    requires cfg.blockSize > 0 && Rows(cfg, s, out) && Settled(s) && id in s.running && id !in s.waiting
    ensures Rows(cfg, FinishRunning(s, id), out)
    ensures forall r :: r in FinishRunning(s, id).running ==> SameRow(s.kv, FinishRunning(s, id).kv, r)
    ensures Without(s.running, id, FinishRunning(s, id).running)
  {
    hide KvOk, TableOk;
    var s' := FinishRunning(s, id);
    RemoveWithout(s.running, id);
    assert RowOk(cfg, s, out, id);
    RowDistinct(cfg, s, out, id);
    FreeRequestKv(s.kv, cfg.blockSize, id);
    forall r | r in s'.running ensures RowOk(cfg, s', out, r) {
      assert RowOk(cfg, s, out, r);
      RowFrame(cfg, s, s', out, out, r);
    }
  }

  /** Finishing releases the request's blocks and forgets the request. */
  lemma FinishInv(cfg: Config, s: Sched, out: seq<Item>, id: Id)
    requires SInvBut(cfg, s, out, id) && Settled(s) && id in s.running && Fresh(out, id) && id !in s.waiting
    ensures SInv(cfg, FinishRunning(s, id), out)
  {
    hide Rows, Filling;
    var s' := FinishRunning(s, id);
    FinishRows(cfg, s, out, id);
    StatusesFewer(s, s');
    FillingFewer(s, s', cfg.blockSize);
    forall k | 0 <= k < |out| ensures ItemOk(s', out[k]) { assert ItemOk(s, out[k]); }
  }

  lemma SettledOf(cfg: Config, s: Sched, out: seq<Item>, id: Id)
    requires SInvBut(cfg, s, out, id)
    ensures Settled(s) && (id in s.running ==> id !in s.waiting)
  {
  }

  lemma CompleteBut(cfg: Config, s: Sched, out: seq<Item>, id: Id)
    requires SInvBut(cfg, s, out, id)
    requires id in s.reqs ==> |s.reqs[id].output| < OutputCap(s.reqs[id], cfg.maxModelLen)
    ensures SInv(cfg, s, out)
  {
    hide Rows, Filling, Items, Statuses, Arrivals, Lists, SlotCap;
  }

  /** One item of update_from_output. */
  lemma UpdateOneInv(cfg: Config, s: Sched, it: Item, rest: seq<Item>, sampled: map<Id, Token>)
    requires SInv(cfg, s, [it] + rest) && (it.doSample ==> it.id in sampled)
    requires Settled(s) && it.id !in s.waiting
    ensures SInv(cfg, UpdateOne(cfg, s, it, sampled).0, rest)
  {
    hide Rows, Filling, Items, Arrivals, SlotCap, Lists, ItemOk, KvShaped;
    AdvanceInv(cfg, s, it, rest, sampled);
    var id := it.id;
    assert StatusOk(s, id);
    var r := Advanced(s.reqs[id], it, sampled);
    var s1 := s.(reqs := s.reqs[id := r]);
    SettledOf(cfg, s1, rest, id);
    if it.doSample {
      match CheckStop(r, cfg.maxModelLen)
      case None => CompleteBut(cfg, s1, rest, id);
      case Some(status) =>
        FinishInv(cfg, s1, rest, id);
        assert FinishRunning(s1, id) == FinishRunning(s, id);
    } else {
      CompleteBut(cfg, s1, rest, id);
    }
  }

  lemma ListsOf(cfg: Config, s: Sched, out: seq<Item>)
    requires SInv(cfg, s, out)
    ensures Lists(s) && Items(s, out) && Settled(s)
  {
  }

  /** update_from_output as a whole: between steps every table covers exactly the computed tokens. */
  lemma {:induction false} UpdateInv(cfg: Config, s: Sched, items: seq<Item>, sampled: map<Id, Token>)
    requires SInv(cfg, s, items)
    requires Settled(s) && forall it :: it in items ==> it.id !in s.waiting && (it.doSample ==> it.id in sampled)
    ensures SInv(cfg, Update(cfg, s, items, sampled).0, [])
    decreases |items|
  {
    hide SInv, UpdateOne, KvShaped;
    if items != [] {
      var rest := items[1..];
      assert items == [items[0]] + rest;
      assert items[0] in items && forall it :: it in rest ==> it in items;
      UpdateOneInv(cfg, s, items[0], rest, sampled);
      UpdateInv(cfg, UpdateOne(cfg, s, items[0], sampled).0, rest, sampled);
    }
  }
}
