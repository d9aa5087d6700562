/** The scheduler's invariant, inside a schedule() call (with the items granted so far)
    and between steps (with none), and its preservation by each primitive transition. */
module SchedulerInv {
  import opened Util
  import opened Hashing
  import opened BlockPoolSpec
  import opened BlockManagerSpec
  import opened BlockManagerInv
  import opened AllocationInv
  import opened RequestSpec
  import opened SchedulerSpec

  /** Live requests are exactly waiting plus running. */
  ghost predicate Lists(s: Sched) {
    && Distinct(s.waiting)
    && Distinct(s.running)
    && (forall id :: id in s.reqs <==> id in s.waiting || id in s.running)
    && (forall id :: id in s.waiting ==> id !in s.running)
  }

  ghost predicate StatusOk(s: Sched, id: Id)
    requires id in s.reqs
  {
    var r := s.reqs[id];
    && (id in s.running ==> r.status == Running && r.computed < r.NumTokens())
    && (id in s.waiting ==> (r.status == Waiting || r.status == Preempted) && r.computed == 0)
  }

  ghost predicate Statuses(s: Sched) {
    forall id :: id in s.reqs ==> StatusOk(s, id)
  }

  /** Limits: every live request is admissible and has not reached its output cap. */
  ghost predicate Bounded(cfg: Config, s: Sched) {
    forall id :: id in s.reqs ==>
      Admissible(s.reqs[id], cfg.maxModelLen) && |s.reqs[id].output| < OutputCap(s.reqs[id], cfg.maxModelLen)
  }

  ghost predicate Arrivals(s: Sched) {
    forall a, b :: a in s.reqs && b in s.reqs && s.reqs[a].arrival == s.reqs[b].arrival ==> a == b
  }

  /** The number of tokens a step's items grant to a request. */
  function Granted(out: seq<Item>, id: Id): nat {
    if out == [] then 0
    else if out[|out| - 1].id == id then |out[|out| - 1].chunk|
    else Granted(out[..|out| - 1], id)
  }

  ghost predicate Fresh(out: seq<Item>, id: Id) {
    forall k :: 0 <= k < |out| ==> out[k].id != id
  }

  lemma {:induction false} GrantedFresh(out: seq<Item>, id: Id)
    requires Fresh(out, id)
    ensures Granted(out, id) == 0
  {
    if out != [] {
      GrantedFresh(out[..|out| - 1], id);
    }
  }

  lemma GrantedSnoc(out: seq<Item>, it: Item, id: Id)
    ensures Granted(out + [it], id) == if it.id == id then |it.chunk| else Granted(out, id)
  {
    assert (out + [it])[..|out|] == out;
  }

  lemma {:induction false} GrantedAt(out: seq<Item>, k: nat)
    requires k < |out| && forall i, j :: 0 <= i < j < |out| ==> out[i].id != out[j].id
    ensures Granted(out, out[k].id) == |out[k].chunk|
  {
    if k < |out| - 1 {
      GrantedAt(out[..|out| - 1], k);
    }
  }

  lemma {:induction false} GrantedFrom(out: seq<Item>, id: Id) returns (k: nat)
    requires Granted(out, id) > 0
    ensures k < |out| && out[k].id == id
  {
    if out[|out| - 1].id == id { k := |out| - 1; } else { k := GrantedFrom(out[..|out| - 1], id); }
  }

  /** Tokens of id allocated for: computed before the step plus granted in it. */
  function Cover(s: Sched, out: seq<Item>, id: Id): nat
    requires id in s.reqs
  {
    s.reqs[id].computed + Granted(out, id)
  }

  ghost predicate RowOk(cfg: Config, s: Sched, out: seq<Item>, id: Id)
    requires cfg.blockSize > 0
  {
    id in s.reqs && TableOk(s.kv, cfg.blockSize, id, s.reqs[id].Tokens(), Cover(s, out, id))
  }

  /** Running requests, and only they, have tables; each covers exactly its tokens. */
  ghost predicate Rows(cfg: Config, s: Sched, out: seq<Item>)
    requires cfg.blockSize > 0
  {
    && KvOk(s.kv, cfg.blockSize, [])
    && (forall id :: id in s.kv.tables <==> id in s.running)
    && (forall id :: id in s.kv.chains ==> id in s.running)
    && (forall id :: id in s.running ==> RowOk(cfg, s, out, id))
  }

  /** Of two requests sharing a block, at least one has computed past it. */
  ghost predicate PastOne(s: Sched, bs: nat, a: Id, b: Id, i: nat) {
    a in s.reqs && b in s.reqs && ((i + 1) * bs <= s.reqs[a].computed || (i + 1) * bs <= s.reqs[b].computed)
  }

  ghost predicate SharedAt(kv: KV, a: Id, b: Id, i: nat) {
    i < |TableOf(kv, a)| && i < |TableOf(kv, b)| && TableOf(kv, a)[i] == TableOf(kv, b)[i]
  }

  ghost predicate Filling(s: Sched, bs: nat) {
    forall a, b, i: nat :: a in s.running && b in s.running && a != b && SharedAt(s.kv, a, b, i) ==> PastOne(s, bs, a, b, i)
  }

  /** A granted item still describes its request. */
  ghost predicate ItemOk(s: Sched, it: Item) {
    && it.id in s.running && it.id in s.reqs
    && var r := s.reqs[it.id];
    && it.start == r.computed
    && it.chunk != []
    && it.start + |it.chunk| <= |r.Tokens()|
    && it.chunk == r.Tokens()[it.start..it.start + |it.chunk|]
    && it.table == TableOf(s.kv, it.id)
    && (it.doSample <==> it.start + |it.chunk| == |r.Tokens()|)
    && (it.isNew ==> it.cachedPrefix == r.Tokens()[..it.start] && it.promptLen == |r.prompt| && it.params == Some(r.params))
  }

  ghost predicate Items(s: Sched, out: seq<Item>) {
    && (forall k :: 0 <= k < |out| ==> ItemOk(s, out[k]))
    && (forall i, j :: 0 <= i < j < |out| ==> out[i].id != out[j].id)
  }

  /** Never more running requests than slots. */
  ghost predicate SlotCap(cfg: Config, s: Sched) {
    s.running == [] || |s.running| <= cfg.maxNumSeqs
  }

  ghost predicate SInv(cfg: Config, s: Sched, out: seq<Item>) {
    && cfg.blockSize > 0
    && Lists(s)
    && Statuses(s)
    && Bounded(cfg, s)
    && Arrivals(s)
    && SlotCap(cfg, s)
    && Rows(cfg, s, out)
    && Filling(s, cfg.blockSize)
    && Items(s, out)
  }

  lemma SInvWf(cfg: Config, s: Sched, out: seq<Item>)
    requires SInv(cfg, s, out)
    ensures Wf(s) && Settled(s)
  {
  }

  /** Scheduling moves requests between queues but never touches their tokens. */
  ghost predicate SameTokens(s: Sched, s': Sched) {
    && s'.reqs.Keys == s.reqs.Keys
    && forall id :: id in s.reqs ==>
         s'.reqs[id].(status := Running, computed := 0) == s.reqs[id].(status := Running, computed := 0)
  }

  lemma SameFields(r: Req, r': Req)
    requires r'.(status := Running, computed := 0) == r.(status := Running, computed := 0)
    ensures r'.prompt == r.prompt && r'.output == r.output && r'.params == r.params && r'.eos == r.eos
    ensures r'.priority == r.priority && r'.arrival == r.arrival && r'.Tokens() == r.Tokens()
  {
    var a, b := r.(status := Running, computed := 0), r'.(status := Running, computed := 0);
    assert a.prompt == r.prompt && b.prompt == r'.prompt;
    assert a.output == r.output && b.output == r'.output;
    assert a.params == r.params && b.params == r'.params;
    assert a.eos == r.eos && b.eos == r'.eos;
    assert a.priority == r.priority && b.priority == r'.priority;
    assert a.arrival == r.arrival && b.arrival == r'.arrival;
  }

  lemma SameTokensTrans(s: Sched, s1: Sched, s2: Sched)
    requires SameTokens(s, s1) && SameTokens(s1, s2)
    ensures SameTokens(s, s2)
  {
  }

  // ------------------------------------------------------------------ preemption

  ghost predicate Without(all: seq<Id>, id: Id, rest: seq<Id>) {
    Distinct(rest) && |rest| + 1 == |all| && id in all && forall x :: x in rest <==> x in all && x != id
  }

  lemma RowFrame(cfg: Config, s: Sched, s': Sched, out: seq<Item>, out': seq<Item>, id: Id)
    requires cfg.blockSize > 0 && RowOk(cfg, s, out, id)
    requires id in s'.reqs && s'.reqs[id] == s.reqs[id] && Granted(out', id) == Granted(out, id)
    requires SameRow(s.kv, s'.kv, id)
    ensures RowOk(cfg, s', out', id)
  {
    TableFrame(s.kv, s'.kv, cfg.blockSize, id, s.reqs[id].Tokens(), Cover(s, out, id));
  }

  /** Sharing survives when fewer run, with the same tables and no less computed. */
  lemma FillingFewer(s: Sched, s': Sched, bs: nat)
    requires Filling(s, bs)
    requires forall id :: id in s'.running ==>
      id in s.running && TableOf(s'.kv, id) == TableOf(s.kv, id)
      && (id in s.reqs ==> id in s'.reqs && s'.reqs[id].computed >= s.reqs[id].computed)
    ensures Filling(s', bs)
  {
    forall a, b, i: nat | a in s'.running && b in s'.running && a != b && SharedAt(s'.kv, a, b, i)
      ensures PastOne(s', bs, a, b, i)
    {
      assert SharedAt(s.kv, a, b, i);
      assert PastOne(s, bs, a, b, i);
    }
  }

  /** Rows survive while tables, tokens and counts of the running requests stay. */
  lemma RowsSame(cfg: Config, s: Sched, s': Sched, out: seq<Item>)
    requires cfg.blockSize > 0 && Rows(cfg, s, out) && s'.kv == s.kv
    requires forall id :: id in s'.running <==> id in s.running
    requires forall id :: id in s.running && id in s.reqs ==> id in s'.reqs && s'.reqs[id] == s.reqs[id]
    ensures Rows(cfg, s', out)
  {
    hide KvOk, TableOk;
    forall r | r in s'.running ensures RowOk(cfg, s', out, r) { assert RowOk(cfg, s, out, r); }
  }

  /** Statuses survive when requests leave or change no list. */
  lemma StatusesFewer(s: Sched, s': Sched)
    requires Statuses(s)
    requires forall id :: id in s'.reqs ==> id in s.reqs && s'.reqs[id] == s.reqs[id]
    requires forall id :: id in s'.reqs && id in s'.running ==> id in s.running
    requires forall id :: id in s'.reqs && id in s'.waiting ==> id in s.waiting
    ensures Statuses(s')
  {
    forall x | x in s'.reqs ensures StatusOk(s', x) { assert StatusOk(s, x); }
  }

  lemma PreemptRows(cfg: Config, s: Sched, out: seq<Item>, id: Id, rest: seq<Id>)
    requires cfg.blockSize > 0 && Lists(s) && Rows(cfg, s, out) && Without(s.running, id, rest) && Wf(s)
    ensures Wf(s.(running := rest)) && Rows(cfg, Preempt(s.(running := rest), id), out)
    ensures forall r :: r in rest ==> SameRow(s.kv, Preempt(s.(running := rest), id).kv, r)
  {
    hide KvOk, TableOk;
    var s' := Preempt(s.(running := rest), id);
    assert RowOk(cfg, s, out, id);
    RowDistinct(cfg, s, out, id);
    FreeRequestKv(s.kv, cfg.blockSize, id);
    forall r | r in rest ensures RowOk(cfg, s', out, r) {
      assert RowOk(cfg, s, out, r);
      RowFrame(cfg, s, s', out, out, r);
    }
  }

  lemma RowDistinct(cfg: Config, s: Sched, out: seq<Item>, id: Id)
    requires cfg.blockSize > 0 && RowOk(cfg, s, out, id)
    ensures Distinct(TableOf(s.kv, id))
  {
  }

  lemma PreemptInv(cfg: Config, s: Sched, out: seq<Item>, id: Id, rest: seq<Id>)
    requires SInv(cfg, s, out) && Without(s.running, id, rest) && Fresh(out, id)
    ensures Wf(s.(running := rest)) && SInv(cfg, Preempt(s.(running := rest), id), out)
  {
    hide Rows, Filling, SameRow, KvShaped, FreeRequest, Items;
    SInvWf(cfg, s, out);
    PreemptRows(cfg, s, out, id, rest);
    var s' := Preempt(s.(running := rest), id);
    PreemptLists(cfg, s, id, rest);
    SameTables(s.kv, s'.kv, rest);
    FillingFewer(s, s', cfg.blockSize);
    PreemptItems(s, out, s', id, rest);
  }

  lemma PreemptLists(cfg: Config, s: Sched, id: Id, rest: seq<Id>)
    requires Lists(s) && Statuses(s) && Bounded(cfg, s) && Arrivals(s) && SlotCap(cfg, s) && Without(s.running, id, rest)
    requires Wf(s.(running := rest)) && id in s.reqs
    ensures var s' := Preempt(s.(running := rest), id); Lists(s') && Statuses(s') && Bounded(cfg, s') && Arrivals(s') && SlotCap(cfg, s')
  {
    hide KvShaped, FreeRequest;
    DistinctAppend(s.waiting, id);
    var s' := Preempt(s.(running := rest), id);
    forall x | x in s'.reqs ensures StatusOk(s', x) { assert StatusOk(s, x); }
  }

  lemma SameTables(kv: KV, kv': KV, rest: seq<Id>)
    requires forall r :: r in rest ==> SameRow(kv, kv', r)
    ensures forall r :: r in rest ==> TableOf(kv', r) == TableOf(kv, r)
  {
  }

  lemma PreemptItems(s: Sched, out: seq<Item>, s': Sched, id: Id, rest: seq<Id>)
    requires Items(s, out) && Fresh(out, id) && Without(s.running, id, rest) && s'.running == rest
    requires forall r :: r in rest ==> TableOf(s'.kv, r) == TableOf(s.kv, r)
    requires forall r :: r in rest && r in s.reqs ==> r in s'.reqs && s'.reqs[r] == s.reqs[r]
    ensures Items(s', out)
  {
    forall k | 0 <= k < |out| ensures ItemOk(s', out[k]) { assert ItemOk(s, out[k]); }
  }

  // ------------------------------------------------------------------ granting tokens

  /** allocate_slots with no hits changes nothing when it fails. */
  lemma FailedGrant(kv: KV, bs: nat, id: Id, toks: seq<Token>, computed: nat, n: nat)
    requires bs > 0 && KvShaped(kv)
    ensures AllocateSlots(kv, bs, id, toks, computed, n, []).1.None? ==> AllocateSlots(kv, bs, id, toks, computed, n, []).0 == kv
  {
  }

  /** The state after id's table was extended to cover n more tokens. */
  ghost predicate Extended(cfg: Config, s: Sched, kv': KV, id: Id, n: nat)
    requires cfg.blockSize > 0
  {
    id in s.reqs
    && Allocated(s.kv, kv', cfg.blockSize, id, s.reqs[id].Tokens(), s.reqs[id].computed + n, TableOf(s.kv, id))
  }

  lemma GrantAllocates(cfg: Config, s: Sched, out: seq<Item>, id: Id, n: nat)
    requires SInv(cfg, s, out) && id in s.running && Fresh(out, id)
    requires s.reqs[id].computed + n <= s.reqs[id].NumTokens()
    ensures KvShaped(s.kv)
    ensures var r := s.reqs[id]; var a := AllocateSlots(s.kv, cfg.blockSize, id, r.Tokens(), r.computed, n, []);
      if a.1.Some? then Extended(cfg, s, a.0, id, n) else a.0 == s.kv
  {
    hide KvOk, TableOk, Allocated;
    SInvWf(cfg, s, out);
    var r := s.reqs[id];
    GrantedFresh(out, id);
    assert RowOk(cfg, s, out, id);
    FailedGrant(s.kv, cfg.blockSize, id, r.Tokens(), r.computed, n);
    if FreshNeeded(s.kv, cfg.blockSize, id, r.computed, n, []) <= |s.kv.pool.free| {
      NoHits(s.kv.pool, cfg.blockSize, r.Tokens());
      AllocateKv(s.kv, cfg.blockSize, id, r.Tokens(), r.computed, n, []);
      assert TableOf(s.kv, id) + [] == TableOf(s.kv, id);
    }
  }

  lemma NoHits(p: Pool, bs: nat, toks: seq<Token>)
    ensures Leading(p, bs, toks, [])
  {
  }

  lemma GrantRows(cfg: Config, s: Sched, out: seq<Item>, s': Sched, id: Id, it: Item)
    requires cfg.blockSize > 0 && Lists(s) && Rows(cfg, s, out) && id in s.running && Fresh(out, id)
    requires it.id == id && Extended(cfg, s, s'.kv, id, |it.chunk|) && s' == s.(kv := s'.kv)
    ensures Rows(cfg, s', out + [it])
  {
    hide KvOk, TableOk;
    forall r | r in s'.running ensures RowOk(cfg, s', out + [it], r) {
      GrantedSnoc(out, it, r);
      if r != id {
        assert RowOk(cfg, s, out, r);
        RowFrame(cfg, s, s', out, out + [it], r);
      }
    }
    forall x ensures x in s'.kv.tables <==> x in s'.running {
      assert x in s'.kv.tables.Keys - {id} <==> x in s.kv.tables.Keys - {id};
    }
    forall x | x in s'.kv.chains ensures x in s'.running {
      assert x != id ==> x in s'.kv.chains.Keys - {id};
    }
  }

  /** Extending one row creates no new sharing. */
  lemma ExtendedSharing(s: Sched, kv': KV, id: Id, from: nat, a: Id, b: Id, i: nat)
    requires OthersKept(s.kv, kv', id) && FreshPrivate(s.kv, kv', id, from)
    requires from <= |TableOf(kv', id)|
    requires a in s.kv.tables || a == id
    requires b in s.kv.tables || b == id
    requires a != b && SharedAt(kv', a, b, i)
    ensures (a == id || b == id) ==> i < from
    ensures a != id && b != id ==> SharedAt(s.kv, a, b, i)
  {
    if a == id {
      assert SameRow(s.kv, kv', b);
      assert i < |s.kv.tables[b]| && TableOf(kv', b)[i] in s.kv.tables[b];
    } else if b == id {
      assert SameRow(s.kv, kv', a);
      assert i < |s.kv.tables[a]| && TableOf(kv', a)[i] in s.kv.tables[a];
    } else {
      assert SameRow(s.kv, kv', a) && SameRow(s.kv, kv', b);
    }
  }

  lemma GrantFilling(cfg: Config, s: Sched, out: seq<Item>, s': Sched, id: Id, n: nat)
    requires cfg.blockSize > 0 && Rows(cfg, s, out) && id in s.running && Filling(s, cfg.blockSize)
    requires Extended(cfg, s, s'.kv, id, n) && s' == s.(kv := s'.kv)
    ensures Filling(s', cfg.blockSize)
  {
    hide KvOk, TableOk, RowOk;
    var t := TableOf(s.kv, id);
    forall a, b, i: nat | a in s'.running && b in s'.running && a != b && SharedAt(s'.kv, a, b, i)
      ensures PastOne(s', cfg.blockSize, a, b, i)
    {
      ExtendedSharing(s, s'.kv, id, |t|, a, b, i);
      if a == id {
        assert SameRow(s.kv, s'.kv, b);
        assert TableOf(s'.kv, id)[..|t|] == t;
      } else if b == id {
        assert SameRow(s.kv, s'.kv, a);
        assert TableOf(s'.kv, id)[..|t|] == t;
      }
      assert SharedAt(s.kv, a, b, i);
      assert PastOne(s, cfg.blockSize, a, b, i);
    }
  }

  lemma GrantItems(s: Sched, out: seq<Item>, s': Sched, id: Id, n: nat)
    requires Items(s, out) && Lists(s) && id in s.running && Fresh(out, id)
    requires s' == s.(kv := s'.kv) && OthersKept(s.kv, s'.kv, id)
    requires forall x :: x in s.kv.tables <==> x in s.running
    requires 0 < n && s.reqs[id].computed + n <= s.reqs[id].NumTokens()
    ensures Items(s', out + [MakeScheduled(s', id, n, false)])
  {
    var it := MakeScheduled(s', id, n, false);
    var out' := out + [it];
    forall k | 0 <= k < |out'| ensures ItemOk(s', out'[k]) {
      if k < |out| {
        assert ItemOk(s, out[k]);
        assert SameRow(s.kv, s'.kv, out[k].id);
      }
    }
  }

  lemma GrantInv(cfg: Config, s: Sched, out: seq<Item>, s': Sched, id: Id, n: nat)
    requires SInv(cfg, s, out) && id in s.running && Fresh(out, id)
    requires 0 < n && s.reqs[id].computed + n <= s.reqs[id].NumTokens()
    requires Extended(cfg, s, s'.kv, id, n) && s' == s.(kv := s'.kv)
    ensures SInv(cfg, s', out + [MakeScheduled(s', id, n, false)])
  {
    hide KvOk, TableOk, RowOk, ItemOk, PastOne, SharedAt;
    var it := MakeScheduled(s', id, n, false);
    GrantRows(cfg, s, out, s', id, it);
    GrantFilling(cfg, s, out, s', id, n);
    GrantItems(s, out, s', id, n);
    forall x | x in s'.reqs ensures StatusOk(s', x) { assert StatusOk(s, x); }
  }

  // ------------------------------------------------------------------ admission

  /** A lookup for a waiting request, and whether the allocation after it succeeded. */
  lemma AdmitAllocates(cfg: Config, s: Sched, out: seq<Item>, id: Id, n: nat)
    requires SInv(cfg, s, out) && id in s.waiting
    requires KvShaped(s.kv)
    ensures var toks := s.reqs[id].Tokens();
      var (kv1, hits, cached) := GetComputed(s.kv, cfg.blockSize, toks);
      && cached == |hits| * cfg.blockSize < |toks|
      && (cached + n <= |toks| ==>
            var a := AllocateSlots(kv1, cfg.blockSize, id, toks, s.reqs[id].computed, n, hits);
            if a.1.Some? then Allocated(kv1, a.0, cfg.blockSize, id, toks, cached + n, hits)
                              && SameRowsAll(s.kv, kv1) && Leading(kv1.pool, cfg.blockSize, toks, hits)
                              && KvOk(kv1, cfg.blockSize, hits)
            else Restored(s.kv, a.0) && KvOk(a.0, cfg.blockSize, []))
  {
    hide KvOk, Allocated, AllocateSlots, GetComputed;
    assert StatusOk(s, id);
    var toks := s.reqs[id].Tokens();
    GetComputedKv(s.kv, cfg.blockSize, toks);
    var g := GetComputed(s.kv, cfg.blockSize, toks);
    if g.2 + n <= |toks| {
      AdmitAllocates2(cfg, s.kv, id, toks, n);
    }
  }

  /** The pool's reference counts may differ, nothing a row depends on does. */
  ghost predicate SameRowsAll(kv: KV, kv1: KV) {
    kv1.tables == kv.tables && kv1.chains == kv.chains && SameContents(kv.pool, kv1.pool)
  }

  lemma EmptyRow(kv: KV, bs: nat, id: Id, toks: seq<Token>)
    requires bs > 0 && id !in kv.tables && id !in kv.chains
    ensures TableOk(kv, bs, id, toks, 0)
  {
    CeilDivBounds(0, bs);
    FloorBounds(0, bs);
  }

  lemma AdmitAllocates2(cfg: Config, kv: KV, id: Id, toks: seq<Token>, n: nat)
    requires cfg.blockSize > 0 && KvOk(kv, cfg.blockSize, []) && KvShaped(kv)
    requires id !in kv.tables && id !in kv.chains && toks != []
    requires var g := GetComputed(kv, cfg.blockSize, toks); g.2 + n <= |toks|
    ensures var g := GetComputed(kv, cfg.blockSize, toks);
      var a := AllocateSlots(g.0, cfg.blockSize, id, toks, 0, n, g.1);
      if a.1.Some? then Allocated(g.0, a.0, cfg.blockSize, id, toks, g.2 + n, g.1)
                        && SameRowsAll(kv, g.0) && Leading(g.0.pool, cfg.blockSize, toks, g.1)
                        && KvOk(g.0, cfg.blockSize, g.1)
      else Restored(kv, a.0) && KvOk(a.0, cfg.blockSize, [])
  {
    hide KvOk, TableOk, Allocated, GetComputed, Leading, Restored, AllocateSlots, FreshNeeded;
    var bs := cfg.blockSize;
    GetComputedKv(kv, bs, toks);
    FailedAllocationRestores(kv, bs, id, toks, 0, n);
    var g := GetComputed(kv, bs, toks);
    EmptyRow(g.0, bs, id, toks);
    if FreshNeeded(g.0, bs, id, 0, n, g.1) <= |g.0.pool.free| {
      AllocateKv(g.0, bs, id, toks, 0, n, g.1);
      assert TableOf(g.0, id) + g.1 == g.1;
    } else {
      TooFew(g.0, bs, id, toks, 0, n, g.1);
    }
  }

  lemma TooFew(kv: KV, bs: nat, id: Id, toks: seq<Token>, computed: nat, n: nat, hits: seq<BlockId>)
    requires bs > 0 && KvShaped(kv) && InPool(kv.pool, hits) && FreshNeeded(kv, bs, id, computed, n, hits) > |kv.pool.free|
    ensures AllocateSlots(kv, bs, id, toks, computed, n, hits).1.None?
  {
    hide FreshNeeded;
  }

  /** What admission establishes about the new KV state. */
  ghost predicate AdmittedKv(cfg: Config, s: Sched, kv1: KV, kv2: KV, id: Id, hits: seq<BlockId>, n: nat)
    requires cfg.blockSize > 0
  {
    && id in s.reqs && s.reqs[id].computed == 0
    && SameRowsAll(s.kv, kv1)
    && KvOk(kv1, cfg.blockSize, hits)
    && Leading(kv1.pool, cfg.blockSize, s.reqs[id].Tokens(), hits)
    && Allocated(kv1, kv2, cfg.blockSize, id, s.reqs[id].Tokens(), |hits| * cfg.blockSize + n, hits)
  }

  function Admitted(s: Sched, id: Id, rest: seq<Id>, kv2: KV, cached: nat): Sched
    requires id in s.reqs
  {
    s.(waiting := rest, running := s.running + [id],
       reqs := s.reqs[id := s.reqs[id].(status := Running, computed := cached)], kv := kv2)
  }

  lemma AdmitRows(cfg: Config, s: Sched, out: seq<Item>, kv1: KV, kv2: KV, id: Id, hits: seq<BlockId>, rest: seq<Id>, it: Item)
    requires cfg.blockSize > 0 && Lists(s) && Rows(cfg, s, out) && id in s.waiting && Fresh(out, id)
    requires AdmittedKv(cfg, s, kv1, kv2, id, hits, |it.chunk|) && it.id == id
    ensures Rows(cfg, Admitted(s, id, rest, kv2, |hits| * cfg.blockSize), out + [it])
  {
    hide KvOk, TableOk, Leading;
    var s' := Admitted(s, id, rest, kv2, |hits| * cfg.blockSize);
    forall r | r in s'.running ensures RowOk(cfg, s', out + [it], r) {
      GrantedSnoc(out, it, r);
      if r != id {
        assert RowOk(cfg, s, out, r);
        assert SameRow(kv1, kv2, r);
        RowFrame(cfg, s, s', out, out + [it], r);
      }
    }
    forall x ensures x in s'.kv.tables <==> x in s'.running {
      assert x in kv2.tables.Keys - {id} <==> x in kv1.tables.Keys - {id};
    }
    forall x | x in s'.kv.chains ensures x in s'.running {
      assert x != id ==> x in kv2.chains.Keys - {id};
    }
  }

  lemma AdmitFilling(cfg: Config, s: Sched, out: seq<Item>, kv1: KV, kv2: KV, id: Id, hits: seq<BlockId>, rest: seq<Id>, n: nat)
    requires cfg.blockSize > 0 && Lists(s) && Rows(cfg, s, out) && id in s.waiting && Filling(s, cfg.blockSize)
    requires AdmittedKv(cfg, s, kv1, kv2, id, hits, n)
    ensures Filling(Admitted(s, id, rest, kv2, |hits| * cfg.blockSize), cfg.blockSize)
  {
    hide KvOk, TableOk, RowOk, Leading, SharedAt, HashSources, Filling, PastOne;
    var s' := Admitted(s, id, rest, kv2, |hits| * cfg.blockSize);
    assert |hits| <= |TableOf(kv2, id)|;
    forall a, b, i: nat | a in s'.running && b in s'.running && a != b && SharedAt(s'.kv, a, b, i)
      ensures PastOne(s', cfg.blockSize, a, b, i)
    {
      ExtendedSharing(s.(kv := kv1), kv2, id, |hits|, a, b, i);
      AdmitPair(cfg, s, s', kv1, id, hits, a, b, i);
    }
    FillingIs(s', cfg.blockSize);
  }

  lemma FillingIs(s: Sched, bs: nat)
    requires forall a, b, i: nat :: a in s.running && b in s.running && a != b && SharedAt(s.kv, a, b, i) ==> PastOne(s, bs, a, b, i)
    ensures Filling(s, bs)
  {
  }

  /** A block shared after an admission: below the hits for the admitted request, as before for others. */
  lemma AdmitPair(cfg: Config, s: Sched, s': Sched, kv1: KV, id: Id, hits: seq<BlockId>, a: Id, b: Id, i: nat)
    requires Filling(s, cfg.blockSize) && SameRowsAll(s.kv, kv1) && a != b && id in s'.reqs
    requires s'.reqs[id].computed == |hits| * cfg.blockSize
    requires forall x :: x in s.reqs && x != id ==> x in s'.reqs && s'.reqs[x] == s.reqs[x]
    requires a in s.reqs && b in s.reqs
    requires (a == id || a in s.running) && (b == id || b in s.running)
    requires if a == id || b == id then i < |hits| else SharedAt(kv1, a, b, i)
    ensures PastOne(s', cfg.blockSize, a, b, i)
  {
    if a == id || b == id {
      MulMono(i + 1, |hits|, cfg.blockSize);
    } else {
      assert SharedAt(s.kv, a, b, i);
      assert PastOne(s, cfg.blockSize, a, b, i);
    }
  }

  lemma AdmitItems(cfg: Config, s: Sched, out: seq<Item>, kv1: KV, kv2: KV, id: Id, rest: seq<Id>, cached: nat, n: nat)
    requires Items(s, out) && Lists(s) && id in s.waiting && Fresh(out, id)
    requires SameRowsAll(s.kv, kv1) && OthersKept(kv1, kv2, id)
    requires forall x :: x in s.kv.tables <==> x in s.running
    requires 0 < n && cached + n <= s.reqs[id].NumTokens()
    ensures var s' := Admitted(s, id, rest, kv2, cached); Items(s', out + [MakeScheduled(s', id, n, true)])
  {
    hide SameRow, ItemOk;
    var s' := Admitted(s, id, rest, kv2, cached);
    var it := MakeScheduled(s', id, n, true);
    var out' := out + [it];
    MadeItem(s', id, n, true);
    forall k | 0 <= k < |out'| ensures ItemOk(s', out'[k]) {
      if k < |out| {
        assert ItemOk(s, out[k]);
        ItemRuns(s, out[k]);
        KeptItem(s, s', kv1, id, out[k]);
      }
    }
    assert it.id == id;
  }

  lemma ItemRuns(s: Sched, it: Item)
    requires ItemOk(s, it)
    ensures it.id in s.running && it.id in s.reqs
  {
  }

  /** What _make_scheduled builds describes its request's next n tokens. */
  lemma MadeItem(s: Sched, id: Id, n: nat, isNew: bool)
    requires id in s.running && id in s.reqs && 0 < n && s.reqs[id].computed + n <= s.reqs[id].NumTokens()
    ensures var it := MakeScheduled(s, id, n, isNew); ItemOk(s, it) && it.id == id && |it.chunk| == n && it.isNew == isNew
  {
  }

  lemma KeptItem(s: Sched, s': Sched, kv1: KV, id: Id, it: Item)
    requires ItemOk(s, it) && it.id != id && SameRowsAll(s.kv, kv1) && OthersKept(kv1, s'.kv, id)
    requires it.id in s.kv.tables && it.id in s'.running && it.id in s'.reqs && s'.reqs[it.id] == s.reqs[it.id]
    ensures ItemOk(s', it)
  {
    assert SameRow(kv1, s'.kv, it.id);
  }

  lemma AdmitInv(cfg: Config, s: Sched, out: seq<Item>, kv1: KV, kv2: KV, id: Id, hits: seq<BlockId>, rest: seq<Id>, n: nat)
    requires SInv(cfg, s, out) && Without(s.waiting, id, rest)
    requires AdmittedKv(cfg, s, kv1, kv2, id, hits, n)
    requires 0 < n && |hits| * cfg.blockSize + n <= s.reqs[id].NumTokens()
    requires |s.running| < cfg.maxNumSeqs
    ensures var s' := Admitted(s, id, rest, kv2, |hits| * cfg.blockSize);
      SInv(cfg, s', out + [MakeScheduled(s', id, n, true)])
  {
    hide Rows, Filling, ItemOk, AdmittedKv, MakeScheduled;
    NotAmongItems(s, out, id);
    AdmittedParts(cfg, s, kv1, kv2, id, hits, n);
    RunningTables(cfg, s, out);
    var s' := Admitted(s, id, rest, kv2, |hits| * cfg.blockSize);
    var it := MakeScheduled(s', id, n, true);
    ChunkLength(s', id, n);
    AdmitRows(cfg, s, out, kv1, kv2, id, hits, rest, it);
    AdmitFilling(cfg, s, out, kv1, kv2, id, hits, rest, n);
    AdmitItems(cfg, s, out, kv1, kv2, id, rest, |hits| * cfg.blockSize, n);
    DistinctAppend(s.running, id);
    forall x | x in s'.reqs ensures StatusOk(s', x) { assert StatusOk(s, x); }
  }

  lemma NotAmongItems(s: Sched, out: seq<Item>, id: Id)
    requires Lists(s) && Items(s, out) && id in s.waiting
    ensures Fresh(out, id)
  {
    forall k | 0 <= k < |out| ensures out[k].id != id { assert ItemOk(s, out[k]); }
  }

  lemma RunningTables(cfg: Config, s: Sched, out: seq<Item>)
    requires cfg.blockSize > 0 && Rows(cfg, s, out)
    ensures forall x :: x in s.kv.tables <==> x in s.running
  {
  }

  lemma AdmittedParts(cfg: Config, s: Sched, kv1: KV, kv2: KV, id: Id, hits: seq<BlockId>, n: nat)
    requires cfg.blockSize > 0 && AdmittedKv(cfg, s, kv1, kv2, id, hits, n)
    ensures id in s.reqs && s.reqs[id].computed == 0 && SameRowsAll(s.kv, kv1) && OthersKept(kv1, kv2, id)
    ensures |hits| * cfg.blockSize + n <= |s.reqs[id].Tokens()|
  {
  }

  lemma ChunkLength(s: Sched, id: Id, n: nat)
    requires id in s.reqs && s.reqs[id].computed + n <= s.reqs[id].NumTokens()
    ensures |MakeScheduled(s, id, n, true).chunk| == n && MakeScheduled(s, id, n, true).id == id
  {
  }

  /** A failed admission only reorders the free queue. */
  lemma RestoredInv(cfg: Config, s: Sched, out: seq<Item>, kv': KV)
    requires SInv(cfg, s, out) && Restored(s.kv, kv') && KvOk(kv', cfg.blockSize, [])
    ensures SInv(cfg, s.(kv := kv'), out)
  {
    hide Rows, Filling, KvOk, ItemOk;
    var s' := s.(kv := kv');
    StatusesFewer(s, s');
    RestoredRows(cfg, s, out, kv');
    assert forall id :: TableOf(kv', id) == TableOf(s.kv, id);
    FillingFewer(s, s', cfg.blockSize);
    RestoredItems(s, out, s');
  }

  lemma RestoredRows(cfg: Config, s: Sched, out: seq<Item>, kv': KV)
    requires cfg.blockSize > 0 && Rows(cfg, s, out) && Restored(s.kv, kv') && KvOk(kv', cfg.blockSize, [])
    ensures Rows(cfg, s.(kv := kv'), out)
  {
    hide KvOk, TableOk;
    var s' := s.(kv := kv');
    forall r | r in s'.running ensures RowOk(cfg, s', out, r) {
      assert RowOk(cfg, s, out, r);
      RowFrame(cfg, s, s', out, out, r);
    }
  }

  lemma RestoredItems(s: Sched, out: seq<Item>, s': Sched)
    requires Items(s, out) && s' == s.(kv := s'.kv) && s'.kv.tables == s.kv.tables
    ensures Items(s', out)
  {
    forall k | 0 <= k < |out| ensures ItemOk(s', out[k]) { assert ItemOk(s, out[k]); }
  }
}
