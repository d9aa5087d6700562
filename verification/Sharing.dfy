/** Blocks in several tables: what the sharers have in common, and who can still have to fill one. */
module Sharing {
  import opened Util
  import opened Hashing
  import opened BlockPoolSpec
  import opened BlockManagerSpec
  import opened BlockManagerInv
  import opened AllocationInv
  import opened SchedulerSpec
  import opened SchedulerInv

  /** A block in two running requests' tables sits at the same index of both, is registered,
      and covers the same tokens in both. */
  lemma SharedPrefix(cfg: Config, s: Sched, out: seq<Item>, a: Id, b: Id, i: nat, j: nat)
    requires SInv(cfg, s, out) && a in s.running && b in s.running && a != b
    requires i < |TableOf(s.kv, a)| && j < |TableOf(s.kv, b)| && TableOf(s.kv, a)[i] == TableOf(s.kv, b)[j]
    ensures i == j && s.kv.pool.caching && a in s.reqs && b in s.reqs
    ensures (i + 1) * cfg.blockSize <= |s.reqs[a].Tokens()| && (i + 1) * cfg.blockSize <= |s.reqs[b].Tokens()|
    ensures s.reqs[a].Tokens()[..(i + 1) * cfg.blockSize] == s.reqs[b].Tokens()[..(i + 1) * cfg.blockSize]
  {
    hide Filling, Items, Statuses, Bounded, Arrivals, SlotCap, TableOk, Chain, PoolOk, Counted, HashesBlocked;
    var bs := cfg.blockSize;
    assert RowOk(cfg, s, out, a) && RowOk(cfg, s, out, b);
    TableOfRunning(cfg, s, out, a);
    TableOfRunning(cfg, s, out, b);
    var blk := TableOf(s.kv, a)[i];
    if s.kv.pool.hash[blk] == NoHash {
      PrivateHolder(s.kv, bs, [], blk, a, b);
    }
    RegisteredChain(s.kv, bs, a, s.reqs[a].Tokens(), Cover(s, out, a), i);
    RegisteredChain(s.kv, bs, b, s.reqs[b].Tokens(), Cover(s, out, b), j);
    ChainAgree(s.reqs[a].Tokens(), s.reqs[b].Tokens(), bs, i + 1, j + 1);
  }

  lemma TableOfRunning(cfg: Config, s: Sched, out: seq<Item>, a: Id)
    requires SInv(cfg, s, out) && a in s.running
    ensures cfg.blockSize > 0 && a in s.kv.tables && TableOf(s.kv, a) == s.kv.tables[a]
    ensures KvOk(s.kv, cfg.blockSize, []) && |s.kv.pool.hash| == |s.kv.pool.refs|
    ensures forall i: nat :: i < |TableOf(s.kv, a)| ==> TableOf(s.kv, a)[i] < |s.kv.pool.hash|
    ensures RowOk(cfg, s, out, a) && Distinct(TableOf(s.kv, a))
  {
    hide Filling, Items, Statuses, Bounded, Arrivals, SlotCap, PoolOk, Counted, HashesBlocked, Chain;
    assert RowOk(cfg, s, out, a);
    forall i: nat | i < |TableOf(s.kv, a)| ensures TableOf(s.kv, a)[i] < |s.kv.pool.hash| {
      assert HashAt(s.kv, TableOf(s.kv, a), ChainOf(s.kv, a), i);
    }
  }

  /** A registered block of a table is full and carries that table's own chain entry. */
  lemma RegisteredChain(kv: KV, bs: nat, id: Id, toks: seq<Token>, cover: nat, i: nat)
    requires bs > 0 && TableOk(kv, bs, id, toks, cover) && i < |TableOf(kv, id)|
    requires TableOf(kv, id)[i] < |kv.pool.hash| && kv.pool.hash[TableOf(kv, id)[i]] != NoHash
    ensures kv.pool.hash[TableOf(kv, id)[i]] == Chain(toks, bs, i + 1)
    ensures (i + 1) * bs <= cover <= |toks| && kv.pool.caching
  {
    hide Chain, Distinct;
    assert HashAt(kv, TableOf(kv, id), ChainOf(kv, id), i);
    FloorBounds(cover, bs);
    MulMono(i + 1, FloorDiv(cover, bs), bs);
  }

  // ------------------------------------------------------------------ sharing within a step

  /** id was admitted in this call. */
  ghost predicate NewIn(out: seq<Item>, id: Id) {
    exists k :: 0 <= k < |out| && out[k].id == id && out[k].isNew
  }

  /** id has not computed all of its block i. */
  ghost predicate Unfilled(s: Sched, bs: nat, id: Id, i: nat) {
    id in s.reqs && s.reqs[id].computed < (i + 1) * bs
  }

  /** A block one sharer still has to fill is shared only with requests admitted in this call. */
  ghost predicate LateSharing(bs: nat, s: Sched, out: seq<Item>) {
    forall a, b, i: nat :: a in s.running && b in s.running && a != b && SharedAt(s.kv, a, b, i) && Unfilled(s, bs, b, i) ==> NewIn(out, a)
  }

  /** Between steps every shared block is full and computed. */
  lemma NoLateSharing(cfg: Config, s: Sched)
    requires SInv(cfg, s, [])
    ensures LateSharing(cfg.blockSize, s, [])
  {
    hide SInv, SharedAt;
    forall a, b, i: nat | a in s.running && b in s.running && a != b && SharedAt(s.kv, a, b, i) ensures !Unfilled(s, cfg.blockSize, b, i) {
      SharedComputed(cfg, s, a, b, i);
    }
  }

  lemma SharedComputed(cfg: Config, s: Sched, a: Id, b: Id, i: nat)
    requires SInv(cfg, s, []) && a in s.running && b in s.running && a != b && SharedAt(s.kv, a, b, i)
    ensures !Unfilled(s, cfg.blockSize, b, i)
  {
    hide SInv, TableOk, Chain, PoolOk, Counted, HashesBlocked;
    var bs := cfg.blockSize;
    TableOfRunning(cfg, s, [], a);
    TableOfRunning(cfg, s, [], b);
    var blk := TableOf(s.kv, b)[i];
    if s.kv.pool.hash[blk] == NoHash {
      PrivateHolder(s.kv, bs, [], blk, a, b);
    }
    RegisteredChain(s.kv, bs, b, s.reqs[b].Tokens(), Cover(s, [], b), i);
  }

  lemma NewKept(out: seq<Item>, it: Item, id: Id)
    ensures NewIn(out, id) ==> NewIn(out + [it], id)
    ensures it.isNew ==> NewIn(out + [it], it.id)
  {
    var out' := out + [it];
    assert out'[|out|] == it;
    if NewIn(out, id) {
      var k :| 0 <= k < |out| && out[k].id == id && out[k].isNew;
      assert out'[k].id == id && out'[k].isNew;
    }
  }

  /** Fewer run, with the same tables and counts. */
  lemma SharingFewer(bs: nat, s: Sched, s': Sched, out: seq<Item>)
    requires LateSharing(bs, s, out)
    requires forall id :: id in s'.running ==>
      id in s.running && TableOf(s'.kv, id) == TableOf(s.kv, id)
      && (id in s'.reqs ==> id in s.reqs && s'.reqs[id].computed == s.reqs[id].computed)
    ensures LateSharing(bs, s', out)
  {
    hide NewIn;
    forall a, b, i: nat | a in s'.running && b in s'.running && a != b && SharedAt(s'.kv, a, b, i) && Unfilled(s', bs, b, i)
      ensures NewIn(out, a)
    {
      assert SharedAt(s.kv, a, b, i) && Unfilled(s, bs, b, i);
    }
  }

  /** Fresh blocks are private, so a grant shares nothing new. */
  lemma SharingGrant(cfg: Config, s: Sched, out: seq<Item>, s': Sched, id: Id, n: nat, it: Item)
    requires cfg.blockSize > 0 && Rows(cfg, s, out) && id in s.running && LateSharing(cfg.blockSize, s, out)
    requires Extended(cfg, s, s'.kv, id, n) && s' == s.(kv := s'.kv)
    ensures LateSharing(cfg.blockSize, s', out + [it])
  {
    hide KvOk, TableOk, RowOk, NewIn;
    var t := TableOf(s.kv, id);
    forall a, b, i: nat | a in s'.running && b in s'.running && a != b && SharedAt(s'.kv, a, b, i) && Unfilled(s', cfg.blockSize, b, i)
      ensures NewIn(out + [it], a)
    {
      ExtendedSharing(s, s'.kv, id, |t|, a, b, i);
      if a == id {
        assert SameRow(s.kv, s'.kv, b);
        assert TableOf(s'.kv, id)[..|t|] == t;
      } else if b == id {
        assert SameRow(s.kv, s'.kv, a);
        assert TableOf(s'.kv, id)[..|t|] == t;
      }
      assert SharedAt(s.kv, a, b, i) && Unfilled(s, cfg.blockSize, b, i);
      NewKept(out, it, a);
    }
  }

  /** An admitted request shares exactly its hits, all of which it counts as computed. */
  lemma SharingAdmit(cfg: Config, s: Sched, out: seq<Item>, kv1: KV, kv2: KV, id: Id, hits: seq<BlockId>, rest: seq<Id>, n: nat, it: Item)
    requires cfg.blockSize > 0 && Lists(s) && Rows(cfg, s, out) && id in s.waiting && LateSharing(cfg.blockSize, s, out)
    requires AdmittedKv(cfg, s, kv1, kv2, id, hits, n) && it.isNew && it.id == id
    ensures LateSharing(cfg.blockSize, Admitted(s, id, rest, kv2, |hits| * cfg.blockSize), out + [it])
  {
    hide KvOk, TableOk, RowOk, Leading, HashSources, SharedAt, NewIn, LateSharing;
    var bs := cfg.blockSize;
    var s' := Admitted(s, id, rest, kv2, |hits| * bs);
    assert |hits| <= |TableOf(kv2, id)|;
    forall a, b, i: nat | a in s'.running && b in s'.running && a != b && SharedAt(s'.kv, a, b, i) && Unfilled(s', bs, b, i)
      ensures NewIn(out + [it], a)
    {
      ExtendedSharing(s.(kv := kv1), kv2, id, |hits|, a, b, i);
      NewKept(out, it, a);
      if b == id {
        MulMono(i + 1, |hits|, bs);
      } else if a != id {
        OldSharers(bs, s, out, kv1, a, b, i);
      }
    }
    LateSharingIs(bs, s', out + [it]);
  }

  lemma OldSharers(bs: nat, s: Sched, out: seq<Item>, kv1: KV, a: Id, b: Id, i: nat)
    requires LateSharing(bs, s, out) && SameRowsAll(s.kv, kv1) && a in s.running && b in s.running && a != b
    requires SharedAt(kv1, a, b, i) && Unfilled(s, bs, b, i)
    ensures NewIn(out, a)
  {
    hide NewIn;
    assert SharedAt(s.kv, a, b, i);
  }

  lemma LateSharingIs(bs: nat, s: Sched, out: seq<Item>)
    requires forall a, b, i: nat :: a in s.running && b in s.running && a != b && SharedAt(s.kv, a, b, i) && Unfilled(s, bs, b, i) ==> NewIn(out, a)
    ensures LateSharing(bs, s, out)
  {
  }
}
