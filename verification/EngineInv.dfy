/** The engine's invariant: the scheduler's own, the labels and the cache that realises them,
    the mirrored histories, and every live request's output on its solo stream. */
module EngineInv {
  import opened Hashing
  import opened BlockManagerSpec
  import opened BlockManagerInv
  import opened AllocationInv
  import opened RequestSpec
  import opened SchedulerSpec
  import opened SchedulerInv
  import opened UpdateStep
  import opened Model
  import opened ForwardCorrect
  import opened LabelInv
  import opened WriteLabels
  import opened ExecuteCorrect

  ghost predicate MirrorAt(s: Sched, states: map<Id, SamplerState>, out: seq<Item>, id: Id) {
    id in s.reqs && id in states && states[id] == Mirror(s.reqs[id], Cover(s, out, id))
  }

  /** The runner's history of every running request is its tokens, as far as computed. */
  ghost predicate Mirrored(s: Sched, states: map<Id, SamplerState>, out: seq<Item>) {
    forall id :: id in s.running ==> MirrorAt(s, states, out, id)
  }

  ghost predicate StreamAt(net: Net, maxModelLen: nat, media: Media, r: Req, id: Id) {
    && OnSoloStream(net, maxModelLen, EmbedsOf(media, id), r)
    && (r.output != [] ==> CheckStop(r, maxModelLen).None?)
  }

  /** Every live request's output is a prefix of its solo stream that has not stopped yet. */
  ghost predicate OnStream(net: Net, maxModelLen: nat, media: Media, s: Sched) {
    forall id :: id in s.reqs ==> StreamAt(net, maxModelLen, media, s.reqs[id], id)
  }

  /** A request handed back by a step: on its solo stream, with the status the solo run has there. */
  ghost predicate Emitted(net: Net, maxModelLen: nat, media: Media, u: (Id, Req)) {
    && OnSoloStream(net, maxModelLen, EmbedsOf(media, u.0), u.1)
    && u.1.output != []
    && u.1.status == (match CheckStop(u.1, maxModelLen) case None => Running case Some(st) => st)
  }

  // ------------------------------------------------------------------ one item of the update

  /** What holds while the update consumes its items. */
  ghost predicate UInv(net: Net, cfg: Config, media: Media, sampled: map<Id, Token>,
                       s: Sched, rest: seq<Item>, labels: Labels) {
    && RunSettled(net, media, s, rest, cfg.blockSize, labels)
    && HashSettled(s, cfg.blockSize, labels)
    && OnStream(net, cfg.maxModelLen, media, s)
    && (forall k :: 0 <= k < |rest| && rest[k].doSample ==> SoloSampled(net, media, s, rest[k].id, sampled))
  }

  /** The request that sampled token t alone has it as its next output. */
  lemma StreamStep(net: Net, maxModelLen: nat, embeds: seq<Row>, r: Req, t: Token, computed: nat)
    requires OnSoloStream(net, maxModelLen, embeds, r) && (r.output != [] ==> CheckStop(r, maxModelLen).None?)
    requires t == NextToken(net, embeds, r.prompt, r.params, r.Tokens())
    ensures OnSoloStream(net, maxModelLen, embeds, r.(computed := computed, output := r.output + [t]))
  {
    var r' := r.(computed := computed, output := r.output + [t]);
    forall n | 0 < n < |r'.output| ensures CheckStop(r'.(output := r'.output[..n]), maxModelLen).None? {
      assert r'.output[..n] == r.output[..n];
      if n == |r.output| { assert r.output[..n] == r.output; }
    }
  }

  lemma AdvancedStream(net: Net, maxModelLen: nat, media: Media, s: Sched, it: Item, sampled: map<Id, Token>)
    requires it.id in s.reqs && StreamAt(net, maxModelLen, media, s.reqs[it.id], it.id)
    requires it.doSample ==> SoloSampled(net, media, s, it.id, sampled)
    ensures OnSoloStream(net, maxModelLen, EmbedsOf(media, it.id), Advanced(s.reqs[it.id], it, sampled))
    ensures !it.doSample ==> StreamAt(net, maxModelLen, media, Advanced(s.reqs[it.id], it, sampled), it.id)
  {
    var r := s.reqs[it.id];
    if it.doSample {
      StreamStep(net, maxModelLen, EmbedsOf(media, it.id), r, sampled[it.id], r.computed + |it.chunk|);
    }
  }

  /** Input rows of known tokens do not depend on tokens generated later. */
  lemma AdvancedPrefix(net: Net, media: Media, r: Req, it: Item, sampled: map<Id, Token>, id: Id, n: nat)
    requires (it.doSample ==> it.id in sampled) && n <= |r.Tokens()|
    ensures |Advanced(r, it, sampled).Tokens()| >= |r.Tokens()|
    ensures RowsFor(net, media, id, Advanced(r, it, sampled).Tokens())[..n] == RowsFor(net, media, id, r.Tokens())[..n]
  {
    var t := r.Tokens();
    if it.doSample {
      var more := [sampled[it.id]];
      assert Advanced(r, it, sampled).Tokens() == t + more;
      InputsAppend(net, EmbedsOf(media, id), t, more);
      var xs := RowsFor(net, media, id, t + more);
      assert xs[..|t|][..n] == xs[..n];
    }
  }

  /** Advancing a request changes no covered position's prefix. */
  lemma AdvancedSettled(net: Net, media: Media, cfg: Config, s: Sched, it: Item, rest: seq<Item>, sampled: map<Id, Token>, labels: Labels, id: Id, i: nat, o: nat)
    requires Fresh(rest, it.id) && it.id in s.reqs && (it.doSample ==> it.id in sampled) && id in s.reqs
    requires Cover(s, [it] + rest, id) <= |s.reqs[id].Tokens()|
    requires RunSettledAt(net, media, s, [it] + rest, cfg.blockSize, labels, id, i, o)
    ensures RunSettledAt(net, media, s.(reqs := s.reqs[it.id := Advanced(s.reqs[it.id], it, sampled)]), rest, cfg.blockSize, labels, id, i, o)
  {
    hide RowsFor, HasLabel, Granted;
    GrantedCons(it, rest, id);
    if id == it.id {
      GrantedFresh(rest, id);
      if i * cfg.blockSize + o + 1 <= |s.reqs[id].Tokens()| {
        AdvancedPrefix(net, media, s.reqs[id], it, sampled, id, i * cfg.blockSize + o + 1);
      }
    }
  }

  lemma AdvancedMirror(s: Sched, it: Item, rest: seq<Item>, sampled: map<Id, Token>, states: map<Id, SamplerState>, id: Id)
    requires Fresh(rest, it.id) && it.id in s.reqs && (it.doSample ==> it.id in sampled) && id in s.reqs
    requires Cover(s, [it] + rest, id) <= |s.reqs[id].Tokens()|
    requires MirrorAt(s, states, [it] + rest, id)
    ensures MirrorAt(s.(reqs := s.reqs[it.id := Advanced(s.reqs[it.id], it, sampled)]), states, rest, id)
  {
    GrantedCons(it, rest, id);
    if id == it.id {
      GrantedFresh(rest, id);
      if it.doSample {
        assert Advanced(s.reqs[id], it, sampled).Tokens() == s.reqs[id].Tokens() + [sampled[id]];
      }
    }
  }

  lemma CoverBound(cfg: Config, s: Sched, out: seq<Item>, id: Id)
    requires SInv(cfg, s, out) && id in s.running
    ensures id in s.reqs && Cover(s, out, id) <= |s.reqs[id].Tokens()|
  {
    hide KvOk, Filling, Items, Statuses, Bounded, Arrivals, Lists;
    assert RowOk(cfg, s, out, id);
  }

  /** The state after advancing, before a possible finish. */
  function AdvancedSched(s: Sched, it: Item, sampled: map<Id, Token>): Sched
    requires it.id in s.reqs && (it.doSample ==> it.id in sampled)
  {
    s.(reqs := s.reqs[it.id := Advanced(s.reqs[it.id], it, sampled)])
  }

  lemma AdvanceRun(net: Net, cfg: Config, media: Media, sampled: map<Id, Token>,
                   s: Sched, it: Item, rest: seq<Item>, labels: Labels)
    requires SInv(cfg, s, [it] + rest) && UInv(net, cfg, media, sampled, s, [it] + rest, labels)
    requires it.doSample ==> it.id in sampled
    ensures it.id in s.reqs && Fresh(rest, it.id)
    ensures var s1 := AdvancedSched(s, it, sampled);
      && RunSettled(net, media, s1, rest, cfg.blockSize, labels)
      && HashSettled(s1, cfg.blockSize, labels)
  {
    hide SInv, SInvBut, RunSettledAt, HashSettledAt, StreamAt, SoloSampled, Advanced;
    AdvanceInv(cfg, s, it, rest, sampled);
    var s1 := AdvancedSched(s, it, sampled);
    forall id, i: nat, o: nat | id in s1.running ensures RunSettledAt(net, media, s1, rest, cfg.blockSize, labels, id, i, o) {
      CoverBound(cfg, s, [it] + rest, id);
      assert RunSettledAt(net, media, s, [it] + rest, cfg.blockSize, labels, id, i, o);
      AdvancedSettled(net, media, cfg, s, it, rest, sampled, labels, id, i, o);
    }
    forall b: nat, o: nat ensures HashSettledAt(s1, cfg.blockSize, labels, b, o) {
      HashSame(s, s1, cfg.blockSize, labels, b, o);
    }
  }

  lemma HashSame(s: Sched, s1: Sched, bs: nat, labels: Labels, b: nat, o: nat)
    requires HashSettled(s, bs, labels) && s1.kv.pool.hash == s.kv.pool.hash
    ensures HashSettledAt(s1, bs, labels, b, o)
  {
    assert HashSettledAt(s, bs, labels, b, o);
  }

  /** Finishing a request keeps every other request's promises. */
  lemma FinishRun(net: Net, cfg: Config, media: Media, s: Sched, rest: seq<Item>, id: Id, labels: Labels)
    requires SInvBut(cfg, s, rest, id) && Settled(s) && id in s.running && id !in s.waiting
    requires RunSettled(net, media, s, rest, cfg.blockSize, labels) && HashSettled(s, cfg.blockSize, labels)
    ensures var s' := FinishRunning(s, id);
      && RunSettled(net, media, s', rest, cfg.blockSize, labels)
      && HashSettled(s', cfg.blockSize, labels)
  {
    hide KvOk, TableOk, Filling, Items, Statuses, Arrivals, Lists, SlotCap, HashSettledAt;
    var s' := FinishRunning(s, id);
    FinishRows(cfg, s, rest, id);
    assert RowOk(cfg, s, rest, id);
    RowDistinct(cfg, s, rest, id);
    FreeRequestKv(s.kv, cfg.blockSize, id);
    forall r, i: nat, o: nat | r in s'.running ensures RunSettledAt(net, media, s', rest, cfg.blockSize, labels, r, i, o) {
      assert RunSettledAt(net, media, s, rest, cfg.blockSize, labels, r, i, o);
      assert SameRow(s.kv, s'.kv, r);
    }
    forall b: nat, o: nat ensures HashSettledAt(s', cfg.blockSize, labels, b, o) {
      HashSame(s, s', cfg.blockSize, labels, b, o);
    }
  }

  lemma SampledKept(net: Net, media: Media, s: Sched, s': Sched, it: Item, rest: seq<Item>, sampled: map<Id, Token>)
    requires forall k :: 0 <= k < |[it] + rest| && ([it] + rest)[k].doSample ==> SoloSampled(net, media, s, ([it] + rest)[k].id, sampled)
    requires Fresh(rest, it.id)
    requires forall id :: id in s.reqs && id != it.id ==> id in s'.reqs && s'.reqs[id] == s.reqs[id]
    ensures forall k :: 0 <= k < |rest| && rest[k].doSample ==> SoloSampled(net, media, s', rest[k].id, sampled)
  {
    hide NextToken;
    var all := [it] + rest;
    forall k | 0 <= k < |rest| && rest[k].doSample ensures SoloSampled(net, media, s', rest[k].id, sampled) {
      assert all[k + 1] == rest[k];
      assert SoloSampled(net, media, s, all[k + 1].id, sampled);
    }
  }

  lemma StreamsKept(net: Net, maxModelLen: nat, media: Media, s: Sched, s': Sched, id: Id)
    requires OnStream(net, maxModelLen, media, s)
    requires forall x :: x in s'.reqs ==> (x == id && StreamAt(net, maxModelLen, media, s'.reqs[x], x)) || (x in s.reqs && s'.reqs[x] == s.reqs[x])
    ensures OnStream(net, maxModelLen, media, s')
  {
    hide StreamAt;
  }

  lemma AdvanceFacts(cfg: Config, s: Sched, it: Item, rest: seq<Item>)
    requires SInv(cfg, s, [it] + rest)
    ensures it.id in s.reqs && it.id in s.running && it.id !in s.waiting && s.reqs[it.id].status == Running
    ensures Fresh(rest, it.id)
  {
    hide KvOk, RowOk, Filling, Bounded, Arrivals;
    FreshTail(s, it, rest);
    assert StatusOk(s, it.id);
  }

  /** One item of the update keeps all promises and emits a correct request. */
  lemma UpdateOneRun(net: Net, cfg: Config, media: Media, sampled: map<Id, Token>,
                     s: Sched, it: Item, rest: seq<Item>, labels: Labels)
    requires SInv(cfg, s, [it] + rest) && UInv(net, cfg, media, sampled, s, [it] + rest, labels)
    requires Settled(s) && it.id !in s.waiting && (it.doSample ==> it.id in sampled)
    ensures var u := UpdateOne(cfg, s, it, sampled);
      && UInv(net, cfg, media, sampled, u.0, rest, labels)
      && (forall j :: 0 <= j < |u.1| ==> Emitted(net, cfg.maxModelLen, media, u.1[j]))
  {
    hide SInv, SInvBut, RunSettled, HashSettled, OnSoloStream, SoloSampled, KvShaped, FreeRequest, CheckStop;
    AdvanceFacts(cfg, s, it, rest);
    AdvanceRun(net, cfg, media, sampled, s, it, rest, labels);
    AdvanceInv(cfg, s, it, rest, sampled);
    var id := it.id;
    var all := [it] + rest;
    assert all[0] == it;
    AdvancedStream(net, cfg.maxModelLen, media, s, it, sampled);
    var r := Advanced(s.reqs[id], it, sampled);
    var s1 := AdvancedSched(s, it, sampled);
    SettledOf(cfg, s1, rest, id);
    var u := UpdateOne(cfg, s, it, sampled);
    if it.doSample && CheckStop(r, cfg.maxModelLen).Some? {
      FinishRun(net, cfg, media, s1, rest, id, labels);
      assert u.0 == FinishRunning(s1, id);
      StatusIrrelevant(net, cfg.maxModelLen, EmbedsOf(media, id), r, CheckStop(r, cfg.maxModelLen).value);
    } else {
      assert u.0 == s1;
    }
    SampledKept(net, media, s, u.0, it, rest, sampled);
    StreamsKept(net, cfg.maxModelLen, media, s, u.0, id);
  }

  lemma StatusIrrelevant(net: Net, maxModelLen: nat, embeds: seq<Row>, r: Req, st: Status)
    requires OnSoloStream(net, maxModelLen, embeds, r) && r.output != []
    ensures OnSoloStream(net, maxModelLen, embeds, r.(status := st))
    ensures CheckStop(r.(status := st), maxModelLen) == CheckStop(r, maxModelLen)
  {
    var r' := r.(status := st);
    forall n | 0 < n < |r'.output| ensures CheckStop(r'.(output := r'.output[..n]), maxModelLen).None? {
      assert CheckStop(r.(output := r.output[..n]), maxModelLen).None?;
    }
  }

  /** The whole update. */
  lemma {:induction false} UpdateRun(net: Net, cfg: Config, media: Media, sampled: map<Id, Token>,
                                     s: Sched, items: seq<Item>, labels: Labels)
    requires SInv(cfg, s, items) && UInv(net, cfg, media, sampled, s, items, labels)
    requires Settled(s) && forall it :: it in items ==> it.id !in s.waiting && (it.doSample ==> it.id in sampled)
    ensures var u := Update(cfg, s, items, sampled);
      && UInv(net, cfg, media, sampled, u.0, [], labels)
      && (forall j :: 0 <= j < |u.1| ==> Emitted(net, cfg.maxModelLen, media, u.1[j]))
    decreases |items|
  {
    hide SInv, UInv, Emitted, UpdateOne, KvShaped;
    if items != [] {
      var it, rest := items[0], items[1..];
      assert items == [it] + rest;
      assert it in items && forall x :: x in rest ==> x in items;
      UpdateOneInv(cfg, s, it, rest, sampled);
      UpdateOneRun(net, cfg, media, sampled, s, it, rest, labels);
      UpdateRun(net, cfg, media, sampled, UpdateOne(cfg, s, it, sampled).0, rest, labels);
    }
  }
}
