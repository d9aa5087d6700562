/** Asks that disagree on rows they may share are told apart: for every such pair there are a
    network and a run made of these asks alone in which one of them gets another one's answer. */
module Witness {
  import opened Util
  import opened Hashing
  import opened BlockPoolSpec
  import opened BlockManagerSpec
  import opened BlockManagerInv
  import opened RequestSpec
  import opened SchedulerSpec
  import opened SchedulerInv
  import opened Model
  import opened ForwardCorrect
  import opened LabelInv
  import opened EngineSpec
  import opened EngineInv
  import opened EngineSafe
  import opened EngineStep
  import opened Agreement
  import opened EngineRun
  import opened SoloRuns
  import opened Conservation
  import opened Untouched
  import opened OneSlot
  import opened Telltale
  import opened Solitary

  // ------------------------------------------------------------------ runs, event by event

  datatype Trace = Trace(states: seq<Engine>, evs: seq<Event>, outs: seq<seq<(Id, Req)>>)

  predicate AddOk(asks: map<Id, Ask>, ev: Event) {
    ev.Add? ==> ev.id in asks && AskOf(ev) == asks[ev.id]
  }

  /** A lawful run from e0 in which each id asks what it is listed with. */
  ghost predicate Traced(net: Net, cfg: Config, size: nat, e0: Engine, asks: map<Id, Ask>, tr: Trace) {
    && IsRun(net, cfg, size, tr.states, tr.evs, tr.outs) && Lawful(cfg, tr.states, tr.evs) && tr.states[0] == e0
    && forall i :: 0 <= i < |tr.evs| ==> AddOk(asks, tr.evs[i])
  }

  function End(tr: Trace): Engine
    requires tr.states != []
  {
    tr.states[|tr.states| - 1]
  }

  lemma TraceStates(net: Net, cfg: Config, size: nat, e0: Engine, asks: map<Id, Ask>, tr: Trace)
    requires Traced(net, cfg, size, e0, asks, tr)
    ensures |tr.states| == |tr.evs| + 1 && |tr.outs| == |tr.evs|
  {
  }

  lemma TraceStart(net: Net, cfg: Config, size: nat, e0: Engine, asks: map<Id, Ask>)
    ensures Traced(net, cfg, size, e0, asks, Trace([e0], [], []))
  {
  }

  lemma Extend(net: Net, cfg: Config, size: nat, e0: Engine, asks: map<Id, Ask>, tr: Trace, ev: Event) returns (tr': Trace)
    requires Traced(net, cfg, size, e0, asks, tr) && tr.states != [] && AddOk(asks, ev)
    requires Defined(net, cfg, size, End(tr), ev) && Legal(cfg, End(tr), ev)
    ensures Traced(net, cfg, size, e0, asks, tr') && tr'.states != [] && tr'.outs != []
    ensures (End(tr'), tr'.outs[|tr'.outs| - 1]) == Apply(net, cfg, size, End(tr), ev)
  {
    hide Defined, Apply, Legal, AddOk;
    var (e', us) := Apply(net, cfg, size, End(tr), ev);
    tr' := Trace(tr.states + [e'], tr.evs + [ev], tr.outs + [us]);
    forall i: nat | i < |tr'.evs| ensures RunStep(net, cfg, size, tr'.states, tr'.evs, tr'.outs, i) {
      if i < |tr.evs| { assert RunStep(net, cfg, size, tr.states, tr.evs, tr.outs, i); }
    }
    forall i | 0 <= i < |tr'.evs| ensures Legal(cfg, tr'.states[i], tr'.evs[i]) {
      if i < |tr.evs| { assert Legal(cfg, tr.states[i], tr.evs[i]); }
    }
  }

  /** One more step, which does not raise. */
  lemma ExtendStep(net: Net, cfg: Config, size: nat, e0: Engine, asks: map<Id, Ask>, tr: Trace) returns (tr': Trace)
    requires Traced(net, cfg, size, e0, asks, tr) && tr.states != []
    requires StepDefined(net, cfg, End(tr), size) && Step(net, cfg, End(tr), size).1.Outputs?
    ensures Traced(net, cfg, size, e0, asks, tr') && tr'.states != [] && tr'.outs != []
    ensures End(tr') == Step(net, cfg, End(tr), size).0
    ensures tr'.outs[|tr'.outs| - 1] == Step(net, cfg, End(tr), size).1.outputs
  {
    hide StepDefined, Step, Traced, NoStale, RaisesNow;
    RaisedOnly(net, cfg, size, End(tr));
    tr' := Extend(net, cfg, size, e0, asks, tr, StepEvent);
  }

  // ------------------------------------------------------------------ following the prefix

  lemma FollowNext(w: Scene, r: Req, r': Req, row: Row)
    requires w.Ok() && Follows(w.prefix, r.Tokens())
    requires Next(r, r', w.Network().sample(row, SamplerState(r.params, |r.prompt|, r.Tokens())))
    ensures Follows(w.prefix, r'.Tokens()) && r'.NumTokens() == r.NumTokens() + 1 && (Plain(r) ==> Plain(r'))
  {
    SceneToken(w, row, r);
    assert r'.Tokens() == r.Tokens() + [w.Network().sample(row, SamplerState(r.params, |r.prompt|, r.Tokens()))];
  }

  /** The labels go along while the run is sound. */
  lemma MaySound(net: Net, cfg: Config, size: nat, e: Engine, labels: Labels, sound: bool) returns (labels': Labels)
    requires sound ==> EInv(net, cfg, size, e, labels)
    requires StepDefined(net, cfg, e, size) && Step(net, cfg, e, size).1.Outputs? && e.r.graphs == None
    ensures labels'.book == labels.book && (sound ==> EInv(net, cfg, size, Step(net, cfg, e, size).0, labels'))
  {
    hide EInv, StepDefined, Step;
    labels' := labels;
    NoGraphs(net, cfg, e);
    if sound { labels' := StepKeeps(net, cfg, size, e, labels); }
  }

  /** A request that follows the prefix and has j tokens to go before its last. */
  ghost predicate OnTheWay(w: Scene, cfg: Config, size: nat, e: Engine, id: Id, m: nat, j: nat) {
    && w.Ok() && cfg.blockSize == w.bs && Lone(w.Network(), cfg, size, e, id, m)
    && Plain(e.s.reqs[id]) && Follows(w.prefix, e.s.reqs[id].Tokens())
    && |e.s.reqs[id].output| + j < e.s.reqs[id].params.maxTokens && e.s.reqs[id].NumTokens() + j < cfg.maxModelLen
    && cfg.maxModelLen <= cfg.maxBatched
  }

  /** j steps, none of them the last. */
  lemma {:induction false} Follow(w: Scene, cfg: Config, size: nat, e0: Engine, asks: map<Id, Ask>, tr: Trace, id: Id, m: nat, j: nat,
                                  len: nat, sound: bool, labels: Labels)
      returns (tr': Trace, labels': Labels)
    requires Traced(w.Network(), cfg, size, e0, asks, tr) && tr.states != []
    requires OnTheWay(w, cfg, size, End(tr), id, m, j) && m >= j * cfg.maxModelLen && End(tr).s.reqs[id].NumTokens() + j <= len + 1
    requires sound ==> EInv(w.Network(), cfg, size, End(tr), labels)
    ensures Traced(w.Network(), cfg, size, e0, asks, tr') && tr'.states != []
    ensures OnTheWay(w, cfg, size, End(tr'), id, m - j * cfg.maxModelLen, 0) && Keeps(w.bs, End(tr), End(tr'), len)
    ensures var r, r' := End(tr).s.reqs[id], End(tr').s.reqs[id];
      && r'.prompt == r.prompt && r'.params == r.params && r'.eos == r.eos && r'.priority == r.priority
      && |r'.output| == |r.output| + j
    ensures if j == 0 then tr' == tr else End(tr').s.running == [id] && forall x :: x in End(tr').s.finished ==> x == id
    ensures labels'.book == labels.book && (sound ==> EInv(w.Network(), cfg, size, End(tr'), labels'))
    decreases j
  {
    hide EInv, Step, StepDefined, Traced, EBase, Keeps, Virgin, Chained, AllCached, Follows;
    var net, e := w.Network(), End(tr);
    if j == 0 {
      tr', labels' := tr, labels;
      KeepsRefl(w.bs, e, len);
    } else {
      var r, L := e.s.reqs[id], cfg.maxModelLen;
      assert j * L == (j - 1) * L + L;
      MulMono(0, j - 1, L);
      var row := LoneServed(net, cfg, size, e, id, m);
      var q := Step(net, cfg, e, size);
      FollowNext(w, r, q.0.s.reqs[id], row);
      var mid := ExtendStep(net, cfg, size, e0, asks, tr);
      var labels1 := MaySound(net, cfg, size, e, labels, sound);
      KeepsMore(w.bs, e, q.0, r.NumTokens(), len);
      LoneLess(net, cfg, size, q.0, id, m - r.NumTokens(), m - L);
      tr', labels' := Follow(w, cfg, size, e0, asks, mid, id, m - L, j - 1, len, sound, labels1);
      KeepsTrans(w.bs, e, q.0, End(tr'), len);
    }
  }

  lemma KeepsRefl(bs: nat, e: Engine, len: nat)
    ensures Keeps(bs, e, e, len)
  {
  }

  lemma LoneLess(net: Net, cfg: Config, size: nat, e: Engine, id: Id, m: nat, m': nat)
    requires Lone(net, cfg, size, e, id, m) && m' <= m
    ensures Lone(net, cfg, size, e, id, m')
  {
    hide EBase;
  }

  lemma QuietLess(net: Net, cfg: Config, size: nat, e: Engine, m: nat, m': nat)
    requires Quiet(net, cfg, size, e, m) && m' <= m
    ensures Quiet(net, cfg, size, e, m')
  {
    hide EBase;
  }

  // ------------------------------------------------------------------ entering

  function Wish(n: nat, knobs: Knobs): Params {
    Params(n, 0, true, [], knobs)
  }

  function Asking(id: Id, ask: Ask, n: nat, priority: int, knobs: Knobs): Event {
    Add(id, ask.prompt, Wish(n, knobs), None, priority, Some(ask.embeds))
  }

  /** The engine's state between two events, apart from who is asking. */
  ghost predicate Idle(e: Engine, id: Id) {
    id !in e.s.reqs && id !in e.s.finished
  }

  /** A new request is queued; nothing else moves. */
  ghost predicate Enters(e: Engine, e': Engine, id: Id, ask: Ask, n: nat, priority: int, knobs: Knobs) {
    && e'.s == e.s.(reqs := e.s.reqs[id := NewRequest(ask.prompt, Wish(n, knobs), None, priority, e.clock)], waiting := e.s.waiting + [id])
    && e'.r.caches == e.r.caches && e'.r.graphs == e.r.graphs
  }

  lemma EnterTrace(net: Net, cfg: Config, size: nat, e0: Engine, asks: map<Id, Ask>, tr: Trace, id: Id, ask: Ask, n: nat, priority: int, knobs: Knobs)
      returns (tr': Trace)
    requires Traced(net, cfg, size, e0, asks, tr) && tr.states != [] && EBase(net, cfg, size, End(tr)) && Idle(End(tr), id)
    requires id in asks && asks[id] == ask && 1 <= n && ask.prompt != [] && |ask.prompt| < cfg.maxModelLen
    ensures Traced(net, cfg, size, e0, asks, tr') && tr'.states != []
    ensures EBase(net, cfg, size, End(tr')) && Enters(End(tr), End(tr'), id, ask, n, priority, knobs)
    ensures End(tr') == EngineSpec.AddRequest(cfg, End(tr), id, ask.prompt, Wish(n, knobs), None, priority, Some(ask.embeds)).0
  {
    hide EBase, Traced;
    var ev := Asking(id, ask, n, priority, knobs);
    tr' := Extend(net, cfg, size, e0, asks, tr, ev);
    AddBase(net, cfg, size, End(tr), id, ask.prompt, Wish(n, knobs), None, priority, Some(ask.embeds));
  }

  lemma EntersKeeps(bs: nat, e: Engine, e': Engine, id: Id, ask: Ask, n: nat, priority: int, knobs: Knobs, len: nat)
    requires Enters(e, e', id, ask, n, priority, knobs)
    ensures Keeps(bs, e, e', len)
  {
    forall b: nat, h, o: nat, v | Parked(bs, e, b, h, o, v) ensures Parked(bs, e', b, h, o, v) {}
  }

  /** Into an empty engine. */
  lemma EnterAlone(w: Scene, cfg: Config, size: nat, e: Engine, e': Engine, id: Id, ask: Ask, n: nat, knobs: Knobs, m: nat)
    requires w.Ok() && cfg.blockSize == w.bs && Quiet(w.Network(), cfg, size, e, m) && cfg.maxModelLen <= cfg.maxBatched
    requires EBase(w.Network(), cfg, size, e') && Enters(e, e', id, ask, n, 0, knobs)
    requires Reaches(ask.prompt, w.prefix) && 1 <= n && |ask.prompt| + n <= cfg.maxModelLen
    ensures OnTheWay(w, cfg, size, e', id, m, n - 1) && e'.s.running == []
  {
    hide EBase;
    assert [] + [id] == [id];
    var r := e'.s.reqs[id];
    assert r.Tokens() == ask.prompt;
  }

  // ------------------------------------------------------------------ the first request fills the cache

  /** The asks disagree at position p of a prefix both may come to have. */
  ghost predicate Clash(w: Scene, a: Ask, b: Ask) {
    && w.Ok() && a.prompt != [] && b.prompt != [] && Reaches(a.prompt, w.prefix) && Reaches(b.prompt, w.prefix)
    && Inputs(w.net, a.embeds, w.prefix)[w.p] == w.x && Inputs(w.net, b.embeds, w.prefix)[w.p] == w.y
  }

  function Len(w: Scene, a: Ask, b: Ask): nat {
    |a.prompt| + |b.prompt| + |w.prefix| + 3
  }

  /** How many tokens a must generate to have the prefix computed. */
  function Enough(w: Scene, a: Ask): nat {
    if |a.prompt| >= |w.prefix| then 1 else |w.prefix| + 1 - |a.prompt|
  }

  lemma InputsEmbed(net: Net, net': Net, embeds: seq<Row>, toks: seq<Token>)
    requires net'.embed == net.embed
    ensures Inputs(net', embeds, toks) == Inputs(net, embeds, toks)
  {
  }

  ghost function OwnBook(net: Net, embeds: seq<Row>): Book {
    ts => Inputs(net, embeds, ts)
  }

  lemma OwnRespected(net: Net, bs: nat, embeds: seq<Row>, prompt: seq<Token>)
    ensures Respects(net, bs, OwnBook(net, embeds), embeds, prompt)
  {
    forall ts, k: nat ensures RespectsAt(net, bs, OwnBook(net, embeds), embeds, prompt, ts, k) {}
  }

  /** The entry at p of the block that caches the prefix was computed from a's row. */
  lemma TellingEntry(w: Scene, a: Ask, b: Ask, cfg: Config, size: nat, e: Engine, labels: Labels, blk: BlockId)
    requires Clash(w, a, b) && cfg.blockSize == w.bs && EInv(w.Network(), cfg, size, e, labels) && labels.book == OwnBook(w.Network(), a.embeds)
    requires blk < |e.s.kv.pool.hash| && e.s.kv.pool.hash[blk] == Chain(w.prefix, w.bs, w.k)
    ensures |e.r.caches| == 1 && blk * w.bs + w.p % w.bs < |e.r.caches[0]| && e.r.caches[0][blk * w.bs + w.p % w.bs] == w.k1
  {
    hide EBase, LInv, AllClean, OnStream, Inputs, Respects;
    var net := w.Network();
    ChainShape(w.prefix, w.bs, w.k);
    assert w.prefix[..w.k * w.bs] == w.prefix;
    ChainStep(w.prefix, w.bs, w.k - 1);
    FloorUnique(w.p, w.bs, w.k - 1);
    DivModParts(w.p, w.bs);
    OwnRespected(net, w.bs, a.embeds, a.prompt);
    HashedBlocksHoldTheirPrefix(net, cfg, size, e, labels, blk, w.p % w.bs, 0, a.embeds, a.prompt);
    InputsEmbed(w.net, net, a.embeds, w.prefix);
    InputsPrefix(net, a.embeds, w.prefix, w.p + 1);
    LayerZero(net, Inputs(net, a.embeds, w.prefix[..w.p + 1]));
    OneCache(net, cfg, size, e);
  }

  lemma LayerZero(net: Net, xs: seq<Row>)
    requires xs != []
    ensures Value(net, 0, xs) == net.project(0, xs[|xs| - 1], |xs| - 1)
  {
  }

  lemma OneCache(net: Net, cfg: Config, size: nat, e: Engine)
    requires EBase(net, cfg, size, e) && net.layers == 1
    ensures |e.r.caches| == 1
  {
  }

  /** With nobody running, every block is free. */
  lemma NobodyHolds(net: Net, cfg: Config, size: nat, e: Engine, m: nat, blk: BlockId)
    requires Quiet(net, cfg, size, e, m) && blk < |e.s.kv.pool.refs|
    ensures e.s.kv.pool.refs[blk] == 0 && PoolOk(e.s.kv.pool)
  {
    hide Filling, Items, Statuses, Bounded, Arrivals, PoolOk, HashesBlocked, Mirrored, Virgin;
    assert Holders(e.s.kv.tables, blk) == {};
  }

  /** How much of the pool is still untouched with this many steps to go. */
  function Spare(w: Scene, a: Ask, b: Ask, steps: nat): nat {
    steps * Len(w, a, b)
  }

  function Steps(w: Scene, a: Ask): nat {
    Enough(w, a) + |w.prefix| + 4
  }

  /** Nobody lives, and the prefix is cached with the telling entry in block blk. */
  ghost predicate Filled(w: Scene, cfg: Config, size: nat, e: Engine, m: nat, blk: BlockId) {
    && w.Ok() && Quiet(w.Network(), cfg, size, e, m)
    && Parked(w.bs, e, blk, Chain(w.prefix, w.bs, w.k), w.p % w.bs, w.k1)
    && forall i: nat :: i < w.k ==> CachedAt(e.s.kv.pool, w.bs, w.prefix, i)
  }

  lemma PrefixCached(w: Scene, p: Pool, toks: seq<Token>, i: nat)
    requires w.Ok() && w.prefix <= toks && AllCached(p, w.bs, toks) && i < w.k
    ensures CachedAt(p, w.bs, w.prefix, i) && Chain(w.prefix, w.bs, i + 1) in p.cached
  {
    MulMono(i + 1, w.k, w.bs);
    SamePrefixChain(w.prefix, toks, w.bs, i + 1);
    assert CachedAt(p, w.bs, toks, i);
  }

  /** The last step of a request that has the prefix computed. */
  lemma FillsAtEnd(w: Scene, a: Ask, b: Ask, cfg: Config, size: nat, e: Engine, labels: Labels, m: nat, toks: seq<Token>) returns (blk: BlockId)
    requires Clash(w, a, b) && cfg.blockSize == w.bs && Quiet(w.Network(), cfg, size, e, m)
    requires EInv(w.Network(), cfg, size, e, labels) && labels.book == OwnBook(w.Network(), a.embeds)
    requires w.prefix <= toks && AllCached(e.s.kv.pool, w.bs, toks)
    ensures Filled(w, cfg, size, e, m, blk)
  {
    hide EInv, EBase, Virgin, AllCached, CachedAt, Chain, PoolOk, OneAtATime;
    forall i: nat | i < w.k ensures CachedAt(e.s.kv.pool, w.bs, w.prefix, i) { PrefixCached(w, e.s.kv.pool, toks, i); }
    PrefixCached(w, e.s.kv.pool, toks, w.k - 1);
    ChainStep(w.prefix, w.bs, w.k - 1);
    var h := Chain(w.prefix, w.bs, w.k);
    blk := e.s.kv.pool.cached[h];
    BlockInPool(w.Network(), cfg, size, e, m, h);
    NobodyHolds(w.Network(), cfg, size, e, m, blk);
    TellingEntry(w, a, b, cfg, size, e, labels, blk);
  }

  lemma BlockInPool(net: Net, cfg: Config, size: nat, e: Engine, m: nat, h: BlockHash)
    requires Quiet(net, cfg, size, e, m) && h in e.s.kv.pool.cached
    ensures var blk := e.s.kv.pool.cached[h];
      blk < |e.s.kv.pool.refs| && blk < |e.s.kv.pool.hash| && e.s.kv.pool.hash[blk] == h
  {
    hide Filling, Items, Statuses, Bounded, Arrivals, HashesBlocked, Mirrored, Virgin, Counted;
  }

  lemma NewQuiet(net: Net, cfg: Config, size: nat, numBlocks: nat, caches: seq<seq<KVal>>)
    requires OneAtATime(cfg) && cfg.maxBatched > 0 && net.layers == 1 && CachesOk(net, caches, size) && numBlocks * cfg.blockSize <= size
    ensures Quiet(net, cfg, size, NewEngine(numBlocks, true, caches, None), numBlocks)
  {
    hide EBase;
    NewEngineBase(net, cfg, size, numBlocks, true, caches, None);
  }

  /** The first request enters. */
  lemma FirstEnters(w: Scene, a: Ask, b: Ask, cfg: Config, size: nat, e0: Engine, asks: map<Id, Ask>, ia: Id, knobs: Knobs, labels: Labels, m: nat)
      returns (tr: Trace)
    requires Clash(w, a, b) && cfg == w.Cfg(Len(w, a, b)) && ia in asks && asks[ia] == a
    requires Quiet(w.Network(), cfg, size, e0, m) && Idle(e0, ia)
    requires EInv(w.Network(), cfg, size, e0, labels) && labels.book == OwnBook(w.Network(), a.embeds)
    ensures Traced(w.Network(), cfg, size, e0, asks, tr) && tr.states != []
    ensures OnTheWay(w, cfg, size, End(tr), ia, m, Enough(w, a) - 1) && EInv(w.Network(), cfg, size, End(tr), labels)
    ensures var r := End(tr).s.reqs[ia]; r.prompt == a.prompt && r.output == [] && r.params.maxTokens == Enough(w, a)
  {
    hide EInv, EBase, Traced, Virgin, Respects, OnTheWay;
    var net, n := w.Network(), Enough(w, a);
    TraceStart(net, cfg, size, e0, asks);
    assert End(Trace([e0], [], [])) == e0;
    QuietBase(net, cfg, size, e0, m);
    tr := EnterTrace(net, cfg, size, e0, asks, Trace([e0], [], []), ia, a, n, 0, knobs);
    EnterAlone(w, cfg, size, e0, End(tr), ia, a, n, knobs, m);
    OwnRespected(net, w.bs, a.embeds, a.prompt);
    assert Received(e0, ia, Some(a.embeds)) == a.embeds;
    AddKeeps(net, cfg, size, e0, ia, a.prompt, Wish(n, knobs), None, 0, Some(a.embeds), labels);
  }

  /** The first request, alone, sound, up to its end. */
  lemma FirstFills(w: Scene, a: Ask, b: Ask, cfg: Config, size: nat, e0: Engine, asks: map<Id, Ask>, ia: Id, knobs: Knobs, labels: Labels)
      returns (tr: Trace, blk: BlockId)
    requires Clash(w, a, b) && cfg == w.Cfg(Len(w, a, b)) && ia in asks && asks[ia] == a
    requires Quiet(w.Network(), cfg, size, e0, Spare(w, a, b, Steps(w, a))) && Idle(e0, ia)
    requires EInv(w.Network(), cfg, size, e0, labels) && labels.book == OwnBook(w.Network(), a.embeds)
    ensures Traced(w.Network(), cfg, size, e0, asks, tr) && tr.states != []
    ensures Filled(w, cfg, size, End(tr), Spare(w, a, b, |w.prefix| + 4), blk)
    ensures forall x :: x in End(tr).s.finished ==> x == ia
  {
    hide EInv, EBase, Traced, Step, StepDefined, Virgin, AllCached, Keeps, Clash, OnTheWay, Filled, Spare, Quiet;
    var n, m := Enough(w, a), Spare(w, a, b, Steps(w, a));
    var tr1 := FirstEnters(w, a, b, cfg, size, e0, asks, ia, knobs, labels, m);
    SpareSteps(w, a, b, n);
    assert cfg.maxModelLen == Len(w, a, b);
    var tr2, labels2 := Follow(w, cfg, size, e0, asks, tr1, ia, m, n - 1, |a.prompt| + n, true, labels);
    tr, blk := FirstEnds(w, a, b, cfg, size, e0, asks, ia, tr2, Spare(w, a, b, |w.prefix| + 4) + cfg.maxModelLen, labels2);
  }

  lemma QuietBase(net: Net, cfg: Config, size: nat, e: Engine, m: nat)
    requires Quiet(net, cfg, size, e, m)
    ensures EBase(net, cfg, size, e)
  {
    hide EBase;
  }

  lemma SpareSteps(w: Scene, a: Ask, b: Ask, n: nat)
    requires n == Enough(w, a)
    ensures n >= 1 && Spare(w, a, b, Steps(w, a)) >= (n - 1) * Len(w, a, b)
    ensures Spare(w, a, b, Steps(w, a)) - (n - 1) * Len(w, a, b) - Len(w, a, b) == Spare(w, a, b, |w.prefix| + 4) >= 0
  {
    var L := Len(w, a, b);
    assert (n + (|w.prefix| + 4)) * L == n * L + (|w.prefix| + 4) * L;
    assert (n - 1) * L + L == n * L;
    MulMono(0, |w.prefix| + 4, L);
  }

  /** Its last step. */
  lemma FirstEnds(w: Scene, a: Ask, b: Ask, cfg: Config, size: nat, e0: Engine, asks: map<Id, Ask>, ia: Id, tr: Trace, m: nat, labels: Labels)
      returns (tr': Trace, blk: BlockId)
    requires Clash(w, a, b) && cfg == w.Cfg(Len(w, a, b))
    requires Traced(w.Network(), cfg, size, e0, asks, tr) && tr.states != [] && OnTheWay(w, cfg, size, End(tr), ia, m, 0)
    requires EInv(w.Network(), cfg, size, End(tr), labels) && labels.book == OwnBook(w.Network(), a.embeds)
    requires m >= cfg.maxModelLen && |w.prefix| <= End(tr).s.reqs[ia].NumTokens()
    requires |End(tr).s.reqs[ia].output| + 1 >= End(tr).s.reqs[ia].params.maxTokens
    ensures Traced(w.Network(), cfg, size, e0, asks, tr') && tr'.states != []
    ensures Filled(w, cfg, size, End(tr'), m - cfg.maxModelLen, blk)
    ensures forall x :: x in End(tr').s.finished ==> x == ia
  {
    hide EInv, EBase, Traced, Step, StepDefined, Virgin, AllCached, Keeps, Clash;
    var net, e := w.Network(), End(tr);
    var row := LoneServed(net, cfg, size, e, ia, m);
    var toks := e.s.reqs[ia].Tokens();
    tr' := ExtendStep(net, cfg, size, e0, asks, tr);
    var labels' := MaySound(net, cfg, size, e, labels, true);
    QuietLess(net, cfg, size, End(tr'), m - e.s.reqs[ia].NumTokens(), m - cfg.maxModelLen);
    blk := FillsAtEnd(w, a, b, cfg, size, End(tr'), labels', m - cfg.maxModelLen, toks);
  }
}
