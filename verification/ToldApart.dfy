/** The condition under which cached answers are everyone's own is exact: two asks are always
    answered as if alone if and only if their rows agree wherever they may share a block. */
module ToldApart {
  import opened Util
  import opened Hashing
  import opened BlockPoolSpec
  import opened BlockManagerSpec
  import opened RequestSpec
  import opened SchedulerSpec
  import opened Model
  import opened ForwardCorrect
  import opened LabelInv
  import opened GraphSpec
  import opened EngineSpec
  import opened EngineSafe
  import opened EngineStep
  import opened Agreement
  import opened EngineRun
  import opened SoloRuns
  import opened Untouched
  import opened Telltale
  import opened Solitary
  import opened Witness

  // ------------------------------------------------------------------ the second request waits past the prefix

  /** The second request waits, its tokens past the cached prefix. */
  ghost predicate Poised(w: Scene, cfg: Config, size: nat, e: Engine, id: Id, m: nat, blk: BlockId, b: Ask) {
    && Lone(w.Network(), cfg, size, e, id, m) && e.s.running == []
    && Primed(w, e, e.s.reqs[id], blk) && Plain(e.s.reqs[id]) && e.s.reqs[id].prompt == b.prompt
  }

  /** What is parked and cached survives. */
  lemma FilledKept(w: Scene, cfg: Config, size: nat, e: Engine, m: nat, blk: BlockId, e': Engine, r: Req)
    requires Filled(w, cfg, size, e, m, blk) && Keeps(w.bs, e, e', |w.prefix|)
    requires w.prefix <= r.Tokens() && |w.prefix| < r.NumTokens()
    ensures Primed(w, e', r, blk)
  {
    hide Quiet, Chain, Parked;
    ChainShape(w.prefix, w.bs, w.k);
    forall i: nat | i < w.k ensures CachedAt(e'.s.kv.pool, w.bs, w.prefix, i) { assert CachedAt(e.s.kv.pool, w.bs, w.prefix, i); }
  }

  lemma LongReached(w: Scene, prompt: seq<Token>)
    requires Reaches(prompt, w.prefix) && |w.prefix| < |prompt|
    ensures w.prefix <= prompt
  {
  }

  /** A prompt longer than the prefix needs no detour. */
  lemma SecondLong(w: Scene, a: Ask, b: Ask, cfg: Config, size: nat, e0: Engine, asks: map<Id, Ask>, tr: Trace, ib: Id, knobs: Knobs,
                   m: nat, blk: BlockId)
      returns (tr': Trace)
    requires Clash(w, a, b) && cfg == w.Cfg(Len(w, a, b)) && ib in asks && asks[ib] == b && |w.prefix| < |b.prompt|
    requires Traced(w.Network(), cfg, size, e0, asks, tr) && tr.states != []
    requires Filled(w, cfg, size, End(tr), m, blk) && ib !in End(tr).s.finished
    ensures Traced(w.Network(), cfg, size, e0, asks, tr') && tr'.states != [] && Poised(w, cfg, size, End(tr'), ib, m, blk, b)
    ensures End(tr').s.reqs[ib].NumTokens() <= cfg.maxBatched
  {
    hide EBase, Traced, Virgin, Keeps, Parked, CachedAt, Primed;
    QuietBase(w.Network(), cfg, size, End(tr), m);
    tr' := EnterTrace(w.Network(), cfg, size, e0, asks, tr, ib, b, 1, 0, knobs);
    EnterAlone(w, cfg, size, End(tr), End(tr'), ib, b, 1, knobs, m);
    EntersKeeps(w.bs, End(tr), End(tr'), ib, b, 1, 0, knobs, |w.prefix|);
    LongReached(w, b.prompt);
    assert End(tr').s.reqs[ib].Tokens() == b.prompt;
    FilledKept(w, cfg, size, End(tr), m, blk, End(tr'), End(tr').s.reqs[ib]);
  }

  /** A shorter one first generates past the prefix on its own. */
  lemma SecondRuns(w: Scene, a: Ask, b: Ask, cfg: Config, size: nat, e0: Engine, asks: map<Id, Ask>, tr: Trace, ib: Id, knobs: Knobs,
                   blk: BlockId)
      returns (tr': Trace)
    requires Clash(w, a, b) && cfg == w.Cfg(Len(w, a, b)) && ib in asks && asks[ib] == b && |b.prompt| <= |w.prefix|
    requires Traced(w.Network(), cfg, size, e0, asks, tr) && tr.states != []
    requires Filled(w, cfg, size, End(tr), Spare(w, a, b, |w.prefix| + 4), blk) && ib !in End(tr).s.finished
    ensures Traced(w.Network(), cfg, size, e0, asks, tr') && tr'.states != []
    ensures OnTheWay(w, cfg, size, End(tr'), ib, Spare(w, a, b, 4), 0) && End(tr').s.running == [ib] && ib in End(tr').s.reqs
    ensures var r := End(tr').s.reqs[ib]; r.prompt == b.prompt && r.NumTokens() == |w.prefix| + 1 && r.priority == 0
    ensures Keeps(w.bs, End(tr), End(tr'), |w.prefix|)
    ensures forall x :: x in End(tr').s.finished ==> x == ib
  {
    hide EBase, Traced, Virgin, Keeps, EInv, Primed, Parked, CachedAt, Spare;
    var n, j := |w.prefix| + 2 - |b.prompt|, |w.prefix| + 1 - |b.prompt|;
    var m, L := Spare(w, a, b, |w.prefix| + 4), cfg.maxModelLen;
    QuietBase(w.Network(), cfg, size, End(tr), m);
    var tr1 := EnterTrace(w.Network(), cfg, size, e0, asks, tr, ib, b, n, 0, knobs);
    EnterAlone(w, cfg, size, End(tr), End(tr1), ib, b, n, knobs, m);
    EntersKeeps(w.bs, End(tr), End(tr1), ib, b, n, 0, knobs, |w.prefix|);
    SpareLess(w, a, b, j);
    var none := Labels(map[], _ => []);
    var labels';
    tr', labels' := Follow(w, cfg, size, e0, asks, tr1, ib, m, j, |w.prefix|, false, none);
    KeepsTrans(w.bs, End(tr), End(tr1), End(tr'), |w.prefix|);
    WayLess(w, cfg, size, End(tr'), ib, m - j * L, Spare(w, a, b, 4));
  }

  lemma WayLess(w: Scene, cfg: Config, size: nat, e: Engine, id: Id, m: nat, m': nat)
    requires OnTheWay(w, cfg, size, e, id, m, 0) && m' <= m
    ensures OnTheWay(w, cfg, size, e, id, m', 0)
  {
    hide EBase;
    LoneLess(w.Network(), cfg, size, e, id, m, m');
  }

  lemma SpareLess(w: Scene, a: Ask, b: Ask, j: nat)
    requires j <= |w.prefix|
    ensures Spare(w, a, b, |w.prefix| + 4) >= j * Len(w, a, b)
    ensures Spare(w, a, b, |w.prefix| + 4) - j * Len(w, a, b) >= Spare(w, a, b, 4)
  {
    var L := Len(w, a, b);
    assert (|w.prefix| + 4) * L == |w.prefix| * L + 4 * L;
    MulMono(j, |w.prefix|, L);
    MulMono(0, j, L);
  }

  /** Then an urgent copy of it takes its slot, is answered and leaves. */
  lemma SecondEvicted(w: Scene, a: Ask, b: Ask, cfg: Config, size: nat, e0: Engine, asks: map<Id, Ask>, tr: Trace, ib: Id, ic: Id, knobs: Knobs)
      returns (tr': Trace)
    requires Clash(w, a, b) && cfg == w.Cfg(Len(w, a, b)) && ic in asks && asks[ic] == b && ib != ic && |b.prompt| <= |w.prefix|
    requires Traced(w.Network(), cfg, size, e0, asks, tr) && tr.states != []
    requires OnTheWay(w, cfg, size, End(tr), ib, Spare(w, a, b, 4), 0) && End(tr).s.running == [ib]
    requires End(tr).s.reqs[ib].priority == 0 && ic !in End(tr).s.finished
    ensures Traced(w.Network(), cfg, size, e0, asks, tr') && tr'.states != []
    ensures Lone(w.Network(), cfg, size, End(tr'), ib, Spare(w, a, b, 3)) && End(tr').s.running == []
    ensures ib in End(tr).s.reqs && End(tr').s.reqs[ib] == End(tr).s.reqs[ib].(status := Preempted, computed := 0)
    ensures Keeps(w.bs, End(tr), End(tr'), |w.prefix|)
  {
    hide EBase, Traced, Virgin, Keeps, EInv, Primed, Parked, Step, StepDefined;
    var m := Spare(w, a, b, 4);
    BaseOf(w.Network(), cfg, size, End(tr), ib, m);
    var tr1 := EnterTrace(w.Network(), cfg, size, e0, asks, tr, ic, b, 1, 1, knobs);
    EntersKeeps(w.bs, End(tr), End(tr1), ic, b, 1, 1, knobs, |w.prefix|);
    assert [] + [ic] == [ic];
    assert End(tr1).s.reqs.Keys == {ib, ic};
    RivalServed(w.Network(), cfg, size, End(tr1), ib, ic, m);
    tr' := ExtendStep(w.Network(), cfg, size, e0, asks, tr1);
    KeepsMore(w.bs, End(tr1), End(tr'), |b.prompt|, |w.prefix|);
    KeepsTrans(w.bs, End(tr), End(tr1), End(tr'), |w.prefix|);
    LoneLess(w.Network(), cfg, size, End(tr'), ib, m - |b.prompt|, Spare(w, a, b, 3));
  }

  /** Either way the second request ends up waiting past the prefix. */
  lemma SecondPoised(w: Scene, a: Ask, b: Ask, cfg: Config, size: nat, e0: Engine, asks: map<Id, Ask>, tr: Trace, ia: Id, ib: Id, ic: Id,
                     knobs: Knobs, blk: BlockId)
      returns (tr': Trace)
    requires Clash(w, a, b) && cfg == w.Cfg(Len(w, a, b)) && ib in asks && asks[ib] == b && ic in asks && asks[ic] == b
    requires ia != ib && ia != ic && ib != ic
    requires Traced(w.Network(), cfg, size, e0, asks, tr) && tr.states != []
    requires Filled(w, cfg, size, End(tr), Spare(w, a, b, |w.prefix| + 4), blk)
    requires forall x :: x in End(tr).s.finished ==> x == ia
    ensures Traced(w.Network(), cfg, size, e0, asks, tr') && tr'.states != []
    ensures Poised(w, cfg, size, End(tr'), ib, Spare(w, a, b, 3), blk, b) && End(tr').s.reqs[ib].NumTokens() <= cfg.maxBatched
  {
    hide EBase, Traced, Virgin, Keeps, EInv, Primed, Filled, Clash, Follows, Spare, OnTheWay;
    if |w.prefix| < |b.prompt| {
      tr' := SecondLong(w, a, b, cfg, size, e0, asks, tr, ib, knobs, Spare(w, a, b, |w.prefix| + 4), blk);
      SpareOrder(w, a, b);
      LoneLess(w.Network(), cfg, size, End(tr'), ib, Spare(w, a, b, |w.prefix| + 4), Spare(w, a, b, 3));
    } else {
      var tr1 := SecondRuns(w, a, b, cfg, size, e0, asks, tr, ib, knobs, blk);
      OnTheWayFacts(w, cfg, size, End(tr1), ib, Spare(w, a, b, 4));
      tr' := SecondEvicted(w, a, b, cfg, size, e0, asks, tr1, ib, ic, knobs);
      KeepsTrans(w.bs, End(tr), End(tr1), End(tr'), |w.prefix|);
      var r := End(tr').s.reqs[ib];
      assert r.Tokens() == End(tr1).s.reqs[ib].Tokens();
      FilledKept(w, cfg, size, End(tr), Spare(w, a, b, |w.prefix| + 4), blk, End(tr'), r);
    }
  }

  lemma SpareOrder(w: Scene, a: Ask, b: Ask)
    ensures Spare(w, a, b, |w.prefix| + 4) >= Spare(w, a, b, 3) >= Len(w, a, b)
  {
    MulMono(3, |w.prefix| + 4, Len(w, a, b));
  }

  lemma OnTheWayFacts(w: Scene, cfg: Config, size: nat, e: Engine, id: Id, m: nat)
    requires OnTheWay(w, cfg, size, e, id, m, 0) && id in e.s.reqs && e.s.reqs[id].NumTokens() == |w.prefix| + 1
    ensures Plain(e.s.reqs[id]) && w.prefix <= e.s.reqs[id].Tokens() && e.s.reqs[id].NumTokens() <= cfg.maxBatched
  {
    hide EBase;
  }

  // ------------------------------------------------------------------ the answer is not its own

  /** Alone, the request with y at p would have said 0. */
  lemma AloneSaysZero(w: Scene, a: Ask, b: Ask, r: Req)
    requires Clash(w, a, b) && w.prefix <= r.Tokens() && r.prompt == b.prompt
    ensures r.Tokens() != [] && NextToken(w.Network(), b.embeds, r.prompt, r.params, r.Tokens()) == 0
  {
    hide Inputs;
    var net, toks := w.Network(), r.Tokens();
    var xs := Inputs(net, b.embeds, toks);
    assert w.prefix == toks[..|w.prefix|];
    InputsEmbed(w.net, net, b.embeds, w.prefix);
    InputsPrefix(net, b.embeds, toks, |w.prefix|);
    assert xs[w.p] == xs[..|w.prefix|][w.p] == w.y;
    LayerZero(net, xs[..w.p + 1]);
    PastAt(net, xs, w.p);
    assert Past(net, 0, xs)[w.p] == w.k2;
    assert Hidden(net, 1, xs) == w.y;
  }

  lemma PastAt(net: Net, xs: seq<Row>, p: nat)
    requires p < |xs|
    ensures |Past(net, 0, xs)| == |xs| && Past(net, 0, xs)[p] == Value(net, 0, xs[..p + 1])
  {
  }

  lemma SoloLast(net: Net, len: nat, embeds: seq<Row>, r: Req)
    requires OnSoloStream(net, len, embeds, r) && r.output != []
    ensures var q := r.output[..|r.output| - 1];
      r.prompt + q != [] && r.output[|r.output| - 1] == NextToken(net, embeds, r.prompt, r.params, r.prompt + q)
  {
    hide NextToken, CheckStop;
    var q := SoloTokens(net, embeds, r.prompt, r.params, |r.output| - 1);
    assert r.output == q + [NextToken(net, embeds, r.prompt, r.params, r.prompt + q)];
    assert q == r.output[..|r.output| - 1];
  }

  lemma NotSolo(w: Scene, a: Ask, b: Ask, len: nat, r: Req, ans: Req)
    requires Clash(w, a, b) && w.prefix <= r.Tokens() && r.prompt == b.prompt && Next(r, ans, 1)
    ensures !OnSoloStream(w.Network(), len, b.embeds, ans)
  {
    hide NextToken, OnSoloStream, Clash;
    AloneSaysZero(w, a, b, r);
    assert ans.output[..|ans.output| - 1] == r.output && ans.output[|ans.output| - 1] == 1;
    if OnSoloStream(w.Network(), len, b.embeds, ans) {
      SoloLast(w.Network(), len, b.embeds, ans);
    }
  }

  lemma Answers(net: Net, cfg: Config, size: nat, e0: Engine, asks: map<Id, Ask>, tr: Trace, i: nat, u: (Id, Req))
    requires Traced(net, cfg, size, e0, asks, tr) && SoloAnswer(net, cfg, tr.states, tr.evs, i, u)
    ensures u.0 in asks && OnSoloStream(net, cfg.maxModelLen, asks[u.0].embeds, u.1)
  {
    hide OnSoloStream, IsRun, Lawful;
    var j: nat :| AskedAt(cfg, tr.states, tr.evs, i, j, u.0, u.1) && SoloFor(net, cfg.maxModelLen, tr.evs[j], u.1);
    assert AddOk(asks, tr.evs[j]);
  }

  lemma NotItsOwn(w: Scene, a: Ask, b: Ask, cfg: Config, size: nat, e0: Engine, asks: map<Id, Ask>, tr: Trace, ib: Id, i: nat, r: Req, u: (Id, Req))
    requires Clash(w, a, b) && Traced(w.Network(), cfg, size, e0, asks, tr) && ib in asks && asks[ib] == b
    requires u.0 == ib && w.prefix <= r.Tokens() && r.prompt == b.prompt && Next(r, u.1, 1)
    ensures !SoloAnswer(w.Network(), cfg, tr.states, tr.evs, i, u)
  {
    hide OnSoloStream, Clash, Traced, SoloAnswer;
    NotSolo(w, a, b, cfg.maxModelLen, r, u.1);
    if SoloAnswer(w.Network(), cfg, tr.states, tr.evs, i, u) {
      Answers(w.Network(), cfg, size, e0, asks, tr, i, u);
    }
  }

  // ------------------------------------------------------------------ the whole run

  /** The run: the first request fills the cache, the second waits past the prefix, and is told
      what the first one's row says. */
  lemma Misled(w: Scene, a: Ask, b: Ask, cfg: Config, size: nat, e0: Engine, asks: map<Id, Ask>, ia: Id, ib: Id, ic: Id, knobs: Knobs, labels: Labels)
      returns (tr: Trace, u: (Id, Req))
    requires Clash(w, a, b) && cfg == w.Cfg(Len(w, a, b)) && ia != ib && ia != ic && ib != ic
    requires asks == map[ia := a, ib := b, ic := b]
    requires Quiet(w.Network(), cfg, size, e0, Spare(w, a, b, Steps(w, a))) && e0.s.finished == []
    requires EInv(w.Network(), cfg, size, e0, labels) && labels.book == OwnBook(w.Network(), a.embeds)
    ensures Traced(w.Network(), cfg, size, e0, asks, tr) && tr.evs != [] && |tr.outs| == |tr.evs|
    ensures u in tr.outs[|tr.evs| - 1] && !SoloAnswer(w.Network(), cfg, tr.states, tr.evs, |tr.evs| - 1, u)
  {
    hide EBase, EInv, Traced, Virgin, Clash, Filled, Step, StepDefined, SoloAnswer, Spare, Lone;
    var net := w.Network();
    QuietEmpty(net, cfg, size, e0, Spare(w, a, b, Steps(w, a)));
    var tr1, blk := FirstFills(w, a, b, cfg, size, e0, asks, ia, knobs, labels);
    var tr2 := SecondPoised(w, a, b, cfg, size, e0, asks, tr1, ia, ib, ic, knobs, blk);
    SpareOrder(w, a, b);
    var e := End(tr2);
    LoneKnown(net, cfg, size, e, ib, Spare(w, a, b, 3));
    Telling(w, cfg, size, e, ib, Spare(w, a, b, 3), blk);
    tr := ExtendStep(net, cfg, size, e0, asks, tr2);
    TraceStates(net, cfg, size, e0, asks, tr);
    u := Step(net, cfg, e, size).1.outputs[0];
    NotItsOwn(w, a, b, cfg, size, e0, asks, tr, ib, |tr.evs| - 1, e.s.reqs[ib], u);
  }

  lemma QuietEmpty(net: Net, cfg: Config, size: nat, e: Engine, m: nat)
    requires Quiet(net, cfg, size, e, m)
    ensures e.s.reqs == map[]
  {
    hide EBase;
  }

  lemma LoneKnown(net: Net, cfg: Config, size: nat, e: Engine, id: Id, m: nat)
    requires Lone(net, cfg, size, e, id, m)
    ensures id in e.s.reqs
  {
    hide EBase;
  }

  // ------------------------------------------------------------------ exactly

  /** A lawful run with prefix caching on, in which only these things are asked. */
  ghost predicate RunOf(embed: Token -> Row, bs: nat, asks: iset<Ask>, net: Net, cfg: Config, size: nat, numBlocks: nat, caches: seq<seq<KVal>>,
                        graphs: Option<Graphs>, states: seq<Engine>, evs: seq<Event>, outs: seq<seq<(Id, Req)>>) {
    && net.embed == embed && cfg.blockSize == bs > 0 && cfg.maxBatched > 0
    && CachesOk(net, caches, size) && numBlocks * cfg.blockSize <= size && GraphsFit(graphs, numBlocks, cfg.blockSize, size)
    && IsRun(net, cfg, size, states, evs, outs) && states[0] == NewEngine(numBlocks, true, caches, graphs)
    && Lawful(cfg, states, evs) && GraphsSound(net, cfg, states, evs)
    && forall i :: 0 <= i < |evs| && evs[i].Add? ==> AskOf(evs[i]) in asks
  }

  /** Everyone is answered as if alone. */
  ghost predicate AllSolo(net: Net, cfg: Config, states: seq<Engine>, evs: seq<Event>, outs: seq<seq<(Id, Req)>>) {
    forall i, u :: 0 <= i < |evs| && i < |outs| && u in outs[i] ==> SoloAnswer(net, cfg, states, evs, i, u)
  }

  /** Asks that are not refused outright. */
  ghost function Askable(asks: iset<Ask>): iset<Ask> {
    iset a | a in asks && a.prompt != []
  }

  lemma CompatibleEmbed(net: Net, net': Net, bs: nat, a: Ask, b: Ask)
    requires net'.embed == net.embed && Compatible(net, bs, a, b)
    ensures Compatible(net', bs, a, b)
  {
    forall ts, k: nat ensures CompatibleAt(net', bs, a, b, ts, k) {
      assert CompatibleAt(net, bs, a, b, ts, k);
      InputsEmbed(net, net', a.embeds, ts);
      InputsEmbed(net, net', b.embeds, ts);
    }
  }

  /** Where two asks disagree there is a scene to show it. */
  lemma Disagreement(net: Net, bs: nat, a: Ask, b: Ask, k1: KVal, k2: KVal) returns (w: Scene)
    requires bs > 0 && a.prompt != [] && b.prompt != [] && !Compatible(net, bs, a, b) && k1 != k2
    ensures Clash(w, a, b) && w.net == net && w.bs == bs
  {
    var ts, k: nat :| !CompatibleAt(net, bs, a, b, ts, k);
    var xs, ys := Inputs(net, a.embeds, ts), Inputs(net, b.embeds, ts);
    var p: nat :| p < |ts| && xs[p] != ys[p];
    FloorBounds(p, bs);
    var q := FloorDiv(p, bs) + 1;
    if k < q { MulMono(k, q - 1, bs); }
    MulMono(q, k, bs);
    w := Scene(net, bs, ts[..q * bs], q, p, xs[p], ys[p], k1, k2);
    InputsPrefix(net, a.embeds, ts, q * bs);
    InputsPrefix(net, b.embeds, ts, q * bs);
  }

  /** Disagreeing asks are told apart by some network in some run of theirs. */
  lemma TellsApart(net0: Net, bs: nat, a: Ask, b: Ask, ia: Id, ib: Id, ic: Id, k1: KVal, k2: KVal, knobs: Knobs)
      returns (net: Net, cfg: Config, size: nat, numBlocks: nat, caches: seq<seq<KVal>>, states: seq<Engine>, evs: seq<Event>, outs: seq<seq<(Id, Req)>>)
    requires bs > 0 && a.prompt != [] && b.prompt != [] && !Compatible(net0, bs, a, b)
    requires ia != ib && ia != ic && ib != ic && k1 != k2
    ensures RunOf(net0.embed, bs, iset{a, b}, net, cfg, size, numBlocks, caches, None, states, evs, outs)
    ensures !AllSolo(net, cfg, states, evs, outs)
  {
    hide EInv, Clash, SoloAnswer, Spare, Quiet, IsRun, Lawful, NewEngine, GraphsSound;
    var w := Disagreement(net0, bs, a, b, k1, k2);
    net, cfg := w.Network(), w.Cfg(Len(w, a, b));
    numBlocks := Spare(w, a, b, Steps(w, a));
    size := numBlocks * bs;
    caches := [seq(size, _ => k2)];
    var asks := map[ia := a, ib := b, ic := b];
    var e0 := NewEngine(numBlocks, true, caches, None);
    NewQuiet(net, cfg, size, numBlocks, caches);
    NewEngineInv(net, cfg, size, numBlocks, true, caches, None, OwnBook(net, a.embeds));
    NothingFinished(numBlocks, caches);
    var tr, u := Misled(w, a, b, cfg, size, e0, asks, ia, ib, ic, knobs, Labels(map[], OwnBook(net, a.embeds)));
    states, evs, outs := tr.states, tr.evs, tr.outs;
    forall i | 0 <= i < |evs| && evs[i].Add? ensures AskOf(evs[i]) in iset{a, b} { assert AddOk(asks, evs[i]); }
    EagerRun(net, cfg, size, numBlocks, caches, states, evs, outs);
  }

  /** Without captured graphs there is nothing to be unsound. */
  lemma EagerRun(net: Net, cfg: Config, size: nat, numBlocks: nat, caches: seq<seq<KVal>>, states: seq<Engine>, evs: seq<Event>, outs: seq<seq<(Id, Req)>>)
    requires cfg.blockSize > 0 && cfg.maxBatched > 0 && CachesOk(net, caches, size) && numBlocks * cfg.blockSize <= size
    requires IsRun(net, cfg, size, states, evs, outs) && states[0] == NewEngine(numBlocks, true, caches, None)
    ensures GraphsSound(net, cfg, states, evs)
  {
    hide EBase, Defined, GraphSound, IsRun;
    RunLengths(net, cfg, size, states, evs, outs);
    RunsAreSafe(net, cfg, size, numBlocks, true, caches, None, states, evs, outs);
    forall i | 0 <= i < |evs| && evs[i].StepEvent? ensures GraphSound(net, cfg, states[i]) {
      RunGraphs(net, cfg, size, states, evs, outs, i);
      NoGraphs(net, cfg, states[i]);
    }
  }


  lemma NothingFinished(numBlocks: nat, caches: seq<seq<KVal>>)
    ensures NewEngine(numBlocks, true, caches, None).s.finished == []
  {
  }

  /** Agreeing asks are always answered as if alone. */
  lemma AgreeSolo(net0: Net, bs: nat, asks: iset<Ask>, net: Net, cfg: Config, size: nat, numBlocks: nat, caches: seq<seq<KVal>>,
                  graphs: Option<Graphs>, states: seq<Engine>, evs: seq<Event>, outs: seq<seq<(Id, Req)>>)
    requires Agree(net0, bs, Askable(asks)) && RunOf(net0.embed, bs, asks, net, cfg, size, numBlocks, caches, graphs, states, evs, outs)
    ensures AllSolo(net, cfg, states, evs, outs)
  {
    hide EInv, IsRun, SoloAnswer, NewEngine, Compatible, Legal;
    var cached := CachedAsks(cfg, states, evs);
    forall a | a in cached ensures a in Askable(asks) {}
    forall a, b | a in cached && b in cached ensures Compatible(net, bs, a, b) {
      CompatibleEmbed(net0, net, bs, a, b);
    }
    var labels := RunsAreSolo(net, cfg, size, numBlocks, true, caches, graphs, states, evs, outs);
  }

  /** Exactly when cached answers are everyone's own. Over every network with this embedding and
      every lawful run with prefix caching on in which only these things are asked, everyone is
      answered as if alone, if and only if the asks agree on the rows they may share. */
  lemma AgreeExactly(net0: Net, bs: nat, asks: iset<Ask>, ia: Id, ib: Id, ic: Id, k1: KVal, k2: KVal, knobs: Knobs)
    requires bs > 0 && ia != ib && ia != ic && ib != ic && k1 != k2
    ensures Agree(net0, bs, Askable(asks)) <==>
      forall net, cfg, size, numBlocks, caches, graphs, states, evs, outs ::
        RunOf(net0.embed, bs, asks, net, cfg, size, numBlocks, caches, graphs, states, evs, outs) ==> AllSolo(net, cfg, states, evs, outs)
  {
    hide RunOf, AllSolo, Compatible;
    if Agree(net0, bs, Askable(asks)) {
      forall net, cfg, size, numBlocks, caches, graphs, states, evs, outs
        | RunOf(net0.embed, bs, asks, net, cfg, size, numBlocks, caches, graphs, states, evs, outs)
        ensures AllSolo(net, cfg, states, evs, outs)
      {
        AgreeSolo(net0, bs, asks, net, cfg, size, numBlocks, caches, graphs, states, evs, outs);
      }
    } else {
      var a, b :| a in Askable(asks) && b in Askable(asks) && !Compatible(net0, bs, a, b);
      var net, cfg, size, numBlocks, caches, states, evs, outs := TellsApart(net0, bs, a, b, ia, ib, ic, k1, k2, knobs);
      MoreAsks(net0.embed, bs, iset{a, b}, asks, net, cfg, size, numBlocks, caches, None, states, evs, outs);
    }
  }

  lemma MoreAsks(embed: Token -> Row, bs: nat, few: iset<Ask>, many: iset<Ask>, net: Net, cfg: Config, size: nat, numBlocks: nat,
                 caches: seq<seq<KVal>>, graphs: Option<Graphs>, states: seq<Engine>, evs: seq<Event>, outs: seq<seq<(Id, Req)>>)
    requires RunOf(embed, bs, few, net, cfg, size, numBlocks, caches, graphs, states, evs, outs) && few <= many
    ensures RunOf(embed, bs, many, net, cfg, size, numBlocks, caches, graphs, states, evs, outs)
  {
    hide IsRun, Lawful, NewEngine;
  }
}
