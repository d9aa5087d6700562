/** Requests that run with embeddings they did not come with: a reused id that loses its own, one
    that inherits an old request's, and a live one whose duplicate replaces them. */
module EmbeddingFaults {
  import opened Util
  import opened Hashing
  import opened BlockPoolSpec
  import opened BlockManagerSpec
  import opened RequestSpec
  import opened SchedulerSpec
  import opened SchedulerInv
  import opened RaisesExactly
  import opened Model
  import opened Attention
  import opened ForwardCorrect
  import opened LabelInv
  import opened RunnerSpec
  import opened GraphSpec
  import opened EngineSpec
  import opened EngineInv
  import opened EngineSafe
  import opened EngineStep
  import opened EngineRun
  import opened Assertions
  import opened SoloRuns
  import opened Conservation

  // ------------------------------------------------------------------ reused ids

  /** Add, abort and add again before a step: the report of the first end takes the second
      request's embeddings with it. */
  lemma DroppedOnReuse(net: Net, cfg: Config, size: nat, numBlocks: nat, caching: bool,
                       caches: seq<seq<KVal>>, graphs: Option<Graphs>,
                       id: Id, prompt: seq<Token>,
                       params: Params, rows: seq<Row>)
      returns (states: seq<Engine>, outs: seq<seq<(Id, Req)>>)
    requires cfg.blockSize > 0 && cfg.maxBatched > 0
    requires CachesOk(net, caches, size) && numBlocks * cfg.blockSize <= size && GraphsFit(graphs, numBlocks, cfg.blockSize, size)
    requires !Refused(cfg, prompt, params)
    ensures var evs := [Add(id, prompt, params, None, 0, None), AbortEvent(id), Add(id, prompt, params, None, 0, Some(rows))];
      IsRun(net, cfg, size, states, evs, outs) && states[0] == NewEngine(numBlocks, caching, caches, graphs)
    ensures id in states[3].s.reqs && EmbedsOf(Held(states[3]), id) == []
  {
    hide EBase, KvShaped, NewPool;
    var evs := [Add(id, prompt, params, None, 0, None), AbortEvent(id), Add(id, prompt, params, None, 0, Some(rows))];
    NewEngineBase(net, cfg, size, numBlocks, caching, caches, graphs);
    states, outs := RunExists(net, cfg, size, NewEngine(numBlocks, caching, caches, graphs), evs);
    assert Defined(net, cfg, size, states[0], evs[0]) && Defined(net, cfg, size, states[1], evs[1]) && Defined(net, cfg, size, states[2], evs[2]);
    assert states[1].s.reqs == map[id := NewRequest(prompt, params, None, 0, 0)];
    assert states[2].s.finished == [] + [id] && id !in states[2].s.reqs;
    HonestIff(cfg, states[2], id, prompt, params, None, 0, Some(rows));
  }

  lemma NothingCached(kv: KV, bs: nat, tokens: seq<Token>)
    requires bs > 0 && KvShaped(kv) && kv.pool.cached == map[]
    ensures GetComputed(kv, bs, tokens).2 == 0
  {
  }

  /** The engine just before the raising step: nobody runs, and whoever is first in rank order is
      too big for the pool. */
  lemma TooBigRaises(net: Net, cfg: Config, size: nat, e: Engine, big: Id)
    requires EBase(net, cfg, size, e) && big in e.s.reqs && e.s.waiting != [] && e.s.running == [] && e.s.kv.pool.cached == map[]
    requires (forall x :: x in e.s.waiting ==> x in e.s.reqs) && Sort(e.s.reqs, e.s.waiting)[0] == big
    requires cfg.maxNumSeqs > 0 && AdmitTokens(cfg, e.s.reqs[big], 0, cfg.maxBatched) > 0
    requires CeilDiv(AdmitTokens(cfg, e.s.reqs[big], 0, cfg.maxBatched), cfg.blockSize) > PoolSize(e.s)
    ensures StepDefined(net, cfg, e, size) && Step(net, cfg, e, size).1.Raised?
    ensures var e' := Step(net, cfg, e, size).0; e'.r == e.r && e'.s.finished == [] && e'.s.reqs.Keys == e.s.reqs.Keys
  {
    hide EBase, SInv, KvShaped, Schedule, GetComputed, Execute, Executable, Update, AdmitTokens, Sort, ScheduleAsserts, UpdateAsserts;
    StepSafe(net, cfg, size, e);
    SchedulePlans(net, cfg, size, e);
    BaseSched(net, cfg, size, e);
    IdleRaisesIff(cfg, e.s);
    var s0 := e.s.(finished := []);
    NothingCached(s0.kv, cfg.blockSize, s0.reqs[big].Tokens());
  }

  lemma BaseSched(net: Net, cfg: Config, size: nat, e: Engine)
    requires EBase(net, cfg, size, e)
    ensures SInv(cfg, e.s, []) && cfg.maxBatched > 0 && cfg.blockSize > 0
  {
    hide SInv;
  }

  lemma OneSorted(s: Sched, id: Id)
    requires id in s.reqs && s.waiting == [id]
    ensures Sort(s.reqs, s.waiting) == [id]
  {
    assert s.waiting[1..] == [];
    assert Sort(s.reqs, []) == [];
  }

  lemma TwoSorted(s: Sched, a: Id, b: Id)
    requires a in s.reqs && b in s.reqs && s.waiting == [a, b] && Outranks(s.reqs[a], s.reqs[b])
    ensures Sort(s.reqs, s.waiting) == [a, b]
  {
    assert s.waiting[1..] == [b] && [b][1..] == [];
    assert Sort(s.reqs, []) == [] && Sort(s.reqs, [b]) == [b];
  }

  /** An addition under an id that is not live. */
  lemma TakenAs(cfg: Config, e: Engine, id: Id, prompt: seq<Token>, params: Params, embeds: Option<seq<Row>>)
    requires !Refused(cfg, prompt, params) && id !in e.s.reqs
    ensures EngineSpec.AddRequest(cfg, e, id, prompt, params, None, 0, embeds).0
         == Engine(e.s.(reqs := e.s.reqs[id := NewRequest(prompt, params, None, 0, e.clock)], waiting := e.s.waiting + [id]),
                   e.r.(embeds := Registered(e.r.embeds, id, embeds)), e.clock + 1, e.used + {id})
  {
  }

  /** Aborting the request behind another one in the queue. */
  lemma SecondAborted(e: Engine, big: Id, id: Id)
    requires Wf(e.s) && e.s.waiting == [big] + [id] && big != id && id in e.s.reqs && e.s.reqs[id].status == Waiting
    ensures AbortRequest(e, id) == e.(s := e.s.(reqs := e.s.reqs - {id}, waiting := [big], finished := e.s.finished + [id]))
  {
    hide KvShaped;
    RemoveSecond(big, id);
  }

  /** The engine after the four events, started with nothing on it. */
  lemma ReuseBehindBig(cfg: Config, e: Engine, big: Id, bigPrompt: seq<Token>, id: Id, prompt: seq<Token>, params: Params, rows: seq<Row>)
    requires Wf(e.s) && e.s.reqs == map[] && e.s.waiting == [] && e.s.running == [] && e.s.finished == [] && e.r.embeds == map[] && e.clock == 0
    requires big != id && !Refused(cfg, bigPrompt, params) && !Refused(cfg, prompt, params)
    ensures var e1 := EngineSpec.AddRequest(cfg, e, big, bigPrompt, params, None, 0, None).0;
      var e2 := EngineSpec.AddRequest(cfg, e1, id, prompt, params, None, 0, Some(rows)).0;
      && Wf(e2.s)
      && var e3 := AbortRequest(e2, id);
      var e4 := EngineSpec.AddRequest(cfg, e3, id, prompt, params, None, 0, None).0;
      && AddLegal(e, big, None) && AddLegal(e1, id, Some(rows)) && AddLegal(e3, id, None)
      && e4.s.waiting == [big, id] && e4.s.running == [] && e4.s.finished == [id] && e4.s.kv == e.s.kv && e4.r.embeds == map[id := rows]
      && e4.s.reqs == map[big := NewRequest(bigPrompt, params, None, 0, 0), id := NewRequest(prompt, params, None, 0, 2)]
  {
    hide KvShaped, AbortRequest, EngineSpec.AddRequest, Refused;
    TakenAs(cfg, e, big, bigPrompt, params, None);
    var e1 := EngineSpec.AddRequest(cfg, e, big, bigPrompt, params, None, 0, None).0;
    assert e1.s.waiting == [big];
    TakenAs(cfg, e1, id, prompt, params, Some(rows));
    var e2 := EngineSpec.AddRequest(cfg, e1, id, prompt, params, None, 0, Some(rows)).0;
    assert e2.s.waiting == [big] + [id];
    SecondAborted(e2, big, id);
    var e3 := AbortRequest(e2, id);
    assert e3.s.reqs == map[big := NewRequest(bigPrompt, params, None, 0, 0)] && e3.s.finished == [id];
    TakenAs(cfg, e3, id, prompt, params, None);
  }

  /** Add, abort, add again without embeddings, and a step that raises: every event before the
      step is legal, the step is not, and after it the live request, which brought no embeddings,
      runs with those of the aborted one. */
  lemma InheritedByRaise(net: Net, cfg: Config, size: nat, numBlocks: nat, caching: bool,
                         caches: seq<seq<KVal>>, graphs: Option<Graphs>,
                         big: Id, bigPrompt: seq<Token>,
                         id: Id, prompt: seq<Token>, params: Params, rows: seq<Row>)
      returns (states: seq<Engine>, outs: seq<seq<(Id, Req)>>)
    requires cfg.blockSize > 0 && cfg.maxBatched > 0
    requires CachesOk(net, caches, size) && numBlocks * cfg.blockSize <= size && GraphsFit(graphs, numBlocks, cfg.blockSize, size)
    requires big != id && !Refused(cfg, bigPrompt, params) && !Refused(cfg, prompt, params) && cfg.maxNumSeqs > 0 && rows != []
    requires var r := NewRequest(bigPrompt, params, None, 0, 0); var n := AdmitTokens(cfg, r, 0, cfg.maxBatched);
      n > 0 && CeilDiv(n, cfg.blockSize) > numBlocks
    ensures var evs := [Add(big, bigPrompt, params, None, 0, None), Add(id, prompt, params, None, 0, Some(rows)), AbortEvent(id),
                        Add(id, prompt, params, None, 0, None), StepEvent];
      && IsRun(net, cfg, size, states, evs, outs) && states[0] == NewEngine(numBlocks, caching, caches, graphs)
      && (forall i :: 0 <= i < 4 ==> Legal(cfg, states[i], evs[i])) && !Legal(cfg, states[4], evs[4])
    ensures id in states[4].s.reqs && EmbedsOf(Held(states[4]), id) == [] && !NoStale(states[4])
    ensures StepDefined(net, cfg, states[4], size) && Step(net, cfg, states[4], size).1.Raised?
    ensures id in states[5].s.reqs && EmbedsOf(Held(states[5]), id) == rows
  {
    hide EBase, SInv, KvShaped, StepDefined, Step, AdmitTokens, FreeRequest, RaisesNow, AbortAsserts, EngineSpec.AddRequest, AbortRequest, AddLegal, Sort, Refused;
    var evs := [Add(big, bigPrompt, params, None, 0, None), Add(id, prompt, params, None, 0, Some(rows)), AbortEvent(id),
                Add(id, prompt, params, None, 0, None), StepEvent];
    var e0 := NewEngine(numBlocks, caching, caches, graphs);
    NewEngineBase(net, cfg, size, numBlocks, caching, caches, graphs);
    states, outs := RunExists(net, cfg, size, e0, evs);
    assert Defined(net, cfg, size, states[0], evs[0]) && Defined(net, cfg, size, states[1], evs[1]) && Defined(net, cfg, size, states[2], evs[2])
      && Defined(net, cfg, size, states[3], evs[3]) && Defined(net, cfg, size, states[4], evs[4]);
    BaseSched(net, cfg, size, e0);
    SInvWf(cfg, e0.s, []);
    ReuseBehindBig(cfg, e0, big, bigPrompt, id, prompt, params, rows);
    TwoSorted(states[4].s, big, id);
    TooBigRaises(net, cfg, size, states[4], big);
    RaisedOnly(net, cfg, size, states[4]);
    assert id in states[5].s.reqs by { assert id in states[4].s.reqs.Keys; }
  }

  /** A call of schedule() that raises clears the list of ended ids before the runner has heard
      of them: a request added under such an id, without embeddings, runs with the old ones. */
  lemma InheritedAfterRaise(net: Net, cfg: Config, size: nat, numBlocks: nat, caching: bool,
                            caches: seq<seq<KVal>>, graphs: Option<Graphs>,
                            big: Id, bigPrompt: seq<Token>,
                            id: Id, prompt: seq<Token>, params: Params, rows: seq<Row>)
      returns (states: seq<Engine>, outs: seq<seq<(Id, Req)>>)
    requires cfg.blockSize > 0 && cfg.maxBatched > 0
    requires CachesOk(net, caches, size) && numBlocks * cfg.blockSize <= size && GraphsFit(graphs, numBlocks, cfg.blockSize, size)
    requires big != id && !Refused(cfg, bigPrompt, params) && !Refused(cfg, prompt, params) && cfg.maxNumSeqs > 0
    requires var r := NewRequest(bigPrompt, params, None, 0, 0); var n := AdmitTokens(cfg, r, 0, cfg.maxBatched);
      n > 0 && CeilDiv(n, cfg.blockSize) > numBlocks
    ensures var evs := [Add(big, bigPrompt, params, None, 0, None), Add(id, prompt, params, None, 0, Some(rows)), AbortEvent(id), StepEvent,
                        Add(id, prompt, params, None, 0, None)];
      IsRun(net, cfg, size, states, evs, outs) && states[0] == NewEngine(numBlocks, caching, caches, graphs)
    ensures id in states[5].s.reqs && EmbedsOf(Held(states[5]), id) == rows
  {
    hide EBase, KvShaped, StepDefined, Step, AdmitTokens, FreeRequest, AbortAsserts;
    var evs := [Add(big, bigPrompt, params, None, 0, None), Add(id, prompt, params, None, 0, Some(rows)), AbortEvent(id), StepEvent,
                Add(id, prompt, params, None, 0, None)];
    NewEngineBase(net, cfg, size, numBlocks, caching, caches, graphs);
    states, outs := RunExists(net, cfg, size, NewEngine(numBlocks, caching, caches, graphs), evs);
    var r := NewRequest(bigPrompt, params, None, 0, 0);
    assert Defined(net, cfg, size, states[0], evs[0]) && Defined(net, cfg, size, states[1], evs[1]) && Defined(net, cfg, size, states[2], evs[2])
      && Defined(net, cfg, size, states[3], evs[3]) && Defined(net, cfg, size, states[4], evs[4]);
    assert states[1].s.reqs == map[big := r] && states[1].s.waiting == [] + [big];
    assert states[2].s.waiting == [big] + [id] && states[2].r.embeds == map[id := rows];
    RemoveSecond(big, id);
    assert states[3].s.waiting == [big] && states[3].s.reqs == map[big := r];
    OneSorted(states[3].s, big);
    TooBigRaises(net, cfg, size, states[3], big);
    assert id !in states[4].s.reqs by { assert id !in states[3].s.reqs.Keys; assert states[4].s.reqs.Keys == states[3].s.reqs.Keys; }
    HonestIff(cfg, states[4], id, prompt, params, None, 0, None);
  }

  lemma RemoveSecond(big: Id, id: Id)
    requires big != id
    ensures Remove([big] + [id], id) == [big]
  {
    assert ([big] + [id])[1..] == [id];
    assert Remove([id], id) == [];
  }

  // ------------------------------------------------------------------ duplicates of live ids

  /** A duplicate id is rejected only after its embeddings replaced the live request's: the
      refusal leaves the engine as it was exactly when they are the ones it already had. */
  lemma RejectedDuplicateOverwrites(cfg: Config, e: Engine, id: Id, prompt: seq<Token>, params: Params, eos: Option<Token>, priority: int, rows: seq<Row>)
    requires !Refused(cfg, prompt, params) && id in e.s.reqs
    ensures var r := EngineSpec.AddRequest(cfg, e, id, prompt, params, eos, priority, Some(rows));
      && r.1 == Rejected && EmbedsOf(r.0.r.embeds, id) == rows
      && (r.0 == e <==> id in e.r.embeds && e.r.embeds[id] == rows)
  {
    var media := e.r.embeds[id := rows];
    assert media[id] == rows;
    if id in e.r.embeds && e.r.embeds[id] == rows { assert media == e.r.embeds; }
  }

  /** A live request that has generated nothing and computed nothing is from then on answered
      from the duplicate's embeddings, soundly, as if it had come with them. */
  lemma DuplicateRedirects(net: Net, cfg: Config, size: nat, e: Engine, id: Id, prompt: seq<Token>, params: Params, eos: Option<Token>, priority: int,
                           rows: seq<Row>, labels: Labels)
    requires EInv(net, cfg, size, e, labels) && !Refused(cfg, prompt, params)
    requires id in e.s.waiting && id in e.s.reqs && e.s.reqs[id].output == [] && id !in e.s.finished
    requires e.s.kv.pool.caching ==> Respects(net, cfg.blockSize, labels.book, rows, e.s.reqs[id].prompt)
    ensures var e' := EngineSpec.AddRequest(cfg, e, id, prompt, params, eos, priority, Some(rows)).0;
      && EInv(net, cfg, size, e', labels) && e'.s == e.s && EmbedsOf(Held(e'), id) == rows
  {
    hide EBase, AllClean, RunReady, HashReady, Respects, OnSoloStream;
    var e' := EngineSpec.AddRequest(cfg, e, id, prompt, params, eos, priority, Some(rows)).0;
    AddBase(net, cfg, size, e, id, prompt, params, eos, priority, Some(rows));
    WaitingNotRunning(net, cfg, size, e, id);
    KeptLabels(net, Held(e), Held(e'), cfg, e.s, e'.s, labels);
    forall x | x in e'.s.reqs ensures StreamAt(net, cfg.maxModelLen, Held(e'), e'.s.reqs[x], x) {
      assert StreamAt(net, cfg.maxModelLen, Held(e), e.s.reqs[x], x);
      if x == id { HasPrompt(net, cfg.maxModelLen, EmbedsOf(Held(e), x), e.s.reqs[x]); NewStream(net, cfg.maxModelLen, Held(e'), e.s.reqs[x], x); }
    }
  }

  lemma WaitingNotRunning(net: Net, cfg: Config, size: nat, e: Engine, id: Id)
    requires EBase(net, cfg, size, e) && id in e.s.waiting
    ensures id !in e.s.running && forall x :: x in e.s.running ==> x in e.s.reqs
  {
    hide Rows, Filling, Bounded, Arrivals, Statuses, Mirrored;
  }

  /** A running one keeps, at every position computed before, the values of the embeddings it
      came with, while the rest of its prompt will be computed from the duplicate's. */
  lemma DuplicateStrands(net: Net, cfg: Config, size: nat, e: Engine, id: Id, prompt: seq<Token>, params: Params, eos: Option<Token>, priority: int,
                         rows: seq<Row>, labels: Labels, p: nat, l: nat)
    requires EInv(net, cfg, size, e, labels) && !Refused(cfg, prompt, params) && id !in e.s.finished
    requires id in e.s.running && id in e.s.reqs && p < e.s.reqs[id].computed && l < net.layers
    ensures var e' := EngineSpec.AddRequest(cfg, e, id, prompt, params, eos, priority, Some(rows)).0; var toks := e.s.reqs[id].Tokens();
      && e'.s == e.s && EmbedsOf(Held(e'), id) == rows && p < |toks|
      && FloorDiv(p, cfg.blockSize) < |TableOf(e'.s.kv, id)| && l < |e'.r.caches|
      && SlotOf(cfg.blockSize, TableOf(e'.s.kv, id), p) < |e'.r.caches[l]|
      && e'.r.caches[l][SlotOf(cfg.blockSize, TableOf(e'.s.kv, id), p)] == Value(net, l, Inputs(net, EmbedsOf(Held(e), id), toks[..p + 1]))
  {
    hide EInv, Value, Inputs, SlotOf;
    InvBlock(net, cfg, size, e, labels);
    ComputedPositionsHoldTheirValue(net, cfg, size, e, labels, id, p, l);
  }

  lemma InvBlock(net: Net, cfg: Config, size: nat, e: Engine, labels: Labels)
    requires EInv(net, cfg, size, e, labels)
    ensures cfg.blockSize > 0
  {
    hide LInv, AllClean, OnStream;
  }
}
