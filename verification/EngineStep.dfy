/** One engine step keeps the engine invariant, never trips an assertion of the runner, and
    emits exactly what each request would have generated alone. */
module EngineStep {
  import opened Util
  import opened Hashing
  import opened BlockManagerSpec
  import opened RequestSpec
  import opened SchedulerSpec
  import opened SchedulerInv
  import opened SchedulePhases
  import opened ScheduleStep
  import opened ScheduleLabels
  import opened NewItems
  import opened Model
  import opened ForwardCorrect
  import opened LabelInv
  import opened WriteLabels
  import opened BatchReadiness
  import opened RunnerSpec
  import opened GraphReplay
  import opened ExecuteCorrect
  import opened EngineSpec
  import opened EngineInv
  import opened EngineSafe

  /** The embeddings the next batch is run with: execute() first forgets those of finished ids. */
  function Held(e: Engine): Media {
    e.r.embeds - Members(e.s.finished)
  }

  ghost predicate EInv(net: Net, cfg: Config, size: nat, e: Engine, labels: Labels) {
    && EBase(net, cfg, size, e)
    && LInv(net, Held(e), cfg, e.s, [], labels)
    && LabelsInside(labels, cfg.blockSize, |e.s.kv.pool.refs|)
    && AllClean(net, e.r.caches, cfg.blockSize, labels)
    && OnStream(net, cfg.maxModelLen, Held(e), e.s)
  }

  /** No request waits under an id of which the runner is still to forget embeddings. */
  predicate NoStale(e: Engine) {
    forall id :: id in e.s.finished && id in e.s.reqs ==> EmbedsOf(e.r.embeds, id) == []
  }

  // ------------------------------------------------------------------ media

  lemma LInvMedia(net: Net, media: Media, media': Media, cfg: Config, s: Sched, out: seq<Item>, labels: Labels)
    requires LInv(net, media, cfg, s, out, labels) && LiveMedia(s, media, media')
    ensures LInv(net, media', cfg, s, out, labels)
  {
    hide Ready, Inputs, HashReady, Respects;
    forall id, i: nat, o: nat | id in s.running ensures RunReadyAt(net, media', s, out, cfg.blockSize, labels, id, i, o) {
      assert RunReadyAt(net, media, s, out, cfg.blockSize, labels, id, i, o);
    }
  }

  lemma OnStreamMedia(net: Net, maxModelLen: nat, media: Media, media': Media, s: Sched)
    requires OnStream(net, maxModelLen, media, s) && LiveMedia(s, media, media')
    ensures OnStream(net, maxModelLen, media', s)
  {
    hide OnSoloStream;
    forall id | id in s.reqs ensures StreamAt(net, maxModelLen, media', s.reqs[id], id) {
      assert StreamAt(net, maxModelLen, media, s.reqs[id], id);
    }
  }

  /** Scheduling leaves every request on its stream: it changes no token. */
  lemma OnStreamSame(net: Net, maxModelLen: nat, media: Media, s: Sched, s': Sched)
    requires OnStream(net, maxModelLen, media, s) && SameTokens(s, s')
    ensures OnStream(net, maxModelLen, media, s')
  {
    forall id | id in s'.reqs ensures StreamAt(net, maxModelLen, media, s'.reqs[id], id) {
      assert StreamAt(net, maxModelLen, media, s.reqs[id], id);
      SameStream(net, maxModelLen, media, s.reqs[id], s'.reqs[id], id);
    }
  }

  lemma SameStream(net: Net, maxModelLen: nat, media: Media, r: Req, r': Req, id: Id)
    requires StreamAt(net, maxModelLen, media, r, id)
    requires r'.(status := Running, computed := 0) == r.(status := Running, computed := 0)
    ensures StreamAt(net, maxModelLen, media, r', id)
  {
    SameFields(r, r');
    forall n | 0 < n < |r'.output| ensures CheckStop(r'.(output := r'.output[..n]), maxModelLen).None? {
      assert CheckStop(r.(output := r.output[..n]), maxModelLen).None?;
    }
  }

  // ------------------------------------------------------------------ the step

  /** Stage A: what schedule() leaves behind. */
  ghost predicate Planned(net: Net, cfg: Config, e: Engine, s': Sched, o: Option<Output>, labels: Labels) {
    && Plan(cfg, e.s, s', o)
    && LInv(net, Held(e), cfg, s', if o.Some? then o.value.scheduled else [], labels)
    && OnStream(net, cfg.maxModelLen, Held(e), s')
  }

  lemma StepPlans(net: Net, cfg: Config, size: nat, e: Engine, labels: Labels)
    requires EInv(net, cfg, size, e, labels)
    ensures cfg.blockSize > 0 && Wf(e.s)
    ensures Planned(net, cfg, e, Schedule(cfg, e.s).0, Schedule(cfg, e.s).1, labels)
  {
    hide SInv, LInv, OnStream, SameTokens, Schedule, Accounted, KvShaped, AllClean, CachesOk, Mirrored, CacheSize, LabelsInside, AllButLast;
    SchedulePlans(net, cfg, size, e);
    ScheduleLabelsKept(net, Held(e), cfg, e.s, labels);
    OnStreamSame(net, cfg.maxModelLen, Held(e), e.s, Schedule(cfg, e.s).0);
  }

  lemma ForgetIsHeld(e: Engine, out: Output)
    requires out.finished == e.s.finished
    ensures Forget(e.r, out).embeds == Held(e)
  {
  }

  /** A change of the scheduler's state that leaves live requests the embeddings they have. */
  lemma HeldAfter(net: Net, cfg: Config, e: Engine, e': Engine, labels: Labels)
    requires LInv(net, Held(e), cfg, e'.s, [], labels) && OnStream(net, cfg.maxModelLen, Held(e), e'.s)
    requires LiveMedia(e'.s, Held(e), Held(e'))
    ensures LInv(net, Held(e'), cfg, e'.s, [], labels) && OnStream(net, cfg.maxModelLen, Held(e'), e'.s)
  {
    hide LInv, OnStream, LiveMedia;
    LInvMedia(net, Held(e), Held(e'), cfg, e'.s, [], labels);
    OnStreamMedia(net, cfg.maxModelLen, Held(e), Held(e'), e'.s);
  }

  /** Between steps, the settled labels are the label invariant. */
  lemma SettledIsLInv(net: Net, media: Media, cfg: Config, s: Sched, labels: Labels)
    requires RunSettled(net, media, s, [], cfg.blockSize, labels) && HashSettled(s, cfg.blockSize, labels)
    requires MediaOk(net, cfg.blockSize, s, media, labels.book)
    ensures LInv(net, media, cfg, s, [], labels)
  {
    hide Inputs, HashWant, RowsFor;
    forall id, i: nat, o: nat | id in s.running ensures RunReadyAt(net, media, s, [], cfg.blockSize, labels, id, i, o) {
      assert RunSettledAt(net, media, s, [], cfg.blockSize, labels, id, i, o);
    }
    forall b: nat, o: nat ensures HashReadyAt(s, [], cfg.blockSize, labels, b, o) {
      assert HashSettledAt(s, cfg.blockSize, labels, b, o);
    }
  }

  lemma {:induction false} UpdateCaching(cfg: Config, s: Sched, items: seq<Item>, sampled: map<Id, Token>)
    requires Settled(s) && forall it :: it in items ==> it.id !in s.waiting && (it.doSample ==> it.id in sampled)
    ensures Update(cfg, s, items, sampled).0.kv.pool.caching == s.kv.pool.caching
    decreases |items|
  {
    hide KvShaped, CheckStop, FreeRequest;
    if items != [] {
      var it, rest := items[0], items[1..];
      assert it in items && forall x :: x in rest ==> x in items;
      UpdateCaching(cfg, UpdateOne(cfg, s, it, sampled).0, rest, sampled);
    }
  }

  /** Stage C: execute. */
  lemma StepExecutes(net: Net, cfg: Config, size: nat, e: Engine, s': Sched, out: Output, labels: Labels) returns (labels': Labels)
    requires EInv(net, cfg, size, e, labels) && Planned(net, cfg, e, s', Some(out), labels)
    requires Replays(e.r.graphs, out.scheduled) ==> TokensSuffice(net, Held(e), out.scheduled)
    ensures SInv(cfg, s', out.scheduled) && labels'.book == labels.book
    ensures Executable(net, cfg.blockSize, e.r, out, size)
    ensures var q := Execute(net, cfg.blockSize, e.r, out, size);
      && Executed(net, cfg, s', out, e.r, q.0, q.1, size, labels')
      && UInv(net, cfg, Held(e), q.1, s', out.scheduled, labels')
      && q.0.embeds == Held(e)
    ensures LabelsInside(labels', cfg.blockSize, |s'.kv.pool.refs|)
  {
    hide SInv, LInv, OnStream, SameTokens, AllClean, CachesOk, LabelsInside, MirrorReady, Forget, WriteAll, BatchOf,
         RunSettled, HashSettled, Mirrored, MirrorAt, IdsOk, CacheSize, Execute, Executable, QueriesOk, Accounted, AllButLast, Fresh, InSync;
    PlanMeetsRunner(net, cfg, size, e, s', out);
    ForgetIsHeld(e, out);
    SameCacheSize(e.s, s', cfg.blockSize, size);
    ExecuteSteps(net, cfg, s', out, e.r, size, labels);
    StepSettles(net, Held(e), cfg, s', out.scheduled, labels);
    StepRelabelled(net, Held(e), cfg, s', out.scheduled, labels);
    labels' := WriteAll(labels, cfg.blockSize, BatchOf(net, Held(e), s', out.scheduled));
    EmbedsAfter(net, s', out, e.r, Execute(net, cfg.blockSize, e.r, out, size).0, Execute(net, cfg.blockSize, e.r, out, size).1, size);
  }

  lemma EmbedsAfter(net: Net, s: Sched, out: Output, r: Runner, r': Runner, sampled: map<Id, Token>, size: nat)
    requires InSync(net, s, out, r, r', sampled, size)
    ensures r'.embeds == Forget(r, out).embeds
  {
  }

  lemma MediaAfter(net: Net, bs: nat, s: Sched, s': Sched, media: Media, book: Book)
    requires MediaOk(net, bs, s, media, book) && s'.kv.pool.caching == s.kv.pool.caching
    requires forall id :: id in s'.reqs ==> id in s.reqs && s'.reqs[id].prompt == s.reqs[id].prompt
    ensures MediaOk(net, bs, s', media, book)
  {
    hide Respects;
  }

  lemma MediaOf(net: Net, media: Media, cfg: Config, s: Sched, out: seq<Item>, labels: Labels)
    requires LInv(net, media, cfg, s, out, labels)
    ensures MediaOk(net, cfg.blockSize, s, media, labels.book)
  {
    hide RunReady, HashReady, MediaOk;
  }

  /** Stage D: update. */
  lemma StepUpdates(net: Net, cfg: Config, size: nat, e: Engine, s': Sched, out: Output, r': Runner, sampled: map<Id, Token>,
                    labels: Labels, labels': Labels)
    requires Planned(net, cfg, e, s', Some(out), labels) && labels'.book == labels.book && r'.embeds == Held(e)
    requires SInv(cfg, s', out.scheduled) && UInv(net, cfg, Held(e), sampled, s', out.scheduled, labels')
    requires Settled(s') && forall it :: it in out.scheduled ==> it.id !in s'.waiting && (it.doSample ==> it.id in sampled)
    ensures var u := Update(cfg, s', out.scheduled, sampled);
      && LInv(net, Held(e), cfg, u.0, [], labels') && OnStream(net, cfg.maxModelLen, Held(e), u.0)
      && (forall j :: 0 <= j < |u.1| ==> Emitted(net, cfg.maxModelLen, Held(e), u.1[j]))
  {
    hide SInv, OnStream, SameTokens, LabelsInside, RunSettled, HashSettled, SoloSampled, LInv,
         Emitted, Update, KvShaped, Accounted, AllButLast, MediaOk, Fresh, Settled;
    UpdateRun(net, cfg, Held(e), sampled, s', out.scheduled, labels');
    UpdateIds(cfg, s', out.scheduled, sampled);
    UpdateCaching(cfg, s', out.scheduled, sampled);
    var u := Update(cfg, s', out.scheduled, sampled);
    MediaOf(net, Held(e), cfg, s', out.scheduled, labels);
    MediaAfter(net, cfg.blockSize, s', u.0, Held(e), labels.book);
    SettledIsLInv(net, Held(e), cfg, u.0, labels');
  }

  /** A step leaves whoever stays live the embeddings it runs with, if and only if schedule() does
      not raise or no reused id's old embeddings are still to be forgotten. */
  lemma StepHeld(net: Net, cfg: Config, size: nat, e: Engine)
    requires EBase(net, cfg, size, e)
    ensures StepDefined(net, cfg, e, size)
    ensures var r := Step(net, cfg, e, size);
      LiveMedia(r.0.s, Held(e), Held(r.0)) <==> r.1.Outputs? || NoStale(e)
  {
    hide EBase, Schedule, Execute, Executable, Update, SInv, KvShaped, Settled, SameTokens, Accounted, Mirrored, FedAt, Forget, AllButLast;
    StepSafe(net, cfg, size, e);
    SchedulePlans(net, cfg, size, e);
    var p := Schedule(cfg, e.s);
    SameKeys(e.s, p.0);
    if p.1.Some? && (p.1.value.scheduled != [] || p.1.value.finished != []) {
      PlanExecutes(net, cfg, size, e, p.0, p.1.value);
      var q := Execute(net, cfg.blockSize, e.r, p.1.value, size);
      ForgetIsHeld(e, p.1.value);
      UpdateIds(cfg, p.0, p.1.value.scheduled, q.1);
    } else if p.1.None? {
      RaisedHeld(e, e.(s := p.0));
    }
  }

  /** When schedule() raises, the runner never hears of the ended ids. */
  lemma RaisedHeld(e: Engine, e': Engine)
    requires e'.r == e.r && e'.s.finished == [] && e'.s.reqs.Keys == e.s.reqs.Keys
    ensures LiveMedia(e'.s, Held(e), Held(e')) <==> NoStale(e)
  {
    assert Held(e') == e.r.embeds;
    if LiveMedia(e'.s, Held(e), Held(e')) {
      forall id | id in e.s.finished && id in e.s.reqs ensures EmbedsOf(e.r.embeds, id) == [] {
        assert id in e.s.reqs.Keys && id in e'.s.reqs;
      }
    }
    if NoStale(e) {
      forall id | id in e'.s.reqs ensures EmbedsOf(Held(e'), id) == EmbedsOf(Held(e), id) {
        assert id in e'.s.reqs.Keys && id in e.s.reqs;
      }
    }
  }

  /** If the step about to be taken replays a graph, token ids tell its input rows. */
  ghost predicate GraphSound(net: Net, cfg: Config, e: Engine) {
    cfg.blockSize > 0 && Wf(e.s) && Schedule(cfg, e.s).1.Some? && Replays(e.r.graphs, Schedule(cfg, e.s).1.value.scheduled) ==>
      TokensSuffice(net, Held(e), Schedule(cfg, e.s).1.value.scheduled)
  }

  /** Without captured graphs every step is eager. */
  lemma NoGraphs(net: Net, cfg: Config, e: Engine)
    requires e.r.graphs == None
    ensures GraphSound(net, cfg, e)
  {
    hide Schedule, KvShaped;
  }

  /** After a call that raised nobody runs, so only the rows cached blocks stand for matter. */
  lemma RaisedStep(net: Net, cfg: Config, size: nat, e: Engine, s': Sched, labels: Labels)
    requires EInv(net, cfg, size, e, labels) && Planned(net, cfg, e, s', None, labels) && EBase(net, cfg, size, e.(s := s'))
    ensures EInv(net, cfg, size, e.(s := s'), labels) <==> MediaOk(net, cfg.blockSize, s', Held(e.(s := s')), labels.book)
  {
    hide SInv, EBase, AllClean, LabelsInside, HashReadyAt, OnSoloStream, CheckStop, MediaOk;
    var e' := e.(s := s');
    RaisedPool(cfg, e.s, s');
    forall id | id in s'.reqs ensures StreamAt(net, cfg.maxModelLen, Held(e'), s'.reqs[id], id) {
      assert StreamAt(net, cfg.maxModelLen, Held(e), s'.reqs[id], id);
      if id in e.s.finished {
        ReusedEmpty(net, cfg, size, e, s', id);
        HasPrompt(net, cfg.maxModelLen, EmbedsOf(Held(e), id), s'.reqs[id]);
        NewStream(net, cfg.maxModelLen, Held(e'), s'.reqs[id], id);
      }
    }
  }

  lemma RaisedPool(cfg: Config, s: Sched, s': Sched)
    requires Plan(cfg, s, s', None)
    ensures s'.running == [] && s'.finished == [] && PoolSize(s') == PoolSize(s)
  {
    hide SameTokens, SInv;
  }

  lemma ReusedEmpty(net: Net, cfg: Config, size: nat, e: Engine, s': Sched, id: Id)
    requires EBase(net, cfg, size, e) && Plan(cfg, e.s, s', None) && id in e.s.finished && id in s'.reqs
    ensures s'.reqs[id].output == []
  {
    hide SInv, Mirrored;
    SameKeys(e.s, s');
    assert id in s'.reqs.Keys && id in e.s.reqs;
    SameFields(e.s.reqs[id], s'.reqs[id]);
  }

  lemma HasPrompt(net: Net, maxModelLen: nat, embeds: seq<Row>, r: Req)
    requires OnSoloStream(net, maxModelLen, embeds, r)
    ensures r.prompt != []
  {
  }

  /** Nothing generated yet: any embeddings put the request at the start of its stream. */
  lemma NewStream(net: Net, maxModelLen: nat, media: Media, r: Req, id: Id)
    requires r.output == [] && r.prompt != []
    ensures StreamAt(net, maxModelLen, media, r, id)
  {
  }

  /** A whole step: no assertion of the source fires; if it hands back outputs, each is exactly
      where its solo run is and the invariant holds again; if schedule() raised, the invariant
      holds again exactly when the rows live requests now run with agree with the book. */
  lemma StepKeeps(net: Net, cfg: Config, size: nat, e: Engine, labels: Labels) returns (labels': Labels)
    requires EInv(net, cfg, size, e, labels)
    ensures StepDefined(net, cfg, e, size) && labels'.book == labels.book
    ensures var r := Step(net, cfg, e, size);
      && (r.1.Outputs? && GraphSound(net, cfg, e) ==>
            && EInv(net, cfg, size, r.0, labels')
            && forall j :: 0 <= j < |r.1.outputs| ==> Emitted(net, cfg.maxModelLen, Held(e), r.1.outputs[j]))
      && (r.1.Raised? ==>
            (EInv(net, cfg, size, r.0, labels') <==> MediaOk(net, cfg.blockSize, r.0.s, Held(r.0), labels.book)))
  {
    hide EBase, Planned, Schedule, Execute, Executable, Update, Emitted, Executed, UInv, SInv, KvShaped, LiveMedia,
         LInv, AllClean, OnStream, NoStale, Held, Settled, LabelsInside, MediaOk, TokensSuffice, Replays;
    StepSafe(net, cfg, size, e);
    StepHeld(net, cfg, size, e);
    StepPlans(net, cfg, size, e, labels);
    var p := Schedule(cfg, e.s);
    var e' := Step(net, cfg, e, size).0;
    labels' := labels;
    PlanFacts(net, cfg, e, p.0, p.1, labels);
    if p.1.None? {
      RaisedStep(net, cfg, size, e, p.0, labels);
    } else if GraphSound(net, cfg, e) {
      if p.1.value.scheduled != [] || p.1.value.finished != [] {
        labels' := StepExecutes(net, cfg, size, e, p.0, p.1.value, labels);
        var q := Execute(net, cfg.blockSize, e.r, p.1.value, size);
        StepUpdates(net, cfg, size, e, p.0, p.1.value, q.0, q.1, labels, labels');
        CleanAfter(net, cfg, e, p.0, p.1.value, q.0, q.1, size, labels, labels');
      }
      HeldAfter(net, cfg, e, e', labels');
    }
  }

  /** A call that raises while nothing is to be forgotten keeps the invariant. */
  lemma RaisedKeeps(net: Net, cfg: Config, size: nat, e: Engine, labels: Labels)
    requires EInv(net, cfg, size, e, labels) && NoStale(e) && StepDefined(net, cfg, e, size) && Step(net, cfg, e, size).1.Raised?
    ensures var e' := Step(net, cfg, e, size).0; MediaOk(net, cfg.blockSize, e'.s, Held(e'), labels.book)
  {
    hide EBase, Schedule, KvShaped, LInv, AllClean, OnStream, Held, LabelsInside, NoStale, Execute, Executable, Update, Settled;
    StepPlans(net, cfg, size, e, labels);
    StepHeld(net, cfg, size, e);
    PlanFacts(net, cfg, e, Schedule(cfg, e.s).0, Schedule(cfg, e.s).1, labels);
    var e' := Step(net, cfg, e, size).0;
    LInvMedia(net, Held(e), Held(e'), cfg, e'.s, [], labels);
    MediaOf(net, Held(e'), cfg, e'.s, [], labels);
  }

  lemma PlanFacts(net: Net, cfg: Config, e: Engine, s': Sched, o: Option<Output>, labels: Labels)
    requires Planned(net, cfg, e, s', o, labels)
    ensures PoolSize(s') == PoolSize(e.s) && OnStream(net, cfg.maxModelLen, Held(e), s')
    ensures LInv(net, Held(e), cfg, s', if o.Some? then o.value.scheduled else [], labels)
  {
    hide LInv, OnStream, Scheduled, Accounted;
  }

  lemma CleanAfter(net: Net, cfg: Config, e: Engine, s': Sched, out: Output, r': Runner, sampled: map<Id, Token>, size: nat,
                   labels: Labels, labels': Labels)
    requires Executed(net, cfg, s', out, e.r, r', sampled, size, labels')
    requires Settled(s') && forall it :: it in out.scheduled ==> it.id !in s'.waiting && (it.doSample ==> it.id in sampled)
    ensures AllClean(net, r'.caches, cfg.blockSize, labels')
    ensures PoolSize(Update(cfg, s', out.scheduled, sampled).0) == PoolSize(s')
  {
    hide Update, AllClean, InSync, SoloSampled, Settled;
  }
}
