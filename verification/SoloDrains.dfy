/** Exactly when the step loop ends, whatever ends the requests: the length of each solo run is
    the room it needs. */
module SoloDrains {
  import opened Util
  import opened Hashing
  import opened BlockManagerSpec
  import opened RequestSpec
  import opened SchedulerSpec
  import opened SchedulerInv
  import opened SchedulePhases
  import opened NewItems
  import opened ScheduleStep
  import opened UpdateStep
  import opened Assertions
  import opened Model
  import opened ForwardCorrect
  import opened LabelInv
  import opened RunnerSpec
  import opened GraphReplay
  import opened WriteLabels
  import opened BatchReadiness
  import opened EngineSpec
  import opened EngineInv
  import opened EngineSafe
  import opened EngineStep
  import opened EngineRun
  import opened Asks
  import opened Lifecycle
  import opened Progress
  import opened Draining
  import opened Drain
  import opened DrainsExactly
  import opened Generate

  // ------------------------------------------------------------------ the length of a solo run

  /** The solo run of what r asked for, n tokens in. */
  ghost function SoloAt(net: Net, embeds: seq<Row>, r: Req, n: nat): (q: Req)
    requires r.prompt != []
    ensures |q.output| == n
  {
    r.(output := SoloTokens(net, embeds, r.prompt, r.params, n))
  }

  ghost predicate StopsAt(net: Net, maxModelLen: nat, embeds: seq<Row>, r: Req, n: nat)
    requires r.prompt != []
  {
    n > 0 && CheckStop(SoloAt(net, embeds, r, n), maxModelLen).Some?
  }

  ghost function StopFrom(net: Net, maxModelLen: nat, embeds: seq<Row>, r: Req, n: nat): (m: nat)
    requires r.prompt != []
    ensures n <= m
    decreases OutputCap(r, maxModelLen) - n
  {
    if n >= OutputCap(r, maxModelLen) || StopsAt(net, maxModelLen, embeds, r, n) then n
    else StopFrom(net, maxModelLen, embeds, r, n + 1)
  }

  /** How many tokens r generates running alone. */
  ghost function SoloLen(net: Net, maxModelLen: nat, embeds: seq<Row>, r: Req): nat
    requires r.prompt != []
  {
    StopFrom(net, maxModelLen, embeds, r, 1)
  }

  lemma {:induction false} StopFromFirst(net: Net, maxModelLen: nat, embeds: seq<Row>, r: Req, n: nat)
    requires Admissible(r, maxModelLen) && 1 <= n <= OutputCap(r, maxModelLen)
    ensures var m := StopFrom(net, maxModelLen, embeds, r, n);
      StopsAt(net, maxModelLen, embeds, r, m) && forall k :: n <= k < m ==> !StopsAt(net, maxModelLen, embeds, r, k)
    decreases OutputCap(r, maxModelLen) - n
  {
    hide SoloTokens;
    if n < OutputCap(r, maxModelLen) {
      hide CheckStop;
      if !StopsAt(net, maxModelLen, embeds, r, n) { StopFromFirst(net, maxModelLen, embeds, r, n + 1); }
    } else {
      AtCap(net, maxModelLen, embeds, r, n);
    }
  }

  /** At its cap a run stops for its length, if for nothing else. */
  lemma AtCap(net: Net, maxModelLen: nat, embeds: seq<Row>, r: Req, n: nat)
    requires Admissible(r, maxModelLen) && 1 <= n && n >= OutputCap(r, maxModelLen)
    ensures StopsAt(net, maxModelLen, embeds, r, n)
  {
    hide SoloTokens;
  }

  /** The solo run stops at SoloLen, and not before. */
  lemma SoloLenIs(net: Net, maxModelLen: nat, embeds: seq<Row>, r: Req)
    requires Admissible(r, maxModelLen)
    ensures StopsAt(net, maxModelLen, embeds, r, SoloLen(net, maxModelLen, embeds, r))
    ensures forall k :: 0 <= k < SoloLen(net, maxModelLen, embeds, r) ==> !StopsAt(net, maxModelLen, embeds, r, k)
  {
    hide StopFrom, CheckStop, SoloTokens;
    StopFromFirst(net, maxModelLen, embeds, r, 1);
  }

  /** Only what was asked for matters. */
  lemma {:induction false} SameLen(net: Net, maxModelLen: nat, embeds: seq<Row>, a: Req, b: Req, n: nat)
    requires a.prompt != [] && SameAsk(a, b)
    ensures StopFrom(net, maxModelLen, embeds, a, n) == StopFrom(net, maxModelLen, embeds, b, n)
    decreases OutputCap(a, maxModelLen) - n
  {
    hide SoloTokens, CheckStop;
    if n > 0 { StopSame(SoloAt(net, embeds, a, n), SoloAt(net, embeds, b, n), maxModelLen); }
    if n < OutputCap(a, maxModelLen) && !StopsAt(net, maxModelLen, embeds, a, n) {
      SameLen(net, maxModelLen, embeds, a, b, n + 1);
    }
  }

  /** On the solo stream, stopping is stopping where the solo run does. */
  lemma OnStreamStops(net: Net, maxModelLen: nat, embeds: seq<Row>, r: Req, n: nat)
    requires OnSoloStream(net, maxModelLen, embeds, r) && 0 < n <= |r.output|
    ensures CheckStop(r.(output := r.output[..n]), maxModelLen).Some? <==> StopsAt(net, maxModelLen, embeds, r, n)
  {
    hide SoloTokens, CheckStop;
    SoloPrefix(net, embeds, r.prompt, r.params, |r.output|, n);
    assert r.(output := r.output[..n]) == SoloAt(net, embeds, r, n);
  }

  /** A request that has not stopped is short of its solo length. */
  lemma LiveShort(net: Net, maxModelLen: nat, media: Media, r: Req, id: Id)
    requires StreamAt(net, maxModelLen, media, r, id) && Admissible(r, maxModelLen)
    ensures |r.output| < SoloLen(net, maxModelLen, EmbedsOf(media, id), r)
  {
    hide SoloTokens, CheckStop, SoloLen, StopsAt;
    var embeds := EmbedsOf(media, id);
    SoloLenIs(net, maxModelLen, embeds, r);
    var m := SoloLen(net, maxModelLen, embeds, r);
    StopsLater(net, maxModelLen, embeds, r, m);
    assert r.output[..|r.output|] == r.output;
    if m <= |r.output| { OnStreamStops(net, maxModelLen, embeds, r, m); }
  }

  lemma StopsLater(net: Net, maxModelLen: nat, embeds: seq<Row>, r: Req, n: nat)
    requires r.prompt != [] && StopsAt(net, maxModelLen, embeds, r, n)
    ensures n > 0
  {
  }

  /** One that has, stopped exactly there. */
  lemma FinishedLong(net: Net, maxModelLen: nat, media: Media, u: (Id, Req))
    requires Emitted(net, maxModelLen, media, u) && Admissible(u.1, maxModelLen) && u.1.status.Finished()
    ensures |u.1.output| == SoloLen(net, maxModelLen, EmbedsOf(media, u.0), u.1)
  {
    hide SoloTokens, CheckStop, SoloLen, StopsAt;
    var embeds, r := EmbedsOf(media, u.0), u.1;
    SoloLenIs(net, maxModelLen, embeds, r);
    var m := SoloLen(net, maxModelLen, embeds, r);
    StopsLater(net, maxModelLen, embeds, r, m);
    assert r.output[..|r.output|] == r.output;
    OnStreamStops(net, maxModelLen, embeds, r, |r.output|);
    if m < |r.output| { OnStreamStops(net, maxModelLen, embeds, r, m); }
  }

  // ------------------------------------------------------------------ what a step hands back fits the pool

  lemma UpdateOneWithin(cfg: Config, s: Sched, it: Item, rest: seq<Item>, sampled: map<Id, Token>)
    requires SInv(cfg, s, [it] + rest) && (it.doSample ==> it.id in sampled) && Settled(s) && it.id !in s.waiting
    ensures forall u :: u in UpdateOne(cfg, s, it, sampled).1 ==> u.1.NumTokens() - 1 <= PoolSize(s) * cfg.blockSize
  {
    hide SInv, KvShaped, FreeRequest, CheckStop;
    var all := [it] + rest;
    assert all[0] == it;
    ItemWithinPool(cfg, s, all, 0);
  }

  lemma {:induction false} UpdateWithin(cfg: Config, s: Sched, items: seq<Item>, sampled: map<Id, Token>)
    requires SInv(cfg, s, items) && Settled(s)
    requires forall it :: it in items ==> it.id !in s.waiting && (it.doSample ==> it.id in sampled)
    ensures forall u :: u in Update(cfg, s, items, sampled).1 ==> u.1.NumTokens() - 1 <= PoolSize(s) * cfg.blockSize
    decreases |items|
  {
    hide SInv, UpdateOne, KvShaped;
    if items != [] {
      var it, rest := items[0], items[1..];
      assert items == [it] + rest;
      assert it in items && forall x :: x in rest ==> x in items;
      UpdateOneWithin(cfg, s, it, rest, sampled);
      UpdateOneInv(cfg, s, it, rest, sampled);
      UpdateWithin(cfg, UpdateOne(cfg, s, it, sampled).0, rest, sampled);
    }
  }

  lemma StepWithin(net: Net, cfg: Config, size: nat, e: Engine)
    requires EBase(net, cfg, size, e)
    ensures StepDefined(net, cfg, e, size)
    ensures var r := Step(net, cfg, e, size);
      r.1.Outputs? ==> forall u :: u in r.1.outputs ==> u.1.NumTokens() - 1 <= PoolSize(e.s) * cfg.blockSize
  {
    hide SInv, KvShaped, Schedule, Execute, Executable, Update, SameTokens, AllButLast, ScheduleAsserts, UpdateAsserts;
    StepSafe(net, cfg, size, e);
    SInvWf(cfg, e.s, []);
    ScheduleInv(cfg, e.s);
    var (s', o) := Schedule(cfg, e.s);
    if o.Some? && (o.value.scheduled != [] || o.value.finished != []) {
      UpdateWithin(cfg, s', o.value.scheduled, Execute(net, cfg.blockSize, e.r, o.value, size).1);
    }
  }

  // ------------------------------------------------------------------ what the loop keeps

  /** Embeddings only say what the prompt's token ids say. */
  predicate Textual(net: Net, embeds: seq<Row>, prompt: seq<Token>) {
    |embeds| <= |prompt| && forall p :: 0 <= p < |embeds| ==> embeds[p] == net.embed(prompt[p])
  }

  /** No graph was captured, or no live request brought rows of its own. */
  ghost predicate GraphFree(net: Net, e: Engine) {
    e.r.graphs.None? || forall id :: id in e.s.reqs ==> Textual(net, EmbedsOf(Held(e), id), e.s.reqs[id].prompt)
  }

  lemma FreeSound(net: Net, cfg: Config, size: nat, e: Engine)
    requires EBase(net, cfg, size, e) && GraphFree(net, e)
    ensures GraphSound(net, cfg, e)
  {
    hide SInv, Schedule, KvShaped, SameTokens, CachesOk, Mirrored, Textual, AllButLast, Accounted, Held;
    if e.r.graphs == None {
      NoGraphs(net, cfg, e);
    } else {
      SchedulePlans(net, cfg, size, e);
      var (s', o) := Schedule(cfg, e.s);
      if o.Some? { PlannedSuffices(net, cfg, e, s', o.value.scheduled); }
    }
  }

  lemma PlannedSuffices(net: Net, cfg: Config, e: Engine, s': Sched, items: seq<Item>)
    requires SInv(cfg, s', items) && SameTokens(e.s, s')
    requires forall id :: id in e.s.reqs ==> Textual(net, EmbedsOf(Held(e), id), e.s.reqs[id].prompt)
    ensures TokensSuffice(net, Held(e), items)
  {
    hide SInv, SameTokens, Held;
    forall k | 0 <= k < |items| && |items[k].chunk| > 0 && items[k].start < |EmbedsOf(Held(e), items[k].id)|
      ensures EmbedsOf(Held(e), items[k].id)[items[k].start] == net.embed(items[k].chunk[0])
    {
      var it := items[k];
      ItemFacts(cfg, s', items, k);
      SameKeys(e.s, s');
      assert it.id in s'.reqs.Keys && it.id in e.s.reqs;
      ChunkStarts(s', it);
    }
  }

  /** A chunk that starts in the prompt starts with the prompt's token there. */
  lemma ChunkStarts(s: Sched, it: Item)
    requires ItemOk(s, it) && it.chunk != []
    ensures it.id in s.reqs && (it.start < |s.reqs[it.id].prompt| ==> it.chunk[0] == s.reqs[it.id].prompt[it.start])
  {
  }

  /** What a step takes along of a live request. */
  ghost predicate Same(net: Net, cfg: Config, e: Engine, e': Engine, id: Id) {
    && id in e.s.reqs && id in e'.s.reqs && SameAsk(e'.s.reqs[id], e.s.reqs[id])
    && EmbedsOf(Held(e'), id) == EmbedsOf(Held(e), id)
  }

  lemma FreeStays(net: Net, cfg: Config, e: Engine, e': Engine)
    requires GraphFree(net, e) && e'.r.graphs == e.r.graphs && forall id :: id in e'.s.reqs ==> Same(net, cfg, e, e', id)
    ensures GraphFree(net, e')
  {
    hide Textual, Held;
    if e.r.graphs.Some? {
      forall id | id in e'.s.reqs ensures Textual(net, EmbedsOf(Held(e'), id), e'.s.reqs[id].prompt) { assert Same(net, cfg, e, e', id); }
    }
  }

  lemma StepGraphs(net: Net, cfg: Config, size: nat, e: Engine)
    requires StepDefined(net, cfg, e, size)
    ensures Step(net, cfg, e, size).0.r.graphs == e.r.graphs
  {
    hide StepDefined, Step;
    assert Defined(net, cfg, size, e, StepEvent);
    EventGraphs(net, cfg, size, e, StepEvent);
  }

  /** A step that does not raise leaves everyone live what he asked for. */
  lemma StepSame(net: Net, cfg: Config, size: nat, e: Engine)
    requires EBase(net, cfg, size, e)
    ensures StepDefined(net, cfg, e, size)
    ensures var r := Step(net, cfg, e, size);
      r.1.Outputs? ==> (forall id :: id in r.0.s.reqs ==> Same(net, cfg, e, r.0, id)) && (GraphFree(net, e) ==> GraphFree(net, r.0))
  {
    hide EBase, Held, StepDefined, Step, GraphFree, SameAsk;
    StepHeld(net, cfg, size, e);
    StepAsk(net, cfg, size, e);
    StepGraphs(net, cfg, size, e);
    var r := Step(net, cfg, e, size);
    if r.1.Outputs? && GraphFree(net, e) { FreeStays(net, cfg, e, r.0); }
  }

  /** Steps from e on, none of them raising. */
  ghost predicate StepsFrom(net: Net, cfg: Config, size: nat, e: Engine, states: seq<Engine>) {
    states != [] && states[0] == e && forall i :: 0 <= i < |states| - 1 ==> Continues(net, cfg, size, states[i], states[i + 1])
  }

  /** Whenever the loop replays a graph, token ids tell the input rows. */
  ghost predicate SoundAlong(net: Net, cfg: Config, size: nat, e: Engine) {
    forall states :: StepsFrom(net, cfg, size, e, states) ==> GraphSound(net, cfg, states[|states| - 1])
  }

  lemma SoundNow(net: Net, cfg: Config, size: nat, e: Engine)
    requires SoundAlong(net, cfg, size, e)
    ensures GraphSound(net, cfg, e)
  {
    hide GraphSound;
    assert StepsFrom(net, cfg, size, e, [e]);
  }

  lemma SoundNext(net: Net, cfg: Config, size: nat, e: Engine, e': Engine)
    requires SoundAlong(net, cfg, size, e) && Continues(net, cfg, size, e, e')
    ensures SoundAlong(net, cfg, size, e')
  {
    hide GraphSound, Continues;
    forall states | StepsFrom(net, cfg, size, e', states) ensures GraphSound(net, cfg, states[|states| - 1]) {
      var more := [e] + states;
      forall i | 0 <= i < |more| - 1 ensures Continues(net, cfg, size, more[i], more[i + 1]) {
        assert more[i + 1] == states[i];
        if i > 0 { assert more[i] == states[i - 1] && Continues(net, cfg, size, states[i - 1], states[i]); }
      }
      assert StepsFrom(net, cfg, size, e, more) && more[|more| - 1] == states[|states| - 1];
    }
  }

  lemma {:induction false} FreeFrom(net: Net, cfg: Config, size: nat, e: Engine, states: seq<Engine>)
    requires EBase(net, cfg, size, e) && GraphFree(net, e) && StepsFrom(net, cfg, size, e, states)
    ensures GraphSound(net, cfg, states[|states| - 1])
    decreases |states|
  {
    hide EBase, GraphFree, GraphSound, StepDefined, Step, Same;
    if |states| == 1 {
      FreeSound(net, cfg, size, e);
    } else {
      assert Continues(net, cfg, size, states[0], states[1]);
      StepSafe(net, cfg, size, e);
      StepSame(net, cfg, size, e);
      var later := states[1..];
      forall i | 0 <= i < |later| - 1 ensures Continues(net, cfg, size, later[i], later[i + 1]) {
        assert Continues(net, cfg, size, states[i + 1], states[i + 2]);
      }
      FreeFrom(net, cfg, size, states[1], later);
    }
  }

  /** What a caller can check before the loop: no graph was captured, or no live request brought
      rows of its own. */
  lemma FreeAlong(net: Net, cfg: Config, size: nat, e: Engine)
    requires EBase(net, cfg, size, e) && GraphFree(net, e)
    ensures SoundAlong(net, cfg, size, e)
  {
    hide EBase, GraphFree, GraphSound, Continues;
    forall states | StepsFrom(net, cfg, size, e, states) ensures GraphSound(net, cfg, states[|states| - 1]) { FreeFrom(net, cfg, size, e, states); }
  }

  /** One step of the loop that does not raise. */
  lemma SoloStep(net: Net, cfg: Config, size: nat, e: Engine, labels: Labels) returns (labels': Labels)
    requires EInv(net, cfg, size, e, labels) && GraphSound(net, cfg, e)
    ensures StepDefined(net, cfg, e, size)
    ensures var r := Step(net, cfg, e, size);
      r.1.Outputs? ==>
        && EInv(net, cfg, size, r.0, labels')
        && PoolSize(r.0.s) == PoolSize(e.s) && (forall id :: id in r.0.s.reqs ==> Same(net, cfg, e, r.0, id))
        && AskKept(e.s, r.1.outputs, r.0.s) && Grown(cfg, e.s.(finished := []), r.1.outputs, r.0.s)
        && (forall j :: 0 <= j < |r.1.outputs| ==> Emitted(net, cfg.maxModelLen, Held(e), r.1.outputs[j]))
        && (forall u :: u in r.1.outputs ==> u.1.NumTokens() - 1 <= PoolSize(e.s) * cfg.blockSize)
  {
    hide EBase, LInv, AllClean, OnStream, LabelsInside, Held, StepDefined, Step, Emitted, GraphSound, Grown, Same, MediaOk;
    labels' := StepKeeps(net, cfg, size, e, labels);
    StepAsk(net, cfg, size, e);
    StepSame(net, cfg, size, e);
    StepPool(net, cfg, size, e);
    StepWithin(net, cfg, size, e);
    StepLived(net, cfg, size, e);
    GrownBy(net, cfg, size, e);
  }

  lemma GrownBy(net: Net, cfg: Config, size: nat, e: Engine)
    requires StepDefined(net, cfg, e, size) && Lived(net, cfg, size, e, StepEvent)
    ensures var r := Step(net, cfg, e, size);
      Grown(cfg, e.s.(finished := []), if r.1.Outputs? then r.1.outputs else [], r.0.s)
  {
    hide StepDefined, Step, Grown;
  }

  // ------------------------------------------------------------------ room

  /** Tokens a live request comes to compute: all but the last. */
  ghost function SoloNeeds(net: Net, cfg: Config, e: Engine, id: Id): nat
    requires id in e.s.reqs && e.s.reqs[id].prompt != []
  {
    |e.s.reqs[id].prompt| + SoloLen(net, cfg.maxModelLen, EmbedsOf(Held(e), id), e.s.reqs[id]) - 1
  }

  ghost predicate SoloFits(net: Net, cfg: Config, e: Engine, id: Id)
    requires cfg.blockSize > 0
  {
    id in e.s.reqs && e.s.reqs[id].prompt != [] && CeilDiv(SoloNeeds(net, cfg, e, id), cfg.blockSize) <= PoolSize(e.s)
  }

  lemma NeedsSame(net: Net, cfg: Config, e: Engine, e': Engine, id: Id)
    requires Same(net, cfg, e, e', id) && e.s.reqs[id].prompt != []
    ensures SoloNeeds(net, cfg, e', id) == SoloNeeds(net, cfg, e, id)
  {
    hide Held, StopFrom;
    SameLen(net, cfg.maxModelLen, EmbedsOf(Held(e), id), e'.s.reqs[id], e.s.reqs[id], 1);
  }

  lemma LiveFacts(net: Net, cfg: Config, size: nat, e: Engine, labels: Labels, id: Id)
    requires EInv(net, cfg, size, e, labels) && id in e.s.reqs
    ensures Admissible(e.s.reqs[id], cfg.maxModelLen) && StreamAt(net, cfg.maxModelLen, Held(e), e.s.reqs[id], id)
    ensures cfg.blockSize > 0
  {
    hide Rows, Filling, Items, Statuses, Arrivals, Lists, LInv, AllClean, StreamAt, Mirrored;
  }

  /** Room for the whole solo run is room for what the request has now. */
  lemma SoloFitsNow(net: Net, cfg: Config, size: nat, e: Engine, labels: Labels)
    requires EInv(net, cfg, size, e, labels) && cfg.blockSize > 0
    requires forall id :: id in e.s.reqs ==> SoloFits(net, cfg, e, id)
    ensures Fits(cfg, e.s)
  {
    hide EInv, StreamAt, SoloLen, CeilDiv, Held;
    forall id | id in e.s.reqs ensures CeilDiv(e.s.reqs[id].NumTokens(), cfg.blockSize) <= PoolSize(e.s) {
      assert SoloFits(net, cfg, e, id);
      LiveFacts(net, cfg, size, e, labels, id);
      LiveShort(net, cfg.maxModelLen, Held(e), e.s.reqs[id], id);
      CeilDivMono(e.s.reqs[id].NumTokens(), SoloNeeds(net, cfg, e, id), cfg.blockSize);
    }
  }

  lemma {:induction false} SoloLoopDrains(net: Net, cfg: Config, size: nat, e: Engine, labels: Labels) returns (states: seq<Engine>)
    requires EInv(net, cfg, size, e, labels) && SoundAlong(net, cfg, size, e) && cfg.blockSize > 0 && cfg.maxNumSeqs >= 1
    requires forall id :: id in e.s.reqs ==> SoloFits(net, cfg, e, id)
    ensures Drained(net, cfg, size, e, states)
    decreases OutLeft(cfg, e.s), Above(e.s), HeadLeft(e.s)
  {
    hide EBase, LInv, AllClean, OnStream, LabelsInside, Held, Step, StepDefined, OutLeft, Above, HeadLeft, SoundAlong, Emitted, Grown, AskKept, SoloNeeds, Same;
    if HasUnfinished(e.s) {
      SoloFitsNow(net, cfg, size, e, labels);
      FittingStepDrains(net, cfg, size, e);
      SoundNow(net, cfg, size, e);
      var labels' := SoloStep(net, cfg, size, e, labels);
      var e' := Step(net, cfg, e, size).0;
      forall id | id in e'.s.reqs ensures SoloFits(net, cfg, e', id) {
        SameKnown(net, cfg, e, e', id);
        assert SoloFits(net, cfg, e, id);
        NeedsSame(net, cfg, e, e', id);
      }
      assert Continues(net, cfg, size, e, e');
      SoundNext(net, cfg, size, e, e');
      var later := SoloLoopDrains(net, cfg, size, e', labels');
      states := [e] + later;
      forall i | 0 <= i < |states| - 1 ensures HasUnfinished(states[i].s) && Continues(net, cfg, size, states[i], states[i + 1]) {
        assert states[i + 1] == later[i];
        if i > 0 { assert states[i] == later[i - 1]; }
      }
    } else {
      states := [e];
    }
  }

  lemma SameKnown(net: Net, cfg: Config, e: Engine, e': Engine, id: Id)
    requires Same(net, cfg, e, e', id)
    ensures id in e.s.reqs && id in e'.s.reqs && e'.s.reqs[id].prompt == e.s.reqs[id].prompt
  {
  }

  // ------------------------------------------------------------------ no room

  /** The request must come to compute more than the pool holds before it stops. */
  ghost predicate NeverFits(net: Net, cfg: Config, e: Engine, id: Id) {
    id in e.s.reqs && e.s.reqs[id].prompt != [] && SoloNeeds(net, cfg, e, id) > PoolSize(e.s) * cfg.blockSize
  }

  /** It does not end in a step. */
  lemma StaysLive(net: Net, cfg: Config, size: nat, e: Engine, labels: Labels, id: Id)
    requires EInv(net, cfg, size, e, labels) && SoundAlong(net, cfg, size, e) && NeverFits(net, cfg, e, id)
    ensures StepDefined(net, cfg, e, size)
    ensures Step(net, cfg, e, size).1.Outputs? ==> NeverFits(net, cfg, Step(net, cfg, e, size).0, id)
  {
    hide EInv, Step, StepDefined, SoundAlong, Held, Emitted, SoloLen, Same, StreamAt;
    LiveFacts(net, cfg, size, e, labels, id);
    SoundNow(net, cfg, size, e);
    var labels' := SoloStep(net, cfg, size, e, labels);
    var r := Step(net, cfg, e, size);
    if r.1.Outputs? {
      if id !in r.0.s.reqs {
        var k :| 0 <= k < |r.1.outputs| && r.1.outputs[k].0 == id;
        var u := r.1.outputs[k];
        assert GrownAt(cfg, e.s.(finished := []), u, r.0.s);
        assert SameAsk(u.1, e.s.reqs[id]) && u in r.1.outputs;
        FinishedLong(net, cfg.maxModelLen, Held(e), u);
        LenSame(net, cfg, EmbedsOf(Held(e), id), u.1, e.s.reqs[id]);
        assert false;
      }
      SameKnown(net, cfg, e, r.0, id);
      NeedsSame(net, cfg, e, r.0, id);
    }
  }

  lemma LenSame(net: Net, cfg: Config, embeds: seq<Row>, a: Req, b: Req)
    requires a.prompt != [] && SameAsk(a, b)
    ensures SoloLen(net, cfg.maxModelLen, embeds, a) == SoloLen(net, cfg.maxModelLen, embeds, b)
  {
    hide StopFrom;
    SameLen(net, cfg.maxModelLen, embeds, a, b, 1);
  }

  lemma LiveUnfinished(net: Net, cfg: Config, size: nat, e: Engine, labels: Labels, id: Id)
    requires EInv(net, cfg, size, e, labels) && id in e.s.reqs
    ensures HasUnfinished(e.s)
  {
    hide LInv, AllClean, OnStream, LabelsInside, SInv, Mirrored;
    StuckLive(net, cfg, size, e);
  }

  lemma {:induction false} NeverDrains(net: Net, cfg: Config, size: nat, e: Engine, labels: Labels, id: Id, states: seq<Engine>)
    requires EInv(net, cfg, size, e, labels) && SoundAlong(net, cfg, size, e) && NeverFits(net, cfg, e, id)
    ensures !Drained(net, cfg, size, e, states)
    decreases |states|
  {
    hide EInv, Step, StepDefined, SoundAlong, SoloNeeds, Emitted, Grown, AskKept, Same, HasUnfinished;
    LiveUnfinished(net, cfg, size, e, labels, id);
    if Drained(net, cfg, size, e, states) {
      assert |states| > 1;
      assert Continues(net, cfg, size, states[0], states[1]);
      SoundNow(net, cfg, size, e);
      var labels' := SoloStep(net, cfg, size, e, labels);
      StaysLive(net, cfg, size, e, labels, id);
      var later := states[1..];
      forall i | 0 <= i < |later| - 1 ensures HasUnfinished(later[i].s) && Continues(net, cfg, size, later[i], later[i + 1]) {
        assert Continues(net, cfg, size, states[i + 1], states[i + 2]);
      }
      SoundNext(net, cfg, size, e, states[1]);
      NeverDrains(net, cfg, size, states[1], labels', id, later);
    }
  }

  // ------------------------------------------------------------------ both directions

  /** The step loop ends if and only if there is a slot for whoever is live and the pool holds, of
      each of them on its own, every token its solo run computes before it stops. */
  lemma DrainsIffSolo(net: Net, cfg: Config, size: nat, e: Engine, labels: Labels)
    requires EInv(net, cfg, size, e, labels) && SoundAlong(net, cfg, size, e)
    ensures cfg.blockSize > 0
    ensures (exists states :: Drained(net, cfg, size, e, states))
      <==> (HasUnfinished(e.s) ==> cfg.maxNumSeqs >= 1) && forall id :: id in e.s.reqs ==> SoloFits(net, cfg, e, id)
  {
    hide EInv, EBase, Drained, SoloNeeds, SoundAlong;
    InvBase(net, cfg, size, e, labels);
    StuckLive(net, cfg, size, e);
    forall id | id in e.s.reqs ensures !SoloFits(net, cfg, e, id) <==> NeverFits(net, cfg, e, id) {
      BlocksHold(SoloNeeds(net, cfg, e, id), cfg.blockSize, PoolSize(e.s));
    }
    if id :| id in e.s.reqs && NeverFits(net, cfg, e, id) {
      forall states ensures !Drained(net, cfg, size, e, states) { NeverDrains(net, cfg, size, e, labels, id, states); }
    } else if e.s.reqs == map[] {
      NothingToDrain(net, cfg, size, e);
    } else if cfg.maxNumSeqs < 1 {
      forall states ensures !Drained(net, cfg, size, e, states) { StuckForever(net, cfg, size, e, states); }
    } else {
      var states := SoloLoopDrains(net, cfg, size, e, labels);
    }
  }

  lemma InvBase(net: Net, cfg: Config, size: nat, e: Engine, labels: Labels)
    requires EInv(net, cfg, size, e, labels)
    ensures EBase(net, cfg, size, e)
  {
    hide EBase;
  }
}
