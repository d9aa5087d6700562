/** Schedule independence over whole runs: every answer is the one its own addition would have
    got alone. */
module SoloRuns {
  import opened Util
  import opened BlockManagerSpec
  import opened RequestSpec
  import opened SchedulerSpec
  import opened SchedulerInv
  import opened Model
  import opened ForwardCorrect
  import opened LabelInv
  import opened RunnerSpec
  import opened GraphSpec
  import opened ExecuteCorrect
  import opened Assertions
  import opened EngineSpec
  import opened EngineInv
  import opened EngineSafe
  import opened EngineStep
  import opened Asks
  import opened Agreement
  import opened EngineRun

  // ------------------------------------------------------------------ whose request it is

  /** The addition is taken in: neither malformed nor a duplicate. */
  predicate TakenIn(cfg: Config, e: Engine, ev: Event) {
    ev.Add? && !Refused(cfg, ev.prompt, ev.params) && ev.id !in e.s.reqs
  }

  function AskOf(ev: Event): Ask
    requires ev.Add?
  {
    Ask(ev.prompt, Given(ev.embeds))
  }

  /** The request is what the addition asked for. */
  predicate Meets(ev: Event, r: Req) {
    ev.Add? && r.prompt == ev.prompt && r.params == ev.params && r.eos == ev.eos && r.priority == ev.priority
  }

  /** Event j is the last addition taken in under the id before event i, and r is what it asked for. */
  ghost predicate AskedAt(cfg: Config, states: seq<Engine>, evs: seq<Event>, i: nat, j: nat, id: Id, r: Req) {
    && j < i <= |evs| < |states|
    && TakenIn(cfg, states[j], evs[j]) && evs[j].id == id && Meets(evs[j], r)
    && forall k :: j < k < i ==> !(TakenIn(cfg, states[k], evs[k]) && evs[k].id == id)
  }

  /** A live request is what some addition asked for, and runs with the embeddings that one gave. */
  ghost predicate TrackedAt(cfg: Config, states: seq<Engine>, evs: seq<Event>, i: nat, id: Id) {
    i <= |evs| < |states| && id in states[i].s.reqs
    && exists j: nat :: AskedAt(cfg, states, evs, i, j, id, states[i].s.reqs[id]) && EmbedsOf(Held(states[i]), id) == Given(evs[j].embeds)
  }

  ghost predicate Tracked(cfg: Config, states: seq<Engine>, evs: seq<Event>, i: nat) {
    i <= |evs| < |states| && forall id :: id in states[i].s.reqs ==> TrackedAt(cfg, states, evs, i, id)
  }

  /** What is handed back answers an addition as that addition alone would have been answered. */
  ghost predicate SoloAnswer(net: Net, cfg: Config, states: seq<Engine>, evs: seq<Event>, i: nat, u: (Id, Req)) {
    exists j: nat :: AskedAt(cfg, states, evs, i, j, u.0, u.1) && SoloFor(net, cfg.maxModelLen, evs[j], u.1)
  }

  /** On the solo stream of the addition's prompt and embeddings, with the status the solo run has there. */
  ghost predicate SoloFor(net: Net, maxModelLen: nat, ev: Event, r: Req) {
    && ev.Add? && OnSoloStream(net, maxModelLen, Given(ev.embeds), r) && r.output != []
    && r.status == (match CheckStop(r, maxModelLen) case None => Running case Some(st) => st)
  }

  /** schedule() raises in this state. */
  ghost predicate RaisesNow(cfg: Config, e: Engine) {
    cfg.blockSize > 0 && Wf(e.s) && Schedule(cfg, e.s).1.None?
  }

  /** An event the theorem admits: any abort, any refused addition, any other addition that
      leaves each request the embeddings it came with, and any step, except one that raises
      while a reused id's old embeddings are still to be forgotten. */
  ghost predicate Legal(cfg: Config, e: Engine, ev: Event) {
    match ev
    case Add(id, prompt, params, _, _, embeds) => Refused(cfg, prompt, params) || AddLegal(e, id, embeds)
    case AbortEvent(_) => true
    case StepEvent => RaisesNow(cfg, e) ==> NoStale(e)
  }

  ghost predicate Lawful(cfg: Config, states: seq<Engine>, evs: seq<Event>) {
    |states| == |evs| + 1 && forall i :: 0 <= i < |evs| ==> Legal(cfg, states[i], evs[i])
  }

  /** What was asked of the engine while prefix caching was on. */
  ghost function CachedAsks(cfg: Config, states: seq<Engine>, evs: seq<Event>): iset<Ask>
    requires |states| == |evs| + 1
  {
    iset i | 0 <= i < |evs| && states[i].s.kv.pool.caching && TakenIn(cfg, states[i], evs[i]) :: AskOf(evs[i])
  }

  // ------------------------------------------------------------------ one event

  /** What one event does to what a request asked for. */
  ghost predicate Carried(e: Engine, us: seq<(Id, Req)>, e': Engine, id: Id) {
    && (id in e'.s.reqs ==> id in e.s.reqs && SameAsk(e'.s.reqs[id], e.s.reqs[id]))
    && (forall k :: 0 <= k < |us| && us[k].0 == id ==> id in e.s.reqs && SameAsk(us[k].1, e.s.reqs[id]))
  }

  ghost predicate CarriedAll(e: Engine, us: seq<(Id, Req)>, e': Engine) {
    forall id :: Carried(e, us, e', id)
  }

  lemma StepCarries(net: Net, cfg: Config, size: nat, e: Engine)
    requires EBase(net, cfg, size, e)
    ensures StepDefined(net, cfg, e, size)
    ensures var (e', us) := Apply(net, cfg, size, e, StepEvent); CarriedAll(e, us, e')
  {
    hide EBase, StepDefined, Step, SameAsk;
    StepSafe(net, cfg, size, e);
    StepAsk(net, cfg, size, e);
  }

  lemma RaisedOnly(net: Net, cfg: Config, size: nat, e: Engine)
    requires StepDefined(net, cfg, e, size)
    ensures RaisesNow(cfg, e) <==> Step(net, cfg, e, size).1.Raised?
  {
    hide Schedule, Execute, Executable, Update, KvShaped, Settled;
  }

  lemma AbortCarries(net: Net, cfg: Config, size: nat, e: Engine, id: Id)
    requires EBase(net, cfg, size, e)
    ensures Wf(e.s) && AbortAsserts(e.s, id) && CarriedAll(e, [], AbortRequest(e, id))
    ensures LiveMedia(AbortRequest(e, id).s, Held(e), Held(AbortRequest(e, id)))
  {
    hide EBase, SInv, Abort, KvShaped, AbortAsserts;
    AbortBase(net, cfg, size, e, id);
  }

  lemma EventCarries(net: Net, cfg: Config, size: nat, e: Engine, ev: Event)
    requires EBase(net, cfg, size, e)
    ensures Defined(net, cfg, size, e, ev)
    ensures var (e', us) := Apply(net, cfg, size, e, ev);
      if TakenIn(cfg, e, ev) then
        us == [] && ev.id in e'.s.reqs && Meets(ev, e'.s.reqs[ev.id]) && forall x :: x != ev.id ==> Carried(e, us, e', x)
      else CarriedAll(e, us, e')
  {
    hide EBase, StepDefined, Step, Abort, AbortAsserts;
    match ev
    case Add(_, _, _, _, _, _) =>
    case AbortEvent(id) => AbortCarries(net, cfg, size, e, id);
    case StepEvent => StepCarries(net, cfg, size, e);
  }

  /** What it does to embeddings, when all is well: a request taken in runs with those it came
      with, and whoever else lives goes on with those he has. */
  ghost predicate Faithful(cfg: Config, e: Engine, ev: Event, e': Engine) {
    forall id :: id in e'.s.reqs ==>
      EmbedsOf(Held(e'), id) == if TakenIn(cfg, e, ev) && id == ev.id then Given(ev.embeds) else EmbedsOf(Held(e), id)
  }

  lemma AddFaithful(cfg: Config, e: Engine, ev: Event)
    requires ev.Add?
    ensures var e' := EngineSpec.AddRequest(cfg, e, ev.id, ev.prompt, ev.params, ev.eos, ev.priority, ev.embeds).0;
      Legal(cfg, e, ev) <==> Faithful(cfg, e, ev, e')
  {
    var e' := EngineSpec.AddRequest(cfg, e, ev.id, ev.prompt, ev.params, ev.eos, ev.priority, ev.embeds).0;
    if !Refused(cfg, ev.prompt, ev.params) {
      if ev.id in e.s.reqs {
        HarmlessIff(cfg, e, ev.id, ev.prompt, ev.params, ev.eos, ev.priority, ev.embeds);
      } else {
        HonestIff(cfg, e, ev.id, ev.prompt, ev.params, ev.eos, ev.priority, ev.embeds);
      }
      forall id | id != ev.id ensures EmbedsOf(Held(e'), id) == EmbedsOf(Held(e), id) {}
    }
  }

  /** An event is legal exactly when it leaves every request its embeddings. */
  lemma LegalIff(net: Net, cfg: Config, size: nat, e: Engine, ev: Event)
    requires EBase(net, cfg, size, e)
    ensures Defined(net, cfg, size, e, ev)
    ensures Legal(cfg, e, ev) <==> Faithful(cfg, e, ev, Apply(net, cfg, size, e, ev).0)
  {
    hide EBase, StepDefined, Step, Abort, AbortAsserts, Held, NoStale, RaisesNow, EngineSpec.AddRequest, AddLegal;
    match ev
    case Add(_, _, _, _, _, _) => AddFaithful(cfg, e, ev);
    case AbortEvent(id) => AbortCarries(net, cfg, size, e, id);
    case StepEvent =>
      StepHeld(net, cfg, size, e);
      RaisedOnly(net, cfg, size, e);
  }

  /** Steps that replay a graph only where token ids tell the input rows. */
  ghost predicate GraphsSound(net: Net, cfg: Config, states: seq<Engine>, evs: seq<Event>) {
    |states| == |evs| + 1 && forall i :: 0 <= i < |evs| && evs[i].StepEvent? ==> GraphSound(net, cfg, states[i])
  }

  lemma EventKeeps(net: Net, cfg: Config, size: nat, e: Engine, ev: Event, labels: Labels) returns (labels': Labels)
    requires EInv(net, cfg, size, e, labels) && Legal(cfg, e, ev) && (ev.StepEvent? ==> GraphSound(net, cfg, e))
    requires e.s.kv.pool.caching && TakenIn(cfg, e, ev) ==> Respects(net, cfg.blockSize, labels.book, Given(ev.embeds), ev.prompt)
    ensures Defined(net, cfg, size, e, ev) && labels'.book == labels.book
    ensures EInv(net, cfg, size, Apply(net, cfg, size, e, ev).0, labels')
    ensures forall u :: u in Apply(net, cfg, size, e, ev).1 ==> Emitted(net, cfg.maxModelLen, Held(e), u)
  {
    hide EInv, Emitted, StepDefined, Step, Respects, NoStale, RaisesNow, GraphSound, MediaOk, AbortAsserts;
    labels' := labels;
    match ev
    case Add(id, prompt, params, eos, priority, embeds) =>
      LegalReceived(cfg, e, ev);
      AddKeeps(net, cfg, size, e, id, prompt, params, eos, priority, embeds, labels);
    case AbortEvent(id) =>
      AbortKeeps(net, cfg, size, e, id, labels);
    case StepEvent =>
      labels' := StepKeeps(net, cfg, size, e, labels);
      RaisedOnly(net, cfg, size, e);
      if Step(net, cfg, e, size).1.Raised? { RaisedKeeps(net, cfg, size, e, labels); }
  }

  lemma LegalReceived(cfg: Config, e: Engine, ev: Event)
    requires ev.Add?
    ensures TakenIn(cfg, e, ev) && AddLegal(e, ev.id, ev.embeds) ==> Received(e, ev.id, ev.embeds) == Given(ev.embeds)
  {
  }

  // ------------------------------------------------------------------ whole runs

  lemma TrackOne(net: Net, cfg: Config, size: nat, states: seq<Engine>, evs: seq<Event>, outs: seq<seq<(Id, Req)>>, i: nat, id: Id)
    requires IsRun(net, cfg, size, states, evs, outs) && i < |evs| && Lawful(cfg, states, evs)
    requires Defined(net, cfg, size, states[i], evs[i]) && EBase(net, cfg, size, states[i]) && Tracked(cfg, states, evs, i)
    requires id in states[i + 1].s.reqs
    ensures TrackedAt(cfg, states, evs, i + 1, id)
  {
    hide EBase, Apply, Defined, Legal, Held, Meets, Refused;
    assert RunStep(net, cfg, size, states, evs, outs, i);
    EventCarries(net, cfg, size, states[i], evs[i]);
    LegalIff(net, cfg, size, states[i], evs[i]);
    if TakenIn(cfg, states[i], evs[i]) && evs[i].id == id {
      assert AskedAt(cfg, states, evs, i + 1, i, id, states[i + 1].s.reqs[id]);
    } else {
      assert Carried(states[i], outs[i], states[i + 1], id);
      assert TrackedAt(cfg, states, evs, i, id);
      var j: nat :| AskedAt(cfg, states, evs, i, j, id, states[i].s.reqs[id]) && EmbedsOf(Held(states[i]), id) == Given(evs[j].embeds);
      MeetsSame(evs[j], states[i].s.reqs[id], states[i + 1].s.reqs[id]);
      assert AskedAt(cfg, states, evs, i + 1, j, id, states[i + 1].s.reqs[id]);
    }
  }

  lemma MeetsSame(ev: Event, a: Req, b: Req)
    requires Meets(ev, a) && SameAsk(b, a)
    ensures Meets(ev, b)
  {
  }

  lemma {:induction false} RunTracks(net: Net, cfg: Config, size: nat, states: seq<Engine>, evs: seq<Event>, outs: seq<seq<(Id, Req)>>, i: nat)
    requires IsRun(net, cfg, size, states, evs, outs) && Lawful(cfg, states, evs) && states[0].s.reqs == map[] && i <= |evs|
    requires forall k :: 0 <= k < |evs| ==> EBase(net, cfg, size, states[k]) && Defined(net, cfg, size, states[k], evs[k])
    ensures Tracked(cfg, states, evs, i)
    decreases i
  {
    hide IsRun, EBase, Defined, TrackedAt, Lawful;
    RunLengths(net, cfg, size, states, evs, outs);
    if i > 0 {
      RunTracks(net, cfg, size, states, evs, outs, i - 1);
      forall id | id in states[i].s.reqs ensures TrackedAt(cfg, states, evs, i, id) {
        TrackOne(net, cfg, size, states, evs, outs, i - 1, id);
      }
    }
  }

  /** The converse: if everyone runs with his own embeddings before and after, the event was legal. */
  lemma TrackedLegal(net: Net, cfg: Config, size: nat, states: seq<Engine>, evs: seq<Event>, outs: seq<seq<(Id, Req)>>, i: nat)
    requires IsRun(net, cfg, size, states, evs, outs) && i < |evs|
    requires Defined(net, cfg, size, states[i], evs[i]) && EBase(net, cfg, size, states[i])
    requires Tracked(cfg, states, evs, i) && Tracked(cfg, states, evs, i + 1)
    ensures Legal(cfg, states[i], evs[i])
  {
    hide EBase, Apply, Defined, Legal, Held, Meets, Refused, SameAsk;
    assert RunStep(net, cfg, size, states, evs, outs, i);
    EventCarries(net, cfg, size, states[i], evs[i]);
    forall id | id in states[i + 1].s.reqs
      ensures EmbedsOf(Held(states[i + 1]), id)
        == if TakenIn(cfg, states[i], evs[i]) && id == evs[i].id then Given(evs[i].embeds) else EmbedsOf(Held(states[i]), id)
    {
      assert TrackedAt(cfg, states, evs, i + 1, id);
      var j: nat :| AskedAt(cfg, states, evs, i + 1, j, id, states[i + 1].s.reqs[id]) && EmbedsOf(Held(states[i + 1]), id) == Given(evs[j].embeds);
      if !(TakenIn(cfg, states[i], evs[i]) && id == evs[i].id) {
        assert j < i;
        assert Carried(states[i], outs[i], states[i + 1], id);
        assert TrackedAt(cfg, states, evs, i, id);
        var j': nat :| AskedAt(cfg, states, evs, i, j', id, states[i].s.reqs[id]) && EmbedsOf(Held(states[i]), id) == Given(evs[j'].embeds);
        assert j' == j;
      }
    }
    LegalIff(net, cfg, size, states[i], evs[i]);
  }

  /** Over whole runs: everyone always runs with the embeddings his own addition brought, if and
      only if every event was legal. */
  lemma LawfulIff(net: Net, cfg: Config, size: nat, numBlocks: nat, caching: bool, caches: seq<seq<KVal>>, graphs: Option<Graphs>,
                  states: seq<Engine>, evs: seq<Event>, outs: seq<seq<(Id, Req)>>)
    requires cfg.blockSize > 0 && cfg.maxBatched > 0
    requires CachesOk(net, caches, size) && numBlocks * cfg.blockSize <= size && GraphsFit(graphs, numBlocks, cfg.blockSize, size)
    requires IsRun(net, cfg, size, states, evs, outs) && states[0] == NewEngine(numBlocks, caching, caches, graphs)
    ensures Lawful(cfg, states, evs) <==> forall i :: 0 <= i <= |evs| ==> Tracked(cfg, states, evs, i)
  {
    hide EBase, Defined, Legal, Tracked, IsRun, GraphsFit;
    RunLengths(net, cfg, size, states, evs, outs);
    RunsAreSafe(net, cfg, size, numBlocks, caching, caches, graphs, states, evs, outs);
    if Lawful(cfg, states, evs) {
      forall i | 0 <= i <= |evs| ensures Tracked(cfg, states, evs, i) { RunTracks(net, cfg, size, states, evs, outs, i); }
    }
    if forall i :: 0 <= i <= |evs| ==> Tracked(cfg, states, evs, i) {
      forall i | 0 <= i < |evs| ensures Legal(cfg, states[i], evs[i]) { TrackedLegal(net, cfg, size, states, evs, outs, i); }
    }
  }

  lemma RunLengths(net: Net, cfg: Config, size: nat, states: seq<Engine>, evs: seq<Event>, outs: seq<seq<(Id, Req)>>)
    requires IsRun(net, cfg, size, states, evs, outs)
    ensures |states| == |evs| + 1 && |outs| == |evs|
  {
  }

  /** The invariant and what each event hands back, read with one book throughout. */
  lemma {:induction false} RunKeeps(net: Net, cfg: Config, size: nat, numBlocks: nat, caching: bool, caches: seq<seq<KVal>>, graphs: Option<Graphs>,
                                    states: seq<Engine>, evs: seq<Event>, outs: seq<seq<(Id, Req)>>, book: Book)
      returns (labels: Labels)
    requires cfg.blockSize > 0 && cfg.maxBatched > 0
    requires CachesOk(net, caches, size) && numBlocks * cfg.blockSize <= size && GraphsFit(graphs, numBlocks, cfg.blockSize, size)
    requires IsRun(net, cfg, size, states, evs, outs) && Lawful(cfg, states, evs) && states[0] == NewEngine(numBlocks, caching, caches, graphs)
    requires GraphsSound(net, cfg, states, evs)
    requires forall a :: a in CachedAsks(cfg, states, evs) ==> Respects(net, cfg.blockSize, book, a.embeds, a.prompt)
    ensures EInv(net, cfg, size, states[|evs|], labels) && labels.book == book
    ensures forall i, u :: 0 <= i < |evs| && u in outs[i] ==> Emitted(net, cfg.maxModelLen, Held(states[i]), u)
  {
    hide EInv, Emitted, StepDefined, Apply, Legal, CachesOk, Respects, Refused, Held, GraphSound, GraphsFit;
    if evs == [] {
      NewEngineInv(net, cfg, size, numBlocks, caching, caches, graphs, book);
      labels := Labels(map[], book);
    } else {
      var n := |evs| - 1;
      var ss := states[..|states| - 1];
      InitRun(net, cfg, size, states, evs, outs);
      InitLawful(net, cfg, states, evs);
      var before := RunKeeps(net, cfg, size, numBlocks, caching, caches, graphs, ss, evs[..n], outs[..n], book);
      assert RunStep(net, cfg, size, states, evs, outs, n);
      assert Legal(cfg, states[n], evs[n]);
      assert states[n].s.kv.pool.caching && TakenIn(cfg, states[n], evs[n]) ==> AskOf(evs[n]) in CachedAsks(cfg, states, evs);
      labels := EventKeeps(net, cfg, size, states[n], evs[n], before);
      forall i, u | 0 <= i < |evs| && u in outs[i] ensures Emitted(net, cfg.maxModelLen, Held(states[i]), u) {
        if i < n { assert outs[..n][i] == outs[i] && ss[i] == states[i]; }
      }
    }
  }

  lemma InitLawful(net: Net, cfg: Config, states: seq<Engine>, evs: seq<Event>)
    requires Lawful(cfg, states, evs) && GraphsSound(net, cfg, states, evs) && evs != []
    ensures Lawful(cfg, states[..|states| - 1], evs[..|evs| - 1]) && GraphsSound(net, cfg, states[..|states| - 1], evs[..|evs| - 1])
    ensures CachedAsks(cfg, states[..|states| - 1], evs[..|evs| - 1]) <= CachedAsks(cfg, states, evs)
  {
    hide Legal, Refused, GraphSound;
    var n := |evs| - 1;
    var ss, es := states[..|states| - 1], evs[..n];
    forall i | 0 <= i < n ensures Legal(cfg, ss[i], es[i]) { assert Legal(cfg, states[i], evs[i]); }
    forall i | 0 <= i < n && es[i].StepEvent? ensures GraphSound(net, cfg, ss[i]) { assert GraphSound(net, cfg, states[i]); }
    forall a | a in CachedAsks(cfg, ss, es) ensures a in CachedAsks(cfg, states, evs) {
      var i :| 0 <= i < |es| && ss[i].s.kv.pool.caching && TakenIn(cfg, ss[i], es[i]) && a == AskOf(es[i]);
      assert ss[i] == states[i] && es[i] == evs[i];
    }
  }

  /** What a tracked request hands back answers its addition. */
  lemma AnswersAt(net: Net, cfg: Config, size: nat, states: seq<Engine>, evs: seq<Event>, outs: seq<seq<(Id, Req)>>, i: nat, u: (Id, Req))
    requires IsRun(net, cfg, size, states, evs, outs) && Lawful(cfg, states, evs) && i < |evs| && u in outs[i]
    requires EBase(net, cfg, size, states[i]) && Tracked(cfg, states, evs, i) && Defined(net, cfg, size, states[i], evs[i])
    requires Emitted(net, cfg.maxModelLen, Held(states[i]), u)
    ensures SoloAnswer(net, cfg, states, evs, i, u)
  {
    hide EBase, Apply, Defined, Legal, Held, Meets, Refused, OnSoloStream, CheckStop;
    assert RunStep(net, cfg, size, states, evs, outs, i);
    assert Legal(cfg, states[i], evs[i]);
    EventCarries(net, cfg, size, states[i], evs[i]);
    var k :| 0 <= k < |outs[i]| && outs[i][k] == u;
    assert Carried(states[i], outs[i], states[i + 1], u.0);
    assert TrackedAt(cfg, states, evs, i, u.0);
    var j: nat :| AskedAt(cfg, states, evs, i, j, u.0, states[i].s.reqs[u.0]) && EmbedsOf(Held(states[i]), u.0) == Given(evs[j].embeds);
    MeetsSame(evs[j], states[i].s.reqs[u.0], u.1);
    assert AskedAt(cfg, states, evs, i, j, u.0, u.1) && SoloFor(net, cfg.maxModelLen, evs[j], u.1);
  }

  /** Every live request is on the solo stream of the addition it came from. */
  ghost predicate LiveSolo(net: Net, cfg: Config, states: seq<Engine>, evs: seq<Event>, i: nat, id: Id) {
    && i <= |evs| < |states| && id in states[i].s.reqs
    && exists j: nat :: AskedAt(cfg, states, evs, i, j, id, states[i].s.reqs[id])
         && OnSoloStream(net, cfg.maxModelLen, Given(evs[j].embeds), states[i].s.reqs[id])
  }

  lemma LiveOnStream(net: Net, cfg: Config, size: nat, states: seq<Engine>, evs: seq<Event>, i: nat, labels: Labels)
    requires i <= |evs| < |states| && EInv(net, cfg, size, states[i], labels) && Tracked(cfg, states, evs, i)
    ensures forall id :: id in states[i].s.reqs ==> LiveSolo(net, cfg, states, evs, i, id)
  {
    hide EBase, LInv, AllClean, AskedAt, OnSoloStream, Held;
    forall id | id in states[i].s.reqs ensures LiveSolo(net, cfg, states, evs, i, id) {
      assert TrackedAt(cfg, states, evs, i, id);
      assert StreamAt(net, cfg.maxModelLen, Held(states[i]), states[i].s.reqs[id], id);
    }
  }

  /** Schedule independence. In every run from an empty engine, with any interleaving of
      additions, aborts and steps and any budget, threshold, slot cap and pool size, in which
      each request keeps the embeddings it came with and the asks made while prefix caching is
      on agree: every live request's output is a prefix of the stream its own addition would
      produce alone, and every request a step hands back stands where that solo run stands,
      stopped at the same token for the same reason. */
  lemma RunsAreSolo(net: Net, cfg: Config, size: nat, numBlocks: nat, caching: bool, caches: seq<seq<KVal>>, graphs: Option<Graphs>,
                    states: seq<Engine>, evs: seq<Event>, outs: seq<seq<(Id, Req)>>)
      returns (labels: Labels)
    requires cfg.blockSize > 0 && cfg.maxBatched > 0
    requires CachesOk(net, caches, size) && numBlocks * cfg.blockSize <= size && GraphsFit(graphs, numBlocks, cfg.blockSize, size)
    requires IsRun(net, cfg, size, states, evs, outs) && states[0] == NewEngine(numBlocks, caching, caches, graphs)
    requires Lawful(cfg, states, evs) && GraphsSound(net, cfg, states, evs) && Agree(net, cfg.blockSize, CachedAsks(cfg, states, evs))
    ensures EInv(net, cfg, size, states[|evs|], labels)
    ensures forall id :: id in states[|evs|].s.reqs ==> LiveSolo(net, cfg, states, evs, |evs|, id)
    ensures forall i, u :: 0 <= i < |evs| && u in outs[i] ==> SoloAnswer(net, cfg, states, evs, i, u)
  {
    hide EInv, EBase, Emitted, StepDefined, Apply, Legal, CachesOk, Respects, Refused, Held, LiveSolo, SoloAnswer, Tracked, Compatible;
    var asks := CachedAsks(cfg, states, evs);
    var book := BookOf(net, asks);
    forall a | a in asks ensures Respects(net, cfg.blockSize, book, a.embeds, a.prompt) { BookRespected(net, cfg.blockSize, asks, a); }
    labels := RunKeeps(net, cfg, size, numBlocks, caching, caches, graphs, states, evs, outs, book);
    RunsAreSafe(net, cfg, size, numBlocks, caching, caches, graphs, states, evs, outs);
    RunTracks(net, cfg, size, states, evs, outs, |evs|);
    LiveOnStream(net, cfg, size, states, evs, |evs|, labels);
    forall i, u | 0 <= i < |evs| && u in outs[i] ensures SoloAnswer(net, cfg, states, evs, i, u) {
      RunTracks(net, cfg, size, states, evs, outs, i);
      AnswersAt(net, cfg, size, states, evs, outs, i, u);
    }
  }
}
