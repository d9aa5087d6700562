/** Offline batch generation: what llm.py's drain loop keeps, and that its results are the
    only possible ones. */
module Generate {
  import opened Util
  import opened Hashing
  import opened BlockManagerSpec
  import opened RequestSpec
  import opened Endings
  import opened SchedulerSpec
  import opened Model
  import opened EngineSpec
  import opened EngineInv
  import opened EngineSafe
  import opened EngineStep
  import opened Asks
  import opened Lifecycle
  import opened DrainsExactly

  /** r is what the prompt generates on its own, stopped where that run stops. */
  ghost predicate SoloFinished(net: Net, maxModelLen: nat, prompt: seq<Token>, params: Params, eos: Option<Token>, r: Req) {
    && r.prompt == prompt && r.params == params && r.eos == eos
    && OnSoloStream(net, maxModelLen, [], r)
    && r.output != [] && CheckStop(r, maxModelLen) == Some(r.status)
  }

  lemma {:induction false} SoloPrefix(net: Net, embeds: seq<Row>, prompt: seq<Token>, params: Params, n: nat, m: nat)
    requires prompt != [] && m <= n
    ensures SoloTokens(net, embeds, prompt, params, n)[..m] == SoloTokens(net, embeds, prompt, params, m)
    decreases n
  {
    if m < n {
      SoloPrefix(net, embeds, prompt, params, n - 1, m);
      var q := SoloTokens(net, embeds, prompt, params, n - 1);
      assert SoloTokens(net, embeds, prompt, params, n)[..m] == q[..m];
    }
  }

  lemma StopSame(a: Req, b: Req, maxModelLen: nat)
    requires a.prompt == b.prompt && a.params == b.params && a.eos == b.eos && a.output == b.output && a.output != []
    ensures CheckStop(a, maxModelLen) == CheckStop(b, maxModelLen)
  {
  }

  /** A prompt's finished solo run is unique: same tokens, same reason to stop. */
  lemma SoloFinishedUnique(net: Net, maxModelLen: nat, prompt: seq<Token>, params: Params, eos: Option<Token>, a: Req, b: Req)
    requires SoloFinished(net, maxModelLen, prompt, params, eos, a) && SoloFinished(net, maxModelLen, prompt, params, eos, b)
    ensures a.output == b.output && a.status == b.status
  {
    if |a.output| <= |b.output| {
      NotPast(net, maxModelLen, prompt, params, eos, a, b);
    } else {
      NotPast(net, maxModelLen, prompt, params, eos, b, a);
    }
  }

  lemma NotPast(net: Net, maxModelLen: nat, prompt: seq<Token>, params: Params, eos: Option<Token>, a: Req, b: Req)
    requires SoloFinished(net, maxModelLen, prompt, params, eos, a) && SoloFinished(net, maxModelLen, prompt, params, eos, b)
    requires |a.output| <= |b.output|
    ensures a.output == b.output && a.status == b.status
  {
    hide NextToken, CheckStop;
    SoloPrefix(net, [], prompt, params, |b.output|, |a.output|);
    var cut := b.(output := b.output[..|a.output|]);
    StopSame(a, cut, maxModelLen);
    if |a.output| == |b.output| {
      assert b.output[..|a.output|] == b.output;
      StopSame(a, b, maxModelLen);
    }
  }

  // ------------------------------------------------------------------ entering the prompts

  /** The prompts of one generate call, with the ids they are given. */
  datatype Job = Job(ids: seq<Id>, prompts: seq<seq<Token>>, params: seq<Params>, eos: Option<Token>)

  ghost predicate JobOk(j: Job) {
    |j.ids| == |j.prompts| == |j.params| && Distinct(j.ids)
  }

  /** The source refuses an empty or too long prompt; the parameters were checked when made. */
  predicate Accepts(cfg: Config, j: Job, i: nat)
    requires i < |j.ids| == |j.prompts| == |j.params|
  {
    ValidParams(j.params[i]) && j.prompts[i] != [] && |j.prompts[i]| < cfg.maxModelLen
  }

  /** The first prompt from n on that is refused, or the number of prompts. */
  function FirstBad(cfg: Config, j: Job, n: nat): (k: nat)
    requires n <= |j.ids| == |j.prompts| == |j.params|
    ensures n <= k <= |j.ids|
    ensures forall i :: n <= i < k ==> Accepts(cfg, j, i)
    ensures k < |j.ids| ==> !Accepts(cfg, j, k)
    decreases |j.ids| - n
  {
    if n == |j.ids| || !Accepts(cfg, j, n) then n else FirstBad(cfg, j, n + 1)
  }

  /** The engine after the first n prompts were added. */
  function Enter(cfg: Config, e: Engine, j: Job, n: nat): Engine
    requires n <= |j.ids| == |j.prompts| == |j.params|
  {
    if n == 0 then e
    else EngineSpec.AddRequest(cfg, Enter(cfg, e, j, n - 1), j.ids[n - 1], j.prompts[n - 1], j.params[n - 1], j.eos, 0, None).0
  }

  /** The engine knows nothing of the id: neither live, nor to be reported, nor with embeddings. */
  ghost predicate Unknown(e: Engine, id: Id) {
    id !in e.s.reqs && id !in e.s.finished && id !in e.r.embeds
  }

  /** How a call of generate ends. */
  datatype Ending = Answered | Mismatch | Refusal(k: nat) | Missing

  /** With room for everybody: one result per prompt, or the error the call raises. */
  function EndingOf(cfg: Config, e: Engine, j: Job): Ending
    requires |j.ids| == |j.prompts|
  {
    if |j.params| != |j.prompts| then Mismatch
    else if FirstBad(cfg, j, 0) < |j.ids| then Refusal(FirstBad(cfg, j, 0))
    else if HasUnfinished(e.s) then Missing
    else Answered
  }

  /** What the first n prompts add to the engine e, each under an unknown id: they wait, in order,
      behind whoever waited, and nothing else changes. */
  ghost predicate WaitBehind(e: Engine, j: Job, n: nat, e': Engine) {
    && n <= |j.ids| == |j.prompts| == |j.params|
    && e'.s.waiting == e.s.waiting + j.ids[..n]
    && e'.s.running == e.s.running && e'.s.finished == e.s.finished && e'.s.kv == e.s.kv && e'.r == e.r && e'.clock == e.clock + n
    && (forall id :: id in e'.s.reqs <==> id in e.s.reqs || id in j.ids[..n])
    && (forall id :: id in e.s.reqs ==> e'.s.reqs[id] == e.s.reqs[id])
    && (forall i :: 0 <= i < n ==> j.ids[i] in e'.s.reqs && e'.s.reqs[j.ids[i]] == NewRequest(j.prompts[i], j.params[i], j.eos, 0, e.clock + i))
  }

  lemma {:induction false} EnterEffect(cfg: Config, e: Engine, j: Job, n: nat)
    requires JobOk(j) && n <= |j.ids| && forall i :: 0 <= i < n ==> Unknown(e, j.ids[i]) && Accepts(cfg, j, i)
    ensures WaitBehind(e, j, n, Enter(cfg, e, j, n))
  {
    hide WaitBehind, Unknown, Accepts, EngineSpec.AddRequest;
    if n == 0 {
      EnterNothing(e, j);
    } else {
      EnterEffect(cfg, e, j, n - 1);
      EnterNext(cfg, e, j, n - 1, Enter(cfg, e, j, n - 1));
    }
  }

  lemma EnterNothing(e: Engine, j: Job)
    requires JobOk(j)
    ensures WaitBehind(e, j, 0, e)
  {
    assert j.ids[..0] == [];
  }

  lemma EnterNext(cfg: Config, e: Engine, j: Job, n: nat, e': Engine)
    requires JobOk(j) && n < |j.ids| && Unknown(e, j.ids[n]) && Accepts(cfg, j, n) && WaitBehind(e, j, n, e')
    ensures var r := EngineSpec.AddRequest(cfg, e', j.ids[n], j.prompts[n], j.params[n], j.eos, 0, None);
      r.1 == Accepted(j.ids[n]) && WaitBehind(e, j, n + 1, r.0)
  {
    assert j.ids[..n + 1] == j.ids[..n] + [j.ids[n]];
    assert j.ids[n] !in j.ids[..n];
    var r := EngineSpec.AddRequest(cfg, e', j.ids[n], j.prompts[n], j.params[n], j.eos, 0, None);
    assert r.0.s.waiting == e.s.waiting + j.ids[..n + 1];
    forall i | 0 <= i < n ensures j.ids[i] != j.ids[n] {}
  }

  // ------------------------------------------------------------------ refusals

  /** After a call that refused its k-th prompt the ones before it are live, so something is
      unfinished as soon as there was one before it, or somebody before the call. */
  lemma AfterRefusal(cfg: Config, e: Engine, j: Job, k: nat)
    requires JobOk(j) && EndingOf(cfg, e, j) == Refusal(k) && forall i :: 0 <= i < |j.ids| ==> Unknown(e, j.ids[i])
    ensures k < |j.ids| && WaitBehind(e, j, k, Enter(cfg, e, j, k))
    ensures HasUnfinished(Enter(cfg, e, j, k).s) <==> HasUnfinished(e.s) || k > 0
  {
    hide Unknown, Accepts;
    EnterEffect(cfg, e, j, k);
    if k > 0 { assert j.ids[..k][0] == j.ids[0]; }
  }

  /** Two calls on an idle engine: one with a good prompt and an empty one, which is refused, and
      then one with the good prompt only. On the idle engine that one would have been answered;
      now it drains the stranger too and fails for its id. */
  lemma SecondCallFails(cfg: Config, e: Engine, a: Id, b: Id, c: Id, prompt: seq<Token>, params: Params, eos: Option<Token>)
    requires !HasUnfinished(e.s) && Unknown(e, a) && Unknown(e, b) && Unknown(e, c) && a != b && a != c && b != c
    requires ValidParams(params) && prompt != [] && |prompt| < cfg.maxModelLen
    ensures var first, second := Job([a, b], [prompt, []], [params, params], eos), Job([c], [prompt], [params], eos);
      && EndingOf(cfg, e, first) == Refusal(1)
      && EndingOf(cfg, e, second) == Answered
      && Unknown(Enter(cfg, e, first, 1), c) && Enter(cfg, e, first, 1).s.waiting == [a]
      && EndingOf(cfg, Enter(cfg, e, first, 1), second) == Missing
  {
    var first, second := Job([a, b], [prompt, []], [params, params], eos), Job([c], [prompt], [params], eos);
    assert Accepts(cfg, first, 0) && !Accepts(cfg, first, 1) && Accepts(cfg, second, 0);
    assert FirstBad(cfg, first, 0) == FirstBad(cfg, first, 1) == 1;
    assert FirstBad(cfg, second, 0) == FirstBad(cfg, second, 1) == 1;
    forall i | 0 <= i < |first.ids| ensures Unknown(e, first.ids[i]) {}
    AfterRefusal(cfg, e, first, 1);
    assert first.ids[..1] == [a];
  }

  // ------------------------------------------------------------------ the loop's state

  ghost predicate AskedFor(j: Job, i: nat, r: Req) {
    i < |j.ids| == |j.prompts| == |j.params| && r.prompt == j.prompts[i] && r.params == j.params[i] && r.eos == j.eos
  }

  /** Still live, or its finished output was kept. */
  ghost predicate Followed(e: Engine, finished: map<Id, Req>, id: Id) {
    id in e.s.reqs <==> id !in finished
  }

  /** A result ended where and for the reason its own tokens and lengths give. */
  ghost predicate Ended(cfg: Config, r: Req) {
    r.status.Finished() && EndsRight(r, cfg.maxModelLen)
  }

  /** Entry i is live and as asked, or finished: as its solo run, if the engine was sound. */
  ghost predicate EntryOk(net: Net, cfg: Config, j: Job, e: Engine, finished: map<Id, Req>, sound: bool, i: nat) {
    && i < |j.ids| == |j.prompts| == |j.params|
    && Followed(e, finished, j.ids[i])
    && (j.ids[i] in e.s.reqs ==> AskedFor(j, i, e.s.reqs[j.ids[i]]))
    && (j.ids[i] in finished ==> AskedFor(j, i, finished[j.ids[i]]) && Ended(cfg, finished[j.ids[i]]))
    && (sound && j.ids[i] in finished ==> SoloFinished(net, cfg.maxModelLen, j.prompts[i], j.params[i], j.eos, finished[j.ids[i]]))
    && j.ids[i] !in e.r.embeds
  }

  /** The prompts are in, next to the others that were live before. */
  ghost predicate Entered(net: Net, cfg: Config, j: Job, e: Engine, finished: map<Id, Req>, others: set<Id>, sound: bool) {
    && JobOk(j)
    && (forall i :: 0 <= i < |j.ids| ==> EntryOk(net, cfg, j, e, finished, sound, i))
    && (forall id :: id in others ==> Followed(e, finished, id))
    && (forall id :: id in e.s.reqs || id in finished ==> id in j.ids || id in others)
  }

  lemma EnteredFirst(net: Net, cfg: Config, j: Job, e: Engine, e': Engine, sound: bool)
    requires JobOk(j) && WaitBehind(e, j, |j.ids|, e') && forall i :: 0 <= i < |j.ids| ==> Unknown(e, j.ids[i])
    ensures Entered(net, cfg, j, e', map[], e.s.reqs.Keys, sound)
  {
    hide SoloFinished;
    assert j.ids[..|j.ids|] == j.ids;
    forall i | 0 <= i < |j.ids| ensures EntryOk(net, cfg, j, e', map[], sound, i) { assert Unknown(e, j.ids[i]); }
  }

  /** finished, with this step's finished outputs added. */
  function Collect(finished: map<Id, Req>, us: seq<(Id, Req)>): map<Id, Req> {
    if us == [] then finished
    else
      var m := Collect(finished, us[..|us| - 1]);
      var u := us[|us| - 1];
      if u.1.status.Finished() then m[u.0 := u.1] else m
  }

  lemma {:induction false} CollectFacts(finished: map<Id, Req>, us: seq<(Id, Req)>)
    requires forall i, k :: 0 <= i < k < |us| ==> us[i].0 != us[k].0
    ensures forall k :: 0 <= k < |us| && us[k].1.status.Finished() ==> us[k].0 in Collect(finished, us) && Collect(finished, us)[us[k].0] == us[k].1
    ensures forall id :: id in finished || id in Collect(finished, us) ==>
      (exists k :: 0 <= k < |us| && us[k].0 == id && us[k].1.status.Finished())
      || (id in finished && id in Collect(finished, us) && Collect(finished, us)[id] == finished[id])
  {
    if us != [] {
      var n := |us| - 1;
      var q := us[..n];
      assert forall k :: 0 <= k < n ==> q[k] == us[k];
      CollectFacts(finished, q);
      var m, m' := Collect(finished, q), Collect(finished, us);
      forall id | id in finished || id in m'
        ensures (exists k :: 0 <= k < |us| && us[k].0 == id && us[k].1.status.Finished())
          || (id in finished && id in m' && m'[id] == finished[id])
      {
        if id == us[n].0 && us[n].1.status.Finished() {
        } else if exists k :: 0 <= k < n && q[k].0 == id && q[k].1.status.Finished() {
          var k :| 0 <= k < n && q[k].0 == id && q[k].1.status.Finished();
          assert us[k].0 == id && us[k].1.status.Finished();
        }
      }
    }
  }

  /** A finished output this step, or finished before, or neither. */
  lemma FollowedStep(cfg: Config, e: Engine, us: seq<(Id, Req)>, e': Engine, finished: map<Id, Req>, id: Id)
    requires Followed(e, finished, id) && Grown(cfg, e.s.(finished := []), us, e'.s)
    ensures Followed(e', Collect(finished, us), id)
    ensures id in Collect(finished, us) ==>
      (id in finished && Collect(finished, us)[id] == finished[id])
      || exists k :: 0 <= k < |us| && us[k].0 == id && us[k].1.status.Finished() && Collect(finished, us)[id] == us[k].1
  {
    hide OutputCap;
    CollectFacts(finished, us);
    if NotAmong(us, id) {
    } else {
      var k :| 0 <= k < |us| && us[k].0 == id;
      assert GrownAt(cfg, e.s.(finished := []), us[k], e'.s);
    }
  }

  /** One entry through one step. */
  lemma EntryStep(net: Net, cfg: Config, j: Job, e: Engine, us: seq<(Id, Req)>, e': Engine, finished: map<Id, Req>, sound: bool, i: nat)
    requires EntryOk(net, cfg, j, e, finished, sound, i)
    requires Grown(cfg, e.s.(finished := []), us, e'.s) && AskKept(e.s, us, e'.s) && e'.r.embeds.Keys <= e.r.embeds.Keys
    requires forall u :: u in us ==> EndsRight(u.1, cfg.maxModelLen)
    requires sound ==> forall k :: 0 <= k < |us| ==> Emitted(net, cfg.maxModelLen, Held(e), us[k])
    ensures EntryOk(net, cfg, j, e', Collect(finished, us), sound, i)
  {
    hide OnSoloStream, CheckStop, OutputCap, Grown, Collect, EndsRight;
    var id := j.ids[i];
    FollowedStep(cfg, e, us, e', finished, id);
    if id in e'.s.reqs { assert SameAsk(e'.s.reqs[id], e.s.reqs[id]); }
    if id in Collect(finished, us) && !(id in finished && Collect(finished, us)[id] == finished[id]) {
      var k :| 0 <= k < |us| && us[k].0 == id && us[k].1.status.Finished() && Collect(finished, us)[id] == us[k].1;
      assert us[k] in us && us[k].0 in e.s.reqs && SameAsk(us[k].1, e.s.reqs[us[k].0]);
      if sound { assert Emitted(net, cfg.maxModelLen, Held(e), us[k]); }
    }
  }

  lemma EnteredStep(net: Net, cfg: Config, j: Job, e: Engine, us: seq<(Id, Req)>, e': Engine, finished: map<Id, Req>, others: set<Id>, sound: bool)
    requires Entered(net, cfg, j, e, finished, others, sound)
    requires Grown(cfg, e.s.(finished := []), us, e'.s) && AskKept(e.s, us, e'.s) && e'.r.embeds.Keys <= e.r.embeds.Keys
    requires forall u :: u in us ==> EndsRight(u.1, cfg.maxModelLen)
    requires sound ==> forall k :: 0 <= k < |us| ==> Emitted(net, cfg.maxModelLen, Held(e), us[k])
    ensures Entered(net, cfg, j, e', Collect(finished, us), others, sound)
  {
    hide EntryOk, Grown, Collect, Emitted, Followed, EndsRight;
    forall i | 0 <= i < |j.ids| ensures EntryOk(net, cfg, j, e', Collect(finished, us), sound, i) {
      EntryStep(net, cfg, j, e, us, e', finished, sound, i);
    }
    forall id | id in others ensures Followed(e', Collect(finished, us), id) { FollowedStep(cfg, e, us, e', finished, id); }
    NobodyNew(cfg, e, us, e', finished);
  }

  lemma NobodyNew(cfg: Config, e: Engine, us: seq<(Id, Req)>, e': Engine, finished: map<Id, Req>)
    requires Grown(cfg, e.s.(finished := []), us, e'.s)
    ensures forall id :: id in e'.s.reqs || id in Collect(finished, us) ==> id in e.s.reqs || id in finished
  {
    hide GrownAt;
    CollectFacts(finished, us);
    forall id | id in Collect(finished, us) ensures id in e.s.reqs || id in finished {
      if id !in finished {
        var k :| 0 <= k < |us| && us[k].0 == id && us[k].1.status.Finished();
        OutputLives(cfg, e.s.(finished := []), us[k], e'.s);
      }
    }
  }

  lemma OutputLives(cfg: Config, s: Sched, u: (Id, Req), s': Sched)
    requires GrownAt(cfg, s, u, s')
    ensures u.0 in s.reqs
  {
  }

  /** Nothing unfinished: every entry has its result, and so has every stranger. */
  lemma EnteredDone(net: Net, cfg: Config, size: nat, j: Job, e: Engine, finished: map<Id, Req>, others: set<Id>, sound: bool)
    requires Entered(net, cfg, j, e, finished, others, sound) && EBase(net, cfg, size, e) && !HasUnfinished(e.s)
    ensures forall id :: id in finished <==> id in j.ids || id in others
    ensures forall i :: 0 <= i < |j.ids| ==> AskedFor(j, i, finished[j.ids[i]]) && Ended(cfg, finished[j.ids[i]])
    ensures sound ==> forall i :: 0 <= i < |j.ids| ==>
      SoloFinished(net, cfg.maxModelLen, j.prompts[i], j.params[i], j.eos, finished[j.ids[i]])
  {
    hide SoloFinished, EBase, EntryOk;
    StuckLive(net, cfg, size, e);
    forall i | 0 <= i < |j.ids|
      ensures j.ids[i] in finished && AskedFor(j, i, finished[j.ids[i]]) && Ended(cfg, finished[j.ids[i]])
      ensures sound ==> SoloFinished(net, cfg.maxModelLen, j.prompts[i], j.params[i], j.eos, finished[j.ids[i]])
    {
      EntryDone(net, cfg, j, e, finished, sound, i);
    }
  }

  lemma EntryDone(net: Net, cfg: Config, j: Job, e: Engine, finished: map<Id, Req>, sound: bool, i: nat)
    requires EntryOk(net, cfg, j, e, finished, sound, i) && e.s.reqs == map[]
    ensures j.ids[i] in finished && AskedFor(j, i, finished[j.ids[i]]) && Ended(cfg, finished[j.ids[i]])
    ensures sound ==> SoloFinished(net, cfg.maxModelLen, j.prompts[i], j.params[i], j.eos, finished[j.ids[i]])
  {
    hide SoloFinished;
  }
}
