/** What a request asked for when it was added stays with it, and with every output it gives. */
module Asks {
  import opened Hashing
  import opened BlockManagerSpec
  import opened RequestSpec
  import opened SchedulerSpec
  import opened SchedulerInv
  import opened ScheduleStep
  import opened Model
  import opened RunnerSpec
  import opened Assertions
  import opened EngineSpec
  import opened EngineSafe

  ghost predicate SameAsk(a: Req, b: Req) {
    a.prompt == b.prompt && a.params == b.params && a.eos == b.eos && a.priority == b.priority
  }

  ghost predicate AskKept(s: Sched, us: seq<(Id, Req)>, s': Sched) {
    && (forall id :: id in s'.reqs ==> id in s.reqs && SameAsk(s'.reqs[id], s.reqs[id]))
    && (forall k :: 0 <= k < |us| ==> us[k].0 in s.reqs && SameAsk(us[k].1, s.reqs[us[k].0]))
  }

  lemma AskCompose(s: Sched, u1: seq<(Id, Req)>, s1: Sched, u2: seq<(Id, Req)>, s2: Sched)
    requires AskKept(s, u1, s1) && AskKept(s1, u2, s2)
    ensures AskKept(s, u1 + u2, s2)
  {
    var us := u1 + u2;
    forall k | 0 <= k < |us| ensures us[k].0 in s.reqs && SameAsk(us[k].1, s.reqs[us[k].0]) {
      if k < |u1| { assert us[k] == u1[k]; } else { assert us[k] == u2[k - |u1|]; }
    }
  }

  lemma UpdateOneAsk(cfg: Config, s: Sched, it: Item, sampled: map<Id, Token>)
    requires Settled(s) && it.id !in s.waiting && (it.doSample ==> it.id in sampled)
    ensures var r := UpdateOne(cfg, s, it, sampled); AskKept(s, r.1, r.0)
  {
    hide KvShaped, FreeRequest, CheckStop;
  }

  lemma {:induction false} UpdateAsk(cfg: Config, s: Sched, items: seq<Item>, sampled: map<Id, Token>)
    requires Settled(s) && forall it :: it in items ==> it.id !in s.waiting && (it.doSample ==> it.id in sampled)
    ensures var r := Update(cfg, s, items, sampled); AskKept(s, r.1, r.0)
    decreases |items|
  {
    hide KvShaped, UpdateOne, AskKept;
    if items == [] {
      AskSame(s);
    } else {
      var it, rest := items[0], items[1..];
      assert it in items && forall x :: x in rest ==> x in items;
      UpdateOneAsk(cfg, s, it, sampled);
      var r1 := UpdateOne(cfg, s, it, sampled);
      UpdateAsk(cfg, r1.0, rest, sampled);
      var r2 := Update(cfg, r1.0, rest, sampled);
      AskCompose(s, r1.1, r1.0, r2.1, r2.0);
    }
  }

  lemma AskSame(s: Sched)
    ensures AskKept(s, [], s)
  {
  }

  lemma ScheduleAsk(s: Sched, s': Sched)
    requires SameTokens(s, s')
    ensures AskKept(s, [], s')
  {
    forall id | id in s'.reqs ensures id in s.reqs && SameAsk(s'.reqs[id], s.reqs[id]) { SameFields(s.reqs[id], s'.reqs[id]); }
  }

  /** One engine step. */
  lemma StepAsk(net: Net, cfg: Config, size: nat, e: Engine)
    requires EBase(net, cfg, size, e) && StepDefined(net, cfg, e, size)
    ensures var r := Step(net, cfg, e, size);
      && AskKept(e.s, if r.1.Outputs? then r.1.outputs else [], r.0.s)
      && r.0.r.embeds.Keys <= e.r.embeds.Keys
  {
    hide SInv, KvShaped, Schedule, Update, AskKept, SameTokens, RunModel, FeedAll, SampleRows, SampleOk, Runnable, ScheduleAsserts, UpdateAsserts,
         ForwardModel, Forwardable;
    SInvWf(cfg, e.s, []);
    ScheduleInv(cfg, e.s);
    var (s', o) := Schedule(cfg, e.s);
    ScheduleAsk(e.s, s');
    if o.Some? && (o.value.scheduled != [] || o.value.finished != []) {
      var sampled := Execute(net, cfg.blockSize, e.r, o.value, size).1;
      UpdateAsk(cfg, s', o.value.scheduled, sampled);
      var u := Update(cfg, s', o.value.scheduled, sampled);
      AskCompose(e.s, [], s', u.1, u.0);
      assert [] + u.1 == u.1;
    }
  }
}
