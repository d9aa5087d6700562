/** inferneo/engine/engine.py: requests enter, are aborted, and advance by steps of
    schedule, execute, update. */
module EngineSpec {
  import opened Util
  import opened Hashing
  import opened BlockManagerSpec
  import opened RequestSpec
  import opened SchedulerSpec
  import opened Assertions
  import opened Model
  import opened RunnerSpec

  /** clock numbers arrivals; used are the ids handed out so far. */
  datatype Engine = Engine(s: Sched, r: Runner, clock: nat, used: set<Id>)

  datatype AddResult = Accepted(id: Id) | Rejected

  /** What a step hands back: the requests that produced a token, or the error of schedule(). */
  datatype StepResult = Outputs(outputs: seq<(Id, Req)>) | Raised

  /** What the constructor of SamplingParams enforces on the part modelled here. */
  predicate ValidParams(p: Params) {
    1 <= p.maxTokens && p.minTokens <= p.maxTokens
  }

  function NewRequest(prompt: seq<Token>, params: Params, eos: Option<Token>, priority: int, arrival: nat): Req {
    Req(prompt, [], 0, Waiting, priority, arrival, eos, params)
  }

  /** add_request: length checks, then embeddings to the runner, then the scheduler's own check. */
  function AddRequest(cfg: Config, e: Engine, id: Id, prompt: seq<Token>, params: Params, eos: Option<Token>,
                      priority: int, embeds: Option<seq<Row>>): (Engine, AddResult)
  {
    if !ValidParams(params) || prompt == [] || |prompt| >= cfg.maxModelLen then (e, Rejected)
    else
      var e1 := match embeds
        case None => e
        case Some(rows) => e.(r := e.r.(embeds := e.r.embeds[id := rows]));
      match SchedulerSpec.AddRequest(e1.s, id, NewRequest(prompt, params, eos, priority, e1.clock))
      case None => (e1, Rejected)
      case Some(s') => (e1.(s := s', clock := e1.clock + 1, used := e1.used + {id}), Accepted(id))
  }

  function AbortRequest(e: Engine, id: Id): Engine
    requires Wf(e.s)
  {
    e.(s := Abort(e.s, id))
  }

  /** Along the step every assertion of the scheduler, the KV manager and the runner holds and
      every index is inside what it indexes. */
  ghost predicate StepDefined(net: Net, cfg: Config, e: Engine, size: nat) {
    && cfg.blockSize > 0 && Wf(e.s) && ScheduleAsserts(cfg, e.s)
    && var (s', o) := Schedule(cfg, e.s);
    o.Some? && (o.value.scheduled != [] || o.value.finished != []) ==>
      && Executable(net, cfg.blockSize, e.r, o.value, size)
      && Settled(s')
      && var (_, sampled) := Execute(net, cfg.blockSize, e.r, o.value, size);
      && (forall it :: it in o.value.scheduled ==> it.id !in s'.waiting && (it.doSample ==> it.id in sampled))
      && UpdateAsserts(cfg, s', o.value.scheduled, sampled)
  }

  /** step() */
  function Step(net: Net, cfg: Config, e: Engine, size: nat): (Engine, StepResult)
    requires StepDefined(net, cfg, e, size)
  {
    var (s', o) := Schedule(cfg, e.s);
    match o
    case None => (e.(s := s'), Raised)
    case Some(out) =>
      if out.scheduled == [] && out.finished == [] then (e.(s := s'), Outputs([]))
      else
        var (r', sampled) := Execute(net, cfg.blockSize, e.r, out, size);
        var (s'', updated) := Update(cfg, s', out.scheduled, sampled);
        (e.(s := s'', r := r'), Outputs(updated))
  }
}
