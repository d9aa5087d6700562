/** inferneo/engine/request.py: a request is its token ids plus a count of how many of
    them have had their KV computed. */
module RequestSpec {
  import opened Util
  import opened Hashing

  datatype Status = Waiting | Running | Preempted | FinishedStopped | FinishedLength | FinishedAborted {
    predicate Finished() {
      this in {FinishedStopped, FinishedLength, FinishedAborted}
    }
  }

  /** Sampling settings the control plane only passes on (penalties and the like). */
  type Knobs(==, !new, 0)

  datatype Params = Params(maxTokens: nat, minTokens: nat, ignoreEos: bool, stopTokenIds: seq<Token>, knobs: Knobs)

  datatype Req = Req(
    prompt: seq<Token>,
    output: seq<Token>,
    computed: nat,
    status: Status,
    priority: int,
    arrival: nat,
    eos: Option<Token>,
    params: Params)
  {
    function Tokens(): seq<Token> {
      prompt + output
    }

    function NumTokens(): nat {
      |prompt| + |output|
    }
  }

  /** check_stop: the finished status the newest output token brings about, if any. */
  function CheckStop(r: Req, maxModelLen: nat): Option<Status>
    requires r.output != []
  {
    var last := r.output[|r.output| - 1];
    if |r.output| >= r.params.minTokens && !r.params.ignoreEos && r.eos == Some(last) then Some(FinishedStopped)
    else if |r.output| >= r.params.minTokens && last in r.params.stopTokenIds then Some(FinishedStopped)
    else if |r.output| >= r.params.maxTokens then Some(FinishedLength)
    else if r.NumTokens() >= maxModelLen then Some(FinishedLength)
    else None
  }

  /** No request generates more than this many tokens. */
  function OutputCap(r: Req, maxModelLen: nat): int {
    Min(r.params.maxTokens, maxModelLen - |r.prompt|)
  }

  /** What SamplingParams and add_request check on entry. */
  predicate Admissible(r: Req, maxModelLen: nat) {
    && 0 < |r.prompt| < maxModelLen
    && 1 <= r.params.maxTokens
    && r.params.minTokens <= r.params.maxTokens
  }

  /** Scheduling order: higher priority first, then earlier arrival. */
  predicate Outranks(a: Req, b: Req) {
    a.priority > b.priority || (a.priority == b.priority && a.arrival < b.arrival)
  }
}
