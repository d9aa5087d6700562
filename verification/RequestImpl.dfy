/** inferneo/engine/request.py: the request object the scheduler updates in place. */
module RequestImpl {
  import opened Util
  import opened Hashing
  import opened BlockManagerSpec
  import opened RequestSpec
  import opened Endings

  class EngineRequest {
    const requestId: Id
    const promptTokenIds: seq<Token>
    const samplingParams: Params
    const eosTokenId: Option<Token>
    const priority: int
    const arrivalTime: nat
    var status: Status
    var outputTokenIds: seq<Token>
    /** How many of AllTokenIds() have had their KV computed. */
    var numComputedTokens: nat

    function View(): Req
      reads this
    {
      Req(promptTokenIds, outputTokenIds, numComputedTokens, status, priority, arrivalTime, eosTokenId, samplingParams)
    }

    constructor (id: Id, prompt: seq<Token>, params: Params, eos: Option<Token>, prio: int, arrival: nat)
      ensures requestId == id && View() == Req(prompt, [], 0, Waiting, prio, arrival, eos, params)
    {
      requestId, promptTokenIds, samplingParams, eosTokenId, priority, arrivalTime := id, prompt, params, eos, prio, arrival;
      status, outputTokenIds, numComputedTokens := Waiting, [], 0;
    }

    function NumTokens(): (n: nat)
      reads this
      ensures n == View().NumTokens()
    {
      |promptTokenIds| + |outputTokenIds|
    }

    function AllTokenIds(): (ts: seq<Token>)
      reads this
      ensures ts == View().Tokens() && |ts| == NumTokens()
    {
      promptTokenIds + outputTokenIds
    }

    method AppendOutputToken(t: Token)
      modifies this`outputTokenIds
      ensures View() == old(View()).(output := old(outputTokenIds) + [t])
    {
      outputTokenIds := outputTokenIds + [t];
    }

    /** check_stop; the source is called only after a token was appended. */
    method CheckStop(maxModelLen: nat) returns (r: Option<Status>)
      requires outputTokenIds != []
      ensures r == RequestSpec.CheckStop(View(), maxModelLen)
      ensures r == if TokenEnds(View(), |outputTokenIds|) then Some(FinishedStopped)
                   else if LengthEnds(View(), maxModelLen, |outputTokenIds|) then Some(FinishedLength)
                   else None
    {
      var last := outputTokenIds[|outputTokenIds| - 1];
      if |outputTokenIds| >= samplingParams.minTokens {
        if !samplingParams.ignoreEos && eosTokenId.Some? && last == eosTokenId.value {
          return Some(FinishedStopped);
        }
        if last in samplingParams.stopTokenIds {
          return Some(FinishedStopped);
        }
      }
      if |outputTokenIds| >= samplingParams.maxTokens {
        return Some(FinishedLength);
      }
      if NumTokens() >= maxModelLen {
        return Some(FinishedLength);
      }
      r := None;
    }
  }
}
