/** When an output ends, said of its tokens and lengths alone. */
module Endings {
  import opened Util
  import opened Hashing
  import opened RequestSpec

  /** The n-th output token ends the request by itself: an eos that counts, or a stop token. */
  predicate TokenEnds(r: Req, n: nat)
    requires 0 < n <= |r.output|
  {
    && n >= r.params.minTokens
    && ((r.eos == Some(r.output[n - 1]) && !r.params.ignoreEos) || r.output[n - 1] in r.params.stopTokenIds)
  }

  /** With n output tokens a length limit is reached. */
  predicate LengthEnds(r: Req, maxModelLen: nat, n: nat) {
    n >= r.params.maxTokens || |r.prompt| + n >= maxModelLen
  }

  /** Nothing ends the request at any of its first n output tokens. */
  ghost predicate RunsThrough(r: Req, maxModelLen: nat, n: nat) {
    n <= |r.output| && forall k :: 0 < k <= n ==> !TokenEnds(r, k) && !LengthEnds(r, maxModelLen, k)
  }

  /** An output as it is handed back: its status says whether and why its last token ends it, and
      no token before did. */
  ghost predicate EndsRight(r: Req, maxModelLen: nat) {
    && r.output != []
    && (r.status == FinishedStopped <==> TokenEnds(r, |r.output|))
    && (r.status == FinishedLength <==> !TokenEnds(r, |r.output|) && LengthEnds(r, maxModelLen, |r.output|))
    && (r.status == Running <==> !TokenEnds(r, |r.output|) && !LengthEnds(r, maxModelLen, |r.output|))
    && RunsThrough(r, maxModelLen, |r.output| - 1)
  }

  /** check_stop looks at the newest token only. */
  lemma CheckStopIs(r: Req, maxModelLen: nat)
    requires r.output != []
    ensures CheckStop(r, maxModelLen) ==
      if TokenEnds(r, |r.output|) then Some(FinishedStopped)
      else if LengthEnds(r, maxModelLen, |r.output|) then Some(FinishedLength)
      else None
  {
  }

  lemma SameEnds(r: Req, r': Req, maxModelLen: nat, n: nat)
    requires r'.prompt == r.prompt && r'.params == r.params && r'.eos == r.eos && n <= |r.output| <= |r'.output|
    requires r'.output[..|r.output|] == r.output
    ensures RunsThrough(r', maxModelLen, n) <==> RunsThrough(r, maxModelLen, n)
  {
    forall k | 0 < k <= n ensures TokenEnds(r', k) <==> TokenEnds(r, k) { assert r'.output[..|r.output|][k - 1] == r.output[k - 1]; }
  }

  /** One more token: the request goes on exactly if that token does not end it. */
  lemma AppendEnds(r: Req, t: Token, computed: nat, maxModelLen: nat)
    requires RunsThrough(r, maxModelLen, |r.output|) && r.status == Running
    ensures var r2 := r.(computed := computed, output := r.output + [t]);
      match CheckStop(r2, maxModelLen)
      case None => RunsThrough(r2, maxModelLen, |r2.output|) && EndsRight(r2, maxModelLen)
      case Some(status) => EndsRight(r2.(status := status), maxModelLen)
  {
    var r2 := r.(computed := computed, output := r.output + [t]);
    CheckStopIs(r2, maxModelLen);
    SameEnds(r, r2, maxModelLen, |r.output|);
    match CheckStop(r2, maxModelLen) {
      case None =>
      case Some(status) => SameEnds(r2, r2.(status := status), maxModelLen, |r.output|);
    }
  }
}
