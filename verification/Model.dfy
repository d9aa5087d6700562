/** The network as uninterpreted functions, and what a request computes on its own over a
    contiguous KV cache: the reference every batched run is compared with. */
module Model {
  import opened Hashing
  import opened RequestSpec

  /** One position's hidden row; at layer 0, its input embedding. */
  type Row(==, !new, 0)

  /** One position's key and value at one layer. */
  type KVal(==, !new, 0)

  /** RequestSamplerState without the random generator. */
  datatype SamplerState = SamplerState(params: Params, promptLen: nat, tokenIds: seq<Token>)

  /** embed: token to input row. project and attend: layer, row, position (and the visible
      keys and values, oldest first). sample: logits of a row to a token, deterministically. */
  datatype Net = Net(
    layers: nat,
    embed: Token -> Row,
    project: (nat, Row, nat) -> KVal,
    attend: (nat, Row, nat, seq<KVal>) -> Row,
    sample: (Row, SamplerState) -> Token)

  /** The hidden row of the last position after l layers, from the inputs up to it. */
  ghost function Hidden(net: Net, l: nat, xs: seq<Row>): Row
    requires xs != []
    decreases l, 0
  {
    if l == 0 then xs[|xs| - 1]
    else net.attend(l - 1, Hidden(net, l - 1, xs), |xs| - 1, Past(net, l - 1, xs))
  }

  /** A contiguous cache: the keys and values of every position so far at layer l. */
  ghost function Past(net: Net, l: nat, xs: seq<Row>): seq<KVal>
    decreases l, 2
  {
    seq(|xs|, p requires 0 <= p < |xs| => Value(net, l, xs[..p + 1]))
  }

  ghost function Value(net: Net, l: nat, xs: seq<Row>): KVal
    requires xs != []
    decreases l, 1
  {
    net.project(l, Hidden(net, l, xs), |xs| - 1)
  }

  /** Input rows of a request: its own prompt embeddings where it has them, token embeddings elsewhere. */
  function Inputs(net: Net, embeds: seq<Row>, tokens: seq<Token>): (xs: seq<Row>)
    ensures |xs| == |tokens|
  {
    seq(|tokens|, p requires 0 <= p < |tokens| => if p < |embeds| then embeds[p] else net.embed(tokens[p]))
  }

  /** The next token of a request running alone. */
  ghost function NextToken(net: Net, embeds: seq<Row>, prompt: seq<Token>, params: Params, tokens: seq<Token>): Token
    requires tokens != []
  {
    net.sample(Hidden(net, net.layers, Inputs(net, embeds, tokens)), SamplerState(params, |prompt|, tokens))
  }

  /** The first n tokens a request generates running alone, if nothing stops it. */
  ghost function SoloTokens(net: Net, embeds: seq<Row>, prompt: seq<Token>, params: Params, n: nat): (ts: seq<Token>)
    requires prompt != []
    ensures |ts| == n
  {
    if n == 0 then []
    else
      var q := SoloTokens(net, embeds, prompt, params, n - 1);
      q + [NextToken(net, embeds, prompt, params, prompt + q)]
  }

  /** r's output is the solo stream, and no earlier token would have stopped it. */
  ghost predicate OnSoloStream(net: Net, maxModelLen: nat, embeds: seq<Row>, r: Req) {
    && r.prompt != []
    && r.output == SoloTokens(net, embeds, r.prompt, r.params, |r.output|)
    && forall n :: 0 < n < |r.output| ==> CheckStop(r.(output := r.output[..n]), maxModelLen).None?
  }

  lemma InputsAppend(net: Net, embeds: seq<Row>, tokens: seq<Token>, more: seq<Token>)
    ensures Inputs(net, embeds, tokens + more)[..|tokens|] == Inputs(net, embeds, tokens)
  {
  }

  lemma InputsPrefix(net: Net, embeds: seq<Row>, tokens: seq<Token>, k: nat)
    requires k <= |tokens|
    ensures Inputs(net, embeds, tokens)[..k] == Inputs(net, embeds, tokens[..k])
  {
  }
}
