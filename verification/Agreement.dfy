/** When requests may share cached blocks. Block hashes commit to token ids; the keys and values
    in a block also depend on the input rows, so two requests agree when the full-block prefixes
    both may come to have stand for the same rows in both. */
module Agreement {
  import opened Util
  import opened Hashing
  import opened Model
  import opened ForwardCorrect
  import opened LabelInv

  /** A prompt and the embeddings it came with. */
  datatype Ask = Ask(prompt: seq<Token>, embeds: seq<Row>)

  ghost predicate CompatibleAt(net: Net, bs: nat, a: Ask, b: Ask, ts: seq<Token>, k: nat) {
    |ts| == k * bs && Reaches(a.prompt, ts) && Reaches(b.prompt, ts) ==>
      Inputs(net, a.embeds, ts) == Inputs(net, b.embeds, ts)
  }

  ghost predicate Compatible(net: Net, bs: nat, a: Ask, b: Ask) {
    forall ts, k: nat :: CompatibleAt(net, bs, a, b, ts, k)
  }

  // ------------------------------------------------------------------ the book of agreeing asks

  ghost predicate Agree(net: Net, bs: nat, asks: iset<Ask>) {
    forall a, b :: a in asks && b in asks ==> Compatible(net, bs, a, b)
  }

  /** The rows of ts in whichever request may come to have it. */
  ghost function BookAt(net: Net, asks: iset<Ask>, ts: seq<Token>): seq<Row> {
    if exists a :: a in asks && Reaches(a.prompt, ts) then
      var a :| a in asks && Reaches(a.prompt, ts);
      Inputs(net, a.embeds, ts)
    else []
  }

  ghost function BookOf(net: Net, asks: iset<Ask>): Book {
    ts => BookAt(net, asks, ts)
  }

  /** Agreeing asks have a book all of them respect. */
  lemma BookRespected(net: Net, bs: nat, asks: iset<Ask>, a: Ask)
    requires Agree(net, bs, asks) && a in asks
    ensures Respects(net, bs, BookOf(net, asks), a.embeds, a.prompt)
  {
    hide Inputs;
    forall ts, k: nat ensures RespectsAt(net, bs, BookOf(net, asks), a.embeds, a.prompt, ts, k) {
      if |ts| == k * bs && Reaches(a.prompt, ts) {
        assert a in asks && Reaches(a.prompt, ts);
        var b :| b in asks && Reaches(b.prompt, ts) && BookAt(net, asks, ts) == Inputs(net, b.embeds, ts);
        assert Compatible(net, bs, a, b) && CompatibleAt(net, bs, a, b, ts, k);
      }
    }
  }

  // ------------------------------------------------------------------ a check on the asks alone

  /** How many leading tokens two prompts share. */
  function Common(a: seq<Token>, b: seq<Token>): (n: nat)
    ensures n <= |a| && n <= |b| && a[..n] == b[..n]
    ensures n < |a| && n < |b| ==> a[n] != b[n]
  {
    if a == [] || b == [] || a[0] != b[0] then 0
    else
      var n := 1 + Common(a[1..], b[1..]);
      assert a == [a[0]] + a[1..] && b == [b[0]] + b[1..];
      n
  }

  /** Up to where two requests' tokens may coincide block by block: through the whole longer
      prompt if one prompt begins the other, else through their common full blocks. */
  function Shared(bs: nat, a: seq<Token>, b: seq<Token>): nat
    requires bs > 0
  {
    var n := Common(a, b);
    if n == |a| then |b| else if n == |b| then |a| else FloorDiv(n, bs) * bs
  }

  /** The row at position p, of a request with this ask and the longer of the two prompts. */
  function RowIn(net: Net, e: seq<Row>, longer: seq<Token>, p: nat): Row
    requires p < |longer|
  {
    if p < |e| then e[p] else net.embed(longer[p])
  }

  function Longer(a: seq<Token>, b: seq<Token>): seq<Token> {
    if |a| <= |b| then b else a
  }

  /** Rows agree wherever the two may share a block: a condition on two finite lists. */
  ghost predicate RowsAgree(net: Net, bs: nat, a: Ask, b: Ask)
    requires bs > 0
  {
    forall p :: 0 <= p < Shared(bs, a.prompt, b.prompt) && p < |Longer(a.prompt, b.prompt)| ==>
      RowIn(net, a.embeds, Longer(a.prompt, b.prompt), p) == RowIn(net, b.embeds, Longer(a.prompt, b.prompt), p)
  }

  lemma ReachedTokens(prompt: seq<Token>, ts: seq<Token>, p: nat)
    requires Reaches(prompt, ts) && p < |ts| && p < |prompt|
    ensures ts[p] == prompt[p]
  {
  }

  lemma ReachedWithin(bs: nat, a: seq<Token>, b: seq<Token>, ts: seq<Token>, k: nat)
    requires bs > 0 && |ts| == k * bs && Reaches(a, ts) && Reaches(b, ts) && Common(a, b) < |a| && Common(a, b) < |b|
    ensures |ts| <= Shared(bs, a, b) <= Common(a, b)
  {
    var n := Common(a, b);
    if |ts| > n {
      ReachedTokens(a, ts, n);
      ReachedTokens(b, ts, n);
      assert false;
    }
    FloorBounds(n, bs);
    if k > FloorDiv(n, bs) { MulMono(FloorDiv(n, bs) + 1, k, bs); }
    MulMono(k, FloorDiv(n, bs), bs);
  }

  lemma RowsAgreeSuffices(net: Net, bs: nat, a: Ask, b: Ask, ts: seq<Token>, k: nat)
    requires bs > 0 && |a.embeds| <= |a.prompt| && |b.embeds| <= |b.prompt| && RowsAgree(net, bs, a, b)
    ensures CompatibleAt(net, bs, a, b, ts, k)
  {
    if |ts| == k * bs && Reaches(a.prompt, ts) && Reaches(b.prompt, ts) {
      var n, longer := Common(a.prompt, b.prompt), Longer(a.prompt, b.prompt);
      if n < |a.prompt| && n < |b.prompt| { ReachedWithin(bs, a.prompt, b.prompt, ts, k); }
      forall p | 0 <= p < |ts| ensures Inputs(net, a.embeds, ts)[p] == Inputs(net, b.embeds, ts)[p] {
        if p < |longer| {
          ReachedTokens(longer, ts, p);
          assert RowIn(net, a.embeds, longer, p) == RowIn(net, b.embeds, longer, p);
        }
      }
    }
  }

  /** The longest common full-block prefix, padded when one prompt begins the other. */
  function Witness(bs: nat, a: seq<Token>, b: seq<Token>): (w: (seq<Token>, nat))
    requires bs > 0
  {
    var n := Common(a, b);
    if n == |a| || n == |b| then
      var k := CeilDiv(|Longer(a, b)|, bs);
      CeilDivBounds(|Longer(a, b)|, bs);
      (Longer(a, b) + seq(k * bs - |Longer(a, b)|, _ => 0), k)
    else
      FloorBounds(n, bs);
      (a[..FloorDiv(n, bs) * bs], FloorDiv(n, bs))
  }

  lemma WitnessReached(bs: nat, a: seq<Token>, b: seq<Token>)
    requires bs > 0
    ensures var (ts, k) := Witness(bs, a, b);
      && |ts| == k * bs && Reaches(a, ts) && Reaches(b, ts) && |ts| >= Shared(bs, a, b)
      && forall p :: 0 <= p < Shared(bs, a, b) ==> p < |Longer(a, b)| && ts[p] == Longer(a, b)[p]
  {
    hide FloorDiv, CeilDiv;
    var n := Common(a, b);
    var (ts, k) := Witness(bs, a, b);
    if n == |a| || n == |b| {
      CeilDivBounds(|Longer(a, b)|, bs);
      assert a <= Longer(a, b) && b <= Longer(a, b);
      assert Longer(a, b) <= ts;
    } else {
      FloorBounds(n, bs);
      assert ts == a[..FloorDiv(n, bs) * bs] == b[..FloorDiv(n, bs) * bs];
    }
  }

  /** Two asks whose embeddings stay inside their prompts are compatible if and only if their
      rows agree wherever the two may share a block. */
  lemma CompatibleIff(net: Net, bs: nat, a: Ask, b: Ask)
    requires bs > 0 && |a.embeds| <= |a.prompt| && |b.embeds| <= |b.prompt|
    ensures Compatible(net, bs, a, b) <==> RowsAgree(net, bs, a, b)
  {
    if Compatible(net, bs, a, b) {
      var (ts, k) := Witness(bs, a.prompt, b.prompt);
      WitnessReached(bs, a.prompt, b.prompt);
      assert CompatibleAt(net, bs, a, b, ts, k);
      forall p | 0 <= p < Shared(bs, a.prompt, b.prompt) && p < |Longer(a.prompt, b.prompt)|
        ensures RowIn(net, a.embeds, Longer(a.prompt, b.prompt), p) == RowIn(net, b.embeds, Longer(a.prompt, b.prompt), p)
      {
        assert Inputs(net, a.embeds, ts)[p] == Inputs(net, b.embeds, ts)[p];
      }
    }
    if RowsAgree(net, bs, a, b) {
      forall ts, k: nat ensures CompatibleAt(net, bs, a, b, ts, k) { RowsAgreeSuffices(net, bs, a, b, ts, k); }
    }
  }
}
