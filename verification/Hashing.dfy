/** inferneo/kv/hashing.py: the hash chain over full blocks of a token sequence.
    Python's hash is modelled as injective: a hash value is its own preimage. */
module Hashing {
  import opened Util

  type Token = int

  /** NoHash is Python's None: the parent of a first block, or an unregistered block's hash. */
  datatype BlockHash = NoHash | Hash(parent: BlockHash, tokens: seq<Token>)

  function HashBlock(parent: BlockHash, tokens: seq<Token>): BlockHash {
    Hash(parent, tokens)
  }

  /** The token sequence a hash commits to. */
  ghost function Prefix(h: BlockHash): seq<Token> {
    match h
    case NoHash => []
    case Hash(p, ts) => Prefix(p) + ts
  }

  ghost function Depth(h: BlockHash): nat {
    match h
    case NoHash => 0
    case Hash(p, _) => Depth(p) + 1
  }

  /** Every link covers exactly one block of tokens. */
  ghost predicate Blocked(h: BlockHash, bs: nat) {
    h.Hash? ==> |h.tokens| == bs && Blocked(h.parent, bs)
  }

  /** The hash of the first k full blocks of a token sequence. */
  function Chain(tokens: seq<Token>, bs: nat, k: nat): BlockHash {
    if k == 0 then NoHash
    else HashBlock(Chain(tokens, bs, k - 1), Slice(tokens, (k - 1) * bs, k * bs))
  }

  lemma ChainStep(tokens: seq<Token>, bs: nat, k: nat)
    ensures Chain(tokens, bs, k + 1) == HashBlock(Chain(tokens, bs, k), Slice(tokens, k * bs, k * bs + bs))
    ensures Chain(tokens, bs, 0) == NoHash
    ensures Chain(tokens, bs, k + 1) != NoHash
  {
    assert (k + 1) * bs == k * bs + bs;
  }

  lemma {:induction false} ChainShape(tokens: seq<Token>, bs: nat, k: nat)
    requires k * bs <= |tokens|
    ensures Prefix(Chain(tokens, bs, k)) == tokens[..k * bs]
    ensures Depth(Chain(tokens, bs, k)) == k
    ensures Blocked(Chain(tokens, bs, k), bs)
  {
    if k > 0 {
      assert (k - 1) * bs + bs == k * bs;
      ChainShape(tokens, bs, k - 1);
    }
  }

  lemma {:induction false} BlockedLength(h: BlockHash, bs: nat)
    requires Blocked(h, bs)
    ensures |Prefix(h)| == Depth(h) * bs
  {
    if h.Hash? {
      BlockedLength(h.parent, bs);
      assert (Depth(h.parent) + 1) * bs == Depth(h.parent) * bs + bs;
    }
  }

  /** A well-formed chain is rebuilt from the prefix it commits to. */
  lemma {:induction false} ChainOfPrefix(h: BlockHash, bs: nat)
    requires Blocked(h, bs)
    ensures h == Chain(Prefix(h), bs, Depth(h))
  {
    BlockedLength(h, bs);
    if h.Hash? {
      var d := Depth(h.parent);
      BlockedLength(h.parent, bs);
      assert (d + 1) * bs == d * bs + bs;
      ChainOfPrefix(h.parent, bs);
      ChainAppend(Prefix(h.parent), h.tokens, bs, d);
      assert Slice(Prefix(h), d * bs, (d + 1) * bs) == h.tokens;
    }
  }

  /** Chains look only at the blocks they cover. */
  lemma {:induction false} ChainAppend(tokens: seq<Token>, more: seq<Token>, bs: nat, k: nat)
    requires k * bs <= |tokens|
    ensures Chain(tokens + more, bs, k) == Chain(tokens, bs, k)
  {
    if k > 0 {
      assert (k - 1) * bs + bs == k * bs;
      ChainAppend(tokens, more, bs, k - 1);
      assert (tokens + more)[(k - 1) * bs..k * bs] == tokens[(k - 1) * bs..k * bs];
    }
  }

  /** Two chains agree exactly when they have the same depth and commit to the same tokens. */
  lemma {:induction false} ChainAgree(a: seq<Token>, b: seq<Token>, bs: nat, i: nat, j: nat)
    requires i * bs <= |a| && j * bs <= |b|
    ensures Chain(a, bs, i) == Chain(b, bs, j) <==> i == j && a[..i * bs] == b[..j * bs]
  {
    ChainShape(a, bs, i);
    ChainShape(b, bs, j);
    ChainOfPrefix(Chain(a, bs, i), bs);
    ChainOfPrefix(Chain(b, bs, j), bs);
  }

  /** hash_prompt_blocks */
  method HashPromptBlocks(tokens: seq<Token>, bs: nat) returns (hashes: seq<BlockHash>)
    requires bs > 0
    ensures |hashes| == FloorDiv(|tokens|, bs)
    ensures forall i :: 0 <= i < |hashes| ==> hashes[i] == Chain(tokens, bs, i + 1)
  {
    hashes := [];
    var parent := NoHash;
    var start := 0;
    while start + bs <= |tokens|
      invariant start == |hashes| * bs
      invariant start <= |tokens|
      invariant parent == Chain(tokens, bs, |hashes|)
      invariant forall i :: 0 <= i < |hashes| ==> hashes[i] == Chain(tokens, bs, i + 1)
      decreases |tokens| - start
    {
      assert (|hashes| + 1) * bs == |hashes| * bs + bs;
      parent := HashBlock(parent, Slice(tokens, start, start + bs));
      hashes := hashes + [parent];
      start := start + bs;
    }
    FloorUnique(|tokens|, bs, |hashes|);
  }
}
