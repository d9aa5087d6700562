/** Which input prefix each physical position holds: between steps, every computed position
    of every running request and every position of every hashed block; inside a schedule()
    call, the same up to positions the step is about to write. */
module LabelInv {
  import opened Util
  import opened Hashing
  import opened BlockPoolSpec
  import opened BlockManagerSpec
  import opened BlockManagerInv
  import opened AllocationInv
  import opened RequestSpec
  import opened SchedulerSpec
  import opened SchedulerInv
  import opened Model
  import opened ForwardCorrect

  /** Prompt embeddings the runner holds, by request. */
  type Media = map<Id, seq<Row>>

  function EmbedsOf(media: Media, id: Id): seq<Row> {
    if id in media then media[id] else []
  }

  function RowsFor(net: Net, media: Media, id: Id, toks: seq<Token>): (xs: seq<Row>)
    ensures |xs| == |toks|
  {
    Inputs(net, EmbedsOf(media, id), toks)
  }

  /** A request with this prompt may come to have ts as its first tokens. */
  predicate Reaches(prompt: seq<Token>, ts: seq<Token>) {
    prompt <= ts || ts <= prompt
  }

  ghost predicate RespectsAt(net: Net, bs: nat, book: Book, embeds: seq<Row>, prompt: seq<Token>, ts: seq<Token>, k: nat) {
    |ts| == k * bs && Reaches(prompt, ts) ==> book(ts) == Inputs(net, embeds, ts)
  }

  /** On every prefix of full blocks the request may come to have, its input rows are the book's. */
  ghost predicate Respects(net: Net, bs: nat, book: Book, embeds: seq<Row>, prompt: seq<Token>) {
    forall ts, k: nat :: RespectsAt(net, bs, book, embeds, prompt, ts, k)
  }

  /** The hash commits to token ids only, so with prefix caching on, requests must agree on the
      input rows of the full-block prefixes whose token ids they share. */
  ghost predicate MediaOk(net: Net, bs: nat, s: Sched, media: Media, book: Book) {
    s.kv.pool.caching ==> forall id :: id in s.reqs ==> Respects(net, bs, book, EmbedsOf(media, id), s.reqs[id].prompt)
  }

  /** Position j*bs+o of request t lives at (b, o) and is granted in this step. */
  ghost predicate PendingAt(s: Sched, out: seq<Item>, bs: nat, b: BlockId, o: nat, t: Id, j: nat) {
    && t in s.running && t in s.reqs
    && j < |TableOf(s.kv, t)| && TableOf(s.kv, t)[j] == b
    && s.reqs[t].computed <= j * bs + o < Cover(s, out, t)
  }

  ghost predicate Pending(s: Sched, out: seq<Item>, bs: nat, b: BlockId, o: nat) {
    exists t: Id, j: nat :: PendingAt(s, out, bs, b, o, t, j)
  }

  ghost predicate HasLabel(labels: Labels, b: BlockId, o: nat, want: seq<Row>) {
    (b, o) in labels.held && labels.held[(b, o)] == want
  }

  ghost predicate Ready(s: Sched, out: seq<Item>, bs: nat, labels: Labels, b: BlockId, o: nat, want: seq<Row>) {
    Pending(s, out, bs, b, o) || HasLabel(labels, b, o, want)
  }

  /** Position i*bs+o of a running request, once computed, is ready. */
  ghost predicate RunReadyAt(net: Net, media: Media, s: Sched, out: seq<Item>, bs: nat, labels: Labels, id: Id, i: nat, o: nat) {
    && id in s.reqs
    && (i < |TableOf(s.kv, id)| && o < bs && i * bs + o < s.reqs[id].computed && i * bs + o < |s.reqs[id].Tokens()| ==>
          Ready(s, out, bs, labels, TableOf(s.kv, id)[i], o, RowsFor(net, media, id, s.reqs[id].Tokens())[..i * bs + o + 1]))
  }

  ghost predicate RunReady(net: Net, media: Media, s: Sched, out: seq<Item>, bs: nat, labels: Labels) {
    forall id, i: nat, o: nat :: id in s.running ==> RunReadyAt(net, media, s, out, bs, labels, id, i, o)
  }

  /** The input prefix that offset o of a block hashed h must hold. */
  ghost function HashWant(book: Book, bs: nat, h: BlockHash, o: nat): seq<Row> {
    Slice(book(Prefix(h)), 0, if Depth(h) > 0 then (Depth(h) - 1) * bs + o + 1 else 0)
  }

  ghost predicate HashReadyAt(s: Sched, out: seq<Item>, bs: nat, labels: Labels, b: BlockId, o: nat) {
    b < |s.kv.pool.hash| && s.kv.pool.hash[b] != NoHash && o < bs ==>
      Ready(s, out, bs, labels, b, o, HashWant(labels.book, bs, s.kv.pool.hash[b], o))
  }

  /** Every hashed block, also one in the free queue, holds the prefix its hash commits to. */
  ghost predicate HashReady(s: Sched, out: seq<Item>, bs: nat, labels: Labels) {
    forall b: nat, o: nat :: HashReadyAt(s, out, bs, labels, b, o)
  }

  ghost predicate LInv(net: Net, media: Media, cfg: Config, s: Sched, out: seq<Item>, labels: Labels) {
    && RunReady(net, media, s, out, cfg.blockSize, labels)
    && HashReady(s, out, cfg.blockSize, labels)
    && MediaOk(net, cfg.blockSize, s, media, labels.book)
  }

  // ------------------------------------------------------------------ frames

  /** Whatever was pending still is. */
  ghost predicate PendingKept(s: Sched, out: seq<Item>, s': Sched, out': seq<Item>, bs: nat) {
    forall b: nat, o: nat, t: Id, j: nat :: PendingAt(s, out, bs, b, o, t, j) ==> PendingAt(s', out', bs, b, o, t, j)
  }

  lemma ReadyMono(s: Sched, out: seq<Item>, s': Sched, out': seq<Item>, bs: nat, labels: Labels, b: BlockId, o: nat, want: seq<Row>)
    requires PendingKept(s, out, s', out', bs) && Ready(s, out, bs, labels, b, o, want)
    ensures Ready(s', out', bs, labels, b, o, want)
  {
    if Pending(s, out, bs, b, o) {
      var t: Id, j: nat :| PendingAt(s, out, bs, b, o, t, j);
      assert PendingAt(s', out', bs, b, o, t, j);
    }
  }

  /** Request id's computed positions stay ready when its tokens, count and row stay. */
  lemma RunReadyFrame(net: Net, media: Media, s: Sched, out: seq<Item>, s': Sched, out': seq<Item>, bs: nat, labels: Labels, id: Id, i: nat, o: nat)
    requires PendingKept(s, out, s', out', bs) && RunReadyAt(net, media, s, out, bs, labels, id, i, o)
    requires id in s'.reqs && s'.reqs[id].Tokens() == s.reqs[id].Tokens() && s'.reqs[id].computed == s.reqs[id].computed
    requires i * bs + o < s.reqs[id].computed && i < |TableOf(s'.kv, id)| ==>
      i < |TableOf(s.kv, id)| && TableOf(s'.kv, id)[i] == TableOf(s.kv, id)[i]
    ensures RunReadyAt(net, media, s', out', bs, labels, id, i, o)
  {
    if i < |TableOf(s'.kv, id)| && o < bs && i * bs + o < s'.reqs[id].computed && i * bs + o < |s'.reqs[id].Tokens()| {
      ReadyMono(s, out, s', out', bs, labels, TableOf(s.kv, id)[i], o, RowsFor(net, media, id, s.reqs[id].Tokens())[..i * bs + o + 1]);
    }
  }

  lemma HashReadyFrame(s: Sched, out: seq<Item>, s': Sched, out': seq<Item>, bs: nat, labels: Labels, b: BlockId, o: nat)
    requires PendingKept(s, out, s', out', bs) && HashReadyAt(s, out, bs, labels, b, o)
    requires |s'.kv.pool.hash| == |s.kv.pool.hash|
    requires b < |s.kv.pool.hash| && s'.kv.pool.hash[b] != NoHash ==> s'.kv.pool.hash[b] == s.kv.pool.hash[b]
    ensures HashReadyAt(s', out', bs, labels, b, o)
  {
    if b < |s.kv.pool.hash| && s'.kv.pool.hash[b] != NoHash && o < bs {
      ReadyMono(s, out, s', out', bs, labels, b, o, HashWant(labels.book, bs, s.kv.pool.hash[b], o));
    }
  }

  /** A transition that keeps hashes, and rows and requests of whoever still runs. */
  ghost predicate RowsStay(s: Sched, s': Sched) {
    && s'.kv.pool.caching == s.kv.pool.caching
    && s'.kv.pool.hash == s.kv.pool.hash
    && (forall id :: id in s'.reqs ==> id in s.reqs && s'.reqs[id].prompt == s.reqs[id].prompt)
    && forall id :: id in s'.running ==>
         id in s.running && id in s.reqs && id in s'.reqs && s'.reqs[id] == s.reqs[id] && TableOf(s'.kv, id) == TableOf(s.kv, id)
  }

  lemma StayLabels(net: Net, media: Media, cfg: Config, s: Sched, s': Sched, out: seq<Item>, labels: Labels)
    requires LInv(net, media, cfg, s, out, labels) && RowsStay(s, s')
    requires forall id :: id in s.running && id !in s'.running ==> Granted(out, id) == 0
    ensures LInv(net, media, cfg, s', out, labels)
  {
    hide RunReadyAt, HashReadyAt;
    var bs := cfg.blockSize;
    assert PendingKept(s, out, s', out, bs);
    forall id, i: nat, o: nat | id in s'.running ensures RunReadyAt(net, media, s', out, bs, labels, id, i, o) {
      RunReadyReqs(net, media, s, out, bs, labels, id, i, o);
      RunReadyFrame(net, media, s, out, s', out, bs, labels, id, i, o);
    }
    forall b: nat, o: nat ensures HashReadyAt(s', out, bs, labels, b, o) {
      HashReadyFrame(s, out, s', out, bs, labels, b, o);
    }
  }

  lemma RunReadyReqs(net: Net, media: Media, s: Sched, out: seq<Item>, bs: nat, labels: Labels, id: Id, i: nat, o: nat)
    requires RunReady(net, media, s, out, bs, labels) && id in s.running
    ensures RunReadyAt(net, media, s, out, bs, labels, id, i, o) && id in s.reqs
  {
  }

  // ------------------------------------------------------------------ the block a hash names

  /** A position inside a full block wants what the block's hash wants, of a request that
      respects the book. */
  lemma HashWantIs(net: Net, book: Book, bs: nat, embeds: seq<Row>, prompt: seq<Token>, toks: seq<Token>, i: nat, o: nat)
    requires Respects(net, bs, book, embeds, prompt) && prompt <= toks
    requires (i + 1) * bs <= |toks| && o < bs
    ensures i * bs + o + 1 <= |toks|
    ensures HashWant(book, bs, Chain(toks, bs, i + 1), o) == Inputs(net, embeds, toks)[..i * bs + o + 1]
  {
    hide Inputs;
    ChainShape(toks, bs, i + 1);
    assert (i + 1) * bs == i * bs + bs;
    var pre := toks[..(i + 1) * bs];
    InputsPrefix(net, embeds, toks, (i + 1) * bs);
    assert RespectsAt(net, bs, book, embeds, prompt, pre, i + 1);
    assert Inputs(net, embeds, toks)[..(i + 1) * bs][..i * bs + o + 1] == Inputs(net, embeds, toks)[..i * bs + o + 1];
  }

  /** A request's tokens begin with its prompt. */
  lemma TokensFromPrompt(r: Req)
    ensures r.prompt <= r.Tokens()
  {
  }

  lemma OwnPositionReady(net: Net, media: Media, s': Sched, out': seq<Item>, bs: nat, labels: Labels, id: Id, i: nat, o: nat)
    requires id in s'.running && id in s'.reqs && i < |TableOf(s'.kv, id)| && o < bs
    requires i * bs + o < Cover(s', out', id) <= |s'.reqs[id].Tokens()|
    requires RunReadyAt(net, media, s', out', bs, labels, id, i, o)
    ensures Ready(s', out', bs, labels, TableOf(s'.kv, id)[i], o, RowsFor(net, media, id, s'.reqs[id].Tokens())[..i * bs + o + 1])
  {
    hide Inputs;
    if s'.reqs[id].computed <= i * bs + o {
      assert PendingAt(s', out', bs, TableOf(s'.kv, id)[i], o, id, i);
    }
  }

  /** After an allocation for id, hashes that are new name id's own blocks, whose positions
      are either computed already or granted to id in this very step. */
  lemma OwnBlockReady(net: Net, media: Media, cfg: Config, s': Sched, out': seq<Item>, labels: Labels, id: Id, total: nat, b: BlockId, o: nat)
    requires cfg.blockSize > 0 && id in s'.running && id in s'.reqs
    requires total == Cover(s', out', id) <= |s'.reqs[id].Tokens()|
    requires b < |s'.kv.pool.hash| && OwnBlock(s'.kv, cfg.blockSize, id, s'.reqs[id].Tokens(), total, b)
    requires o < cfg.blockSize && Respects(net, cfg.blockSize, labels.book, EmbedsOf(media, id), s'.reqs[id].prompt)
    requires forall i: nat, o: nat :: RunReadyAt(net, media, s', out', cfg.blockSize, labels, id, i, o)
    ensures HashReadyAt(s', out', cfg.blockSize, labels, b, o)
  {
    hide Inputs, Chain, RunReadyAt, Ready, HashWant, Cover, FloorDiv, Respects;
    var bs, toks := cfg.blockSize, s'.reqs[id].Tokens();
    var i :| RegisteredAt(s'.kv.pool, TableOf(s'.kv, id), bs, toks, 0, FloorDiv(total, bs), b, i);
    FloorBounds(total, bs);
    MulMono(i + 1, FloorDiv(total, bs), bs);
    assert (i + 1) * bs == i * bs + bs;
    TokensFromPrompt(s'.reqs[id]);
    HashWantIs(net, labels.book, bs, EmbedsOf(media, id), s'.reqs[id].prompt, toks, i, o);
    assert RunReadyAt(net, media, s', out', bs, labels, id, i, o);
    OwnPositionReady(net, media, s', out', bs, labels, id, i, o);
  }

  // ------------------------------------------------------------------ granting and admitting

  /** What allocating for id changes, as far as labels are concerned. */
  ghost predicate Extends(cfg: Config, s: Sched, out: seq<Item>, s': Sched, out': seq<Item>, id: Id)
    requires cfg.blockSize > 0
  {
    && s'.kv.pool.caching == s.kv.pool.caching
    && |s'.kv.pool.hash| == |s.kv.pool.hash|
    && s'.reqs.Keys == s.reqs.Keys && (forall r :: r in s.reqs ==> s'.reqs[r].prompt == s.reqs[r].prompt)
    && id in s'.running && id in s'.reqs && id in s.reqs
    && Cover(s', out', id) <= |s'.reqs[id].Tokens()|
    && (forall r :: r in s'.running && r != id ==>
          r in s.running && r in s.reqs && s'.reqs[r] == s.reqs[r] && TableOf(s'.kv, r) == TableOf(s.kv, r))
    && (forall r :: r in s.running ==> r in s'.running)
    && (forall r :: r != id ==> Granted(out', r) == Granted(out, r))
    && Granted(out, id) == 0
    && HashSources(s.kv, s'.kv, cfg.blockSize, id, s'.reqs[id].Tokens(), Cover(s', out', id))
  }

  lemma ExtendsPending(cfg: Config, s: Sched, out: seq<Item>, s': Sched, out': seq<Item>, id: Id)
    requires cfg.blockSize > 0 && Extends(cfg, s, out, s', out', id)
    ensures PendingKept(s, out, s', out', cfg.blockSize)
  {
    hide HashSources;
  }

  lemma ExtendsLabels(net: Net, media: Media, cfg: Config, s: Sched, out: seq<Item>, s': Sched, out': seq<Item>, labels: Labels, id: Id)
    requires cfg.blockSize > 0 && Extends(cfg, s, out, s', out', id) && LInv(net, media, cfg, s, out, labels)
    requires forall i: nat, o: nat :: RunReadyAt(net, media, s', out', cfg.blockSize, labels, id, i, o)
    requires forall b: nat :: b < |s'.kv.pool.hash| && s'.kv.pool.hash[b] != NoHash ==> s'.kv.pool.caching
    ensures LInv(net, media, cfg, s', out', labels)
  {
    hide RunReadyAt, HashReadyAt, OwnBlock;
    var bs := cfg.blockSize;
    ExtendsPending(cfg, s, out, s', out', id);
    forall r, i: nat, o: nat | r in s'.running ensures RunReadyAt(net, media, s', out', bs, labels, r, i, o) {
      if r != id {
        RunReadyReqs(net, media, s, out, bs, labels, r, i, o);
        RunReadyFrame(net, media, s, out, s', out', bs, labels, r, i, o);
      }
    }
    forall b: nat, o: nat ensures HashReadyAt(s', out', bs, labels, b, o) {
      if b < |s'.kv.pool.hash| && o < bs && OwnBlock(s'.kv, bs, id, s'.reqs[id].Tokens(), Cover(s', out', id), b) && s'.kv.pool.hash[b] != NoHash {
        OwnBlockReady(net, media, cfg, s', out', labels, id, Cover(s', out', id), b, o);
      } else {
        HashReadyElse(cfg, s, out, s', out', labels, id, b, o);
      }
    }
  }

  lemma HashReadyElse(cfg: Config, s: Sched, out: seq<Item>, s': Sched, out': seq<Item>, labels: Labels, id: Id, b: nat, o: nat)
    requires cfg.blockSize > 0 && Extends(cfg, s, out, s', out', id) && PendingKept(s, out, s', out', cfg.blockSize)
    requires HashReady(s, out, cfg.blockSize, labels)
    requires b < |s'.kv.pool.hash| && o < cfg.blockSize && s'.kv.pool.hash[b] != NoHash ==>
      !OwnBlock(s'.kv, cfg.blockSize, id, s'.reqs[id].Tokens(), Cover(s', out', id), b)
    ensures HashReadyAt(s', out', cfg.blockSize, labels, b, o)
  {
    hide OwnBlock, Ready, HashWant, PendingKept;
    if b < |s'.kv.pool.hash| && o < cfg.blockSize && s'.kv.pool.hash[b] != NoHash {
      assert HashReadyAt(s, out, cfg.blockSize, labels, b, o);
      HashReadyFrame(s, out, s', out', cfg.blockSize, labels, b, o);
    }
  }

  lemma CachingOnly(kv: KV, bs: nat, hand: seq<BlockId>)
    requires KvOk(kv, bs, hand)
    ensures forall b: nat :: b < |kv.pool.hash| && kv.pool.hash[b] != NoHash ==> kv.pool.caching
  {
  }

  lemma GrantExtends(cfg: Config, s: Sched, out: seq<Item>, s': Sched, id: Id, it: Item)
    requires SInv(cfg, s, out) && id in s.running && Fresh(out, id)
    requires it.id == id && s.reqs[id].computed + |it.chunk| <= s.reqs[id].NumTokens()
    requires Extended(cfg, s, s'.kv, id, |it.chunk|) && s' == s.(kv := s'.kv)
    ensures Extends(cfg, s, out, s', out + [it], id)
  {
    hide KvOk, TableOk, RowOk, Filling, Items, Statuses, Bounded, Arrivals;
    GrantedFresh(out, id);
    forall r ensures Granted(out + [it], r) == if r == id then |it.chunk| else Granted(out, r) { GrantedSnoc(out, it, r); }
    forall r | r in s'.running && r != id ensures TableOf(s'.kv, r) == TableOf(s.kv, r) {
      assert SameRow(s.kv, s'.kv, r);
    }
  }

  lemma ComputedBlock(kv: KV, bs: nat, id: Id, toks: seq<Token>, cover: nat, i: nat, o: nat)
    requires bs > 0 && TableOk(kv, bs, id, toks, cover) && i * bs + o < cover
    ensures i < |TableOf(kv, id)|
  {
    hide HashAt, Chain, Distinct;
    CeilDivBounds(cover, bs);
    MulStrict(i, |TableOf(kv, id)|, bs);
  }

  lemma GrantLabels(net: Net, media: Media, cfg: Config, s: Sched, out: seq<Item>, s': Sched, id: Id, it: Item, labels: Labels)
    requires SInv(cfg, s, out) && id in s.running && Fresh(out, id)
    requires it.id == id && s.reqs[id].computed + |it.chunk| <= s.reqs[id].NumTokens()
    requires Extended(cfg, s, s'.kv, id, |it.chunk|) && s' == s.(kv := s'.kv)
    requires LInv(net, media, cfg, s, out, labels)
    ensures LInv(net, media, cfg, s', out + [it], labels)
  {
    hide KvOk, TableOk, Filling, Items, Statuses, Bounded, Arrivals, RunReadyAt, HashReady, Extends;
    var bs := cfg.blockSize;
    GrantExtends(cfg, s, out, s', id, it);
    ExtendsPending(cfg, s, out, s', out + [it], id);
    CachingOnly(s'.kv, bs, []);
    GrantedFresh(out, id);
    assert RowOk(cfg, s, out, id);
    forall i: nat, o: nat ensures RunReadyAt(net, media, s', out + [it], bs, labels, id, i, o) {
      RunReadyReqs(net, media, s, out, bs, labels, id, i, o);
      if i * bs + o < s.reqs[id].computed {
        ComputedBlock(s.kv, bs, id, s.reqs[id].Tokens(), s.reqs[id].computed, i, o);
      }
      RunReadyFrame(net, media, s, out, s', out + [it], bs, labels, id, i, o);
    }
    ExtendsLabels(net, media, cfg, s, out, s', out + [it], labels, id);
  }

  lemma AdmitExtends(cfg: Config, s: Sched, out: seq<Item>, kv1: KV, kv2: KV, id: Id, hits: seq<BlockId>, rest: seq<Id>, it: Item)
    requires cfg.blockSize > 0 && Lists(s) && id in s.waiting && Fresh(out, id) && it.id == id
    requires forall x :: x in s.running ==> x in s.kv.tables
    requires AdmittedKv(cfg, s, kv1, kv2, id, hits, |it.chunk|)
    requires |hits| * cfg.blockSize + |it.chunk| <= s.reqs[id].NumTokens()
    ensures Extends(cfg, s, out, Admitted(s, id, rest, kv2, |hits| * cfg.blockSize), out + [it], id)
  {
    hide KvOk, TableOk, Leading;
    var s' := Admitted(s, id, rest, kv2, |hits| * cfg.blockSize);
    GrantedFresh(out, id);
    forall r ensures Granted(out + [it], r) == if r == id then |it.chunk| else Granted(out, r) { GrantedSnoc(out, it, r); }
    forall r | r in s'.running && r != id ensures r in s.running && TableOf(s'.kv, r) == TableOf(s.kv, r) {
      assert SameRow(kv1, kv2, r);
    }
  }

  /** A prefix hit hands the new request blocks that hold, or will hold, its own prefix. */
  lemma HitReady(net: Net, media: Media, cfg: Config, s: Sched, out: seq<Item>, kv1: KV, labels: Labels, id: Id, hits: seq<BlockId>, i: nat, o: nat)
    requires LInv(net, media, cfg, s, out, labels) && SameRowsAll(s.kv, kv1) && id in s.reqs && |kv1.pool.hash| == |s.kv.pool.hash|
    requires Leading(kv1.pool, cfg.blockSize, s.reqs[id].Tokens(), hits) && i < |hits| && o < cfg.blockSize
    requires forall b: nat :: b < |kv1.pool.hash| && kv1.pool.hash[b] != NoHash ==> kv1.pool.caching
    ensures i * cfg.blockSize + o + 1 <= |s.reqs[id].Tokens()|
    ensures Ready(s, out, cfg.blockSize, labels, hits[i], o, RowsFor(net, media, id, s.reqs[id].Tokens())[..i * cfg.blockSize + o + 1])
  {
    hide Inputs, Chain, Ready, HashWant, RunReady, Respects;
    var bs, toks := cfg.blockSize, s.reqs[id].Tokens();
    MulMono(i + 1, |hits|, bs);
    ChainStep(toks, bs, i);
    assert kv1.pool.hash[hits[i]] == Chain(toks, bs, i + 1);
    TokensFromPrompt(s.reqs[id]);
    HashWantIs(net, labels.book, bs, EmbedsOf(media, id), s.reqs[id].prompt, toks, i, o);
    assert HashReadyAt(s, out, bs, labels, hits[i], o);
  }

  lemma AdmitLabels(net: Net, media: Media, cfg: Config, s: Sched, out: seq<Item>, kv1: KV, kv2: KV, id: Id,
                    hits: seq<BlockId>, rest: seq<Id>, it: Item, labels: Labels)
    requires cfg.blockSize > 0 && Lists(s) && id in s.waiting && Fresh(out, id) && it.id == id
    requires forall x :: x in s.running ==> x in s.kv.tables
    requires AdmittedKv(cfg, s, kv1, kv2, id, hits, |it.chunk|)
    requires |hits| * cfg.blockSize + |it.chunk| <= s.reqs[id].NumTokens()
    requires LInv(net, media, cfg, s, out, labels)
    ensures LInv(net, media, cfg, Admitted(s, id, rest, kv2, |hits| * cfg.blockSize), out + [it], labels)
  {
    hide KvOk, TableOk, RunReadyAt, HashReady, Extends, Leading, RunReady, HashSources, OthersKept;
    var bs := cfg.blockSize;
    var s' := Admitted(s, id, rest, kv2, |hits| * bs);
    AdmitExtends(cfg, s, out, kv1, kv2, id, hits, rest, it);
    ExtendsPending(cfg, s, out, s', out + [it], id);
    CachingOnly(kv1, bs, hits);
    CachingOnly(kv2, bs, []);
    forall i: nat, o: nat ensures RunReadyAt(net, media, s', out + [it], bs, labels, id, i, o) {
      AdmittedReadyAt(net, media, cfg, s, out, kv1, labels, id, hits, s', out + [it], i, o);
    }
    ExtendsLabels(net, media, cfg, s, out, s', out + [it], labels, id);
  }

  lemma AdmittedReadyAt(net: Net, media: Media, cfg: Config, s: Sched, out: seq<Item>, kv1: KV, labels: Labels, id: Id,
                        hits: seq<BlockId>, s': Sched, out': seq<Item>, i: nat, o: nat)
    requires LInv(net, media, cfg, s, out, labels) && SameRowsAll(s.kv, kv1) && id in s.reqs && |kv1.pool.hash| == |s.kv.pool.hash|
    requires Leading(kv1.pool, cfg.blockSize, s.reqs[id].Tokens(), hits)
    requires forall b: nat :: b < |kv1.pool.hash| && kv1.pool.hash[b] != NoHash ==> kv1.pool.caching
    requires PendingKept(s, out, s', out', cfg.blockSize)
    requires id in s'.reqs && s'.reqs[id].Tokens() == s.reqs[id].Tokens() && s'.reqs[id].computed == |hits| * cfg.blockSize
    requires hits <= TableOf(s'.kv, id)
    ensures RunReadyAt(net, media, s', out', cfg.blockSize, labels, id, i, o)
  {
    hide Leading, Ready, RowsFor, LInv, PendingKept;
    var bs := cfg.blockSize;
    if o < bs && i * bs + o < |hits| * bs {
      MulStrict(i, |hits|, bs);
      HitReady(net, media, cfg, s, out, kv1, labels, id, hits, i, o);
      ReadyMono(s, out, s', out', bs, labels, hits[i], o, RowsFor(net, media, id, s.reqs[id].Tokens())[..i * bs + o + 1]);
    }
  }
}
