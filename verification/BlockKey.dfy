/** Chained block hashes of token sequences and the prefix lookup against cached blocks. */
module BlockKeys {

  const DEFAULT_BLOCK_SIZE := 256

  type Tokens = seq<nat>

  /** The hash of one block, given the adapter, the hash of the block before it and its tokens. */
  type BlockHash = (string, nat, Tokens) -> nat

  function Size(blockSize: int): (b: int)
    ensures 0 < b
  {
    if blockSize <= 0 then DEFAULT_BLOCK_SIZE else blockSize
  }

  // ----- Chunking

  function Chunks(tokens: Tokens, b: int): seq<Tokens>
    requires 0 < b
  {
    if tokens == [] then []
    else if |tokens| <= b then [tokens]
    else [tokens[..b]] + Chunks(tokens[b..], b)
  }

  /** The chunks from position `i` on. */
  ghost function Rest(tokens: Tokens, b: int, i: nat): seq<Tokens>
    requires 0 < b
  {
    if i < |tokens| then Chunks(tokens[i..], b) else []
  }

  lemma CutAt(tokens: Tokens, b: int, i: nat, j: nat)
    requires 0 < b && i < |tokens| && j == if i + b > |tokens| then |tokens| else i + b
    ensures Rest(tokens, b, i) == [tokens[i..j]] + Rest(tokens, b, i + b)
  {
    if j < |tokens| {
      assert tokens[i..][b..] == tokens[j..] && tokens[i..][..b] == tokens[i..j];
    } else {
      assert tokens[i..j] == tokens[i..];
    }
  }

  lemma Whole(tokens: Tokens, b: int)
    requires 0 < b
    ensures Chunks(tokens, b) == Rest(tokens, b, 0)
  {
    assert tokens[0..] == tokens;
  }

  /** Blocks of 256 tokens unless a positive size is given. */
  lemma SizeMeans(blockSize: int)
    ensures Size(blockSize) == if 0 < blockSize then blockSize else 256
  {
  }

  method ChunkTokens(tokens: Tokens, blockSize: int) returns (out: seq<Tokens>)
    ensures out == Chunks(tokens, Size(blockSize))
  {
    var b := blockSize;
    if b <= 0 { b := DEFAULT_BLOCK_SIZE; }
    out := [];
    var i := 0;
    Whole(tokens, b);
    hide Chunks;
    while i < |tokens|
      invariant 0 <= i
      invariant Chunks(tokens, b) == out + Rest(tokens, b, i)
    {
      hide Rest;
      var j := i + b;
      if j > |tokens| { j := |tokens|; }
      CutAt(tokens, b, i, j);
      assert out + ([tokens[i..j]] + Rest(tokens, b, i + b)) == (out + [tokens[i..j]]) + Rest(tokens, b, i + b);
      out := out + [tokens[i..j]];
      i := i + b;
    }
  }

  function Concat(chunks: seq<Tokens>): Tokens {
    if chunks == [] then [] else chunks[0] + Concat(chunks[1..])
  }

  /** The chunks spell out the input, all full except possibly the last, which is not empty. */
  lemma {:induction false} ChunksPartition(tokens: Tokens, b: int)
    requires 0 < b
    ensures
      var cs := Chunks(tokens, b);
      && Concat(cs) == tokens
      && (forall i :: 0 <= i < |cs| ==> 0 < |cs[i]| <= b)
      && (forall i :: 0 <= i < |cs| - 1 ==> |cs[i]| == b)
    decreases |tokens|
  {
    var cs := Chunks(tokens, b);
    if tokens == [] {
    } else if |tokens| <= b {
      assert cs[1..] == [] && Concat([]) == [];
    } else {
      ChunksPartition(tokens[b..], b);
      assert cs[1..] == Chunks(tokens[b..], b);
    }
  }

  /** Sharing leading chunks is sharing leading tokens: the first `k` chunks agree exactly if
      both inputs are cut at the same place after `k` chunks and agree up to there. */
  lemma {:induction false} SharedChunksAreSharedTokens(p: Tokens, q: Tokens, b: int, k: nat)
    requires 0 < b && k * b <= |p| && k * b <= |q|
    ensures k <= |Chunks(p, b)| && k <= |Chunks(q, b)|
    ensures Chunks(p, b)[..k] == Chunks(q, b)[..k] <==> p[..k * b] == q[..k * b]
  {
    if k > 0 {
      assert k * b == (k - 1) * b + b && (k - 1) * b >= 0;
      HeadAndRest(p, b);
      HeadAndRest(q, b);
      SharedChunksAreSharedTokens(p[b..], q[b..], b, k - 1);
      var cp, cq := Chunks(p, b), Chunks(q, b);
      assert cp[..k] == [p[..b]] + Chunks(p[b..], b)[..k - 1];
      assert cq[..k] == [q[..b]] + Chunks(q[b..], b)[..k - 1];
      assert p[..k * b] == p[..b] + p[b..][..(k - 1) * b];
      assert q[..k * b] == q[..b] + q[b..][..(k - 1) * b];
      assert |p[..b]| == |q[..b]| == b;
      Split(p[..k * b], q[..k * b], b);
      Cons(cp[..k], cq[..k]);
    }
  }

  lemma HeadAndRest(p: Tokens, b: int)
    requires 0 < b <= |p|
    ensures Chunks(p, b) == [p[..b]] + Chunks(p[b..], b)
  {
    if |p| == b { assert p[..b] == p && p[b..] == []; }
  }

  lemma Split(x: Tokens, y: Tokens, b: nat)
    requires b <= |x| && b <= |y|
    ensures x == y <==> x[..b] == y[..b] && x[b..] == y[b..]
  {
    assert x == x[..b] + x[b..] && y == y[..b] + y[b..];
  }

  lemma Cons(x: seq<Tokens>, y: seq<Tokens>)
    requires x != [] && y != []
    ensures x == y <==> x[0] == y[0] && x[1..] == y[1..]
  {
    assert x == [x[0]] + x[1..] && y == [y[0]] + y[1..];
  }

  // ----- Hashing

  /** The hash of every block, each chained to the one before, the first to zero. */
  function ChainHashes(h: BlockHash, adapter: string, chunks: seq<Tokens>): (r: seq<nat>)
    ensures |r| == |chunks|
  {
    if chunks == [] then []
    else
      var before := ChainHashes(h, adapter, chunks[..|chunks| - 1]);
      before + [h(adapter, if before == [] then 0 else before[|before| - 1], chunks[|chunks| - 1])]
  }

  method HashBlocks(h: BlockHash, tokens: Tokens, blockSize: int, adapter: string) returns (out: seq<nat>)
    ensures out == ChainHashes(h, adapter, Chunks(tokens, Size(blockSize)))
  {
    var chunks := ChunkTokens(tokens, blockSize);
    out := [];
    var parent := 0;
    for i := 0 to |chunks|
      invariant out == ChainHashes(h, adapter, chunks[..i])
      invariant parent == if i == 0 then 0 else out[i - 1]
    {
      assert chunks[..i + 1][..i] == chunks[..i];
      var key := h(adapter, parent, chunks[i]);
      out := out + [key];
      parent := key;
    }
    assert chunks[..|chunks|] == chunks;
  }

  /** What goes into the hash of one block. */
  datatype Block = Block(adapter: string, parent: nat, tokens: Tokens)

  function HashOf(h: BlockHash, x: Block): nat {
    h(x.adapter, x.parent, x.tokens)
  }

  /** What the hash is relied on for: among these blocks it has no collision and is never zero. */
  ghost predicate Separates(h: BlockHash, blocks: iset<Block>) {
    && (forall x, y :: x in blocks && y in blocks && HashOf(h, x) == HashOf(h, y) ==> x == y)
    && (forall x :: x in blocks ==> HashOf(h, x) != 0)
  }

  function BlockAt(h: BlockHash, adapter: string, chunks: seq<Tokens>, i: nat): Block
    requires i < |chunks|
  {
    Block(adapter, if i == 0 then 0 else ChainHashes(h, adapter, chunks)[i - 1], chunks[i])
  }

  /** All blocks hashed for these chunks are among `blocks`. */
  ghost predicate Among(h: BlockHash, adapter: string, chunks: seq<Tokens>, blocks: iset<Block>) {
    forall i :: 0 <= i < |chunks| ==> BlockAt(h, adapter, chunks, i) in blocks
  }

  lemma {:induction false} ChainAt(h: BlockHash, adapter: string, chunks: seq<Tokens>, i: nat)
    requires i < |chunks|
    ensures
      var r := ChainHashes(h, adapter, chunks);
      r[i] == h(adapter, if i == 0 then 0 else r[i - 1], chunks[i])
    decreases |chunks|
  {
    if i < |chunks| - 1 { ChainAt(h, adapter, chunks[..|chunks| - 1], i); }
  }

  /** A block hash knows its adapter, its position and everything before it: equal hashes mean
      the same adapter, equal positions and equal leading chunks. */
  lemma {:induction false} HashDeterminesPrefix(h: BlockHash, blocks: iset<Block>, a: string, xs: seq<Tokens>, i: nat,
                                                a': string, ys: seq<Tokens>, j: nat)
    requires Separates(h, blocks) && Among(h, a, xs, blocks) && Among(h, a', ys, blocks)
    requires i < |xs| && j < |ys| && ChainHashes(h, a, xs)[i] == ChainHashes(h, a', ys)[j]
    ensures a == a' && i == j && xs[..i + 1] == ys[..j + 1]
  {
    hide ChainHashes;
    ChainAt(h, a, xs, i);
    ChainAt(h, a', ys, j);
    var x, y := BlockAt(h, a, xs, i), BlockAt(h, a', ys, j);
    assert HashOf(h, x) == HashOf(h, y) && x == y;
    if i > 0 { ParentIsNotZero(h, blocks, a, xs, i); }
    if j > 0 { ParentIsNotZero(h, blocks, a', ys, j); }
    if i > 0 && j > 0 {
      HashDeterminesPrefix(h, blocks, a, xs, i - 1, a', ys, j - 1);
      assert xs[..i + 1] == xs[..i] + [xs[i]] && ys[..j + 1] == ys[..j] + [ys[j]];
    } else {
      assert xs[..1] == [xs[0]] && ys[..1] == [ys[0]];
    }
  }

  lemma ParentIsNotZero(h: BlockHash, blocks: iset<Block>, adapter: string, xs: seq<Tokens>, i: nat)
    requires Separates(h, blocks) && Among(h, adapter, xs, blocks) && 0 < i < |xs|
    ensures BlockAt(h, adapter, xs, i).parent != 0
  {
    hide ChainHashes;
    ChainAt(h, adapter, xs, i - 1);
    assert HashOf(h, BlockAt(h, adapter, xs, i - 1)) != 0;
  }

  /** Equal leading chunks have equal hashes. */
  lemma {:induction false} PrefixDeterminesHash(h: BlockHash, adapter: string, xs: seq<Tokens>, ys: seq<Tokens>, n: nat)
    requires n <= |xs| && n <= |ys| && xs[..n] == ys[..n]
    ensures ChainHashes(h, adapter, xs)[..n] == ChainHashes(h, adapter, ys)[..n]
  {
    hide ChainHashes;
    if n > 0 {
      assert xs[..n - 1] == xs[..n][..n - 1] && ys[..n - 1] == ys[..n][..n - 1];
      PrefixDeterminesHash(h, adapter, xs, ys, n - 1);
      ChainAt(h, adapter, xs, n - 1);
      ChainAt(h, adapter, ys, n - 1);
      var a, b := ChainHashes(h, adapter, xs), ChainHashes(h, adapter, ys);
      assert xs[n - 1] == xs[..n][n - 1] == ys[n - 1];
      if n > 1 { assert a[n - 2] == a[..n - 1][n - 2] == b[n - 2]; }
      assert a[..n] == a[..n - 1] + [a[n - 1]] && b[..n] == b[..n - 1] + [b[n - 1]];
    }
  }

  // ----- The lookup

  /** How many leading hashes are present. */
  function Leading(want: seq<nat>, have: map<nat, real>): (n: nat)
    ensures n <= |want|
    ensures forall i :: 0 <= i < n ==> want[i] in have
    ensures n < |want| ==> want[n] !in have
  {
    if want == [] || want[0] !in have then 0 else 1 + Leading(want[1..], have)
  }

  function Worth(w: real): real {
    DEFAULT_BLOCK_SIZE as real * if w <= 0.0 then 1.0 else w
  }

  function Worths(want: seq<nat>, have: map<nat, real>): real
    requires forall i :: 0 <= i < |want| ==> want[i] in have
  {
    if want == [] then 0.0
    else
      assert want[|want| - 1] in have;
      Worths(want[..|want| - 1], have) + Worth(have[want[|want| - 1]])
  }

  method LongestConsecutivePrefix(want: seq<nat>, have: map<nat, real>) returns (blocks: nat, score: real)
    ensures blocks == Leading(want, have) && score == Worths(want[..blocks], have)
  {
    blocks, score := 0, 0.0;
    for i := 0 to |want|
      invariant blocks == i && (forall k :: 0 <= k < i ==> want[k] in have)
      invariant score == Worths(want[..i], have)
    {
      if want[i] !in have {
        LeadingUnique(want, have, i);
        break;
      }
      assert want[..i + 1][..i] == want[..i];
      var w := have[want[i]];
      blocks := blocks + 1;
      if w <= 0.0 { w := 1.0; }
      score := score + DEFAULT_BLOCK_SIZE as real * w;
    }
    LeadingUnique(want, have, blocks);
  }

  lemma LeadingUnique(want: seq<nat>, have: map<nat, real>, n: nat)
    requires n <= |want| && (forall i :: 0 <= i < n ==> want[i] in have) && (n < |want| ==> want[n] !in have)
    ensures Leading(want, have) == n
  {
  }

  /** A block is worth its weight in blocks of 256; a weight that is not positive counts as one. */
  lemma WorthMeans(w: real)
    ensures Worth(w) == if 0.0 < w then w * 256.0 else 256.0
  {
  }

  /** With weights between `lo` and one, as the registry assigns them, the score lies between `lo`
      and one default block per block found. */
  lemma {:induction false} ScoreCountsBlocks(want: seq<nat>, have: map<nat, real>, lo: real)
    requires 0.0 < lo && forall i :: 0 <= i < |want| ==> want[i] in have && lo <= have[want[i]] <= 1.0
    ensures lo * (DEFAULT_BLOCK_SIZE * |want|) as real <= Worths(want, have) <= (DEFAULT_BLOCK_SIZE * |want|) as real
  {
    if want != [] {
      var n := |want|;
      ScoreCountsBlocks(want[..n - 1], have, lo);
      assert want[n - 1] in have;
      assert (DEFAULT_BLOCK_SIZE * n) as real == (DEFAULT_BLOCK_SIZE * (n - 1)) as real + DEFAULT_BLOCK_SIZE as real;
      assert lo * (DEFAULT_BLOCK_SIZE * n) as real
             == lo * (DEFAULT_BLOCK_SIZE * (n - 1)) as real + lo * DEFAULT_BLOCK_SIZE as real;
    }
  }

  // ----- The lookup finds the longest shared prefix

  /** How many leading chunks two chunk sequences share. */
  function Shared(xs: seq<Tokens>, ys: seq<Tokens>): (n: nat)
    ensures n <= |xs| && n <= |ys| && xs[..n] == ys[..n]
    ensures n < |xs| && n < |ys| ==> xs[n] != ys[n]
  {
    if xs == [] || ys == [] || xs[0] != ys[0] then 0
    else
      var n := Shared(xs[1..], ys[1..]);
      assert xs[..n + 1] == [xs[0]] + xs[1..][..n] && ys[..n + 1] == [ys[0]] + ys[1..][..n];
      n + 1
  }

  lemma SharedIsLongest(xs: seq<Tokens>, ys: seq<Tokens>, n: nat)
    requires n <= |xs| && n <= |ys| && xs[..n] == ys[..n]
    ensures n <= Shared(xs, ys)
  {
    assert forall i :: 0 <= i < n ==> xs[i] == xs[..n][i] == ys[..n][i] == ys[i];
  }

  /** Equal hashes are exactly shared prefixes, so a hash of the query is among those of a cached
      prompt exactly if the adapters are the same and the two share more than that many chunks. */
  lemma HashIsShared(h: BlockHash, blocks: iset<Block>, a: string, q: seq<Tokens>, i: nat, a': string, c: seq<Tokens>)
    requires Separates(h, blocks) && Among(h, a, q, blocks) && Among(h, a', c, blocks) && i < |q|
    ensures ChainHashes(h, a, q)[i] in ChainHashes(h, a', c) <==> a == a' && i < Shared(q, c)
  {
    hide ChainHashes, Separates, Among;
    var x, y := ChainHashes(h, a, q), ChainHashes(h, a', c);
    if x[i] in y {
      var j :| 0 <= j < |y| && y[j] == x[i];
      HashDeterminesPrefix(h, blocks, a, q, i, a', c, j);
      SharedIsLongest(q, c, i + 1);
    }
    if a == a' && i < Shared(q, c) {
      var n := Shared(q, c);
      PrefixDeterminesHash(h, a, q, c, n);
      assert x[i] == x[..n][i] == y[..n][i] == y[i];
    }
  }

  /** A prompt, already cut into chunks of whatever size, under an adapter. */
  datatype Prompt = Prompt(adapter: string, chunks: seq<Tokens>)

  /** Exactly the hashes of the blocks of the cached prompts are present. */
  ghost predicate Caches(h: BlockHash, prompts: set<Prompt>, have: map<nat, real>) {
    forall x :: x in have <==> exists p :: p in prompts && x in ChainHashes(h, p.adapter, p.chunks)
  }

  /** The lookup, which knows neither positions nor prompts nor adapters, counts exactly the longest
      leading run of chunks the query shares with a single cached prompt of its own adapter. */
  lemma LookupIsLongestSharedPrefix(h: BlockHash, blocks: iset<Block>, prompts: set<Prompt>, have: map<nat, real>,
                                    query: Prompt)
    requires Separates(h, blocks) && Caches(h, prompts, have) && Among(h, query.adapter, query.chunks, blocks)
    requires forall p :: p in prompts ==> Among(h, p.adapter, p.chunks, blocks)
    ensures
      var n := Leading(ChainHashes(h, query.adapter, query.chunks), have);
      && (forall p :: p in prompts && p.adapter == query.adapter ==> Shared(query.chunks, p.chunks) <= n)
      && (n > 0 ==>
           exists p :: p in prompts && p.adapter == query.adapter && Shared(query.chunks, p.chunks) == n)
  {
    hide ChainHashes, Separates, Among;
    var a, q := query.adapter, query.chunks;
    var want := ChainHashes(h, a, q);
    var n := Leading(want, have);
    forall p | p in prompts && p.adapter == a ensures Shared(q, p.chunks) <= n {
      if n < Shared(q, p.chunks) { HashIsShared(h, blocks, a, q, n, a, p.chunks); }
    }
    if n > 0 {
      assert want[n - 1] in have;
      var p :| p in prompts && want[n - 1] in ChainHashes(h, p.adapter, p.chunks);
      HashIsShared(h, blocks, a, q, n - 1, p.adapter, p.chunks);
      assert Shared(q, p.chunks) == n;
    }
  }
}
