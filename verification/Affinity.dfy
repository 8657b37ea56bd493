/** Prefix keys and rendezvous hashing: which worker a prompt prefers. */
module Rendezvous {
  import opened Prelude
  import TextOrder

  /** The score of a worker for a key; the concrete 64-bit hash is a parameter. */
  type Score = (nat, string) -> nat

  /** `a` is preferred over `b`: higher score, and on equal scores the smaller name. */
  predicate Beats(h: Score, key: nat, a: string, b: string) {
    h(key, a) > h(key, b) || (h(key, a) == h(key, b) && TextOrder.Less(a, b))
  }

  ghost predicate IsPick(h: Score, key: nat, ids: seq<string>, w: string) {
    w in ids && forall v :: v in ids && v != w ==> Beats(h, key, w, v)
  }

  function Pick(h: Score, key: nat, ids: seq<string>): string {
    if ids == [] then ""
    else
      var last := ids[|ids| - 1];
      if |ids| == 1 then last
      else
        var best := Pick(h, key, ids[..|ids| - 1]);
        if Beats(h, key, last, best) then last else best
  }

  method HRWPick(h: Score, key: nat, workerIDs: seq<string>) returns (best: string)
    ensures best == Pick(h, key, workerIDs)
  {
    best := "";
    var bestScore := 0;
    for i := 0 to |workerIDs|
      invariant best == Pick(h, key, workerIDs[..i]) && (0 < i ==> bestScore == h(key, best))
    {
      assert workerIDs[..i + 1][..i] == workerIDs[..i];
      var w := workerIDs[i];
      var s := h(key, w);
      if i == 0 || s > bestScore || (s == bestScore && TextOrder.Less(w, best)) {
        bestScore, best := s, w;
      }
    }
    assert workerIDs[..|workerIDs|] == workerIDs;
  }

  lemma BeatsTotal(h: Score, key: nat, a: string, b: string)
    ensures a != b ==> Beats(h, key, a, b) || Beats(h, key, b, a)
    ensures !(Beats(h, key, a, b) && Beats(h, key, b, a))
  {
    TextOrder.Trichotomy(a, b);
    if TextOrder.Less(a, b) && TextOrder.Less(b, a) {
      TextOrder.Transitive(a, b, a);
    }
    TextOrder.Irreflexive(a);
  }

  lemma BeatsTransitive(h: Score, key: nat, a: string, b: string, c: string)
    requires Beats(h, key, a, b) && Beats(h, key, b, c)
    ensures Beats(h, key, a, c)
  {
    if TextOrder.Less(a, b) && TextOrder.Less(b, c) { TextOrder.Transitive(a, b, c); }
  }

  /** The loop finds the worker that beats every other one. */
  lemma {:induction false} PickIsBest(h: Score, key: nat, ids: seq<string>)
    requires ids != []
    ensures IsPick(h, key, ids, Pick(h, key, ids))
    ensures
      var w := Pick(h, key, ids);
      forall v :: v in ids && v != w ==> h(key, v) < h(key, w) || (h(key, v) == h(key, w) && TextOrder.Less(w, v))
  {
    if |ids| > 1 {
      var init, last := ids[..|ids| - 1], ids[|ids| - 1];
      PickIsBest(h, key, init);
      var best := Pick(h, key, init);
      BeatsTotal(h, key, last, best);
      forall v | v in ids && v != Pick(h, key, ids) ensures Beats(h, key, Pick(h, key, ids), v) {
        assert v in init || v == last;
        if Beats(h, key, last, best) && v != best { BeatsTransitive(h, key, last, best, v); }
      }
    }
  }

  lemma PickIsUnique(h: Score, key: nat, ids: seq<string>, v: string, w: string)
    requires IsPick(h, key, ids, v) && IsPick(h, key, ids, w)
    ensures v == w
  {
    BeatsTotal(h, key, v, w);
  }

  /** The pick is the unique maximum: it does not depend on the order or on repetitions. */
  lemma PickIgnoresOrder(h: Score, key: nat, xs: seq<string>, ys: seq<string>)
    requires forall w :: w in xs <==> w in ys
    ensures Pick(h, key, xs) == Pick(h, key, ys)
  {
    hide Beats;
    assert xs != [] ==> xs[0] in ys;
    assert ys != [] ==> ys[0] in xs;
    if xs != [] {
      PickIsBest(h, key, xs);
      PickIsBest(h, key, ys);
      PickIsUnique(h, key, xs, Pick(h, key, xs), Pick(h, key, ys));
    }
  }

  /** Minimal disruption: as long as the picked worker survives, losing others changes nothing. */
  lemma PickSurvives(h: Score, key: nat, xs: seq<string>, ys: seq<string>)
    requires (forall w :: w in ys ==> w in xs) && Pick(h, key, xs) in ys
    ensures Pick(h, key, ys) == Pick(h, key, xs)
  {
    hide Beats;
    PickIsBest(h, key, xs);
    PickIsBest(h, key, ys);
    PickIsUnique(h, key, ys, Pick(h, key, xs), Pick(h, key, ys));
  }

  /** Adding workers moves a key only to one of the added ones. */
  lemma PickMovesOnlyToNew(h: Score, key: nat, xs: seq<string>, ys: seq<string>)
    requires (forall w :: w in xs ==> w in ys) && ys != []
    ensures Pick(h, key, ys) == Pick(h, key, xs) || Pick(h, key, ys) !in xs
  {
    PickIsBest(h, key, ys);
    if Pick(h, key, ys) in xs { PickSurvives(h, key, ys, xs); }
  }

  // ----- The key of a prompt

  /** The hash of a byte string. */
  type Sum = string -> nat

  function Window(window: int): int { if window <= 0 then 1024 else window }

  function Block(blockBytes: int): int { if blockBytes <= 0 then 64 else blockBytes }

  function PrefixKey(sum: Sum, prompt: string, window: int, blockBytes: int): nat {
    var n := if |prompt| < Window(window) then |prompt| else Window(window);
    var whole := n - n % Block(blockBytes);
    if whole <= 0 then (if prompt == "" then 0 else sum(prompt)) else sum(prompt[..whole])
  }

  ghost predicate AgreeOnWindow(p: string, q: string, window: int) {
    var w := Window(window);
    w <= |p| && w <= |q| && p[..w] == q[..w]
  }

  lemma SameWindowSameKey(sum: Sum, p: string, q: string, window: int, blockBytes: int)
    requires AgreeOnWindow(p, q, window) && Block(blockBytes) <= Window(window)
    ensures PrefixKey(sum, p, window, blockBytes) == PrefixKey(sum, q, window, blockBytes)
  {
    var w := Window(window);
    var whole := w - w % Block(blockBytes);
    assert 0 < whole <= w by { Prefixes(w, Block(blockBytes)); }
    assert p[..whole] == p[..w][..whole] && q[..whole] == q[..w][..whole];
  }

  lemma Prefixes(w: int, b: int)
    requires 0 < b <= w
    ensures 0 < w - w % b <= w
  {
    assert 0 <= w % b < b;
  }

  ghost predicate Injective(sum: Sum) {
    forall p, q :: sum(p) == sum(q) ==> p == q
  }

  function Filled(n: nat, last: char): string {
    seq(n, i => 'x') + [last]
  }

  /** With a hash that separates strings, the key depends on nothing beyond the window exactly
      when the window holds at least one block; a smaller window hashes the whole prompt. */
  lemma KeyIgnoresTailIff(sum: Sum, window: int, blockBytes: int)
    requires Injective(sum)
    ensures (forall p, q :: AgreeOnWindow(p, q, window) ==>
               PrefixKey(sum, p, window, blockBytes) == PrefixKey(sum, q, window, blockBytes))
            <==> Block(blockBytes) <= Window(window)
  {
    var w := Window(window);
    if Block(blockBytes) <= w {
      forall p, q | AgreeOnWindow(p, q, window)
        ensures PrefixKey(sum, p, window, blockBytes) == PrefixKey(sum, q, window, blockBytes)
      {
        SameWindowSameKey(sum, p, q, window, blockBytes);
      }
    } else {
      var p, q := Filled(w, 'a'), Filled(w, 'b');
      assert p[..w] == q[..w] && AgreeOnWindow(p, q, window);
      assert p[w] != q[w];
      assert w % Block(blockBytes) == w;
    }
  }

  /** What is hashed: of a window of at most 1024 bytes by default, as many whole blocks, of 64 bytes
      by default, as the prompt fills; a prompt that fills none is hashed whole. */
  lemma KeyMeans(sum: Sum, prompt: string, window: int, blockBytes: int, blocks: nat)
    requires
      var w, b := if window <= 0 then 1024 else window, if blockBytes <= 0 then 64 else blockBytes;
      blocks * b <= |prompt| && blocks * b <= w && (|prompt| < blocks * b + b || w < blocks * b + b)
    ensures
      var b := if blockBytes <= 0 then 64 else blockBytes;
      PrefixKey(sum, prompt, window, blockBytes)
      == if prompt == "" then 0 else if blocks == 0 then sum(prompt) else sum(prompt[..blocks * b])
  {
    var w, b := if window <= 0 then 1024 else window, if blockBytes <= 0 then 64 else blockBytes;
    var n := if |prompt| < w then |prompt| else w;
    WholeBlocks(n, b, blocks, blocks * b);
  }

  lemma WholeBlocks(n: nat, b: int, blocks: nat, whole: int)
    requires 0 < b && whole == blocks * b && whole <= n < whole + b
    ensures n - n % b == whole >= 0 && (blocks == 0 <==> whole == 0)
  {
    FloorUnique(n, blocks, b);
    assert n == n / b * b + n % b;
    LessScaled(0, blocks, b);
  }
}
