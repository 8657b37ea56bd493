/** The bytes a block hash is computed from, and what they determine. */
module BlockBytes {

  type Bytes = seq<nat>

  /** The `k` low bytes of `v`, least significant first. */
  function LittleEndian(v: nat, k: nat): (r: Bytes)
    ensures |r| == k
  {
    if k == 0 then [] else [v % 256] + LittleEndian(v / 256, k - 1)
  }

  function Limit(k: nat): (n: nat)
    ensures 0 < n
  {
    if k == 0 then 1 else 256 * Limit(k - 1)
  }

  function Words(tokens: seq<nat>): (r: Bytes)
    ensures |r| == 4 * |tokens|
  {
    if tokens == [] then [] else LittleEndian(tokens[0], 4) + Words(tokens[1..])
  }

  /** The adapter's bytes, undelimited, the parent hash, the number of tokens, the tokens. */
  function Preimage(adapter: Bytes, parent: nat, tokens: seq<nat>): Bytes {
    adapter + LittleEndian(parent, 8) + LittleEndian(|tokens|, 4) + Words(tokens)
  }

  lemma {:induction false} DigitsDetermine(v: nat, w: nat, k: nat)
    requires v < Limit(k) && w < Limit(k) && LittleEndian(v, k) == LittleEndian(w, k)
    ensures v == w
  {
    if k > 0 {
      var x, y := LittleEndian(v, k), LittleEndian(w, k);
      assert v % 256 == x[0] == y[0] == w % 256;
      assert x[1..] == LittleEndian(v / 256, k - 1) && y[1..] == LittleEndian(w / 256, k - 1);
      DigitsDetermine(v / 256, w / 256, k - 1);
    }
  }

  ghost predicate AreWords(tokens: seq<nat>) {
    forall i :: 0 <= i < |tokens| ==> tokens[i] < Limit(4)
  }

  lemma {:induction false} WordsDetermine(s: seq<nat>, t: seq<nat>)
    requires AreWords(s) && AreWords(t) && Words(s) == Words(t)
    ensures s == t
  {
    hide LittleEndian;
    if s != [] {
      var x, y := Words(s), Words(t);
      assert x[..4] == LittleEndian(s[0], 4) && y[..4] == LittleEndian(t[0], 4);
      assert x[4..] == Words(s[1..]) && y[4..] == Words(t[1..]);
      DigitsDetermine(s[0], t[0], 4);
      WordsDetermine(s[1..], t[1..]);
      assert s == [s[0]] + s[1..] && t == [t[0]] + t[1..];
    }
  }

  /** Adapters of one length, in particular one adapter, cannot be confused: the bytes determine
      adapter, parent and tokens. */
  lemma PreimageDeterminesBlock(a: Bytes, p: nat, s: seq<nat>, a': Bytes, p': nat, s': seq<nat>)
    requires p < Limit(8) && p' < Limit(8) && AreWords(s) && AreWords(s') && |a| == |a'|
    requires Preimage(a, p, s) == Preimage(a', p', s')
    ensures a == a' && p == p' && s == s'
  {
    hide LittleEndian, Words, Limit, AreWords;
    var x, y, n := Preimage(a, p, s), Preimage(a', p', s'), |a|;
    assert x[..n] == a && y[..n] == a';
    assert x[n..n + 8] == LittleEndian(p, 8) && y[n..n + 8] == LittleEndian(p', 8);
    assert x[n + 12..] == Words(s) && y[n + 12..] == Words(s');
    DigitsDetermine(p, p', 8);
    WordsDetermine(s, s');
  }

  // ----- Which adapters can be confused

  /** Otherwise only adapters one of which extends the other, by a multiple of four bytes, can. */
  lemma ConfusedAdapters(a: Bytes, p: nat, s: seq<nat>, a': Bytes, p': nat, s': seq<nat>)
    requires Preimage(a, p, s) == Preimage(a', p', s') && |a| <= |a'|
    ensures a <= a' && |a'| - |a| == 4 * (|s| - |s'|)
  {
    hide LittleEndian, Words;
    var x, y := Preimage(a, p, s), Preimage(a', p', s');
    assert x[..|a|] == a && y[..|a'|] == a';
    assert a'[..|a|] == y[..|a|] == a;
  }

  /** The number a sequence of bytes spells, least significant first. */
  function Value(b: Bytes): nat {
    if b == [] then 0 else b[0] + 256 * Value(b[1..])
  }

  ghost predicate AreBytes(b: Bytes) {
    forall i :: 0 <= i < |b| ==> b[i] < 256
  }

  lemma {:induction false} ValueSpells(b: Bytes)
    requires AreBytes(b)
    ensures Value(b) < Limit(|b|) && LittleEndian(Value(b), |b|) == b
  {
    if b != [] {
      ValueSpells(b[1..]);
      var v := Value(b[1..]);
      assert (b[0] + 256 * v) % 256 == b[0] && (b[0] + 256 * v) / 256 == v;
    }
  }

  /** Bytes read as words. */
  function Unwords(b: Bytes): (r: seq<nat>)
    requires |b| % 4 == 0
    ensures |b| == 4 * |r|
    decreases |b|
  {
    if b == [] then [] else [Value(b[..4])] + Unwords(b[4..])
  }

  lemma {:induction false} UnwordsSpell(b: Bytes)
    requires |b| % 4 == 0 && AreBytes(b)
    ensures AreWords(Unwords(b)) && Words(Unwords(b)) == b
    decreases |b|
  {
    hide LittleEndian, Value, Limit;
    if b != [] {
      ValueSpells(b[..4]);
      UnwordsSpell(b[4..]);
      assert Unwords(b)[1..] == Unwords(b[4..]);
      assert b == b[..4] + b[4..];
    }
  }

  lemma UnwordsThird(b: Bytes)
    requires |b| % 4 == 0 && |b| >= 12
    ensures Unwords(b)[0] == Value(b[..4]) && Unwords(b)[1] == Value(b[4..8]) && Unwords(b)[2] == Value(b[8..12])
  {
    hide Value;
    var c := b[4..];
    var d := c[4..];
    assert c[..4] == b[4..8] && d[..4] == b[8..12];
    assert Unwords(b)[1] == Unwords(c)[0] && Unwords(b)[2] == Unwords(c)[1] == Unwords(d)[0];
  }

  lemma {:induction false} WordsAppend(x: seq<nat>, y: seq<nat>)
    ensures Words(x + y) == Words(x) + Words(y)
  {
    hide LittleEndian;
    if x == [] {
      assert x + y == y;
    } else {
      WordsAppend(x[1..], y);
      assert (x + y)[1..] == x[1..] + y;
    }
  }

  /** What follows the adapter, as words: the halves of the parent, the count, the tokens. */
  function Frame(parent: nat, tokens: seq<nat>): (r: seq<nat>)
    ensures |r| == 3 + |tokens|
  {
    [parent % Limit(4), parent / Limit(4), |tokens|] + tokens
  }

  lemma TwoHalves(low: nat, high: nat)
    requires low < Limit(4)
    ensures LittleEndian(low + high * Limit(4), 8) == LittleEndian(low, 4) + LittleEndian(high, 4)
  {
    Halve(low, high, 4);
  }

  lemma {:induction false} Halve(low: nat, high: nat, k: nat)
    requires low < Limit(k)
    ensures LittleEndian(low + high * Limit(k), k + 4) == LittleEndian(low, k) + LittleEndian(high, 4)
  {
    if k == 0 {
      assert low == 0 && high * Limit(k) == high;
    } else {
      var m := high * Limit(k - 1);
      assert high * Limit(k) == 256 * m;
      var v := low + 256 * m;
      assert v % 256 == low % 256 && v / 256 == low / 256 + m;
      Halve(low / 256, high, k - 1);
    }
  }

  lemma ThreeWords(x: nat, y: nat, z: nat)
    ensures Words([x, y, z]) == LittleEndian(x, 4) + LittleEndian(y, 4) + LittleEndian(z, 4)
  {
    hide LittleEndian;
    assert [x, y, z][1..] == [y, z] && [y, z][1..] == [z] && [z][1..] == [] && Words([]) == [];
    assert Words([z]) == LittleEndian(z, 4) && Words([y, z]) == LittleEndian(y, 4) + LittleEndian(z, 4);
  }

  lemma DivMod(v: nat, m: nat)
    requires 0 < m
    ensures v == v % m + v / m * m && v % m < m
  {
  }

  lemma PreimageIsFramed(a: Bytes, p: nat, s: seq<nat>)
    ensures Preimage(a, p, s) == a + Words(Frame(p, s))
  {
    hide LittleEndian, Limit, Words;
    var low, high := p % Limit(4), p / Limit(4);
    DivMod(p, Limit(4));
    TwoHalves(low, high);
    ThreeWords(low, high, |s|);
    WordsAppend([low, high, |s|], s);
  }

  /** A block as the code hashes it: a 64-bit parent, and at least one and fewer than 2^32 tokens
      of 32 bits. */
  ghost predicate IsBlock(p: nat, s: seq<nat>) {
    p < Limit(8) && AreWords(s) && 0 < |s| < Limit(4)
  }

  lemma FrameIsWords(p: nat, s: seq<nat>)
    requires IsBlock(p, s)
    ensures AreWords(Frame(p, s))
  {
    assert Limit(8) == Limit(4) * Limit(4);
  }

  lemma FrameOf(x: seq<nat>)
    requires |x| > 3 && AreWords(x) && x[2] == |x| - 3
    ensures
      var p := x[0] + x[1] * Limit(4);
      IsBlock(p, x[3..]) && Frame(p, x[3..]) == x
  {
    var m, p := Limit(4), x[0] + x[1] * Limit(4);
    assert Limit(8) == m * m;
    assert p % m == x[0] && p / m == x[1];
    assert [x[0], x[1], x[2]] + x[3..] == x;
  }

  ghost predicate SameBytes(a: Bytes, p: nat, s: seq<nat>, a': Bytes, p': nat, s': seq<nat>) {
    IsBlock(p, s) && IsBlock(p', s') && Preimage(a, p, s) == Preimage(a', p', s')
  }

  /** Equal bytes need one adapter to extend the other, by whole words that then start its frame. */
  lemma SameBytesIff(a: Bytes, p: nat, s: seq<nat>, a': Bytes, p': nat, s': seq<nat>)
    requires |a| <= |a'| && AreBytes(a') && IsBlock(p, s) && IsBlock(p', s')
    ensures Preimage(a, p, s) == Preimage(a', p', s')
            <==> && a <= a' && (|a'| - |a|) % 4 == 0
                 && Frame(p, s) == Unwords(a'[|a|..]) + Frame(p', s')
  {
    hide Frame, Words, Unwords, AreWords, IsBlock;
    var f, f' := Frame(p, s), Frame(p', s');
    PreimageIsFramed(a, p, s);
    PreimageIsFramed(a', p', s');
    FrameIsWords(p, s);
    FrameIsWords(p', s');
    var x, y, n := a + Words(f), a' + Words(f'), |a|;
    assert x[..n] == a && x[n..] == Words(f) && y[..n] == a'[..n] && y[n..] == a'[n..] + Words(f');
    assert x == x[..n] + x[n..] && y == y[..n] + y[n..];
    if x == y { ConfusedAdapters(a, p, s, a', p', s'); }
    if a <= a' && (|a'| - n) % 4 == 0 {
      var e := Unwords(a'[n..]);
      UnwordsSpell(a'[n..]);
      WordsAppend(e, f');
      WordsJoin(e, f');
      if x == y { WordsDetermine(f, e + f'); }
    }
  }

  lemma WordsJoin(x: seq<nat>, y: seq<nat>)
    requires AreWords(x) && AreWords(y)
    ensures AreWords(x + y)
  {
  }

  /** The longer adapter extends the other by whole words; three words or more must carry, as the
      third, a count of tokens that exceeds the number of these words. */
  ghost predicate Extends(a: Bytes, a': Bytes) {
    |a| < |a'| && a <= a' &&
    var ext := a'[|a|..];
    |ext| % 4 == 0 && (|ext| / 4 <= 2 || Value(ext[8..12]) > |ext| / 4)
  }

  lemma SameBytesExtend(a: Bytes, p: nat, s: seq<nat>, a': Bytes, p': nat, s': seq<nat>)
    requires |a| < |a'| && AreBytes(a') && SameBytes(a, p, s, a', p', s')
    ensures Extends(a, a')
  {
    hide Words, Value, Unwords, IsBlock, Preimage;
    SameBytesIff(a, p, s, a', p', s');
    var ext := a'[|a|..];
    var e := Unwords(ext);
    if |e| > 2 {
      UnwordsThird(ext);
      assert Frame(p, s)[2] == (e + Frame(p', s'))[2] == e[2];
      TokensOf(p', s');
    }
  }

  lemma TokensOf(p: nat, s: seq<nat>)
    requires IsBlock(p, s)
    ensures 0 < |s| < Limit(4)
  {
  }

  /** The parent of the longer adapter's block that makes the third word of the frame the count. */
  function Joint(d: nat): nat {
    if d == 1 then 2 * Limit(4) else if d == 2 then 3 else 0
  }

  lemma ExtendSameBytes(a: Bytes, a': Bytes) returns (p: nat, s: seq<nat>, p': nat, s': seq<nat>)
    requires AreBytes(a') && Extends(a, a')
    ensures SameBytes(a, p, s, a', p', s')
  {
    hide Words, Value, Preimage, Unwords;
    var ext := a'[|a|..];
    var e := Unwords(ext);
    var d := |e|;
    UnwordsSpell(ext);
    if d > 2 { UnwordsThird(ext); }
    var n := if d <= 2 then 1 else e[2] - d;
    p', s' := Joint(d), seq(n, _ => 0);
    JointFrame(d, s');
    var x := e + Frame(p', s');
    FrameIsWords(p', s');
    WordsJoin(e, Frame(p', s'));
    FrameOf(x);
    p, s := x[0] + x[1] * Limit(4), x[3..];
    SameBytesIff(a, p, s, a', p', s');
  }

  lemma JointFrame(d: nat, s: seq<nat>)
    requires AreWords(s) && 0 < |s| < Limit(4)
    ensures
      var f := Frame(Joint(d), s);
      IsBlock(Joint(d), s) && (d == 1 ==> f[1] == 2) && (d == 2 ==> f[0] == 3)
  {
  }

  /** Exactly which adapters can be confused: two adapters have blocks with the same bytes, over
      all 64-bit parents, exactly if they are the same or one extends the other in this way. */
  lemma ConfusableIff(a: Bytes, a': Bytes)
    requires AreBytes(a) && AreBytes(a')
    ensures (exists p, s, p', s' :: SameBytes(a, p, s, a', p', s')) <==> a == a' || Extends(a, a') || Extends(a', a)
  {
    hide Preimage, Extends, SameBytes;
    forall p, s, p', s' | SameBytes(a, p, s, a', p', s') ensures a == a' || Extends(a, a') || Extends(a', a) {
      SameBytesSymmetric(a, p, s, a', p', s');
      if |a| < |a'| {
        SameBytesExtend(a, p, s, a', p', s');
      } else if |a'| < |a| {
        SameBytesExtend(a', p', s', a, p, s);
      } else {
        SameLength(a, p, s, a', p', s');
      }
    }
    if a == a' {
      SameBlock(a);
    } else if Extends(a, a') {
      var p, s, p', s' := ExtendSameBytes(a, a');
    } else if Extends(a', a) {
      var p', s', p, s := ExtendSameBytes(a', a);
      SameBytesSymmetric(a', p', s', a, p, s);
    }
  }

  lemma SameBytesSymmetric(a: Bytes, p: nat, s: seq<nat>, a': Bytes, p': nat, s': seq<nat>)
    ensures SameBytes(a, p, s, a', p', s') <==> SameBytes(a', p', s', a, p, s)
  {
    hide Preimage, IsBlock;
  }

  lemma SameLength(a: Bytes, p: nat, s: seq<nat>, a': Bytes, p': nat, s': seq<nat>)
    requires SameBytes(a, p, s, a', p', s') && |a| == |a'|
    ensures a == a' && p == p' && s == s'
  {
    hide Preimage;
    PreimageDeterminesBlock(a, p, s, a', p', s');
  }

  lemma SameBlock(a: Bytes)
    ensures SameBytes(a, 0, [0], a, 0, [0])
  {
  }

  lemma OneWord(token: nat)
    ensures Words([token]) == LittleEndian(token, 4) && Words([1, token]) == LittleEndian(1, 4) + LittleEndian(token, 4)
  {
    hide LittleEndian;
    assert [1, token][1..] == [token] && [token][1..] == [] && Words([]) == [];
  }

  lemma Regroup(a: Bytes, l: Bytes, g: Bytes, two: Bytes, one: Bytes, t: Bytes)
    ensures a + (l + g) + two + (one + t) == a + l + (g + two) + one + t
  {
  }

  /** For instance, every adapter has longer ones whose blocks have the very same bytes, whatever
      the parent hash. The last four bytes of the longer name are the low half of the parent. */
  lemma AdaptersAreConfused(a: Bytes, low: nat, high: nat, token: nat)
    requires low < Limit(4) && high < Limit(4)
    ensures Preimage(a, low + high * Limit(4), [1, token])
            == Preimage(a + LittleEndian(low, 4), high + 2 * Limit(4), [token])
  {
    hide LittleEndian, Limit, Words;
    TwoHalves(low, high);
    TwoHalves(high, 2);
    OneWord(token);
    Regroup(a, LittleEndian(low, 4), LittleEndian(high, 4), LittleEndian(2, 4), LittleEndian(1, 4),
            LittleEndian(token, 4));
  }

  /** First blocks, whose parent is zero, are confused under fewer adapters: the extension must also
      start with eight zero bytes and have three words at least. */
  lemma FirstBlocksConfusableIff(a: Bytes, a': Bytes)
    requires AreBytes(a') && |a| < |a'|
    ensures (exists s, s' :: SameBytes(a, 0, s, a', 0, s'))
            <==> Extends(a, a') && |a'| - |a| >= 12 && forall i :: |a| <= i < |a| + 8 ==> a'[i] == 0
  {
    hide Preimage, Words, Value, Unwords, IsBlock;
    var ext := a'[|a|..];
    if |ext| >= 12 { EightZeros(a, a'); }
    forall s, s' | SameBytes(a, 0, s, a', 0, s')
      ensures Extends(a, a') && |ext| >= 12 && Value(ext[..4]) == 0 && Value(ext[4..8]) == 0
    {
      SameBytesExtend(a, 0, s, a', 0, s');
      FirstFrames(a, s, a', s');
    }
    if Extends(a, a') && |ext| >= 12 && Value(ext[..4]) == 0 && Value(ext[4..8]) == 0 {
      var p, s, p', s' := ExtendFirst(a, a');
    }
  }

  lemma {:induction false} ZeroValue(b: Bytes)
    ensures Value(b) == 0 <==> forall i :: 0 <= i < |b| ==> b[i] == 0
  {
    if b != [] {
      ZeroValue(b[1..]);
      assert forall i :: 0 < i < |b| ==> b[i] == b[1..][i - 1];
    }
  }

  lemma EightZeros(a: Bytes, a': Bytes)
    requires |a'| - |a| >= 12
    ensures var ext := a'[|a|..];
      Value(ext[..4]) == 0 && Value(ext[4..8]) == 0 <==> forall i :: |a| <= i < |a| + 8 ==> a'[i] == 0
  {
    hide Value;
    var ext, n := a'[|a|..], |a|;
    ZeroValue(ext[..4]);
    ZeroValue(ext[4..8]);
    assert forall i :: 0 <= i < 4 ==> ext[..4][i] == a'[n + i];
    assert forall i :: 0 <= i < 4 ==> ext[4..8][i] == a'[n + 4 + i];
    assert forall i :: n <= i < n + 4 ==> a'[i] == ext[..4][i - n];
    assert forall i :: n + 4 <= i < n + 8 ==> a'[i] == ext[4..8][i - n - 4];
  }

  lemma FirstFrames(a: Bytes, s: seq<nat>, a': Bytes, s': seq<nat>)
    requires AreBytes(a') && |a| < |a'| && SameBytes(a, 0, s, a', 0, s') && Extends(a, a')
    ensures var ext := a'[|a|..]; |ext| >= 12 && Value(ext[..4]) == 0 && Value(ext[4..8]) == 0
  {
    hide Preimage, Words, Value, Unwords, IsBlock;
    SameBytesIff(a, 0, s, a', 0, s');
    TokensOf(0, s);
    var ext := a'[|a|..];
    var e := Unwords(ext);
    var x := e + Frame(0, s');
    assert Frame(0, s)[0] == 0 && Frame(0, s)[1] == 0 && Frame(0, s)[2] == |s|;
    assert x[0] == 0 && x[1] == 0 && x[2] != 0;
    assert |e| > 2;
    UnwordsThird(ext);
  }

  lemma ExtendFirst(a: Bytes, a': Bytes) returns (p: nat, s: seq<nat>, p': nat, s': seq<nat>)
    requires AreBytes(a') && Extends(a, a') && |a'| - |a| >= 12
    requires Value(a'[|a|..][..4]) == 0 && Value(a'[|a|..][4..8]) == 0
    ensures p == 0 && p' == 0 && SameBytes(a, p, s, a', p', s')
  {
    hide Words, Value, Preimage, Unwords;
    var ext := a'[|a|..];
    var e := Unwords(ext);
    UnwordsSpell(ext);
    UnwordsThird(ext);
    p', s' := 0, seq(e[2] - |e|, _ => 0);
    JointFrame(0, s');
    var x := e + Frame(p', s');
    FrameIsWords(p', s');
    WordsJoin(e, Frame(p', s'));
    FrameOf(x);
    p, s := x[0] + x[1] * Limit(4), x[3..];
    SameBytesIff(a, p, s, a', p', s');
  }
}
