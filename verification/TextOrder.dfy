/** Byte-wise comparison of worker names, as Go's `<` on strings. */
module TextOrder {

  predicate Less(a: string, b: string) {
    b != "" && (a == "" || a[0] < b[0] || (a[0] == b[0] && Less(a[1..], b[1..])))
  }

  lemma {:induction false} Irreflexive(a: string)
    ensures !Less(a, a)
  {
    if a != "" { Irreflexive(a[1..]); }
  }

  lemma {:induction false} Trichotomy(a: string, b: string)
    ensures a == b || Less(a, b) || Less(b, a)
  {
    if a != "" && b != "" && a[0] == b[0] {
      Trichotomy(a[1..], b[1..]);
      assert a == [a[0]] + a[1..] && b == [b[0]] + b[1..];
    }
  }

  lemma {:induction false} Transitive(a: string, b: string, c: string)
    requires Less(a, b) && Less(b, c)
    ensures Less(a, c)
  {
    if a != "" && a[0] == b[0] == c[0] { Transitive(a[1..], b[1..], c[1..]); }
  }

  /** The names agree up to some position, where the smaller one ends or has the smaller byte. */
  lemma {:induction false} LessMeans(a: string, b: string)
    ensures Less(a, b)
            <==> exists k :: 0 <= k <= |a| && k < |b| && a[..k] == b[..k] && (k == |a| || a[k] < b[k])
  {
    if a != "" && b != "" {
      var x, y := a[1..], b[1..];
      LessMeans(x, y);
      if a[0] == b[0] {
        if Less(x, y) {
          var k :| 0 <= k <= |x| && k < |y| && x[..k] == y[..k] && (k == |x| || x[k] < y[k]);
          assert a[..k + 1] == [a[0]] + x[..k] && b[..k + 1] == [b[0]] + y[..k];
          assert k + 1 <= |a| && k + 1 < |b| && a[..k + 1] == b[..k + 1] && (k + 1 == |a| || a[k + 1] < b[k + 1]);
        }
        if exists k :: 0 <= k <= |a| && k < |b| && a[..k] == b[..k] && (k == |a| || a[k] < b[k]) {
          var k :| 0 <= k <= |a| && k < |b| && a[..k] == b[..k] && (k == |a| || a[k] < b[k]);
          assert k > 0;
          assert x[..k - 1] == a[..k][1..] && y[..k - 1] == b[..k][1..];
        }
      } else {
        assert a[..0] == b[..0];
        forall k | 0 < k <= |a| && k < |b| ensures a[..k] != b[..k] { assert a[..k][0] != b[..k][0]; }
      }
    } else if b != "" {
      assert a[..0] == b[..0];
    }
  }
}
