/** The order of a map's string keys, in which every table and tree here is walked. */
module Ordered {
  /** Byte order: strings compare by their first difference, and a prefix comes first. */
  predicate Less(a: string, b: string) {
    b != [] && (a == [] || a[0] < b[0] || (a[0] == b[0] && Less(a[1..], b[1..])))
  }

  predicate AtMost(a: string, b: string) { a == b || Less(a, b) }

  lemma LessIrreflexive(a: string)
    ensures !Less(a, a)
  {
  }

  lemma {:induction false} LessTransitive(a: string, b: string, c: string)
    requires Less(a, b) && Less(b, c)
    ensures Less(a, c)
  {
    if a != [] && a[0] == b[0] == c[0] { LessTransitive(a[1..], b[1..], c[1..]); }
  }

  lemma {:induction false} LessTotal(a: string, b: string)
    ensures a == b || Less(a, b) || Less(b, a)
  {
    if a != [] && b != [] && a[0] == b[0] {
      LessTotal(a[1..], b[1..]);
      if a[1..] == b[1..] { assert a == [a[0]] + a[1..] == b; }
    }
  }

  lemma LessAsymmetric(a: string, b: string)
    requires Less(a, b)
    ensures !Less(b, a)
  {
    if Less(b, a) { LessTransitive(a, b, a); LessIrreflexive(a); }
  }

  lemma {:induction false} PrefixLess(p: string, s: string)
    requires p <= s && p != s
    ensures Less(p, s)
  {
    if p != [] {
      assert p[1..] <= s[1..];
      assert p == [p[0]] + p[1..] && s == [s[0]] + s[1..];
      PrefixLess(p[1..], s[1..]);
    }
  }

  /** The strings with one prefix lie together: nothing between two of them is without it. */
  lemma {:induction false} PrefixConvex(p: string, x: string, y: string)
    requires AtMost(p, x) && AtMost(x, y) && p <= y
    ensures p <= x
  {
    if p != [] && x != y && p != x {
      assert x != [];
      assert p[0] == x[0] == y[0];
      assert p[1..] <= y[1..];
      PrefixConvex(p[1..], x[1..], y[1..]);
      assert p == [p[0]] + p[1..];
    }
  }

  ghost predicate Ascending(ks: seq<string>) {
    forall i, j | 0 <= i < j < |ks| :: Less(ks[i], ks[j])
  }

  /** The least string of a set. */
  method Least(keys: set<string>) returns (k: string)
    requires keys != {}
    ensures k in keys && forall k' | k' in keys :: AtMost(k, k')
  {
    k :| k in keys;
    var left := keys - {k};
    while left != {}
      invariant left < keys && k in keys && k !in left
      invariant forall k' | k' in keys && k' !in left :: AtMost(k, k')
      decreases left
    {
      var c :| c in left;
      left := left - {c};
      LessTotal(k, c);
      if Less(c, k) {
        forall k' | k' in keys && k' !in left ensures AtMost(c, k') {
          if k' != c { if k != k' { LessTransitive(c, k, k'); } }
        }
        k := c;
      }
    }
  }

  /** A map's keys, lowest first. */
  method Walk(keys: set<string>) returns (ks: seq<string>)
    ensures Ascending(ks) && forall k :: k in ks <==> k in keys
  {
    ks := [];
    var left := keys;
    while left != {}
      invariant left <= keys && Ascending(ks)
      invariant forall k :: k in ks <==> k in keys - left
      invariant forall k, k' | k in ks && k' in left :: Less(k, k')
      decreases left
    {
      var k := Least(left);
      forall k' | k' in left - {k} ensures Less(k, k') { assert AtMost(k, k'); }
      ks := ks + [k];
      left := left - {k};
    }
  }
}
