/** Splitting strings at a separator, and printing and reading unsigned decimals. */
module Text {
  import opened Common

  /** What comes before the first `sep`, and after it. */
  function SplitOnce(s: string, sep: char): (parts: Option<(string, string)>)
    ensures parts.None? <==> sep !in s
    ensures parts.Some? ==> s == parts.value.0 + [sep] + parts.value.1 && sep !in parts.value.0
  {
    if s == [] then None
    else if s[0] == sep then Some(([], s[1..]))
    else
      var rest := SplitOnce(s[1..], sep);
      if rest.None? then None else Some(([s[0]] + rest.value.0, rest.value.1))
  }

  /** What comes before the last `sep`, and after it. */
  function SplitLast(s: string, sep: char): (parts: Option<(string, string)>)
    ensures parts.None? <==> sep !in s
    ensures parts.Some? ==> s == parts.value.0 + [sep] + parts.value.1 && sep !in parts.value.1
  {
    if s == [] then None
    else
      var n := |s| - 1;
      assert s == s[..n] + [s[n]];
      if s[n] == sep then Some((s[..n], []))
      else
        var rest := SplitLast(s[..n], sep);
        if rest.None? then None else Some((rest.value.0, rest.value.1 + [s[n]]))
  }

  lemma {:induction false} SplitOnceIs(a: string, sep: char, b: string)
    requires sep !in a
    ensures SplitOnce(a + [sep] + b, sep) == Some((a, b))
  {
    var s := a + [sep] + b;
    if a == [] {
      assert s[1..] == b;
    } else {
      assert s[1..] == a[1..] + [sep] + b;
      SplitOnceIs(a[1..], sep, b);
      assert a == [a[0]] + a[1..];
    }
  }

  lemma {:induction false} SplitLastIs(a: string, sep: char, b: string)
    requires sep !in b
    ensures SplitLast(a + [sep] + b, sep) == Some((a, b))
  {
    var s := a + [sep] + b;
    var n := |s| - 1;
    if b == [] {
      assert s[..n] == a;
    } else {
      assert s[..n] == a + [sep] + b[..|b| - 1];
      SplitLastIs(a, sep, b[..|b| - 1]);
      assert b == b[..|b| - 1] + [b[|b| - 1]];
    }
  }

  predicate IsDigit(c: char) { '0' <= c <= '9' }

  predicate AllDigits(s: string) { forall i | 0 <= i < |s| :: IsDigit(s[i]) }

  function Digit(n: nat): (c: char)
    requires n < 10
    ensures IsDigit(c) && (c as int - '0' as int) == n
  {
    '0' + n as char
  }

  function Print(n: nat): (s: string)
    ensures s != [] && AllDigits(s)
  {
    if n < 10 then [Digit(n)] else Print(n / 10) + [Digit(n % 10)]
  }

  function Value(s: string): nat
    requires AllDigits(s)
  {
    if s == [] then 0
    else Value(s[..|s| - 1]) * 10 + (s[|s| - 1] as int - '0' as int)
  }

  /** Reads an unsigned integer of at most `max`: digits, after a `+` or not. */
  function Parse(s: string, max: nat): (n: Option<nat>)
    ensures n.Some? ==> n.value <= max
  {
    var digits := if s != [] && s[0] == '+' then s[1..] else s;
    if digits == [] || !AllDigits(digits) || Value(digits) > max then None else Some(Value(digits))
  }

  lemma {:induction false} ValueOfPrint(n: nat)
    ensures Value(Print(n)) == n
  {
    if n >= 10 {
      ValueOfPrint(n / 10);
      assert Print(n)[..|Print(n)| - 1] == Print(n / 10);
    }
  }

  /** A printed number reads back. */
  lemma ParseOfPrint(n: nat, max: nat)
    requires n <= max
    ensures Parse(Print(n), max) == Some(n)
  {
    ValueOfPrint(n);
    assert IsDigit(Print(n)[0]);
  }
}
