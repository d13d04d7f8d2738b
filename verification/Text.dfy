/** Decimal numerals and unique decomposition of delimited text. */
module Text {
  import opened Common

  predicate IsDigit(c: char) {
    '0' <= c <= '9'
  }

  function DigitChar(d: nat): (c: char)
    requires d < 10
    ensures IsDigit(c)
  {
    '0' + d as char
  }

  function DigitValue(c: char): (d: nat)
    requires IsDigit(c)
    ensures d < 10 && DigitChar(d) == c
  {
    (c - '0') as nat
  }

  predicate AllDigits(s: string) {
    forall i :: 0 <= i < |s| ==> IsDigit(s[i])
  }

  function Decimal(n: nat): (s: string)
    ensures |s| > 0 && AllDigits(s)
    ensures n > 0 ==> s[0] != '0'
  {
    if n < 10 then [DigitChar(n)] else Decimal(n / 10) + [DigitChar(n % 10)]
  }

  function Value(s: string): nat
    requires AllDigits(s)
  {
    if s == "" then 0 else 10 * Value(s[..|s| - 1]) + DigitValue(s[|s| - 1])
  }

  lemma {:induction false} ValueOfDecimal(n: nat)
    ensures Value(Decimal(n)) == n
  {
    if n >= 10 {
      var front := Decimal(n / 10);
      ValueOfDecimal(n / 10);
      assert Decimal(n)[..|front|] == front;
      assert DigitValue(DigitChar(n % 10)) == n % 10;
    } else {
      assert Decimal(n)[..0] == "";
      assert DigitValue(DigitChar(n)) == n;
    }
  }

  lemma LastDigit(v: nat, d: nat)
    requires d < 10
    ensures (10 * v + d) / 10 == v && (10 * v + d) % 10 == d
  {
  }

  // A numeral without a leading zero is the one Decimal prints.
  lemma {:induction false} DecimalOfValue(s: string)
    requires AllDigits(s) && |s| > 0 && s[0] != '0'
    ensures Value(s) > 0 && Decimal(Value(s)) == s
    decreases |s|
  {
    var front, last := s[..|s| - 1], s[|s| - 1];
    if |s| > 1 {
      DecimalOfValue(front);
      LastDigit(Value(front), DigitValue(last));
      assert Value(s) == 10 * Value(front) + DigitValue(last) >= 10;
      assert s == front + [last];
    } else {
      assert Value(front) == 0;
      assert DigitValue(last) > 0;
    }
  }

  lemma DecimalInjective(m: nat, n: nat)
    requires Decimal(m) == Decimal(n)
    ensures m == n
  {
    ValueOfDecimal(m);
    ValueOfDecimal(n);
  }

  // The position of the first c, or |s| when there is none.
  function Find(s: string, c: char): (i: nat)
    ensures i <= |s|
    ensures forall k :: 0 <= k < i ==> s[k] != c
    ensures i < |s| ==> s[i] == c
  {
    if s == "" || s[0] == c then 0 else 1 + Find(s[1..], c)
  }

  predicate Lacks(s: string, c: char) {
    forall k :: 0 <= k < |s| ==> s[k] != c
  }

  lemma FindDelimiter(a: string, c: char, rest: string)
    requires Lacks(a, c)
    ensures Find(a + [c] + rest, c) == |a|
  {
    var s := a + [c] + rest;
    assert s[|a|] == c;
    assert forall k :: 0 <= k < |a| ==> s[k] == a[k];
  }

  lemma SplitUnique(a: string, b: string, c: char, x: string, y: string)
    requires Lacks(a, c) && Lacks(b, c) && a + [c] + x == b + [c] + y
    ensures a == b && x == y
  {
    var s := a + [c] + x;
    FindDelimiter(a, c, x);
    FindDelimiter(b, c, y);
    assert a == s[..|a|] && b == s[..|b|];
    assert x == s[|a| + 1..] && y == s[|b| + 1..];
  }

  lemma SplitAt(s: string, i: nat)
    requires i < |s|
    ensures s == s[..i] + [s[i]] + s[i + 1..]
  {
  }

  function Strip(prefix: string, s: string): (rest: Option<string>)
    ensures rest.Some? <==> prefix <= s
    ensures rest.Some? ==> s == prefix + rest.value
  {
    if prefix <= s then Some(s[|prefix|..]) else None
  }

  lemma StripConcat(prefix: string, rest: string)
    ensures Strip(prefix, prefix + rest) == Some(rest)
  {
    assert (prefix + rest)[|prefix|..] == rest;
  }
}
