/** How ids, ports and tags are chosen for a new account. */
module Allocators {
  import opened Text

  // ----- Ids -----

  function Range(n: nat): (s: set<int>)
    ensures |s| == n
    ensures forall k :: k in s <==> 1 <= k <= n
  {
    if n == 0 then {} else Range(n - 1) + {n}
  }

  lemma SubsetSize(a: set<int>, b: set<int>)
    requires a <= b
    ensures |a| <= |b|
  {
    assert a + (b - a) == b && a !! (b - a);
  }

  /** The least positive id not in use; the search ends within n + 1 tries. */
  method NextAvailableId(ids: seq<int>) returns (id: int)
    ensures 1 <= id <= |ids| + 1
    ensures id !in ids
    ensures forall k :: 1 <= k < id ==> k in ids
  {
    var used: set<int> := {};
    for i := 0 to |ids|
      invariant forall k :: k in used <==> k > 0 && k in ids[..i]
      invariant |used| <= i
    {
      assert ids[..i + 1] == ids[..i] + [ids[i]];
      if ids[i] > 0 {
        used := used + {ids[i]};
      }
    }
    assert ids[..|ids|] == ids;
    id := 1;
    while id in used
      invariant 1 <= id <= |used| + 1
      invariant forall k :: 1 <= k < id ==> k in used
      decreases |used| + 1 - id
    {
      SubsetSize(Range(id), used);
      id := id + 1;
    }
  }

  // ----- Ports -----

  predicate Free(p: int, taken: seq<int>, reserved: int, bindable: set<int>) {
    p !in taken && p != reserved && p in bindable
  }

  function Start(start: int, lo: int, hi: int): int {
    if start < lo || start > hi then lo else start
  }

  // The port tried at offset i of the cyclic scan.
  function Candidate(i: nat, lo: int, hi: int, start: int): int
    requires lo <= start <= hi
  {
    lo + (start - lo + i) % (hi - lo + 1)
  }

  /** The first free port at or after start, going round once; zero if none. */
  method NextFreePortFrom(taken: seq<int>, lo: int, hi: int, reserved: int, start: int, bindable: set<int>) returns (port: int)
    ensures port == 0 <==> lo < 1 || hi < lo || forall p :: lo <= p <= hi ==> !Free(p, taken, reserved, bindable)
    ensures port != 0 ==> lo <= port <= hi && Free(port, taken, reserved, bindable)
    ensures port != 0 ==> exists i: nat :: i <= hi - lo && FirstFreeAt(i, port, taken, lo, hi, reserved, Start(start, lo, hi), bindable)
  {
    if lo < 1 || hi < lo {
      return 0;
    }
    var from := Start(start, lo, hi);
    var used: set<int> := {reserved} + set p | p in taken;
    var count := hi - lo + 1;
    for i := 0 to count
      invariant forall j: nat :: j < i ==> !Free(Candidate(j, lo, hi, from), taken, reserved, bindable)
    {
      var p := lo + (from - lo + i) % count;
      assert p == Candidate(i, lo, hi, from);
      WrapsOnce(from - lo + i, count);
      assert Free(p, taken, reserved, bindable) <==> p !in used && p in bindable;
      if p !in used && p in bindable {
        assert FirstFreeAt(i, p, taken, lo, hi, reserved, from, bindable);
        return p;
      }
    }
    forall p | lo <= p <= hi ensures !Free(p, taken, reserved, bindable) {
      CandidateOf(p, lo, hi, from);
      assert Candidate(Offset(p, lo, hi, from), lo, hi, from) == p;
    }
    port := 0;
  }

  predicate FirstFreeAt(i: nat, port: int, taken: seq<int>, lo: int, hi: int, reserved: int, from: int, bindable: set<int>) {
    && lo <= from <= hi && port == Candidate(i, lo, hi, from)
    && forall j: nat :: j < i ==> !Free(Candidate(j, lo, hi, from), taken, reserved, bindable)
  }

  // Offsets that go round the range once.
  function Offset(p: int, lo: int, hi: int, start: int): nat
    requires lo <= start <= hi && lo <= p <= hi
  {
    if p >= start then p - start else p - start + (hi - lo + 1)
  }

  lemma WrapsOnce(x: int, n: int)
    requires 0 < n && 0 <= x < 2 * n
    ensures x % n == if x < n then x else x - n
  {
  }

  // Every port of the range is tried, at one offset and no other.
  lemma CandidateOf(p: int, lo: int, hi: int, start: int)
    requires lo <= start <= hi && lo <= p <= hi
    ensures Offset(p, lo, hi, start) <= hi - lo
    ensures forall i: nat :: i <= hi - lo ==> (Candidate(i, lo, hi, start) == p <==> i == Offset(p, lo, hi, start))
  {
    forall i: nat | i <= hi - lo ensures Candidate(i, lo, hi, start) == p <==> i == Offset(p, lo, hi, start) {
      WrapsOnce(start - lo + i, hi - lo + 1);
    }
  }

  // ----- Tags -----

  const SLUG_SIZE := 12

  predicate IsSlugChar(c: char) {
    'a' <= c <= 'z' || '0' <= c <= '9'
  }

  // Lower case, as far as it leads to a character of a slug: besides the ASCII
  // capitals, the dotted capital I and the Kelvin sign do.
  function Lower(c: char): char {
    if 'A' <= c <= 'Z' then ((c as int) + 32) as char
    else if c as int == 0x130 then 'i'
    else if c as int == 0x212A then 'k'
    else c
  }

  function SlugChars(s: string): string {
    if s == "" then ""
    else SlugChars(s[..|s| - 1]) + if IsSlugChar(Lower(s[|s| - 1])) then [Lower(s[|s| - 1])] else ""
  }

  function Prefix(s: string, n: nat): string {
    if |s| <= n then s else s[..n]
  }

  function ShortSlug(name: string): string {
    var slug := Prefix(SlugChars(name), SLUG_SIZE);
    if slug == "" then "account" else slug
  }

  lemma {:induction false} SlugCharsGrow(s: string, i: nat)
    requires i <= |s|
    ensures |SlugChars(s[..i])| <= |SlugChars(s)| && SlugChars(s)[..|SlugChars(s[..i])|] == SlugChars(s[..i])
    decreases |s| - i
  {
    if i < |s| {
      SlugCharsGrow(s, i + 1);
      assert s[..i + 1][..i] == s[..i];
    } else {
      assert s[..i] == s;
    }
  }

  /** Stops reading the name as soon as the slug is long enough. */
  method BuildSlug(name: string) returns (slug: string)
    ensures slug == ShortSlug(name)
  {
    slug := "";
    var i := 0;
    while i < |name|
      invariant 0 <= i <= |name| && slug == SlugChars(name[..i]) && |slug| < SLUG_SIZE
    {
      assert name[..i + 1][..i] == name[..i];
      if IsSlugChar(Lower(name[i])) {
        slug := slug + [Lower(name[i])];
      }
      i := i + 1;
      if |slug| >= SLUG_SIZE {
        break;
      }
    }
    SlugCharsGrow(name, i);
    assert i == |name| ==> name[..i] == name;
    assert i < |name| ==> |slug| >= SLUG_SIZE;
    if slug == "" {
      slug := "account";
    }
  }

  function PanelTag(port: nat, slug: string): string {
    "xport-" + Decimal(port) + "-" + slug
  }

  // A generated tag determines its port, so accounts on different ports never
  // share one, whatever they are called.
  lemma PanelTagInjective(p: nat, q: nat, a: string, b: string)
    requires PanelTag(p, a) == PanelTag(q, b)
    ensures p == q && a == b
  {
    var rest := Decimal(p) + "-" + a;
    assert PanelTag(p, a)[|"xport-"|..] == rest;
    assert PanelTag(q, b)[|"xport-"|..] == Decimal(q) + "-" + b;
    SplitUnique(Decimal(p), Decimal(q), '-', a, b);
    DecimalInjective(p, q);
  }

  lemma {:induction false} SlugIsPlain(name: string)
    ensures forall c :: c in SlugChars(name) ==> IsSlugChar(c)
    decreases |name|
  {
    if name != "" {
      SlugIsPlain(name[..|name| - 1]);
    }
  }

  lemma SlugBounds(name: string)
    ensures 1 <= |ShortSlug(name)| <= SLUG_SIZE
    ensures forall c :: c in ShortSlug(name) ==> IsSlugChar(c)
  {
    SlugIsPlain(name);
    var slug := Prefix(SlugChars(name), SLUG_SIZE);
    forall c | c in slug ensures IsSlugChar(c) {
      assert c in SlugChars(name);
    }
  }
}
