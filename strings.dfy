/** String helpers shared by the backend and the frontend: ASCII lower-casing,
    substring search (`Contains`, `indexOf`), JavaScript's single-occurrence
    `String.prototype.replace`, `split(c)[0]`, and decimal rendering of
    integers (`String(n)`, template interpolation, C# `ToString`). */
module Strings {
  import opened Common

  function LowerChar(c: char): char {
    if 'A' <= c <= 'Z' then (c as int + 32) as char else c
  }

  /** Lower-casing, restricted to ASCII letters. */
  function Lower(s: string): (r: string)
    ensures |r| == |s|
    ensures forall i :: 0 <= i < |s| ==> r[i] == LowerChar(s[i])
  {
    if s == [] then [] else [LowerChar(s[0])] + Lower(s[1..])
  }

  /** `sub` occurs in `s` starting at index `i`. */
  predicate OccursAt(s: string, sub: string, i: int) {
    0 <= i && i + |sub| <= |s| && s[i..i + |sub|] == sub
  }

  /** The first index at or after `k` where `sub` occurs, if any. */
  function IndexOfFrom(s: string, sub: string, k: nat): (r: Option<nat>)
    decreases |s| - k
    ensures r.Some? ==> k <= r.value && OccursAt(s, sub, r.value)
    ensures r.Some? ==> forall j :: k <= j < r.value ==> !OccursAt(s, sub, j)
    ensures r.None? ==> forall j :: k <= j ==> !OccursAt(s, sub, j)
  {
    if k + |sub| > |s| then None
    else if s[k..k + |sub|] == sub then Some(k)
    else IndexOfFrom(s, sub, k + 1)
  }

  /** `s.indexOf(sub)`: the first occurrence of `sub` in `s`. */
  function IndexOf(s: string, sub: string): (r: Option<nat>)
    ensures r.Some? ==> OccursAt(s, sub, r.value)
    ensures r.Some? ==> forall j :: 0 <= j < r.value ==> !OccursAt(s, sub, j)
    ensures r.None? <==> forall j :: !OccursAt(s, sub, j)
  {
    IndexOfFrom(s, sub, 0)
  }

  /** `s.includes(sub)` / C# `s.Contains(sub)`. */
  function Contains(s: string, sub: string): (r: bool)
    ensures r <==> exists i :: OccursAt(s, sub, i)
  {
    IndexOf(s, sub).Some?
  }

  /** If `sub` occurs at `|a|` in `s` and nowhere before, `IndexOf` finds it there. */
  lemma IndexOfIsFirstOccurrence(s: string, sub: string, i: nat)
    requires OccursAt(s, sub, i)
    requires forall j :: 0 <= j < i ==> !OccursAt(s, sub, j)
    ensures IndexOf(s, sub) == Some(i)
  {
  }

  /** JavaScript's `s.replace(pattern, replacement)` with a string pattern:
      only the FIRST occurrence is replaced, and `s` is returned unchanged
      when the pattern does not occur. (Replacement strings here never
      contain `$`, so no substitution patterns apply.) */
  function ReplaceFirst(s: string, pattern: string, replacement: string): (r: string)
  {
    match IndexOf(s, pattern)
    case None => s
    case Some(i) => s[..i] + replacement + s[i + |pattern|..]
  }

  /** The partner of `ReplaceFirst`: it leaves a string without the pattern
      alone, and on `a + pattern + b` where the pattern does not start inside
      `a` it yields `a + replacement + b`. */
  lemma ReplaceFirstSpec(s: string, pattern: string, replacement: string, a: string, b: string)
    ensures !Contains(s, pattern) ==> ReplaceFirst(s, pattern, replacement) == s
    ensures s == a + pattern + b && (forall j :: 0 <= j < |a| ==> !OccursAt(s, pattern, j))
            ==> ReplaceFirst(s, pattern, replacement) == a + replacement + b
  {
    if s == a + pattern + b && (forall j :: 0 <= j < |a| ==> !OccursAt(s, pattern, j)) {
      assert s[|a|..|a| + |pattern|] == pattern;
      IndexOfIsFirstOccurrence(s, pattern, |a|);
      assert s[..|a|] == a;
      assert s[|a| + |pattern|..] == b;
    }
  }

  /** `s.split(c)[0]`: the part of `s` before the first `c` (all of `s` if
      there is none). */
  function BeforeFirst(s: string, c: char): (r: string)
    ensures c !in r
    ensures r <= s
    ensures |r| < |s| ==> s[|r|] == c
  {
    if s == [] || s[0] == c then [] else [s[0]] + BeforeFirst(s[1..], c)
  }

  /** `BeforeFirst` splits `a + [c] + b` at its first `c` when `a` holds none. */
  lemma {:induction false} BeforeFirstSplits(a: string, c: char, b: string)
    requires c !in a
    ensures BeforeFirst(a + [c] + b, c) == a
  {
    if a != [] {
      assert (a + [c] + b)[1..] == a[1..] + [c] + b;
      BeforeFirstSplits(a[1..], c, b);
    }
  }

  function DigitChar(d: nat): char
    requires d < 10
  {
    "0123456789"[d]
  }

  function DigitValue(c: char): nat {
    if '0' <= c <= '9' then c as int - '0' as int else 0
  }

  predicate IsDigit(c: char) {
    '0' <= c <= '9'
  }

  /** Decimal digits of a natural number, most significant first, no leading zeros. */
  function NatToString(n: nat): (r: string)
    ensures |r| > 0
    ensures forall i :: 0 <= i < |r| ==> IsDigit(r[i])
    ensures |r| > 1 ==> r[0] != '0'
  {
    if n < 10 then [DigitChar(n)] else NatToString(n / 10) + [DigitChar(n % 10)]
  }

  /** The number a string of decimal digits denotes. */
  function DecimalValue(s: string): nat {
    if s == [] then 0 else DecimalValue(s[..|s| - 1]) * 10 + DigitValue(s[|s| - 1])
  }

  /** Reading back what `NatToString` wrote gives the number again. */
  lemma {:induction false} NatToStringRoundTrip(n: nat)
    ensures DecimalValue(NatToString(n)) == n
  {
    if n >= 10 {
      var s := NatToString(n);
      assert s[..|s| - 1] == NatToString(n / 10);
      NatToStringRoundTrip(n / 10);
    }
  }

  /** `String(n)` for an integral JavaScript number, and C#'s `ToString()` of an
      `int`: a minus sign for negative values, then the digits. */
  function IntToString(n: int): (r: string)
    ensures |r| > 0
    ensures n >= 0 ==> r == NatToString(n)
    ensures n < 0 ==> r == "-" + NatToString(-n)
  {
    if n >= 0 then NatToString(n) else "-" + NatToString(-n)
  }
}
