/**
 * The string rules the scraper and the predictor rely on, written out over
 * `string` (= `seq<char>`): Python's `str.strip`, `str.isdigit` with `int`,
 * `str(n)` for a natural number, `endswith`/`startswith`, `str.replace`,
 * `str.lower` and the ordering `sorted` uses on strings.
 */
module Text {

  /** The characters Python's `str.strip()` removes (those `str.isspace()` accepts). */
  predicate IsSpace(c: char) {
    || ('\t' <= c <= '\r')
    || ('\U{1C}' <= c <= ' ')
    || c == '\U{85}' || c == '\U{A0}' || c == '\U{1680}'
    || ('\U{2000}' <= c <= '\U{200A}')
    || c == '\U{2028}' || c == '\U{2029}' || c == '\U{202F}' || c == '\U{205F}' || c == '\U{3000}'
  }

  predicate IsDigit(c: char) {
    '0' <= c <= '9'
  }

  predicate AllDigits(s: string) {
    forall i :: 0 <= i < |s| ==> IsDigit(s[i])
  }

  /** `s.isdigit()`: non-empty and made of decimal digits only. */
  predicate IsNumeral(s: string) {
    |s| > 0 && AllDigits(s)
  }

  function DigitValue(c: char): (d: nat)
    requires IsDigit(c)
    ensures d < 10
  {
    c as int - '0' as int
  }

  function DigitChar(d: nat): (c: char)
    requires d < 10
    ensures IsDigit(c) && DigitValue(c) == d
  {
    ('0' as int + d) as char
  }

  /** `int(s)` for a string of decimal digits (leading zeros allowed). */
  function ParseNat(s: string): nat
    requires AllDigits(s)
  {
    if s == [] then 0 else 10 * ParseNat(s[..|s| - 1]) + DigitValue(s[|s| - 1])
  }

  /** `str(n)` for a natural number: its decimal digits, no leading zero. */
  function NatToString(n: nat): (s: string)
    ensures |s| > 0
  {
    if n < 10 then [DigitChar(n)] else NatToString(n / 10) + [DigitChar(n % 10)]
  }

  /** `str(n)` is a numeral, has no superfluous leading zero, and `int` reads it back as `n`. */
  lemma {:induction false} NatToStringRoundTrip(n: nat)
    ensures IsNumeral(NatToString(n))
    ensures NatToString(n)[0] == '0' ==> n == 0
    ensures ParseNat(NatToString(n)) == n
  {
    var s := NatToString(n);
    if n >= 10 {
      NatToStringRoundTrip(n / 10);
      var p := NatToString(n / 10);
      assert s == p + [DigitChar(n % 10)];
      assert s[..|s| - 1] == p;
    }
  }

  /** Number of leading characters `str.strip()` removes. */
  function StripStart(s: string): (k: nat)
    ensures k <= |s|
    ensures forall i :: 0 <= i < k ==> IsSpace(s[i])
    ensures k == |s| || !IsSpace(s[k])
  {
    if s == [] || !IsSpace(s[0]) then 0 else 1 + StripStart(s[1..])
  }

  /** Length of what remains once `str.strip()` removes the trailing whitespace. */
  function StripEnd(s: string): (k: nat)
    ensures k <= |s|
    ensures forall i :: k <= i < |s| ==> IsSpace(s[i])
    ensures k == 0 || !IsSpace(s[k - 1])
  {
    if s == [] || !IsSpace(s[|s| - 1]) then |s| else StripEnd(s[..|s| - 1])
  }

  /**
   * `s.strip()`: the infix of `s` left once leading and trailing whitespace is
   * removed; it starts and ends with a non-space, and a string that already
   * does so is returned unchanged.
   */
  function Strip(s: string): (r: string)
    ensures r == [] || (!IsSpace(r[0]) && !IsSpace(r[|r| - 1]))
    ensures exists i :: TrimmedAt(s, r, i)
    ensures (s == [] || (!IsSpace(s[0]) && !IsSpace(s[|s| - 1]))) ==> r == s
  {
    var i := StripStart(s);
    var t := s[i..];
    var j := StripEnd(t);
    assert t[..j] == s[i..i + j];
    assert TrimmedAt(s, t[..j], i);
    t[..j]
  }

  /** `r` is the infix of `s` at `i`, and everything of `s` outside it is whitespace. */
  ghost predicate TrimmedAt(s: string, r: string, i: int) {
    && 0 <= i <= |s| - |r|
    && r == s[i..i + |r|]
    && (forall k :: 0 <= k < i ==> IsSpace(s[k]))
    && (forall k :: i + |r| <= k < |s| ==> IsSpace(s[k]))
  }

  lemma NumeralIsStripped(s: string)
    requires IsNumeral(s)
    ensures Strip(s) == s
  {
    assert IsDigit(s[0]) && IsDigit(s[|s| - 1]);
  }

  /** Index of the first `c` in `s`, or `|s|` when there is none. */
  function IndexOf(s: string, c: char): (k: nat)
    ensures k <= |s|
    ensures k < |s| ==> s[k] == c
    ensures forall i :: 0 <= i < k ==> s[i] != c
  {
    if s == [] then 0 else if s[0] == c then 0 else 1 + IndexOf(s[1..], c)
  }

  lemma IndexOfIsFirst(s: string, c: char, k: nat)
    requires k < |s| && s[k] == c
    requires forall i :: 0 <= i < k ==> s[i] != c
    ensures IndexOf(s, c) == k
  {
  }

  predicate StartsWith(s: string, prefix: string) {
    |prefix| <= |s| && s[..|prefix|] == prefix
  }

  predicate EndsWith(s: string, suffix: string) {
    |suffix| <= |s| && s[|s| - |suffix|..] == suffix
  }

  /** `pat` occurs in `s` starting at index `i`. */
  predicate OccursAt(s: string, pat: string, i: int) {
    0 <= i && i + |pat| <= |s| && s[i..i + |pat|] == pat
  }

  /**
   * `s.replace(pat, rep)`: scanning from the left, every occurrence of `pat`
   * that does not overlap an occurrence already replaced becomes `rep`.
   */
  function ReplaceAll(s: string, pat: string, rep: string): string
    requires pat != []
    decreases |s|
  {
    if s == [] then []
    else if StartsWith(s, pat) then rep + ReplaceAll(s[|pat|..], pat, rep)
    else [s[0]] + ReplaceAll(s[1..], pat, rep)
  }

  /** A string in which `pat` does not occur comes back from `replace` unchanged. */
  lemma {:induction false} ReplaceAllUnchanged(s: string, pat: string, rep: string)
    requires pat != []
    requires forall i :: 0 <= i < |s| ==> !OccursAt(s, pat, i)
    ensures ReplaceAll(s, pat, rep) == s
    decreases |s|
  {
    if s != [] {
      assert !OccursAt(s, pat, 0);
      var rest := s[1..];
      forall i | 0 <= i < |rest| ensures !OccursAt(rest, pat, i) {
        if OccursAt(rest, pat, i) {
          assert rest[i..i + |pat|] == s[i + 1..i + 1 + |pat|];
          assert OccursAt(s, pat, i + 1);
        }
      }
      ReplaceAllUnchanged(rest, pat, rep);
      assert s == [s[0]] + rest;
    }
  }

  /**
   * When `s` ends with `pat` and no occurrence of `pat` overlaps that final
   * one, the final occurrence is replaced and the rest is replaced as it
   * would be on its own: the result is the prefix's replacement followed by `rep`.
   */
  lemma {:induction false} ReplaceAllAtEnd(p: string, pat: string, rep: string)
    requires pat != []
    requires NoOverlapAtEnd(p, pat)
    ensures ReplaceAll(p + pat, pat, rep) == ReplaceAll(p, pat, rep) + rep
    decreases |p|
  {
    var s := p + pat;
    ReplaceAllStep(s, pat, rep);
    if p == [] {
      assert s == pat && StartsWith(s, pat);
      assert s[|pat|..] == [];
    } else {
      ReplaceAllStep(p, pat, rep);
      var n := FrontStep(p, pat);
      var head := if StartsWith(p, pat) then rep else [p[0]];
      AfterPrefixNoOverlap(p, pat, n);
      ReplaceAllAtEnd(p[n..], pat, rep);
      calc {
        ReplaceAll(s, pat, rep);
        head + ReplaceAll(p[n..] + pat, pat, rep);
        head + (ReplaceAll(p[n..], pat, rep) + rep);
        (head + ReplaceAll(p[n..], pat, rep)) + rep;
      }
    }
  }

  /** No occurrence of `pat` overlaps the one `p + pat` ends with. */
  predicate NoOverlapAtEnd(p: string, pat: string) {
    forall i :: |p| - |pat| < i < |p| ==> !OccursAt(p + pat, pat, i)
  }

  /**
   * The number of characters `ReplaceAll` consumes at the front of `p + pat`
   * (all of `pat` when it starts there, else one) is the number it consumes
   * at the front of `p`, and what remains of `p + pat` is the rest of `p` followed by `pat`.
   */
  lemma FrontStep(p: string, pat: string) returns (n: nat)
    requires pat != [] && p != [] && NoOverlapAtEnd(p, pat)
    ensures 0 < n <= |p|
    ensures StartsWith(p + pat, pat) <==> StartsWith(p, pat)
    ensures n == (if StartsWith(p, pat) then |pat| else 1)
    ensures (p + pat)[n..] == p[n..] + pat
  {
    var s := p + pat;
    if StartsWith(s, pat) {
      assert OccursAt(s, pat, 0);
      assert p[..|pat|] == s[..|pat|];
      n := |pat|;
    } else {
      n := 1;
    }
  }

  /** Dropping `n` characters off the front keeps the final occurrence free of overlaps. */
  lemma AfterPrefixNoOverlap(p: string, pat: string, n: nat)
    requires 0 < n <= |p| && NoOverlapAtEnd(p, pat)
    ensures NoOverlapAtEnd(p[n..], pat)
  {
    var p' := p[n..];
    forall i | |p'| - |pat| < i < |p'|
      ensures !OccursAt(p' + pat, pat, i)
    {
      if OccursAt(p' + pat, pat, i) {
        assert (p' + pat)[i..i + |pat|] == (p + pat)[i + n..i + n + |pat|];
        assert OccursAt(p + pat, pat, i + n);
      }
    }
  }

  /** One step of `ReplaceAll`: an occurrence at the front is replaced, any other first character kept. */
  lemma ReplaceAllStep(s: string, pat: string, rep: string)
    requires pat != [] && s != []
    ensures StartsWith(s, pat) ==> ReplaceAll(s, pat, rep) == rep + ReplaceAll(s[|pat|..], pat, rep)
    ensures !StartsWith(s, pat) ==> ReplaceAll(s, pat, rep) == [s[0]] + ReplaceAll(s[1..], pat, rep)
  {
  }

  predicate IsUpper(c: char) {
    'A' <= c <= 'Z'
  }

  function LowerChar(c: char): char {
    if IsUpper(c) then (c as int + 32) as char else c
  }

  /** `s.lower()` restricted to ASCII. */
  function Lower(s: string): string {
    seq(|s|, i requires 0 <= i < |s| => LowerChar(s[i]))
  }

  /**
   * Lowercasing keeps the length, turns each capital into its small letter,
   * keeps every other character, and so leaves no capital.
   */
  lemma LowerMeaning(s: string)
    ensures |Lower(s)| == |s|
    ensures forall i :: 0 <= i < |s| ==> !IsUpper(Lower(s)[i])
    ensures forall i :: 0 <= i < |s| && !IsUpper(s[i]) ==> Lower(s)[i] == s[i]
    ensures forall i :: 0 <= i < |s| && IsUpper(s[i]) ==> Lower(s)[i] as int == s[i] as int + 32
  {
  }

  /** Lowercasing twice is lowercasing once. */
  lemma LowerIdempotent(s: string)
    ensures Lower(Lower(s)) == Lower(s)
  {
  }

  /** Python's `<=` on `str`: lexicographic by code point, a prefix first. */
  predicate StrLe(a: string, b: string) {
    a == [] || (b != [] && (a[0] < b[0] || (a[0] == b[0] && StrLe(a[1..], b[1..]))))
  }

  lemma {:induction false} StrLeTotal(a: string, b: string)
    ensures StrLe(a, b) || StrLe(b, a)
  {
    if a != [] && b != [] && a[0] == b[0] {
      StrLeTotal(a[1..], b[1..]);
    }
  }

  lemma {:induction false} StrLeAntisymmetric(a: string, b: string)
    requires StrLe(a, b) && StrLe(b, a)
    ensures a == b
  {
    if a != [] {
      StrLeAntisymmetric(a[1..], b[1..]);
      assert a == [a[0]] + a[1..] && b == [b[0]] + b[1..];
    }
  }

  lemma {:induction false} StrLeTransitive(a: string, b: string, c: string)
    requires StrLe(a, b) && StrLe(b, c)
    ensures StrLe(a, c)
  {
    if a != [] && b != [] && c != [] && a[0] == b[0] && b[0] == c[0] {
      StrLeTransitive(a[1..], b[1..], c[1..]);
    }
  }
}
