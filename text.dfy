/**
 * Character classes and case-insensitive matching as JavaScript regular expressions
 * without the `u` flag see them: `\s` is the WhiteSpace and LineTerminator set,
 * `\w` and `\b` use the ASCII word characters, and `/i` folds ASCII letters.
 * For the patterns the code writes out, ASCII folding decides each match: their
 * letters are ASCII, and the one other character, the naira sign, has no case.
 * A pattern built from the user's query is folded the same way.
 * Positions are indices into a string; a regex `test` or `match` is a search for
 * the leftmost position at which a position predicate holds (`First`).
 */
module Text {
  import opened Wrappers

  /** The characters matched by `\s` and removed by `String.prototype.trim`. */
  predicate IsSpace(c: char) {
    c == '\t' || c == '\n' || c == '\U{000B}' || c == '\U{000C}' || c == '\r' || c == ' '
    || c == '\U{00A0}' || c == '\U{1680}' || ('\U{2000}' <= c <= '\U{200A}')
    || c == '\U{2028}' || c == '\U{2029}' || c == '\U{202F}' || c == '\U{205F}'
    || c == '\U{3000}' || c == '\U{FEFF}'
  }

  /** `\d` */
  predicate IsDigit(c: char) {
    '0' <= c <= '9'
  }

  /** `\w`, whose complement decides `\b` */
  predicate IsWordChar(c: char) {
    ('a' <= c <= 'z') || ('A' <= c <= 'Z') || IsDigit(c) || c == '_'
  }

  /** ASCII lower-casing, the folding `/i` applies to the patterns of the modelled code. */
  function Lower(c: char): (r: char)
    ensures ('A' <= c <= 'Z') ==> 'a' <= r <= 'z' && r as int - c as int == 32
    ensures !('A' <= c <= 'Z') ==> r == c
  {
    if 'A' <= c <= 'Z' then (c as int + 32) as char else c
  }

  /** ASCII upper-casing. */
  function Upper(c: char): (r: char)
    ensures ('a' <= c <= 'z') ==> 'A' <= r <= 'Z' && c as int - r as int == 32
    ensures !('a' <= c <= 'z') ==> r == c
  {
    if 'a' <= c <= 'z' then (c as int - 32) as char else c
  }

  function LowerStr(s: string): (r: string)
    ensures |r| == |s| && forall i :: 0 <= i < |s| ==> r[i] == Lower(s[i])
  {
    seq(|s|, i requires 0 <= i < |s| => Lower(s[i]))
  }

  /** `w` occurs at position `i` of `s`, ignoring ASCII case. */
  predicate MatchesAtCI(s: string, i: nat, w: string) {
    i + |w| <= |s| && forall k :: 0 <= k < |w| ==> Lower(s[i + k]) == Lower(w[k])
  }

  /** An exact occurrence is a case-insensitive one. */
  lemma {:induction false} MatchesAtExact(s: string, i: nat, w: string)
    requires i + |w| <= |s| && s[i..i + |w|] == w
    ensures MatchesAtCI(s, i, w)
  {
    forall k | 0 <= k < |w| ensures s[i + k] == w[k] {
      assert s[i + k] == s[i..i + |w|][k];
    }
  }

  /** The leftmost position in `from..n` (inclusive) at which `P` holds. */
  function First(from: nat, n: nat, P: nat -> bool): (r: Option<nat>)
    requires from <= n
    decreases n - from
    ensures r.Some? ==> from <= r.value <= n && P(r.value)
    ensures r.Some? ==> forall j :: from <= j < r.value ==> !P(j)
    ensures r.None? ==> forall j :: from <= j <= n ==> !P(j)
  {
    if P(from) then Some(from) else if from == n then None else First(from + 1, n, P)
  }

  /** `First` finds a match whenever one exists in range. */
  lemma {:induction false} FirstFinds(from: nat, n: nat, P: nat -> bool, i: nat)
    requires from <= i <= n && P(i)
    ensures First(from, n, P).Some? && First(from, n, P).value <= i
  {
  }

  /** `First` finds exactly the leftmost position in range at which `P` holds. */
  lemma {:induction false} FirstLeftmost(from: nat, n: nat, P: nat -> bool, i: nat)
    requires from <= i <= n && P(i)
    requires forall j :: from <= j < i ==> !P(j)
    ensures First(from, n, P) == Some(i)
    decreases n - from
  {
    if from < i {
      FirstLeftmost(from + 1, n, P, i);
    }
  }

  /** `First` depends only on the values of its predicate over the range searched. */
  lemma {:induction false} FirstExt(from: nat, n: nat, P: nat -> bool, Q: nat -> bool)
    requires from <= n
    requires forall j :: from <= j <= n ==> P(j) == Q(j)
    ensures First(from, n, P) == First(from, n, Q)
    decreases n - from
  {
    if from < n {
      FirstExt(from + 1, n, P, Q);
    }
  }

  /** `new RegExp(w, 'i').test(s)` for a pattern `w` without special characters. */
  function ContainsCI(s: string, w: string): (b: bool)
    ensures b <==> exists i: nat :: MatchesAtCI(s, i, w)
  {
    var P := (i: nat) => MatchesAtCI(s, i, w);
    var r := First(0, |s|, P);
    if r.Some? then
      assert MatchesAtCI(s, r.value, w);
      true
    else
      assert forall i: nat :: !MatchesAtCI(s, i, w) by {
        forall i: nat ensures !MatchesAtCI(s, i, w) {
          if i <= |s| { assert !P(i); }
        }
      }
      false
  }

  /** A string cannot contain `w` if it lacks, in either case, one of `w`'s characters. */
  lemma {:induction false} NotContainsByChar(s: string, w: string, k: nat)
    requires k < |w|
    requires forall i :: 0 <= i < |s| ==> Lower(s[i]) != Lower(w[k])
    ensures !ContainsCI(s, w)
  {
    forall p: nat ensures !MatchesAtCI(s, p, w) {
      if p + |w| <= |s| {
        assert Lower(s[p + k]) != Lower(w[k]);
      }
    }
  }

  /** The end of the run of characters satisfying `P` that starts at `i` (a greedy `P*`). */
  function SkipWhile(s: string, i: nat, P: char -> bool): (j: nat)
    requires i <= |s|
    decreases |s| - i
    ensures i <= j <= |s|
    ensures forall k :: i <= k < j ==> P(s[k])
    ensures j < |s| ==> !P(s[j])
  {
    if i < |s| && P(s[i]) then SkipWhile(s, i + 1, P) else i
  }

  /** `SkipWhile` stops exactly where the run of `P` characters ends. */
  lemma {:induction false} SkipWhileRun(s: string, i: nat, j: nat, P: char -> bool)
    requires i <= j <= |s|
    requires forall k :: i <= k < j ==> P(s[k])
    requires j == |s| || !P(s[j])
    ensures SkipWhile(s, i, P) == j
  {
  }

  /** The start of the run of characters satisfying `P` that ends at `j`. */
  function SkipBackWhile(s: string, j: nat, P: char -> bool): (k: nat)
    requires j <= |s|
    ensures k <= j
    ensures forall m :: k <= m < j ==> P(s[m])
    ensures k > 0 ==> !P(s[k - 1])
  {
    if j > 0 && P(s[j - 1]) then SkipBackWhile(s, j - 1, P) else j
  }

  /** A run that ends at `j`, and is not preceded by a `P` character, is the one `SkipBackWhile` finds. */
  lemma {:induction false} SkipBackWhileRun(s: string, k: nat, j: nat, P: char -> bool)
    requires k <= j <= |s|
    requires forall m :: k <= m < j ==> P(s[m])
    requires k == 0 || !P(s[k - 1])
    ensures SkipBackWhile(s, j, P) == k
    decreases j
  {
    if j > k {
      SkipBackWhileRun(s, k, j - 1, P);
    }
  }

  /** Where `Trim(s)` starts in `s`. */
  function TrimStart(s: string): nat
  {
    SkipWhile(s, 0, IsSpace)
  }

  /** `String.prototype.trim`: `s` without its leading and trailing whitespace. */
  function Trim(s: string): (r: string)
    ensures TrimStart(s) + |r| <= |s| && r == s[TrimStart(s)..TrimStart(s) + |r|]
    ensures forall k :: 0 <= k < TrimStart(s) ==> IsSpace(s[k])
    ensures forall k :: TrimStart(s) + |r| <= k < |s| ==> IsSpace(s[k])
    ensures |r| > 0 ==> !IsSpace(r[0]) && !IsSpace(r[|r| - 1])
    ensures r == [] <==> forall k :: 0 <= k < |s| ==> IsSpace(s[k])
  {
    var a := TrimStart(s);
    var b := SkipBackWhile(s, |s|, IsSpace);
    if a <= b then s[a..b] else []
  }

  predicate AllDigits(s: string) {
    forall k :: 0 <= k < |s| ==> IsDigit(s[k])
  }

  function DigitValue(c: char): (d: nat)
    requires IsDigit(c)
    ensures d < 10
  {
    c as int - '0' as int
  }

  function DigitChar(d: nat): (c: char)
    requires d < 10
    ensures IsDigit(c) && DigitValue(c) == d
  {
    ('0' as int + d) as char
  }

  /** `Number(s)` for a string of decimal digits (the empty string is 0). */
  function DigitsValue(s: string): nat
    requires AllDigits(s)
  {
    if s == [] then 0 else 10 * DigitsValue(s[..|s| - 1]) + DigitValue(s[|s| - 1])
  }

  /** The decimal rendering of a number in a template literal. */
  function NatToDecimal(n: nat): (r: string)
    ensures |r| >= 1 && AllDigits(r)
    ensures DigitsValue(r) == n
    ensures |r| > 1 ==> r[0] != '0'
  {
    if n < 10 then [DigitChar(n)]
    else
      var r := NatToDecimal(n / 10) + [DigitChar(n % 10)];
      assert r[..|r| - 1] == NatToDecimal(n / 10);
      r
  }

  /** Distinct numbers are rendered as distinct strings. */
  lemma {:induction false} NatToDecimalInjective(m: nat, n: nat)
    requires NatToDecimal(m) == NatToDecimal(n)
    ensures m == n
  {
    assert m == DigitsValue(NatToDecimal(m));
  }

  /** The number of digits of a number between `10^(k-1)` and `10^k`. */
  lemma {:induction false} NatToDecimalLength(n: nat, k: nat)
    requires k >= 1 && Pow10(k - 1) <= n < Pow10(k)
    ensures |NatToDecimal(n)| == k
  {
    if n >= 10 {
      assert k >= 2;
      assert Pow10(k - 2) <= n / 10 < Pow10(k - 1);
      NatToDecimalLength(n / 10, k - 1);
    }
  }

  function Pow10(k: nat): (p: nat)
    ensures p >= 1
  {
    if k == 0 then 1 else 10 * Pow10(k - 1)
  }

  /** `s.split(c)[0]`: the part of `s` before the first `c`, or all of `s`. */
  function BeforeFirst(s: string, c: char): (r: string)
    ensures |r| <= |s| && r == s[..|r|]
    ensures c !in r
    ensures |r| < |s| ==> s[|r|] == c
  {
    if s == [] || s[0] == c then []
    else
      var rest := BeforeFirst(s[1..], c);
      assert s[..1 + |rest|] == [s[0]] + rest;
      [s[0]] + rest
  }

  /** The part before the first `c` of `a + b` is `a` when `a` has no `c` and `b` is empty or starts with one. */
  lemma {:induction false} BeforeFirstPrefix(a: string, c: char, b: string)
    requires c !in a
    requires b == [] || b[0] == c
    ensures BeforeFirst(a + b, c) == a
  {
    if a == [] {
      assert a + b == b;
    } else {
      assert (a + b)[1..] == a[1..] + b;
      BeforeFirstPrefix(a[1..], c, b);
    }
  }

  /** `s.startsWith(p)` */
  predicate StartsWith(s: string, p: string) {
    |p| <= |s| && s[..|p|] == p
  }

  // ---- case-insensitivity: lower-casing the subject never changes a match ----

  lemma {:induction false} LowerIdempotent(c: char)
    ensures Lower(Lower(c)) == Lower(c)
    ensures IsSpace(Lower(c)) == IsSpace(c)
    ensures IsDigit(Lower(c)) == IsDigit(c)
    ensures IsWordChar(Lower(c)) == IsWordChar(c)
  {
  }

  lemma {:induction false} MatchesAtLower(s: string, i: nat, w: string)
    ensures MatchesAtCI(LowerStr(s), i, w) == MatchesAtCI(s, i, w)
  {
    forall j | 0 <= j < |s| ensures Lower(LowerStr(s)[j]) == Lower(s[j]) {
      LowerIdempotent(s[j]);
    }
  }

  lemma {:induction false} SkipWhileLower(s: string, i: nat, P: char -> bool)
    requires i <= |s|
    requires forall c :: P(Lower(c)) == P(c)
    ensures SkipWhile(LowerStr(s), i, P) == SkipWhile(s, i, P)
    decreases |s| - i
  {
    if i < |s| {
      assert P(LowerStr(s)[i]) == P(s[i]);
      SkipWhileLower(s, i + 1, P);
    }
  }

  lemma {:induction false} ContainsLower(s: string, w: string)
    ensures ContainsCI(LowerStr(s), w) == ContainsCI(s, w)
  {
    forall j: nat {
      MatchesAtLower(s, j, w);
    }
  }
}
