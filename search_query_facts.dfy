/** Properties of the search parser: round trips, case-insensitivity and the documented examples. */
module SearchQueryFacts {
  import opened Wrappers
  import opened Text
  import opened Seqs
  import opened SearchQuery

  // ---------------------------------------------------------------- bedrooms

  /** Shape of the queries of `BedroomsRoundTrip`: a number, optional space, a bedroom word. */
  predicate CountQuery(q: string, d: string, sep: string, w: string) {
    && q == d + sep + w
    && |d| >= 1 && AllDigits(d) && (|d| > 1 ==> d[0] != '0')
    && (sep == "" || sep == " ")
    && (w == "bd" || w == "br" || w == "bed" || w == "bedroom" || w == "bedrooms")
  }

  /** In such a query the digits run to the end of `d` and the spaces to the start of `w`. */
  lemma {:induction false} CountQueryRuns(q: string, d: string, sep: string, w: string)
    requires CountQuery(q, d, sep, w)
    ensures SkipWhile(q, 0, IsDigit) == |d| && SkipWhile(q, |d|, IsSpace) == |d| + |sep|
    ensures q[0..|d|] == d && q[|d| + |sep|..] == w
  {
    var j := |d| + |sep|;
    assert q[..|d|] == d && q[|d|..j] == sep && q[j..] == w;
    assert q[j] == w[0] == 'b';
    forall i | 0 <= i < |d| ensures IsDigit(q[i]) { assert q[i] == d[i]; }
    SkipWhileRun(q, 0, |d|, IsDigit);
    SkipWhileRun(q, |d|, j, IsSpace);
    assert q[0..|d|] == d;
  }

  /** Each bedroom word of such a query matches the word rule. */
  lemma {:induction false} BedroomWordOfCountQuery(q: string, j: nat, w: string)
    requires w == "bd" || w == "br" || w == "bed" || w == "bedroom" || w == "bedrooms"
    requires j <= |q| && q[j..] == w
    ensures BedroomWordAt(q, j)
  {
    if w == "bd" || w == "br" {
      assert q[j..j + 2] == w;
      MatchesAtExact(q, j, w);
    } else {
      assert q[j..j + 3] == w[..3] == "bed";
      MatchesAtExact(q, j, "bed");
    }
  }

  /** The digit rule matches at the start of such a query and captures the whole number. */
  lemma {:induction false} CountAtStart(q: string, d: string, sep: string, w: string)
    requires CountQuery(q, d, sep, w)
    ensures BedroomCountAt(q, 0) && BedroomCount(q, 0) == DigitsValue(d)
  {
    CountQueryRuns(q, d, sep, w);
    BedroomWordOfCountQuery(q, |d| + |sep|, w);
    assert q[0] == d[0];
  }

  /** Such a query has no `t`, so it does not contain "studio". */
  lemma {:induction false} CountQueryHasNoT(q: string, d: string, sep: string, w: string)
    requires CountQuery(q, d, sep, w)
    ensures !ContainsCI(q, "studio")
  {
    forall i | 0 <= i < |q| ensures Lower(q[i]) != 't' {
      if i < |d| { assert q[i] == d[i]; }
      else if i < |d| + |sep| { assert q[i] == ' '; }
      else { assert q[i] == w[i - |d| - |sep|]; }
    }
    NotContainsByChar(q, "studio", 1);
  }

  /** In such a query with a non-zero number, no `0` starts a word. */
  lemma {:induction false} CountQueryNoZeroAt(q: string, d: string, sep: string, w: string, p: nat)
    requires CountQuery(q, d, sep, w) && d[0] != '0'
    ensures !ZeroBedroomsAt(q, p)
  {
    if p == 0 {
      assert q[0] == d[0];
    } else if p < |d| {
      assert q[p - 1] == d[p - 1];
      assert IsWordChar(q[p - 1]);
    } else if p < |d| + |sep| {
      assert q[p] == ' ';
    } else if p < |q| {
      assert q[p] == w[p - |d| - |sep|];
    }
  }

  /** Such a query names no studio unless the number is 0. */
  lemma {:induction false} CountQueryNotStudio(q: string, d: string, sep: string, w: string)
    requires CountQuery(q, d, sep, w) && DigitsValue(d) > 0
    ensures !IsStudioQuery(q)
  {
    CountQueryHasNoT(q, d, sep, w);
    assert d[0] != '0' by {
      if |d| == 1 { assert d[..0] == []; }
    }
    forall p: nat ensures !ZeroBedroomsAt(q, p) {
      CountQueryNoZeroAt(q, d, sep, w, p);
    }
  }

  /** A bedroom count written as "N bd", "Nbr", "N bed", "N bedrooms", ... reads back as N. */
  lemma {:induction false} BedroomsRoundTrip(n: nat, sep: string, w: string)
    requires sep == "" || sep == " "
    requires w == "bd" || w == "br" || w == "bed" || w == "bedroom" || w == "bedrooms"
    ensures ParseBedrooms(NatToDecimal(n) + sep + w) == Some(n)
  {
    var d := NatToDecimal(n);
    var q := d + sep + w;
    assert CountQuery(q, d, sep, w);
    CountAtStart(q, d, sep, w);
    FirstFinds(0, |q|, (p: nat) => BedroomCountAt(q, p), 0);
    if n > 0 {
      CountQueryNotStudio(q, d, sep, w);
    }
    assert ParseBedrooms(q) == Some(BedroomCount(q, 0)) || ParseBedrooms(q) == Some(0) by {
      if !IsStudioQuery(q) {
        assert First(0, |q|, (p: nat) => BedroomCountAt(q, p)) == Some(0);
      }
    }
  }

  lemma {:induction false} SkipSpacesLower(q: string, i: nat)
    requires i <= |q|
    ensures SkipWhile(LowerStr(q), i, IsSpace) == SkipWhile(q, i, IsSpace)
  {
    forall c ensures IsSpace(Lower(c)) == IsSpace(c) { LowerIdempotent(c); }
    SkipWhileLower(q, i, IsSpace);
  }

  lemma {:induction false} ZeroBedroomsAtLower(q: string, p: nat)
    ensures ZeroBedroomsAt(LowerStr(q), p) == ZeroBedroomsAt(q, p)
  {
    if p < |q| {
      SkipSpacesLower(q, p + 1);
      MatchesAtLower(q, SkipWhile(q, p + 1, IsSpace), "bd");
      MatchesAtLower(q, SkipWhile(q, p + 1, IsSpace), "br");
      if p > 0 { LowerIdempotent(q[p - 1]); }
      assert (LowerStr(q)[p] == '0') == (q[p] == '0');
    }
  }

  lemma {:induction false} BedroomCountAtLower(q: string, p: nat)
    requires p <= |q|
    ensures BedroomCountAt(LowerStr(q), p) == BedroomCountAt(q, p)
    ensures BedroomCount(LowerStr(q), p) == BedroomCount(q, p)
  {
    var l := LowerStr(q);
    forall c ensures IsDigit(Lower(c)) == IsDigit(c) { LowerIdempotent(c); }
    SkipWhileLower(q, p, IsDigit);
    var e := SkipWhile(q, p, IsDigit);
    SkipSpacesLower(q, e);
    var j := SkipWhile(q, e, IsSpace);
    MatchesAtLower(q, j, "bd");
    MatchesAtLower(q, j, "br");
    MatchesAtLower(q, j, "bed");
    assert l[p..e] == q[p..e];
  }

  /** The bedroom parser ignores letter case. */
  lemma {:induction false} BedroomsCaseInsensitive(q: string)
    ensures ParseBedrooms(LowerStr(q)) == ParseBedrooms(q)
  {
    var l := LowerStr(q);
    ContainsLower(q, "studio");
    forall p: nat | p <= |q| ensures ZeroBedroomsAt(l, p) == ZeroBedroomsAt(q, p) {
      ZeroBedroomsAtLower(q, p);
    }
    FirstExt(0, |q|, (p: nat) => ZeroBedroomsAt(l, p), (p: nat) => ZeroBedroomsAt(q, p));
    assert IsStudioQuery(l) == IsStudioQuery(q);
    forall p: nat | p <= |q| ensures BedroomCountAt(l, p) == BedroomCountAt(q, p) {
      BedroomCountAtLower(q, p);
    }
    var Pl := (p: nat) => BedroomCountAt(l, p);
    var Pq := (p: nat) => BedroomCountAt(q, p);
    FirstExt(0, |q|, Pl, Pq);
    var found := First(0, |q|, Pq);
    if found.Some? {
      BedroomCountAtLower(q, found.value);
    }
  }

  // ---------------------------------------------------------------- budget

  function Scale(suffix: string): nat {
    if suffix == "k" then 1000 else if suffix == "m" then 1000000 else 1
  }

  /** A run of `\s` characters. */
  predicate AllSpaces(s: string) {
    forall i :: 0 <= i < |s| ==> IsSpace(s[i])
  }

  /** The optional currency marker of the budget pattern as a query may spell it, or none. */
  predicate IsMarker(m: string) {
    m == "" || m == "\U{20A6}" || m == "ngn" || m == "NGN" || m == "#"
  }

  /** A currency marker written at `a` ends right after itself. */
  lemma {:induction false} MarkerEnd(q: string, a: nat, m: string)
    requires IsMarker(m) && m != ""
    requires a + |m| <= |q| && q[a..a + |m|] == m
    ensures CurrencyEnd(q, a) == Some(a + |m|)
  {
    assert q[a] == m[0];
    if |m| == 3 {
      assert q[a + 1] == m[1] && q[a + 2] == m[2];
      assert MatchesAtCI(q, a, "ngn");
    }
  }

  /** Only `\s` characters from `i` up to `j`. */
  predicate SpacesBetween(q: string, i: nat, j: nat) {
    i <= j <= |q| && forall x :: i <= x < j ==> IsSpace(q[x])
  }

  /** Spaces and then a digit: the amount starts at the digit. */
  lemma {:induction false} AmountAfterSpaces(q: string, k: nat, s: nat)
    requires SpacesBetween(q, k, s) && s < |q| && IsDigit(q[s])
    ensures AmountAfter(q, k) == Some(s)
  {
    SkipWhileRun(q, k, s, IsSpace);
    assert !MatchesAtCI(q, s, "ngn") by { assert Lower(q[s]) != Lower("ngn"[0]); }
  }

  /** Spaces, a currency marker from `a` to `b`, spaces and then a digit: the amount starts at the digit. */
  lemma {:induction false} AmountAfterMarker(q: string, k: nat, a: nat, b: nat, s: nat)
    requires SpacesBetween(q, k, a) && a < |q| && !IsSpace(q[a]) && CurrencyEnd(q, a) == Some(b)
    requires SpacesBetween(q, b, s) && s < |q| && IsDigit(q[s])
    ensures AmountAfter(q, k) == Some(s)
  {
    SkipWhileRun(q, k, a, IsSpace);
    SkipWhileRun(q, b, s, IsSpace);
  }

  /** A run of spaces written from `i` on. */
  lemma {:induction false} SpacesAt(q: string, i: nat, sp: string)
    requires AllSpaces(sp) && i + |sp| <= |q| && q[i..i + |sp|] == sp
    ensures SpacesBetween(q, i, i + |sp|)
  {
    forall x | i <= x < i + |sp| ensures IsSpace(q[x]) { assert q[x] == sp[x - i]; }
  }

  /**
   * After a keyword ending at `k`, spaces `s1`, a marker `m` and spaces `s2`, an
   * amount starting with a digit starts right after them.
   */
  lemma {:induction false} AmountAfterParts(q: string, k: nat, s1: string, m: string, s2: string)
    requires AllSpaces(s1) && IsMarker(m) && AllSpaces(s2)
    requires var a := k + |s1|; var b := a + |m|; var s := b + |s2|;
             s < |q| && q[k..a] == s1 && q[a..b] == m && q[b..s] == s2 && IsDigit(q[s])
    ensures AmountAfter(q, k) == Some(k + |s1| + |m| + |s2|)
    ensures q[k] != '='
  {
    var a := k + |s1|;
    var b := a + |m|;
    var s := b + |s2|;
    SpacesAt(q, k, s1);
    SpacesAt(q, b, s2);
    if m == "" {
      AmountAfterSpaces(q, k, s);
    } else {
      assert q[a] == m[0];
      MarkerEnd(q, a, m);
      AmountAfterMarker(q, k, a, b, s);
    }
    if |s1| > 0 { assert IsSpace(q[k]); }
  }

  /** The amount starts at the first `[\d,.]` character after the keyword: spaces and markers are no part of it. */
  lemma {:induction false} AmountAfterFirstBudgetChar(q: string, k: nat)
    requires k <= |q|
    ensures AmountAfter(q, k).Some? ==> forall i :: k <= i < AmountAfter(q, k).value ==> !IsBudgetChar(q[i])
  {
    var j := SkipWhile(q, k, IsSpace);
    var c := CurrencyEnd(q, j);
    if c.Some? && BudgetCharAt(q, SkipWhile(q, c.value, IsSpace)) {
      forall i | j <= i < c.value ensures !IsBudgetChar(q[i]) {
        if MatchesAtCI(q, j, "ngn") { assert Lower(q[i]) == Lower("ngn"[i - j]); }
      }
    }
  }

  /**
   * The text between a keyword ending at `k` and an amount starting at `s`, as
   * `\s*(?:₦|ngn|#)?\s*` reads it: spaces up to `a`, a currency marker from `a`
   * to `b` or none when `a == b`, and spaces from `b` up to `s`.
   */
  predicate AmountGap(q: string, k: nat, a: nat, b: nat, s: nat) {
    && k <= a <= b <= s
    && SpacesBetween(q, k, a)
    && SpacesBetween(q, b, s)
    && (a == b || CurrencyEnd(q, a) == Some(b))
  }

  /** An amount found after a keyword is preceded only by spaces and an optional currency marker. */
  lemma {:induction false} AmountAfterOnlyGap(q: string, k: nat)
    requires k <= |q|
    ensures AmountAfter(q, k).Some? ==> exists a: nat, b: nat :: AmountGap(q, k, a, b, AmountAfter(q, k).value)
  {
    var j := SkipWhile(q, k, IsSpace);
    var c := CurrencyEnd(q, j);
    if c.Some? && BudgetCharAt(q, SkipWhile(q, c.value, IsSpace)) {
      assert AmountGap(q, k, j, c.value, SkipWhile(q, c.value, IsSpace));
    } else if BudgetCharAt(q, j) {
      assert AmountGap(q, k, j, j, j);
    }
  }

  /** Spaces, an optional currency marker, spaces and then a `[\d,.]` character: the amount starts there. */
  lemma {:induction false} AmountAfterGap(q: string, k: nat, a: nat, b: nat, s: nat)
    requires AmountGap(q, k, a, b, s) && BudgetCharAt(q, s)
    ensures AmountAfter(q, k) == Some(s)
  {
    if a == b {
      SkipWhileRun(q, k, s, IsSpace);
      assert !MatchesAtCI(q, s, "ngn") by { assert Lower(q[s]) != Lower("ngn"[0]); }
    } else {
      assert !IsSpace(q[a]) by {
        if MatchesAtCI(q, a, "ngn") { assert Lower(q[a]) == Lower("ngn"[0]); }
      }
      SkipWhileRun(q, k, a, IsSpace);
      SkipWhileRun(q, b, s, IsSpace);
    }
  }

  /**
   * Both directions: the amount after a keyword starts at `s` exactly when `s`
   * holds a `[\d,.]` character reached over spaces and an optional marker.
   */
  lemma {:induction false} AmountAfterExactly(q: string, k: nat, s: nat)
    requires k <= |q|
    ensures AmountAfter(q, k) == Some(s) <==> BudgetCharAt(q, s) && exists a: nat, b: nat :: AmountGap(q, k, a, b, s)
  {
    AmountAfterOnlyGap(q, k);
    if exists a: nat, b: nat :: AmountGap(q, k, a, b, s) {
      var a: nat, b: nat :| AmountGap(q, k, a, b, s);
      if BudgetCharAt(q, s) { AmountAfterGap(q, k, a, b, s); }
    }
  }

  /** A run of digits has no decimal point and no comma to strip. */
  lemma {:induction false} DigitsHaveNoSeparators(d: string)
    requires AllDigits(d)
    ensures '.' !in d && (forall i :: 0 <= i < |d| ==> IsBudgetChar(d[i]))
    ensures StripCommas(d) == d
  {
    assert '.' !in d by {
      forall i | 0 <= i < |d| ensures d[i] != '.' { assert IsDigit(d[i]); }
    }
    forall i | 0 <= i < |d| ensures d[i] != ',' && IsBudgetChar(d[i]) { assert IsDigit(d[i]); }
  }

  /** A run of digits at `s`, ended by the end of the query or by any other character, is the amount text. */
  lemma {:induction false} DigitsAmountText(q: string, s: nat, d: string)
    requires AllDigits(d)
    requires s + |d| <= |q| && q[s..s + |d|] == d
    requires s + |d| < |q| ==> !IsBudgetChar(q[s + |d|])
    ensures AmountText(q, s) == d
  {
    forall i | s <= i < s + |d| ensures IsBudgetChar(q[i]) {
      assert q[i] == q[s..s + |d|][i - s];
      assert IsDigit(d[i - s]);
    }
    SkipWhileRun(q, s, s + |d|, IsBudgetChar);
  }

  /** `AmountValue` once the amount text is known to have no decimal point. */
  lemma {:induction false} AmountValueOfText(q: string, s: nat, a: string, t: nat)
    requires s <= |q| && AmountText(q, s) == a && '.' !in a
    requires t == SkipWhile(q, s + |a|, IsSpace)
    ensures AmountValue(q, s) == Some(DigitsValue(StripCommas(a)) * Multiplier(q, t))
  {
    var amount := AmountText(q, s);
    assert amount == a && SkipWhile(q, s + |amount|, IsSpace) == t;
    var v, scale := DigitsValue(StripCommas(a)), Multiplier(q, t);
    assert AmountValue(q, s) == Some(v * scale);
  }

  /** The amount `d` followed by nothing, or by a character that is neither part of it nor a space. */
  lemma {:induction false} AmountValueOfDigits(q: string, s: nat, d: string)
    requires AllDigits(d)
    requires s + |d| <= |q| && q[s..s + |d|] == d
    requires s + |d| < |q| ==> !IsBudgetChar(q[s + |d|]) && !IsSpace(q[s + |d|])
    ensures AmountValue(q, s) == Some(DigitsValue(d) * Multiplier(q, s + |d|))
  {
    DigitsAmountText(q, s, d);
    DigitsHaveNoSeparators(d);
    SkipWhileRun(q, s + |d|, s + |d|, IsSpace);
    AmountValueOfText(q, s, d, s + |d|);
  }

  /** Each budget keyword at the start of the query is followed by its amount. */
  lemma {:induction false} KeywordAtStart(q: string, kw: string)
    requires kw == "under" || kw == "max" || kw == "below" || kw == "<=" || kw == "<"
    requires |kw| < |q| && q[..|kw|] == kw && q[|kw|] != '='
    requires AmountAfter(q, |kw|).Some?
    ensures AmountStart(q, 0) == AmountAfter(q, |kw|)
  {
    assert forall i :: 0 <= i < |kw| ==> q[i] == kw[i];
    if kw != "under" {
      assert !MatchesAtCI(q, 0, "under") by { assert Lower(q[0]) != Lower("under"[0]); }
    }
    if kw == "<" {
      assert !MatchesAtCI(q, 0, "<=") by { assert Lower(q[1]) != Lower("<="[1]); }
    }
    if kw == "max" || kw == "below" {
      assert !MatchesAtCI(q, 0, "<=") by { assert Lower(q[0]) != Lower("<="[0]); }
      assert !MatchesAtCI(q, 0, "<") by { assert Lower(q[0]) != Lower("<"[0]); }
    }
    if kw == "below" {
      assert !MatchesAtCI(q, 0, "max") by { assert Lower(q[0]) != Lower("max"[0]); }
    }
  }

  /** The pieces of a query "<keyword><spaces><marker><spaces><digits><scale>". */
  lemma {:induction false} BudgetQueryParts(kw: string, s1: string, m: string, s2: string, d: string, suffix: string)
    requires |d| >= 1 && AllDigits(d)
    requires suffix == "" || suffix == "k" || suffix == "m"
    ensures var q := kw + s1 + m + s2 + d + suffix;
            var a := |kw| + |s1|; var b := a + |m|; var s := b + |s2|; var e := s + |d|;
            && e <= |q| && q[..|kw|] == kw && q[|kw|..a] == s1 && q[a..b] == m && q[b..s] == s2
            && q[s..e] == d && IsDigit(q[s])
            && (e < |q| ==> !IsBudgetChar(q[e]) && !IsSpace(q[e]))
            && Multiplier(q, e) == Scale(suffix)
  {
    var p1 := kw + s1;
    var p2 := p1 + m;
    var p3 := p2 + s2;
    var p4 := p3 + d;
    var q := p4 + suffix;
    var a, b, s, e := |p1|, |p2|, |p3|, |p4|;
    assert q[..e] == p4 && q[e..] == suffix;
    assert p4[..s] == p3 && p4[s..] == d;
    assert p3[..b] == p2 && p3[b..] == s2;
    assert p2[..a] == p1 && p2[a..] == m;
    assert p1[..|kw|] == kw && p1[|kw|..] == s1;
    assert q[s..e] == p4[s..] && q[b..s] == p3[b..] && q[a..b] == p2[a..];
    assert q[|kw|..a] == p1[|kw|..] && q[..|kw|] == p1[..|kw|];
    assert q[s] == d[0];
    if suffix != "" {
      assert q[e] == suffix[0];
    }
  }

  /** A keyword at the very start of the query is the leftmost one: its amount is the budget. */
  lemma {:induction false} ParseBudgetAtStart(q: string, s: nat)
    requires AmountStart(q, 0) == Some(s)
    ensures ParseBudget(q) == AmountValue(q, s)
  {
    FirstFinds(0, |q|, (p: nat) => AmountStart(q, p).Some?, 0);
  }

  /** A budget whose amount, starting at `s` after the leading keyword, is the digits `d`. */
  lemma {:induction false} BudgetOfDigitsAt(q: string, s: nat, d: string)
    requires AmountStart(q, 0) == Some(s)
    requires AllDigits(d)
    requires s + |d| <= |q| && q[s..s + |d|] == d
    requires s + |d| < |q| ==> !IsBudgetChar(q[s + |d|]) && !IsSpace(q[s + |d|])
    ensures ParseBudget(q) == Some(DigitsValue(d) * Multiplier(q, s + |d|))
  {
    ParseBudgetAtStart(q, s);
    AmountValueOfDigits(q, s, d);
  }

  /** The budget is the value of the amount after the leftmost keyword, wherever in the query it stands. */
  lemma {:induction false} ParseBudgetLeftmost(q: string, p: nat)
    requires LeftmostAmountAt(q, p)
    ensures ParseBudget(q) == AmountValue(q, AmountStart(q, p).value)
  {
    var P := (e: nat) => AmountStart(q, e).Some?;
    assert p <= |q|;
    assert forall e :: 0 <= e < p ==> !P(e);
    FirstLeftmost(0, |q|, P, p);
  }

  /** A keyword followed by an amount without a decimal point always gives a budget. */
  lemma {:induction false} ParseBudgetSome(q: string, p: nat)
    requires LeftmostAmountAt(q, p)
    requires '.' !in AmountText(q, AmountStart(q, p).value)
    ensures ParseBudget(q).Some?
  {
    ParseBudgetLeftmost(q, p);
  }

  /** A query laid out as keyword, spaces, marker, spaces, digits and scale has that budget. */
  lemma {:induction false} BudgetOfParts(q: string, kw: string, s1: string, m: string, s2: string, d: string, s: nat)
    requires kw == "under" || kw == "max" || kw == "below" || kw == "<=" || kw == "<"
    requires AllSpaces(s1) && IsMarker(m) && AllSpaces(s2) && |d| >= 1 && AllDigits(d)
    requires s == |kw| + |s1| + |m| + |s2| && s + |d| <= |q|
    requires q[..|kw|] == kw && q[|kw|..|kw| + |s1|] == s1 && q[|kw| + |s1|..s - |s2|] == m && q[s - |s2|..s] == s2
    requires q[s..s + |d|] == d && IsDigit(q[s])
    requires s + |d| < |q| ==> !IsBudgetChar(q[s + |d|]) && !IsSpace(q[s + |d|])
    ensures ParseBudget(q) == Some(DigitsValue(d) * Multiplier(q, s + |d|))
  {
    AmountAfterParts(q, |kw|, s1, m, s2);
    KeywordAtStart(q, kw);
    BudgetOfDigitsAt(q, s, d);
  }

  /**
   * Each keyword, then any spaces, an optional currency marker and any spaces,
   * then N and an optional `k` or `m`, reads back as N times the scale.
   */
  lemma {:induction false} BudgetRoundTrip(kw: string, s1: string, m: string, s2: string, n: nat, suffix: string)
    requires kw == "under" || kw == "max" || kw == "below" || kw == "<=" || kw == "<"
    requires AllSpaces(s1) && IsMarker(m) && AllSpaces(s2)
    requires suffix == "" || suffix == "k" || suffix == "m"
    ensures ParseBudget(kw + s1 + m + s2 + NatToDecimal(n) + suffix) == Some(n * Scale(suffix))
  {
    var d := NatToDecimal(n);
    var q := kw + s1 + m + s2 + d + suffix;
    var s := |kw| + |s1| + |m| + |s2|;
    BudgetQueryParts(kw, s1, m, s2, d, suffix);
    BudgetOfParts(q, kw, s1, m, s2, d, s);
    var v, scale := DigitsValue(d), Multiplier(q, s + |d|);
    assert v == n && scale == Scale(suffix);
    assert ParseBudget(q) == Some(v * scale);
  }

  lemma {:induction false} SkipBudgetLower(q: string, i: nat)
    requires i <= |q|
    ensures SkipWhile(LowerStr(q), i, IsBudgetChar) == SkipWhile(q, i, IsBudgetChar)
  {
    forall c ensures IsBudgetChar(Lower(c)) == IsBudgetChar(c) { LowerIdempotent(c); }
    SkipWhileLower(q, i, IsBudgetChar);
  }

  lemma {:induction false} CurrencyEndLower(q: string, j: nat)
    ensures CurrencyEnd(LowerStr(q), j) == CurrencyEnd(q, j)
  {
    MatchesAtLower(q, j, "ngn");
    if j < |q| {
      assert (LowerStr(q)[j] == '\U{20A6}') == (q[j] == '\U{20A6}');
      assert (LowerStr(q)[j] == '#') == (q[j] == '#');
    }
  }

  lemma {:induction false} BudgetCharAtLower(q: string, j: nat)
    ensures BudgetCharAt(LowerStr(q), j) == BudgetCharAt(q, j)
  {
    if j < |q| { LowerIdempotent(q[j]); }
  }

  lemma {:induction false} AmountAfterLower(q: string, k: nat)
    requires k <= |q|
    ensures AmountAfter(LowerStr(q), k) == AmountAfter(q, k)
  {
    SkipSpacesLower(q, k);
    var j := SkipWhile(q, k, IsSpace);
    CurrencyEndLower(q, j);
    BudgetCharAtLower(q, j);
    var c := CurrencyEnd(q, j);
    if c.Some? {
      SkipSpacesLower(q, c.value);
      BudgetCharAtLower(q, SkipWhile(q, c.value, IsSpace));
    }
  }

  /** Which keyword of `(?:under|<=?|max|below)` the budget parser sees at `p`, on both spellings. */
  lemma {:induction false} KeywordsLower(q: string, p: nat)
    ensures MatchesAtCI(LowerStr(q), p, "under") == MatchesAtCI(q, p, "under")
    ensures MatchesAtCI(LowerStr(q), p, "<=") == MatchesAtCI(q, p, "<=")
    ensures MatchesAtCI(LowerStr(q), p, "<") == MatchesAtCI(q, p, "<")
    ensures MatchesAtCI(LowerStr(q), p, "max") == MatchesAtCI(q, p, "max")
    ensures MatchesAtCI(LowerStr(q), p, "below") == MatchesAtCI(q, p, "below")
  {
    MatchesAtLower(q, p, "under");
    MatchesAtLower(q, p, "<=");
    MatchesAtLower(q, p, "<");
    MatchesAtLower(q, p, "max");
    MatchesAtLower(q, p, "below");
  }

  /** Two queries that agree on each keyword test at `p` see the same keyword there. */
  lemma {:induction false} KeywordLengthAgrees(q1: string, q2: string, p: nat)
    requires MatchesAtCI(q1, p, "under") == MatchesAtCI(q2, p, "under")
    requires MatchesAtCI(q1, p, "<=") == MatchesAtCI(q2, p, "<=")
    requires MatchesAtCI(q1, p, "<") == MatchesAtCI(q2, p, "<")
    requires MatchesAtCI(q1, p, "max") == MatchesAtCI(q2, p, "max")
    requires MatchesAtCI(q1, p, "below") == MatchesAtCI(q2, p, "below")
    requires MatchesAtCI(q1, p, "<=") ==> AmountAfter(q1, p + 2) == AmountAfter(q2, p + 2)
    ensures KeywordLength(q1, p) == KeywordLength(q2, p)
  {
    var le1 := MatchesAtCI(q1, p, "<=") && AmountAfter(q1, p + 2).Some?;
    var le2 := MatchesAtCI(q2, p, "<=") && AmountAfter(q2, p + 2).Some?;
    assert le1 == le2;
  }

  /** The amount test that decides between `<=` and `<` ignores letter case. */
  lemma {:induction false} LessEqualAmountLower(q: string, p: nat)
    ensures MatchesAtCI(LowerStr(q), p, "<=") ==> AmountAfter(LowerStr(q), p + 2) == AmountAfter(q, p + 2)
  {
    var l := LowerStr(q);
    if MatchesAtCI(l, p, "<=") {
      assert p + 2 <= |l| == |q|;
      AmountAfterLower(q, p + 2);
    }
  }

  lemma {:induction false} KeywordLengthLower(q: string, p: nat)
    ensures KeywordLength(LowerStr(q), p) == KeywordLength(q, p)
  {
    KeywordsLower(q, p);
    LessEqualAmountLower(q, p);
    KeywordLengthAgrees(LowerStr(q), q, p);
  }

  /** Two queries that see the same keyword at `p`, and the same amount after it, see the same budget start. */
  lemma {:induction false} AmountStartAgrees(q1: string, q2: string, p: nat)
    ensures KeywordLength(q1, p) == KeywordLength(q2, p)
            && (KeywordLength(q1, p) > 0 ==>
                  AmountAfter(q1, p + KeywordLength(q1, p)) == AmountAfter(q2, p + KeywordLength(q1, p)))
            ==> AmountStart(q1, p) == AmountStart(q2, p)
  {
  }

  /** The amount after the keyword at `p` ignores letter case. */
  lemma {:induction false} AmountAfterKeywordLower(q: string, p: nat)
    ensures var n := KeywordLength(q, p);
            n > 0 ==> AmountAfter(LowerStr(q), p + n) == AmountAfter(q, p + n)
  {
    var n := KeywordLength(q, p);
    if n > 0 {
      AmountAfterLower(q, p + n);
    }
  }

  lemma {:induction false} AmountStartLower(q: string, p: nat)
    ensures AmountStart(LowerStr(q), p) == AmountStart(q, p)
  {
    var l := LowerStr(q);
    KeywordLengthLower(q, p);
    AmountAfterKeywordLower(q, p);
    AmountStartAgrees(l, q, p);
    var n1, n2 := KeywordLength(l, p), KeywordLength(q, p);
    assert n1 == n2;
  }

  /** Two queries with the same amount text and the same scale letter give the same value. */
  lemma {:induction false} AmountValueAgrees(q1: string, q2: string, s: nat, t: nat)
    requires s <= |q1| && s <= |q2|
    requires AmountText(q1, s) == AmountText(q2, s)
    requires t == SkipWhile(q1, s + |AmountText(q1, s)|, IsSpace) == SkipWhile(q2, s + |AmountText(q2, s)|, IsSpace)
    requires Multiplier(q1, t) == Multiplier(q2, t)
    ensures AmountValue(q1, s) == AmountValue(q2, s)
  {
  }

  lemma {:induction false} AmountValueLower(q: string, s: nat)
    requires s <= |q|
    ensures AmountValue(LowerStr(q), s) == AmountValue(q, s)
  {
    var l := LowerStr(q);
    SkipBudgetLower(q, s);
    var e := SkipWhile(q, s, IsBudgetChar);
    var a := AmountText(q, s);
    assert AmountText(l, s) == a && s + |a| == e;
    SkipSpacesLower(q, e);
    var t := SkipWhile(q, e, IsSpace);
    if t < |q| { LowerIdempotent(q[t]); }
    assert Multiplier(l, t) == Multiplier(q, t);
    AmountValueAgrees(l, q, s, t);
  }

  /** The budget parser ignores letter case. */
  lemma {:induction false} BudgetCaseInsensitive(q: string)
    ensures ParseBudget(LowerStr(q)) == ParseBudget(q)
  {
    var l := LowerStr(q);
    forall p: nat | p <= |q| ensures AmountStart(l, p).Some? == AmountStart(q, p).Some? {
      AmountStartLower(q, p);
    }
    var Pl := (p: nat) => AmountStart(l, p).Some?;
    var Pq := (p: nat) => AmountStart(q, p).Some?;
    FirstExt(0, |q|, Pl, Pq);
    var found := First(0, |q|, Pq);
    if found.Some? {
      AmountStartLower(q, found.value);
      AmountValueLower(q, AmountStart(q, found.value).value);
    }
  }

  // ---------------------------------------------------------------- city

  /** The city parser ignores letter case. */
  lemma {:induction false} CityCaseInsensitive(q: string)
    ensures ParseCity(LowerStr(q)) == ParseCity(q)
  {
    var l := LowerStr(q);
    forall c ensures IsSpace(Lower(c)) == IsSpace(c) {
      LowerIdempotent(c);
    }
    forall p: nat | p <= |q| ensures VictoriaIslandAt(l, p) == VictoriaIslandAt(q, p) {
      MatchesAtLower(q, p, "vi");
      MatchesAtLower(q, p, "victoria");
      if p > 0 { LowerIdempotent(q[p - 1]); }
      if p + 2 < |q| { LowerIdempotent(q[p + 2]); }
      if p + 8 <= |q| {
        SkipWhileLower(q, p + 8, IsSpace);
        MatchesAtLower(q, SkipWhile(q, p + 8, IsSpace), "island");
      }
    }
    FirstExt(0, |q|, (p: nat) => VictoriaIslandAt(l, p), (p: nat) => VictoriaIslandAt(q, p));
    ContainsLower(q, "lekki");
    ContainsLower(q, "ikate");
    ContainsLower(q, "ajah");
    ContainsLower(q, "ikeja");
  }

  /** Both spellings of Victoria Island start with a 'v'. */
  lemma {:induction false} NoVictoriaIslandWithoutV(q: string)
    requires forall i :: 0 <= i < |q| ==> Lower(q[i]) != 'v'
    ensures !MentionsVictoriaIsland(q)
  {
    forall p: nat | p <= |q| ensures !VictoriaIslandAt(q, p) {
      if p < |q| {
        assert Lower(q[p]) != 'v';
        assert !MatchesAtCI(q, p, "vi") by { assert Lower("vi"[0]) == 'v'; }
        assert !MatchesAtCI(q, p, "victoria") by { assert Lower("victoria"[0]) == 'v'; }
      }
    }
  }

  lemma {:induction false} VictoriaAtStart()
    ensures MatchesAtCI("Victoria Island", 0, "victoria")
  {
    var vi := "Victoria Island";
    assert vi[0] == 'V' && Lower('V') == 'v';
    forall k | 1 <= k < 8 ensures Lower(vi[k]) == Lower("victoria"[k]) {
      assert vi[k] == "victoria"[k];
    }
  }

  lemma {:induction false} IslandAfterSpace()
    ensures SkipWhile("Victoria Island", 8, IsSpace) == 9
    ensures MatchesAtCI("Victoria Island", 9, "island")
  {
    var vi := "Victoria Island";
    SkipWhileRun(vi, 8, 9, IsSpace);
    assert vi[9] == 'I' && Lower('I') == 'i';
    forall k | 1 <= k < 6 ensures Lower(vi[9 + k]) == Lower("island"[k]) {
      assert vi[9 + k] == "island"[k];
    }
  }

  /** "Victoria Island" matches the `victoria\s*island` rule at its start. */
  lemma {:induction false} VictoriaIslandMatchesAtStart()
    ensures VictoriaIslandAt("Victoria Island", 0)
  {
    VictoriaAtStart();
    IslandAfterSpace();
  }

  /** Each city name the parser returns is parsed back to itself. */
  lemma {:induction false} VictoriaIslandRoundTrip()
    ensures ParseCity("Victoria Island") == "Victoria Island"
  {
    var vi := "Victoria Island";
    VictoriaIslandMatchesAtStart();
    FirstFinds(0, |vi|, (p: nat) => VictoriaIslandAt(vi, p), 0);
  }

  lemma {:induction false} LekkiRoundTrip()
    ensures ParseCity("Lekki") == "Lekki"
  {
    NoVictoriaIslandWithoutV("Lekki");
    assert MatchesAtCI("Lekki", 0, "lekki");
    NotContainsByChar("Lekki", "ikate", 3);
  }

  lemma {:induction false} IkateRoundTrip()
    ensures ParseCity("Ikate") == "Ikate"
  {
    NoVictoriaIslandWithoutV("Ikate");
    assert MatchesAtCI("Ikate", 0, "ikate");
  }

  lemma {:induction false} AjahRoundTrip()
    ensures ParseCity("Ajah") == "Ajah"
  {
    NoVictoriaIslandWithoutV("Ajah");
    NotContainsByChar("Ajah", "lekki", 0);
    NotContainsByChar("Ajah", "ikate", 0);
    assert MatchesAtCI("Ajah", 0, "ajah");
  }

  /** "Ikeja" names none of the cities the parser tries before it. */
  lemma {:induction false} IkejaNamesNoEarlierCity()
    ensures !MentionsVictoriaIsland("Ikeja") && !ContainsCI("Ikeja", "lekki")
    ensures !ContainsCI("Ikeja", "ikate") && !ContainsCI("Ikeja", "ajah")
  {
    NoVictoriaIslandWithoutV("Ikeja");
    NotContainsByChar("Ikeja", "lekki", 0);
    NotContainsByChar("Ikeja", "ikate", 3);
    NotContainsByChar("Ikeja", "ajah", 3);
  }

  lemma {:induction false} IkejaRoundTrip()
    ensures ParseCity("Ikeja") == "Ikeja"
  {
    IkejaNamesNoEarlierCity();
    assert MatchesAtCI("Ikeja", 0, "ikeja");
  }

  /** Resolving a media key twice gives the same key as resolving it once. */
  lemma {:induction false} ResolveCityKeyIdempotent(city: string)
    ensures ResolveCityKey(ResolveCityKey(city)) == ResolveCityKey(city)
  {
    NotContainsByChar("Victoria Island", "ikate", 1);
    NotContainsByChar("Lekki", "ikate", 3);
  }

  /** Capitalizing twice is capitalizing once. */
  lemma {:induction false} CapitalizeIdempotent(s: string)
    ensures Capitalize(Capitalize(s)) == Capitalize(s)
  {
    if s != [] {
      var c := Capitalize(s);
      assert Upper(c[0]) == c[0];
      assert c[1..] == s[1..];
    }
  }

  // ---------------------------------------------------------------- examples

  lemma {:induction false} BudgetExample()
    ensures ParseBudget("under 100k") == Some(100000)
  {
    var q := "under" + " " + "" + "" + NatToDecimal(100) + "k";
    assert q == "under 100k" by { assert NatToDecimal(100) == "100"; }
    BudgetRoundTrip("under", " ", "", "", 100, "k");
  }

  /** The naira sign may stand between the keyword and the amount. */
  lemma {:induction false} NairaBudgetExample()
    ensures ParseBudget("under \U{20A6}5000") == Some(5000)
  {
    assert NatToDecimal(5000) == "5000";
    assert "under" + " " + "\U{20A6}" + "" + "5000" + "" == "under \U{20A6}5000";
    assert AllSpaces(" ") && AllSpaces("");
    BudgetRoundTrip("under", " ", "\U{20A6}", "", 5000, "");
  }

  /** So may "ngn", followed by a space, before a scaled amount. */
  lemma {:induction false} NgnBudgetExample()
    ensures ParseBudget("max ngn 20k") == Some(20000)
  {
    assert NatToDecimal(20) == "20";
    assert "max" + " " + "ngn" + " " + "20" + "k" == "max ngn 20k";
    assert AllSpaces(" ");
    BudgetRoundTrip("max", " ", "ngn", " ", 20, "k");
  }

  /** Any number of spaces may follow the keyword. */
  lemma {:induction false} SpacedBudgetExample()
    ensures ParseBudget("under  100k") == Some(100000)
  {
    assert NatToDecimal(100) == "100";
    assert "under" + "  " + "" + "" + "100" + "k" == "under  100k";
    assert AllSpaces("  ") && AllSpaces("");
    BudgetRoundTrip("under", "  ", "", "", 100, "k");
  }

  /** No budget keyword starts at a character that none of them starts with. */
  lemma {:induction false} NoKeywordAt(q: string, p: nat)
    requires p < |q| ==> Lower(q[p]) != 'u' && Lower(q[p]) != '<' && Lower(q[p]) != 'm' && Lower(q[p]) != 'b'
    ensures AmountStart(q, p).None?
  {
    assert !MatchesAtCI(q, p, "under") by { if p < |q| { assert Lower(q[p]) != Lower("under"[0]); } }
    assert !MatchesAtCI(q, p, "<=") by { if p < |q| { assert Lower(q[p]) != Lower("<="[0]); } }
    assert !MatchesAtCI(q, p, "<") by { if p < |q| { assert Lower(q[p]) != Lower("<"[0]); } }
    assert !MatchesAtCI(q, p, "max") by { if p < |q| { assert Lower(q[p]) != Lower("max"[0]); } }
    assert !MatchesAtCI(q, p, "below") by { if p < |q| { assert Lower(q[p]) != Lower("below"[0]); } }
  }

  /** In "under x5" the keyword is followed by an `x`, so no amount follows it. */
  lemma {:induction false} NoAmountAfterUnder()
    ensures MatchesAtCI("under x5", 0, "under")
    ensures AmountAfter("under x5", 5).None?
  {
    var q := "under x5";
    assert q[..5] == "under";
    MatchesAtExact(q, 0, "under");
    SkipWhileRun(q, 5, 6, IsSpace);
    assert !MatchesAtCI(q, 6, "ngn") by { assert Lower(q[6]) != Lower("ngn"[0]); }
  }

  /** No keyword of "under x5" is followed by an amount. */
  lemma {:induction false} NoAmountInUnderX(p: nat)
    ensures AmountStart("under x5", p).None?
  {
    var q := "under x5";
    if p == 0 {
      NoAmountAfterUnder();
    } else if p == 1 { NoKeywordAt(q, 1);
    } else if p == 2 { NoKeywordAt(q, 2);
    } else if p == 3 { NoKeywordAt(q, 3);
    } else if p == 4 { NoKeywordAt(q, 4);
    } else if p == 5 { NoKeywordAt(q, 5);
    } else if p == 6 { NoKeywordAt(q, 6);
    } else if p == 7 { NoKeywordAt(q, 7);
    } else { NoKeywordAt(q, p); }
  }

  /** A keyword followed by anything but spaces, a marker and an amount gives no budget. */
  lemma {:induction false} NoBudgetExample()
    ensures ParseBudget("under x5") == None
  {
    forall p: nat ensures AmountStart("under x5", p).None? {
      NoAmountInUnderX(p);
    }
  }

  lemma {:induction false} BedroomsExample()
    ensures ParseBedrooms("2BD") == Some(2)
  {
    assert LowerStr("2BD") == "2bd";
    assert NatToDecimal(2) + "" + "bd" == "2bd";
    BedroomsRoundTrip(2, "", "bd");
    BedroomsCaseInsensitive("2BD");
  }

  /** A studio query means no bedrooms, whatever count it also names. */
  lemma {:induction false} StudioExample()
    ensures ParseBedrooms("studio") == Some(0)
    ensures ParseBedrooms("studio 2bd") == Some(0)
  {
    assert MatchesAtCI("studio", 0, "studio");
    assert MatchesAtCI("studio 2bd", 0, "studio");
  }

  /** Naming Ikate wins over naming Lekki. */
  lemma {:induction false} IkateOverLekkiExample()
    ensures ParseCity("lekki ikate") == "Ikate"
  {
    NoVictoriaIslandWithoutV("lekki ikate");
    assert MatchesAtCI("lekki ikate", 6, "ikate");
  }

  /** In "max 1,500" the amount starts after the keyword and its space. */
  lemma {:induction false} CommaBudgetStart()
    ensures AmountStart("max 1,500", 0) == Some(4)
  {
    var q := "max 1,500";
    assert q[..3] == "max" && q[3..4] == " " && q[4..4] == "" && IsDigit(q[4]);
    AmountAfterParts(q, 3, " ", "", "");
    KeywordAtStart(q, "max");
  }

  /** Two amounts joined by a comma form an amount. */
  lemma {:induction false} JoinedAmountChars(a: string, b: string)
    requires forall i :: 0 <= i < |a| ==> IsBudgetChar(a[i])
    requires forall i :: 0 <= i < |b| ==> IsBudgetChar(b[i])
    requires '.' !in a && '.' !in b
    ensures forall i :: 0 <= i < |a + "," + b| ==> IsBudgetChar((a + "," + b)[i])
    ensures '.' !in a + "," + b
  {
    var j := a + "," + b;
    forall i | 0 <= i < |j| ensures IsBudgetChar(j[i]) && j[i] != '.' {
      if i < |a| { assert j[i] == a[i]; }
      else if i > |a| { assert j[i] == b[i - |a| - 1]; }
    }
  }

  /** A thousands separator between two amounts is dropped and the two are joined. */
  lemma {:induction false} StripCommasJoin(a: string, b: string)
    requires forall i :: 0 <= i < |a| ==> IsBudgetChar(a[i])
    requires forall i :: 0 <= i < |b| ==> IsBudgetChar(b[i])
    requires '.' !in a && '.' !in b
    ensures forall i :: 0 <= i < |a + "," + b| ==> IsBudgetChar((a + "," + b)[i])
    ensures '.' !in a + "," + b
    ensures StripCommas(a + "," + b) == StripCommas(a) + StripCommas(b)
  {
    JoinedAmountChars(a, b);
    var c := ",";
    FilterAppend(a + c, b, NotComma);
    FilterAppend(a, c, NotComma);
    FilterNone(c, NotComma);
    assert Filter(a, NotComma) + [] == Filter(a, NotComma);
  }

  /** Removing the comma of "1,500" leaves the digits "1500". */
  lemma {:induction false} StripCommasExample()
    ensures StripCommas("1,500") == "1500"
  {
    var a, b := "1", "500";
    assert a + "," + b == "1,500" && a + b == "1500";
    DigitsHaveNoSeparators(a);
    DigitsHaveNoSeparators(b);
    StripCommasJoin(a, b);
  }

  /** The digits "1500" read as 1500. */
  lemma {:induction false} DigitsValueExample()
    ensures DigitsValue("1500") == 1500
  {
    assert "1500"[..3] == "150" && "150"[..2] == "15" && "15"[..1] == "1" && "1"[..0] == "";
    assert DigitsValue("1") == 1;
    assert DigitsValue("15") == 15;
    assert DigitsValue("150") == 150;
  }

  /** In "max 1,500" the amount text runs to the end of the query, with no scale after it. */
  lemma {:induction false} CommaAmountText()
    ensures AmountText("max 1,500", 4) == "1,500"
    ensures SkipWhile("max 1,500", 9, IsSpace) == 9
  {
    var q := "max 1,500";
    SkipWhileRun(q, 4, 9, IsBudgetChar);
    SkipWhileRun(q, 9, 9, IsSpace);
  }

  /** The amount "1,500" reads as 1500: the comma is dropped and there is no scale. */
  lemma {:induction false} CommaBudgetValue()
    ensures AmountValue("max 1,500", 4) == Some(1500)
  {
    var q := "max 1,500";
    var a := "1,500";
    CommaAmountText();
    assert '.' !in a;
    StripCommasExample();
    DigitsValueExample();
    assert Multiplier(q, 9) == 1;
  }

  /** Thousands separators are dropped before the amount is read. */
  lemma {:induction false} CommaBudgetExample()
    ensures ParseBudget("max 1,500") == Some(1500)
  {
    var q := "max 1,500";
    CommaBudgetStart();
    ParseBudgetAtStart(q, 4);
    CommaBudgetValue();
  }
}
