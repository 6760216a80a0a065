/**
 * The free-text search parser of the Explore page: a city, a bedroom count and a
 * price ceiling are read from the query with case-insensitive patterns. Each
 * pattern is a position predicate; `match` takes the leftmost position where it holds.
 */
module SearchQuery {
  import opened Wrappers
  import opened Text
  import opened Seqs

  // ---------------------------------------------------------------- bedrooms

  /** `\b0\s*bd` or `\b0\s*br` starting at `p`. */
  predicate ZeroBedroomsAt(q: string, p: nat) {
    && p < |q| && q[p] == '0' && (p == 0 || !IsWordChar(q[p - 1]))
    && var j := SkipWhile(q, p + 1, IsSpace);
       MatchesAtCI(q, j, "bd") || MatchesAtCI(q, j, "br")
  }

  /** `/studio|\b0\s*bd|\b0\s*br/i.test(q)` */
  predicate IsStudioQuery(q: string) {
    ContainsCI(q, "studio") || First(0, |q|, (p: nat) => ZeroBedroomsAt(q, p)).Some?
  }

  /** `bd|br|bed(?:rooms?)?` starting at `j`; the optional tail never changes the capture. */
  predicate BedroomWordAt(q: string, j: nat) {
    MatchesAtCI(q, j, "bd") || MatchesAtCI(q, j, "br") || MatchesAtCI(q, j, "bed")
  }

  /** `(\d+)\s*(?:bd|br|bed(?:rooms?)?)` starting at `p`; `\d+` is greedy and followed by a letter. */
  predicate BedroomCountAt(q: string, p: nat) {
    p < |q| && IsDigit(q[p]) && BedroomWordAt(q, SkipWhile(q, SkipWhile(q, p, IsDigit), IsSpace))
  }

  /** `Number(m[1])` for the bedroom count captured at `p`. */
  function BedroomCount(q: string, p: nat): nat
    requires p <= |q|
  {
    DigitsValue(q[p..SkipWhile(q, p, IsDigit)])
  }

  /** A count before a bedroom word starts at `p`, and none starts earlier. */
  predicate LeftmostCountAt(q: string, p: nat) {
    BedroomCountAt(q, p) && forall e: nat :: e < p ==> !BedroomCountAt(q, e)
  }

  /** `parseBedrooms`: 0 for a studio query, else the leftmost count before a bedroom word, else none. */
  function ParseBedrooms(q: string): (r: Option<nat>)
    ensures IsStudioQuery(q) ==> r == Some(0)
    ensures r.None? <==> !IsStudioQuery(q) && forall p: nat :: !BedroomCountAt(q, p)
    ensures !IsStudioQuery(q) && r.Some? ==>
              exists p: nat :: BedroomCountAt(q, p) && r.value == BedroomCount(q, p)
    ensures forall p: nat :: !IsStudioQuery(q) && LeftmostCountAt(q, p) ==> r == Some(BedroomCount(q, p))
  {
    if IsStudioQuery(q) then Some(0)
    else
      var P := (p: nat) => BedroomCountAt(q, p);
      var found := First(0, |q|, P);
      if found.Some? then
        assert BedroomCountAt(q, found.value);
        assert forall p: nat :: LeftmostCountAt(q, p) ==> p == found.value by {
          forall p: nat | LeftmostCountAt(q, p) ensures p == found.value {
            assert P(p);
          }
        }
        Some(BedroomCount(q, found.value))
      else
        assert forall p: nat :: !BedroomCountAt(q, p) by {
          forall p: nat ensures !BedroomCountAt(q, p) {
            if p <= |q| { assert !P(p); }
          }
        }
        None
  }

  // ---------------------------------------------------------------- budget

  /** `[\d,.]` */
  predicate IsBudgetChar(c: char) {
    IsDigit(c) || c == ',' || c == '.'
  }

  predicate BudgetCharAt(q: string, j: nat) {
    j < |q| && IsBudgetChar(q[j])
  }

  /** `(?:₦|ngn|#)` at `j`: where the currency marker ends. */
  function CurrencyEnd(q: string, j: nat): (r: Option<nat>)
    ensures r.Some? ==> j < r.value <= |q|
    ensures j < |q| && (q[j] == '\U{20A6}' || q[j] == '#') ==> r == Some(j + 1)
    ensures MatchesAtCI(q, j, "ngn") ==> r == Some(j + 3)
    ensures r.None? <==> !(j < |q| && (q[j] == '\U{20A6}' || q[j] == '#')) && !MatchesAtCI(q, j, "ngn")
  {
    if j < |q| && q[j] == '\U{20A6}' then
      assert Lower(q[j]) != Lower("ngn"[0]);
      Some(j + 1)
    else if MatchesAtCI(q, j, "ngn") then
      assert Lower(q[j]) == Lower("ngn"[0]);
      Some(j + 3)
    else if j < |q| && q[j] == '#' then Some(j + 1)
    else None
  }

  /**
   * `\s*(?:₦|ngn|#)?\s*[\d,.]` after a keyword that ends at `k`: where the amount
   * starts. The optional currency is tried first and dropped on failure.
   */
  function AmountAfter(q: string, k: nat): (r: Option<nat>)
    requires k <= |q|
    ensures r.Some? ==> k <= r.value < |q| && IsBudgetChar(q[r.value])
  {
    var j := SkipWhile(q, k, IsSpace);
    var c := CurrencyEnd(q, j);
    if c.Some? && BudgetCharAt(q, SkipWhile(q, c.value, IsSpace)) then Some(SkipWhile(q, c.value, IsSpace))
    else if BudgetCharAt(q, j) then Some(j)
    else None
  }

  /**
   * The keyword of `(?:under|<=?|max|below)` at `p`, as its length; 0 when none
   * matches. `<=?` tries `<=` first and falls back to `<` when no amount follows.
   */
  function KeywordLength(q: string, p: nat): (n: nat)
    ensures n > 0 ==> p + n <= |q|
  {
    KeywordChoice(MatchesAtCI(q, p, "under"), MatchesAtCI(q, p, "<=") && AmountAfter(q, p + 2).Some?,
                  MatchesAtCI(q, p, "<"), MatchesAtCI(q, p, "max"), MatchesAtCI(q, p, "below"))
  }

  /**
   * The alternatives in the order the regular expression tries them: the first
   * that matches decides the keyword's length, and 0 means none matched.
   */
  function KeywordChoice(under: bool, lessEqual: bool, less: bool, max: bool, below: bool): (n: nat)
    ensures n in {0, 1, 2, 3, 5}
    ensures under ==> n == 5
    ensures !under && lessEqual ==> n == 2
    ensures !under && !lessEqual && less ==> n == 1
    ensures !under && !lessEqual && !less && max ==> n == 3
    ensures !under && !lessEqual && !less && !max && below ==> n == 5
    ensures n == 0 <==> !under && !lessEqual && !less && !max && !below
  {
    if under then 5 else if lessEqual then 2 else if less then 1 else if max then 3 else if below then 5 else 0
  }

  /** A budget keyword at `p` followed by an amount: where the amount starts. */
  function AmountStart(q: string, p: nat): (r: Option<nat>)
    ensures r.Some? ==> p < r.value < |q| && IsBudgetChar(q[r.value])
  {
    var n := KeywordLength(q, p);
    if n == 0 then None else AmountAfter(q, p + n)
  }

  /** The captured `[\d,.]+`, which greedily runs from `s`. */
  function AmountText(q: string, s: nat): (a: string)
    requires s <= |q|
    ensures forall i :: 0 <= i < |a| ==> IsBudgetChar(a[i])
  {
    q[s..SkipWhile(q, s, IsBudgetChar)]
  }

  /** Every character but the thousands separator. */
  predicate NotComma(c: char) { c != ',' }

  /** `String(a).replace(/[,]/g, '')` for an amount without a decimal point. */
  function StripCommas(a: string): (d: string)
    requires forall i :: 0 <= i < |a| ==> IsBudgetChar(a[i])
    requires '.' !in a
    ensures AllDigits(d)
    ensures (forall i :: 0 <= i < |a| ==> a[i] != ',') ==> d == a
  {
    var P := NotComma;
    var d := Filter(a, P);
    assert (forall i :: 0 <= i < |a| ==> a[i] != ',') ==> d == a by {
      if forall i :: 0 <= i < |a| ==> a[i] != ',' {
        FilterAll(a, P);
      }
    }
    assert AllDigits(d) by {
      forall i | 0 <= i < |d| ensures IsDigit(d[i]) {
        var j :| 0 <= j < |a| && a[j] == d[i];
        assert IsBudgetChar(a[j]);
      }
    }
    d
  }

  /** `([km])?` after the optional spaces at `t`: the scale of the amount. */
  function Multiplier(q: string, t: nat): nat
  {
    if t < |q| && Lower(q[t]) == 'k' then 1000
    else if t < |q| && Lower(q[t]) == 'm' then 1000000
    else 1
  }

  /** A budget keyword followed by an amount starts at `p`, and none starts earlier. */
  predicate LeftmostAmountAt(q: string, p: nat) {
    AmountStart(q, p).Some? && forall e: nat :: e < p ==> AmountStart(q, e).None?
  }

  /**
   * `parseBudget` for amounts written as digits and commas: the amount after the
   * leftmost keyword, times 1000 for `k` and 1000000 for `m`; none without a keyword.
   */
  function ParseBudget(q: string): (r: Option<nat>)
    ensures (forall p: nat :: AmountStart(q, p).None?) ==> r.None?
  {
    var P := (p: nat) => AmountStart(q, p).Some?;
    var found := First(0, |q|, P);
    if found.None? then None
    else
      assert P(found.value);
      AmountValue(q, AmountStart(q, found.value).value)
  }

  /**
   * The value of the amount whose text starts at `s`, with its optional `k`/`m`
   * scale; the model gives none for an amount with a decimal point.
   */
  function AmountValue(q: string, s: nat): (r: Option<nat>)
    requires s <= |q|
    ensures r.None? <==> '.' in AmountText(q, s)
  {
    var amount := AmountText(q, s);
    if '.' in amount then None
    else
      var t := SkipWhile(q, s + |amount|, IsSpace);
      Some(DigitsValue(StripCommas(amount)) * Multiplier(q, t))
  }

  // ---------------------------------------------------------------- city

  /** `\bvi\b` or `victoria\s*island` starting at `p`. */
  predicate VictoriaIslandAt(q: string, p: nat) {
    || (&& MatchesAtCI(q, p, "vi")
        && (p == 0 || !IsWordChar(q[p - 1]))
        && (p + 2 == |q| || !IsWordChar(q[p + 2])))
    || (MatchesAtCI(q, p, "victoria") && MatchesAtCI(q, SkipWhile(q, p + 8, IsSpace), "island"))
  }

  predicate MentionsVictoriaIsland(q: string) {
    First(0, |q|, (p: nat) => VictoriaIslandAt(q, p)).Some?
  }

  /** `parseCity`: Victoria Island, then Lekki or Ikate (Ikate when named), then Ajah, then Ikeja. */
  function ParseCity(q: string): (r: string)
    ensures r in {"Victoria Island", "Ikate", "Lekki", "Ajah", "Ikeja", ""}
    ensures r == "Victoria Island" <==> MentionsVictoriaIsland(q)
    ensures r == "Ikate" <==> !MentionsVictoriaIsland(q) && ContainsCI(q, "ikate")
    ensures r == "Lekki" <==> !MentionsVictoriaIsland(q) && ContainsCI(q, "lekki") && !ContainsCI(q, "ikate")
    ensures r == "Ajah" <==>
              !MentionsVictoriaIsland(q) && !ContainsCI(q, "lekki") && !ContainsCI(q, "ikate") && ContainsCI(q, "ajah")
    ensures r == "" <==>
              !MentionsVictoriaIsland(q) && !ContainsCI(q, "lekki") && !ContainsCI(q, "ikate")
              && !ContainsCI(q, "ajah") && !ContainsCI(q, "ikeja")
  {
    if MentionsVictoriaIsland(q) then "Victoria Island"
    else if ContainsCI(q, "lekki") || ContainsCI(q, "ikate") then (if ContainsCI(q, "ikate") then "Ikate" else "Lekki")
    else if ContainsCI(q, "ajah") then "Ajah"
    else if ContainsCI(q, "ikeja") then "Ikeja"
    else ""
  }

  // ---------------------------------------------------------------- media keys

  /** `resolveCityKey`: "vi" (any case) names Victoria Island, anything mentioning Ikate is filed under Lekki. */
  function ResolveCityKey(city: string): (r: string)
    ensures r == "Victoria Island" || r == "Lekki" || r == city
    ensures |city| == 2 && MatchesAtCI(city, 0, "vi") ==> r == "Victoria Island"
    ensures ContainsCI(city, "ikate") ==> r == "Lekki"
    ensures !(|city| == 2 && MatchesAtCI(city, 0, "vi")) && !ContainsCI(city, "ikate") ==> r == city
  {
    if |city| == 2 && MatchesAtCI(city, 0, "vi") then "Victoria Island"
    else if ContainsCI(city, "ikate") then "Lekki"
    else city
  }

  /** `capitalize`: the first character upper-cased, the rest unchanged. */
  function Capitalize(s: string): (r: string)
    ensures |r| == |s|
    ensures |s| > 0 ==> r[0] == Upper(s[0]) && r[1..] == s[1..]
  {
    if s == [] then [] else [Upper(s[0])] + s[1..]
  }
}
