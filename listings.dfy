/**
 * The Explore page's list logic over the city dictionary: the Ikate alias, the
 * padding of short rails with numbered copies, the flattening of the dictionary
 * into city-tagged listings, the rail chip filter and the free-text search.
 */
module Listings {
  import opened Wrappers
  import opened Text
  import opened Seqs
  import opened Apartments
  import opened SearchQuery

  // ---------------------------------------------------------------- mapWithIkate

  /** `/ikate/i.test(u.title)` */
  predicate MentionsIkate(u: Unit) {
    ContainsCI(u.title, "ikate")
  }

  /**
   * The Ikate entry made from the Lekki units: those whose title names Ikate, in
   * order, then the first Lekki unit (`lekki.slice(0, 1)`).
   */
  function IkateUnits(lekki: seq<Unit>): (ikate: seq<Unit>)
    ensures ikate == [] <==> lekki == []
    ensures lekki != [] ==> ikate[|ikate| - 1] == lekki[0]
    ensures lekki != [] ==> ikate[..|ikate| - 1] == Filter(lekki, MentionsIkate)
    ensures forall i :: 0 <= i < |ikate| ==> ikate[i] in lekki
    ensures forall i :: 0 <= i < |ikate| - 1 ==> MentionsIkate(ikate[i])
    ensures forall i :: 0 <= i < |lekki| && MentionsIkate(lekki[i]) ==> lekki[i] in ikate
  {
    var named := Filter(lekki, MentionsIkate);
    var ikate := named + lekki[..if |lekki| < 1 then |lekki| else 1];
    assert lekki != [] ==> ikate[..|ikate| - 1] == named;
    ikate
  }

  /** `mapWithIkate`: a copy of the dictionary whose "Ikate" entry is made from the Lekki units. */
  function MapWithIkate(m: UnitsMap): (r: UnitsMap)
    ensures Keys(r) == if "Ikate" in Keys(m) then Keys(m) else Keys(m) + ["Ikate"]
    ensures forall c :: c != "Ikate" ==> Get(r, c) == Get(m, c)
    ensures Get(r, "Ikate") == IkateUnits(Get(m, "Lekki"))
  {
    Put(m, "Ikate", IkateUnits(Get(m, "Lekki")))
  }

  /**
   * A first Lekki unit whose title names Ikate is listed twice: once as a named
   * unit and once more as the trailing first unit.
   */
  lemma {:induction false} IkateFirstNamedTwice(lekki: seq<Unit>)
    requires lekki != [] && MentionsIkate(lekki[0])
    ensures var ikate := IkateUnits(lekki);
            |ikate| >= 2 && ikate[0] == lekki[0] && ikate[|ikate| - 1] == lekki[0]
    ensures multiset(IkateUnits(lekki))[lekki[0]] >= 2
  {
    var named := Filter(lekki, MentionsIkate);
    assert named == [lekki[0]] + Filter(lekki[1..], MentionsIkate);
    var ikate := IkateUnits(lekki);
    assert ikate == named + [lekki[0]];
    assert multiset(ikate) == multiset(named) + multiset{lekki[0]};
    assert lekki[0] in multiset(named);
  }

  /** When no Lekki title names Ikate, the Ikate entry is the first Lekki unit alone. */
  lemma {:induction false} IkateUnitsWithoutNamed(lekki: seq<Unit>)
    requires lekki != [] && forall i :: 0 <= i < |lekki| ==> !MentionsIkate(lekki[i])
    ensures IkateUnits(lekki) == [lekki[0]]
  {
    FilterNone(lekki, MentionsIkate);
  }

  /** The titles of the two bundled Lekki units have no `k`, so neither names Ikate. */
  lemma {:induction false} LekkiTitlesMissIkate()
    ensures !ContainsCI("Cozy Studio by the Lagoon", "ikate")
    ensures !ContainsCI("Bright 1BR with Pool Access", "ikate")
  {
    NotContainsByChar("Cozy Studio by the Lagoon", "ikate", 1);
    NotContainsByChar("Bright 1BR with Pool Access", "ikate", 1);
  }

  /** No bundled Lekki title names Ikate, so the Ikate entry is the first Lekki unit alone. */
  lemma {:induction false} SampleIkateUnits()
    ensures IkateUnits(UnitsByCity[0].units) == [UnitsByCity[0].units[0]]
  {
    var lekki := UnitsByCity[0].units;
    assert |lekki| == 2;
    assert lekki[0].title == "Cozy Studio by the Lagoon";
    assert lekki[1].title == "Bright 1BR with Pool Access";
    LekkiTitlesMissIkate();
    IkateUnitsWithoutNamed(lekki);
  }

  /** On the bundled listings the Ikate rail shows the first Lekki unit alone. */
  lemma {:induction false} SampleIkateRail()
    ensures Get(MapWithIkate(UnitsByCity), "Ikate") == [UnitsByCity[0].units[0]]
  {
    assert Get(UnitsByCity, "Lekki") == UnitsByCity[0].units;
    SampleIkateUnits();
  }

  // ---------------------------------------------------------------- ensureMinUnits

  /** The unit that pads a rail with no units of its own. */
  function DefaultUnit(city: string): (u: Unit)
    ensures u.title == city + " Apartment"
    ensures u.br == 1 && u.guests == 2 && u.pricePerNight == 80000 && u.highlights == ["Wifi", "Security"]
  {
    Unit(city + " Apartment", 1, 2, 80000, ["Wifi", "Security"])
  }

  /** The units that padding cycles through: the list itself, or the default unit when it is empty. */
  function PadBase(units: seq<Unit>, city: string): (b: seq<Unit>)
    ensures |b| > 0
  {
    if |units| > 0 then units else [DefaultUnit(city)]
  }

  /** `{ ...src, title: `${src.title} #${n}` }` */
  function Numbered(src: Unit, n: nat): Unit {
    src.(title := src.title + " #" + NatToDecimal(n))
  }

  /**
   * `ensureMinUnits`: the list, then copies of its units (of the default unit when
   * it is empty) taken in turn, each titled with its 1-based position, until the
   * list holds `minCount` units.
   */
  method EnsureMinUnits(units: seq<Unit>, minCount: int, city: string) returns (result: seq<Unit>)
    ensures |result| == if minCount > |units| then minCount else |units|
    ensures result[..|units|] == units
    ensures forall k :: |units| <= k < |result| ==>
              result[k] == Numbered(PadBase(units, city)[(k - |units|) % |PadBase(units, city)|], k + 1)
  {
    result := units;
    var base := PadBase(units, city);
    var i := 0;
    while |result| < minCount
      invariant |result| == |units| + i
      invariant i == 0 || |result| <= minCount
      invariant result[..|units|] == units
      invariant forall k :: |units| <= k < |result| ==> result[k] == Numbered(base[(k - |units|) % |base|], k + 1)
      decreases minCount - |result|
    {
      var src := base[i % |base|];
      result := result + [Numbered(src, |result| + 1)];
      i := i + 1;
    }
  }

  /** The number a padded title ends with can be read back: it is the run of digits after the last `#`. */
  lemma {:induction false} NumberedTitleReadBack(src: Unit, n: nat)
    ensures var t := Numbered(src, n).title;
            t[SkipBackWhile(t, |t|, IsDigit)..] == NatToDecimal(n)
  {
    var d := NatToDecimal(n);
    var t := src.title + " #" + d;
    var k := |src.title| + 2;
    assert t[k..] == d;
    assert t[k - 1] == '#';
    SkipBackWhileRun(t, k, |t|, IsDigit);
  }

  /** Copies numbered differently have different titles, whatever units they copy. */
  lemma {:induction false} NumberedTitlesDistinct(a: Unit, b: Unit, m: nat, n: nat)
    requires m != n
    ensures Numbered(a, m).title != Numbered(b, n).title
  {
    NumberedTitleReadBack(a, m);
    NumberedTitleReadBack(b, n);
    if Numbered(a, m).title == Numbered(b, n).title {
      NatToDecimalInjective(m, n);
    }
  }

  // ---------------------------------------------------------------- allUnits

  /** A unit tagged with the key of the list it came from: `{ city, ...u }`. */
  datatype Listing = Listing(city: string, unit: Unit)

  /**
   * The units of one entry, each tagged with the entry's key. The comprehension
   * is the reference definition that the inner loop of `AllUnits` is proved against.
   */
  function Tagged(e: Entry): (r: seq<Listing>)
    ensures |r| == |e.units| && forall j :: 0 <= j < |r| ==> r[j] == Listing(e.city, e.units[j])
  {
    seq(|e.units|, j requires 0 <= j < |e.units| => Listing(e.city, e.units[j]))
  }

  /** All listings of `m`, entry by entry in iteration order. */
  function Flatten(m: UnitsMap): seq<Listing>
  {
    if m == [] then [] else Flatten(m[..|m| - 1]) + Tagged(m[|m| - 1])
  }

  /** The number of units over all entries. */
  function TotalUnits(m: UnitsMap): nat
  {
    if m == [] then 0 else TotalUnits(m[..|m| - 1]) + |m[|m| - 1].units|
  }

  /** `allUnits` lists as many units as the entries hold together. */
  lemma {:induction false} FlattenLength(m: UnitsMap)
    ensures |Flatten(m)| == TotalUnits(m)
  {
    if m != [] {
      FlattenLength(m[..|m| - 1]);
    }
  }

  /** A listing is produced exactly when its unit is stored under its city. */
  lemma {:induction false} FlattenMember(m: UnitsMap, l: Listing)
    ensures l in Flatten(m) <==>
              exists i, j :: 0 <= i < |m| && 0 <= j < |m[i].units| && l == Listing(m[i].city, m[i].units[j])
  {
    if m != [] {
      var init := m[..|m| - 1];
      var last := m[|m| - 1];
      FlattenMember(init, l);
      assert Flatten(m) == Flatten(init) + Tagged(last);
      if l in Flatten(m) {
        if l in Flatten(init) {
          var i, j :| 0 <= i < |init| && 0 <= j < |init[i].units| && l == Listing(init[i].city, init[i].units[j]);
          assert m[i] == init[i];
        } else {
          var j :| 0 <= j < |Tagged(last)| && Tagged(last)[j] == l;
          assert l == Listing(m[|m| - 1].city, m[|m| - 1].units[j]);
        }
      }
      if exists i, j :: 0 <= i < |m| && 0 <= j < |m[i].units| && l == Listing(m[i].city, m[i].units[j]) {
        var i, j :| 0 <= i < |m| && 0 <= j < |m[i].units| && l == Listing(m[i].city, m[i].units[j]);
        if i < |m| - 1 {
          assert init[i] == m[i];
          assert l in Flatten(init);
        } else {
          assert Tagged(last)[j] == l;
        }
      }
    }
  }

  /** `allUnits`: every unit of every entry, tagged with its city, in iteration order. */
  method AllUnits(m: UnitsMap) returns (arr: seq<Listing>)
    ensures arr == Flatten(m)
  {
    arr := [];
    var i := 0;
    while i < |m|
      invariant 0 <= i <= |m|
      invariant arr == Flatten(m[..i])
    {
      var e := m[i];
      var j := 0;
      while j < |e.units|
        invariant 0 <= j <= |e.units|
        invariant arr == Flatten(m[..i]) + Tagged(e)[..j]
      {
        assert Tagged(e)[..j + 1] == Tagged(e)[..j] + [Listing(e.city, e.units[j])];
        arr := arr + [Listing(e.city, e.units[j])];
        j := j + 1;
      }
      assert m[..i + 1][..i] == m[..i];
      assert Tagged(e)[..j] == Tagged(e);
      i := i + 1;
    }
    assert m[..|m|] == m;
  }

  // ---------------------------------------------------------------- filterUnits

  /** What a rail chip keeps: the bedroom chips select by bedroom count, any other chip keeps everything. */
  predicate ChipKeeps(filter: string, u: Unit) {
    && (filter == "studio" ==> u.br == 0)
    && (filter == "1bd" ==> u.br == 1)
    && (filter == "2bd" ==> u.br == 2)
    && (filter == "3bd" ==> u.br >= 3)
  }

  /** The chip as a filter callback. */
  function Chip(filter: string): Unit -> bool {
    u => ChipKeeps(filter, u)
  }

  /** `filterUnits`: the units of `city` that the selected chip keeps, in order. */
  function FilterUnits(m: UnitsMap, city: string, filter: string): (r: seq<Unit>)
    ensures r == Filter(Get(m, city), Chip(filter))
    ensures city !in Keys(m) ==> r == []
    ensures filter !in {"studio", "1bd", "2bd", "3bd"} ==> r == Get(m, city)
  {
    var all := Get(m, city);
    assert filter !in {"studio", "1bd", "2bd", "3bd"} ==> Filter(all, Chip(filter)) == all by {
      if filter !in {"studio", "1bd", "2bd", "3bd"} { FilterAll(all, Chip(filter)); }
    }
    if filter == "" || filter == "all" then all
    else if filter == "studio" then
      var P := (u: Unit) => u.br == 0;
      FilterExt(all, P, Chip(filter));
      Filter(all, P)
    else if filter == "1bd" then
      var P := (u: Unit) => u.br == 1;
      FilterExt(all, P, Chip(filter));
      Filter(all, P)
    else if filter == "2bd" then
      var P := (u: Unit) => u.br == 2;
      FilterExt(all, P, Chip(filter));
      Filter(all, P)
    else if filter == "3bd" then
      var P := (u: Unit) => u.br >= 3;
      FilterExt(all, P, Chip(filter));
      Filter(all, P)
    else all
  }

  /** The chips are labelled All, Studio, 1BD, 2BD, 3BD and More; "More" selects by nothing. */
  lemma {:induction false} MoreChipKeepsAll(m: UnitsMap, city: string)
    ensures FilterUnits(m, city, LowerStr("More")) == Get(m, city)
  {
    assert LowerStr("More") == "more";
  }

  // ---------------------------------------------------------------- searchResults

  /**
   * What a non-empty trimmed query `q` asks of a listing: the city it names, the
   * bedroom count it names, a price within its non-zero budget, and a title
   * containing the whole query.
   */
  predicate Criteria(q: string, l: Listing) {
    && (ParseCity(q) != "" ==> ContainsCI(l.city, ParseCity(q)))
    && (ParseBedrooms(q).Some? ==> l.unit.br == ParseBedrooms(q).value)
    && (ParseBudget(q).Some? && ParseBudget(q).value != 0 ==> l.unit.pricePerNight <= ParseBudget(q).value)
    && ContainsCI(l.unit.title, q)
  }

  /** The criteria as a filter callback. */
  function Matches(q: string): Listing -> bool {
    l => Criteria(q, l)
  }

  /** The search callback, test by test with its early rejections. */
  function Keep(q: string, city: string, bd: Option<nat>, budget: Option<nat>, l: Listing): (b: bool)
    ensures b <==> && (city != "" ==> ContainsCI(l.city, city))
                   && (bd.Some? ==> l.unit.br == bd.value)
                   && (budget.Some? && budget.value != 0 ==> l.unit.pricePerNight <= budget.value)
                   && (ContainsCI(l.unit.title, q) || q == [])
  {
    if city != "" && !ContainsCI(l.city, city) then false
    else if bd.Some? && l.unit.br != bd.value then false
    else if budget.Some? && budget.value != 0 && l.unit.pricePerNight > budget.value then false
    else ContainsCI(l.unit.title, q) || q == []
  }

  /** `searchResults`: the listings that pass the parsed filters of the trimmed query, in order. */
  function SearchResults(all: seq<Listing>, query: string): (r: seq<Listing>)
    ensures Trim(query) == [] ==> r == []
    ensures Trim(query) != [] ==> r == Filter(all, Matches(Trim(query)))
    ensures Subsequence(r, all)
    ensures forall i :: 0 <= i < |r| ==> Criteria(Trim(query), r[i])
    ensures Trim(query) != [] ==> forall i :: 0 <= i < |all| && Criteria(Trim(query), all[i]) ==> all[i] in r
  {
    var q := Trim(query);
    if q == [] then
      assert Subsequence([], all);
      []
    else
      var city, bd, budget := ParseCity(q), ParseBedrooms(q), ParseBudget(q);
      var P := (l: Listing) => Keep(q, city, bd, budget, l);
      assert forall l :: P(l) == Criteria(q, l);
      FilterExt(all, P, Matches(q));
      Filter(all, P)
  }

  /**
   * Every test applies at once and the title must contain the whole query, so a
   * query that no title contains finds nothing, whatever city, bedrooms or budget
   * it names.
   */
  lemma {:induction false} SearchNeedsTitleMatch(all: seq<Listing>, query: string)
    requires forall n :: 0 <= n < |all| ==> !ContainsCI(all[n].unit.title, Trim(query))
    ensures SearchResults(all, query) == []
  {
    SubsequenceMembers(SearchResults(all, query), all);
  }

}
