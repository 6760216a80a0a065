/**
 * The listing records and the city-to-units dictionary. A `UnitsMap` is kept as
 * an ordered list of entries because the code walks it with `Object.entries`,
 * whose order is the insertion order of the (non-numeric) city keys.
 */
module Apartments {

  datatype Unit = Unit(title: string, br: int, guests: int, pricePerNight: int, highlights: seq<string>)

  datatype Entry = Entry(city: string, units: seq<Unit>)

  type UnitsMap = seq<Entry>

  /** The keys of the dictionary, in iteration order. */
  function Keys(m: UnitsMap): (ks: seq<string>)
    ensures |ks| == |m| && forall i :: 0 <= i < |m| ==> ks[i] == m[i].city
  {
    if m == [] then [] else [m[0].city] + Keys(m[1..])
  }

  /** `m[city] || []`: the units stored under `city`, or none when the key is absent. */
  function Get(m: UnitsMap, city: string): (r: seq<Unit>)
    ensures city !in Keys(m) ==> r == []
    ensures forall i :: 0 <= i < |m| && m[i].city == city && (forall j :: 0 <= j < i ==> m[j].city != city)
              ==> r == m[i].units
  {
    if m == [] then []
    else if m[0].city == city then m[0].units
    else Get(m[1..], city)
  }

  /** `m[city] = units`: overwrites the value of an existing key in place, or adds the key last. */
  function Put(m: UnitsMap, city: string, units: seq<Unit>): (r: UnitsMap)
    ensures Keys(r) == if city in Keys(m) then Keys(m) else Keys(m) + [city]
    ensures Get(r, city) == units
    ensures forall c :: c != city ==> Get(r, c) == Get(m, c)
  {
    if m == [] then [Entry(city, units)]
    else if m[0].city == city then [Entry(city, units)] + m[1..]
    else
      var r := [m[0]] + Put(m[1..], city, units);
      assert r[1..] == Put(m[1..], city, units);
      r
  }

  /** The bundled sample listings. */
  const UnitsByCity: UnitsMap := [
    Entry("Lekki", [
      Unit("Cozy Studio by the Lagoon", 0, 2, 65000, ["Wifi", "Kitchen", "Security"]),
      Unit("Bright 1BR with Pool Access", 1, 3, 85000, ["Pool", "Gym", "Wifi"])
    ]),
    Entry("Victoria Island", [
      Unit("Modern 1BR with Terrace", 1, 3, 120000, ["Terrace", "Security", "AC"]),
      Unit("Sea View 2BR Apartment", 2, 5, 145000, ["Sea view", "Generator", "Parking"])
    ]),
    Entry("Ajah", [
      Unit("Minimalist Studio Close to Palms", 0, 2, 50000, ["Wifi", "AC", "Security"])
    ]),
    Entry("Ikeja", [
      Unit("Ikeja GRA 1BR Near Airport", 1, 2, 60000, ["Wifi", "Parking", "Security"])
    ])
  ]
}
