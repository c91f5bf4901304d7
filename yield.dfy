/**
 * The yield-gap ranking of a property's units (`get_yield` in
 * src/api/server.py): each unit gets a pseudo-discount derived from the
 * character codes of its id, units whose annual gain from charging market
 * rent exceeds 3000 are kept, and the three largest gains are returned.
 */
module YieldGap {
  import opened Wrappers
  import opened Numbers
  import opened Sequences

  /**
   * A row of the unit table. `marketRent` and `sqft` are None where the cell
   * holds a value that Python's `int()` rejects (a NaN).
   */
  datatype UnitRow = UnitRow(propertyId: string, unitId: string, unitType: string,
                             marketRent: Option<real>, sqft: Option<real>)

  datatype Opportunity = Opportunity(unitId: string, unitType: string, currentRent: int,
                                     marketRent: int, gain: int, sqft: int)

  /** `sum(ord(c) for c in unit_id)` */
  function CodeSum(s: string): nat {
    if s == [] then 0 else s[0] as nat + CodeSum(s[1..])
  }

  /** The discount factor: 0.80 plus the code sum modulo 15, in hundredths. */
  function Discount(unitId: string): (d: real)
    ensures 0.8 <= d <= 0.94
  {
    0.80 + (CodeSum(unitId) % 15) as real / 100.0
  }

  /** `int(m_rent * discount)`: the discounted rent, truncated toward zero. */
  function CurrentRent(marketRent: int, unitId: string): int {
    Discounted(marketRent, Discount(unitId))
  }

  function Discounted(marketRent: int, discount: real): int {
    Trunc(marketRent as real * discount)
  }

  /** `(m_rent - current_rent) * 12` */
  function Gain(marketRent: int, unitId: string): int {
    (marketRent - CurrentRent(marketRent, unitId)) * 12
  }

  /** A discount of 80..94 percent never raises the rent, and takes at most a fifth of it (plus the truncation). */
  lemma DiscountedRentBounds(m: int, unitId: string)
    ensures m >= 0 ==> 0 <= CurrentRent(m, unitId) <= m && 5 * (m - CurrentRent(m, unitId)) < m + 5
    ensures m < 0 ==> CurrentRent(m, unitId) > m
  {
    ScaledTruncBounds(m, Discount(unitId));
  }

  lemma ScaledTruncBounds(m: int, f: real)
    requires 0.8 <= f < 1.0
    ensures m >= 0 ==> 0 <= Discounted(m, f) <= m && 5 * (m - Discounted(m, f)) < m + 5
    ensures m < 0 ==> Discounted(m, f) > m
  {
    var x := m as real * f;
    if m >= 0 {
      ScaleBetween(m as real, f, x);
      TruncNearScaled(m, x, Trunc(x));
    } else {
      ShrinkNegative(m as real, f, x);
    }
  }

  /** The truncation of a value between 80% and 100% of m >= 0 loses at most a fifth of m, plus one. */
  lemma TruncNearScaled(m: int, x: real, c: int)
    requires m >= 0 && 0.8 * m as real <= x <= m as real && c == Trunc(x)
    ensures 0 <= c <= m && 5 * (m - c) < m + 5
  {
    assert c as real <= x < c as real + 1.0;
    assert (m - c) as real < m as real - x + 1.0;
    assert ((5 * (m - c)) as real) < (m + 5) as real;
  }

  lemma ScaleBetween(m: real, f: real, x: real)
    requires m >= 0.0 && 0.8 <= f <= 1.0 && x == m * f
    ensures 0.8 * m <= x <= m
  {
    assert m * (f - 0.8) >= 0.0;
    assert m * (1.0 - f) >= 0.0;
  }

  lemma ShrinkNegative(a: real, f: real, x: real)
    requires a < 0.0 && 0.0 <= f < 1.0 && x == a * f
    ensures x > a
  {
    assert a * (1.0 - f) < 0.0;
  }

  /** The gain is never negative for a non-negative market rent. */
  lemma GainNonNegative(m: int, unitId: string)
    requires m >= 0
    ensures 0 <= Gain(m, unitId)
  {
    DiscountedRentBounds(m, unitId);
  }

  /** Only market rents above 1250 can yield a gain above 3000. */
  lemma LargeGainNeedsRentAbove1250(m: int, unitId: string)
    requires Gain(m, unitId) > 3000
    ensures m > 1250
  {
    DiscountedRentBounds(m, unitId);
  }

  /**
   * One iteration of the unit loop: None where `int()` fails (the `except:
   * continue`) or the gain is 3000 or less.
   */
  function OpportunityOf(u: UnitRow): (r: Option<Opportunity>)
    ensures r.Some? <==> u.marketRent.Some? && u.sqft.Some? && Gain(Trunc(u.marketRent.value), u.unitId) > 3000
    ensures r.Some? ==> r.value.gain > 3000 && r.value.unitId == u.unitId && r.value.unitType == u.unitType
    ensures r.Some? ==> && r.value.marketRent == Trunc(u.marketRent.value)
                        && r.value.currentRent == CurrentRent(r.value.marketRent, u.unitId)
                        && r.value.gain == Gain(r.value.marketRent, u.unitId)
                        && r.value.sqft == Trunc(u.sqft.value)
    ensures r.Some? ==> 0 <= r.value.currentRent <= r.value.marketRent
  {
    match (u.marketRent, u.sqft)
    case (Some(rent), Some(area)) =>
      var m := Trunc(rent);
      var gain := Gain(m, u.unitId);
      if gain > 3000 then
        LargeGainNeedsRentAbove1250(m, u.unitId);
        DiscountedRentBounds(m, u.unitId);
        Some(Opportunity(u.unitId, u.unitType, CurrentRent(m, u.unitId), m, gain, Trunc(area)))
      else None
    case _ => None
  }

  predicate InProperty(id: string, u: UnitRow) {
    u.propertyId == id
  }

  /** `units_df[units_df['property_id'] == id]` */
  function PropertyUnits(units: seq<UnitRow>, id: string): seq<UnitRow> {
    Filter(units, u => InProperty(id, u))
  }

  /** The units the loop visits: the first 100 of the property. */
  function Scanned(units: seq<UnitRow>, id: string): seq<UnitRow> {
    Take(PropertyUnits(units, id), 100)
  }

  /** `opportunities` after the loop, in table order. */
  function Opportunities(units: seq<UnitRow>, id: string): seq<Opportunity> {
    FilterMap(Scanned(units, id), OpportunityOf)
  }

  /** The sort key of `sort(key=gain, reverse=True)`: a before b when its gain is not smaller. */
  predicate ByGainDesc(a: Opportunity, b: Opportunity) {
    a.gain >= b.gain
  }

  lemma ByGainDescTotal()
    ensures TotalPreorder(ByGainDesc)
  {
  }

  /** The response: the first three after a stable sort by decreasing gain. */
  function Yield(units: seq<UnitRow>, id: string): seq<Opportunity> {
    Take(SortBy(Opportunities(units, id), ByGainDesc), 3)
  }

  /** `get_yield`: filters, loops over at most 100 units, sorts in place and slices. */
  method GetYield(units: seq<UnitRow>, id: string) returns (r: seq<Opportunity>)
    ensures r == Yield(units, id)
  {
    var propUnits := PropertyUnits(units, id);
    if units == [] || propUnits == [] {
      EmptyYield(units, id);
      return [];
    }
    var scanned := Take(propUnits, 100);
    var opportunities: seq<Opportunity> := [];
    var i := 0;
    while i < |scanned|
      invariant 0 <= i <= |scanned|
      invariant opportunities == FilterMap(scanned[..i], OpportunityOf)
    {
      FilterMapSnoc(scanned, i, OpportunityOf);
      var unit := scanned[i];
      if unit.marketRent.Some? && unit.sqft.Some? {
        var mRent := Trunc(unit.marketRent.value);
        var currentRent := CurrentRent(mRent, unit.unitId);
        var gain := (mRent - currentRent) * 12;
        if gain > 3000 {
          assert OpportunityOf(unit) == Some(Opportunity(unit.unitId, unit.unitType, currentRent,
                                                         mRent, gain, Trunc(unit.sqft.value)));
          opportunities := opportunities + [Opportunity(unit.unitId, unit.unitType, currentRent,
                                                        mRent, gain, Trunc(unit.sqft.value))];
        } else {
          assert OpportunityOf(unit) == None;
        }
      } else {
        assert OpportunityOf(unit) == None;
      }
      i := i + 1;
    }
    assert scanned[..i] == scanned;
    assert opportunities == Opportunities(units, id);
    opportunities := SortBy(opportunities, ByGainDesc);
    r := Take(opportunities, 3);
  }

  /** No unit of the property: nothing to scan, sort or slice. */
  lemma EmptyYield(units: seq<UnitRow>, id: string)
    requires PropertyUnits(units, id) == []
    ensures Yield(units, id) == []
  {
    assert Scanned(units, id) == [];
    assert Opportunities(units, id) == [];
  }

  /** A property with no unit in the table gets no opportunities. */
  lemma UnknownPropertyEmpty(units: seq<UnitRow>, id: string)
    requires forall k :: 0 <= k < |units| ==> units[k].propertyId != id
    ensures Yield(units, id) == []
  {
    FilterNone(units, u => InProperty(id, u));
  }

  /**
   * At most three entries, each with a gain above 3000, in non-increasing
   * order of gain, each one of the opportunities found.
   */
  lemma YieldShape(units: seq<UnitRow>, id: string)
    ensures |Yield(units, id)| == if |Opportunities(units, id)| <= 3 then |Opportunities(units, id)| else 3
    ensures forall k :: 0 <= k < |Yield(units, id)| ==> Yield(units, id)[k].gain > 3000
    ensures forall k, l :: 0 <= k < l < |Yield(units, id)| ==> Yield(units, id)[k].gain >= Yield(units, id)[l].gain
    ensures multiset(Yield(units, id)) <= multiset(Opportunities(units, id))
  {
    var opps := Opportunities(units, id);
    var sorted := SortBy(opps, ByGainDesc);
    ByGainDescTotal();
    SortBySorted(opps, ByGainDesc);
    TakeSorted(sorted, 3, ByGainDesc);
    TakeLength(sorted, 3);
    TakeSplit(sorted, 3);
    FilterMapImages(Scanned(units, id), OpportunityOf, (o: Opportunity) => o.gain > 3000);
    GainsCarryOver(Yield(units, id), opps);
  }

  lemma TakeSorted<T>(s: seq<T>, n: nat, le: (T, T) -> bool)
    requires SortedBy(s, le)
    ensures SortedBy(Take(s, n), le)
  {
  }

  /** Every entry drawn from opportunities that all gain above 3000 gains above 3000. */
  lemma GainsCarryOver(r: seq<Opportunity>, opps: seq<Opportunity>)
    requires multiset(r) <= multiset(opps)
    requires forall j :: 0 <= j < |opps| ==> opps[j].gain > 3000
    ensures forall k :: 0 <= k < |r| ==> r[k].gain > 3000
  {
    forall k | 0 <= k < |r| ensures r[k].gain > 3000 {
      assert r[k] in multiset(opps);
    }
  }

  /** Nothing left out beats a returned entry. */
  lemma YieldIsTop(units: seq<UnitRow>, id: string, o: Opportunity)
    requires o in multiset(Opportunities(units, id)) - multiset(Yield(units, id))
    ensures forall k :: 0 <= k < |Yield(units, id)| ==> o.gain <= Yield(units, id)[k].gain
  {
    var opps := Opportunities(units, id);
    var sorted := SortBy(opps, ByGainDesc);
    ByGainDescTotal();
    SortBySorted(opps, ByGainDesc);
    TakeSplit(sorted, 3);
    RestBelowTaken(sorted, o);
  }

  lemma RestBelowTaken(sorted: seq<Opportunity>, o: Opportunity)
    requires SortedBy(sorted, ByGainDesc)
    requires o in multiset(sorted[|Take(sorted, 3)|..])
    ensures forall k :: 0 <= k < |Take(sorted, 3)| ==> o.gain <= Take(sorted, 3)[k].gain
  {
    var n := |Take(sorted, 3)|;
    var rest := sorted[n..];
    var j :| 0 <= j < |rest| && rest[j] == o;
    assert sorted[n + j] == o;
    forall k | 0 <= k < n ensures o.gain <= Take(sorted, 3)[k].gain {
      assert Take(sorted, 3)[k] == sorted[k];
      assert ByGainDesc(sorted[k], sorted[n + j]);
    }
  }

  /**
   * Ties keep table order: the returned entries with any given gain are the
   * first of the opportunities with that gain, in the order they were found.
   */
  lemma YieldStable(units: seq<UnitRow>, id: string, y: Opportunity)
    ensures EquivalentsOf(Yield(units, id), y, ByGainDesc) <= EquivalentsOf(Opportunities(units, id), y, ByGainDesc)
  {
    var opps := Opportunities(units, id);
    var sorted := SortBy(opps, ByGainDesc);
    ByGainDescTotal();
    SortByStable(opps, y, ByGainDesc);
    TakeSplit(sorted, 3);
    EquivalentsAppend(Take(sorted, 3), sorted[|Take(sorted, 3)|..], y, ByGainDesc);
  }

  /** Units of the property past its first 100 never affect the result. */
  lemma OnlyFirstHundredScanned(units: seq<UnitRow>, more: seq<UnitRow>, id: string)
    requires |PropertyUnits(units, id)| >= 100
    ensures Yield(units + more, id) == Yield(units, id)
  {
    FilterAppend(units, more, u => InProperty(id, u));
    TakeAppend(PropertyUnits(units, id), PropertyUnits(more, id), 100);
  }
}
