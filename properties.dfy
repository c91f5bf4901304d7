/**
 * The property summary (`get_props` in src/api/server.py): for each row of
 * the property table, the number of its units, their mean market rent
 * truncated to an integer, a fixed occupancy of 94 and an NOI of 65% of the
 * annual rent roll computed from that truncated mean.
 */
module PropertySummary {
  import opened Numbers
  import opened Sequences

  datatype Property = Property(id: string, name: string, neighborhood: string, cls: string)

  datatype UnitRecord = UnitRecord(propertyId: string, marketRent: real)

  datatype Summary = Summary(id: string, name: string, neighborhood: string, cls: string,
                             units: nat, occupancy: int, noi: int, avgRent: int)

  /** The single placeholder row returned when the property table is empty. */
  const MockSummary := Summary("P1", "Rodriguez Towers (Mock)", "Harlem", "B", 65, 94, 1200000, 3800)

  function BelongsTo(id: string): UnitRecord -> bool {
    (u: UnitRecord) => u.propertyId == id
  }

  function RentOf(id: string): UnitRecord -> real {
    (u: UnitRecord) => if u.propertyId == id then u.marketRent else 0.0
  }

  /** The `count` of the group: the property's unit rows. */
  function UnitCount(units: seq<UnitRecord>, id: string): nat {
    Count(units, BelongsTo(id))
  }

  /** The sum of the property's market rents. */
  function RentTotal(units: seq<UnitRecord>, id: string): real {
    SumOf(units, RentOf(id))
  }

  /** The `mean` of the group, NaN filled with 0 for a property without units, then `astype(int)`. */
  function AvgRent(units: seq<UnitRecord>, id: string): int {
    var n := UnitCount(units, id);
    if n == 0 then 0 else Trunc(RentTotal(units, id) / n as real)
  }

  /** `(units * avg_rent * 12 * 0.65).astype(int)` */
  function Noi(count: nat, avgRent: int): int {
    Trunc((count * avgRent * 12) as real * 0.65)
  }

  function SummaryOf(p: Property, units: seq<UnitRecord>): (s: Summary)
    ensures s.id == p.id && s.name == p.name && s.neighborhood == p.neighborhood && s.cls == p.cls
    ensures s.occupancy == 94
    ensures s.units == UnitCount(units, p.id)
    ensures s.avgRent == AvgRent(units, p.id)
    ensures s.noi == Noi(s.units, s.avgRent)
  {
    var n := UnitCount(units, p.id);
    var avg := AvgRent(units, p.id);
    Summary(p.id, p.name, p.neighborhood, p.cls, n, 94, Noi(n, avg), avg)
  }

  /** `get_props`: the placeholder for an empty property table, else one row per property. */
  method GetProps(props: seq<Property>, units: seq<UnitRecord>) returns (result: seq<Summary>)
    ensures props == [] ==> result == [MockSummary]
    ensures props != [] ==> |result| == |props|
                            && forall k :: 0 <= k < |props| ==> result[k] == SummaryOf(props[k], units)
  {
    if props == [] {
      return [MockSummary];
    }
    result := [];
    var i := 0;
    while i < |props|
      invariant 0 <= i <= |props|
      invariant |result| == i
      invariant forall k :: 0 <= k < i ==> result[k] == SummaryOf(props[k], units)
    {
      result := result + [SummaryOf(props[i], units)];
      i := i + 1;
    }
  }

  /** A property without unit rows gets zero units, zero rent and zero NOI. */
  lemma NoUnitsAllZero(p: Property, units: seq<UnitRecord>)
    requires forall k :: 0 <= k < |units| ==> units[k].propertyId != p.id
    ensures var s := SummaryOf(p, units); s.units == 0 && s.avgRent == 0 && s.noi == 0
  {
    CountNone(units, BelongsTo(p.id));
  }

  lemma {:induction false} CountNone<T>(s: seq<T>, p: T -> bool)
    requires forall i :: 0 <= i < |s| ==> !p(s[i])
    ensures Count(s, p) == 0
    decreases |s|
  {
    if s != [] {
      CountNone(s[..|s| - 1], p);
    }
  }

  /** The rent total lies between the unit count times the lowest and times the highest rent. */
  lemma {:induction false} RentTotalBounds(units: seq<UnitRecord>, id: string, lo: real, hi: real)
    requires forall k :: 0 <= k < |units| && units[k].propertyId == id ==> lo <= units[k].marketRent <= hi
    ensures UnitCount(units, id) as real * lo <= RentTotal(units, id) <= UnitCount(units, id) as real * hi
    decreases |units|
  {
    if units != [] {
      var init := units[..|units| - 1];
      RentTotalBounds(init, id, lo, hi);
    }
  }

  /** When all of a property's rents lie in [lo, hi] with lo >= 0, so does its truncated mean (rounded down). */
  lemma AvgRentInRange(units: seq<UnitRecord>, id: string, lo: real, hi: real)
    requires 0.0 <= lo
    requires forall k :: 0 <= k < |units| && units[k].propertyId == id ==> lo <= units[k].marketRent <= hi
    requires UnitCount(units, id) > 0
    ensures lo.Floor <= AvgRent(units, id) && AvgRent(units, id) as real <= hi
  {
    var n := UnitCount(units, id) as real;
    var total := RentTotal(units, id);
    RentTotalBounds(units, id, lo, hi);
    MeanBetween(total, n, lo, hi);
  }

  lemma MeanBetween(total: real, n: real, lo: real, hi: real)
    requires n > 0.0 && n * lo <= total <= n * hi
    ensures lo <= total / n <= hi
  {
    assert total / n - lo == (total - n * lo) / n;
    assert hi - total / n == (n * hi - total) / n;
    QuotientNonNegative(total - n * lo, n);
    QuotientNonNegative(n * hi - total, n);
  }

  lemma QuotientNonNegative(a: real, n: real)
    requires a >= 0.0 && n > 0.0
    ensures a / n >= 0.0
  {
  }

  /**
   * The NOI is computed from the truncated mean, so it never exceeds 65% of
   * the annual rent roll when rents are not negative.
   */
  lemma NoiFromTruncatedMean(units: seq<UnitRecord>, id: string)
    requires forall k :: 0 <= k < |units| ==> units[k].marketRent >= 0.0
    ensures Noi(UnitCount(units, id), AvgRent(units, id)) as real <= RentTotal(units, id) * 12.0 * 0.65
  {
    var n := UnitCount(units, id);
    var avg := AvgRent(units, id);
    var total := RentTotal(units, id);
    RentTotalNonNegative(units, id);
    if n > 0 {
      TruncatedMeanBelow(total, n as real, avg);
      var roll := (n * avg) as real;
      assert roll == n as real * avg as real;
      assert (n * avg * 12) as real * 0.65 == roll * 12.0 * 0.65;
    }
  }

  lemma {:induction false} RentTotalNonNegative(units: seq<UnitRecord>, id: string)
    requires forall k :: 0 <= k < |units| ==> units[k].marketRent >= 0.0
    ensures RentTotal(units, id) >= 0.0
    decreases |units|
  {
    if units != [] {
      RentTotalNonNegative(units[..|units| - 1], id);
    }
  }

  lemma TruncatedMeanBelow(total: real, n: real, avg: int)
    requires n > 0.0 && total >= 0.0 && avg == Trunc(total / n)
    ensures n * avg as real <= total
  {
    assert total / n >= 0.0;
    assert avg as real <= total / n;
    assert total / n * n == total;
    assert (total / n - avg as real) * n >= 0.0;
  }

  /** Reordering the unit table changes no summary. */
  lemma UnitOrderIrrelevant(p: Property, u1: seq<UnitRecord>, u2: seq<UnitRecord>)
    requires multiset(u1) == multiset(u2)
    ensures SummaryOf(p, u1) == SummaryOf(p, u2)
  {
    CountPermutation(u1, u2, BelongsTo(p.id));
    SumOfPermutation(u1, u2, RentOf(p.id));
  }
}
