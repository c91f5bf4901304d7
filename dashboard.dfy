/**
 * The dashboard route handler: counts the unit and tenant rows, sums the
 * rent after the last comma of each unit row, counts tenants whose credit
 * field is below 620, and derives occupancy, average rent and annual NOI.
 */
module Dashboard {
  import opened Wrappers
  import opened Text
  import opened Numbers
  import opened Sequences
  import opened CsvRows

  /**
   * The rent a unit row contributes: `parseFloat` of the trimmed text after
   * the last comma; None (nothing added) with no comma or a NaN parse. An
   * "Infinity" rent is not NaN and is added.
   */
  function RowRent(row: string): (r: Option<Number>)
    ensures ',' !in row ==> r.None?
    ensures r.Some? ==> !r.value.NaN?
  {
    var lastComma := LastIndexOf(row, ',');
    if lastComma == -1 then None else FieldRent(row[lastComma + 1..])
  }

  /** `parseFloat` of a trimmed field, None when that is NaN. */
  function FieldRent(field: string): (r: Option<Number>)
    ensures r.Some? ==> !r.value.NaN?
    ensures r.None? <==> ParseFloat(Trim(field)).NaN?
  {
    var rent := ParseFloat(Trim(field));
    if rent.NaN? then None else Some(rent)
  }

  /** The finite part a row adds, 0 for an infinite or missing rent. */
  function FiniteRent(row: string): real {
    match RowRent(row)
    case Some(Finite(v)) => v
    case _ => 0.0
  }

  predicate PosInfRow(row: string) {
    RowRent(row) == Some(PosInf)
  }

  predicate NegInfRow(row: string) {
    RowRent(row) == Some(NegInf)
  }

  /** The sum of the finite rents. */
  function RentSum(unitRows: seq<string>): real {
    SumOf(unitRows, FiniteRent)
  }

  /** `total += rent` when there is a rent to add. */
  function AddRent(total: Number, rent: Option<Number>): Number {
    match rent
    case None => total
    case Some(r) => Add(total, r)
  }

  /**
   * `totalMonthlyRent` after the `forEach` over the unit rows: starting from
   * 0, each row's rent is added in row order with JavaScript addition.
   */
  function RentTotal(unitRows: seq<string>): Number
    decreases |unitRows|
  {
    if unitRows == [] then Finite(0.0)
    else AddRent(RentTotal(unitRows[..|unitRows| - 1]), RowRent(unitRows[|unitRows| - 1]))
  }

  /**
   * A total described by its parts: NaN when both infinities occur, else the
   * infinity that occurs, else the finite sum.
   */
  function Tally(up: nat, down: nat, sum: real): Number {
    if up > 0 && down > 0 then NaN
    else if up > 0 then PosInf
    else if down > 0 then NegInf
    else Finite(sum)
  }

  /** Adding one non-NaN rent to a tally bumps the part that rent belongs to. */
  lemma TallyAdd(up: nat, down: nat, sum: real, rent: Option<Number>)
    requires rent.Some? ==> !rent.value.NaN?
    ensures AddRent(Tally(up, down, sum), rent) ==
      Tally(up + (if rent == Some(PosInf) then 1 else 0),
            down + (if rent == Some(NegInf) then 1 else 0),
            sum + (if rent.Some? && rent.value.Finite? then rent.value.value else 0.0))
  {
  }

  /**
   * The same total described by what the rows hold: the finite sum unless an
   * infinite rent occurs, NaN when both infinities do.
   */
  function RentTotalByCounts(unitRows: seq<string>): Number {
    Tally(Count(unitRows, PosInfRow), Count(unitRows, NegInfRow), RentSum(unitRows))
  }

  /** The running total of the loop: adding one more row's rent, if it has one. */
  lemma RentTotalSnoc(unitRows: seq<string>, i: nat)
    requires i < |unitRows|
    ensures RentTotal(unitRows[..i + 1]) == AddRent(RentTotal(unitRows[..i]), RowRent(unitRows[i]))
  {
    assert unitRows[..i + 1][..i] == unitRows[..i];
  }

  lemma ByCountsSnoc(unitRows: seq<string>, i: nat)
    requires i < |unitRows|
    ensures RentTotalByCounts(unitRows[..i + 1])
         == AddRent(RentTotalByCounts(unitRows[..i]), RowRent(unitRows[i]))
  {
    SumOfSnoc(unitRows, i, FiniteRent);
    CountSnoc(unitRows, i, PosInfRow);
    CountSnoc(unitRows, i, NegInfRow);
    var rows := unitRows[..i];
    TallyAdd(Count(rows, PosInfRow), Count(rows, NegInfRow), RentSum(rows), RowRent(unitRows[i]));
  }

  /** The running total is the total described by the rows' contents. */
  lemma {:induction false} RentTotalCounts(unitRows: seq<string>)
    ensures RentTotal(unitRows) == RentTotalByCounts(unitRows)
    decreases |unitRows|
  {
    if unitRows != [] {
      var n := |unitRows| - 1;
      RentTotalCounts(unitRows[..n]);
      ByCountsSnoc(unitRows, n);
      assert unitRows[..n + 1] == unitRows;
    }
  }

  /** RentTotalSnoc as the loop uses it: one case per branch of the `if`. */
  lemma RentTotalStep(unitRows: seq<string>, i: nat, rent: Option<Number>)
    requires i < |unitRows| && rent == RowRent(unitRows[i])
    ensures rent.Some? ==> RentTotal(unitRows[..i + 1]) == Add(RentTotal(unitRows[..i]), rent.value)
    ensures rent.None? ==> RentTotal(unitRows[..i + 1]) == RentTotal(unitRows[..i])
  {
    RentTotalSnoc(unitRows, i);
  }

  /** Adding up two runs of rows is adding their totals. */
  lemma RentTotalAppend(a: seq<string>, b: seq<string>)
    ensures RentTotal(a + b) == Add(RentTotal(a), RentTotal(b))
  {
    RentTotalCounts(a);
    RentTotalCounts(b);
    RentTotalCounts(a + b);
    SumOfAppend(a, b, FiniteRent);
    CountAppend(a, b, PosInfRow);
    CountAppend(a, b, NegInfRow);
  }

  /**
   * A row ending in a comma and the decimal text of a whole rent contributes
   * exactly that rent, whatever precedes the comma.
   */
  /**
   * Whatever precedes the last comma, a row's rent is `parseFloat` of its
   * trimmed last field, dropped only when that parse is NaN.
   */
  lemma RowRentOfLastField(prefix: string, field: string)
    requires ',' !in field
    ensures RowRent(prefix + [','] + field) ==
      (var p := ParseFloat(Trim(field)); if p.NaN? then None else Some(p))
  {
    var row := prefix + [','] + field;
    assert row[|prefix|] == ',';
    assert row[|prefix| + 1..] == field;
    LastIndexUnique(row, ',', |prefix|);
  }

  /** "Infinity" contains no comma, needs no trimming and parses as infinity. */
  lemma InfinityField(field: string)
    requires field == "Infinity"
    ensures ',' !in field && Trim(field) == field && ParseFloat(field) == PosInf
  {
    TrimUnpadded(field);
    assert Unsigned(field) == field && field[..8] == InfinityText;
    ParseInfinity(field);
  }

  /** "-Infinity" contains no comma, needs no trimming and parses as minus infinity. */
  lemma MinusInfinityField(field: string)
    requires field == "-Infinity"
    ensures ',' !in field && Trim(field) == field && ParseFloat(field) == NegInf
  {
    TrimUnpadded(field);
    var u := field[1..];
    assert Unsigned(field) == u && u == InfinityText && u[..8] == u;
    ParseInfinity(field);
  }

  /** A row whose last field is "Infinity" carries an infinite rent. */
  lemma InfinityRowIsPosInf(prefix: string, field: string)
    requires field == "Infinity"
    ensures PosInfRow(prefix + [','] + field)
  {
    InfinityField(field);
    RowRentOfLastField(prefix, field);
  }

  /** A row whose last field is "-Infinity" carries a negatively infinite rent. */
  lemma MinusInfinityRowIsNegInf(prefix: string, field: string)
    requires field == "-Infinity"
    ensures NegInfRow(prefix + [','] + field)
  {
    MinusInfinityField(field);
    RowRentOfLastField(prefix, field);
  }

  /** A whole number's digits contain no comma, need no trimming and parse back to it. */
  lemma NatField(n: nat)
    ensures var d := NatToString(n); ',' !in d && Trim(d) == d && ParseFloat(d) == Finite(n as real)
  {
    var d := NatToString(n);
    assert ',' !in d by {
      assert forall i :: 0 <= i < |d| ==> IsDigit(d[i]);
    }
    TrimUnpadded(d);
    ParseFloatOfNat(n, []);
    assert d + [] == d;
  }

  lemma RowRentOfNat(prefix: string, n: nat)
    ensures RowRent(prefix + [','] + NatToString(n)) == Some(Finite(n as real))
  {
    NatField(n);
    RowRentOfLastField(prefix, NatToString(n));
  }


  /** `cols[4]` is present and non-empty, and `parseInt` of it is a number below 620. */
  predicate LowCredit(row: string) {
    var cols := SplitOn(row, ',');
    |cols| > 4 && cols[4] != [] && Lt(ParseInt(cols[4]), 620.0)
  }

  /** `highRiskCount` after the `forEach` over the tenant rows. */
  function HighRiskCount(tenantRows: seq<string>): (n: nat)
    ensures n <= |tenantRows|
  {
    Count(tenantRows, LowCredit)
  }

  /**
   * The response. `occupancyTenths` is the occupancy rate in tenths of a
   * percent, the number `toFixed(1)` prints; `annualNOI` is the value that
   * `toLocaleString` formats.
   */
  datatype Stats = Stats(
    totalUnits: nat, occupiedUnits: nat, occupancyTenths: int,
    annualNOI: Number, avgRent: Number, highRiskTenants: nat)

  /** `Math.round(totalMonthlyRent / totalUnits)`, 0 without unit rows. */
  function AvgRent(unitRows: seq<string>): Number {
    if |unitRows| > 0 then Round(Div(RentTotal(unitRows), Finite(|unitRows| as real))) else Finite(0.0)
  }

  /** The stats expressions of the response, each guarded against zero units. */
  function StatsOf(unitRows: seq<string>, tenantRows: seq<string>): (s: Stats)
    ensures s.totalUnits == |unitRows| && s.occupiedUnits == |tenantRows|
    ensures s.highRiskTenants == HighRiskCount(tenantRows) <= s.occupiedUnits
    ensures s.totalUnits == 0 ==> s.occupancyTenths == 0 && s.avgRent == Finite(0.0)
    ensures s.totalUnits > 0 ==>
              s.occupancyTenths == RoundHalfUp(|tenantRows| as real / |unitRows| as real * 1000.0)
    ensures s.avgRent == AvgRent(unitRows)
    ensures s.annualNOI == Times(RentTotal(unitRows), 12.0)
  {
    var totalUnits := |unitRows|;
    var totalTenants := |tenantRows|;
    Stats(
      totalUnits,
      totalTenants,
      if totalUnits > 0 then RoundHalfUp(totalTenants as real / totalUnits as real * 1000.0) else 0,
      Times(RentTotal(unitRows), 12.0),
      AvgRent(unitRows),
      HighRiskCount(tenantRows))
  }

  /** `GET`: reads both files and accumulates rent and risk counts in two loops. */
  method Summarize(unitsText: string, tenantsText: string) returns (s: Stats)
    ensures s == StatsOf(DataRows(unitsText), DataRows(tenantsText))
  {
    var unitsRows := DataRows(unitsText);
    var tenantsRows := DataRows(tenantsText);
    var totalUnits := |unitsRows|;
    var totalTenants := |tenantsRows|;
    var totalMonthlyRent := AccumulateRent(unitsRows);
    var highRiskCount := CountHighRisk(tenantsRows);
    s := Stats(
      totalUnits,
      totalTenants,
      if totalUnits > 0 then RoundHalfUp(totalTenants as real / totalUnits as real * 1000.0) else 0,
      Times(totalMonthlyRent, 12.0),
      if totalUnits > 0 then Round(Div(totalMonthlyRent, Finite(totalUnits as real))) else Finite(0.0),
      highRiskCount);
  }

  /** The first `forEach`: adds the rent of every unit row whose rent is not NaN. */
  method AccumulateRent(unitsRows: seq<string>) returns (totalMonthlyRent: Number)
    ensures totalMonthlyRent == RentTotal(unitsRows)
  {
    totalMonthlyRent := Finite(0.0);
    var i := 0;
    while i < |unitsRows|
      invariant 0 <= i <= |unitsRows|
      invariant totalMonthlyRent == RentTotal(unitsRows[..i])
    {
      var rent := RowRent(unitsRows[i]);
      RentTotalStep(unitsRows, i, rent);
      if rent.Some? {
        totalMonthlyRent := Add(totalMonthlyRent, rent.value);
      }
      i := i + 1;
    }
    assert unitsRows[..i] == unitsRows;
  }

  /** The second `forEach`: counts the tenant rows with a credit field below 620. */
  method CountHighRisk(tenantsRows: seq<string>) returns (highRiskCount: nat)
    ensures highRiskCount == HighRiskCount(tenantsRows)
  {
    highRiskCount := 0;
    var j := 0;
    while j < |tenantsRows|
      invariant 0 <= j <= |tenantsRows|
      invariant highRiskCount == Count(tenantsRows[..j], LowCredit)
    {
      CountSnoc(tenantsRows, j, LowCredit);
      var cols := SplitOn(tenantsRows[j], ',');
      if |cols| > 4 && cols[4] != [] {
        var credit := ParseInt(cols[4]);
        if credit != NaN && Lt(credit, 620.0) {
          highRiskCount := highRiskCount + 1;
        }
      }
      j := j + 1;
    }
    assert tenantsRows[..j] == tenantsRows;
  }

  /** No unit row holds an infinite rent. */
  predicate AllRentsFinite(unitRows: seq<string>) {
    Count(unitRows, PosInfRow) == 0 && Count(unitRows, NegInfRow) == 0
  }

  /** `avg` times `u` is within half of `u` of `total`. */
  predicate WithinHalf(avg: real, total: real, u: real) {
    -u / 2.0 < avg * u - total <= u / 2.0
  }

  /** With every rent finite the average is the rounded mean of the rent sum. */
  lemma AvgRentOfFinite(unitRows: seq<string>)
    requires |unitRows| > 0 && AllRentsFinite(unitRows)
    ensures AvgRent(unitRows) == Finite(RoundHalfUp(RentSum(unitRows) / |unitRows| as real) as real)
  {
    var total := RentSum(unitRows);
    RentTotalCounts(unitRows);
    assert RentTotal(unitRows) == Finite(total);
  }

  /**
   * When every rent is finite, the rounded average times the number of unit
   * rows is within half that number of the rent sum.
   */
  lemma AvgRentWithinHalf(unitRows: seq<string>)
    requires |unitRows| > 0 && AllRentsFinite(unitRows)
    ensures AvgRent(unitRows).Finite?
    ensures WithinHalf(AvgRent(unitRows).value, RentSum(unitRows), |unitRows| as real)
  {
    AvgRentOfFinite(unitRows);
    RoundedMeanBound(AvgRent(unitRows), RentSum(unitRows), |unitRows| as real);
  }

  /**
   * One "Infinity" rent makes the annual NOI and the average rent infinite;
   * an "Infinity" and a "-Infinity" rent together make both NaN.
   */
  lemma InfiniteRentSpoilsTotals(unitRows: seq<string>, tenantRows: seq<string>)
    requires Count(unitRows, PosInfRow) > 0
    ensures var s := StatsOf(unitRows, tenantRows);
            if Count(unitRows, NegInfRow) > 0 then s.annualNOI == NaN && s.avgRent == NaN
            else s.annualNOI == PosInf && s.avgRent == PosInf
  {
    assert |unitRows| > 0;
    RentTotalCounts(unitRows);
  }

  lemma RoundedMeanBound(a: Number, total: real, u: real)
    requires u > 0.0 && a == Finite(RoundHalfUp(total / u) as real)
    ensures WithinHalf(a.value, total, u)
  {
    RoundedMeanError(total, u, RoundHalfUp(total / u));
  }

  lemma RoundedMeanError(total: real, u: real, avg: int)
    requires u > 0.0 && avg == RoundHalfUp(total / u)
    ensures -u / 2.0 < avg as real * u - total <= u / 2.0
  {
    var x := total / u;
    var e := avg as real - x;
    assert avg as real * u - total == e * u by {
      assert x * u == total;
    }
    ScaledBounds(e, u);
  }

  lemma ScaledBounds(e: real, u: real)
    requires u > 0.0 && -0.5 < e <= 0.5
    ensures -u / 2.0 < e * u <= u / 2.0
  {
    assert (e + 0.5) * u > 0.0;
    assert (0.5 - e) * u >= 0.0;
  }

  /** The rate is not clamped: twice as many tenant rows as unit rows reads 200.0. */
  lemma OccupancyNotClamped(unitRows: seq<string>, tenantRows: seq<string>)
    requires |unitRows| > 0 && |tenantRows| == 2 * |unitRows|
    ensures StatsOf(unitRows, tenantRows).occupancyTenths == 2000
  {
    var u := |unitRows| as real;
    assert |tenantRows| as real / u == 2.0;
  }

  /** Any surplus of tenant rows over unit rows reads as at least 100.0. */
  lemma OccupancyAtLeastFull(unitRows: seq<string>, tenantRows: seq<string>)
    requires 0 < |unitRows| <= |tenantRows|
    ensures StatsOf(unitRows, tenantRows).occupancyTenths >= 1000
  {
    var u := |unitRows| as real;
    var t := |tenantRows| as real;
    assert t / u >= 1.0 by {
      assert t / u * u == t;
    }
  }

  /** One tenant row against 3000 unit rows reads "0.0" although a unit is occupied. */
  lemma OccupancyRoundsToZero(unitRows: seq<string>, tenantRows: seq<string>)
    requires |unitRows| == 3000 && |tenantRows| == 1
    ensures StatsOf(unitRows, tenantRows).occupancyTenths == 0
  {
    assert 1.0 / 3000.0 * 1000.0 == 1.0 / 3.0;
  }

  /**
   * Annual NOI is twelve times the monthly total, which adds up over runs of
   * rows; it is 0 without unit rows and twelve times the rent sum when every
   * rent is finite.
   */
  lemma AnnualNOIOfRows(unitRows: seq<string>, tenantRows: seq<string>, extra: seq<string>)
    ensures StatsOf(unitRows + extra, tenantRows).annualNOI
            == Times(Add(RentTotal(unitRows), RentTotal(extra)), 12.0)
    ensures StatsOf([], tenantRows).annualNOI == Finite(0.0)
    ensures AllRentsFinite(unitRows) ==> StatsOf(unitRows, tenantRows).annualNOI == Finite(12.0 * RentSum(unitRows))
  {
    RentTotalAppend(unitRows, extra);
    RentTotalCounts(unitRows);
  }

  /** Every figure is a count or a sum, so reordering the rows of either file changes nothing. */
  lemma StatsPermutationInvariant(u1: seq<string>, u2: seq<string>, t1: seq<string>, t2: seq<string>)
    requires multiset(u1) == multiset(u2) && multiset(t1) == multiset(t2)
    ensures StatsOf(u1, t1) == StatsOf(u2, t2)
  {
    assert |u1| == |multiset(u1)| == |u2|;
    assert |t1| == |multiset(t1)| == |t2|;
    RentTotalCounts(u1);
    RentTotalCounts(u2);
    SumOfPermutation(u1, u2, FiniteRent);
    CountPermutation(u1, u2, PosInfRow);
    CountPermutation(u1, u2, NegInfRow);
    CountPermutation(t1, t2, LowCredit);
  }
}
