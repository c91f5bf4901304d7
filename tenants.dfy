/**
 * The tenants route handler: a point-based risk classifier, a unit -> rent
 * map built from the units file, and the mapping of tenant rows to records.
 */
module TenantRisk {
  import opened Wrappers
  import opened Text
  import opened Numbers
  import opened Sequences
  import opened CsvRows

  datatype Level = Low | Medium | High

  /** The order Low < Medium < High. */
  function Rank(l: Level): nat {
    match l
    case Low => 0
    case Medium => 1
    case High => 2
  }

  datatype Risk = Risk(level: Level, reason: string)

  const HighBurdenReason: string := "High Rent Burden (>40%)"
  const LowCreditReason: string := "Low Credit Score"
  const StableReason: string := "Stable Financials"

  /** `rent / (income / 12)` in JavaScript arithmetic. */
  function Burden(rent: Number, income: Number): Number {
    Div(rent, Div(income, Finite(12.0)))
  }

  /** The burden point: `burden > 0.4`, false for a NaN burden. */
  predicate BurdenPoint(rent: Number, income: Number) {
    Gt(Burden(rent, income), 0.4)
  }

  /** The credit point: `credit < 620`, false for a NaN credit. */
  predicate CreditPoint(credit: Number) {
    Lt(credit, 620.0)
  }

  /** `riskScore`: 3 points for the burden, 2 for the credit. */
  function RiskScore(rent: Number, income: Number, credit: Number): (score: nat)
    ensures score == 0 || score == 2 || score == 3 || score == 5
    ensures score >= 3 <==> BurdenPoint(rent, income)
    ensures (score == 2 || score == 5) <==> CreditPoint(credit)
  {
    (if BurdenPoint(rent, income) then 3 else 0) + (if CreditPoint(credit) then 2 else 0)
  }

  /** `calculateRiskFactor`: the tier read off the score, with its reason. */
  function CalculateRiskFactor(rent: Number, income: Number, credit: Number): (r: Risk)
    ensures r.level == High <==> BurdenPoint(rent, income)
    ensures r.level == Medium <==> !BurdenPoint(rent, income) && CreditPoint(credit)
    ensures r.level == High ==> r.reason == HighBurdenReason
    ensures r.level == Medium ==> r.reason == LowCreditReason
    ensures r.level == Low ==> r.reason == StableReason
  {
    var score := RiskScore(rent, income, credit);
    if score >= 3 then Risk(High, HighBurdenReason)
    else if score >= 2 then Risk(Medium, LowCreditReason)
    else Risk(Low, StableReason)
  }

  lemma RatioAbove(r: real, m: real, c: real)
    requires m > 0.0
    ensures r / m > c <==> r > c * m
  {
    assert r / m * m == r;
    if r / m > c {
      assert r / m * m > c * m;
    } else {
      assert r / m * m <= c * m;
    }
  }

  /**
   * With a positive income the tier is High exactly when the rent exceeds
   * one thirtieth of the yearly income, whatever the credit score.
   */
  lemma HighIffRentOverThirtieth(rent: real, income: real, credit: Number)
    requires income > 0.0
    ensures CalculateRiskFactor(Finite(rent), Finite(income), credit).level == High
            <==> 30.0 * rent > income
  {
    var m := income / 12.0;
    assert Div(Finite(income), Finite(12.0)) == Finite(m);
    assert Burden(Finite(rent), Finite(income)) == Finite(rent / m);
    RatioAbove(rent, m, 0.4);
  }

  /** A low credit score with a high burden (score 5) still reports the burden. */
  lemma BothPointsReportBurden(rent: Number, income: Number, credit: Number)
    requires BurdenPoint(rent, income) && CreditPoint(credit)
    ensures RiskScore(rent, income, credit) == 5
    ensures CalculateRiskFactor(rent, income, credit) == Risk(High, HighBurdenReason)
  {
  }

  lemma DivMonotone(a: real, b: real, m: real)
    requires m > 0.0 && a <= b
    ensures a / m <= b / m
  {
    assert a / m * m == a && b / m * m == b;
  }

  /**
   * Raising the rent with income and credit fixed never lowers the tier,
   * for any income that is not a negative number.
   */
  lemma RentMonotone(r1: real, r2: real, income: Number, credit: Number)
    requires r1 <= r2
    requires !(income.Finite? && income.value < 0.0)
    ensures Rank(CalculateRiskFactor(Finite(r1), income, credit).level)
            <= Rank(CalculateRiskFactor(Finite(r2), income, credit).level)
  {
    if BurdenPoint(Finite(r1), income) {
      var m := Div(income, Finite(12.0));
      if m == Finite(0.0) {
        assert r1 > 0.0;
      } else if m.Finite? {
        DivMonotone(r1, r2, m.value);
      }
    }
  }

  /** Lowering the credit score with rent and income fixed never lowers the tier. */
  lemma CreditMonotone(rent: Number, income: Number, c1: real, c2: real)
    requires c2 <= c1
    ensures Rank(CalculateRiskFactor(rent, income, Finite(c1)).level)
            <= Rank(CalculateRiskFactor(rent, income, Finite(c2)).level)
  {
  }

  /**
   * Income 0: a positive rent gives an infinite burden and tier High; a rent
   * of 0 gives a NaN burden, which adds no point. Neither case fails.
   */
  lemma ZeroIncome(rent: real, credit: Number)
    ensures rent > 0.0 ==> CalculateRiskFactor(Finite(rent), Finite(0.0), credit).level == High
    ensures rent == 0.0 ==> Burden(Finite(rent), Finite(0.0)) == NaN
    ensures rent == 0.0 ==>
              CalculateRiskFactor(Finite(rent), Finite(0.0), credit).level
              == (if CreditPoint(credit) then Medium else Low)
  {
    assert Div(Finite(0.0), Finite(12.0)) == Finite(0.0);
  }

  /** An income that does not parse (NaN) never gives the burden point. */
  lemma UnparsedIncomeNeverHigh(rent: Number, credit: Number)
    ensures CalculateRiskFactor(rent, NaN, credit).level != High
  {
  }

  // ---- Pass one: the unit -> rent map ----

  /** The unit id of a unit row: the text before the first comma; None with no comma. */
  function UnitKey(row: string): (k: Option<string>)
    ensures k.None? <==> ',' !in row
  {
    var lastComma := LastIndexOf(row, ',');
    var firstComma := IndexOf(row, ',');
    if lastComma != -1 && firstComma != -1 then Some(row[..firstComma]) else None
  }

  /** The rent text of a unit row: what follows the last comma. */
  function RentText(row: string): string
    requires ',' in row
  {
    row[LastIndexOf(row, ',') + 1..]
  }

  /** The rent of a unit row: `parseFloat` of its rent text. */
  function UnitRent(row: string): Number
    requires ',' in row
  {
    ParseFloat(RentText(row))
  }

  /** The key is the first comma field. */
  lemma UnitKeyField(row: string)
    requires ',' in row
    ensures UnitKey(row) == Some(SplitOn(row, ',')[0])
  {
    SplitFirst(row, ',');
  }

  /** The rent text is the last comma field. */
  lemma UnitRentField(row: string)
    requires ',' in row
    ensures var fields := SplitOn(row, ',');
            RentText(row) == fields[|fields| - 1]
  {
    SplitLast(row, ',');
  }

  /** Row `row` sets the entry for unit `k`. */
  predicate Sets(row: string, k: string) {
    UnitKey(row) == Some(k)
  }

  /** The map after `set` has been applied for each row in turn. */
  function UnitRentMap(rows: seq<string>): map<string, Number> {
    if rows == [] then map[]
    else
      var m := UnitRentMap(rows[..|rows| - 1]);
      var row := rows[|rows| - 1];
      match UnitKey(row)
      case None => m
      case Some(k) => m[k := UnitRent(row)]
  }

  /** A unit id is in the map exactly when some row sets it. */
  lemma UnitRentMapDomain(rows: seq<string>, k: string)
    ensures k in UnitRentMap(rows) <==> exists i :: 0 <= i < |rows| && Sets(rows[i], k)
  {
    if k in UnitRentMap(rows) {
      UnitRentMapSource(rows, k);
    }
    if exists i :: 0 <= i < |rows| && Sets(rows[i], k) {
      var i :| 0 <= i < |rows| && Sets(rows[i], k);
      UnitRentMapHas(rows, i, k);
    }
  }

  lemma {:induction false} UnitRentMapHas(rows: seq<string>, i: nat, k: string)
    requires i < |rows| && Sets(rows[i], k)
    ensures k in UnitRentMap(rows)
    decreases |rows|
  {
    var init := rows[..|rows| - 1];
    if i < |init| {
      assert init[i] == rows[i];
      UnitRentMapHas(init, i, k);
    }
  }

  lemma {:induction false} UnitRentMapSource(rows: seq<string>, k: string)
    requires k in UnitRentMap(rows)
    ensures exists i :: 0 <= i < |rows| && Sets(rows[i], k)
    decreases |rows|
  {
    var init := rows[..|rows| - 1];
    if !Sets(rows[|rows| - 1], k) {
      UnitRentMapSource(init, k);
      var i :| 0 <= i < |init| && Sets(init[i], k);
      assert rows[i] == init[i];
    }
  }

  /** The value for a unit is the one from the last row that sets it. */
  lemma {:induction false} UnitRentMapLastWins(rows: seq<string>, i: nat, k: string)
    requires i < |rows| && Sets(rows[i], k)
    requires forall j :: i < j < |rows| ==> !Sets(rows[j], k)
    ensures k in UnitRentMap(rows) && UnitRentMap(rows)[k] == UnitRent(rows[i])
    decreases |rows|
  {
    var init := rows[..|rows| - 1];
    if i < |rows| - 1 {
      assert forall j :: i < j < |init| ==> init[j] == rows[j];
      UnitRentMapLastWins(init, i, k);
      assert !Sets(rows[|rows| - 1], k);
    }
  }

  /** One more row applies its `set`, if it has a comma. */
  lemma UnitRentMapStep(rows: seq<string>, i: nat)
    requires i < |rows|
    ensures var row := rows[i];
            UnitRentMap(rows[..i + 1])
            == if LastIndexOf(row, ',') != -1 && IndexOf(row, ',') != -1
               then UnitRentMap(rows[..i])[row[..IndexOf(row, ',')] := UnitRent(row)]
               else UnitRentMap(rows[..i])
  {
    assert rows[..i + 1][..i] == rows[..i];
  }

  /** The `forEach` loop over the unit rows filling `unitRentMap`. */
  method BuildUnitRentMap(unitRows: seq<string>) returns (unitRentMap: map<string, Number>)
    ensures unitRentMap == UnitRentMap(unitRows)
  {
    unitRentMap := map[];
    var i := 0;
    while i < |unitRows|
      invariant 0 <= i <= |unitRows|
      invariant unitRentMap == UnitRentMap(unitRows[..i])
    {
      var row := unitRows[i];
      UnitRentMapStep(unitRows, i);
      var lastComma := LastIndexOf(row, ',');
      var firstComma := IndexOf(row, ',');
      if lastComma != -1 && firstComma != -1 {
        var uId := row[..firstComma];
        var rent := UnitRent(row);
        unitRentMap := unitRentMap[uId := rent];
      }
      i := i + 1;
    }
    assert unitRows[..i] == unitRows;
  }

  // ---- Pass two: tenant rows ----

  datatype Tenant = Tenant(
    id: string, name: string, unit: string,
    rent: Number, income: Number, credit: Number,
    leaseEnd: string, riskLevel: Level, riskReason: string)

  const LeaseEnd: string := "2026-06-30"

  /**
   * `unitRentMap.get(u_id) || 0`: the mapped rent when it is truthy, else 0;
   * a NaN rent is replaced, an infinite one is kept.
   */
  function ResolveRent(m: map<string, Number>, u: string): (r: Number)
    ensures u in m && Truthy(m[u]) ==> r == m[u]
    ensures u !in m || !Truthy(m[u]) ==> r == Finite(0.0)
    ensures !r.NaN?
  {
    if u in m && Truthy(m[u]) then m[u] else Finite(0.0)
  }

  /**
   * A unit whose rent text reads "Infinity" keeps an infinite rent, and its
   * tenant is High for any positive income, whatever the credit.
   */
  lemma InfiniteRentIsHigh(rows: seq<string>, i: nat, k: string, income: real, credit: Number)
    requires i < |rows| && Sets(rows[i], k) && UnitRent(rows[i]) == PosInf
    requires forall j :: i < j < |rows| ==> !Sets(rows[j], k)
    requires income > 0.0
    ensures ResolveRent(UnitRentMap(rows), k) == PosInf
    ensures CalculateRiskFactor(ResolveRent(UnitRentMap(rows), k), Finite(income), credit).level == High
  {
    UnitRentMapLastWins(rows, i, k);
    var m := UnitRentMap(rows);
    assert m[k] == PosInf;
    InfiniteRentBurden(income, credit);
  }

  /** An infinite rent against a positive income is always a burden point. */
  lemma InfiniteRentBurden(income: real, credit: Number)
    requires income > 0.0
    ensures CalculateRiskFactor(PosInf, Finite(income), credit).level == High
  {
    assert Div(Finite(income), Finite(12.0)) == Finite(income / 12.0);
  }

  /**
   * One tenant row: null when it has fewer than 6 comma fields, otherwise
   * fields 0..4 read by position and the risk computed from them.
   */
  function TenantOf(row: string, m: map<string, Number>): (r: Option<Tenant>)
    ensures r.None? <==> |SplitOn(row, ',')| < 6
    ensures r.Some? ==>
              var cols := SplitOn(row, ',');
              r.value.id == cols[0] && r.value.unit == cols[1] && r.value.name == cols[2]
              && r.value.income == ParseInt(cols[3]) && r.value.credit == ParseInt(cols[4])
    ensures r.Some? ==> r.value.leaseEnd == LeaseEnd
    ensures r.Some? ==> r.value.rent == ResolveRent(m, r.value.unit)
    ensures r.Some? ==>
              Risk(r.value.riskLevel, r.value.riskReason)
              == CalculateRiskFactor(r.value.rent, r.value.income, r.value.credit)
  {
    var cols := SplitOn(row, ',');
    if |cols| < 6 then None
    else
      var rent := ResolveRent(m, cols[1]);
      var income := ParseInt(cols[3]);
      var credit := ParseInt(cols[4]);
      var risk := CalculateRiskFactor(rent, income, credit);
      Some(Tenant(cols[0], cols[2], cols[1], rent, income, credit, LeaseEnd, risk.level, risk.reason))
  }

  /** A row has 6 or more fields exactly when it holds at least 5 commas. */
  lemma {:induction false} FieldCount(s: string, d: char)
    ensures |SplitOn(s, d)| == multiset(s)[d] + 1
    decreases |s|
  {
    var i := IndexOf(s, d);
    if i >= 0 {
      var rest := s[i + 1..];
      FieldCount(rest, d);
      SplitOnFound(s, d);
      OccurrencesAfterFirst(s, i, d);
      CountStep(SplitOn(s, d), [s[..i]], SplitOn(rest, d), multiset(s)[d], multiset(rest)[d]);
    } else {
      assert multiset(s)[d] == 0;
    }
  }

  lemma CountStep(parts: seq<string>, head: seq<string>, tail: seq<string>, n: nat, m: nat)
    requires parts == head + tail && |head| == 1 && |tail| == m + 1 && n == m + 1
    ensures |parts| == n + 1
  {
  }

  lemma OccurrencesAfterFirst(s: string, i: nat, d: char)
    requires 0 <= i == IndexOf(s, d)
    ensures multiset(s)[d] == multiset(s[i + 1..])[d] + 1
  {
    assert s == s[..i] + [d] + s[i + 1..];
    assert d !in s[..i];
  }

  /**
   * A comma inside the name shifts every later field by one: the name is cut
   * at the comma and the income is read from the name's second half.
   */
  lemma CommaInNameMisaligns(
    m: map<string, Number>, id: string, unit: string, first: string, last: string,
    income: string, credit: string, leaseStart: string)
    requires forall f :: f in [id, unit, first, last, income, credit, leaseStart] ==> ',' !in f
    ensures var t := TenantOf(Join([id, unit, first, last, income, credit, leaseStart], ','), m);
            t.Some? && t.value.name == first && t.value.income == ParseInt(last)
            && t.value.credit == ParseInt(income)
  {
    var parts := [id, unit, first, last, income, credit, leaseStart];
    assert forall k :: 0 <= k < |parts| ==> parts[k] in parts;
    SplitJoin(parts, ',');
  }

  /** `rows.map(...).filter(t => t !== null)` */
  function Tenants(rows: seq<string>, m: map<string, Number>): seq<Tenant> {
    FilterMap(rows, row => TenantOf(row, m))
  }

  predicate HasSixFields(row: string) {
    |SplitOn(row, ',')| >= 6
  }

  /** The records keep the order of their rows: mapping distributes over concatenation. */
  lemma TenantsAppend(a: seq<string>, b: seq<string>, m: map<string, Number>)
    ensures Tenants(a + b, m) == Tenants(a, m) + Tenants(b, m)
  {
    FilterMapAppend(a, b, row => TenantOf(row, m));
  }

  /** One record per row with at least 6 fields, whatever those fields hold. */
  lemma TenantsCount(rows: seq<string>, m: map<string, Number>)
    ensures |Tenants(rows, m)| == Count(rows, HasSixFields)
  {
    FilterMapCount(rows, row => TenantOf(row, m), HasSixFields);
  }

  /** Every record carries the placeholder lease end and a risk consistent with its figures. */
  lemma TenantsWellFormed(rows: seq<string>, m: map<string, Number>)
    ensures forall j :: 0 <= j < |Tenants(rows, m)| ==>
              var t := Tenants(rows, m)[j];
              t.leaseEnd == LeaseEnd
              && Risk(t.riskLevel, t.riskReason) == CalculateRiskFactor(t.rent, t.income, t.credit)
  {
    FilterMapImages(rows, row => TenantOf(row, m),
      (t: Tenant) => t.leaseEnd == LeaseEnd
           && Risk(t.riskLevel, t.riskReason) == CalculateRiskFactor(t.rent, t.income, t.credit));
  }

  /** `GET`: both files read, the map built, the tenant rows mapped. */
  method TenantsGet(tenantsText: string, unitsText: string) returns (tenants: seq<Tenant>)
    ensures tenants == Tenants(DataRows(tenantsText), UnitRentMap(DataRows(unitsText)))
  {
    var rows := DataRows(tenantsText);
    var unitRows := DataRows(unitsText);
    var unitRentMap := BuildUnitRentMap(unitRows);
    tenants := Tenants(rows, unitRentMap);
  }
}
