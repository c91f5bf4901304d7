/**
 * The what-if revenue scenario (`run_scenario` in src/api/server.py): a
 * portfolio of 1836 units at an average rent of 4100 and 94% occupancy,
 * re-priced by a rent change and an occupancy change, both in percent.
 * The narrative analysis the endpoint attaches comes from a language-model
 * agent and is not part of this model.
 */
module Scenario {
  import opened Numbers

  const Units: real := 1836.0
  const AvgRent: real := 4100.0
  const BaseOccupancy: real := 0.94

  /** `1836 * avg_rent * 0.94 * 12` */
  function BaselineRevenue(): real {
    Units * AvgRent * BaseOccupancy * 12.0
  }

  /** `max(0, min(1, 0.94 + occupancy_change_pct / 100))` */
  function NewOccupancy(occupancyChangePct: real): (o: real)
    ensures 0.0 <= o <= 1.0
  {
    var o := BaseOccupancy + occupancyChangePct / 100.0;
    if o > 1.0 then 1.0 else if o < 0.0 then 0.0 else o
  }

  /** `avg_rent * (1 + rent_change_pct / 100)` */
  function NewRent(rentChangePct: real): real {
    AvgRent * (1.0 + rentChangePct / 100.0)
  }

  /** `1836 * new_rent * new_occ * 12` */
  function NewRevenue(rentChangePct: real, occupancyChangePct: real): real {
    Units * NewRent(rentChangePct) * NewOccupancy(occupancyChangePct) * 12.0
  }

  /** The figures of the response, each truncated by `int()`. */
  datatype Outcome = Outcome(baselineRevenue: int, newRevenue: int, delta: int)

  function RunScenario(rentChangePct: real, occupancyChangePct: real): (r: Outcome)
    ensures r.baselineRevenue == 84911328
    ensures r.newRevenue == Trunc(NewRevenue(rentChangePct, occupancyChangePct))
    ensures r.delta == Trunc(NewRevenue(rentChangePct, occupancyChangePct) - BaselineRevenue())
  {
    var base := BaselineRevenue();
    var next := NewRevenue(rentChangePct, occupancyChangePct);
    Outcome(Trunc(base), Trunc(next), Trunc(next - base))
  }

  /** No change in either input leaves the revenue where it was. */
  lemma NoChangeNoDelta()
    ensures RunScenario(0.0, 0.0).delta == 0
    ensures RunScenario(0.0, 0.0).newRevenue == RunScenario(0.0, 0.0).baselineRevenue
  {
  }

  /**
   * The model is multiplicative: the new revenue is the baseline scaled by
   * the rent factor and by the ratio of the new occupancy to 94%.
   */
  lemma Multiplicative(rentChangePct: real, occupancyChangePct: real)
    ensures NewRevenue(rentChangePct, occupancyChangePct)
         == BaselineRevenue() * (1.0 + rentChangePct / 100.0) * (NewOccupancy(occupancyChangePct) / BaseOccupancy)
  {
    var f := 1.0 + rentChangePct / 100.0;
    var o := NewOccupancy(occupancyChangePct);
    assert NewRevenue(rentChangePct, occupancyChangePct) == (Units * AvgRent * 12.0) * f * o;
    assert BaselineRevenue() * f * (o / BaseOccupancy) == (Units * AvgRent * 12.0) * f * o;
  }

  /** Occupancy is capped at 100%: any rise of 6 points or more has the same effect. */
  lemma OccupancyCapped(rentChangePct: real, occupancyChangePct: real)
    requires occupancyChangePct >= 6.0
    ensures NewRevenue(rentChangePct, occupancyChangePct) == NewRevenue(rentChangePct, 6.0)
  {
  }

  /** A fall of 94 points or more empties the building: the delta is minus the baseline. */
  lemma OccupancyFloor(rentChangePct: real, occupancyChangePct: real)
    requires occupancyChangePct <= -94.0
    ensures RunScenario(rentChangePct, occupancyChangePct).newRevenue == 0
    ensures RunScenario(rentChangePct, occupancyChangePct).delta == -84911328
  {
  }

  /** With some occupancy left, a larger rent change never lowers the new revenue. */
  lemma RentMonotone(r1: real, r2: real, occupancyChangePct: real)
    requires r1 <= r2
    ensures NewRevenue(r1, occupancyChangePct) <= NewRevenue(r2, occupancyChangePct)
  {
    var o := NewOccupancy(occupancyChangePct);
    var k := Units * AvgRent * 12.0 / 100.0;
    assert NewRevenue(r1, occupancyChangePct) == (k * o) * (100.0 + r1);
    assert NewRevenue(r2, occupancyChangePct) == (k * o) * (100.0 + r2);
    NonNegativeScale(k * o, 100.0 + r1, 100.0 + r2);
  }

  lemma NonNegativeScale(c: real, x: real, y: real)
    requires c >= 0.0 && x <= y
    ensures c * x <= c * y
  {
    assert c * (y - x) >= 0.0;
  }

  /**
   * No range check: a rent cut of more than 100% is accepted and gives a
   * negative new revenue whenever some occupancy is left.
   */
  lemma NoRangeCheck(rentChangePct: real, occupancyChangePct: real)
    requires rentChangePct < -100.0 && occupancyChangePct > -94.0
    ensures NewRevenue(rentChangePct, occupancyChangePct) < 0.0
  {
    var o := NewOccupancy(occupancyChangePct);
    var k := Units * AvgRent * 12.0 / 100.0;
    assert o > 0.0;
    assert NewRevenue(rentChangePct, occupancyChangePct) == (k * o) * (100.0 + rentChangePct);
    NegativeScale(k * o, 100.0 + rentChangePct);
  }

  lemma NegativeScale(c: real, x: real)
    requires c > 0.0 && x < 0.0
    ensures c * x < 0.0
  {
  }
}
