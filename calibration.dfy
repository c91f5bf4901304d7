/**
 * Calibration of the synthetic-data generator from scraped listings
 * (src/data/synthetic/calibrate_and_generate.py): bedroom counts read from
 * listing titles, a price window, five bedroom buckets, and fixed fallback
 * parameters for buckets with too few observations.
 */
module Calibration {
  import opened Wrappers
  import opened Text
  import opened Patterns

  const BedTags: seq<string> := ["br", "bed", "bd"]

  /**
   * `parse_beds`: None for a cell that is not a string; 0 for any title that
   * mentions "studio" in any case; otherwise the number before the first
   * "br", "bed" or "bd" (whitespace allowed between), or None.
   */
  function ParseBeds(title: Option<string>): (r: Option<nat>)
    ensures title.None? ==> r.None?
    ensures title.Some? && Contains(Lower(title.value), "studio") ==> r == Some(0)
    ensures title.Some? && !Contains(Lower(title.value), "studio") ==> r == Search(Lower(title.value), BedTags, true)
  {
    match title
    case None => None
    case Some(s) =>
      var t := Lower(s);
      if Contains(t, "studio") then Some(0) else Search(t, BedTags, true)
  }

  /** A scraped listing as the calibration reads it: a title cell and a price cell (None for NaN). */
  datatype Sample = Sample(title: Option<string>, price: Option<real>)

  /** Only prices strictly between 500 and 20000 take part. */
  predicate InPriceWindow(s: Sample) {
    s.price.Some? && 500.0 < s.price.value < 20000.0
  }

  datatype Category = Studio | OneBed | TwoBed | ThreeBed | FourPlus

  /** The order in which the source fills its table. */
  const Categories: seq<Category> := [Studio, OneBed, TwoBed, ThreeBed, FourPlus]

  /** The bucket of a parsed bedroom count; None lies in no bucket. */
  function CategoryOf(beds: Option<nat>): Option<Category> {
    match beds
    case None => None
    case Some(n) =>
      if n == 0 then Some(Studio)
      else if n == 1 then Some(OneBed)
      else if n == 2 then Some(TwoBed)
      else if n == 3 then Some(ThreeBed)
      else Some(FourPlus)
  }

  /** A sample whose price is in the window and whose title parses into bucket c. */
  predicate Kept(s: Sample, c: Category) {
    InPriceWindow(s) && CategoryOf(ParseBeds(s.title)) == Some(c)
  }

  /** The prices of the kept samples in bucket c, in row order. */
  function PricesIn(rows: seq<Sample>, c: Category): (prices: seq<real>)
    ensures |prices| <= |rows|
  {
    if rows == [] then []
    else
      var r := rows[0];
      (if Kept(r, c) then [r.price.value] else []) + PricesIn(rows[1..], c)
  }

  /**
   * The bucket keeps row order: the prices of a table are those of its first
   * part followed by those of the rest.
   */
  lemma {:induction false} PricesInAppend(a: seq<Sample>, b: seq<Sample>, c: Category)
    ensures PricesIn(a + b, c) == PricesIn(a, c) + PricesIn(b, c)
    decreases |a|
  {
    if a != [] {
      assert (a + b)[1..] == a[1..] + b;
      PricesInAppend(a[1..], b, c);
    } else {
      assert a + b == b;
    }
  }

  /** A single row gives its own price exactly when it is kept. */
  lemma PricesInSingle(s: Sample, c: Category)
    ensures PricesIn([s], c) == (if Kept(s, c) then [s.price.value] else [])
  {
    assert [s][1..] == [];
  }

  /**
   * A price is in bucket c exactly when some row in the window whose title
   * parses into c asks it; a title that parses to nothing is in no bucket.
   */
  lemma {:induction false} PricesInBucket(rows: seq<Sample>, c: Category, x: real)
    ensures x in PricesIn(rows, c)
            <==> exists i :: 0 <= i < |rows| && Kept(rows[i], c) && rows[i].price.value == x
    decreases |rows|
  {
    if rows != [] {
      var tail := rows[1..];
      PricesInBucket(tail, c, x);
      if x in PricesIn(rows, c) {
        if !(Kept(rows[0], c) && rows[0].price.value == x) {
          assert x in PricesIn(tail, c);
          var j :| 0 <= j < |tail| && Kept(tail[j], c) && tail[j].price.value == x;
          assert rows[j + 1] == tail[j];
        }
      }
      if exists i :: 0 <= i < |rows| && Kept(rows[i], c) && rows[i].price.value == x {
        var i :| 0 <= i < |rows| && Kept(rows[i], c) && rows[i].price.value == x;
        if i > 0 {
          assert tail[i - 1] == rows[i];
        }
      }
    }
  }

  /** Every collected price lies inside the window. */
  lemma {:induction false} PricesInWindow(rows: seq<Sample>, c: Category)
    ensures forall i :: 0 <= i < |PricesIn(rows, c)| ==> 500.0 < PricesIn(rows, c)[i] < 20000.0
    decreases |rows|
  {
    if rows != [] {
      PricesInWindow(rows[1..], c);
    }
  }

  function Sum(xs: seq<real>): real {
    if xs == [] then 0.0 else xs[0] + Sum(xs[1..])
  }

  /** The calibrated parameters of one bucket: observed (count and mean) or the fallback pair. */
  datatype CategoryStats = Observed(count: nat, mean: real) | Fallback(mu: int, sigma: int)

  /** The heuristic (mean, std) used when a bucket has 5 or fewer prices. */
  function FallbackFor(c: Category): CategoryStats {
    match c
    case Studio => Fallback(2500, 500)
    case OneBed => Fallback(3200, 600)
    case TwoBed => Fallback(4500, 1000)
    case ThreeBed => Fallback(6000, 1500)
    case FourPlus => Fallback(8000, 2000)
  }

  function StatsFor(prices: seq<real>, c: Category): (s: CategoryStats)
    ensures s.Observed? <==> |prices| > 5
    ensures s.Observed? ==> s.count == |prices| && s.mean * |prices| as real == Sum(prices)
    ensures s.Fallback? ==> s == FallbackFor(c)
  {
    if |prices| > 5 then Observed(|prices|, Sum(prices) / |prices| as real) else FallbackFor(c)
  }

  /** An observed bucket mean lies inside the price window. */
  lemma ObservedMeanInWindow(rows: seq<Sample>, c: Category)
    requires StatsFor(PricesIn(rows, c), c).Observed?
    ensures 500.0 < StatsFor(PricesIn(rows, c), c).mean < 20000.0
  {
    PricesInWindow(rows, c);
    MeanInWindow(PricesIn(rows, c));
  }

  lemma {:induction false} SumInWindow(xs: seq<real>)
    requires forall i :: 0 <= i < |xs| ==> 500.0 < xs[i] < 20000.0
    ensures xs != [] ==> 500.0 * (|xs| as real) < Sum(xs) < 20000.0 * (|xs| as real)
  {
    if xs != [] {
      SumInWindow(xs[1..]);
    }
  }

  lemma MeanInWindow(xs: seq<real>)
    requires xs != []
    requires forall i :: 0 <= i < |xs| ==> 500.0 < xs[i] < 20000.0
    ensures 500.0 < Sum(xs) / |xs| as real < 20000.0
  {
    SumInWindow(xs);
    var n := |xs| as real;
    assert n > 0.0;
    assert 500.0 * n < Sum(xs) < 20000.0 * n;
    DivBounds(Sum(xs), n, 500.0, 20000.0);
  }

  lemma DivBounds(a: real, n: real, lo: real, hi: real)
    requires n > 0.0 && lo * n < a < hi * n
    ensures lo < a / n < hi
  {
  }

  /**
   * `calibrate_parameters` after the CSV is read: every one of the five
   * buckets gets an entry, observed when it holds more than 5 prices and
   * the fixed fallback otherwise.
   */
  method CalibrateParameters(rows: seq<Sample>) returns (stats: map<Category, CategoryStats>)
    ensures stats.Keys == {Studio, OneBed, TwoBed, ThreeBed, FourPlus}
    ensures forall c :: c in stats ==> stats[c] == StatsFor(PricesIn(rows, c), c)
  {
    stats := map[];
    var i := 0;
    while i < |Categories|
      invariant 0 <= i <= |Categories|
      invariant forall c :: c in stats <==> Position(c) < i
      invariant forall c :: c in stats ==> stats[c] == StatsFor(PricesIn(rows, c), c)
    {
      var c := Categories[i];
      assert Position(c) == i;
      var prices := PricesIn(rows, c);
      if |prices| > 5 {
        stats := stats[c := Observed(|prices|, Sum(prices) / |prices| as real)];
      } else {
        stats := stats[c := FallbackFor(c)];
      }
      i := i + 1;
    }
    AllCategories(stats.Keys);
  }

  /** The index of a bucket in `Categories`. */
  function Position(c: Category): (k: nat)
    ensures k < |Categories| && Categories[k] == c
  {
    match c
    case Studio => 0
    case OneBed => 1
    case TwoBed => 2
    case ThreeBed => 3
    case FourPlus => 4
  }

  lemma AllCategories(keys: set<Category>)
    requires forall c :: c in keys
    ensures keys == {Studio, OneBed, TwoBed, ThreeBed, FourPlus}
  {
    forall c | c in keys
      ensures c in {Studio, OneBed, TwoBed, ThreeBed, FourPlus}
    {
      assert c.Studio? || c.OneBed? || c.TwoBed? || c.ThreeBed? || c.FourPlus?;
    }
    assert Studio in keys && OneBed in keys && TwoBed in keys && ThreeBed in keys && FourPlus in keys;
  }

  /** "3 BD" reads as three bedrooms: a digit run, a space, then the tag "bd" in lower case. */
  lemma ThreeBdExample(title: string)
    requires title == "3 BD"
    ensures ParseBeds(Some(title)) == Some(3)
  {
    var t := Lower(title);
    assert t == "3 bd";
    TooShortToContain(t, "studio");
    ThreeBdMatch(t);
  }

  lemma ThreeBdMatch(t: string)
    requires t == "3 bd"
    ensures MatchAt(t, 0, BedTags, true) && GroupValue(t, 0) == 3
  {
    assert RunEnd(t, 0) == 1 by {
      assert IsDigit(t[0]) && !IsDigit(t[1]);
    }
    assert SkipGap(t, 1, true) == 2 by {
      assert LeadingSpaces(t[1..]) == 1;
    }
    assert BedTags[2] <= t[2..];
    assert TagAt(t, 2, BedTags);
    var group := t[0..1];
    assert group == "3" && group[..0] == [];
    assert DigitsValue(group) == 3;
  }

  lemma {:induction false} TooShortToContain(s: string, sub: string)
    requires |s| < |sub|
    ensures !Contains(s, sub)
  {
    if s != [] {
      TooShortToContain(s[1..], sub);
    }
  }

  /** "studio" anywhere wins over a bedroom count later in the title. */
  lemma StudioFirstExample(title: string)
    requires title == "Studio 2br"
    ensures ParseBeds(Some(title)) == Some(0)
  {
    var u := Lower(title);
    assert u[..6] == "studio";
  }

  /** A title with no digits parses to nothing. */
  lemma NoDigitsExample(title: string)
    requires title == "Loft"
    ensures ParseBeds(Some(title)) == None
  {
    var v := Lower(title);
    assert v == "loft";
    TooShortToContain(v, "studio");
    assert forall q :: 0 <= q < |v| ==> !IsDigit(v[q]);
  }
}
