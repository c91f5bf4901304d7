/**
 * The listing endpoint (`get_listings` in src/api/server.py): the query
 * pre-filter over the scraped listings table, the cleanup of the price and
 * square-footage cells, the valuation verdict and the "undervalued" filter
 * over at most the first 50 candidate rows.
 */
module Listings {
  import opened Wrappers
  import opened Text
  import opened Numbers
  import opened Sequences

  /**
   * A row of the listings table. `beds` is the text of the bedroom cell as
   * `astype(str)` prints it; `price` and `sqft` hold the text of the cell
   * as `str()` prints it, or None for a missing (NaN) cell.
   */
  datatype ListingRow = ListingRow(title: string, location: string, beds: string,
                                   price: Option<string>, sqft: Option<string>)

  // ---------------------------------------------------------------- query filter

  /** Query words other than 'in', 'for' and 'rent' are keywords. */
  predicate IsKeyword(w: string) {
    w != "in" && w != "for" && w != "rent"
  }

  /** `[k for k in q.split() if k not in ['in', 'for', 'rent']]` */
  function Keywords(q: string): seq<string> {
    Filter(Words(q), IsKeyword)
  }

  /** The keyword occurs in the location or the title, ignoring case. */
  predicate Mentions(row: ListingRow, k: string) {
    Contains(Lower(row.location), k) || Contains(Lower(row.title), k)
  }

  /** One keyword's `df = df[mask]`. */
  function KeywordStep(rows: seq<ListingRow>, k: string): seq<ListingRow> {
    Filter(rows, row => Mentions(row, k))
  }

  /** The rows left after filtering by each keyword in turn. */
  function KeywordFilter(rows: seq<ListingRow>, ks: seq<string>): seq<ListingRow>
    decreases |ks|
  {
    if ks == [] then rows else KeywordStep(KeywordFilter(rows, ks[..|ks| - 1]), ks[|ks| - 1])
  }

  predicate BedsMention(row: ListingRow, d: char) {
    d in row.beds
  }

  /** A '1' in the query keeps rows whose bedroom text has a '1'; failing that, likewise for '2'. */
  function BedsFilter(rows: seq<ListingRow>, q: string): seq<ListingRow> {
    if '1' in q then Filter(rows, row => BedsMention(row, '1'))
    else if '2' in q then Filter(rows, row => BedsMention(row, '2'))
    else rows
  }

  /** `if query:` -- a missing or empty query filters nothing. */
  predicate HasQuery(query: Option<string>) {
    query.Some? && query.value != []
  }

  /** The table after the query pre-filter. */
  function Candidates(rows: seq<ListingRow>, query: Option<string>): seq<ListingRow> {
    if HasQuery(query) then
      var q := Lower(query.value);
      KeywordFilter(BedsFilter(rows, q), Keywords(q))
    else rows
  }

  /** Every row left by the keyword filter mentions every keyword. */
  lemma {:induction false} KeywordFilterMentions(rows: seq<ListingRow>, ks: seq<string>, x: ListingRow)
    requires x in KeywordFilter(rows, ks)
    ensures x in rows
    ensures forall k :: k in ks ==> Mentions(x, k)
    decreases |ks|
  {
    if ks != [] {
      var init, last := ks[..|ks| - 1], ks[|ks| - 1];
      FilterIn(KeywordFilter(rows, init), row => Mentions(row, last), x);
      KeywordFilterMentions(rows, init, x);
      assert ks == init + [last];
    }
  }

  // ---------------------------------------------------------------- one row

  /** `int(float(text))`; None where `float()` rejects the text. */
  function ParseNumber(text: string): (r: Option<int>)
    ensures r.Some? <==> PyFloat(text).Some?
    ensures r.Some? && PyFloat(text).value >= 0.0 ==>
              0 <= r.value && r.value as real <= PyFloat(text).value < r.value as real + 1.0
    ensures r.Some? && PyFloat(text).value < 0.0 ==>
              r.value <= 0 && r.value as real - 1.0 < PyFloat(text).value <= r.value as real
  {
    match PyFloat(text)
    case Some(v) => Some(Trunc(v))
    case None => None
  }

  /** The price: a missing cell reads '0'; '$' and ',' are removed before parsing. */
  function PriceOf(cell: Option<string>): Option<int> {
    ParseNumber(Remove(Remove(cell.GetOr("0"), '$'), ','))
  }

  /** The square footage: a missing cell reads '800'; ',' is removed before parsing. */
  function SqftOf(cell: Option<string>): Option<int> {
    ParseNumber(Remove(cell.GetOr("800"), ','))
  }

  datatype Verdict = Undervalued | Overvalued | Fair

  /** More than 150 above the asking price is undervalued, more than 150 below is overvalued. */
  function VerdictOf(delta: int): Verdict {
    if delta > 150 then Undervalued else if delta < -150 then Overvalued else Fair
  }

  /** The valuation model, absent or present; a prediction of None is one that raises. */
  datatype Valuation = NoModel | Model(predict: int -> Option<real>)

  /** `ai_val`: the model's prediction for the square footage, or the price itself. */
  function AiValue(model: Valuation, sqft: int, price: int): int {
    match model
    case NoModel => price
    case Model(predict) =>
      match predict(sqft)
      case Some(v) => Trunc(v)
      case None => price
  }

  datatype ListingResult = ListingResult(title: string, location: string, price: int, aiValue: int,
                                         delta: int, verdict: Verdict, sqft: int)

  /** The record for a row, or None where the `try` body raises (the row is counted as a failure). */
  function Evaluate(row: ListingRow, model: Valuation): (r: Option<ListingResult>)
    ensures r.Some? <==> PriceOf(row.price).Some? && SqftOf(row.sqft).Some?
    ensures r.Some? ==> && r.value.delta == r.value.aiValue - r.value.price
                        && r.value.title == row.title && r.value.location == row.location
    ensures r.Some? ==> && r.value.price == PriceOf(row.price).value
                        && r.value.sqft == SqftOf(row.sqft).value
                        && r.value.aiValue == AiValue(model, r.value.sqft, r.value.price)
                        && r.value.verdict == VerdictOf(r.value.delta)
  {
    match (PriceOf(row.price), SqftOf(row.sqft))
    case (Some(price), Some(sqft)) =>
      var ai := AiValue(model, sqft, price);
      Some(ListingResult(row.title, row.location, price, ai, ai - price, VerdictOf(ai - price), sqft))
    case _ => None
  }

  /** The query asks for undervalued listings only. */
  predicate AsksUndervalued(query: Option<string>) {
    HasQuery(query) && Contains(Lower(query.value), "undervalued")
  }

  /** The record appended for a row: None for a failure or a row the verdict filter skips. */
  function Reported(query: Option<string>, model: Valuation): ListingRow -> Option<ListingResult> {
    row =>
      match Evaluate(row, model)
      case Some(res) => if AsksUndervalued(query) && res.verdict != Undervalued then None else Some(res)
      case None => None
  }

  /** The rows whose `try` body raises. */
  function Fails(model: Valuation): ListingRow -> bool {
    row => Evaluate(row, model).None?
  }

  /** What one row contributes, in terms of its evaluation. */
  lemma ReportedStep(query: Option<string>, model: Valuation, row: ListingRow, outcome: Option<ListingResult>)
    requires outcome == Evaluate(row, model)
    ensures Fails(model)(row) == outcome.None?
    ensures Reported(query, model)(row)
         == if outcome.None? || (AsksUndervalued(query) && outcome.value.verdict != Undervalued) then None
            else outcome
  {
  }

  // ---------------------------------------------------------------- the endpoint

  /** `df.head(50)` of the candidates. */
  function Examined(rows: seq<ListingRow>, query: Option<string>): seq<ListingRow> {
    Take(Candidates(rows, query), 50)
  }

  function Results(rows: seq<ListingRow>, query: Option<string>, model: Valuation): seq<ListingResult> {
    FilterMap(Examined(rows, query), Reported(query, model))
  }

  function Failures(rows: seq<ListingRow>, query: Option<string>, model: Valuation): nat {
    Count(Examined(rows, query), Fails(model))
  }

  datatype Response = NoData | Listings(results: seq<ListingResult>)

  /** The query pre-filter: the bedroom filter, then one `df = df[mask]` per keyword. */
  method FilterByQuery(rows: seq<ListingRow>, query: Option<string>) returns (df: seq<ListingRow>)
    ensures df == Candidates(rows, query)
  {
    df := rows;
    if HasQuery(query) {
      var q := Lower(query.value);
      df := BedsFilter(df, q);
      var keywords := Keywords(q);
      var i := 0;
      while i < |keywords|
        invariant 0 <= i <= |keywords|
        invariant df == KeywordFilter(BedsFilter(rows, q), keywords[..i])
      {
        assert keywords[..i + 1][..i] == keywords[..i];
        df := KeywordStep(df, keywords[i]);
        i := i + 1;
      }
      assert keywords[..i] == keywords;
    }
  }

  /** The loop over the examined rows, appending results and counting failures. */
  method ExamineRows(examined: seq<ListingRow>, query: Option<string>, model: Valuation)
    returns (results: seq<ListingResult>, failures: nat)
    ensures results == FilterMap(examined, Reported(query, model))
    ensures failures == Count(examined, Fails(model))
  {
    results := [];
    failures := 0;
    var j := 0;
    while j < |examined|
      invariant 0 <= j <= |examined|
      invariant results == FilterMap(examined[..j], Reported(query, model))
      invariant failures == Count(examined[..j], Fails(model))
    {
      FilterMapSnoc(examined, j, Reported(query, model));
      CountSnoc(examined, j, Fails(model));
      var outcome := Evaluate(examined[j], model);
      ReportedStep(query, model, examined[j], outcome);
      if outcome.None? {
        failures := failures + 1;
      } else if !(AsksUndervalued(query) && outcome.value.verdict != Undervalued) {
        results := results + [outcome.value];
      }
      j := j + 1;
    }
    assert examined[..j] == examined;
  }

  /** `get_listings`: the response and the number of skipped rows it warns about. */
  method GetListings(rows: seq<ListingRow>, query: Option<string>, model: Valuation)
    returns (response: Response, failures: nat)
    ensures rows == [] ==> response == NoData && failures == 0
    ensures rows != [] ==> response == Listings(Results(rows, query, model))
                           && failures == Failures(rows, query, model)
  {
    if rows == [] {
      return NoData, 0;
    }
    var df := FilterByQuery(rows, query);
    var results;
    results, failures := ExamineRows(Take(df, 50), query, model);
    response := Listings(results);
  }

  // ---------------------------------------------------------------- properties

  function VerdictRank(v: Verdict): nat {
    match v
    case Overvalued => 0
    case Fair => 1
    case Undervalued => 2
  }

  /** A larger gap between valuation and price never gives a lower verdict. */
  lemma VerdictMonotone(d1: int, d2: int)
    requires d1 <= d2
    ensures VerdictRank(VerdictOf(d1)) <= VerdictRank(VerdictOf(d2))
  {
  }

  function Mirror(v: Verdict): Verdict {
    match v
    case Overvalued => Undervalued
    case Fair => Fair
    case Undervalued => Overvalued
  }

  /** The thresholds are symmetric: negating the gap swaps under- and overvalued. */
  lemma VerdictSymmetric(delta: int)
    ensures VerdictOf(-delta) == Mirror(VerdictOf(delta))
  {
  }

  /** Only gaps within 150 either way are fair. */
  lemma FairBand(delta: int)
    ensures VerdictOf(delta) == Fair <==> -150 <= delta <= 150
  {
  }

  /** `int(float(str(n)))` is n. */
  lemma ParseNumberOfNat(n: nat)
    ensures ParseNumber(NatToString(n)) == Some(n)
  {
    PyFloatOfNat(n);
  }

  /** Digits hold no '$' and no ','. */
  lemma DigitsUncleaned(d: string)
    requires AllDigits(d)
    ensures Remove(Remove(d, '$'), ',') == d && Remove(d, ',') == d
  {
    assert '$' !in d && ',' !in d by {
      assert forall i :: 0 <= i < |d| ==> IsDigit(d[i]);
    }
    RemoveAbsent(d, '$');
    RemoveAbsent(d, ',');
  }

  /** A missing price cell reads as 0. */
  lemma MissingPrice()
    ensures PriceOf(None) == Some(0)
  {
    assert NatToString(0) == "0";
    DigitsUncleaned("0");
    ParseNumberOfNat(0);
  }

  /** A missing square-footage cell reads as 800. */
  lemma MissingSqft()
    ensures SqftOf(None) == Some(800)
  {
    assert NatToString(800) == "800" by {
      assert NatToString(8) == "8";
      assert NatToString(80) == "80";
    }
    DigitsUncleaned("800");
    ParseNumberOfNat(800);
  }

  /** A dollar sign in front of the digits does not stop the price from parsing. */
  lemma DollarPrice(n: nat)
    ensures PriceOf(Some("$" + NatToString(n))) == Some(n)
  {
    var d := NatToString(n);
    assert Remove("$" + d, '$') == Remove(d, '$') by {
      assert ("$" + d)[1..] == d;
    }
    DigitsUncleaned(d);
    ParseNumberOfNat(n);
  }

  lemma DropDollar()
    ensures Remove("$2,500", '$') == "2,500"
  {
    RemoveAbsent("2,500", '$');
  }

  lemma DropLeadingSeparator()
    ensures Remove(",500", ',') == "500"
  {
    assert ",500"[1..] == "500";
    RemoveAbsent("500", ',');
  }

  lemma DropSeparator()
    ensures Remove("2,500", ',') == "2500"
  {
    assert "2,500"[1..] == ",500";
    DropLeadingSeparator();
  }

  lemma TextOf2500()
    ensures NatToString(2500) == "2500"
  {
    assert NatToString(2) == "2";
    assert NatToString(25) == "25";
    assert NatToString(250) == "250";
  }

  /** The thousands separator is removed too: "$2,500" is 2500. */
  lemma SeparatedPrice()
    ensures PriceOf(Some("$2,500")) == Some(2500)
  {
    DropDollar();
    DropSeparator();
    TextOf2500();
    ParseNumberOfNat(2500);
  }

  /** Without a valuation model every listing is valued at its price, so every verdict is Fair. */
  lemma NoModelAllFair(rows: seq<ListingRow>, query: Option<string>)
    ensures forall j :: 0 <= j < |Results(rows, query, NoModel)| ==>
              var r := Results(rows, query, NoModel)[j];
              r.aiValue == r.price && r.delta == 0 && r.verdict == Fair
  {
    FilterMapImages(Examined(rows, query), Reported(query, NoModel),
                    (r: ListingResult) => r.aiValue == r.price && r.delta == 0 && r.verdict == Fair);
  }

  /** A query mentioning 'undervalued' returns only Undervalued listings. */
  lemma UndervaluedQueryOnlyUndervalued(rows: seq<ListingRow>, query: Option<string>, model: Valuation)
    requires AsksUndervalued(query)
    ensures forall j :: 0 <= j < |Results(rows, query, model)| ==>
              Results(rows, query, model)[j].verdict == Undervalued
  {
    FilterMapImages(Examined(rows, query), Reported(query, model),
                    (r: ListingResult) => r.verdict == Undervalued);
  }

  lemma NoModelRowSkipped(query: Option<string>, row: ListingRow)
    requires AsksUndervalued(query)
    ensures Reported(query, NoModel)(row).None?
  {
    var outcome := Evaluate(row, NoModel);
    ReportedStep(query, NoModel, row, outcome);
    assert outcome.Some? ==> outcome.value.verdict == Fair;
  }

  /** Without a model, asking for undervalued listings returns none. */
  lemma NoModelUndervaluedEmpty(rows: seq<ListingRow>, query: Option<string>)
    requires AsksUndervalued(query)
    ensures Results(rows, query, NoModel) == []
  {
    var ex := Examined(rows, query);
    forall i | 0 <= i < |ex| ensures Reported(query, NoModel)(ex[i]).None? {
      NoModelRowSkipped(query, ex[i]);
    }
    FilterMapNone(ex, Reported(query, NoModel));
  }

  /** At most 50 rows are examined: the listings returned and the rows skipped number at most 50. */
  lemma AtMostFiftyExamined(rows: seq<ListingRow>, query: Option<string>, model: Valuation)
    ensures |Results(rows, query, model)| + Failures(rows, query, model) <= 50
  {
    FilterMapAndCount(Examined(rows, query), Reported(query, model), Fails(model));
  }

  /**
   * Every keyword of the query also restricts the rows by text, including the
   * word 'undervalued' itself: each listing returned mentions every keyword
   * in its location or title.
   */
  lemma KeywordsRestrictResults(rows: seq<ListingRow>, query: Option<string>, model: Valuation, k: string)
    requires HasQuery(query) && k in Keywords(Lower(query.value))
    ensures forall j :: 0 <= j < |Results(rows, query, model)| ==>
              var r := Results(rows, query, model)[j];
              Contains(Lower(r.location), k) || Contains(Lower(r.title), k)
  {
    var q := Lower(query.value);
    var cands := Candidates(rows, query);
    var ex := Examined(rows, query);
    TakeSplit(cands, 50);
    forall i | 0 <= i < |ex| ensures Mentions(ex[i], k) {
      assert ex[i] in cands;
      KeywordFilterMentions(BedsFilter(rows, q), Keywords(q), ex[i]);
    }
    FilterMapImages(ex, Reported(query, model),
                    (r: ListingResult) => Contains(Lower(r.location), k) || Contains(Lower(r.title), k));
  }
}
