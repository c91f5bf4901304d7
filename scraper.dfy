/**
 * The listing scraper (src/data/scrapers/cl_scraper.py): the bedroom and
 * square-footage extraction from a listing's details text, the price-text
 * cleanup, and the page-offset loop. The HTTP requests and the HTML parsing
 * are outside the model: the page returned for each offset is a parameter.
 */
module Scraper {
  import opened Wrappers
  import opened Text
  import opened Numbers
  import opened Patterns
  import opened Sequences

  /**
   * `extract_details`: bedrooms are the digits right before the leftmost
   * "br" that follows a digit, square feet the digits right before the
   * leftmost "ft" that follows a digit; the two are found independently.
   */
  function ExtractDetails(details: string): (r: (Option<nat>, Option<nat>))
    ensures r.0.None? <==> forall q :: 0 <= q < |details| ==> !MatchAt(details, q, ["br"], false)
    ensures r.0.Some? ==> exists q :: 0 <= q < |details| && MatchAt(details, q, ["br"], false)
                            && (forall q' :: 0 <= q' < q ==> !MatchAt(details, q', ["br"], false))
                            && r.0.value == GroupValue(details, q)
    ensures r.1.None? <==> forall q :: 0 <= q < |details| ==> !MatchAt(details, q, ["ft"], false)
    ensures r.1.Some? ==> exists q :: 0 <= q < |details| && MatchAt(details, q, ["ft"], false)
                            && (forall q' :: 0 <= q' < q ==> !MatchAt(details, q', ["ft"], false))
                            && r.1.value == GroupValue(details, q)
  {
    (Search(details, ["br"], false), Search(details, ["ft"], false))
  }

  /** The example in the source's own documentation: '2br - 950ft2' gives (2, 950). */
  lemma ExtractDetailsExample(details: string)
    requires details == "2br - 950ft2"
    ensures ExtractDetails(details) == (Some(2), Some(950))
  {
    BedroomsOfExample(details);
    SquareFeetOfExample(details);
  }

  lemma BedroomsOfExample(t: string)
    requires t == "2br - 950ft2"
    ensures Search(t, ["br"], false) == Some(2)
  {
    assert RunEnd(t, 0) == 1 by {
      assert IsDigit(t[0]) && !IsDigit(t[1]);
    }
    assert ["br"][0] <= t[1..];
    assert MatchAt(t, 0, ["br"], false);
    var group := t[0..1];
    assert group == "2" && group[..0] == [];
    assert DigitsValue(group) == 2;
  }

  lemma SquareFeetOfExample(t: string)
    requires t == "2br - 950ft2"
    ensures Search(t, ["ft"], false) == Some(950)
  {
    NoFeetBeforeSix(t);
    FeetAtSix(t);
    SearchFindsLeftmost(t, 6, ["ft"], false);
  }

  lemma NoFeetBeforeSix(t: string)
    requires t == "2br - 950ft2"
    ensures forall q :: 0 <= q < 6 ==> !MatchAt(t, q, ["ft"], false)
  {
    assert RunEnd(t, 0) == 1 by {
      assert IsDigit(t[0]) && !IsDigit(t[1]);
    }
    assert !(["ft"][0] <= t[1..]);
    assert forall q :: 1 <= q < 6 ==> !IsDigit(t[q]);
  }

  lemma FeetAtSix(t: string)
    requires t == "2br - 950ft2"
    ensures MatchAt(t, 6, ["ft"], false) && GroupValue(t, 6) == 950
  {
    assert RunEnd(t, 6) == 9 by {
      assert IsDigit(t[6]) && IsDigit(t[7]) && IsDigit(t[8]) && !IsDigit(t[9]);
    }
    assert ["ft"][0] <= t[9..];
    assert t[6..9] == "950";
    NineFiftyValue(t[6..9]);
  }

  lemma NineFiftyValue(d: string)
    requires d == "950"
    ensures AllDigits(d) && DigitsValue(d) == 950
  {
    assert d[..2][..1] == d[..1] == "9";
    assert d[..1][..0] == [];
    assert DigitsValue(d[..1]) == 9;
    assert DigitsValue(d[..2]) == 95;
  }

  /** Text with no digit before "br" or "ft" gives (None, None). */
  lemma ExtractDetailsNone(details: string)
    requires forall i :: 0 <= i < |details| ==> !IsDigit(details[i])
    ensures ExtractDetails(details) == (None, None)
  {
  }

  /** Price text as the scraper cleans it: stripped, then '$' and ',' removed. */
  function CleanPrice(text: string): (r: string)
    ensures '$' !in r && ',' !in r
    ensures forall c :: c != '$' && c != ',' ==> (c in r <==> c in Trim(text))
  {
    Remove(Remove(Trim(text), '$'), ',')
  }

  predicate IsPriceChar(c: char) {
    c != '$' && c != ','
  }

  lemma {:induction false} RemoveAppend(a: string, b: string, c: char)
    ensures Remove(a + b, c) == Remove(a, c) + Remove(b, c)
    decreases |a|
  {
    if a == [] {
      assert a + b == b;
    } else {
      assert (a + b)[1..] == a[1..] + b;
      RemoveAppend(a[1..], b, c);
    }
  }

  /**
   * Cleaning keeps every character other than '$' and ',' of the stripped
   * text, in order: it is the filter of the stripped text by IsPriceChar.
   */
  lemma {:induction false} CleanPriceKeepsOrder(text: string)
    ensures CleanPrice(text) == Filter(Trim(text), IsPriceChar)
  {
    RemoveBothIsFilter(Trim(text));
  }

  lemma {:induction false} RemoveBothIsFilter(s: string)
    ensures Remove(Remove(s, '$'), ',') == Filter(s, IsPriceChar)
    decreases |s|
  {
    if s != [] {
      var x, t := s[0], s[1..];
      RemoveBothIsFilter(t);
      assert s == [x] + t;
      FilterAppend([x], t, IsPriceChar);
      assert [x][..0] == [] && [x][1..] == [];
      var head := if x == '$' then [] else [x];
      assert Remove(s, '$') == head + Remove(t, '$');
      RemoveAppend(head, Remove(t, '$'), ',');
    }
  }

  /** A result item of a search page; None where the element is absent. */
  datatype Item = Item(price: Option<string>, title: Option<string>, details: Option<string>,
                       location: Option<string>, link: Option<string>)

  datatype Listing = Listing(price: real, title: string, details: string, location: string, url: Option<string>)

  /** The price of an item: None when the element is missing, the cleaned text is empty, or `float()` rejects it. */
  function ItemPrice(price: Option<string>): (r: Option<real>)
    ensures price.None? ==> r.None?
    ensures r.Some? ==> CleanPrice(price.value) != [] && PyFloat(CleanPrice(price.value)) == r
    ensures price.Some? && CleanPrice(price.value) != [] ==> r == PyFloat(CleanPrice(price.value))
  {
    match price
    case None => None
    case Some(t) =>
      var c := CleanPrice(t);
      if c == [] then None else PyFloat(c)
  }

  function RemoveParens(s: string): string {
    Remove(Remove(s, '('), ')')
  }

  /** The record kept for an item, or None when it has no usable price. */
  function ListingOf(item: Item): (r: Option<Listing>)
    ensures r.Some? <==> ItemPrice(item.price).Some?
  {
    match ItemPrice(item.price)
    case None => None
    case Some(p) =>
      Some(Listing(p,
        if item.title.Some? then Trim(item.title.value) else "N/A",
        if item.details.Some? then Trim(item.details.value) else "",
        if item.location.Some? then RemoveParens(Trim(item.location.value)) else "Unknown",
        item.link))
  }

  /** The listings of one page, in page order. */
  function ListingsOf(items: seq<Item>): (r: seq<Listing>)
    ensures |r| <= |items|
  {
    if items == [] then []
    else
      assert items == items[..|items| - 1] + [items[|items| - 1]];
      ListingsOf(items[..|items| - 1])
        + (match ListingOf(items[|items| - 1]) case Some(l) => [l] case None => [])
  }

  /** Craigslist shows 120 results per page. */
  const PageSize: nat := 120

  /** `range(0, count, 120)`: the offsets the scraper may request. */
  function PageOffsets(count: nat): seq<nat>
  {
    var n := (count + PageSize - 1) / PageSize;
    seq(n, k requires 0 <= k < n => PageSize * k)
  }

  /** The offsets are the multiples of 120 below `count`, and no more. */
  lemma PageOffsetsCover(count: nat)
    ensures var r := PageOffsets(count);
            (forall k :: 0 <= k < |r| ==> r[k] == PageSize * k && r[k] < count)
            && count <= PageSize * |r| < count + PageSize
  {
  }

  /** What a request for one page gives back. */
  datatype Page = FetchFailed | Results(items: seq<Item>)

  /**
   * The scrape loop as a function of the page returned for each offset,
   * resumed at request number k with `acc` collected: the listings gathered
   * and how many pages were requested in all. It stops at a failed or empty
   * page, or once at least `count` listings are collected after a page.
   */
  function Scrape(count: nat, fetch: nat -> Page, k: nat, acc: seq<Listing>): (r: (seq<Listing>, nat))
    requires k <= |PageOffsets(count)|
    ensures acc <= r.0
    ensures k <= r.1 <= |PageOffsets(count)|
    decreases |PageOffsets(count)| - k
  {
    var offsets := PageOffsets(count);
    if k == |offsets| then (acc, k)
    else
      match fetch(offsets[k])
      case FetchFailed => (acc, k + 1)
      case Results(items) =>
        if items == [] then (acc, k + 1)
        else
          var acc' := acc + ListingsOf(items);
          if |acc'| >= count then (acc', k + 1) else Scrape(count, fetch, k + 1, acc')
  }

  lemma ScrapeStops(count: nat, fetch: nat -> Page, k: nat, acc: seq<Listing>)
    requires k < |PageOffsets(count)|
    requires var p := fetch(PageOffsets(count)[k]); p.FetchFailed? || p.items == []
    ensures Scrape(count, fetch, k, acc) == (acc, k + 1)
  {
  }

  lemma ScrapeGoesOn(count: nat, fetch: nat -> Page, k: nat, acc: seq<Listing>)
    requires k < |PageOffsets(count)|
    requires var p := fetch(PageOffsets(count)[k]); p.Results? && p.items != []
    ensures var acc' := acc + ListingsOf(fetch(PageOffsets(count)[k]).items);
            Scrape(count, fetch, k, acc)
            == if |acc'| >= count then (acc', k + 1) else Scrape(count, fetch, k + 1, acc')
  {
  }

  /** The inner loop over one page's items. */
  method CollectPage(items: seq<Item>) returns (found: seq<Listing>)
    ensures found == ListingsOf(items)
  {
    found := [];
    var j := 0;
    while j < |items|
      invariant 0 <= j <= |items|
      invariant found == ListingsOf(items[..j])
    {
      var l := ListingOf(items[j]);
      assert items[..j + 1][..j] == items[..j];
      if l.Some? {
        found := found + [l.value];
      }
      j := j + 1;
    }
    assert items[..j] == items;
  }

  /**
   * One iteration of the page loop: fetches the page at request number k,
   * adds its listings and says whether the loop stops there.
   */
  method FetchPage(count: nat, fetch: nat -> Page, k: nat, listings: seq<Listing>)
    returns (next: seq<Listing>, done: bool)
    requires k < |PageOffsets(count)|
    ensures done ==> Scrape(count, fetch, k, listings) == (next, k + 1)
    ensures !done ==> Scrape(count, fetch, k, listings) == Scrape(count, fetch, k + 1, next)
  {
    var page := fetch(PageOffsets(count)[k]);
    if page.FetchFailed? || page.items == [] {
      ScrapeStops(count, fetch, k, listings);
      next, done := listings, true;
    } else {
      var found := CollectPage(page.items);
      next := listings + found;
      done := |next| >= count;
      ScrapeGoesOn(count, fetch, k, listings);
    }
  }

  /**
   * `scrape_cl_listings`: requests pages at offsets 0, 120, 240, ... below
   * `count` and collects every item with a parsable price.
   */
  method ScrapeListings(count: nat, fetch: nat -> Page) returns (listings: seq<Listing>, requested: seq<nat>)
    ensures listings == Scrape(count, fetch, 0, []).0
    ensures requested == PageOffsets(count)[..Scrape(count, fetch, 0, []).1]
  {
    listings, requested := [], [];
    var offsets := PageOffsets(count);
    var k := 0;
    var done := false;
    ghost var total := Scrape(count, fetch, 0, []);
    while k < |offsets| && !done
      invariant 0 <= k <= |offsets|
      invariant |requested| == k && forall j :: 0 <= j < k ==> requested[j] == PageSize * j
      invariant !done ==> total == Scrape(count, fetch, k, listings)
      invariant done ==> total == (listings, k)
      decreases |offsets| - k
    {
      var offset := offsets[k];
      assert offset == PageSize * k;
      requested := requested + [offset];
      listings, done := FetchPage(count, fetch, k, listings);
      k := k + 1;
    }
    if !done {
      ScrapeExhausted(count, fetch, listings);
    }
    OffsetsPrefix(count, requested);
  }

  lemma OffsetsPrefix(count: nat, requested: seq<nat>)
    requires |requested| <= |PageOffsets(count)|
    requires forall j :: 0 <= j < |requested| ==> requested[j] == PageSize * j
    ensures requested == PageOffsets(count)[..|requested|]
  {
  }

  lemma ScrapeExhausted(count: nat, fetch: nat -> Page, acc: seq<Listing>)
    ensures Scrape(count, fetch, |PageOffsets(count)|, acc) == (acc, |PageOffsets(count)|)
  {
  }

  /** No listings are requested when the target count is 0. */
  lemma ZeroCountRequestsNothing(fetch: nat -> Page)
    ensures Scrape(0, fetch, 0, []) == ([], 0)
  {
  }
}
