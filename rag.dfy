/**
 * The data-question router of the portfolio assistant (`RAGEngine.query` in
 * src/api/rag_engine.py): the lower-cased question is tested against four
 * keyword lists in a fixed order, the first list with a hit decides which
 * table is consulted, and a few rules pick the rows handed to the language
 * model. The prompt text, the markdown tables and the model call itself are
 * not modelled; the call's outcome is a parameter.
 */
module RagRouting {
  import opened Wrappers
  import opened Text
  import opened Sequences

  datatype Intent = TenantQuery | PropertyQuery | ListingQuery | StatsQuery | SchemaFallback

  const TenantKeywords: seq<string> := ["tenant", "who", "occupant", "lease", "churn", "risk"]
  const PropertyKeywords: seq<string> := ["property", "building", "unit", "portfolio", "noi", "occupancy"]
  const ListingKeywords: seq<string> := ["listing", "market", "available", "for rent", "find", "search"]
  const StatsKeywords: seq<string> := ["total", "count", "how many", "average", "sum", "stats", "overview"]

  /** The order in which the branches are tried. */
  function Priority(i: Intent): nat {
    match i
    case TenantQuery => 0
    case PropertyQuery => 1
    case ListingQuery => 2
    case StatsQuery => 3
    case SchemaFallback => 4
  }

  /** The keywords that select a branch; the fallback has none. */
  function KeywordsOf(i: Intent): seq<string> {
    match i
    case TenantQuery => TenantKeywords
    case PropertyQuery => PropertyKeywords
    case ListingQuery => ListingKeywords
    case StatsQuery => StatsKeywords
    case SchemaFallback => []
  }

  /** `any(k in text for k in keywords)`: a substring test per keyword. */
  predicate MentionsAny(text: string, keywords: seq<string>) {
    exists k :: 0 <= k < |keywords| && Contains(text, keywords[k])
  }

  /** The if/elif chain over the lower-cased question. */
  function Route(query: string): Intent {
    var q := Lower(query);
    if MentionsAny(q, TenantKeywords) then TenantQuery
    else if MentionsAny(q, PropertyKeywords) then PropertyQuery
    else if MentionsAny(q, ListingKeywords) then ListingQuery
    else if MentionsAny(q, StatsKeywords) then StatsQuery
    else SchemaFallback
  }

  /**
   * The branch taken is the first, in priority order, whose keywords occur
   * in the lower-cased question; the fallback is taken only when none do.
   */
  lemma RouteIsFirstHit(query: string, other: Intent)
    ensures Route(query) != SchemaFallback ==> MentionsAny(Lower(query), KeywordsOf(Route(query)))
    ensures MentionsAny(Lower(query), KeywordsOf(other)) ==> Priority(Route(query)) <= Priority(other)
    ensures Route(query) == SchemaFallback <==> forall i :: !MentionsAny(Lower(query), KeywordsOf(i))
  {
    if Route(query) == SchemaFallback {
      forall i ensures !MentionsAny(Lower(query), KeywordsOf(i)) {
        if i == SchemaFallback {
          assert KeywordsOf(i) == [];
        }
      }
    }
  }

  /** Routing ignores letter case. */
  lemma RouteCaseInsensitive(query: string)
    ensures Route(Lower(query)) == Route(query)
  {
    LowerIdempotent(query);
  }

  lemma LowerAppend(a: string, b: string)
    ensures Lower(a + b) == Lower(a) + Lower(b)
  {
  }

  /** Text around a substring keeps it a substring. */
  lemma ContainsExtended(a: string, b: string, sub: string)
    requires Contains(a, sub)
    ensures Contains(a + b, sub) && Contains(b + a, sub)
  {
    var i := ContainsWitness(a, sub);
    assert (a + b)[i..i + |sub|] == a[i..i + |sub|];
    ContainsAt(a + b, sub, i);
    assert (b + a)[|b| + i..|b| + i + |sub|] == a[i..i + |sub|];
    ContainsAt(b + a, sub, |b| + i);
  }

  lemma MentionsExtended(a: string, b: string, keywords: seq<string>)
    requires MentionsAny(a, keywords)
    ensures MentionsAny(a + b, keywords) && MentionsAny(b + a, keywords)
  {
    var k :| 0 <= k < |keywords| && Contains(a, keywords[k]);
    ContainsExtended(a, b, keywords[k]);
  }

  /**
   * Adding words to a question never moves it to a later branch: a
   * tenant question stays a tenant question whatever else it mentions.
   */
  lemma MoreTextNeverLowersPriority(a: string, b: string)
    ensures Priority(Route(a + b)) <= Priority(Route(a))
    ensures Priority(Route(b + a)) <= Priority(Route(a))
  {
    LowerAppend(a, b);
    LowerAppend(b, a);
    var r := Route(a);
    if r != SchemaFallback {
      RouteIsFirstHit(a, r);
      MentionsExtended(Lower(a), Lower(b), KeywordsOf(r));
      RouteIsFirstHit(a + b, r);
      RouteIsFirstHit(b + a, r);
    }
  }

  /** Text without capitals is its own lower-cased form. */
  lemma LowerUnchanged(s: string)
    requires forall i :: 0 <= i < |s| ==> !IsUpper(s[i])
    ensures Lower(s) == s
  {
  }

  /** "whole" contains "who", so it is a tenant question. */
  lemma WholeIsTenantQuestion()
    ensures Route("whole") == TenantQuery
  {
    var q := "whole";
    assert Lower(q) == q by {
      LowerUnchanged(q);
    }
    assert Contains(q, TenantKeywords[1]) by {
      ContainsAt(q, "who", 0);
    }
  }

  /** A question naming a tenant keyword is a tenant question, whatever else it names. */
  lemma TenantKeywordWins(query: string, k: nat)
    requires k < |TenantKeywords| && Contains(Lower(query), TenantKeywords[k])
    ensures Route(query) == TenantQuery
  {
  }

  /** "risk per unit" has the property keyword "unit" but goes to the tenant branch. */
  lemma RiskPerUnitIsTenantQuestion(q: string)
    requires q == "risk per unit"
    ensures MentionsAny(Lower(q), PropertyKeywords)
    ensures Route(q) == TenantQuery
  {
    assert Lower(q) == q by {
      LowerUnchanged(q);
    }
    assert Contains(q, PropertyKeywords[2]) by {
      ContainsAt(q, "unit", 9);
    }
    assert Contains(q, TenantKeywords[5]) by {
      ContainsAt(q, "risk", 0);
    }
    TenantKeywordWins(q, 5);
  }

  // ---------------------------------------------------------------- tables

  datatype TenantRow = TenantRow(name: string, riskLevel: string, fields: seq<string>)
  datatype PropertyRow = PropertyRow(name: string, fields: seq<string>)
  datatype ListingRow = ListingRow(location: string, fields: seq<string>)

  /**
   * The frames the engine loaded. Unit and calibrated tenant rows are only
   * counted or passed on, so their columns are left opaque.
   */
  datatype Tables = Tables(props: seq<PropertyRow>, units: seq<seq<string>>, tenants: seq<TenantRow>,
                           calTenants: seq<seq<string>>, listings: seq<ListingRow>)

  /** `str.contains(term, case=False)`: a case-insensitive substring test. */
  predicate MatchesTerm(text: string, term: string) {
    Contains(Lower(text), Lower(term))
  }

  function TenantNameHas(term: string): TenantRow -> bool {
    (r: TenantRow) => MatchesTerm(r.name, term)
  }

  function PropertyNameHas(term: string): PropertyRow -> bool {
    (r: PropertyRow) => MatchesTerm(r.name, term)
  }

  function LocationHas(term: string): ListingRow -> bool {
    (r: ListingRow) => MatchesTerm(r.location, term)
  }

  // ---------------------------------------------------------------- tenant branch

  /** A word that may be a name: longer than two characters, capitalised. */
  predicate IsNameCandidate(term: string) {
    |term| > 2 && IsUpper(term[0])
  }

  /** The tenants a word of the question picks out, when it is a name candidate that matches. */
  function NameGroup(tenants: seq<TenantRow>): string -> Option<seq<TenantRow>> {
    (term: string) =>
      if IsNameCandidate(term) && Filter(tenants, TenantNameHas(term)) != []
      then Some(Filter(tenants, TenantNameHas(term)))
      else None
  }

  /** `matches` after the loop over `user_query.split()`. */
  function NameMatches(tenants: seq<TenantRow>, query: string): seq<seq<TenantRow>> {
    FilterMap(Words(query), NameGroup(tenants))
  }

  /** The loop that fills `matches`, one word of the question at a time. */
  method CollectNameMatches(tenants: seq<TenantRow>, query: string) returns (matches: seq<seq<TenantRow>>)
    ensures matches == NameMatches(tenants, query)
  {
    var terms := Words(query);
    matches := [];
    var i := 0;
    while i < |terms|
      invariant 0 <= i <= |terms|
      invariant matches == FilterMap(terms[..i], NameGroup(tenants))
    {
      FilterMapSnoc(terms, i, NameGroup(tenants));
      var term := terms[i];
      if |term| > 2 && IsUpper(term[0]) {
        var match_ := Filter(tenants, TenantNameHas(term));
        if match_ != [] {
          matches := matches + [match_];
        }
      }
      i := i + 1;
    }
    assert terms[..i] == terms;
  }

  /** `pd.concat(matches)` */
  function Concat<T>(groups: seq<seq<T>>): seq<T> {
    if groups == [] then [] else Concat(groups[..|groups| - 1]) + groups[|groups| - 1]
  }

  /** `drop_duplicates()`: the first occurrence of each row, in order. */
  function Dedup<T(==,!new)>(s: seq<T>): (r: seq<T>)
    ensures forall x :: x in r <==> x in s
    ensures forall i, j :: 0 <= i < j < |r| ==> r[i] != r[j]
  {
    if s == [] then []
    else
      var d := Dedup(s[..|s| - 1]);
      var x := s[|s| - 1];
      assert s == s[..|s| - 1] + [x];
      if x in d then d else d + [x]
  }

  /**
   * First occurrences keep their order: deduplicating any prefix of the rows
   * gives a prefix of the result, so a row first seen earlier is listed
   * earlier and `head(10)` keeps the ten rows seen first.
   */
  lemma {:induction false} DedupKeepsFirstOrder<T(!new)>(s: seq<T>, k: nat)
    requires k <= |s|
    ensures Dedup(s[..k]) <= Dedup(s)
    decreases |s| - k
  {
    if k < |s| {
      DedupKeepsFirstOrder(s, k + 1);
      assert s[..k + 1][..k] == s[..k];
    } else {
      assert s[..k] == s;
    }
  }

  predicate IsHigh(r: TenantRow) {
    r.riskLevel == "High"
  }

  /** What the tenant branch puts in the context. */
  datatype TenantSelection =
    | NoTenantTable
    | MatchingTenants(rows: seq<TenantRow>)
    | HighRiskTenants(rows: seq<TenantRow>)
    | SampleTenants(rows: seq<TenantRow>)
    | TenantPage(total: nat, rows: seq<TenantRow>)

  function SelectTenants(tenants: seq<TenantRow>, query: string): TenantSelection {
    var q := Lower(query);
    if tenants == [] then NoTenantTable
    else
      var matches := NameMatches(tenants, query);
      if matches != [] then MatchingTenants(Take(Dedup(Concat(matches)), 10))
      else if Contains(q, "risk") || Contains(q, "churn") then
        var high := Take(Filter(tenants, IsHigh), 10);
        if high != [] then HighRiskTenants(high) else SampleTenants(Take(tenants, 10))
      else TenantPage(|tenants|, Take(tenants, 15))
  }

  /** The calibrated rows appended when the question asks for income, credit or detail. */
  function CalibratedDetail(cal: seq<seq<string>>, query: string): seq<seq<string>> {
    var q := Lower(query);
    if cal != [] && (Contains(q, "income") || Contains(q, "credit") || Contains(q, "detail"))
    then Take(cal, 10)
    else []
  }

  /**
   * With no name match and a question about risk or churn, only High-risk
   * tenants are shown, at most ten of them, the first ones in table order;
   * the ten-row sample appears exactly when no tenant is High.
   */
  lemma RiskQuestionShowsHighRisk(tenants: seq<TenantRow>, query: string)
    requires tenants != [] && NameMatches(tenants, query) == []
    requires Contains(Lower(query), "risk") || Contains(Lower(query), "churn")
    ensures var s := SelectTenants(tenants, query);
            && (s.HighRiskTenants? || s.SampleTenants?)
            && (s.HighRiskTenants? ==> |s.rows| <= 10 && forall k :: 0 <= k < |s.rows| ==> IsHigh(s.rows[k]))
            && (s.SampleTenants? <==> forall k :: 0 <= k < |tenants| ==> !IsHigh(tenants[k]))
  {
    var high := Filter(tenants, IsHigh);
    if forall k :: 0 <= k < |tenants| ==> !IsHigh(tenants[k]) {
      FilterNone(tenants, IsHigh);
    } else {
      var k :| 0 <= k < |tenants| && IsHigh(tenants[k]);
      FilterIn(tenants, IsHigh, tenants[k]);
      assert high != [];
    }
  }

  /** Matched tenants are shown once each, at most ten of them. */
  lemma MatchingTenantsDistinct(tenants: seq<TenantRow>, query: string)
    requires SelectTenants(tenants, query).MatchingTenants?
    ensures var rows := SelectTenants(tenants, query).rows;
            && |rows| <= 10
            && forall i, j :: 0 <= i < j < |rows| ==> rows[i] != rows[j]
  {
    var d := Dedup(Concat(NameMatches(tenants, query)));
    var rows := Take(d, 10);
    forall i, j | 0 <= i < j < |rows| ensures rows[i] != rows[j] {
      assert rows[i] == d[i] && rows[j] == d[j];
    }
  }

  /** Every letter of a lower-cased question is lower case, so no word of it is a name candidate. */
  lemma {:induction false} WordsOfLowered(s: string)
    requires forall i :: 0 <= i < |s| ==> !IsUpper(s[i])
    ensures forall k :: 0 <= k < |Words(s)| ==> !IsNameCandidate(Words(s)[k])
    decreases |s|
  {
    if s != [] {
      if IsSpace(s[0]) {
        WordsOfLowered(s[1..]);
      } else {
        var n := WordLength(s);
        WordsOfLowered(s[n..]);
        assert Words(s) == [s[..n]] + Words(s[n..]);
      }
    }
  }

  /** A question typed in lower case never matches a tenant by name. */
  lemma LowerCaseQuestionMatchesNoName(tenants: seq<TenantRow>, query: string)
    ensures NameMatches(tenants, Lower(query)) == []
  {
    var q := Lower(query);
    forall i | 0 <= i < |q| ensures !IsUpper(q[i]) {
    }
    WordsOfLowered(q);
    forall k | 0 <= k < |Words(q)| ensures NameGroup(tenants)(Words(q)[k]).None? {
    }
    FilterMapNone(Words(q), NameGroup(tenants));
  }

  // ---------------------------------------------------------------- first long matching word

  /** A word of more than three characters for which `hit` holds. */
  predicate LongHit(term: string, hit: string -> bool) {
    |term| > 3 && hit(term)
  }

  /** The position of the first long word that hits: the `break` of the property and listing loops. */
  function FirstHit(terms: seq<string>, hit: string -> bool): (r: Option<nat>)
    ensures r.Some? ==> r.value < |terms| && LongHit(terms[r.value], hit)
                        && forall j :: 0 <= j < r.value ==> !LongHit(terms[j], hit)
    ensures r.None? ==> forall j :: 0 <= j < |terms| ==> !LongHit(terms[j], hit)
  {
    if terms == [] then None
    else if LongHit(terms[0], hit) then Some(0)
    else match FirstHit(terms[1..], hit)
      case None => None
      case Some(i) => Some(i + 1)
  }

  /** The first long word that hits is the one the loop stops at. */
  lemma FirstHitAt(terms: seq<string>, hit: string -> bool, i: nat)
    requires i < |terms| && LongHit(terms[i], hit)
    requires forall j :: 0 <= j < i ==> !LongHit(terms[j], hit)
    ensures FirstHit(terms, hit) == Some(i)
  {
  }

  function PropertyHit(props: seq<PropertyRow>): string -> bool {
    (term: string) => Filter(props, PropertyNameHas(term)) != []
  }

  function ListingHit(listings: seq<ListingRow>): string -> bool {
    (term: string) => Filter(listings, LocationHas(term)) != []
  }

  datatype PropertySelection = NoPropertyTable | MatchingProperty(rows: seq<PropertyRow>) | AllProperties(rows: seq<PropertyRow>)

  function SelectProperties(props: seq<PropertyRow>, query: string): PropertySelection {
    if props == [] then NoPropertyTable
    else
      var terms := Words(query);
      match FirstHit(terms, PropertyHit(props))
      case Some(i) => MatchingProperty(Filter(props, PropertyNameHas(terms[i])))
      case None => AllProperties(props)
  }

  /** The property loop: the first long word naming a property, then `break`. */
  method FindProperty(props: seq<PropertyRow>, query: string) returns (s: PropertySelection)
    requires props != []
    ensures s == SelectProperties(props, query)
  {
    var terms := Words(query);
    var i := 0;
    while i < |terms|
      invariant 0 <= i <= |terms|
      invariant forall j :: 0 <= j < i ==> !LongHit(terms[j], PropertyHit(props))
    {
      var term := terms[i];
      if |term| > 3 {
        var match_ := Filter(props, PropertyNameHas(term));
        if match_ != [] {
          FirstHitAt(terms, PropertyHit(props), i);
          return MatchingProperty(match_);
        }
      }
      i := i + 1;
    }
    assert FirstHit(terms, PropertyHit(props)).None?;
    s := AllProperties(props);
  }

  /** Listings shown: how many matched, and the first fifteen of them. */
  datatype ListingSelection = NoListingData | Listings(found: nat, shown: seq<ListingRow>)

  function SelectListings(listings: seq<ListingRow>, query: string): ListingSelection {
    if listings == [] then NoListingData
    else
      var terms := Words(query);
      var located := match FirstHit(terms, ListingHit(listings))
                     case Some(i) => Filter(listings, LocationHas(terms[i]))
                     case None => listings;
      Listings(|located|, Take(located, 15))
  }

  /** The listing loop: `location_matches` starts as every listing and is replaced by the first hit. */
  method FindListings(listings: seq<ListingRow>, query: string) returns (s: ListingSelection)
    requires listings != []
    ensures s == SelectListings(listings, query)
  {
    var terms := Words(query);
    var located := listings;
    var i := 0;
    while i < |terms|
      invariant 0 <= i <= |terms|
      invariant forall j :: 0 <= j < i ==> !LongHit(terms[j], ListingHit(listings))
    {
      var term := terms[i];
      if |term| > 3 {
        var m := Filter(listings, LocationHas(term));
        if m != [] {
          FirstHitAt(terms, ListingHit(listings), i);
          located := m;
          break;
        }
      }
      i := i + 1;
    }
    if i == |terms| {
      assert FirstHit(terms, ListingHit(listings)).None?;
    }
    s := Listings(|located|, Take(located, 15));
  }

  /**
   * The listings shown all lie in the first long word's location; with no
   * such word, every listing counts as found.
   */
  lemma ListingsFollowFirstLocation(listings: seq<ListingRow>, query: string)
    requires listings != []
    ensures var s := SelectListings(listings, query);
            && s.Listings? && |s.shown| <= 15 && s.found <= |listings|
            && (match FirstHit(Words(query), ListingHit(listings))
                case Some(i) => forall k :: 0 <= k < |s.shown| ==> MatchesTerm(s.shown[k].location, Words(query)[i])
                case None => s.found == |listings|)
  {
    var terms := Words(query);
    match FirstHit(terms, ListingHit(listings))
    case Some(i) =>
      var located := Filter(listings, LocationHas(terms[i]));
      forall k | 0 <= k < |Take(located, 15)| ensures MatchesTerm(Take(located, 15)[k].location, terms[i]) {
        assert Take(located, 15)[k] == located[k];
        assert LocationHas(terms[i])(located[k]);
      }
    case None =>
  }

  // ---------------------------------------------------------------- the context

  /** Table sizes reported by the overview, present only for non-empty tables. */
  datatype Overview = Overview(properties: Option<nat>, units: Option<nat>, tenants: Option<nat>, listings: Option<nat>)

  function SizeIfAny<T>(s: seq<T>): Option<nat> {
    if s == [] then None else Some(|s|)
  }

  datatype Context =
    | TenantContext(tenantSelection: TenantSelection, calibrated: seq<seq<string>>)
    | PropertyContext(propertySelection: PropertySelection, unitSummary: bool)
    | ListingContext(listings: ListingSelection)
    | StatsContext(overview: Overview)
    | SchemaContext(sampleProperties: seq<PropertyRow>)

  const UnitKeywords: seq<string> := ["unit", "rent", "sqft", "type"]

  /** The data context the branch taken assembles. */
  function ContextFor(t: Tables, query: string): (c: Context)
    ensures c.TenantContext? <==> Route(query) == TenantQuery
    ensures c.PropertyContext? <==> Route(query) == PropertyQuery
    ensures c.ListingContext? <==> Route(query) == ListingQuery
    ensures c.StatsContext? <==> Route(query) == StatsQuery
    ensures c.SchemaContext? <==> Route(query) == SchemaFallback
  {
    match Route(query)
    case TenantQuery => TenantContext(SelectTenants(t.tenants, query), CalibratedDetail(t.calTenants, query))
    case PropertyQuery =>
      PropertyContext(SelectProperties(t.props, query), t.units != [] && MentionsAny(Lower(query), UnitKeywords))
    case ListingQuery => ListingContext(SelectListings(t.listings, query))
    case StatsQuery =>
      StatsContext(Overview(SizeIfAny(t.props), SizeIfAny(t.units), SizeIfAny(t.tenants), SizeIfAny(t.listings)))
    case SchemaFallback => SchemaContext(Take(t.props, 5))
  }

  /** `query` up to the model call: the branch, then its loops. */
  method BuildContext(t: Tables, query: string) returns (c: Context)
    ensures c == ContextFor(t, query)
  {
    var intent := Route(query);
    if intent == TenantQuery {
      var selection := NoTenantTable;
      if t.tenants != [] {
        var matches := CollectNameMatches(t.tenants, query);
        if matches != [] {
          selection := MatchingTenants(Take(Dedup(Concat(matches)), 10));
        } else {
          selection := SelectTenants(t.tenants, query);
        }
      }
      c := TenantContext(selection, CalibratedDetail(t.calTenants, query));
    } else if intent == PropertyQuery {
      var selection := NoPropertyTable;
      if t.props != [] {
        selection := FindProperty(t.props, query);
      }
      c := PropertyContext(selection, t.units != [] && MentionsAny(Lower(query), UnitKeywords));
    } else if intent == ListingQuery {
      var listings := NoListingData;
      if t.listings != [] {
        listings := FindListings(t.listings, query);
      }
      c := ListingContext(listings);
    } else {
      c := ContextFor(t, query);
    }
  }

  // ---------------------------------------------------------------- the answer

  const ErrorPrefix := "Error processing data query: "

  /** The reply of the model call, or the error text when the call raises. */
  function Answer(reply: Result<string, string>): (r: string)
    ensures reply.Ok? ==> r == reply.value
    ensures reply.Err? ==> ErrorPrefix <= r && r[|ErrorPrefix|..] == reply.error
  {
    match reply
    case Ok(text) => text
    case Err(message) => ErrorPrefix + message
  }
}
