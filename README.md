# Portfolio analytics core, modelled in Dafny

This project models the deterministic logic of a real-estate portfolio
application. The application has a Next.js front end and a FastAPI back end,
both reading tables of properties, units, tenants and scraped rental listings.

The model covers:

- **Tenants route** (`frontend/app/api/tenants/route.ts`). Its point-based
  risk classifier gives 3 points for a rent burden above 40% and 2 points for
  credit below 620, then a High / Medium / Low tier with a reason. Around it, a
  unit → rent map is read from the units file and tenant rows are mapped to
  records by fixed field position.
- **Dashboard route** (`frontend/app/api/dashboard/route.ts`). It counts rows,
  sums the rent after the last comma of each unit row and counts tenant rows
  with credit below 620. From these it derives the occupancy rate, the rounded
  average rent and the annual NOI.
- **Back-end rules** (`src/api/server.py`):
  - the yield-gap ranking `get_yield`;
  - the listing verdicts and price cleanup of `get_listings`;
  - the revenue scenario `run_scenario`;
  - the per-property summary `get_props`;
  - the name mapping and fallbacks of `predict_rent`;
  - the rule-based fallback of `predict_churn` and the rent burden of `TenantFeatures.to_df`.
- **Calibration** (`src/data/synthetic/calibrate_and_generate.py`). `parse_beds`
  reads bedroom counts from titles. Prices are kept only inside a window, sorted
  into five bedroom buckets, and fixed fallback parameters apply to thin buckets.
- **Scraper** (`src/data/scrapers/cl_scraper.py`). `extract_details` pulls
  bedrooms and square feet from listing details. The scraper also cleans price
  text and chooses which page offsets to request.
- **Data-question router** (`RAGEngine.query` in `src/api/rag_engine.py`). The
  keyword routing picks a branch, and rules pick the rows that go into the
  language-model context.
- **Model registry** (`src/models/registry.py`). It is a class over the
  `models` table (a sequence of rows) and the set of artifact files. Each save
  gets the latest version plus one. A load picks the highest version or an
  exact one, or reports one of the two exceptions. The listing is ordered by
  name, then by version descending.

Numbers follow each runtime:

- JavaScript numbers are reals extended with ±Infinity and NaN, so `x / 0`
  and NaN comparisons behave as in the route handlers.
- JavaScript's `parseInt` (decimal, or hexadecimal after "0x"), `parseFloat`
  (decimals with an exponent, and "Infinity") and `Math.round` are modelled,
  and so are Python's `float()` of ASCII decimal text and `int()`, which truncates
  toward zero.
- Python float arithmetic is modelled with exact reals.

Library sorts are a stable insertion sort over a total preorder. These are
Python's `list.sort(reverse=True)` (stable, ties in table order) and SQL
`ORDER BY`.

Module layout: `wrappers.dfy`, `text.dfy`, `numbers.dfy`, `sequences.dfy`,
`csv.dfy` and `patterns.dfy` are the shared helpers. Each further file models
one part of the core:

| file | models |
|---|---|
| `tenants.dfy` | tenants route |
| `dashboard.dfy` | dashboard route |
| `yield.dfy` | `get_yield` |
| `listings.dfy` | `get_listings` |
| `scenario.dfy` | `run_scenario` |
| `properties.dfy` | `get_props` |
| `predictions.dfy` | `predict_rent`, `predict_churn` |
| `calibration.dfy` | calibration |
| `scraper.dfy` | scraper |
| `rag.dfy` | data-question router |
| `registry.dfy` | model registry |

Behaviour of the code worth knowing, all of it modelled as written:

- The scenario is multiplicative (revenue = units × rent × occupancy × 12).
  The occupancy is clamped to [0, 1] and neither input is range-checked.
- The dashboard's high-risk count uses the credit field alone (below 620),
  not the tenants' risk tier.
- Yield ties keep table order (stable sort).
- With an income of 0 and a rent of 0 the burden is NaN, which earns no
  burden point.
- Tenant rows whose income or credit does not parse are kept, with NaN
  figures.
- A unit rent written "Infinity" is kept: the tenants route gives that
  unit's tenants an infinite rent and tier High, and the dashboard adds it
  to the rent total, which makes the annual NOI and the average rent
  infinite.
- The occupancy rate is not clamped: it exceeds 100 when tenant rows
  outnumber unit rows. It reads "0.0" when the ratio rounds to zero even though
  some units are occupied.
- In `get_listings` the word "undervalued" is a verdict filter and also a
  keyword that every returned title or location must contain.

## Model

| member | source | states |
|---|---|---|
| `TenantRisk.RiskScore` | frontend/app/api/tenants/route.ts:13-15 | the score is 0, 2, 3 or 5; it is at least 3 exactly when the burden exceeds 0.4, and carries the 2 credit points exactly when credit is below 620 |
| `TenantRisk.CalculateRiskFactor` | frontend/app/api/tenants/route.ts:9-20 | High iff the burden point is earned; Medium iff no burden point but low credit; each tier carries its own reason text |
| `TenantRisk.HighIffRentOverThirtieth` | frontend/app/api/tenants/route.ts:10-17 | with a positive income the tier is High exactly when 30·rent > income, whatever the credit |
| `TenantRisk.BothPointsReportBurden` | frontend/app/api/tenants/route.ts:14-17 | burden and low credit together score 5 and report "High Rent Burden (>40%)" |
| `TenantRisk.RentMonotone` | frontend/app/api/tenants/route.ts:10-19 | raising the rent with income and credit fixed never lowers the tier (for an income that is not negative) |
| `TenantRisk.CreditMonotone` | frontend/app/api/tenants/route.ts:15-19 | lowering the credit never lowers the tier |
| `TenantRisk.ZeroIncome` | frontend/app/api/tenants/route.ts:10-14 | income 0: a positive rent gives tier High; rent 0 gives a NaN burden and the tier depends on credit alone; no failure |
| `TenantRisk.UnparsedIncomeNeverHigh` | frontend/app/api/tenants/route.ts:10-14 | a NaN income never earns the burden point |
| `TenantRisk.UnitKey` | frontend/app/api/tenants/route.ts:39-42 | a unit row has a key exactly when it contains a comma |
| `TenantRisk.UnitKeyField` | frontend/app/api/tenants/route.ts:40-42 | the key is the first comma field |
| `TenantRisk.UnitRentField` | frontend/app/api/tenants/route.ts:39-43 | the rent text is the last comma field |
| `TenantRisk.UnitRentMapDomain` | frontend/app/api/tenants/route.ts:35-46 | a unit id is in the map exactly when some row with a comma starts with it |
| `TenantRisk.UnitRentMapHas` | frontend/app/api/tenants/route.ts:41-44 | every row with a comma puts its key in the map |
| `TenantRisk.UnitRentMapSource` | frontend/app/api/tenants/route.ts:41-44 | every key in the map comes from some row |
| `TenantRisk.UnitRentMapLastWins` | frontend/app/api/tenants/route.ts:44 | a later row with the same id overwrites an earlier one: the value is the last setting row's rent |
| `Numbers.ExponentExample` | frontend/app/api/tenants/route.ts:43 | parseFloat reads an exponent: "1e3" is 1000 |
| `Numbers.ParseInfinity` | frontend/app/api/tenants/route.ts:43 | text that starts, after an optional sign and no leading blank, with "Infinity" parses as the infinity of that sign |
| `Numbers.InfinityExample` | frontend/app/api/tenants/route.ts:43 | parseFloat reads "Infinity" and "-Infinity" as the two infinities |
| `Numbers.HexExample` | frontend/app/api/tenants/route.ts:57 | parseInt reads a "0x" prefix as base 16: "0x1A" is 26 |
| `TenantRisk.UnitRentMapStep` | frontend/app/api/tenants/route.ts:39-45 | one more row applies `set` exactly when it has a comma, keyed by the text before the first comma |
| `TenantRisk.BuildUnitRentMap` | frontend/app/api/tenants/route.ts:35-46 | the forEach loop builds exactly the map of all `set` calls in row order |
| `TenantRisk.ResolveRent` | frontend/app/api/tenants/route.ts:61 | a unit present with a truthy rent resolves to that rent, an infinite one included; a missing unit, a rent of 0 or a NaN rent resolves to 0; the result is never NaN |
| `TenantRisk.InfiniteRentIsHigh` | frontend/app/api/tenants/route.ts:43-64 | a tenant of a unit whose last row has an "Infinity" rent gets an infinite rent and tier High at any positive income |
| `TenantRisk.InfiniteRentBurden` | frontend/app/api/tenants/route.ts:10-17 | an infinite rent against a positive income is always tier High |
| `TenantRisk.TenantOf` | frontend/app/api/tenants/route.ts:50-80 | a row is dropped exactly when it has fewer than 6 fields; a kept row reads id, unit and name from fields 0, 1 and 2 and income and credit by `parseInt` of fields 3 and 4, has lease end 2026-06-30, the resolved rent of its unit and the risk computed from its own figures |
| `TenantRisk.FieldCount` | frontend/app/api/tenants/route.ts:51-52 | the number of comma fields is the number of commas plus one |
| `TenantRisk.CommaInNameMisaligns` | frontend/app/api/tenants/route.ts:54-58 | a comma inside the name silently shifts the fields: the income is read from the name's second half and the credit from the income |
| `TenantRisk.TenantsAppend` | frontend/app/api/tenants/route.ts:50-81 | records keep the order of their rows (mapping distributes over concatenation) |
| `TenantRisk.TenantsCount` | frontend/app/api/tenants/route.ts:50-81 | there is one record per row with 6 or more fields, whatever those fields hold (unparsable figures are kept) |
| `TenantRisk.TenantsWellFormed` | frontend/app/api/tenants/route.ts:64-78 | every record has the placeholder lease end and a risk consistent with its rent, income and credit |
| `TenantRisk.TenantsGet` | frontend/app/api/tenants/route.ts:22-83 | the response is the tenant rows (header and blank lines removed) mapped against the map built from the unit rows |
| `CsvRows.DataRowsOfLines` | frontend/app/api/dashboard/route.ts:13 | reading a file drops the header line and the blank lines and keeps the other lines in order |
| `CsvRows.DataRowsOfFile` | frontend/app/api/tenants/route.ts:27 | a file of a header and non-blank rows reads back as exactly those rows |
| `CsvRows.DataRowsOfFileWithNewline` | frontend/app/api/dashboard/route.ts:18 | the same holds with a trailing newline |
| `Dashboard.RowRent` | frontend/app/api/dashboard/route.ts:31-35 | a row without a comma contributes nothing, and a rent that is contributed is never NaN |
| `Dashboard.FieldRent` | frontend/app/api/dashboard/route.ts:33-35 | the trimmed field is dropped exactly when `parseFloat` of it is NaN, and a kept rent is never NaN |
| `Dashboard.RowRentOfLastField` | frontend/app/api/dashboard/route.ts:31-35 | whatever precedes the last comma, the row contributes `parseFloat` of its trimmed last field, and nothing exactly when that parse is NaN |
| `Dashboard.InfinityField` | frontend/app/api/dashboard/route.ts:33-34 | the field "Infinity" holds no comma, is unchanged by `trim` and parses as +Infinity |
| `Dashboard.MinusInfinityField` | frontend/app/api/dashboard/route.ts:33-34 | the field "-Infinity" holds no comma, is unchanged by `trim` and parses as -Infinity |
| `Dashboard.InfinityRowIsPosInf` | frontend/app/api/dashboard/route.ts:31-36 | a row whose last field is "Infinity" adds +Infinity to the rent total, whatever precedes it |
| `Dashboard.MinusInfinityRowIsNegInf` | frontend/app/api/dashboard/route.ts:31-36 | a row whose last field is "-Infinity" adds -Infinity to the rent total, whatever precedes it |
| `Dashboard.NatField` | frontend/app/api/dashboard/route.ts:33-34 | the digits of a whole number hold no comma, are unchanged by `trim` and parse back to that number |
| `Dashboard.RowRentOfNat` | frontend/app/api/dashboard/route.ts:31-36 | a row ending in a comma and a whole rent contributes exactly that rent, whatever precedes the comma |
| `Dashboard.RentTotalSnoc` | frontend/app/api/dashboard/route.ts:27-39 | one more row changes the running total by JavaScript addition of its rent, if it has one |
| `Dashboard.RentTotalAppend` | frontend/app/api/dashboard/route.ts:27-39 | the total of two runs of rows is the JavaScript sum of their totals |
| `Dashboard.RentTotalCounts` | frontend/app/api/dashboard/route.ts:27-39 | the running total equals the total described by the rows: the finite rent sum when no rent is infinite, the infinity when one kind occurs, NaN when both do |
| `Dashboard.HighRiskCount` | frontend/app/api/dashboard/route.ts:52-62 | the credit-only high-risk count never exceeds the number of tenant rows |
| `Dashboard.StatsOf` | frontend/app/api/dashboard/route.ts:21-71 | totals are the row counts; high risk is the credit-only count; with unit rows the occupancy is the tenant/unit ratio in tenths of a percent, rounded half up, else "0.0" and average rent 0; the average rent is the rounded mean of the rent total and the annual NOI 12 times that total |
| `Dashboard.Summarize` | frontend/app/api/dashboard/route.ts:8-71 | the handler's response is the stats of the two files' data rows |
| `Dashboard.AccumulateRent` | frontend/app/api/dashboard/route.ts:24-39 | the rent loop yields the JavaScript total of the parsed last fields, skipping rows without a comma or with a NaN parse: the finite sum, an infinity, or NaN when both infinities occur |
| `Dashboard.CountHighRisk` | frontend/app/api/dashboard/route.ts:52-62 | the risk loop counts rows whose fifth field is non-empty and parses to a number below 620 |
| `Dashboard.AvgRentWithinHalf` | frontend/app/api/dashboard/route.ts:69 | with every rent finite, the average is finite and times the number of unit rows lies within half that number of the rent sum |
| `Dashboard.AvgRentOfFinite` | frontend/app/api/dashboard/route.ts:69 | with every rent finite the average is the rent sum over the row count, rounded half up |
| `Dashboard.InfiniteRentSpoilsTotals` | frontend/app/api/dashboard/route.ts:34-69 | one row with a +Infinity rent (a last field "Infinity", see `Dashboard.InfinityRowIsPosInf`) makes annual NOI and average rent infinite; with a -Infinity rent as well both are NaN |
| `Dashboard.OccupancyNotClamped` | frontend/app/api/dashboard/route.ts:67 | twice as many tenant rows as unit rows reads 200.0 |
| `Dashboard.OccupancyAtLeastFull` | frontend/app/api/dashboard/route.ts:67 | tenant rows at least as many as unit rows read at least 100.0 |
| `Dashboard.OccupancyRoundsToZero` | frontend/app/api/dashboard/route.ts:67 | one tenant row against 3000 unit rows reads 0.0 |
| `Dashboard.AnnualNOIOfRows` | frontend/app/api/dashboard/route.ts:68 | annual NOI is 12 × the monthly total; the total of more rows is the JavaScript sum of the parts; it is 0 without unit rows and 12 × the rent sum when every rent is finite |
| `Dashboard.StatsPermutationInvariant` | frontend/app/api/dashboard/route.ts:21-70 | reordering the rows of either file changes no figure |
| `YieldGap.Discount` | src/api/server.py:274-275 | the discount factor lies in [0.80, 0.94] |
| `YieldGap.DiscountedRentBounds` | src/api/server.py:276 | for a market rent m ≥ 0 the current rent lies in [0, m] and loses less than a fifth of m plus one; for m < 0 it exceeds m |
| `YieldGap.GainNonNegative` | src/api/server.py:277 | the gain is never negative for a non-negative market rent |
| `YieldGap.LargeGainNeedsRentAbove1250` | src/api/server.py:277-278 | only a market rent above 1250 can gain more than 3000 |
| `YieldGap.OpportunityOf` | src/api/server.py:272-280 | a unit is kept exactly when both cells parse and its gain exceeds 3000; a kept unit carries its id and type, the truncated market rent, the discounted current rent, the gain between them and the truncated area |
| `YieldGap.GetYield` | src/api/server.py:266-282 | the loop, the in-place stable sort and the slice give the first three of the opportunities sorted by decreasing gain |
| `YieldGap.UnknownPropertyEmpty` | src/api/server.py:267-269 | a property without units in the table gets no opportunities |
| `YieldGap.YieldShape` | src/api/server.py:278-282 | exactly min(3, number of opportunities) entries, each gaining more than 3000, in non-increasing gain order, drawn from the opportunities found |
| `YieldGap.YieldIsTop` | src/api/server.py:281-282 | no opportunity left out gains more than a returned one |
| `YieldGap.YieldStable` | src/api/server.py:281 | ties keep table order: the returned entries of a given gain are the first found with that gain, in order |
| `YieldGap.OnlyFirstHundredScanned` | src/api/server.py:271 | units of the property past its first 100 never affect the result |
| `Listings.KeywordFilterMentions` | src/api/server.py:182-185 | every row left by the keyword filter comes from the table and mentions every keyword in its location or title |
| `Listings.ParseNumber` | src/api/server.py:194-195 | the text parses exactly when `float()` accepts it; the result has the sign of the parsed value and lies within 1 of it, never further from 0 |
| `Listings.Evaluate` | src/api/server.py:189-207 | a row fails exactly when its price or square footage does not parse; a result carries the cleaned price and area, the model valuation (the price itself without a model), delta = valuation − price, the verdict of that delta and the row's title and location |
| `Listings.ReportedStep` | src/api/server.py:204-207 | a row that fails is counted and skipped; with an "undervalued" query only Undervalued results are appended |
| `Listings.FilterByQuery` | src/api/server.py:178-185 | the loop applies the bedroom filter, then one mask per keyword |
| `Listings.ExamineRows` | src/api/server.py:186-207 | the loop appends the reported rows in order and counts the failures |
| `Listings.GetListings` | src/api/server.py:174-209 | an empty table gives the no-data answer; otherwise the results and failures over the first 50 candidates |
| `Listings.VerdictMonotone` | src/api/server.py:203 | a larger gap never gives a lower verdict |
| `Listings.VerdictSymmetric` | src/api/server.py:203 | negating the gap swaps Undervalued and Overvalued |
| `Listings.FairBand` | src/api/server.py:203 | the verdict is Fair exactly when −150 ≤ delta ≤ 150 |
| `Listings.ParseNumberOfNat` | src/api/server.py:194-195 | the decimal text of n parses back to n |
| `Listings.MissingPrice` | src/api/server.py:190-191 | a missing price reads as 0 |
| `Listings.MissingSqft` | src/api/server.py:192-193 | a missing square footage reads as 800 |
| `Listings.DollarPrice` | src/api/server.py:194 | a leading '$' does not stop a price from parsing |
| `Listings.SeparatedPrice` | src/api/server.py:194 | "$2,500" is 2500 |
| `Listings.NoModelAllFair` | src/api/server.py:196-203 | without a valuation model every result is valued at its price, so delta 0 and verdict Fair |
| `Listings.UndervaluedQueryOnlyUndervalued` | src/api/server.py:204 | a query containing 'undervalued' returns only Undervalued listings |
| `Listings.NoModelUndervaluedEmpty` | src/api/server.py:196-204 | without a model an 'undervalued' query returns nothing |
| `Listings.AtMostFiftyExamined` | src/api/server.py:188 | results plus failures number at most 50 |
| `Listings.KeywordsRestrictResults` | src/api/server.py:182-185 | every result mentions every query keyword in its location or title, 'undervalued' included |
| `Scenario.NewOccupancy` | src/api/server.py:236 | the new occupancy lies in [0, 1] |
| `Scenario.RunScenario` | src/api/server.py:232-239 | the baseline revenue is 84911328; the new revenue and the delta are the truncated new revenue and the truncated difference from the baseline |
| `Scenario.NoChangeNoDelta` | src/api/server.py:234-239 | no change in either input gives delta 0 |
| `Scenario.Multiplicative` | src/api/server.py:234-237 | the new revenue is the baseline × the rent factor × the ratio of new occupancy to 94% |
| `Scenario.OccupancyCapped` | src/api/server.py:236 | any occupancy rise of 6 points or more has the same effect |
| `Scenario.OccupancyFloor` | src/api/server.py:236-239 | a fall of 94 points or more gives revenue 0 and delta −84911328 |
| `Scenario.RentMonotone` | src/api/server.py:235-237 | a larger rent change never lowers the new revenue |
| `Scenario.NoRangeCheck` | src/api/server.py:235-237 | a rent cut beyond 100% is accepted and gives a negative revenue while occupancy remains |
| `PropertySummary.SummaryOf` | src/api/server.py:250-261 | a summary keeps the property's id, name, neighbourhood and class, occupancy 94, the unit-row count, the truncated mean rent and the NOI computed from that count and mean |
| `PropertySummary.GetProps` | src/api/server.py:247-262 | an empty property table gives the single placeholder; otherwise one summary per property, in order |
| `PropertySummary.NoUnitsAllZero` | src/api/server.py:253-258 | a property without unit rows gets 0 units, average rent 0 and NOI 0 |
| `PropertySummary.RentTotalBounds` | src/api/server.py:251 | the rent total lies between the count times the lowest and times the highest rent |
| `PropertySummary.AvgRentInRange` | src/api/server.py:251-255 | the truncated mean lies within the range of the property's rents |
| `PropertySummary.NoiFromTruncatedMean` | src/api/server.py:255-258 | the NOI, computed from the truncated mean, never exceeds 65% of the annual rent roll |
| `PropertySummary.UnitOrderIrrelevant` | src/api/server.py:251 | reordering the unit table changes no summary |
| `Predictions.ClassCode` | src/api/server.py:120 | the class code is "A", "B" or "C" |
| `Predictions.TypeCode` | src/api/server.py:121 | the type code is "1BD", "2BD" or "Studio" |
| `Predictions.PredictRent` | src/api/server.py:110-149 | 4500 without a model; the truncated prediction over the mapped codes; the fallback when the model raises |
| `Predictions.CodeExamples` | src/api/server.py:120-121 | the dashboard's names map as intended, except "3BD", which becomes "Studio" |
| `Predictions.FallbackValues` | src/api/server.py:134-137 | the fallback is one of 3500, 4500, 5000 or 6000; the request defaults give 6000 |
| `Predictions.FallbackIgnoresShortClassName` | src/api/server.py:120-136 | "Class A" is class A for the model but earns no premium in the fallback |
| `Predictions.FallbackAsWritten` | src/api/server.py:167-171 | the fallback as written fails exactly when the income is 0 |
| `Predictions.ChurnFallback` | src/api/server.py:167-171 | the corrected step-by-step fallback: the rule score over the `to_df` burden, capped at 0.95, High above 0.5, defined at every income |
| `Predictions.PredictChurn` | src/api/server.py:152-171 | 0.45 / Medium without a model; the model's probability, High above 0.5, with one; the fallback as written when the model raises, so the request fails exactly when the model raises at income 0; Medium only without a model |
| `Predictions.FallbackHighIffLowCredit` | src/api/server.py:168-171 | the fallback level is High exactly when credit is below 650, whatever the burden |
| `Predictions.BurdenAloneIsHalf` | src/api/server.py:167-171 | a high burden alone scores exactly 0.5, which is Low |
| `Predictions.CapNeverApplies` | src/api/server.py:167-171 | the score is one of 0.2, 0.5, 0.6, 0.9, so the 0.95 cap never applies |
| `Predictions.ZeroIncomeRaises` | src/api/server.py:169 | income 0 makes the written fallback fail for every credit and rent |
| `Predictions.CorrectedFallbackAgrees` | src/api/server.py:89-171 | wherever the written fallback returns, the corrected one agrees; at income 0 it scores on credit alone |
| `Calibration.ParseBeds` | src/data/synthetic/calibrate_and_generate.py:13-19 | None for a non-string; 0 for any text with "studio" in any case; otherwise the leftmost match of a digit run, optional whitespace and one of "br", "bed", "bd" |
| `Calibration.PricesIn` | src/data/synthetic/calibrate_and_generate.py:28-36 | a bucket holds at most as many prices as there are rows; which prices, in row order, is stated by `PricesInBucket` and `PricesInAppend` |
| `Calibration.PricesInBucket` | src/data/synthetic/calibrate_and_generate.py:28-36 | a price is in bucket c exactly when some row of the window whose title parses into c asks it; a title that parses to nothing is in no bucket |
| `Calibration.PricesInAppend` | src/data/synthetic/calibrate_and_generate.py:30-36 | the prices of a table are those of its first part followed by those of the rest, in row order |
| `Calibration.PricesInSingle` | src/data/synthetic/calibrate_and_generate.py:30-36 | a single row gives its own price exactly when it is kept |
| `Calibration.PricesInWindow` | src/data/synthetic/calibrate_and_generate.py:28 | every collected price lies strictly between 500 and 20000 |
| `Calibration.StatsFor` | src/data/synthetic/calibrate_and_generate.py:40-52 | a bucket is observed exactly when it holds more than 5 prices (count and mean); otherwise its fixed fallback |
| `Calibration.ObservedMeanInWindow` | src/data/synthetic/calibrate_and_generate.py:28-43 | an observed bucket mean lies strictly between 500 and 20000 |
| `Calibration.CalibrateParameters` | src/data/synthetic/calibrate_and_generate.py:25-54 | every one of the five buckets gets exactly its observed or fallback entry |
| `Calibration.ThreeBdExample` | src/data/synthetic/calibrate_and_generate.py:15-18 | "3 BD" reads as 3 |
| `Calibration.StudioFirstExample` | src/data/synthetic/calibrate_and_generate.py:16 | "Studio 2br" reads as 0 |
| `Calibration.NoDigitsExample` | src/data/synthetic/calibrate_and_generate.py:17-19 | "Loft" reads as None |
| `Patterns.SearchFrom` | src/data/scrapers/cl_scraper.py:99-106 | the search finds nothing exactly when there is no match; otherwise it reads the group of the leftmost match |
| `Patterns.SearchReadsWholeRun` | src/data/scrapers/cl_scraper.py:99-101 | the group read is the whole digit run before the tag |
| `Scraper.ExtractDetails` | src/data/scrapers/cl_scraper.py:91-108 | bedrooms are None exactly when no digit run is followed by "br", else the group of the leftmost such match; square feet likewise with "ft" |
| `Scraper.ExtractDetailsExample` | src/data/scrapers/cl_scraper.py:93 | '2br - 950ft2' gives (2, 950) |
| `Scraper.ExtractDetailsNone` | src/data/scrapers/cl_scraper.py:95-108 | text without ASCII digits gives (None, None) |
| `Scraper.CleanPrice` | src/data/scrapers/cl_scraper.py:48 | the cleaned price has no '$' and no ',' and holds exactly the other characters of the stripped text |
| `Scraper.CleanPriceKeepsOrder` | src/data/scrapers/cl_scraper.py:48 | the cleaned price is the stripped text with every '$' and ',' removed and the other characters kept in order |
| `Scraper.ItemPrice` | src/data/scrapers/cl_scraper.py:48-69 | a price exists exactly for a non-empty cleaned text that `float()` accepts, and is that value |
| `Scraper.ListingOf` | src/data/scrapers/cl_scraper.py:44-76 | an item is kept exactly when it has a usable price |
| `Scraper.PageOffsetsCover` | src/data/scrapers/cl_scraper.py:20 | the offsets are the multiples of 120 below count, and enough of them to reach count |
| `Scraper.Scrape` | src/data/scrapers/cl_scraper.py:20-86 | listings only accumulate, and no more pages are requested than there are offsets |
| `Scraper.ScrapeStops` | src/data/scrapers/cl_scraper.py:26-42 | a failed or empty page ends the scrape |
| `Scraper.ScrapeGoesOn` | src/data/scrapers/cl_scraper.py:44-82 | a page with results adds its listings and stops once count is reached |
| `Scraper.CollectPage` | src/data/scrapers/cl_scraper.py:44-76 | the item loop collects the listings of the page in order |
| `Scraper.FetchPage` | src/data/scrapers/cl_scraper.py:21-86 | one iteration of the page loop continues the scrape exactly as the specification function does |
| `Scraper.ScrapeListings` | src/data/scrapers/cl_scraper.py:8-89 | the loop returns the scrape's listings and requests exactly the offsets 0, 120, 240, … up to where it stopped |
| `Scraper.ZeroCountRequestsNothing` | src/data/scrapers/cl_scraper.py:20 | a target count of 0 requests no page |
| `RagRouting.RouteIsFirstHit` | src/api/rag_engine.py:79-172 | the branch taken is the first whose keywords occur in the lower-cased question; the fallback only when none do |
| `RagRouting.RouteCaseInsensitive` | src/api/rag_engine.py:79 | routing ignores letter case |
| `RagRouting.MoreTextNeverLowersPriority` | src/api/rag_engine.py:84-153 | adding text to a question never moves it to a later branch |
| `RagRouting.WholeIsTenantQuestion` | src/api/rag_engine.py:84 | "whole" contains "who" and is a tenant question |
| `RagRouting.TenantKeywordWins` | src/api/rag_engine.py:84 | any tenant keyword routes to the tenant branch whatever else is said |
| `RagRouting.RiskPerUnitIsTenantQuestion` | src/api/rag_engine.py:84-113 | "risk per unit" mentions a property keyword yet is a tenant question |
| `RagRouting.CollectNameMatches` | src/api/rag_engine.py:87-92 | the loop collects, per capitalised word longer than two, the tenants whose name contains it |
| `RagRouting.Dedup` | src/api/rag_engine.py:95 | drop_duplicates keeps every row once and loses none |
| `RagRouting.DedupKeepsFirstOrder` | src/api/rag_engine.py:95 | rows are listed in order of first occurrence: deduplicating a prefix of the matches gives a prefix of the result, so `head(10)` keeps the rows seen first |
| `RagRouting.RiskQuestionShowsHighRisk` | src/api/rag_engine.py:99-104 | with no name match and 'risk' or 'churn' asked, at most ten High tenants are shown; the sample exactly when no tenant is High |
| `RagRouting.MatchingTenantsDistinct` | src/api/rag_engine.py:94-96 | name-matched tenants are shown once each, at most ten |
| `RagRouting.LowerCaseQuestionMatchesNoName` | src/api/rag_engine.py:88-89 | a lower-case question never matches a tenant by name |
| `RagRouting.FirstHit` | src/api/rag_engine.py:116-121 | the loop stops at the first word longer than three that hits; no earlier such word hits |
| `RagRouting.FirstHitAt` | src/api/rag_engine.py:141-146 | the first long hitting word is the one the loop stops at |
| `RagRouting.FindProperty` | src/api/rag_engine.py:114-124 | the property loop selects the first long word naming a property, else all properties |
| `RagRouting.FindListings` | src/api/rag_engine.py:138-148 | the listing loop replaces all listings by the first long word's location matches |
| `RagRouting.ListingsFollowFirstLocation` | src/api/rag_engine.py:140-148 | at most 15 listings are shown, all in the first hit's location; with no hit every listing counts as found |
| `RagRouting.ContextFor` | src/api/rag_engine.py:84-174 | the context assembled is the one of the branch routed to, and only that one |
| `RagRouting.BuildContext` | src/api/rag_engine.py:78-174 | the routing and loops assemble exactly that context |
| `RagRouting.Answer` | src/api/rag_engine.py:193-197 | the reply of the model call, or the error text prefixed "Error processing data query: " |
| `Registry.PathJoinParts` | src/models/registry.py:68-71 | a joined path ends with its second part and starts with the first when the second is relative |
| `Registry.ArtifactPathLayout` | src/models/registry.py:68-71 | for a plain directory and name the artifact is at dir/name/v{version}/model.pkl |
| `Registry.ModelDirShape` | src/models/registry.py:68 | the version directory is joined under the model's directory and ends in a digit |
| `Registry.ArtifactPathsDistinct` | src/models/registry.py:64-71 | two versions of one model never share an artifact path |
| `Registry.AbsoluteNameIgnoresDirectory` | src/models/registry.py:68 | an absolute model name escapes the models directory |
| `Registry.MaxVersion` | src/models/registry.py:45-52 | the latest version bounds every version of the name and is one of them, or 0 without rows |
| `Registry.FindRow` | src/models/registry.py:101-106 | a found row matches name and version; none is found exactly when no row matches |
| `Registry.LatestSelection` | src/models/registry.py:101-102 | without a version a row is selected exactly when the name has rows, and it has the highest version |
| `Registry.LoadOutcome` | src/models/registry.py:90-117 | ValueError exactly when no row matches; otherwise the selected row (the latest without a version, the exact one with one) loads with its path and version when its file exists and gives FileNotFoundError for its path when not |
| `Registry.ListingOrdered` | src/models/registry.py:122 | the listing is a permutation of the table ordered by name, then version descending |
| `Registry.SavePreservesValid` | src/models/registry.py:64-82 | a save keeps ids consecutive and each name's versions increasing |
| `Registry.SaveBumpsLatest` | src/models/registry.py:64 | a save raises its name's latest version by one and leaves every other name's |
| `Registry.FirstSaveIsOne` | src/models/registry.py:49-64 | the first save of a name gets version 1 |
| `Registry.ConsecutiveSaves` | src/models/registry.py:64-88 | two saves of a name get consecutive versions whatever other names were saved between |
| `Registry.MaxVersionIgnoresOthers` | src/models/registry.py:49 | rows of other names do not change a name's latest version |
| `Registry.LoadAfterSave` | src/models/registry.py:90-113 | loading right after a save, as latest or by its version, gives back the saved artifact |
| `Registry.ModelRegistry.constructor` | src/models/registry.py:10-43 | a new registry has an empty table and no files, and is valid |
| `Registry.ModelRegistry.GetLatestVersion` | src/models/registry.py:45-52 | the latest version of the name in the table |
| `Registry.ModelRegistry.SaveModel` | src/models/registry.py:54-88 | returns latest + 1, appends exactly the new row, adds its artifact file and keeps the registry valid (ids consecutive, versions increasing, every row's file present) |
| `Registry.ModelRegistry.LoadModel` | src/models/registry.py:90-117 | the outcome of the load over the current table and files; in a registry built by saves a load succeeds exactly when a row is selected, and an exact version loads the one row that has it |
| `Registry.ValidRowsUnique` | src/models/registry.py:101-106 | in a table built by saves a name and version match at most one row, so the row found is that row |
| `Registry.ModelRegistry.ListModels` | src/models/registry.py:119-124 | the table in listing order |

## Left out

- File reading (`fs.readFileSync`, pandas CSV loading), SQLite, joblib and the filesystem: the file text, the tables and the set of artifact files present are parameters or fields.
- The try/catch blocks that answer 500 when a route handler cannot read its files, and the `P_ERR` placeholder of `get_props` when the merge raises.
- The random sentiment of each tenant record (`Math.random`) and the synthetic data generator `generate_calibrated_data` with Faker and NumPy noise: randomness.
- HTTP requests, BeautifulSoup parsing and the sleeps of the scraper: each page is given as the items it yields, or as a failure; the `__main__` post-processing and CSV writing are I/O.
- The language-model calls: the risk agent's analysis attached to the scenario, the prompt text, the markdown rendering of context tables and `call_perplexity`, whose outcome is a parameter of `RagRouting.Answer`.
- The machine-learning models: a prediction is an uninterpreted function whose None stands for a prediction that raises.
- `Numbers.ParseFloat`: the value read is exact, so a magnitude beyond the largest double (such as "1e400") stays finite where JavaScript gives Infinity, and no decimal is rounded to a double.
- `Numbers.ParseInt`: the result is exact where JavaScript rounds integers above 2^53, and whitespace beyond ASCII is not skipped.
- IEEE floating point: reals are exact, so a truncation at a boundary can differ by one from the float result, and the signed zero of JavaScript is not modelled.
- The calibration's standard deviation: an observed bucket records its count and mean only.
- String formatting: `toFixed(1)` is modelled as the integer number of tenths, `toLocaleString` currency as the number formatted, and f-strings not at all.
- `RagRouting.SelectTenants`: names are matched by plain substring test, while pandas `str.contains` reads the question word as a regular expression. A word such as "Smith?" matches names containing "Smit" in the source but nothing in the model, and a word holding an unbalanced "(" raises `re.error`, which escapes `query` because only the language-model call is inside its `try`. `na=False` for missing names is not modelled either.
- `RagRouting.SelectProperties`: the same substring-for-regex simplification for property names, with the same two consequences.
- `RagRouting.SelectListings`: the same substring-for-regex simplification for listing locations, with the same two consequences.
- `Listings.KeywordFilter`: query keywords are matched as substrings, while the source reads them as regular expressions; a keyword such as "loft?" matches more rows in the source, and one holding an unbalanced "(" makes `get_listings` raise.
- Letter case and digits are ASCII only. Python's `\d`, `int()` and `float()` accept any Unicode decimal digit, so `Scraper.ExtractDetails`, `Calibration.ParseBeds`, `Listings.ParseNumber` and `Scraper.ItemPrice` reject text such as "٢br" that the source reads. Unicode case folding is not modelled.
- `Text.IsSpace`: whitespace is exactly space, tab, line feed, carriage return, vertical tab (0x0B) and form feed (0x0C). Python's `strip()`, `split()`, `\s` and `float()` also treat the separators 0x1C to 0x1F, 0x85 and the Unicode spaces as whitespace, and JavaScript's `trim()` and `parseFloat` treat 0xA0, 0xFEFF and the Unicode spaces so; text padded with those characters is trimmed in the source and not in the model.
- `PyFloat` accepts decimal text only: no exponents, no `inf` or `nan` spellings, and no '_' separators. A price cell such as "1_500" that Python parses counts as a failure in `get_listings`, and the scraper drops it.
- The unit summary of the property branch of `RAGEngine.query` is modelled only as whether it is included; the averages and risk breakdown of the stats branch are reduced to table sizes.
- `Registry.ModelRegistry.constructor`: starts from an empty table; a registry opened over a database that already holds rows is not modelled, and the `db_path` argument plays no part.
- `Registry.FindRow`: when several rows share a name and version (the table has no uniqueness constraint), the first in table order is taken, while SQLite's choice among ties is unspecified. Such ties cannot arise in a registry built by saves (`Registry.ValidRowsUnique`); they need a database written by other means.
- `PropertySummary.SummaryOf`: the unit table has no missing cells. pandas' `count` skips a row whose `unit_id` is missing and `mean` skips a NaN `market_rent`, so in the source such rows lower the unit count or drop out of the average, while every modelled row counts in both.
- `Dashboard.StatsOf`: the annual NOI and the average rent are the numbers before currency formatting.
- `Calibration.ParseBeds`: a non-string cell (NaN) is modelled as None in the input; other Python types are not.

## Findings

| source | as written | input that shows it | evidently intended | confidence | as-written member | corrected member |
|---|---|---|---|---|---|---|
| src/api/server.py:169 | the churn fallback divides the rent by `income/12` without the zero-income guard that `to_df` (line 91) has, so inside the `except` handler it raises ZeroDivisionError and the request fails | any churn request with `income = 0` when the churn model raises | the burden of `to_df`, 0 at income 0, so the fallback scores on credit alone | not executed | `Predictions.FallbackAsWritten` | `Predictions.ChurnFallback` |
