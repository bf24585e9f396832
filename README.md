# Ticketing operator scripts — a verified model

This project models the computing core of three operator scripts that a
ticketing business runs against its payments provider's checkout
sessions:

- **Customer export** (`scripts/export_stripe_customers.py`): folds the
  completed checkout sessions into one record per buyer, keyed by
  normalised email. A record holds the tickets bought for one show and the
  buyer's latest non-empty name and phone. The records become CSV rows
  sorted by lower-cased name.
- **Revenue summary** (`scripts/get_revenue.py`): converts each session's
  total to euro cents and adds it to a grand total. It also adds each line
  item to a per-show bucket, reading product names through a per-run
  cache. The buckets are listed by decreasing revenue. A currency without
  an exchange rate stops the run with an error that names the currency.
- **Natural-language export** (`scripts/export_customers_natural.py`):
  classifies an assistant's reply as a product id, an "UNCLEAR" list of
  candidates, or anything else. Only a product id leads to the customer
  export.

Modules:

| file | module | contents |
|---|---|---|
| `wrappers.dfy` | `Wrappers` | `Option`, `Result` |
| `text.dfy` | `Text` | `str.strip`, `str.lower`/`upper`, `startswith`, `replace(p, "")`, string order |
| `sorting.dfy` | `Sorting` | Python's `sorted(..., key=...)` as a stable insertion sort |
| `dicts.dfy` | `Dicts` | a `dict` with its insertion order; `defaultdict` reads and writes |
| `sessions.dfy` | `Sessions` | the parts of a checkout session the scripts read; missing fields are `None` |
| `customer_export.dfy` | `CustomerExport` | the session loop as a method, proved against a fold (`Aggregate`) and per-buyer reference sums |
| `revenue.dfy` | `Revenue` | currency conversion, the product-name cache as a class, the session and item loops as methods, per-show reference sums, the listing |
| `natural_export.dfy` | `NaturalExport` | reply classification and the resulting decision |

The scripts' loops appear as `for` loops in methods (`ExportCustomers`,
`GetRevenue`, `AddLineItems`; the body of the session loop of
`get_revenue` is the method `CountSession`). Their postconditions tie the result to
recursive functions over the input prefix, and lemmas relate those
functions to independent per-buyer and per-show sums. The product cache
is a class whose `cache` map field is updated in place. Its ghost
`fetched` sequence records every remote lookup, so "at most one lookup per
id" can be stated. The cache holds exactly the ids that have a per-show
bucket; the lookup log lists them in the buckets' insertion order; and
each bucket carries the name its own lookup gave.

External inputs are parameters:
- the sessions, already fetched and filtered by date;
- the show's name;
- the exchange-rate snapshot: a `map<string, real>` keyed by lower-case codes;
- the float conversion `round(amount / rate)`: an uninterpreted
  `Converter` function;
- the product catalogue: a `Catalogue` function of the product id and
  of the lookup's position in the run, returning a name, no name, or a
  lookup failure. Because the answer may differ from one lookup to the
  next, the contracts show which answer the cache keeps;
- the assistant's raw reply.

## Model

| member | source | states |
|---|---|---|
| CustomerExport.ExportCustomers | scripts/export_stripe_customers.py:38-90 | counts every session; the rows returned are `Rows` of the fold `Aggregate` of the sessions, so every property proved about `Aggregate` and `Rows` holds for the output; every row has a non-empty lower-case email and at least one ticket |
| CustomerExport.ItemTickets | scripts/export_stripe_customers.py:46-53 | definition; properties in `CustomerExport.OtherProductsContributeNothing` and `CustomerExport.MatchingPositive` |
| CustomerExport.MatchingQuantity | scripts/export_stripe_customers.py:46-53 | definition; properties in `CustomerExport.MatchingQuantityAppend`, `CustomerExport.MatchingPositive` and `CustomerExport.OtherProductsContributeNothing` |
| CustomerExport.NormalizeEmail | scripts/export_stripe_customers.py:59 | definition; properties in `CustomerExport.EmailKeyIgnoresCaseAndPadding` and `CustomerExport.AggregateWellFormed` |
| CustomerExport.Step | scripts/export_stripe_customers.py:42-70 | definition of one loop iteration; properties in `CustomerExport.SkippedSessionIsIgnored` and `CustomerExport.CountedWhenTicketsAndEmail` |
| CustomerExport.Aggregate | scripts/export_stripe_customers.py:38-70 | the dictionary's insertion order lists every key once; further properties in `CustomerExport.CustomerTotals`, `CustomerExport.AggregateWellFormed` and `CustomerExport.BuyersAreCounted` |
| CustomerExport.CustomerTotals | scripts/export_stripe_customers.py:25-70 | an email is a key exactly when the sessions counted for it hold tickets; its tickets are the sum of those sessions' matching quantities; its name and phone are the cleaned values from the latest counted session that had a non-empty one, and stay absent if none had one |
| CustomerExport.AggregateWellFormed | scripts/export_stripe_customers.py:59-70 | every key is non-empty and already lower-case; every stored buyer has at least one ticket; a stored name or phone is non-empty and already stripped |
| CustomerExport.StoredFieldNeverCleared | scripts/export_stripe_customers.py:63-70 | once a buyer has a name (or phone), no later session removes it |
| CustomerExport.BuyersAreCounted | scripts/export_stripe_customers.py:55-66 | a buyer has tickets exactly when at least one session counts for its key |
| CustomerExport.SkippedSessionIsIgnored | scripts/export_stripe_customers.py:42-61 | a session skipped for missing line items, zero matching tickets or an empty email leaves the result unchanged, wherever it occurs in the sequence |
| CustomerExport.NoLineItemsNotCounted | scripts/export_stripe_customers.py:42-44 | a session whose line items are missing or empty contributes nothing and is not counted |
| CustomerExport.CountedWhenTicketsAndEmail | scripts/export_stripe_customers.py:46-61 | a session counts exactly when some line item for the product has a positive quantity and its email is not blank after stripping |
| CustomerExport.MatchingPositive | scripts/export_stripe_customers.py:46-53 | the matching quantity is positive exactly when some item for the target product has a positive quantity |
| CustomerExport.MatchingQuantityAppend | scripts/export_stripe_customers.py:46-53 | the matching quantity of concatenated item lists is the sum of their matching quantities |
| CustomerExport.OtherProductsContributeNothing | scripts/export_stripe_customers.py:48-53 | items for other products, or with no product, add no tickets |
| CustomerExport.EmailKeyIgnoresCaseAndPadding | scripts/export_stripe_customers.py:59 | emails that differ only in letter case and surrounding whitespace get the same key, so their sessions merge into one buyer |
| CustomerExport.Cleaned | scripts/export_stripe_customers.py:63-64 | a present name or phone is non-empty and stripped |
| CustomerExport.Rows | scripts/export_stripe_customers.py:78-90 | one row per key and no email twice; each row carries its buyer's values with a missing name or phone as "" and the same show name; rows are ordered by lower-cased name |
| CustomerExport.NameOrderIsTotalPreorder | scripts/export_stripe_customers.py:89 | comparing lower-cased names is a total preorder, as sorting needs |
| Sessions.RevenueProductId | scripts/get_revenue.py:110-116 | a product id read from a line item is never empty |
| Sessions.ExportProductId | scripts/export_stripe_customers.py:48-51 | definition; properties in `CustomerExport.OtherProductsContributeNothing` |
| Revenue.ToEurCents | scripts/get_revenue.py:51-59 | the conversion succeeds exactly when the lower-cased currency is "eur" or has a rate |
| Revenue.EurIsUnchanged | scripts/get_revenue.py:53-55 | "eur" in any of its eight letter cases returns the amount unchanged, whatever the rates |
| Revenue.OtherCurrencies | scripts/get_revenue.py:56-59 | any other currency without a rate fails with an error naming the upper-cased currency; with a rate, the converter is applied to that rate |
| Revenue.LowerIsEur | scripts/get_revenue.py:53-54 | the lower-cased code is "eur" exactly for the eight letter cases of "eur" |
| Revenue.DisplayNameFallsBack | scripts/get_revenue.py:75-81 | the raw id is shown exactly when the lookup fails, the name is missing or empty, or the name is the id itself; a non-empty name is shown as it is |
| Revenue.DisplayName | scripts/get_revenue.py:77-81 | definition; properties in `Revenue.DisplayNameFallsBack` |
| Revenue.ProductDirectory.GetName | scripts/get_revenue.py:73-82 | an id already cached returns its cached name, a fallback id included, and makes no remote lookup, whatever the catalogue would answer now; a new id is looked up once, as the next lookup of the run, and its display name is cached; only that id's entry changes |
| Revenue.ProductDirectory.constructor | scripts/get_revenue.py:73 | the cache starts empty, with no lookups made |
| Revenue.GetNameTwice | scripts/get_revenue.py:75-82 | two calls for one id return the same name, the cached one or the answer of its single new lookup, even if a second lookup would answer differently; at most one remote lookup is made |
| Revenue.CachedName | scripts/get_revenue.py:75-82 | definition of the name the cache answers while the buckets are in a given state; related to the cache in `Revenue.AddLineItems` |
| Revenue.AddItem | scripts/get_revenue.py:110-126 | definition; properties in `Revenue.AddItemsAt`, `Revenue.ProductlessItemsCountForNoShow` and `Revenue.TicketsConserved` |
| Revenue.AddItems | scripts/get_revenue.py:110-126 | definition; properties in `Revenue.AddItemsAt` and `Revenue.TicketsConserved` |
| Revenue.AddSession | scripts/get_revenue.py:99-126 | definition; properties in `Revenue.SummariseFails` and `Revenue.GrandTotal` |
| Revenue.Summarise | scripts/get_revenue.py:95-126 | definition; properties in `Revenue.SummariseFails`, `Revenue.GrandTotal`, `Revenue.ShowTotals`, `Revenue.SummaryNamed` and `Revenue.TicketsConserved` |
| Revenue.SummariseFails | scripts/get_revenue.py:99-103 | the run succeeds exactly when every session's currency is "eur" or has a rate; otherwise the error names the upper-cased currency of the first session without one |
| Revenue.ErrorPersists | scripts/get_revenue.py:99-103 | once a session fails, the whole run fails with that session's error |
| Revenue.GrandTotal | scripts/get_revenue.py:95-103 | the session count counts every session, including those without line items; the grand total is the sum of every session's converted `amount_total`, with a missing total read as 0, added before the line-item check |
| Revenue.GrossInEuros | scripts/get_revenue.py:101-103 | if every session is in euros, the grand total is exactly the sum of the sessions' totals |
| Revenue.AddItemsAt | scripts/get_revenue.py:110-126 | after the item loop, a product's bucket exists exactly when it existed before or an item names the product; its tickets and revenue grow by those items' quantities and per-item conversions; an existing bucket keeps its name |
| Revenue.ShowTotals | scripts/get_revenue.py:110-126 | a bucket exists exactly for the product ids some line item names; its tickets are the sum of those items' quantities; its revenue is the sum of the per-item conversions of quantity × unit amount |
| Revenue.UnmentionedShow | scripts/get_revenue.py:110-126 | a product that no line item names has no tickets and no revenue |
| Revenue.ProductlessItemsCountForNoShow | scripts/get_revenue.py:111-117 | an item is skipped exactly when its price has no product, its product id is "", or its expanded product's id is missing or ""; a skipped item names no show and leaves the buckets unchanged |
| Revenue.LookupsAreMentions | scripts/get_revenue.py:110-126 | the buckets of a successful run are exactly the product ids some line item names |
| Revenue.SummaryNamed | scripts/get_revenue.py:75-82 | each bucket carries the display name given by its own product lookup, the one made when its id was first seen; a later change in the catalogue does not change it |
| Revenue.ShowRevenueInEuros | scripts/get_revenue.py:119-125 | if every session is in euros, a show's revenue is exactly the sum of quantity × unit amount over its items |
| Revenue.TicketsConserved | scripts/get_revenue.py:110-126 | the bucket tickets add up to the quantities of all line items that have a product |
| Revenue.Listing | scripts/get_revenue.py:140-141 | every bucket appears once, under its own product id and with its own values, in non-increasing order of revenue |
| Revenue.RevenueOrderIsTotalPreorder | scripts/get_revenue.py:141 | ordering by negated revenue is a total preorder, as sorting needs |
| Revenue.ReportOf | scripts/get_revenue.py:128-141 | definition; the listing's properties in `Revenue.Listing` |
| Revenue.AddLineItems | scripts/get_revenue.py:110-126 | the item loop leaves the buckets equal to `AddItems` of the items; the cache afterwards holds exactly the ids it held before plus those the items name; the lookup log only grows; the cache and the buckets stay in step |
| Revenue.CountSession | scripts/get_revenue.py:99-126 | one pass of the session loop computes `AddSession`: it fails on a currency without a rate, and otherwise counts the session, adds its converted total and adds its items; the cache and the buckets stay in step |
| Revenue.GetRevenue | scripts/get_revenue.py:73-141 | fails with the error of the first unconvertible session; otherwise reports no sales when there are no sessions, and else the grand total, the session count and the by-show listing of the fold `Summarise`; over the whole run no product id is looked up twice, and on success the ids looked up are exactly those some line item names, in the order of the buckets |
| NaturalExport.MatchedExactlyOnProductPrefix | scripts/export_customers_natural.py:90-91 | a reply is a product id exactly when it starts with "prod_", and the whole reply is then the id |
| NaturalExport.PrefixesExclusive | scripts/export_customers_natural.py:90-95 | no reply starts with both "prod_" and "UNCLEAR", so the three readings exclude each other |
| NaturalExport.AmbiguousExactlyOnMarker | scripts/export_customers_natural.py:95-97 | a reply is ambiguous exactly when it starts with "UNCLEAR"; the candidates shown are the reply with every non-overlapping "UNCLEAR" removed, then stripped |
| NaturalExport.NoMatchOtherwise | scripts/export_customers_natural.py:100-105 | every other reply is no match, including "NOMATCH" and the empty reply |
| NaturalExport.UnclearListing | scripts/export_customers_natural.py:95-97 | "UNCLEAR" followed by a list that does not repeat the marker shows exactly that list, stripped |
| NaturalExport.CandidatesAreStripped | scripts/export_customers_natural.py:97 | the candidate text shown has no surrounding whitespace |
| NaturalExport.MatchedNameIsFirst | scripts/export_customers_natural.py:92-93 | the name shown is that of the first product with the matched id, or the id itself when no product has it |
| NaturalExport.OnlyMatchedExports | scripts/export_customers_natural.py:82-105 | the export runs exactly when the catalogue is non-empty and the stripped reply starts with "prod_"; it runs for the stripped reply and shows its matched name; every other outcome exits with status 1 |
| NaturalExport.Classify | scripts/export_customers_natural.py:90-105 | definition; properties in `NaturalExport.MatchedExactlyOnProductPrefix`, `NaturalExport.AmbiguousExactlyOnMarker` and `NaturalExport.NoMatchOtherwise` |
| NaturalExport.MatchedName | scripts/export_customers_natural.py:92-93 | definition; properties in `NaturalExport.MatchedNameIsFirst` |
| NaturalExport.Decide | scripts/export_customers_natural.py:82-105 | definition; properties in `NaturalExport.OnlyMatchedExports` and `NaturalExport.PaddingIsIgnored` |
| NaturalExport.PaddingIsIgnored | scripts/export_customers_natural.py:57 | whitespace around the assistant's reply does not change the decision |
| NaturalExport.ReplyTextIdempotent | scripts/export_customers_natural.py:57 | the stripped reply has no surrounding whitespace and stripping it again changes nothing |
| Text.StripLowerCommute | scripts/export_stripe_customers.py:59 | stripping and lower-casing commute, so the key does not depend on their order |
| Text.StripIdempotent | scripts/export_stripe_customers.py:63-64 | stripping a stripped text changes nothing |
| Text.LowerOfUpper | scripts/get_revenue.py:52-58 | lower-casing the upper-cased currency gives back the lower-cased currency, so the error names the code that was looked up |
| Sorting.SortBy | scripts/export_stripe_customers.py:78-90 | the sorted sequence is a permutation of its input and is ordered by the given key |
| Dicts.Put | scripts/export_stripe_customers.py:66 | assignment replaces only the given key's value; a new key goes to the end of the insertion order; the dictionary stays well formed |

## Left out

- Payments-provider calls: session listing with pagination, product retrieval for the show name, and the active-product listing. Their results are parameters: a session sequence, a show name, a product sequence, a `Catalogue` function. A failure while listing is fatal in the scripts and is not modelled.
- The assistant call in `identify_product`, with its prompt and model choice. The raw reply is a parameter.
- `fetch_eur_rates` (HTTP, JSON, key lower-casing, the non-success check). The snapshot is a parameter keyed by lower-case codes. A rate that is JSON `null` behaves like a missing rate in the script; the model has no such value.
- Revenue.ToEurCents: the float `round(amount_cents / rate)` is an uninterpreted `Converter`. Division by a zero rate therefore does not raise an error in the model; rounding mode and the round-trip tolerance are not stated.
- `format_amount`, `CURRENCY_SYMBOLS`, the column width of the by-show listing and all other console output. The listing keeps the printed name, revenue and tickets, plus each bucket's product id.
- Date-range parsing into timestamps. Sessions arrive already restricted to the period.
- CSV writing, the `data` directory, the dated output file name, and UTF-8 encoding.
- Argument parsing, environment and credential checks, `sys.exit` outside the decision modelled in `NaturalExport.Decide`.
- `scripts/create_stripe_show.py` and `scripts/list_stripe_products.py` are not part of this model.
- Text.Lower: case mapping is ASCII-only. Python's `str.lower`/`str.upper` map all of Unicode. The whitespace set of `str.strip` is modelled in full.
- Sorting.SortBy: stability (equal keys keep the dictionary's insertion order) is built into the definition but is not stated as a proved property.
- Revenue.ProductDirectory.GetName: only the provider's own lookup error falls back to the raw id, as in the script; other exceptions are not modelled.
- Quantities and amounts are natural numbers. The provider never sends negative ones, and a missing value reads as 0 exactly as `or 0` does.

Behaviour of the scripts worth noting:
- An unknown currency escapes as an uncaught `RuntimeError` reading "No exchange rate found for XYZ"; the model returns `Err(NoExchangeRate(...))`.
- The revenue summary converts every amount to euro cents.
- A product whose name is empty also shows its raw id.
