# ArbGUI dashboard and API checker: a Dafny model

ArbGUI is a Streamlit dashboard for cross-exchange arbitrage. It reads
order books, arbitrage opportunities and a portfolio from an HTTP API and
renders them. The repository also ships a command-line checker that
validates the API's responses against two contract profiles, `arbgui`
and `openapi`.

This project models the logic between the HTTP calls and the rendering:

- `json.dfy`: JSON values (`Json`), Python truthiness, `dict.get`, and
  Python exceptions as `Result` errors. `Collect` gives the
  first-exception-escapes behaviour of a loop that appends one result
  per element.
- `fetch.dfy`: `normalize_base_url` and the status/shape gates of
  `fetch_orderbook`, `fetch_opportunities` and `fetch_portfolio`. The
  network call is replaced by its `(status, body)` outcome.
- `opportunities.dfy`: `build_opportunity_rows`. It derives the spread in
  bps, the executable size `min_amount`, the estimated notional and the
  expected profit. The size, the notional and the profit are present
  only when all their inputs are truthy; the bps figure is present for
  any number, zero included. The loop is a method proved against the function
  `OpportunityRows`.
- `portfolio.dfy`: `build_portfolio_positions`. The nested loops flatten
  exchange -> currency -> balance into rows. It is proved against the
  function `PortfolioPositions`.
- `highlight.dfy`: the buy/sell role of an exchange for the selected
  opportunity, and the index of the order-book level nearest to the
  highlighted price. The nearest index is the first minimum, so ties go
  to the lowest index.
- `cache.dfy`: the refresh-tick cache as a class with two `map` fields,
  `values` and `generations`. A key is recomputed exactly when its
  generation differs from the current tick.
- `dashboard.dfy`: the refresh tick, the per-symbol opportunity cache
  (top five rows of the symbol), and the per-`exchange:symbol` order-book
  cache.
- `check_api.dfy`: `ensure_keys`, `ensure_list`, the object, list and
  health checks, the failure counting of `test_arbgui` and
  `test_openapi`, and the exit code of `main`.

Numbers are `real`. Python's `round` is modelled as exact round-half-even
on the real value.

## Model

| member | source | states |
|---|---|---|
| Wrappers.Collect | streamlit_app.py:216-250 | the loop's outcome: Ok exactly when every element is Ok, with the values in order; otherwise the error of an element with only Ok elements before it |
| Wrappers.CollectFirstError | streamlit_app.py:216-250 | the error reported is that of the first element that raises |
| Json.GetOrFound | streamlit_app.py:217-218 | `dict.get(k, d)` answers `d` when `k` is absent, and otherwise a value bound to `k` in the object |
| Json.GetOrPresent | streamlit_app.py:217-218 | for a key that is present, the default given to `get` is irrelevant |
| Json.Truthy | streamlit_app.py:220 | None is falsy, and a number or bool is truthy exactly when its value is non-zero |
| Fetch.NormalizeBaseUrl | streamlit_app.py:161-162 | the result is a prefix of the URL, has no trailing `/`, and only `/` characters were removed |
| Fetch.NormalizeIdempotent | streamlit_app.py:161-162 | normalising twice equals normalising once |
| Fetch.NormalizeFixedPoint | streamlit_app.py:161-162 | a URL is unchanged exactly when it has no trailing `/` |
| Fetch.ObjectBody | streamlit_app.py:170-172 | a body is kept exactly when the status is 200 and the body is a dict, and it is kept unchanged |
| Fetch.FetchOrderbook | streamlit_app.py:170-172 | the book is returned exactly when the status is 200 and the body is a dict; otherwise None |
| Fetch.FetchPortfolio | streamlit_app.py:195-197 | the portfolio is returned exactly when the status is 200 and the body is a dict; otherwise None |
| Fetch.FetchOpportunities | streamlit_app.py:186-188 | the list is returned when the status is 200 and the body is a list; otherwise `[]` |
| Fetch.NonOkDegrades | streamlit_app.py:170-172 | any non-200 status gives None for the book and the portfolio, and `[]` for the opportunities, whatever the body |
| Fetch.RefusedConnectionIsEmpty | streamlit_app.py:186-188 | a refused connection, status 0 with no body, renders as an empty list and no book |
| Opportunities.RoundHalfEven | streamlit_app.py:227 | `round(x)` is within 0.5 of `x`, and a tie goes to the even integer |
| Opportunities.Round2 | streamlit_app.py:224 | `round(x, 2)` is within 0.005 of `x` |
| Opportunities.MinReal | streamlit_app.py:227 | the minimum is at most both arguments and equals one of them |
| Opportunities.MinAvailable | streamlit_app.py:218-220 | `min_amount` is absent unless both amounts are truthy; when present it is non-zero, at most both amounts and equal to one of them; two truthy amounts that are not both numbers raise TypeError |
| Opportunities.SpreadBps | streamlit_app.py:223-224 | the bps column is present exactly when `spread_pct` is a number (zero included), and is then within 0.005 of `spread_pct * 100` |
| Opportunities.SizeBeforeRounding | streamlit_app.py:227 | the unrounded notional is `min_amount` times one of the two prices: at most the notional at either price for a positive amount, and at least it for a negative amount, which is `min_amount * min(buy_price, sell_price)` |
| Opportunities.EstimatedSize | streamlit_app.py:226-230 | the 想定サイズ figure is present exactly when `min_amount` and both prices are truthy numbers, and is then within 0.5 of the unrounded notional; a truthy non-numeric price raises TypeError; a falsy `min_amount` or price means "—" and never raises |
| Opportunities.ExpectedProfit | streamlit_app.py:231 | the 推定利益 figure is present exactly when `min_amount` and `spread_jpy` are truthy numbers, and is then within 0.005 of `spread_jpy * min_amount`; a truthy non-numeric `spread_jpy` raises TypeError; a falsy `min_amount` or `spread_jpy` means "—" and never raises |
| Opportunities.DeriveRowContents | streamlit_app.py:217-249 | a non-dict record raises AttributeError; a dict whose amount, price and spread fields are each falsy or a number never raises; a derived row passes every raw column through unchanged, and its size and profit are present exactly when their inputs are all truthy and equal `EstimatedSize` and `ExpectedProfit` at the record's `min_amount` |
| Opportunities.DerivedFigures | streamlit_app.py:218-231 | a row's notional is within 0.5 of `min(amounts) * min(prices)` and its profit within 0.005 of `spread_jpy * min(amounts)`, all taken from the record's own fields |
| Opportunities.OpportunityRows | streamlit_app.py:215-250 | without an exception there is exactly one row per record, in input order, each derived from its own record; an exception happens exactly when some record raises |
| Opportunities.AppendEach | streamlit_app.py:216-250 | the append loop yields the `Collect` of the per-element results |
| Opportunities.BuildOpportunityRows | streamlit_app.py:215-250 | the method's result equals `OpportunityRows` |
| Opportunities.MissingAmountLeavesFiguresOut | streamlit_app.py:218-243 | a zero or missing amount on either side leaves both the size and the profit as "—" |
| Opportunities.SpreadBpsOnlyFromSpreadPct | streamlit_app.py:223-224 | records that agree on `spread_pct` get the same bps figure, whatever their other fields |
| Opportunities.EstimatedSizeWithinLegs | streamlit_app.py:226-230 | with positive amounts and non-zero prices the size is present and at most the notional at either leg's price, plus rounding |
| Opportunities.DerivationExamples | streamlit_app.py:218-231 | min(3, 0) is absent rather than 0; min(3, 5) is 3; a missing side is absent; 0.0055 is 0.55 bps; 2 at prices 100 and 90 is 180 |
| Opportunities.ScenarioXrp | streamlit_app.py:218-231 | amounts 1000 and 1500, prices 85.0 and 85.5, spread 0.5 JPY and 0.0059 give min 1000, 0.59 bps, notional 85000 and profit 500 |
| Portfolio.BuildPortfolioPositions | streamlit_app.py:253-271 | the nested loops yield exactly `PortfolioPositions`: a missing `balances` is `{}`, and a non-dict `balances` raises AttributeError |
| Portfolio.CurrencyPositionsMembers | streamlit_app.py:260-270 | an exchange's rows are exactly the rows of its currency entries that are dicts |
| Portfolio.AllPositionsMembers | streamlit_app.py:253-271 | a row is produced exactly for each (exchange, currency) pair whose two entries are both dicts |
| Portfolio.CurrencyPositionsCount | streamlit_app.py:260-270 | an exchange contributes one row per dict entry, so never more rows than entries |
| Portfolio.MissingBalancesIsEmpty | streamlit_app.py:255 | a portfolio without `balances` has no rows |
| Portfolio.QuantityDefaultsToZero | streamlit_app.py:266 | a balance without `total` shows quantity 0.0 |
| Portfolio.NonObjectExchangeSkipped | streamlit_app.py:257-259 | appending a non-dict exchange entry leaves the rows unchanged |
| Highlight.HighlightFor | streamlit_app.py:560-564 | buy with the buy price exactly when the exchange is the buy exchange; otherwise sell with the sell price exactly when it is the sell exchange; otherwise none |
| Highlight.OneColumnPerLeg | streamlit_app.py:560-564 | two different exchanges never both get the same role |
| Highlight.FirstMinimum | streamlit_app.py:385 | `min(range(n), key=...)` is an index whose key is minimal, and no earlier index has an equally small key |
| Highlight.FirstMinimumUnique | streamlit_app.py:385 | the first minimum is unique |
| Highlight.NearestLevel | streamlit_app.py:385 | when no level raises, the index lies in range, its `abs(price - target)` is at most every level's, and every earlier level is strictly farther (ties go to the lowest index); a missing price counts as 0 |
| Highlight.LevelDistance | streamlit_app.py:385 | a non-dict level raises AttributeError; otherwise the distance exists exactly when the price (0 when missing) and the target are numbers, is never negative, equals `abs(price - target)`, and for a missing price is the target's magnitude |
| Highlight.Reverse | streamlit_app.py:377 | the displayed asks are the book's asks in reverse order |
| Highlight.HitIndices | streamlit_app.py:377-387 | no highlight, a None price or an empty searched side gives no hit and no error; at most one side is highlighted; buy searches the reversed asks and sell searches the bids, with the nearest-level index or its error |
| Highlight.NearestLevelExamples | streamlit_app.py:383-387 | target 106 among 100, 105 and 110 hits level 1; target 105 between 100 and 110 ties and goes to level 0 |
| RefreshCache.Cache.constructor | streamlit_app.py:468-471 | a session starts with both maps empty |
| RefreshCache.Cache.Store | streamlit_app.py:521-522 | the value and the generation of one key are set together, and that key becomes current |
| RefreshCache.Cache.IsStale | streamlit_app.py:518 | a key never stored is stale, and a current key has a stored value whose generation is the tick |
| RefreshCache.Cache.GetOrCompute | streamlit_app.py:518-523 | recompute exactly when the key is stale; afterwards the key is current and no other key changed |
| RefreshCache.ComputeOncePerTick | streamlit_app.py:518-523 | a second read within one tick computes nothing and answers the first value |
| RefreshCache.NewTickRecomputes | streamlit_app.py:546-549 | a new tick recomputes the key and leaves every other key's value and staleness alone |
| Dashboard.RefreshTick | streamlit_app.py:483 | the tick is the counter with auto-refresh on, and 0 with it off |
| Dashboard.Matching | streamlit_app.py:520 | the filtered records are exactly the input records with that symbol, never more than the input |
| Dashboard.MatchingAppend | streamlit_app.py:520 | the filter of a concatenation is the concatenation of the filters, so input order and repetitions are kept |
| Dashboard.MatchingSingle | streamlit_app.py:520 | a single record is kept exactly when its `symbol` is `sym` |
| Dashboard.FilterBySymbol | streamlit_app.py:520 | the filter raises AttributeError exactly when some record is not a dict |
| Dashboard.TopOpportunities | streamlit_app.py:519-521 | succeeds exactly when every record is a dict and every matching record derives a row; then row `i` is the row derived from the `i`-th matching record, for the first min(5, matching) of them, all of symbol `sym` |
| Dashboard.RowOfMatchingRecordHasSymbol | streamlit_app.py:520-521 | a row built from a record of symbol `sym` shows `sym` |
| Dashboard.OpportunityCacheStep | streamlit_app.py:515-523 | refetch exactly when the symbol's entry is stale; every cached entry keeps at most five rows of its own symbol |
| Dashboard.OrderbookKeyInjective | streamlit_app.py:545 | for exchange names without a colon, distinct (exchange, symbol) pairs get distinct keys |
| Dashboard.OrderbookCacheStep | streamlit_app.py:543-549 | refetch exactly when the book's entry is stale; a failed fetch caches None like any other value |
| Dashboard.SecondVisitUsesCache | streamlit_app.py:546-550 | a second visit within the tick fetches nothing; after a failed fetch the book stays None and is not shown |
| Dashboard.Shown | streamlit_app.py:550 | `if ob:` holds exactly when the book was fetched and the dict is truthy |
| Dashboard.AutoRefreshOffFetchesOnce | streamlit_app.py:483 | with auto-refresh off, a book fetched by one render is answered from the cache by the next, whatever the counters |
| CheckApi.EnsureKeys | scripts/check_api.py:25-27 | a key is reported exactly when it is required and absent; the result is empty exactly when all required keys are present |
| CheckApi.EnsureKeysAppend | scripts/check_api.py:25-27 | the comprehension runs key by key: the result for `a + b` is the result for `a` followed by the result for `b`, so a repeated required key is reported as often as it is required |
| CheckApi.EnsureKeysSubsequence | scripts/check_api.py:25-27 | the missing keys keep the order of the required keys |
| CheckApi.EnsureKeysOfEmpty | scripts/check_api.py:25-27 | against an empty object every required key is missing |
| CheckApi.EnsureKeysAntitone | scripts/check_api.py:25-27 | adding a key to the object never adds a missing key |
| CheckApi.EnsureKeysSingleMissing | scripts/check_api.py:25-27 | when only one required key is absent, exactly that key is reported |
| CheckApi.EnsureKeysExamples | scripts/check_api.py:25-27 | `ensure_keys({}, [a, b])` is `[a, b]`, and `ensure_keys({"a": 1}, [a, b])` is `[b]` |
| CheckApi.EnsureList | scripts/check_api.py:30-31 | a body that passes is not a dict, and its truthiness (`if data:`) is its non-emptiness |
| CheckApi.ObjectCheck | scripts/check_api.py:92-100 | a bad status or a non-dict body is one failure with no key check; the check passes exactly when the status is 200, the body is a dict and every required key is present |
| CheckApi.ListCheck | scripts/check_api.py:68-89 | a bad status or a non-list body is one failure; an empty list passes; a non-dict first element misses every key; otherwise it passes exactly when the first element has every required key |
| CheckApi.ListCheckInspectsFirstOnly | scripts/check_api.py:73-85 | only `data[0]` is inspected: lists with the same first element get the same verdict |
| CheckApi.HealthCheck | scripts/check_api.py:112-114 | the health check passes exactly when the status is 200, the body is a dict and it has `status` |
| CheckApi.FailureCountBounds | scripts/check_api.py:42-102 | every check adds 0 or 1, so the count is at most the number of checks, and it is 0 exactly when all checks passed |
| CheckApi.FailureCountSnoc | scripts/check_api.py:65 | one more check adds 1 when it failed and 0 otherwise |
| CheckApi.Tally | scripts/check_api.py:87 | the counter after one more check is the failure count including that check |
| CheckApi.Verdicts | scripts/check_api.py:105-288 | the arbgui profile makes 3 checks and the openapi profile makes 11 |
| CheckApi.TestArbgui | scripts/check_api.py:42-102 | the result is the failure count of the three legacy checks, at most 3 |
| CheckApi.TestOpenapi | scripts/check_api.py:105-288 | the result is the failure count of the eleven checks in source order, at most 11 |
| CheckApi.RunChecks | scripts/check_api.py:299-308 | the base URL loses its trailing `/`; the exit code is 1 exactly when some check failed and 0 exactly when all passed |
| CheckApi.MissingMidPriceReported | scripts/check_api.py:52-65 | an order book lacking only `mid_price` fails its key check with exactly `["mid_price"]` |
| CheckApi.NonObjectFirstMissesAll | scripts/check_api.py:85 | a list whose first element is not a dict reports every required key missing and fails |

## Left out

- Network I/O is not modelled: `request_json` (streamlit_app.py) and
  `fetch_json` (scripts/check_api.py). Every response is an input
  `Outcome(status, body)`. In the checker a transport error raises
  instead of returning a status, and so does a 200 response whose body is
  not JSON (`json.loads` in `fetch_json`); either aborts every later
  check. Only completed HTTP exchanges with a parsed body are modelled
  there.
- URL construction with `urllib.parse.quote` and `urlencode` is a library
  call. `RunChecks` returns the normalised base URL instead of the
  endpoint URLs.
- `format_time_label` is date parsing and time-zone conversion done by
  library code. Rows keep the raw `timestamp` value.
- The mock data generators are driven by randomness and the clock.
- Streamlit rendering, widgets, CSS, charts and `st_autorefresh` are not
  modelled. The refresh counter is an integer input to `RefreshTick`.
- The portfolio matrix and share computation in `main` is float division
  and string formatting for display.
- argparse and `print_result` output formatting in the checker are not
  modelled. The mode is the variant of `Responses`.
- Float arithmetic is not modelled: numbers are exact reals, and
  `round` is exact round-half-even.
- Opportunities.MinAvailable: `min` of two truthy non-numbers of the same
  type (two strings, two lists) is modelled as TypeError. Python computes
  such a minimum and may fail only later, or not at all when the prices
  and `spread_jpy` are falsy.
- The order-book fields `asks` and `bids` are not extracted.
  `render_orderbook_table` raises KeyError when they are missing; the
  model takes the level lists directly (`HitIndices`).
- JSON objects are ordered lists of (key, value) pairs and lookup takes
  the first binding. Duplicate keys, which a parsed Python dict cannot
  have, are not excluded.
- RefreshCache.Cache.GetOrCompute: the fetch it stands for is the
  parameter `compute`. The dashboard's own steps (`OpportunityCacheStep`,
  `OrderbookCacheStep`) inline the fetch from an `Outcome` instead.
- The `highlight_{sym}` selection state and the select box are not
  modelled; `HighlightFor` takes the selected row, or None when there is
  none.
