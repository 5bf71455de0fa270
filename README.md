# ASE4156 portfolio core in Dafny

ASE4156 is a stock-trading web application: a Django back end with a
React/Relay front end. Users hold *investment buckets*, which are baskets of
stock positions plus cash. They trade buckets and stocks from trading
accounts, and they link a bank account through Plaid. This project models
the parts of the system that value, settle and edit those holdings, and
proves properties of them.

- **Stocks** (`stocks.dfy`, module `Stocks`) cover stocks and their daily
  quotes:
  - the point-in-time price lookup (`latest_quote`);
  - the range query (`quote_in_range`);
  - the name search (`find_stock`);
  - stock creation;
  - the field checks that every save runs (`pre_save_any` calls
    `full_clean`).
- **Buckets** (`buckets.dfy`, module `Buckets`) cover positions with
  validity windows and their valuation (`value_on`, `current_value`). The
  `InvestmentBucket` class holds the in-memory `available` cash, the stored
  `available` column, its configuration rows and its descriptions. Its
  methods are:
  - `SellAll` (`_sell_all`);
  - `ChangeConfig` (`change_config`, all-or-nothing);
  - `AddAttribute`;
  - `ChangeDescription`.
- **Trading** (`trading.dfy`, module `Trading`) covers the trade ledger:
  - trade values;
  - `available_cash`;
  - `trade_bucket`;
  - the account table and its `(profile, account_name)` uniqueness.
- **Plaid** (`plaid.dfy`, module `Plaid`) holds the arithmetic over Plaid
  responses that the uncached `PlaidAPI` of `plaid_middleware.py` performs
  and the cached wrapper repeats:
  - the signed balance;
  - the first account's name;
  - the running-balance history;
  - income and expenditure.
- **PlaidWrapper** (`plaid_wrapper.dfy`) is the `PlaidAPI` of
  `plaid_wrapper.py`, with its balance cache.
- **Authentication** (`authentication.dfy`) covers `Profile.default_acc` and
  the cache-or-refresh rules of `UserBank`.
- **Composition** (`invest_composition.dfy`) is the composition editor
  dialog `InvestComposition.jsx`. It places the slider handles at the running
  worth of the chunks and computes the remaining cash. It also adds a stock,
  drags a handle and deletes a chunk.
- **CompositionRelay** (`invest_composition_relay.dfy`) is its container
  `InvestCompositionRelay.jsx`. It builds the initial chunks, the total and
  the suggestions, and it maps chunks to the save request.

The models work as follows:
- Money and quantities are `real`.
- Dates are day numbers, and the current day `now` is a parameter.
- Exceptions are the `Err`/`Fail` cases of `Result`/`Outcome`, with one
  `Error` constructor per distinct cause.
- The database is in-memory sequences. A transaction's rollback is modelled
  as "the stored state is unchanged".
- Bank responses are input sequences.
- The ticker check of the price source is a predicate parameter.

## Model

| member | source | states |
|---|---|---|
| Stocks.LatestQuote | stocks/models.py:37-50 | a date after `now` is refused with "Date is later than now!"; any other failure is "No quote found" |
| Stocks.LatestQuoteSpec | stocks/models.py:41-50 | for a date not after `now` (or none), the lookup fails iff no quote is dated on or before it; a result is one of the stock's quotes, eligible, with the greatest date among the eligible ones |
| Stocks.NewestEligibleSpec | stocks/models.py:46-49 | the newest eligible quote exists iff some quote is eligible, and it is dated no earlier than any eligible quote |
| Stocks.LatestQuoteIsDetermined | stocks/models.py:109-113 | with the one-quote-per-day constraint, the eligible quote of maximal date is the lookup's answer |
| Stocks.QuoteInRange | stocks/models.py:73-83 | the result holds exactly the quotes within the optional inclusive bounds, each as often as the filtered query has it, ordered newest first; it is empty when start > end |
| Stocks.SortNewestFirst | stocks/models.py:82 | the `order_by('-date')` result is ordered newest first and is a permutation of its input |
| Stocks.BothOrdersMeansOneDate | stocks/models.py:82 | a list that is ordered both newest first and oldest first has a single date, so on quotes of distinct days the query cannot give the ascending order its test expects |
| Stocks.FindStock | stocks/models.py:52-60 | without a limit (or with 0) the result is exactly the stocks whose name contains the text, ignoring the case of ASCII letters; a positive limit gives a prefix of those matches, in table order, of length min(limit, matches); a negative limit is refused |
| Stocks.FindEmptyTextFindsAll | stocks/models.py:57 | an empty search text finds every stock, in table order |
| Stocks.CreateNewStock | stocks/models.py:62-71 | a failing ticker check raises "Invalid Ticker"; otherwise the stock is created, without quotes, iff its name, ticker and ticker uniqueness pass the field checks, and the first failing check is the error |
| Stocks.NameCheck | stocks/models.py:278-288 | a text field passes iff it holds 1..limit characters; an empty one fails the blank check before its validators run |
| Stocks.StockCheck | stocks/models.py:21-35 | a stock passes iff its name has 1..255 characters, its ticker 1..10, and no other stock has the ticker |
| Stocks.QuoteCheck | stocks/models.py:100-105 | a quote passes iff its value is >= 0, failing with "Daily stock quote can not be negative" |
| Stocks.QuoteSaveCheck | stocks/models.py:109-113 | a quote can be saved iff its value is >= 0 and no quote of the stock has its date |
| Buckets.GetStockConfigs | stocks/models.py:171-177 | the rows the query selects, in row order, never more than the bucket has |
| Buckets.GetStockConfigsSpec | stocks/models.py:171-177 | without a date the query returns the open rows; with a date, the rows whose end is set and on or after it and whose start is on or before it; it returns every such row, nothing else, and no row more often than the bucket holds it |
| Buckets.StockConfigsOnTestRows | tests/test_stocks_model.py:209-238 | on the bucket test's three rows the open-row query finds 2; the dated queries find 1 and 1 as written, against 2 and 3 under the reading the test takes |
| Buckets.ConfigValue | stocks/models.py:271-275 | a row's `value_on` is defined iff the latest-quote lookup for its stock is, and a lookup error is passed on unchanged |
| Buckets.ConfigValueNonNegative | stocks/models.py:271-275 | a row's value is its latest quote times its quantity, never negative for a valid stock and a non-negative quantity |
| Buckets.SumValues | stocks/models.py:183-187 | the sum of the rows' values is defined iff every row's lookup succeeds |
| Buckets.SumValuesNonNegative | stocks/models.py:183-187 | rows of valid stocks with non-negative quantities sum to at least 0 |
| Buckets.SumValuesErrorSticks | stocks/models.py:183-187 | once a prefix of the rows fails, the whole sum fails with the same error |
| Buckets.BucketValueOn | stocks/models.py:220-228 | the bucket's `value_on` is 0 with no selected rows, and defined iff every selected row's lookup succeeds |
| Buckets.FutureValueOnFails | stocks/models.py:220-228 | `value_on` a day after `now` fails with the future-date error whenever a row is selected |
| Buckets.CurrentValue | stocks/models.py:179-187 | `current_value` is defined iff the open rows' value is |
| Buckets.CurrentValueExceedsValueOnByCash | stocks/models.py:179-228 | `current_value` equals `value_on` without a date plus the cash: `value_on` leaves `available` out |
| Buckets.CloseOpen | stocks/models.py:199 | the bulk update sets `end = now` on every open row and leaves every other field and every closed row alone |
| Buckets.NoOpenRowAfterClosing | stocks/models.py:194-199 | after the bulk update no row is open |
| Buckets.SellingAllKeepsCurrentValue | stocks/models.py:189-199 | liquidation at one instant leaves the bucket's current value unchanged |
| Buckets.InvestmentBucket.SellAll | stocks/models.py:189-199 | on success the in-memory cash grows by the open rows' value and exactly the open rows close at `now`; a failing lookup changes nothing; the stored cash is never written |
| Buckets.FindById | stocks/models.py:208 | the stock with the requested key, or none iff no stock has it |
| Buckets.ConfigCheck | stocks/models.py:260-265 | a quantity passes iff it is >= 0, failing with "The quantity can not be negative." |
| Buckets.PlanConfig | stocks/models.py:207-215 | the loop of `change_config` over the entries in order; when it completes, there is one new row per entry |
| Buckets.PlanStepPlanned | stocks/models.py:207-215 | a loop step that completes opens one row for the requested stock and quantity starting now, and debits that row's current value |
| Buckets.PlannedRows | stocks/models.py:207-215 | a completed loop opens exactly one row per requested entry, in order, for the requested stock and a non-negative quantity, starting now and open; the total debit is the new rows' value |
| Buckets.PlanAbortSticks | stocks/models.py:207-215 | once an entry raises, the later entries change nothing |
| Buckets.OpenRowsAfterRecomposition | stocks/models.py:205-215 | after selling and re-buying, the open rows are exactly the new rows |
| Buckets.RecompositionKeepsCurrentValue | stocks/models.py:201-218 | a completed re-composition leaves the current value unchanged: the sale credits what the old rows are worth, and the purchase debits what the new rows are worth |
| Buckets.InvestmentBucket.ChangeConfig | stocks/models.py:201-218 | when it succeeds, the cash is the old cash plus the open rows' value minus the purchases, it is >= 0, it is saved, and the rows are the closed old rows followed by one open row per entry. When it fails (lookup error, invalid quantity, "Not enough money available"), the rows and the stored cash are as before, while the in-memory cash keeps what was credited and debited before the raise |
| Buckets.InvestmentBucket.Repurchase | stocks/models.py:207-215 | the purchase loop debits and appends exactly what the plan of the requested entries says, stopping at the first entry that raises |
| Buckets.BucketCheck | stocks/models.py:126-140 | a bucket passes iff its name has 1..255 characters and its cash is >= 0 |
| Buckets.DescriptionCheck | stocks/models.py:235-246 | a description passes iff it has 3..255 characters and no other description of the bucket has the text; a 1- or 2-character text fails with "The description should at least be 3 characters long." |
| Buckets.InvestmentBucket.AddAttribute | stocks/models.py:161-169 | a description is appended iff its text passes the checks; otherwise nothing changes |
| Buckets.InvestmentBucket.ChangeDescription | stocks/models.py:248-253 | the row's text is replaced iff the new text passes the checks (the row does not clash with itself); otherwise nothing changes |
| Buckets.CreateNewBucket | stocks/models.py:152-159 | a bucket is created, empty and with the given cash (1000 by default) both in memory and stored, iff its fields pass and the owner has no bucket of that name; a failing field check is the error, otherwise a taken name fails with the `(name, owner)` uniqueness error |
| Buckets.AccessibleBuckets | stocks/models.py:145-150 | exactly the buckets the profile owns or that are public, none more often than the table holds it |
| Buckets.AccessibleBucketsFollowTable | stocks/models.py:145-150 | the result keeps table order: the buckets of a table split in two are those of the first part followed by those of the second |
| Trading.StockTradeValue | trading/models.py:63-68 | a stock trade's value is defined iff the quote lookup on its timestamp succeeds |
| Trading.TradeValueSign | trading/models.py:63-68 | the value is the quote times the negated quantity: a buy never adds cash and a sell never removes it |
| Trading.BucketTradeValue | trading/models.py:96-101 | a bucket trade's value is defined iff the bucket's `value_on` its timestamp is |
| Trading.AvailableCash | trading/models.py:25-39 | is 0 for an account without trades, and defined iff both sums are |
| Trading.CashAfterStockTrade | trading/models.py:25-39 | one more stock trade moves the cash by exactly that trade's value |
| Trading.CashAfterBucketTrade | trading/models.py:25-39 | one more bucket trade moves the cash by exactly that trade's value |
| Trading.TradingAccount.TradeBucket | trading/models.py:41-48 | exactly one bucket-trade row is appended, stamped now; that bucket's holding moves by the quantity and every other bucket's holding is unchanged |
| Trading.HeldBucketAfterTrade | tests/test_trading_model.py:112-128 | holdings as the tests read them: a trade changes only its own bucket's signed-sum holding, by its quantity |
| Trading.HeldStockAfterTrade | tests/test_trading_model.py:44-54 | the same for stock holdings |
| Trading.HeldBucketIgnoresOthers | tests/test_trading_model.py:166-178 | a bucket's holding depends only on that bucket's trades |
| Trading.UncheckedSellGoesNegative | trading/models.py:41-48 | the test's first sell of 2 from an empty holding fails the holding check the tests expect, yet `trade_bucket` records it and the holding becomes -2 |
| Trading.AccountCheck | trading/models.py:13-17 | an account passes iff its name has 1..30 characters and the profile has no account of that name |
| Trading.AccountTable.Create | trading/models.py:13-17 | a new account is appended iff it passes the checks; the table keeps `(profile, account_name)` unique |
| Plaid.SignedBalance | authentication/plaid_middleware.py:27-39 | the balance is the sum over the ordinary accounts minus the sum over the credit cards, taking `available`, or `current` when `available` is missing |
| Plaid.AccountName | authentication/plaid_middleware.py:41-45 | the first account's name, or the index error iff there is no account |
| Plaid.Income | authentication/plaid_middleware.py:66-79 | the sum of the strictly positive amounts is >= 0 |
| Plaid.Expenditure | authentication/plaid_middleware.py:81-94 | the sum of the strictly negative amounts is <= 0 |
| Plaid.IncomePlusExpenditureIsTotal | authentication/plaid_middleware.py:78-93 | income plus expenditure is the sum of all amounts |
| Plaid.History | authentication/plaid_middleware.py:57-64 | the history starts with (today, balance) and has at most one entry more than there are transactions |
| Plaid.HistoryStep | authentication/plaid_middleware.py:60-63 | a transaction adds an entry iff its date differs from the previous one's (today's for the first), and that entry holds the balance minus every amount so far |
| Plaid.HistoryDatesChange | authentication/plaid_middleware.py:62-63 | adjacent entries never share a date |
| Plaid.HistoryEntrySource | authentication/plaid_middleware.py:60-63 | every entry after the first was added by a transaction, and is dated by that transaction and valued at the balance minus the amounts up to and including it |
| Plaid.HistoricalData | authentication/plaid_middleware.py:47-64 | the history starts from today's balance of the accounts response, computed by the method itself |
| Plaid.WalkTransactions | authentication/plaid_middleware.py:57-64 | the loop over the transactions returns exactly the history from its starting entry |
| PlaidWrapper.PlaidApi.CurrentBalance | authentication/plaid_wrapper.py:42-57 | a stored non-zero balance is returned without recomputing; otherwise the signed sum is computed and stored |
| PlaidWrapper.PlaidApi.HistoricalData | authentication/plaid_wrapper.py:65-82 | the history starts from this object's balance, cached or computed |
| PlaidWrapper.RepeatedBalance | authentication/plaid_wrapper.py:46-57 | a second request on one object repeats the first result unless that was 0, which is never cached |
| Authentication.FirstOwned | authentication/models.py:26 | the profile's first account in table order, or none iff it owns none |
| Authentication.Profile.DefaultAcc | authentication/models.py:19-31 | with an account, it returns the first one and creates nothing; without one, it creates and returns a new account named "default" |
| Authentication.DefaultAccIsStable | authentication/models.py:19-31 | two calls return the same account and create at most one |
| Authentication.UserBank.CurrentBalance | authentication/models.py:95-107 | without `update` the cached field is returned unchanged. With it, the freshly computed balance overwrites the field; the save then succeeds and returns it iff the row in memory passes its field checks, and otherwise fails with the first failing check |
| Authentication.RefreshThenRead | authentication/models.py:95-107 | the refresh succeeds exactly when the account name in memory passes its check; either way a later cached read returns the refreshed balance |
| Authentication.UserBank.AccountName | authentication/models.py:109-116 | the same cache-or-refresh rule for the account name; an empty account list raises; a name the field check refuses is kept in memory but not stored |
| Authentication.UserBank.SaveCheck | authentication/models.py:69-75 | `full_clean` on the row in memory passes iff every text column has 1..1000 characters; on a row whose stored columns passed, only the in-memory account name can fail |
| Authentication.UserBank.Income | authentication/models.py:118-128 | the cached field for a 30-day request without `update`; otherwise the window's income. Only a 30-day refresh changes the field, and its save fails exactly when the row in memory fails its field checks |
| Authentication.UserBank.Expenditure | authentication/models.py:130-140 | the same rule for expenditure, its save failing in the same case |
| Composition.MakeIntervals | web/js/components/InvestBucket/InvestComposition.jsx:36-41 | one handle more than chunks, the first at 0, each next one further by the worth (value x quantity) of the next chunk |
| Composition.IntervalIsInvestedPrefix | web/js/components/InvestBucket/InvestComposition.jsx:36-41 | handle i sits at the total worth of the first i chunks |
| Composition.Available | web/js/components/InvestBucket/InvestComposition.jsx:126-128 | the available cash is the total minus the last handle, i.e. minus what the chunks are worth together |
| Composition.SelectedStock | web/js/components/InvestBucket/InvestComposition.jsx:84-90 | the first suggestion whose name equals the search text, or none iff no name equals it |
| Composition.AddingSpendsAllCash | web/js/components/InvestBucket/InvestComposition.jsx:91-103 | the added chunk is worth exactly the previous available cash, so nothing is left and the last handle reaches the total |
| Composition.InvestComposition.AddStock | web/js/components/InvestBucket/InvestComposition.jsx:91-103 | with a matching suggestion it appends one chunk of it, spending all available cash, reports the list and clears the search text; with none, nothing happens |
| Composition.FirstDifference | web/js/components/InvestBucket/InvestComposition.jsx:105-112 | the first handle whose new position differs, or -1 iff none differs |
| Composition.Retuned | web/js/components/InvestBucket/InvestComposition.jsx:113-124 | as many chunks as before, where the chunk left of handle d is worth the gap between handles d-1 and d, and the chunk right of it (if any) the gap between d and d+1 |
| Composition.RetunedFollowsSlider | web/js/components/InvestBucket/InvestComposition.jsx:113-124 | after the first moved handle d is applied, only the chunks beside handle d change, and only in quantity. The new handles up to d + 1 are where the slider put them |
| Composition.SliderExample | web/js/components/InvestBucket/InvestComposition.jsx:104-125 | the editor test's move to [0, 6, 18] turns quantities 1 and 2 at prices 3 and 2 into 2 and 6 |
| Composition.InvestComposition.IntervalUpdate | web/js/components/InvestBucket/InvestComposition.jsx:104-125 | when the first moved handle is not the leftmost, the two chunks beside it are re-sized in place and the list is reported once; otherwise nothing changes and nothing is reported |
| Composition.LastIndexOf | web/js/components/InvestBucket/InvestComposition.jsx:131-136 | the last position holding the stock id, or -1 iff none does |
| Composition.DeletionRemovesOne | web/js/components/InvestBucket/InvestComposition.jsx:129-142 | deleting removes one chunk, the last one of that stock, and keeps every other chunk. Without such a chunk nothing is removed |
| Composition.DeletionRemovesStock | web/js/components/InvestBucket/InvestComposition.jsx:129-142 | with one chunk per stock, no chunk of the stock is left |
| Composition.InvestComposition.DeleteChunk | web/js/components/InvestBucket/InvestComposition.jsx:129-142 | it reports the list without the last chunk of that stock (the same list if none) and leaves its own list alone |
| Composition.InvestComposition.EditText | web/js/components/InvestBucket/InvestComposition.jsx:178-188 | the new text becomes the search text and is passed to the search callback |
| CompositionRelay.InitialChunks | web/js/components/InvestBucket/InvestCompositionRelay.jsx:39-44 | at most one chunk per edge; when every edge is priced, exactly one chunk per edge, in edge order, carrying its stock, quantity and latest price |
| CompositionRelay.InitialChunksWorthHeldValue | web/js/components/InvestBucket/InvestCompositionRelay.jsx:36-88 | the initial chunks (one per priced edge) are worth what the render's total counts as held |
| CompositionRelay.OpeningShowsBucketCash | web/js/components/InvestBucket/InvestCompositionRelay.jsx:36-88 | opened on a fetched bucket, the editor's available cash is the bucket's own `available` |
| CompositionRelay.Total | web/js/components/InvestBucket/InvestCompositionRelay.jsx:79-88 | the editor's total is the bucket's cash plus what its initial chunks are worth |
| CompositionRelay.Suggestions | web/js/components/InvestBucket/InvestCompositionRelay.jsx:93-98 | one suggestion per search result, in order, with its id, its name, and its latest price, or 0 when it has none |
| CompositionRelay.SelectionFollowsSearch | web/js/components/InvestBucket/InvestCompositionRelay.jsx:93-98 | the editor picks the first search result with that name, priced at its latest quote or at 0 without one |
| CompositionRelay.SaveRequest | web/js/components/InvestBucket/InvestCompositionRelay.jsx:56-59 | one `{idValue, quantity}` per chunk, in order, with the bucket's id |
| CompositionRelay.SaveRepeatsHoldings | web/js/components/InvestBucket/InvestCompositionRelay.jsx:39-59 | saving without editing asks for the priced holdings the bucket already has |
| CompositionRelay.Render | web/js/components/InvestBucket/InvestCompositionRelay.jsx:69-104 | nothing iff the search results or the holdings are missing; otherwise the editor gets the current chunks, the cash plus the holdings' worth, and the suggestions |
| CompositionRelay.InvestCompositionRelay.constructor | web/js/components/InvestBucket/InvestCompositionRelay.jsx:36-46 | the state's chunks are the priced edges' chunks, and they leave exactly the bucket's cash available |
| CompositionRelay.InvestCompositionRelay.UpdateChunks | web/js/components/InvestBucket/InvestCompositionRelay.jsx:68 | the reported list replaces the state |
| CompositionRelay.InvestCompositionRelay.Save | web/js/components/InvestBucket/InvestCompositionRelay.jsx:47-64 | the request for the current chunks and this bucket |
| CompositionRelay.InvestCompositionRelay.AddThroughEditor | web/js/components/InvestBucket/InvestCompositionRelay.jsx:76-103 | rendering the editor and adding a stock through it grows the state by exactly one chunk, and no cash is left |

## Code versus tests

Each of the following is modelled as the code is written. Where the tests
expect something else, that expectation is kept beside the model as a
separate predicate or lemma.

- `quote_in_range` orders results newest first. The range test expects
  oldest first (`Stocks.OldestFirst`, `Stocks.BothOrdersMeansOneDate`).
- `get_stock_configs(date)` filters on `end >= date`, which a NULL `end`
  fails. Open rows are therefore never active on a given day
  (`Buckets.ActiveOn`). The test's reading is `Buckets.ActiveOnAsTested`, and
  `Buckets.StockConfigsOnTestRows` shows the counts differ.
- `trade_bucket` checks nothing. The tests expect some trades to be refused
  (`Trading.TradeAllowedAsTested`, `Trading.UncheckedSellGoesNegative`).
- `trading/models.py` defines none of the holding and solvency helpers that
  the tests call. They appear only as `Trading.HeldStock`,
  `Trading.HeldBucket` and `Trading.HasEnough`, as the tests read them.
- After `change_config` raises, the database rolls back, but the Python
  object does not. The model keeps the stored cash (`storedAvailable`) apart
  from the in-memory one (`available`).
- `_sell_all` never saves, so `SellAll` leaves `storedAvailable` alone.

## Left out

- GraphQL schema and resolvers, views, migrations, signals and the
  `PlaidMiddleware` request class. These are wiring.
  - The owner-only checks of the bucket mutations are not modelled.
  - The bank balance that the trading schema adds is not modelled.
- The Plaid, yahoo and HTTP calls. Their responses are input sequences, and
  the ticker check is the `validTicker` parameter of
  `Stocks.CreateNewStock`.
- The transaction window of `income`/`expenditure` (from `datetime.now()`
  and `days`). It is the `window` input, so the model does not check that
  `window` covers the last `days` days.
- `stocks/historical.py`. It does background fetching with a thread.
- `TradeStock.stock_trade`. It refers to a `trades` relation that a trade
  does not have, so every call raises `AttributeError`.
- `Stock.trades_for_profile` and `UserBank.historical_data`. The first is a
  plain relation filter. The second only delegates, with a fresh wrapper, to
  `PlaidWrapper.PlaidApi.HistoricalData`.
- Date parsing.
  - `latest_quote` parses its date with `strptime`. A trade passes a
    datetime there, which raises `TypeError` in Python. Dates are already
    day numbers here.
  - The time of day of `now` is not modelled.
- Floating point (rounding, NaN, infinities). All arithmetic is on `real`.
- Stocks.FindStock: `name__icontains` folds only the ASCII letters A-Z, so
  non-ASCII letters are compared case-sensitively. The database folds case
  by its own collation.
- Authentication.UserBank.CurrentBalance: the balance, income and
  expenditure columns are not kept apart from their in-memory fields. After
  a refused save, only the `Err` result shows that the new value was not
  stored. The account name does have a separate stored column.
- Composition.InvestComposition.AddStock: requires a non-zero price for the
  selected suggestion. JavaScript would store an infinite quantity for an
  unquoted stock (price 0).
- Composition.InvestComposition.IntervalUpdate: requires non-zero chunk
  prices and at least one slider value per handle. This is what the slider,
  built with one handle per chunk boundary, supplies.
- CompositionRelay.InvestCompositionRelay.constructor: requires the
  holdings to be fetched. The JavaScript constructor dereferences them
  without a guard.
- Null entries in the search results are not modelled.
- React's asynchronous state updates. `setState` is applied at once. The
  parent callbacks are recorded as the lists of arguments they receive.
- The order of rows in database queries is taken to be the order of the
  model's sequences. Ties in `order_by('-date')` go to the earlier row.
- Trading.BucketTradeValue: requires the traded bucket to be among the
  known buckets (`book`). In the database, that foreign key always resolves.
