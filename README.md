# Terra Classic swap service: a verified model of its swap logic

The repository documents a token-swap service for the Terra Classic chain.
Its pages carry the JavaScript of that service: a mobile client, a backend
controller, a MongoDB data model with its query helpers, and usage
examples. This project models that logic in Dafny and proves properties of
it:

- **Assets** (`assets.dfy`): the "starts with `u` means native denom" rule,
  the mobile client's symbol-to-denom table, the `ulunc` alias for `uluna`,
  and the Terra 2.0 denom `uluna2`.
- **Pair locator** (`pair_locator.dfy`): `getPairAddress`. It asks the
  Terraswap factory for the pool of `[A, B]`, and for `[B, A]` only when the
  first query fails. The factory is an abstract partial function.
- **Swap preparation** (`swap_builder.dfy`):
  - The mobile `prepareSwap` floors a 0.85 % commission and builds two
    messages: the swap of the net amount, then the commission send.
  - The backend `prepareSwap` builds one message for the full amount.
- **Quote and fees** (`quote.dfy`, `fees.dfy`): the quote endpoint checks,
  locates the pool and calls a simulation oracle; the fee calculator works
  in exact decimals.
- **Record and schema** (`swap_model.dfy`): the swap record, its
  enumerations, its defaults, and the two published schemas. The backend's
  schema allows only `terra-classic`; the data model page allows six
  networks.
- **Validation** (`validation.dfy`): `validateSwapData`, a loop that
  accumulates errors and is proved equal to a specification function, and
  the simpler throwing checks of the first `createValidatedSwap`.
- **Ledger** (`ledger.dfy`): a `SwapStore` class holding the stored
  documents, with these operations:
  - save under a unique transaction hash;
  - `createSwap` and both `createValidatedSwap` variants;
  - `getSwapList`: filter by address and time frame, sort newest first,
    page, compute the 30-day and previous-30-day totals with their
    percentage change, and find the most used from-token.
- **Query helpers** (`schema_queries.dfy`, `example_queries.dfy`,
  `seqs.dfy`): the schema page's and the examples page's queries and
  aggregations. They are written over `Filter`, `SortDesc` (a stable sort,
  newest first), `Page`, `Sum` and `Distinct`.
- **Error handling** (`retry.dfy`): `handleSwapOperation`,
  `retrySwapOperation` as a loop proved against a specification function,
  and `createSwapWithRetry`.

Conventions:

- A missing or empty string parameter is `""`.
- A missing number is `None`.
- The amounts that `prepareSwap`, `quote` and `feeCalculate` receive are
  the strings the client sends (app/mobile/page.tsx:125 calls `toString`).
  So `Some(0)` stands for the string `"0"`, which is truthy and passes the
  missing-parameter check.
- Integer amounts are `nat`; rates, prices and totals are exact `real`.
- Time is an integer count of milliseconds, and a day is 86 400 000 ms.
- The chain, the database and the clock are abstract:
  - the factory and simulation queries are function parameters;
  - the stored documents are a sequence;
  - the current time is a parameter `now`;
  - the two calendar-dependent start dates (`3m`, `1y`) are a `Calendar`
    parameter.

Where the prose description and the code disagree, the model follows the
code:

- The pair locator falls back to the reversed order after *any* failure of
  the first query, not only after a "not found" answer, because the code
  catches every error.
- A validation failure inside `retrySwapOperation` is retried. See
  Findings.
- The retry loop's comment calls its wait an exponential backoff, but
  the wait after attempt `k` is `1000 * k` ms, which grows linearly.
  `Retry.Backoff` follows the code.

## Model

| member | source | states |
|---|---|---|
| Assets.AssetInfoOf | app/mobile/page.tsx:487-504 | an identifier becomes a `native_token` asset info exactly when it starts with `u`, and a `token` asset info otherwise |
| Assets.AssetInfoRoundTrip | app/mobile/page.tsx:593-595 | the identifier is recovered from its asset info, and an asset info whose tag agrees with the prefix rule is rebuilt from its identifier |
| Assets.GetTokenDenomTable | app/mobile/page.tsx:112-119 | LUNC, USTC, axlUSDC, axlUSDT and AXL map to uluna, uusd, uusdc, uusdt and uaxl whatever the token's own denom is, every other symbol keeps its own denom, and every fixed denom is native |
| Assets.GetTokenDenomMatchesPublishedTable | app/mobile/page.tsx:112-119 | for each native token of the published table, the fixed mapping gives the denom the table lists |
| Assets.NormalizeProperties | app/mobile/page.tsx:551-552 | normalisation is idempotent, never yields `ulunc`, changes only `ulunc`, keeps the native/contract classification, and yields `uluna2` only from `uluna2` |
| Assets.SupportedTokensAllNative | app/backend/page.tsx:474-481 | every denom of `TOKENS` is native, and the table lists `uluna2`, the denom its error responses reject |
| PairLocator.LocatePair | app/mobile/page.tsx:507-525 | the answer to `[A, B]` when there is one, otherwise the answer to `[B, A]`; no pool exactly when both orders fail |
| PairLocator.GetPairAddress | app/mobile/page.tsx:485-531 | builds the asset infos by pushing one per token and returns the pool `LocatePair` names; the first query is `[A, B]`; the reversed query is made exactly when the first fails; a missing pool means both queries were made |
| PairLocator.LocateSymmetric | app/backend/page.tsx:484-531 | when the factory registers a pool under at most one order, or the same pool under both, the locator gives the same answer for `(A, B)` and `(B, A)` |
| PairLocator.LocateOneOrdering | app/mobile/page.tsx:507-521 | a pool registered under one order only is found from both sides |
| PairLocator.LocateAsymmetricWhenBothRegistered | app/mobile/page.tsx:507-521 | when both orders are registered with different pools, the two query orders give different answers |
| SwapBuilder.Commission | app/mobile/page.tsx:565-571 | the commission is the largest whole number of units not above amount·85/10000, and never more than the amount |
| SwapBuilder.PrepareSwap | app/mobile/page.tsx:538-623 | fails with "missing parameters" exactly when sender, either token or the amount is missing; rejects `uluna2` on either side after normalisation; "pair not found" exactly when the checks pass and there is no pool or it has no address, naming both normalised tokens; a success is two messages: the swap to the located pool offering amount minus commission, with coins attached exactly when native, then the commission send from the sender to the commission address |
| SwapBuilder.PrepareSucceedsWhenPoolExists | app/mobile/page.tsx:574-615 | with all parameters present, no `uluna2`, and a pool that has an address, the swap is prepared |
| SwapBuilder.PrepareRejectsBeforeLookup | app/mobile/page.tsx:543-562 | a missing parameter or a `uluna2` token gives the same answer whatever the factory says |
| SwapBuilder.CommissionCarvedOut | app/mobile/page.tsx:569-571 | commission plus net amount is the amount, and the commission is the floor of amount·0.0085 |
| SwapBuilder.CommissionMonotone | app/mobile/page.tsx:570 | a larger amount never has a smaller commission |
| SwapBuilder.PrepareExample | app/mobile/page.tsx:538-623 | 1 000 000 uluna to uusd gives a swap of 991 500 with coins and then a commission send of 8 500, in that order |
| SwapBuilder.PrepareNormalisesAlias | app/mobile/page.tsx:551-552 | `ulunc` on either side is prepared exactly as `uluna` |
| SwapBuilder.ConfirmScreenFloorAgrees | app/mobile/page.tsx:275-278 | the confirmation screen's floor of the real product amount·0.0085 equals the exact integer commission of `prepareSwap` |
| SwapBuilder.ConfirmScreenSendMatchesPrepare | app/mobile/page.tsx:274-287 | the commission send the screen signs has the sender and coins of `prepareSwap`'s second message, but a different recipient address |
| SwapBuilder.BackendPrepareSwap | app/backend/page.tsx:160-223 | the same missing-parameter and `uluna2` checks, with no alias normalisation; both rejections carry `TOKENS`; prepared exactly when the checks pass and the located pool has an address; a pair-not-found error names both tokens; a success is one execute message to the located pool offering the full amount, with the amount attached as coins exactly when the from-token is native |
| SwapBuilder.MobileOffersBackendAmountLessCommission | app/backend/page.tsx:196-215 | for the same normalised request, the mobile swap goes to the backend's pool and offers the backend's amount minus the commission |
| QuoteEngine.Quote | app/backend/page.tsx:83-141 | missing parameters, then `uluna2`, then a missing pool are rejected in that order, each exactly when the earlier checks pass and its own condition holds, with both tokens and `TOKENS` in the last two; a simulation failure exactly when the pool exists and its simulation fails; otherwise a quote, which offers the requested amount unchanged to the located pool and echoes the simulated return amount |
| QuoteEngine.QuoteRejectsBeforeLookup | app/backend/page.tsx:86-100 | missing parameters and `uluna2` are answered without consulting the factory or the pool |
| QuoteEngine.QuoteMatchesBackendOffer | app/backend/page.tsx:102-135 | when the backend can prepare a swap and the pool simulates it, the quote succeeds with the simulation of exactly the prepared offer |
| QuoteEngine.QuoteTerra2Example | app/backend/page.tsx:92-99 | `uluna2` to `uusd` is rejected naming both tokens |
| Fees.CalculateFee | app/backend/page.tsx:556-569 | the commission is the amount times 0.0085, the network fee is 0.001, the total is their sum, and the rate and amount are echoed; a positive amount has a commission between 0 and the amount |
| Fees.CalculateFeeAdditive | app/backend/page.tsx:558 | the commission of a sum of amounts is the sum of their commissions |
| Fees.IntegerCommissionIsFloor | app/mobile/page.tsx:570 | the mobile integer commission is the floor of the backend's exact commission |
| Fees.FeeCalculate | app/backend/page.tsx:534-553 | a missing amount or token is one error, an amount not above 0 another, and otherwise the breakdown of `calculateFee` is returned |
| SwapModel.ParseNetwork | app/model/page.tsx:114-120 | a network string is accepted exactly when it is one of the six names |
| SwapModel.NetworkRoundTrip | app/model/page.tsx:114-120 | network names and parsing are inverse |
| SwapModel.ParseStatus | app/model/page.tsx:123-129 | a status string is accepted exactly when it is pending, completed or failed |
| SwapModel.StatusRoundTrip | app/model/page.tsx:123-129 | status names and parsing are inverse |
| SwapModel.ParseTxType | app/model/page.tsx:143-149 | the only transaction type is `swap` |
| SwapModel.ToRecord | app/model/page.tsx:106-256 | a payload becomes a document exactly when the schema accepts it; a document has a network the schema allows and non-empty hash and wallet |
| SwapModel.RecordRoundTrip | app/model/page.tsx:106-256 | a storable record written out in full is read back as itself, and only storable records survive the trip |
| SwapModel.DefaultsApplied | app/model/page.tsx:118-250 | absent fields take network `terra-classic`, status `pending`, type `swap`, the current time, provider `yourwallet` and slippage 0.01 |
| SwapModel.BackendSchemaTerraOnly | app/backend/page.tsx:253-285 | the backend schema stores only Terra Classic swaps, and whatever it stores the model schema stores identically |
| Validation.IdentityErrors | app/examples/page.tsx:263-270 | no identity error exactly when a given wallet starts with `terra1` and a given hash has at least 64 characters |
| Validation.AmountErrors | app/examples/page.tsx:273-279 | no amount error exactly when each given amount is positive |
| Validation.DecimalsErrors | app/examples/page.tsx:282-288 | no decimals error exactly when each given decimals value lies in [0, 18] |
| Validation.PriceErrors | app/examples/page.tsx:291-297 | no price error exactly when each given price is positive |
| Validation.FeeErrors | app/examples/page.tsx:300-306 | no fee error exactly when a given fee is not negative and a given fee rate lies in [0, 1] |
| Validation.SlippageErrors | app/examples/page.tsx:309-311 | no slippage error exactly when a given slippage lies in [0, 1] |
| Validation.EnumErrors | app/examples/page.tsx:314-323 | no enumeration error exactly when a given network is one of the six and a given status one of the three |
| Validation.PairErrors | app/examples/page.tsx:326-328 | the same-token error appears exactly when both tokens are equal, missing ones included |
| Validation.ValidateSwapData | app/examples/page.tsx:247-334 | the loop over the required fields and the chain of checks produce exactly the specified error list, and `isValid` holds exactly when it is empty |
| Validation.MissingErrorsExactly | app/examples/page.tsx:251-260 | the missing-field errors of a list name exactly its falsy fields, and there are none exactly when all its fields are truthy |
| Validation.MissingOnce | app/examples/page.tsx:251-260 | for a list of distinct fields, each falsy field gets exactly one missing-field error and every other error occurs zero times |
| Validation.IdentityReported | app/examples/page.tsx:263-270 | the wallet error occurs once exactly when a truthy wallet does not start with `terra1`, the hash error once exactly when a truthy hash is shorter than 64, and nothing else occurs |
| Validation.AmountReported | app/examples/page.tsx:273-279 | each amount's error occurs once exactly when that amount is truthy and not positive, and nothing else occurs |
| Validation.DecimalsReported | app/examples/page.tsx:282-288 | each side's decimals error occurs once exactly when its truthy decimals lie outside [0, 18], and nothing else occurs |
| Validation.PriceReported | app/examples/page.tsx:291-297 | each price's error occurs once exactly when that price is truthy and not positive, and nothing else occurs |
| Validation.FeeReported | app/examples/page.tsx:300-306 | the fee error occurs once exactly when a truthy fee is negative, the rate error once exactly when a truthy rate lies outside [0, 1], and nothing else occurs |
| Validation.SlippageReported | app/examples/page.tsx:309-311 | the slippage error occurs once exactly when a truthy slippage lies outside [0, 1], and nothing else occurs |
| Validation.EnumReported | app/examples/page.tsx:314-323 | the network error occurs once exactly when a truthy network is not one of the six, the status error once exactly when a truthy status is not one of the three, and nothing else occurs |
| Validation.PairReported | app/examples/page.tsx:326-328 | the same-token error occurs once exactly when the tokens are equal, and nothing else occurs |
| Validation.ReportedOnceIffViolated | app/examples/page.tsx:247-334 | every error kind occurs in the list exactly once when its own condition holds and not at all otherwise |
| Validation.AllFieldsRequired | app/examples/page.tsx:251-254 | all eight checked fields are in the required list |
| Validation.MissingFieldIff | app/examples/page.tsx:256-260 | a field's missing-field error is reported exactly when the field is falsy |
| Validation.SameTokenFlagged | app/examples/page.tsx:326-328 | the same-token error is reported exactly when the tokens are equal |
| Validation.ValidIffRulesHold | app/examples/page.tsx:247-334 | the data is valid exactly when every required field is truthy and every applicable rule holds |
| Validation.ValidatedRecordRules | app/model/page.tsx:539-565 | a valid payload that the schema stores meets the documented fee-rate, slippage, token and amount rules |
| Validation.ZeroPricePassesValidation | app/examples/page.tsx:291-294 | a price of 0 is falsy, so it passes validation and is stored although the business rules ask for a positive price |
| Validation.FirstFalsy | app/examples/page.tsx:82-87 | a falsy field of the list that only truthy fields precede, or none when all are truthy |
| Validation.BasicCheck | app/examples/page.tsx:79-98 | the first `createValidatedSwap` passes exactly when the four fields are truthy, both amounts are positive and the slippage lies in [0, 1]; otherwise it reports the first falsy field, else the amounts, else the slippage |
| Validation.FullValidationImpliesBasic | app/examples/page.tsx:79-98 | whatever passes `validateSwapData` passes the basic check |
| Ledger.Insert | app/backend/page.tsx:242-257 | a payload the schema rejects, or one whose hash is stored, is refused with that reason; otherwise its document is appended; uniqueness of hashes is kept |
| Ledger.SecondInsertRejected | app/schema/page.tsx:146-153 | after a payload is stored, any payload with the same hash is refused |
| Ledger.SwapStore.Save | app/backend/page.tsx:243-249 | the store becomes the inserted documents, or stays as it was on refusal, and hashes stay unique |
| Ledger.SwapStore.CreateSwap | app/backend/page.tsx:242-250 | created with the saved document under the backend's schema, or failed with the store unchanged |
| Ledger.SwapStore.CreateValidatedSwapBasic | app/examples/page.tsx:79-105 | a failed basic check leaves the store unchanged and reports the check's error; otherwise the outcome of the save |
| Ledger.SwapStore.CreateValidatedSwap | app/examples/page.tsx:337-355 | invalid data leaves the store unchanged and reports exactly the validation errors; otherwise the outcome of the save |
| Ledger.SwapStore.GetSwapList | app/backend/page.tsx:317-442 | fails exactly when the skip is negative; otherwise the total count of the matches, the page of the sorted matches, both percentage changes of the 30-day windows, and the most used from-token |
| Ledger.SkipNegative | app/backend/page.tsx:410 | the skip is negative exactly when the page is below 1 with a positive limit, or above 1 with a negative limit |
| Ledger.MatchesOf | app/backend/page.tsx:321-344 | a document is listed exactly when it is stored and matches the query |
| Ledger.ListQuery | app/backend/page.tsx:321-344 | an address keeps exactly that wallet; 7d, 30d, 3m and 1y keep documents from their start date on; any other time frame starts now; without a time frame there is no time filter |
| Ledger.BuildQuery | app/backend/page.tsx:321-344 | building the query field by field yields `ListQuery` |
| Ledger.TimeFrameFilters | app/backend/page.tsx:329-343 | a 7d listing holds only documents of the last 7 days, and an unknown time frame only documents from now on |
| Ledger.WindowsDisjoint | app/backend/page.tsx:347-354 | no document is in both 30-day windows, and together they hold the matches of the last 60 days |
| Ledger.Totals | app/backend/page.tsx:356-383 | the totals of no match are 0 |
| Ledger.WindowTotalsSplit | app/backend/page.tsx:347-383 | the totals of the last 60 days are the sums of the two windows' totals |
| Ledger.PercentageChange | app/backend/page.tsx:386-391 | from a previous total of 0 the change is 100 when the current total is positive and 0 otherwise; otherwise the previous total grown by the change is the current total |
| Ledger.Report | app/backend/page.tsx:427-434 | the reported change is the absolute value, and `isPositive` holds exactly when the change is not negative |
| Ledger.ReportAgainstPositive | app/backend/page.tsx:386-434 | against a positive previous total, `isPositive` holds exactly when the total did not fall, and the reported change is the size of the difference as a percentage |
| Ledger.Leader | app/backend/page.tsx:397-407 | a candidate symbol whose count is the largest of the candidates' counts |
| Ledger.MostUsed | app/backend/page.tsx:397-435 | none exactly when nothing matches; otherwise a from-symbol that occurs, with its count, no smaller than any other symbol's count |
| Ledger.CountSymbolPositive | app/backend/page.tsx:400-403 | a symbol that occurs is counted at least once |
| Ledger.MostUsedCounted | app/backend/page.tsx:435 | a reported most used token occurs at least once |
| Ledger.ListedPage | app/backend/page.tsx:416-421 | a listed page is sorted newest first and holds only matches |
| SchemaQueries.OfWallet | app/schema/page.tsx:233 | exactly the stored documents of the wallet |
| Seqs.TakeSortedIsTop | app/schema/page.tsx:280-281 | sorting largest first and keeping the first `limit` keeps exactly `min(limit, n)` of the elements, no more often than they occur, sorted, and leaves out none with a larger key than the last one kept |
| SchemaQueries.GetUserSwaps | app/schema/page.tsx:232-238 | the `limit` newest summaries of the wallet's documents (all when the limit is 0), newest first, none more often than it occurs among them, and none left out newer than the last one returned |
| SchemaQueries.GetAdminStats | app/schema/page.tsx:241-256 | no group document exactly when the filter selects nothing; otherwise the count, the volume, the fees and the average slippage of the selection |
| SchemaQueries.AdminVolumeSplits | app/schema/page.tsx:241-256 | the volume of a selection is the volume of its part meeting a further condition plus the volume of the rest |
| SchemaQueries.GetTokenStats | app/schema/page.tsx:259-272 | exactly the documents from or to the token of the last `timeFrame` days, newest first, a permutation of the matches |
| SchemaQueries.LiveSince | app/schema/page.tsx:278-281 | exactly the pending or completed documents of the last minutes |
| SchemaQueries.GetRecentSwaps | app/schema/page.tsx:275-285 | the newest 100 of the pending or completed documents of the last minutes (all when there are fewer), newest first, and none left out newer than the last one returned |
| ExampleQueries.CeilDiv | app/examples/page.tsx:143 | the page count is the ceiling of total over limit, for either sign of the limit |
| ExampleQueries.GetUserSwapHistory | app/examples/page.tsx:123-149 | fails exactly when the skip is negative; otherwise the page of the user's sorted swaps, the user's total and the ceiling page count |
| ExampleQueries.HistoryPagesCoverAll | app/examples/page.tsx:125-143 | with a positive limit, the page after the last page count starts beyond the user's swaps and is empty |
| ExampleQueries.LastPageReachesTotal | app/examples/page.tsx:143 | the page count is not negative, and the page after it starts at or beyond the total |
| ExampleQueries.RecentOfWallet | app/examples/page.tsx:152-157 | exactly the user's documents of the last hours |
| ExampleQueries.GetRecentSwapsOf | app/examples/page.tsx:151-161 | the newest 50 of the user's documents of the last hours (all when there are fewer), newest first, and none left out newer than the last one returned |
| ExampleQueries.TokenMatches | app/examples/page.tsx:176-185 | exactly the documents from or to the token of the last `timeFrame` days |
| ExampleQueries.CompletedShareBounds | app/examples/page.tsx:193-197 | the sum of the completed indicators lies between 0 and the count |
| ExampleQueries.CompletedShareCounts | app/examples/page.tsx:193-197 | the sum of the completed indicators is the number of completed swaps |
| ExampleQueries.ShareBounds | app/examples/page.tsx:193-197 | an average of values between 0 and 1 lies between 0 and 1 |
| ExampleQueries.GetTokenStatsSummary | app/examples/page.tsx:172-210 | all zeros exactly when nothing matches; otherwise the count, volume and fees of the matches, the average slippage, and a success rate in [0, 1] that is the share of completed swaps |
| ExampleQueries.StatsOf | app/examples/page.tsx:216-223 | one group document per pair, in the pairs' order |
| ExampleQueries.OccurringPairCounted | app/examples/page.tsx:221 | a pair that occurs has a count of at least one |
| ExampleQueries.PairGroups | app/examples/page.tsx:214-224 | every group is its pair's count and volume; every document's pair has its group; no two groups share a pair |
| ExampleQueries.TopPairsDistinct | app/examples/page.tsx:216-229 | any top selection of the groups reports each pair at most once |
| ExampleQueries.SortedGroups | app/examples/page.tsx:225-226 | the first groups of the sorted groups are sorted by count and are groups |
| ExampleQueries.GetPopularPairs | app/examples/page.tsx:213-230 | fails exactly when the limit is not positive; otherwise the `limit` groups with the most swaps (all when there are fewer), largest count first, each pair at most once, and no group left out with a larger count than the last one returned |
| ExampleQueries.PopularPairsComplete | app/examples/page.tsx:213-230 | when there are no more pairs than the limit, every pair that occurs is reported with its count |
| Retry.HandleSwapOperation | app/examples/page.tsx:370-414 | success exactly when the data is valid, its hash is not stored and the operation returns, with the operation's value; otherwise the validation errors, "already exists", or the operation's error, in that order of precedence |
| Retry.RefusedBeforeOperation | app/examples/page.tsx:373-384 | invalid data or a stored hash is refused whatever the operation would do |
| Retry.StoredHashRefused | app/examples/page.tsx:380-384 | a valid payload carrying a stored document's hash is refused as already existing |
| Retry.ValidationMessageMarked | app/examples/page.tsx:375-376 | a validation failure's text contains "Validation failed" |
| Retry.AlreadyExistsNotMarked | app/examples/page.tsx:382-383 | the duplicate's text does not contain "Validation failed" |
| Retry.RetryFrom | app/examples/page.tsx:417-444 | no call when no attempt is allowed; otherwise between 1 and the allowed number of calls |
| Retry.RetrySwapOperation | app/examples/page.tsx:417-444 | the loop makes exactly the calls and waits, and ends with exactly the outcome, of `RetryFrom` |
| Retry.NoAttempts | app/examples/page.tsx:418 | with fewer than one retry allowed the operation is never called and there is no result |
| Retry.FirstSuccessReturned | app/examples/page.tsx:418-424 | the first successful attempt's response is returned after exactly that many calls |
| Retry.LastErrorRaised | app/examples/page.tsx:437-441 | when no attempt succeeds and the last one throws or fails validation, every allowed call is made and the last attempt's error is rethrown |
| Retry.RaisedOnlyAtLast | app/examples/page.tsx:437-441 | a run that ends in an error made every allowed call, and its last attempt threw or failed validation |
| Retry.BackoffSchedule | app/examples/page.tsx:431-436 | attempts that all fail without a validation failure wait 1000·k ms after attempt k, with none after the last, and end with no result |
| Retry.ValidationFailuresRetried | app/examples/page.tsx:426-441 | as written, a validation failure on every attempt is retried up to the limit and only then rethrown |
| Retry.RetryIntendedFrom | app/examples/page.tsx:426-428 | the corrected loop: no call when no attempt is allowed; otherwise between 1 and the allowed number of calls |
| Retry.ValidationFailureNotRetried | app/examples/page.tsx:426-428 | corrected, the first validation failure is rethrown at once |
| Retry.IntendedAgreesWithoutValidation | app/examples/page.tsx:417-444 | the corrected and the written loops agree on every run without a validation failure |
| Retry.PlainFailuresThrice | app/examples/page.tsx:431-436 | three failures without a validation failure wait 1000 ms, then 2000 ms, and end with no result |
| Retry.CreateWithRetryInvalid | app/examples/page.tsx:447-452 | as written, invalid data is tried three times without waiting and the validation failure is then rethrown |
| Retry.CreateWithRetryDuplicate | app/examples/page.tsx:447-452 | a stored hash is tried three times, waiting 1 s and 2 s, and yields no result |
| Retry.CreateWithRetryFresh | app/examples/page.tsx:447-452 | valid data with a new hash takes one attempt that is reported as a success, even when the save inside it failed |
| Retry.CreateWithRetryIntendedInvalid | app/examples/page.tsx:426-428 | corrected, invalid data is refused after one attempt |

## Left out

- The user interface, the mobile wallet (mnemonics, signing, broadcasting), the LCD client and every network call. The factory and simulation queries are function parameters.
- Floating point. Amounts are integers or exact decimals: the model has no `parseFloat` scaling, no float product before `Math.floor`, and no `toFixed` rounding of fees and percentages.
- `parseInt` of query strings. Page and limit arrive parsed; a missing one takes its default.
- Calendar arithmetic. `setDate` is taken as whole 86 400 000 ms days, ignoring daylight-saving shifts. The starts of the `3m` and `1y` windows are parameters.
- The 90-day TTL index, index creation, connection handling, `insertMany` and `Promise.all`.
- Logging and the timestamps of error responses.
- Real waiting in the retry loop. Waits are returned as a list of durations.
- Exact message texts. Errors are distinct kinds. The retry logic tests only two texts: the "Validation failed" beginning of a validation failure and "Transaction already exists".
- JavaScript runtime failures that the code does not handle on purpose, such as `includes` on a missing `error` field or an invalid `Date`.
- The MongoDB order of equal sort keys. The model keeps stored order among them. The properties proved hold for any order of ties: the sort order and permutation for uncapped queries, and for capped ones the count, membership without extra repeats, and "nothing left out ranks above the last result".
- Ledger.SwapStore.GetSwapList: a negative limit is modelled as its absolute value, as the MongoDB cursor reads it; limit 0 means no limit.
- SchemaQueries.GetAdminStats: the filter is an arbitrary predicate on documents, not a MongoDB query document.
- ExampleQueries.GetPopularPairs: groups are keyed by the symbol pair. Pairs with equal counts appear in first-occurrence order.
- IdentityErrors: its own contract states only when its list is empty; which errors it reports, each once, is stated by Validation.IdentityReported.
- AmountErrors: its own contract states only when its list is empty; which errors it reports, each once, is stated by Validation.AmountReported.
- DecimalsErrors: its own contract states only when its list is empty; which errors it reports, each once, is stated by Validation.DecimalsReported.
- PriceErrors: its own contract states only when its list is empty; which errors it reports, each once, is stated by Validation.PriceReported.
- FeeErrors: its own contract states only when its list is empty; which errors it reports, each once, is stated by Validation.FeeReported.
- SlippageErrors: its own contract states only when its list is empty; which errors it reports, each once, is stated by Validation.SlippageReported.
- EnumErrors: its own contract states only when its list is empty; which errors it reports, each once, is stated by Validation.EnumReported.
- ExampleQueries.GetTokenStatsSummary: the success rate and the average slippage are stated through their sums, not as rounded floats.
- Retry.CreateWithRetryFresh: the save inside the first attempt uses the time of that attempt. Later attempts never save, because a failed attempt leaves the store unchanged.
- The routes and authentication middleware of the backend.
- A numeric JSON `0` as the amount of `prepareSwap`, `quote` or `feeCalculate`. It is falsy and would take the missing-parameter branch (app/backend/page.tsx:165, 537); amounts are modelled as the strings the client sends.
- The `createdAt` and `updatedAt` fields that the schema's `timestamps: true` option adds (app/model/page.tsx:254). Mongoose maintains them and no modelled operation reads them.

## Findings

| source | as written | input that shows it | evidently intended | confidence | as-written member | corrected member |
|---|---|---|---|---|---|---|
| app/examples/page.tsx:426-441 | the "Validation failed" error is thrown inside the loop's own `try`; its `catch` swallows it unless the attempt is the last, so validation failures are retried | `createSwapWithRetry` on data with any validation error: three calls, then the error is rethrown | "Don't retry validation errors": rethrow at the first validation failure | not executed | Retry.ValidationFailuresRetried | Retry.ValidationFailureNotRetried |
