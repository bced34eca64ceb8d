# Sui analytics agent: query results, SAVE_QUERY and the Cetus service

A Dafny model of three parts of a Sui analytics agent plugin.

- **Query results** (`query_results.dfy`, module `QueryResults`). This covers how an
  analytics API's payload is judged to hold rows (`queryHasResults`) and how it is turned
  into a table (`formatApiResultToQueryResult`). The table has columns from the first item's
  keys, a numeric or string type per column, and one row per item with one-element arrays
  unwrapped and missing values as null. It also covers the pure steps of `runQuery`:
  - whitespace in the query becomes `+`;
  - the result is picked out of `data[0]`;
  - an API error becomes an empty result carrying it;
  - every failure becomes an empty result, except an abort, which is rethrown as
    `QueryAborted`.
- **SAVE_QUERY** (`save_query.dfy`, module `SaveQuery`). This covers the action's intent
  check (`validate`) and the field checks of its handler.
- **Cetus service** (`cetus_service.dfy`, module `CetusService`). This covers:
  - the fee-tier to tick-spacing table;
  - explorer links;
  - the network check in `initialize`;
  - the guards, canonical coin reordering and amount selection of `createPool`,
    `openPositionWithLiquidity`, `removePositionWithLiquidity` and `swapToken`.

  The SDK's tick and liquidity maths and every ledger call are fields of `Clients`. Each is
  an uninterpreted function, so the contracts say exactly which SDK value ends up in which
  field of the transaction. Each operation yields a `Decision`:
  - `Reject(message)`: the `{success: false}` envelope;
  - `Abandon`: a bare `return;`;
  - `Submit(payload, message)`: the transaction to sign.

  `Respond` turns a `Decision` into the returned envelope.
- **Supporting modules.**
  - `js_values.dfy` (module `JsValues`): JSON values with the JavaScript behaviour the code
    relies on. That is truthiness, `Object.keys`, property reads on objects, arrays and
    strings, and the TypeError thrown when reading a property of null or undefined.
  - `text.dfy` (module `Text`): `toLowerCase`, `toUpperCase` and `includes`.

Two behaviours of the code are modelled as written:
- `createPool` returns `undefined` after logging when the fee rate has no tick spacing. It
  does not report an unsupported-fee-rate failure.
- `createPool` takes its tick range from the initial price's tick. The caller's lower and
  upper prices are reordered but never used.

## Model

| member | source | states |
|---|---|---|
| QueryResults.SomeKeyHasRows | src/utils/index.ts:26-30 | true exactly when one of the listed keys holds a non-empty array |
| QueryResults.QueryHasResults | src/utils/index.ts:9-31 | throws a TypeError exactly for undefined or null; an array has results iff it is non-empty; an object has results iff one of the six known keys holds a non-empty array |
| QueryResults.QueryHasResultsIgnoresOtherKeys | src/utils/index.ts:18-30 | inserting a field under a key outside the six known ones, anywhere in the object, leaves the verdict unchanged |
| QueryResults.CombineResults | src/utils/index.ts:44-56 | the loop builds the `Combined` dataset: a flat array as it is; otherwise the items of every non-empty array field in key order; `Object.keys(null)` throws |
| QueryResults.FlattenMembers | src/utils/index.ts:51-55 | an item is in the combined dataset iff some field is an array holding it |
| QueryResults.FlattenLength | src/utils/index.ts:51-55 | the combined dataset is as long as all array fields together |
| QueryResults.HasResultsGivesItems | src/utils/index.ts:18-55 | a payload that `queryHasResults` accepts gives the formatter at least one item |
| QueryResults.UnknownKeyRowsAreNotResults | src/utils/index.ts:18-55 | the converse fails: an array under an unknown key is combined into rows, but `queryHasResults` says there are none |
| QueryResults.ColumnTypes | src/utils/index.ts:69-86 | one type per column; a column is numeric iff the first item's value is a number or a one-element array holding a number |
| QueryResults.FormatRow | src/utils/index.ts:88-96 | the row assigns every column its cell (a one-element array is unwrapped, a missing value becomes null); reading a column of a null item throws |
| QueryResults.FormatRows | src/utils/index.ts:88-97 | throws iff there are columns and some item is null; otherwise gives one normalised row per item, in order |
| QueryResults.FormatApiResultToQueryResult | src/utils/index.ts:41-105 | returns or throws exactly what `Formatted` gives |
| QueryResults.FormattedEmpty | src/utils/index.ts:58-65 | an empty dataset gives the empty table with no error |
| QueryResults.FormattedShape | src/utils/index.ts:67-104 | columns are the first item's keys; one type per column; `rowCount` is the number of rows, which equals the number of items; each row is keyed by the columns and holds each item's normalised cells; no error |
| QueryResults.FormatQuery | src/utils/index.ts:132 | same length; every `\s` character becomes `+` and every other character is kept |
| QueryResults.FormatQueryIdempotent | src/utils/index.ts:132 | no whitespace survives the rewrite, and rewriting twice equals rewriting once |
| QueryResults.EmptyResult | src/utils/index.ts:115-123 | no columns, no types, no rows, a row count of 0, and the given error |
| QueryResults.FormattedIsNeverEmptyResult | src/utils/index.ts:99-123 | a formatted table is never an empty result, because the formatter never reports an error |
| QueryResults.RequestUrl | src/utils/index.ts:132-134 | the URL starts with the API URL and ends with the rewritten query, which holds no whitespace |
| QueryResults.Caught | src/utils/index.ts:162-171 | throws iff the failure is an `AbortError`, rethrown as `Error("QueryAborted")`; otherwise the empty result carries the `Error`'s message, the engine's TypeError text, or "Unknown fetch error" for a thrown non-`Error` |
| QueryResults.SelectResult | src/utils/index.ts:154-155 | throws iff `data` is null or undefined; otherwise gives `data[0]?.result?.indexed` for "indexed" and `data[0]?.result` for any other execution type |
| QueryResults.RunQuery | src/utils/index.ts:125-173 | throws ("QueryAborted") iff the fetch or the JSON read rejected with an `AbortError`; a transport failure, a JSON parse failure and a null body go through the catch; a non-JSON content type gives the "Unexpected content type" error; a truthy API error gives an empty result carrying it; a missing or null `data`, or a selected result that is undefined or null (as for `data: []`), gives the TypeError's empty result; a selected result without rows gives "No results"; rows give the formatted table; a table without an error has `rowCount` equal to its number of rows |
| Text.Contains | src/actions/save_query.ts:30-32 | `includes` is true iff the pattern occurs at some position |
| SaveQuery.Validate | src/actions/save_query.ts:27-34 | true iff the text is present and its lower-cased form contains one of the three phrases |
| SaveQuery.ValidateIgnoresCase | src/actions/save_query.ts:29-33 | upper-casing the text does not change the verdict |
| SaveQuery.StoreThisQueryExampleIsRejected | src/actions/save_query.ts:95-109 | the action's own example "Store this query as ..." is not accepted by `validate` |
| SaveQuery.Handle | src/actions/save_query.ts:36-79 | a missing or empty title or query gives the "Missing data" reply and `false`; present fields that are not strings give the "Save failed" reply and `false`; the result is `true` iff both are non-empty strings, and then the saved reply is emitted when there is a callback |
| CetusService.Respond | src/services/query.ts:218-229 | `undefined` iff the decision is to abandon; `success` iff a transaction is submitted, with the signer's digest and the success message; a rejection carries an empty digest and its message |
| CetusService.TickSpacing | src/services/query.ts:52-68 | a spacing exists iff the fee rate is one of the six tiers, and it is that tier's spacing |
| CetusService.TickSpacingStrictlyIncreasing | src/services/query.ts:52-68 | a higher tier has a strictly wider spacing, and no spacing is zero |
| CetusService.Inverted | src/services/query.ts:147-151 | the new bounds are the reciprocals of the old upper and lower bounds |
| CetusService.InvertedKeepsOrder | src/services/query.ts:146-151 | inverting a positive range keeps it positive and ordered, and keeps a price inside it inside |
| CetusService.InvertedTwice | src/services/query.ts:268 | inverting a range twice gives it back |
| CetusService.Amounts | src/services/query.ts:196-201 | the fixed side carries the caller's amount; the other side carries the estimate's `tokenMaxB` (coin A fixed) or `tokenMaxA` (coin B fixed) |
| CetusService.CanonicalPair | src/services/query.ts:140-146 | the same two coins, exchanged exactly when `isSortedSymbols` holds for the caller's order |
| CetusService.BuildCreatePool | src/services/query.ts:115-230 | rejects with "Pool: <address> already exists" iff exactly one pool exists; abandons iff the fee rate has no spacing; otherwise the payload has the canonical pair, the initial price seen from coin A, the tier's spacing, the ticks either side of the initial tick, the fixed amount unchanged and the other side the maximum of the estimate taken over those ticks at the initial price with round-up and slippage 0.1, the URL or "", and slippage 0.1 |
| CetusService.CreatePool | src/services/query.ts:196-211 | as written: the caller's `isFixedCoinA` is passed on unchanged |
| CetusService.CreatePoolFixesTheOtherCoin | src/services/query.ts:140-211 | after an exchange, the amount fixed for the caller's coin A is sent as the amount of its coin B |
| CetusService.CreatePoolIntended | src/services/query.ts:140-211 | corrected: the fixed coin is the caller's chosen coin, with the caller's amount |
| CetusService.CreatePoolIntendedIgnoresPairOrder | src/services/query.ts:139-152 | a request naming the pair in the other order, with the initial price inverted and the other coin fixed, gives the same pool |
| CetusService.CreatePoolIgnoresPairOrder | src/services/query.ts:139-152 | as written, the same holds with the same flag: the reversed request with the initial price inverted gives the same pool |
| CetusService.TargetPool | src/services/query.ts:247-260 | the pool at the given address; otherwise the single pool found for the pair and fee rate, and none unless there is exactly one |
| CetusService.CanonicalRange | src/services/query.ts:261-269 | the caller's range when the pair is canonical, otherwise the bounds' reciprocals exchanged; an ordered positive range stays ordered and positive |
| CetusService.BuildOpenPosition | src/services/query.ts:232-349 | rejects with "Pool not found" iff there is no target pool; otherwise adds liquidity to a new position: canonical pair; ticks from the canonical range widened to the pool's spacing; the pool's live price; the fixed amount unchanged and the other side the maximum of the estimate over those ticks at the pool's price; the caller's slippage; no fee collection |
| CetusService.OpenPositionWithLiquidity | src/services/query.ts:309-322 | as written: the caller's `isFixedCoinA` is passed on unchanged |
| CetusService.OpenPositionFixesTheOtherCoin | src/services/query.ts:262-322 | after an exchange, the amount fixed for the caller's coin A is sent as the amount of its coin B |
| CetusService.OpenPositionIntended | src/services/query.ts:262-322 | corrected: the fixed coin is the caller's chosen coin, with the caller's amount |
| CetusService.OpenPositionIntendedIgnoresPairOrder | src/services/query.ts:261-269 | naming the pair in the other order, with the range inverted and the other coin fixed, opens the same position |
| CetusService.OpenPositionIgnoresPairOrder | src/services/query.ts:261-269 | as written, the same holds with the same flag |
| CetusService.SlippagePercent | src/services/query.ts:396 | `new BN(slippage * 100)` keeps the integer part of the percentage, truncated toward zero |
| CetusService.SubPercentSlippageIsDropped | src/services/query.ts:396 | a slippage of 0.005 is passed as 0 percent and 0.0125 as 1 percent |
| CetusService.RemovePositionWithLiquidity | src/services/query.ts:351-423 | rejects with "Position not found" iff the position is missing; otherwise removes the estimated liquidity from the position in the pool's own coin order, with minimums from the slippage adjustment, at the truncated percentage, of the scaled fixed amount and the estimate, and collects fees |
| CetusService.MissingPositionReadsNoPool | src/services/query.ts:361-365 | a missing position is reported whatever the pool lookup would return |
| CetusService.SwapToken | src/services/query.ts:425-529 | "No router found" without a route; "Out amount is less than out_min_amount" below the minimum; "No coins found" iff the guards pass, the input is not SUI and the wallet has no such coin; passing the guards with SUI or with coins in the wallet submits the swap; a submitted swap follows the route with the caller's slippage to the wallet, splits SUI off the gas coin, and otherwise merges every listed coin into the first |
| CetusService.QueryService.Initialize | src/services/query.ts:19-45 | records the wallet, node URL and network; fails with "Cetus is not supported on <network> network" unless the network is mainnet or testnet, and only then installs the clients with the wallet as sender; afterwards every transaction has a link |
| CetusService.QueryService.GetTransactionLink | src/services/query.ts:83-93 | a link exists iff the network is mainnet, testnet, devnet or localnet: the suivision page of the mainnet, testnet or devnet explorer, or "localhost : " followed by the digest |
| CetusService.QueryService.LinksIdentifyTransactions | src/services/query.ts:83-93 | distinct digests get distinct links |

## Findings

| source | as written | input that shows it | evidently intended | confidence | as-written member | corrected member |
|---|---|---|---|---|---|---|
| src/services/query.ts:140-211 | when the pair is exchanged into canonical order, the prices are inverted but `isFixedCoinA` is not flipped | `coinTypeA = X`, `coinTypeB = Y` with `isSortedSymbols(X, Y)` true, `isFixedCoinA = true`, `amount = 100`: the pool is created with 100 of Y fixed | the flag stays with the coin the caller named as coin A, as the inverted prices stay with the caller's coins; both versions obey the reordering law, the code as written with the same flag and the corrected one with the flag flipped | low, not executed | CetusService.CreatePool, CetusService.CreatePoolFixesTheOtherCoin | CetusService.CreatePoolIntended, CetusService.CreatePoolIntendedIgnoresPairOrder |
| src/services/query.ts:262-322 | the same exchange in `openPositionWithLiquidity` leaves `isFixedCoinA` unchanged | the same pair and flag with a pool found: the position is opened with the amount fixed on Y | the flag stays with the coin the caller named as coin A, as the inverted range does | low, not executed | CetusService.OpenPositionWithLiquidity, CetusService.OpenPositionFixesTheOtherCoin | CetusService.OpenPositionIntended, CetusService.OpenPositionIntendedIgnoresPairOrder |

## Left out

- The SDK's tick maths, liquidity estimate, slippage adjustment and token metadata are uninterpreted functions of `Clients`. So are the ledger's pool, position, route and coin queries, and signing. Their results are not modelled, and their failures (which reject the promise) are not modelled either.
- `getAmount` (a decimal amount times 10^decimals, through floating point and `BigInt`) is the uninterpreted `getAmount` of `Clients`. Floating-point rounding and `BN.toNumber` precision are not modelled.
- Address normalisation before `isSortedSymbols` is folded into the uninterpreted `isSortedSymbols`.
- CetusService.CreatePool: requires a non-zero initial price. JavaScript would pass `Infinity` to the SDK for `1 / 0`.
- CetusService.OpenPositionWithLiquidity: requires non-zero lower and upper prices, for the same reason.
- The `getCoins` page limit of 30 is passed on. Coins beyond the first page are not modelled.
- Amounts typed `number | string` are integers in the model. Parsing a string amount into `BN` is not modelled.
- Logging (`elizaLogger`, `console`), the `AbortSignal` and the HTTP transport are left out. The transport is a parameter of `RunQuery`, and an abort arrives as its `AbortError` rejection.
- QueryResults.RunQuery: one `typeErrorMessage` stands for every engine TypeError text. In the source the text differs by where the TypeError is thrown: `Object.keys(null)`, reading a key of undefined, or destructuring null.
- QueryResults.Caught: same as for `RunQuery`, one `typeErrorMessage` for every engine TypeError.
- CetusService.QueryService.Initialize: the `SuiClient` calls (coin listing and signing) are bundled into `Clients`, so after a refused network they stay with the old clients. The source has already replaced the `SuiClient` and the wallet at that point. The model records only the new wallet and node URL.
- Object keys are kept in the engine's enumeration order and assumed distinct. Properties inherited from prototypes are not modelled.
- `toLowerCase` and `toUpperCase` map only ASCII letters.
- Numbers are exact reals. NaN, infinities and `-0` are not modelled.
- `SaveQuerySchema.parse` is modelled only by its outcome: it fails exactly when the present fields are not strings. The printed form of its error is a parameter.
- The helper getters (`getTokenMetadata`, `getAddress`, `getNetwork`, `checkPoolExists`, `getPool`) are direct calls into `Clients` and have no model of their own.
- The other actions, the chain registry, chart and authentication services, and the query-running action that calls `runQuery` are not part of this model.
