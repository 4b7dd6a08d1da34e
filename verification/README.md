# MegaBridge price table and quote engine, in Dafny

MegaBridge quotes cross-chain transfers into MegaETH. Its only logic with any
real content is the price-table and quote engine:

- `fetchPrices` builds a table of USD prices from several unreliable feeds,
  fills in constants for whatever is missing, and caches the table for ten
  seconds;
- `calculateQuote` turns an amount of a source token into an amount of a
  target token, less 50 bps slippage and a 0.1 % fee.

The engine exists in three revisions, and each is modelled as its own module.

- **server/routes.ts** is the Express server:
  - `ServerPrices`: the merge of CoinGecko majors, then Codex MegaETH token
    prices, then a separate HYPE price, over the seed `{ xDAI: 1 }`. Then come
    two fallback passes and the cache.
  - `ServerQuote`: `calculateQuote`, covering any source to any target, with
    upper-cased symbols and 2 or 9 decimals.
  - `ServerRoutes`: the `/api/quote`, `/api/prices`, `/api/bridge` and admin
    fulfil/reject handlers.
- **api/quote.ts** is the serverless quote endpoint (`ApiQuote`):
  - the source token comes from the chain id;
  - it always quotes into ETH, at 6 decimals;
  - when the majors request fails it serves the previous cache entry, however
    old.
- **api/prices.ts** is the serverless prices endpoint (`ApiPrices`). When the
  majors request fails it serves a fixed table and never looks at the cache.

Shared modules:

- `Common`: Option, `||` defaulting, and ASCII case mapping.
- `PriceTable`: symbols, tables, JavaScript truthiness of a price, and the
  fallback pass, both line by line and as a whole.
- `PriceCache`: the cache entry and its freshness.
- `CoinGecko`: the majors basket and the HYPE overwrite.
- `QuoteMath`: the conversion, the deductions and the quote record.
- `Http`: responses and status codes.

`Revisions` states where the three revisions agree and where they differ.

Modelling choices:

- **Tables.** A table is a `map<Symbol, real>`. A price is "truthy", the
  test `if (!prices.X)` makes, when it is present and non-zero. Adapter
  values are JSON numbers, so NaN cannot occur.
- **Amounts.** `parseFloat` becomes an `Option<real>`, with None for NaN.
- **Rendering.** `toFixed(d)` stays symbolic, as `Fixed(value, d)`.
- **Feeds.** Every network result is a parameter: the `simple/price` body,
  whether `CODEX_API_KEY` is set, the Codex `getTokenPrices` list, and the
  HYPE price. Each is None when its request failed.
- **Clock.** The clock is read twice, once for the freshness test and once
  when the new entry is stored. Both readings are parameters, `now` and
  `doneAt`.
- **Cache.** The module-level cache is passed in and handed back in a
  `Served(value, cache)` pair.
- **Cache invariant.** Each revision's cache only ever holds tables that the
  revision itself built, and they are complete. This invariant,
  `CacheInvariant`, is a precondition of the handlers, and `FetchPrices`
  proves that it is preserved.

## Model

| member | source | states |
|---|---|---|
| Common.OrDefault | server/routes.ts:214-215 | JavaScript's string default: a present, non-empty value is kept, and a missing or empty one gives way to the default |
| Common.UpperFixesUpper | server/routes.ts:214-215 | `toUpperCase` leaves no lower-case letter, and changes a string exactly when it has one |
| PriceTable.FromName | server/routes.ts:218-219 | a key string denotes the symbol whose name it is; unnamed strings become `Other` |
| PriceTable.NameRoundTrip | server/routes.ts:218-219 | key strings and canonical symbols correspond one to one, in both directions |
| PriceTable.FillOneElsewhere | server/routes.ts:176 | one fallback line writes its own symbol and leaves every other entry and every other guard as it was |
| PriceTable.FillLines | server/routes.ts:172-198 | fallback lines run in order: every listed symbol keeps its value when the guard accepts it, else gets its constant; others are unchanged |
| PriceTable.Fill | server/routes.ts:172-198 | the fallback pass as a whole: same keys plus the constants' symbols, each guarded symbol kept or replaced, the rest untouched |
| PriceTable.FillKeys | server/routes.ts:172-198 | unfolding helper for key-set reasoning: a pass adds exactly the symbols of its lines |
| PriceTable.FillLinesIsFill | server/routes.ts:172-198 | running the lines one by one, in any order that lists each constant once or more, equals the pass as a whole |
| PriceTable.FillEstablishesGuard | server/routes.ts:186-198 | when every constant satisfies the guard, every guarded symbol satisfies it after the pass |
| CoinGecko.MajorsUpdateKeys | server/routes.ts:100-108 | unfolding helper for the merge lemmas: the majors loop writes exactly the basket symbols whose `usd` field is truthy, each with that value |
| CoinGecko.WithHypeElsewhere | server/routes.ts:160-166 | the HYPE overwrite touches no other symbol |
| QuoteMath.Deduct | server/routes.ts:236-238 | slippage is gross·50/10000 and the fee gross·0.1/100; net is gross·0.994, the three add up to gross, and a positive gross gives 0 < net < gross |
| QuoteMath.Convert | server/routes.ts:226 | the converted amount times the target price equals the amount times the source price (USD equivalence) |
| ServerPrices.Find | server/routes.ts:138 | `find` gives the first entry whose address equals the token's up to case, or None exactly when no entry matches |
| ServerPrices.CodexUpdateKeys | server/routes.ts:137-145 | unfolding helper for the merge lemmas: the Codex loop writes exactly the MegaETH tokens with a truthy price in their first matching entry |
| ServerPrices.AfterMajorsFacts | server/routes.ts:84-108 | after the majors, the table holds xDAI = 1 plus exactly the truthy basket prices |
| ServerPrices.AfterCodexFacts | server/routes.ts:113-152 | Codex adds exactly the MegaETH tokens with a truthy Codex price, and only with an API key and a successful request |
| ServerPrices.MergeFixed | server/routes.ts:84-169 | after the merge xDAI is still 1, CRO and MNT are absent, and HYPE is set exactly when the HYPE result is truthy |
| ServerPrices.MergeFetched | server/routes.ts:84-169 | after the merge each basket symbol holds its truthy majors value, if any, and each MegaETH token its Codex price, if any |
| ServerPrices.MergeKeys | server/routes.ts:84-169 | the merged table lies within the fourteen symbols and holds xDAI |
| ServerPrices.FallbackListsCovered | server/routes.ts:172-198 | the source order of each fallback block lists exactly the symbols of its constants |
| ServerPrices.FallbackPassesLineByLine | server/routes.ts:171-198 | the two passes as wholes equal the fallback statements executed in any order that lists each block's symbols |
| ServerPrices.FallbackPassesInSourceOrder | server/routes.ts:171-198 | the two passes as wholes equal the fallback statements executed in the order the source writes them |
| ServerPrices.PassesFacts | server/routes.ts:171-198 | after both passes each basket/extra symbol is its truthy value or its constant, each MegaETH token its positive value or its constant, and xDAI is unchanged |
| ServerPrices.PassesKeysExact | server/routes.ts:171-198 | the passes complete any table within the symbols that holds xDAI to exactly the fourteen symbols |
| ServerPrices.RefreshedKeys | server/routes.ts:84-198 | a refreshed table holds exactly the fourteen symbols |
| ServerPrices.RefreshedFixed | server/routes.ts:84-183 | a refreshed table has xDAI 1, CRO 0.1, MNT 0.8 and HYPE at its truthy fetched price or 25 |
| ServerPrices.RefreshedBasket | server/routes.ts:100-180 | a refreshed table gives each basket symbol its truthy majors price or its constant |
| ServerPrices.RefreshedTokens | server/routes.ts:133-198 | a refreshed table gives each MegaETH token its positive Codex price or its constant |
| ServerPrices.Refresh | server/routes.ts:75-198 | a refresh is the merge followed by both passes, with exactly the fourteen symbols and each symbol's price given by the independent reference functions |
| ServerPrices.ConstantsAcceptable | server/routes.ts:172-198 | every fallback constant passes its own block's guard |
| ServerPrices.PassesComplete | server/routes.ts:171-198 | after both passes every basket/extra symbol is truthy and every MegaETH token is strictly positive, whatever the merge produced |
| ServerPrices.RefreshComplete | server/routes.ts:84-198 | every refreshed table is complete |
| ServerPrices.FetchPrices | server/routes.ts:70-203 | a fresh cache is returned unchanged; otherwise the refresh is returned and stored with the later clock reading; the result is always complete |
| ServerPrices.CacheServesRefresh | server/routes.ts:70-73 | after a refresh, every call less than ten seconds after it was stored returns the same table and leaves the cache alone, whatever the feeds then say |
| ServerQuote.TokenName | server/routes.ts:214-215 | a normalised name is the request's name up to case (ETH when it is missing or empty), has no lower-case letter, and leaves an upper-case name as it was |
| ServerQuote.TokenNameIdempotent | server/routes.ts:214-215 | normalising twice is normalising once |
| ServerQuote.Lookup | server/routes.ts:218-219 | the corrected lookup agrees with the verbatim key lookup on every name except `XDAI` |
| ServerQuote.PriceUsed | server/routes.ts:218-219 | the price a symbol is quoted at: never zero, its own entry when that is truthy, otherwise the ETH price |
| ServerQuote.QuoteFromTable | server/routes.ts:213-257 | the quote as written: tokens are the normalised names; the output, fee and slippage share one precision, 2 exactly when the output exceeds 100 and otherwise 9 |
| ServerQuote.QuoteConservesValue | server/routes.ts:226-251 | the output is worth 99.4 % of the input at the prices used; output, fee and slippage add up to the converted amount; slippage is five times the fee |
| ServerQuote.QuoteReportsPrices | server/routes.ts:252-256 | the `prices` field holds exactly the source, target and ETH prices used, under their names |
| ServerQuote.SameTokenKeepsAmount | server/routes.ts:226 | quoting a token into itself gives the amount less 0.6 %, at exchange rate 1 |
| ServerQuote.QuoteScales | server/routes.ts:226-238 | the output is linear in the amount |
| ServerQuote.RoundTrip | server/routes.ts:226-238 | quoting the output back to the source returns the amount times 0.994² |
| ServerQuote.UpperCasedNames | server/routes.ts:214-219 | upper-casing leaves every symbol name except `xDAI`, which becomes `XDAI` |
| ServerQuote.XDaiPricedAsEth | server/routes.ts:214-219 | as written, a request for xDAI in any spelling is priced at the ETH price |
| ServerQuote.XDaiCounterexample | server/routes.ts:214-219 | as written, after a failed majors request one xDAI is quoted as worth 3000 USD while the table says 1 |
| ServerQuote.XDaiQuotedAsEth | server/routes.ts:214-233 | as written, a quote from `xDAI` against a refreshed table values the deposit at the ETH price |
| ServerQuote.XDaiQuoteCounterexample | server/routes.ts:214-233 | as written, after a failed majors request a quote from one xDAI is valued at 3000 USD |
| ServerQuote.LookupFindsEverySpelling | server/routes.ts:214-219 | with the corrected lookup every spelling of a symbol's name reaches that symbol and its own price |
| ServerQuote.CorrectedQuoteFromTable | server/routes.ts:213-238 | the corrected quote values the deposit at the price the corrected lookup finds, and the output times the target price is 99.4 % of that value |
| ServerQuote.CorrectionOnlyTouchesXDai | server/routes.ts:214-219 | the correction changes no quote whose names are not `XDAI` |
| ServerQuote.CorrectedQuotePricesXDai | server/routes.ts:214-219 | corrected, a quote from xDAI in any spelling against a refreshed table values each xDAI at 1 USD |
| ServerQuote.CalculateQuote | server/routes.ts:205-258 | null exactly for an amount that is NaN or not positive, without touching the cache; otherwise the quote against `fetchPrices`' table |
| ServerRoutes.ChainTokenNames | server/routes.ts:39-65 | the chain table names only the eleven token names |
| ServerRoutes.ChainTokensArePriced | server/routes.ts:39-65 | every token the chain table names is a symbol of every refreshed table |
| ServerRoutes.QuoteRoute | server/routes.ts:265-281 | 400 "Amount is required" for a missing amount, 400 "Invalid amount" for a rejected one, otherwise 200 with the quote |
| ServerRoutes.TargetDefaultNormalises | server/routes.ts:274 | the handler's own default of ETH for a missing target changes no quote |
| ServerRoutes.QuoteIgnoresChainId | server/routes.ts:272-274 | the chain id of a quote request does not affect the answer |
| ServerRoutes.PricesRoute | server/routes.ts:283-290 | always 200 with a complete table; the 500 branch cannot be taken |
| ServerRoutes.SourceChain | server/routes.ts:300 | the source chain defaults to 8453 for a missing or zero id, keeps any other, and is never 0 |
| ServerRoutes.BridgeRoute | server/routes.ts:292-315 | 400 "Depositor and amount are required" without a depositor or amount, 400 "Invalid amount" for an amount the quote rejects, the cache untouched in both; otherwise the record with the lower-cased depositor, the ETH-to-ETH quote's rendered output as `quotedMegaAmount`, "pending", 50 bps, destination 4326, source chain defaulting to 8453, and the hash or null |
| ServerRoutes.BridgePromisesDepositLessFees | server/routes.ts:300-309 | the promised MegaETH amount is the deposit times 0.994, whatever the source chain |
| ServerRoutes.AdminResponse | server/routes.ts:358-362 | 404 "Transaction not found" exactly when the store returns nothing, else 200 with its record |
| ServerRoutes.AdminRoute | server/routes.ts:347-385 | fulfil asks the store to mark transaction `id` completed with the given hash, reject to mark it rejected with none; 200 with the updated record when the store returns one, 404 "Transaction not found" exactly when it returns nothing |
| ServerRoutes.UnknownTransactionNotFound | server/routes.ts:347-385 | a transaction the store does not hold gets 404 from both admin routes, whatever hash fulfil carries |
| ServerRoutes.AdminRoutesAgreeOnRecord | server/routes.ts:347-385 | for a transaction the store holds, both routes succeed, and the two requests address the same id, differing only in status and hash |
| ApiQuote.FallbackTableIsConstants | api/quote.ts:87-117 | the failure table is the fallback lines plus xDAI at 1 |
| ApiQuote.FallbackTableComplete | api/quote.ts:106-117 | the failure table holds the ten symbols, all truthy, with xDAI 1 |
| ApiQuote.MajorsFacts | api/quote.ts:64-70 | after the majors loop each basket symbol is set exactly when its `usd` is truthy |
| ApiQuote.MergeKeys | api/quote.ts:64-85 | the merged table holds only xDAI, HYPE and basket symbols |
| ApiQuote.MergeSeed | api/quote.ts:64-85 | after the merge xDAI is 1 and CRO and MNT are absent |
| ApiQuote.MergeHype | api/quote.ts:72-85 | HYPE is set exactly when the HYPE request returned a truthy price; a failed HYPE request does not abort the refresh |
| ApiQuote.MergeFetched | api/quote.ts:64-85 | the HYPE step leaves the basket prices as the majors loop set them |
| ApiQuote.RefreshedKeys | api/quote.ts:64-95 | a refreshed table holds exactly the ten symbols |
| ApiQuote.RefreshedSeed | api/quote.ts:64-95 | a refreshed table has xDAI 1 |
| ApiQuote.RefreshedLines | api/quote.ts:64-95 | each fallback symbol holds its truthy fetched price or its constant |
| ApiQuote.Refresh | api/quote.ts:64-95 | a successful refresh: the ten symbols, xDAI 1, every other symbol its truthy fetched price or its constant |
| ApiQuote.RefreshComplete | api/quote.ts:64-95 | every refreshed table is complete |
| ApiQuote.FetchPrices | api/quote.ts:32-119 | fresh: the cache unchanged; majors ok: the refresh, stored; majors failed: the cached table however old, else the fallback table, the cache untouched |
| ApiQuote.CacheServesRefresh | api/quote.ts:32-35 | after a successful refresh, every call less than ten seconds after it was stored returns the same table and leaves the cache alone, whatever the price sources then say |
| ApiQuote.SourceToken | api/quote.ts:127 | the source token is the chain table's entry for a known id and ETH for NaN or an unknown id, always one of the ten symbols |
| ApiQuote.ChainTokensListed | api/quote.ts:6-27 | the chain table maps only to the ten symbols |
| ApiQuote.QuoteFromTable | api/quote.ts:140-156 | output token ETH at 6 decimals; exchange rate `'1'` exactly when the source is ETH, otherwise source/ETH at 6 decimals; `prices` holds source and ETH |
| ApiQuote.QuoteConservesValue | api/quote.ts:133-138 | the output is worth 99.4 % of the input in ETH; output, fee and slippage add up to the ETH equivalent |
| ApiQuote.CalculateQuote | api/quote.ts:121-157 | null exactly for an amount that is NaN or not positive, without touching the cache; otherwise the quote against `fetchPrices`' table |
| ApiQuote.Handle | api/quote.ts:159-182 | OPTIONS: empty 200; missing amount: 400 "Amount is required"; rejected amount: 400 "Invalid amount"; otherwise 200 with the quote, from ETH when the chain id is missing or not a number |
| ApiPrices.FallbackTableIsConstants | api/prices.ts:46-72 | the failure table is the fallback lines plus xDAI at 1 |
| ApiPrices.FallbackTableComplete | api/prices.ts:61-72 | the failure table holds the ten symbols, all non-zero, with xDAI 1 |
| ApiPrices.SeededKeys | api/prices.ts:38-44 | the seeded table holds xDAI = 1 and otherwise only basket symbols |
| ApiPrices.SeededMajors | api/prices.ts:38-44 | each basket symbol is set exactly when its `usd` is truthy |
| ApiPrices.RefreshedKeys | api/prices.ts:38-54 | a refreshed table holds exactly the ten symbols, with xDAI 1 |
| ApiPrices.RefreshedLines | api/prices.ts:38-54 | each fallback symbol holds its truthy majors price or its constant |
| ApiPrices.Refresh | api/prices.ts:38-54 | a successful refresh: the ten symbols, xDAI 1, every other symbol its truthy majors price or its constant |
| ApiPrices.RefreshedPriceNonZero | api/prices.ts:46-54 | no refreshed price is zero |
| ApiPrices.RefreshComplete | api/prices.ts:38-54 | every refreshed table has the ten symbols, all non-zero, with xDAI 1 |
| ApiPrices.FetchPrices | api/prices.ts:15-74 | fresh: the cache unchanged; majors ok: the refresh, stored; majors failed: the fallback table, the cache neither read nor written |
| ApiPrices.CacheServesRefresh | api/prices.ts:15-18 | after a successful refresh, every call less than ten seconds after it was stored returns the same table and leaves the cache alone, even if the price source then fails |
| ApiPrices.FailureIgnoresCache | api/prices.ts:58-73 | once the cache is stale, a failed refresh answers the same whatever the cache holds |
| ApiPrices.Handle | api/prices.ts:76-91 | OPTIONS: empty 200; otherwise 200 with a complete table; the 500 branch cannot be taken |
| Revisions.ServerlessConstantsAgree | api/quote.ts:87-117 | the two serverless revisions share fallback lines, fallback table and symbol set |
| Revisions.FallbackConstantsDiffer | server/routes.ts:172-183 | the server's fallback lines cover the same nine symbols and differ exactly in ETH (3000 against 3500) and SOL (150 against 180) |
| Revisions.PricesRefreshIsQuoteRefreshWithoutHype | api/prices.ts:38-54 | a prices-endpoint refresh equals a quote-endpoint refresh whose HYPE request failed |
| Revisions.StaleOnFailureOnlyInQuote | api/quote.ts:99-118 | with a stale entry and a failed majors request, the quote endpoint serves the stale table and the prices endpoint the fallback table |
| Revisions.ColdFailureAgrees | api/prices.ts:58-73 | with no cache, both serverless revisions answer a failed majors request with the same table |
| Revisions.OutputPrecisionDiffers | server/routes.ts:244-249 | the server never renders the output at 6 decimals; the serverless quote always does |
| Revisions.EthQuotesAgree | api/quote.ts:133-138 | from ETH into ETH the server and serverless quotes deliver the same amount |

## Findings

| source | as written | input that shows it | evidently intended | confidence | as-written member | corrected member |
|---|---|---|---|---|---|---|
| server/routes.ts:214-219 | the requested symbol is upper-cased before `prices[sourceToken]`, but the table key is the mixed-case `xDAI`, so `XDAI` misses and falls back to the ETH price | `inputToken=xDAI` with the majors request failed: ETH is 3000, so one xDAI is quoted as 3000 USD instead of 1 | every symbol of the table, xDAI included, is reached by every spelling of its name | not executed | ServerQuote.XDaiQuoteCounterexample | ServerQuote.CorrectedQuotePricesXDai |

`ServerQuote.QuoteFromTable`, and with it every server handler, prices
symbols as the code does, by the verbatim key lookup `LookupAsWritten`. The
corrected lookup `ServerQuote.Lookup` and the quote built on it,
`ServerQuote.CorrectedQuoteFromTable`, sit beside it;
`ServerQuote.CorrectionOnlyTouchesXDai` shows that they differ only for
requests naming xDAI.

Behaviour worth noting:

- **Merge order.** The server merges majors, then Codex, then the single HYPE
  price, so HYPE overwrites last.
- **Bad values after the merge.** The first fallback block of every revision
  replaces only falsy prices, i.e. missing or zero. A negative fetched price
  survives, so a quote's prices are guaranteed non-zero, not positive. Only
  the MegaETH-token block of the server also replaces values ≤ 0.
- **Stale data on failure.** Only api/quote.ts serves a stale entry on
  failure. api/prices.ts returns its fallback table and ignores the cache.
  The server cannot fail at all, because every adapter catches its own error.
- **Precision.** The server renders 2 decimals above 100 and 9 otherwise.
  api/quote.ts always renders 6.

Two smaller observations:

- **The chain id is ignored.** The server's `calculateQuote` ignores its
  `key` argument, the chain id: `ServerRoutes.QuoteIgnoresChainId`. The
  bridge handler passes the numeric chain id in that position and so always
  quotes ETH into ETH: `ServerRoutes.BridgePromisesDepositLessFees`.
- **Inherited properties.** Upper-cased names cannot reach inherited
  properties of a JavaScript object, because each of those names has a
  lower-case letter. So the model's lookup of an `Other` name missing the
  table matches JavaScript.

## Left out

- Network access, timeouts and logging. Each adapter's outcome is a
  parameter; a request that fails, answers not ok, or whose body cannot be
  read is None.
- The partial Codex update when the loop throws part-way, because an entry's
  address is not a string or its `priceUsd` is not a number. The model takes
  Codex addresses as strings and prices as numbers.
- The majors body being JSON `null`. The model takes that case to be a failed
  request, which is what the serverless revisions' `catch` does with it.
- IEEE-754 arithmetic and the text `toFixed` produces. The model computes in
  exact reals, and a rendered number is its value plus its decimal count.
- `parseFloat` leniency, e.g. accepting `"12abc"`. What it parses is an input,
  `Amount.parsed`.
- Infinite amounts. `"Infinity"` or `"1e400"` parse to Infinity, which passes
  the guard at server/routes.ts:207 and api/quote.ts:123 and gives a quote of
  `"Infinity"`. `Amount.parsed` is a real, so the model cannot express it.
- Non-string `inputToken` or `outputToken` query values, such as the array a
  repeated parameter gives. Upper-casing one throws at server/routes.ts:214-215,
  after `fetchPrices` may already have refreshed the cache, so the request
  gets neither 200 nor 400. `QuoteQuery` holds only strings.
- Unicode case mapping: `Common.ToUpper` and `Common.ToLower` map ASCII
  letters only.
- The transaction store (`storage.*`), its 500 answers and the list
  endpoints that only forward it. The bridge handler is modelled up to the
  record it would store; the admin handlers up to the update they ask for,
  with the store's answer a function parameter of `ServerRoutes.AdminRoute`.
- A JSON number or other non-string `amount` or `depositor` in the bridge
  body. The model takes strings; a non-string depositor makes
  `toLowerCase` throw, which the handler answers with 500.
- Bridge `sourceChainId` values that are not integers. The handler keeps any
  truthy value, such as the string `"137"` or a fraction, and stores it; it
  turns `""` or `false` into 8453. The model takes the id to be an integer or
  missing, so only 0 and a missing id default.
- Bridge `txHash` values that are not strings. The handler stores a number or
  an object as it is. The model takes the hash to be a string or missing.
- The bridge response decoration (`estimatedTime`, `message`) added to the
  stored record.
- The concurrent-refresh race: two stale callers fetching at once is async
  interleaving, and the model is sequential.
- `TOKEN_DECIMALS` in server/routes.ts: no code reads it.
- CORS headers of the serverless handlers: they do not depend on the
  request.
- The Codex log line's `prices.ETH || 3000` (server/routes.ts:141): it only
  feeds a log message.
