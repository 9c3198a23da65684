# finapi core, modelled in Dafny

finapi is a small portfolio tracker written in TypeScript. It keeps a **ledger** per portfolio. The ledger holds one asset record per portfolio, asset and day: the change in holding, the running result, the price and the unit. A daily **reconciler** walks a portfolio's records up to a day, date by date. It keeps a running total per asset. Each record whose stored result disagrees with that total is re-priced through a **price cache**. That cache reads a stored price or asks a market adapter, which a category **router** picks. A second **gateway** layer answers "the value of this asset on this day". It works through a Redis **key-value cache**, an exchange-rate parser and a Yahoo Finance sample selector. A service layer keeps daily **portfolio snapshots**. REST handlers guard the ledger records and the asset list with validation and ownership rules.

The model shows each of these pieces in the form it has in the source:

- Stores (records, prices, assets, snapshots, cache entries) are classes. Their `seq` or `map` fields are changed by methods.
- Each method is proved equal to a specification function over the old state.
- The functions carry the properties the code promises, proved as `ensures` clauses and lemmas.
- MongoDB collections are sequences in natural order:
  - `findOne` and `findById` take the first match;
  - `updateOne(..., { upsert: true })` updates the first match or appends.
- Dates are `yyyy-MM-dd` strings under the lexicographic order `Ordering.LexLe`, which is proved to be a total order.
- Network adapters, `ObjectId.isValid`, `Date.parse`, `Number()` and the clock are function-typed parameters.

| file | module | source |
|---|---|---|
| wrappers.dfy | Wrappers | shared `Option`/`Result`, the thrown values, JavaScript truthiness |
| text.dfy | Text | `replace`, `split`, `slice`, `endsWith`, number rendering |
| ordering.dfy | Ordering | the string order and the stable index sort behind `sort({ date: 1 })` |
| catalog.dfy | Catalog | assets and portfolios, `findById` |
| ledger.dfy | Ledger | the asset-record collection, its query and its upsert |
| price_store.dfy | PriceStore | the `AssetPrice` collection |
| fapi.dfy | Fapi | `src/api/fapi.ts` |
| asset_ctrl.dfy | AssetCtrl | `src/db/asset.ctrl.ts` |
| portfolio_ctrl.dfy | PortfolioCtrl | `src/db/portfolio.ctrl.ts` |
| reconciler_proofs.dfy | ReconcilerProofs | properties of the reconciler |
| asset_price.dfy | AssetPrice | `src/db/assetprice.ts` |
| yf.dfy | YahooFinance | `src/api/yf.ts` |
| cache.dfy | Cache | `src/utils/cache.ts` |
| external_data.dfy | ExternalData | `src/services/external-data/index.ts` |
| external_data_utils.dfy | ExternalDataUtils | `src/services/external-api/external-data.utils.ts` |
| currency_api.dfy | CurrencyApi | `src/services/external-api/currency.ts` |
| asset_service.dfy | AssetService | `src/services/asset.service.ts` |
| portfolio_query.dfy | PortfolioQuery | `src/db/portfolio.query.ts` |
| portfolio_service.dfy | PortfolioService | `src/services/portfolio.service.ts` |
| asset_record_api.dfy | AssetRecordApi | `src/db/assetrecord.api.ts` |
| asset_api.dfy | AssetApi | `src/db/asset.api.ts` |
| timezone.dfy | Timezone | `src/utils/timezone.ts` |

## Model

| member | source | states |
|---|---|---|
| Text.RemoveAll | src/services/external-api/currency.ts:51 | `replace(/c/g, "")`: the result has no `c`, and every character kept is a character of the input |
| Text.RemoveAllConcat | src/services/external-api/currency.ts:69 | removing a character distributes over concatenation |
| Text.RemoveAllIdempotent | src/services/external-api/currency.ts:69 | stripping commas twice is stripping them once |
| Text.SplitWithoutSeparator | src/services/external-api/external-data.utils.ts:29 | a string without `:` splits into itself alone |
| Text.SplitAfterPart | src/services/external-api/external-data.utils.ts:29 | a part without `:`, followed by `:`, splits off as the first field |
| Text.SplitJoin3 | src/services/external-api/external-data.utils.ts:29 | joining four `:`-free parts with `:` and splitting gives the parts back |
| Text.NatToStringValue | src/api/yf.ts:79 | the decimal rendering used in the `nDays[...]` message reads back as the number |
| Ordering.LexLeReflexive | src/db/portfolio.ctrl.ts:29-35 | the date order is reflexive |
| Ordering.LexLeTotal | src/db/portfolio.ctrl.ts:29-35 | any two dates are comparable |
| Ordering.LexLeAntisymmetric | src/db/portfolio.ctrl.ts:29-35 | dates that are each `<=` the other are equal |
| Ordering.LexLeTransitive | src/db/portfolio.ctrl.ts:29-35 | the date order is transitive |
| Ordering.InsertSorted | src/db/portfolio.ctrl.ts:36 | inserting into an index list sorted by key keeps it sorted |
| Ordering.SortIdxSorted | src/db/portfolio.ctrl.ts:36 | `sort({ date: 1 })`: the sorted indices ascend by key |
| Ordering.SortIdxMembers | src/db/portfolio.ctrl.ts:36 | the sort is a permutation: same indices with the same multiplicities, distinct when the input is |
| Ordering.GatherSort | src/db/portfolio.ctrl.ts:36 | gathering by the sorted indices permutes the gathered documents |
| Catalog.FindAsset | src/db/asset.ctrl.ts:66-70 | `findById`: a found asset is stored and has that id; none exactly when no asset has it |
| Catalog.FindPortfolio | src/db/assetrecord.api.ts:46-49 | a found portfolio is stored and has that id; none exactly when no portfolio has it |
| Catalog.FindAssetExact | src/db/asset.ctrl.ts:66 | with unique ids, `findById` finds every stored asset by its own id |
| Ledger.MatchIdx | src/db/portfolio.ctrl.ts:25-35 | exactly the positions whose record has that portfolio and passes the date condition, ascending |
| Ledger.Filter | src/db/portfolio.ctrl.ts:25-35 | the records that match the query filter, in store order |
| Ledger.QueryPermutesFilter | src/db/portfolio.ctrl.ts:36 | `find(qry).sort({ date: 1 })` returns the matching records, each as often as stored |
| Ledger.QueryMembers | src/db/portfolio.ctrl.ts:36 | a record is returned iff it is stored and matches the filter |
| Ledger.QuerySorted | src/db/portfolio.ctrl.ts:36 | the returned records ascend by date |
| Ledger.QueryOrderDistinct | src/db/portfolio.ctrl.ts:36 | the query visits each matching position exactly once |
| Ledger.QueryOrderCongruent | src/db/portfolio.ctrl.ts:36 | the order depends only on the records' portfolio ids and dates, so a pass that rewrites prices and results re-reads the same order |
| Ledger.FirstWithKey | src/db/portfolio.ctrl.ts:13-14 | the first record with the upsert key (portfolio, asset, date), or none iff no record has it |
| Ledger.UpsertRecord | src/db/portfolio.ctrl.ts:12-18 | `updateOne(key, { $set: r }, upsert)` can fail only by rewriting an `_id` or by inserting a second `_id` |
| Ledger.UpsertRecordContract | src/db/portfolio.ctrl.ts:12-18 | on success `r` is stored, either in place of a record with its key and id or appended when the key is new. No record with another key changes; unique keys and unique ids are kept. When the key is free of other ids, the upsert succeeds |
| Ledger.LedgerStore.Find | src/db/portfolio.ctrl.ts:36 | the store's query equals `Query` over the stored records |
| Ledger.LedgerStore.Upsert | src/db/portfolio.ctrl.ts:12-18 | the new store is `UpsertRecord` of the old one, and a failure changes nothing |
| PriceStore.FirstAt | src/db/asset.ctrl.ts:48 | the first price stored for the asset and day; none iff there is none |
| PriceStore.FindPrice | src/db/asset.ctrl.ts:44-53 | `loadAssetPrice`: a found price is stored and is for that asset and day; null iff none is stored |
| PriceStore.UpsertPrice | src/db/asset.ctrl.ts:27-39 | `updateAssetPrice`: afterwards the lookup finds exactly the written price; a hit keeps the length, a miss appends |
| PriceStore.UpsertPriceKeepsOthers | src/db/asset.ctrl.ts:34-38 | an upsert leaves the lookup of every other (asset, day) unchanged |
| PriceStore.UpsertPriceIdempotent | src/db/asset.ctrl.ts:27-39 | repeating the upsert leaves the store as one upsert left it |
| PriceStore.UpsertFoundIsNoop | src/db/asset.ctrl.ts:27-39 | writing the price already stored changes nothing |
| PriceStore.FirstAtAgree | src/db/asset.ctrl.ts:48 | a store that extends another with the same (asset, day) positions finds the same first price |
| PriceStore.Store.LoadAssetPrice | src/db/asset.ctrl.ts:44-53 | returns `FindPrice` of the store |
| PriceStore.Store.UpdateAssetPrice | src/db/asset.ctrl.ts:27-39 | the new store is `UpsertPrice` of the old one |
| Fapi.GetFData | src/api/fapi.ts:4-12 | "crypto" is the crypto adapter's answer and "stock" the stock adapter's; any other category throws `{ code: "Invalid Type" }` |
| Fapi.UnroutedIgnoresFeeds | src/api/fapi.ts:9-11 | an unrouted category gives the same throw whatever the adapters would answer |
| AssetCtrl.AsQuote | src/db/asset.ctrl.ts:20-24 | a quote becomes `{ value, unit: currency }`, a falsy answer null, and a throw stays a throw |
| AssetCtrl.RequestAssetPrice | src/db/asset.ctrl.ts:15-25 | an unrouted category fails with "Invalid Type"; a routed one is `AsQuote` of the adapter's answer |
| AssetCtrl.Resolve | src/db/asset.ctrl.ts:72-85 | it fetches iff forced or the cache misses. A cached hit is returned with no write. A fetched quote is written once and returned. A null fetch returns the cached value, possibly stale, and writes nothing |
| AssetCtrl.LoadNupdateSpec | src/db/asset.ctrl.ts:58-95 | an unknown asset gives null with no read, fetch or write. A known asset is `Resolve` with the answer of `requestAssetPrice` for its category and ticker, so the adapter is asked exactly when forced or when nothing is cached, and a cached hit comes back unchanged. A returned price is for that asset and day and is what the store now holds |
| AssetCtrl.LoadNupdateAssetPrice | src/db/asset.ctrl.ts:58-95 | the method's result and new store equal `LoadNupdateSpec`: null for an unknown asset, the cached price unless forced or missing, and otherwise the fetched quote, written back |
| AssetCtrl.LookupSettles | src/db/asset.ctrl.ts:72-73 | after a lookup that returned a price, an unforced repeat returns it from the cache with no fetch or write, whatever the adapters now say |
| AssetCtrl.LookupWritesOnlyTarget | src/db/asset.ctrl.ts:84 | a lookup changes the price of no other (asset, day) |
| AssetCtrl.UnroutedAssetYieldsNull | src/db/asset.ctrl.ts:86-92 | an asset whose category the router rejects gets null and nothing is written when the call is forced or nothing is cached, because the catch swallows the "Invalid Type" throw |
| PortfolioCtrl.ConditionFilter | src/db/portfolio.ctrl.ts:29-35 | "lte" gives `<= date`, "gte" gives `>= date`, and every other condition gives `== date` |
| PortfolioCtrl.LoadPortfolioAssetRecords | src/db/portfolio.ctrl.ts:20-41 | returns `Query` of the ledger with the condition's filter |
| PortfolioCtrl.Applied | src/db/portfolio.ctrl.ts:70-80 | a priced record gets the new price, unit and running total; otherwise its fields are kept. Its id, key, change and memo never change |
| PortfolioCtrl.AbortedIsFinal | src/db/portfolio.ctrl.ts:51-87 | once a pass aborts on a throw, later records are not processed |
| PortfolioCtrl.ReconcileSpec | src/db/portfolio.ctrl.ts:53-60 | a pass with no records on or before the day is `NoRecords` and changes nothing; otherwise it traces at most one action per loaded record |
| PortfolioCtrl.TraceLength | src/db/portfolio.ctrl.ts:64-82 | a pass traces one action per record until it aborts |
| PortfolioCtrl.TotalStep | src/db/portfolio.ctrl.ts:66 | an asset's running total grows by the record's change, and only for records of that asset |
| PortfolioCtrl.TotalsAdvance | src/db/portfolio.ctrl.ts:63-67 | the `totalAssets` map holds, per asset, the sum of the changes so far (0 if none), and each asset is independent of the others |
| PortfolioCtrl.ReconcileRecord | src/db/portfolio.ctrl.ts:68-81 | one record's step equals the specification `Step`. A matching result skips the lookup and the write. A mismatch looks the price up at `strDate` and writes the record back either way |
| PortfolioCtrl.StepAppends | src/db/portfolio.ctrl.ts:64-82 | a step only appends to the trace |
| PortfolioCtrl.PrefixAdvance | src/db/portfolio.ctrl.ts:64-82 | the loop after k+1 records is the loop after k records plus the next step |
| PortfolioCtrl.UpdatePortfolioForDate | src/db/portfolio.ctrl.ts:44-88 | the method's ledger, prices, trace and outcome equal `ReconcileSpec` |
| PortfolioCtrl.RunAll | src/db/portfolio.ctrl.ts:91-102 | there is one outcome per portfolio, in list order |
| PortfolioCtrl.UpdatePortfolioAll | src/db/portfolio.ctrl.ts:91-102 | the method equals `RunAll`: every portfolio is processed in order whatever the earlier ones did |
| PortfolioCtrl.CronUpdatePortfolioAll | src/db/portfolio.ctrl.ts:105-112 | the cron entry point is `RunAll` with `force = true` |
| ReconcilerProofs.SkeletonKeepsUniqueness | src/db/portfolio.ctrl.ts:70-80 | rewriting prices, units and results keeps ids and keys unique |
| ReconcilerProofs.StepShape | src/db/portfolio.ctrl.ts:68-81 | a step rewrites only the record it processes, in place |
| ReconcilerProofs.ReflectsStep | src/db/portfolio.ctrl.ts:64-82 | after k steps the ledger holds the k processed records as `Applied` and the rest as loaded |
| ReconcilerProofs.TraceMeansStep | src/db/portfolio.ctrl.ts:68-69 | an action is `Skip` iff the stored result equals the running total; a refresh is priced for that asset on `strDate` |
| ReconcilerProofs.StepKeepsInv | src/db/portfolio.ctrl.ts:64-82 | one step keeps the pass invariant |
| ReconcilerProofs.RunKeepsInv | src/db/portfolio.ctrl.ts:64-82 | the pass invariant holds after every prefix of the loop |
| ReconcilerProofs.PassWalk | src/db/portfolio.ctrl.ts:53-57 | the loaded records are the stored ones at distinct positions, in query order |
| ReconcilerProofs.RunInvariant | src/db/portfolio.ctrl.ts:51-87 | the invariant holds for the whole pass |
| ReconcilerProofs.TotalCongruent | src/db/portfolio.ctrl.ts:66 | running totals depend only on asset ids and changes |
| ReconcilerProofs.HoldingCongruent | src/db/portfolio.ctrl.ts:66 | a record's running total depends only on the asset ids and changes of the records before it |
| ReconcilerProofs.PassTouchesOnlyItsRecords | src/db/portfolio.ctrl.ts:53-82 | a pass keeps every record's id, key, change and memo, and leaves records of other portfolios or later days untouched |
| ReconcilerProofs.PassNeverAbortsOnUniqueKeys | src/db/portfolio.ctrl.ts:80 | with unique ids and keys, no upsert of a pass fails |
| ReconcilerProofs.CompletedPassReconciles | src/db/portfolio.ctrl.ts:63-81 | after a completed pass, each loaded record was skipped iff its stored result equalled its running total, and then is unchanged. A refreshed one holds the price and unit looked up for that asset on `strDate` and the running total. One whose lookup was null is unchanged |
| ReconcilerProofs.QuietRun | src/db/portfolio.ctrl.ts:68 | when every stored result equals its running total, the loop only skips |
| ReconcilerProofs.Reload | src/db/portfolio.ctrl.ts:53-57 | a second load after a pass reads the same positions in the same order, with the same running totals |
| ReconcilerProofs.SecondPassLoads | src/db/portfolio.ctrl.ts:53-57 | after a completed pass, the ledger's reload is the updated records |
| ReconcilerProofs.SecondPassIsQuiet | src/db/portfolio.ctrl.ts:66-81 | if every lookup of a pass succeeded, a second pass for the same day makes no lookup and no write, with any adapters and any `force` |
| ReconcilerProofs.NoPriceIsRetried | src/db/portfolio.ctrl.ts:77-80 | a record whose lookup was null stays mismatched, so the next pass looks it up again |
| ReconcilerProofs.StepPricesOnlyOnDate | src/db/portfolio.ctrl.ts:50 | a step writes prices only for `strDate` |
| ReconcilerProofs.RunPricesOnlyOnDate | src/db/portfolio.ctrl.ts:69 | a run of steps writes prices only for `strDate` |
| ReconcilerProofs.PassPricesOnlyOnDate | src/db/portfolio.ctrl.ts:50 | a whole pass leaves the prices of every other day unchanged, whatever the records' own dates |
| ReconcilerProofs.RunAllTouchesOnlyListed | src/db/portfolio.ctrl.ts:91-102 | running all portfolios leaves the records of unlisted portfolios unchanged and keeps every record's skeleton |
| AssetPrice.LoadNupdateBySymbol | src/db/assetprice.ts:37-71 | an unknown asset gives null with no fetch; a known one fetches by its `symbol` iff forced or the cache misses, and otherwise returns the cached price; a fetched quote is returned and upserted as `{ value, unit: currency }`, a falsy answer returns the cache unchanged, a throw gives null with no write; a returned price is what the store holds |
| AssetPrice.BySymbolAgrees | src/db/assetprice.ts:53 | when the symbol feed answers as the router does, this variant equals the one of `asset.ctrl.ts` |
| AssetPrice.LoadNupdateAssetPriceBySymbol | src/db/assetprice.ts:37-71 | result and new store equal `LoadNupdateBySymbol`: the symbol fetch's quote is what is returned and stored |
| AssetPrice.RangeIdx | src/db/assetprice.ts:89-92 | exactly the stored prices of the asset with `startDate <= date < endDate` |
| AssetPrice.FindExisting | src/db/assetprice.ts:96 | `dbData.find(d => d.date === item.date)`: the first read price of that day, or none iff there is none |
| AssetPrice.RangeStep | src/db/assetprice.ts:96-111 | an item overwrites value and unit only when the value differs, and inserts when the day was not read; no stored asset or date changes |
| AssetPrice.RangeRun | src/db/assetprice.ts:95-112 | the loop never removes a price |
| AssetPrice.RangeSpec | src/db/assetprice.ts:76-114 | an unknown asset gives null and writes nothing; a failed fetch writes nothing; a success returns one element per price read before the loop |
| AssetPrice.ApplyItem | src/db/assetprice.ts:96-111 | one loop iteration equals `RangeStep` |
| AssetPrice.UpdateAssetPriceRange | src/db/assetprice.ts:76-114 | the method's result and new store equal `RangeSpec` |
| AssetPrice.RunKeepsSkeleton | src/db/assetprice.ts:95-112 | the loop keeps every stored price's asset and day |
| AssetPrice.RangeReturnsReadSet | src/db/assetprice.ts:113 | the result is the pre-read prices with their updates applied; inserted ones are not included |
| AssetPrice.DuplicateDaysBothInsert | src/db/assetprice.ts:89 | for any store and read set lacking a day, two fetched items for that day are both appended, because the read set is not refreshed |
| AssetPrice.QuietBackfill | src/db/assetprice.ts:96-102 | when every fetched value is already stored for its day, the loop writes nothing |
| AssetPrice.BackfillRun | src/db/assetprice.ts:95-112 | after k items of a fetch with distinct in-range days, each of those days holds its fetched value |
| AssetPrice.SettledAfterRun | src/db/assetprice.ts:89-112 | after the loop, a fresh read finds every fetched day with its fetched value |
| AssetPrice.SecondBackfillIsQuiet | src/db/assetprice.ts:96-111 | when the fetch has distinct in-range days, repeating the backfill with the same fetched data writes nothing |
| YahooFinance.FirstSuffix | src/api/yf.ts:23-28 | the first table entry, in table order, whose suffix ends the symbol; none iff no entry matches |
| YahooFinance.TickerCurrency | src/api/yf.ts:7-30 | the first suffix in table order that the symbol ends with gives its currency; a symbol that matches no suffix is "USD" |
| YahooFinance.FirstMatchIsFound | src/api/yf.ts:23-28 | the scan stops at the first table entry whose suffix ends the symbol |
| YahooFinance.GetTickerCurrency | src/api/yf.ts:7-30 | the loop with `break` returns `TickerCurrency`: the first matching suffix's currency, else "USD" |
| YahooFinance.NoSuffixMeansUsd | src/api/yf.ts:8 | a symbol ending in a character no suffix ends with is "USD" |
| YahooFinance.KospiTickerIsKrw | src/api/yf.ts:12 | "005930.KS" is "KRW" |
| YahooFinance.PlainTickerIsUsd | src/api/yf.ts:8 | "AAPL" is "USD" |
| YahooFinance.CeilDiv | src/api/yf.ts:77 | `Math.ceil(a / b)` for whole seconds: the least q with a <= q·b |
| YahooFinance.LookBack | src/api/yf.ts:71-85 | no date gives 7 days and target 0. A date over 365 days back throws the `nDays[...]` message. Otherwise nDays is the day count raised to at least 7 |
| YahooFinance.LookBackCoversTarget | src/api/yf.ts:77-82 | the window always reaches back to the target and never exceeds 365 days |
| YahooFinance.FirstAtOrAfter | src/api/yf.ts:117-122 | the first index whose timestamp is >= target; none iff all are earlier |
| YahooFinance.SampleValue | src/api/yf.ts:109-125 | no target or a target after the last sample gives the last close; otherwise the close at the first timestamp >= target; an empty series gives no value |
| YahooFinance.SelectSample | src/api/yf.ts:109-125 | the loop returns `SampleValue` |
| YahooFinance.YfSpec | src/api/yf.ts:68-128 | a date over 365 days back throws before any request. Otherwise the spark request is for the window's days: its throw is passed on, a missing symbol throws "No data for symbol[...]", and a series gives the quote with `SampleValue` at the target, `ts` the target or 0, and `TickerCurrency(symbol)`. It succeeds exactly when the window and the request do and the symbol is present |
| YahooFinance.RequestYFApi | src/api/yf.ts:68-128 | the method equals `YfSpec`: the window, the propagated throw, the no-data throw and the sampled quote |
| Cache.EffectiveTtl | src/utils/cache.ts:46 | `expiry \|\| 3600`: a missing or zero expiry becomes 3600 |
| Cache.KvCache.Get | src/utils/cache.ts:30-41 | a stored key returns its value, an absent key null |
| Cache.KvCache.Set | src/utils/cache.ts:43-52 | writes the value and its effective TTL under the key, and nothing else |
| Cache.Lookup | src/utils/cache.ts:30-41 | a value iff the key is stored |
| ExternalData.FetchExternalData | src/services/external-data/index.ts:10-23 | "currency", "upbit", "KOSPI" and "NYSE" each give exactly their own adapter's answer for (ticker, date); anything else fails with 400 "Invalid category: <category>" |
| ExternalData.UnknownIgnoresAdapters | src/services/external-data/index.ts:20-21 | an invalid category calls no adapter: the answer does not depend on them |
| ExternalData.CaseSensitiveCategories | src/services/external-data/index.ts:11-21 | "crypto" and "kospi" are invalid categories |
| ExternalDataUtils.FetchAndCacheSpec | src/services/external-api/external-data.utils.ts:14-43 | the cache is read only when `noCache` is true, and a hit returns it with no fetch. The parser gets fields 1/2/3 of the key. An undefined parse becomes the 500 fetch error. A 429 becomes the rate-limit error and any other failure the 500. Exactly the successes are written |
| ExternalDataUtils.OnlyTwoErrors | src/services/external-api/external-data.utils.ts:36-42 | the only errors are the 429 rate-limit error and the 500 "Failed to fetch data from <url>" |
| ExternalDataUtils.FetchAndCache | src/services/external-api/external-data.utils.ts:14-43 | the method equals the specification; a success writes the key with TTL `cachingTime`, and a failure writes nothing |
| ExternalDataUtils.CachedAfterSuccess | src/services/external-api/external-data.utils.ts:21-35 | with `noCache` true, after a success a repeat returns the same value without fetching |
| CurrencyApi.CacheKey | src/services/external-api/currency.ts:50 | the key is "extapi:currency:<ticker>:<date>" |
| CurrencyApi.CacheKeyFields | src/services/external-api/currency.ts:50 | for a `:`-free ticker and date, fields 1/2/3 of the key are "currency", the ticker and the date |
| CurrencyApi.SearchDate | src/services/external-api/currency.ts:51 | the date with every `-` removed: no `-` is left, and nothing but the date's characters |
| CurrencyApi.SearchDateOfDay | src/services/external-api/currency.ts:51 | "yyyy-MM-dd" becomes "yyyyMMdd" |
| CurrencyApi.RatesUrl | src/services/external-api/currency.ts:52 | the request URL is the configured prefix followed by the search date |
| CurrencyApi.FirstRow | src/services/external-api/currency.ts:62 | the first row whose `cur_unit` is the source currency; none iff no row has it |
| CurrencyApi.ParseRates | src/services/external-api/currency.ts:54-74 | undefined iff there are no rows or no row matches the first 3 characters. Otherwise it holds the parser's category, ticker and date, the unit = the rest of the ticker, and the value = `Number()` of the first matching `deal_bas_r` with its commas removed |
| CurrencyApi.TickerSplits | src/services/external-api/currency.ts:60-61 | source and destination currency together are the ticker; a ticker of 3 or more characters has a 3-character source |
| CurrencyApi.UsdKrwPair | src/services/external-api/currency.ts:60-61 | "USDKRW" splits into "USD" and "KRW" |
| CurrencyApi.FetchCurrencyData | src/services/external-api/currency.ts:45-82 | the method equals `fetchAndCache` with that key, URL and parser, the `noCache` flag unchanged and the default TTL 300 |
| CurrencyApi.FetchedQuoteDescribesRequest | src/services/external-api/currency.ts:64-70 | a fetched quote has category "currency", the requested ticker and date, and the destination currency as its unit |
| AssetService.AssetKey | src/services/asset.service.ts:13 | the key starts "asset:" |
| AssetService.KeysNeverCollide | src/services/asset.service.ts:13 | the service's keys never equal the currency adapter's keys in the shared cache |
| AssetService.Respond | src/services/asset.service.ts:27-34 | the response copies the asset's id and name and the gateway's date, value and timestamp, with `currency` = the gateway's unit |
| AssetService.Reported | src/services/asset.service.ts:36-44 | a 429 passes unchanged; every other failure becomes 500 "Failed to retrieve asset data" |
| AssetService.ServeSpec | src/services/asset.service.ts:12-45 | a hit answers from the cache even if the asset is gone. A miss on an unknown asset is 404. Otherwise the answer is the gateway's, mapped by `Respond` or `Reported`. Exactly the successes are written |
| AssetService.ServeErrors | src/services/asset.service.ts:20-44 | the only errors are 404, a gateway 429 and 500 |
| AssetService.InvalidCategoryIsRetrievalFailure | src/services/asset.service.ts:41-44 | the switch's 400 for an invalid category reaches the caller as 500 |
| AssetService.RepeatIsCached | src/services/asset.service.ts:14-35 | after a success, a repeat answers the same value from the cache, whatever the collection and the gateway now hold |
| AssetService.GetAssetDataByDate | src/services/asset.service.ts:12-45 | the method equals `ServeSpec`; a success writes the key with TTL 3600, and a failure writes nothing |
| PortfolioQuery.FindByName | src/db/portfolio.query.ts:21-26 | the first portfolio with that name; none iff no portfolio has it |
| PortfolioQuery.LoadByName | src/db/portfolio.query.ts:15-45 | an unknown name is null; a non-null answer is never empty |
| PortfolioQuery.LoadByNameMeans | src/db/portfolio.query.ts:28-35 | a non-null answer holds exactly that portfolio's records with `from <= date < to`, ascending by date, each as often as stored |
| PortfolioQuery.EmptyRangeIsNull | src/db/portfolio.query.ts:37-39 | for a known name the answer is null iff no record of it lies in the range |
| PortfolioQuery.ReversedRangeIsNull | src/db/portfolio.query.ts:30-33 | a range with `to <= from` is always null |
| PortfolioService.Save | src/models/portfolio-snapshot.model.ts:21-37 | saving a snapshot document without `total_portfolio_unit` fails validation on that path; otherwise it stores the document's fields |
| PortfolioService.FirstSnapshot | src/services/portfolio.service.ts:40-43 | the first snapshot of that portfolio and day; none iff there is none |
| PortfolioService.FindEntry | src/services/portfolio.service.ts:45-46 | the first entry with that `asset_id`; none iff there is none |
| PortfolioService.AddOrUpdate | src/services/portfolio.service.ts:31-91 | an unknown portfolio is 404 and changes nothing. An existing entry has quantity, value and unit replaced in place, with its name, ticker, the other entries and the length kept. An unknown asset is 400. A new entry is appended at the end. A new day gets one snapshot with exactly one asset and total 0. Any failure changes nothing |
| PortfolioService.NewSnapshotFailsValidation | src/services/portfolio.service.ts:68-90 | as written, the new-day branch omits the required unit, so the save throws a validation error and nothing is stored |
| PortfolioService.EntryOf | src/services/portfolio.service.ts:45-52 | the stored entry of an asset in a portfolio's snapshot of a day |
| PortfolioService.AddedAssetIsListed | src/services/portfolio.service.ts:45-90 | with the unit supplied, a successful call leaves the asset listed in that day's snapshot with the given quantity, value and unit |
| PortfolioService.WonValue | src/services/portfolio.service.ts:111-124 | a KRW value counts as is; a foreign one is multiplied by its `<ticker>-KRW` rate, or counts as is when the rate is missing |
| PortfolioService.RateTotal | src/services/portfolio.service.ts:109-127 | with only KRW entries the total is Σ quantity × value |
| PortfolioService.IntendedTotals | src/services/portfolio.service.ts:101-130 | the total is Σ quantity × converted value, and the unit is "Mixed" iff some non-KRW entry has no rate |
| PortfolioService.AsWrittenNeverMixed | src/services/portfolio.service.ts:113-124 | as written, a missing rate rejects the whole call, so "Mixed" never appears; on success the total is the intended one and the unit "KRW" |
| PortfolioService.MissingRateExample | src/services/portfolio.service.ts:113-124 | one USD entry without a rate: intended (q·v, "Mixed"), as written a rejection |
| PortfolioService.AllWonIgnoresRates | src/services/portfolio.service.ts:109-127 | an all-KRW snapshot totals Σ quantity × value in KRW whatever the rates |
| PortfolioService.DailyEntry | src/services/portfolio.service.ts:202-237 | a success takes the new value and unit; a failure keeps the previous entry; name, ticker and quantity are kept |
| PortfolioService.DailyAssets | src/services/portfolio.service.ts:202-237 | the new list has the latest snapshot's assets in the same order, one `DailyEntry` each |
| PortfolioService.ConvertCurrency | src/services/portfolio.service.ts:252-266 | returns the amount unchanged, whether or not the currencies differ |
| PortfolioService.DailyGain | src/services/portfolio.service.ts:218-233 | a success adds quantity × value; a failure adds nothing |
| PortfolioService.DailyTotalIgnoresCurrency | src/services/portfolio.service.ts:207-233 | since conversion is the identity, the daily total is Σ quantity × value over the successes |
| PortfolioService.LastForeign | src/services/portfolio.service.ts:205-230 | the last non-KRW entry; none iff every entry is KRW |
| PortfolioService.DailyUnitIsLastForeign | src/services/portfolio.service.ts:205-230 | the daily unit is "Mixed" iff the last non-KRW entry failed, so a later foreign success resets an earlier "Mixed" |
| PortfolioService.Latest | src/services/portfolio.service.ts:177-189 | the latest snapshot of the portfolio dated on or before the day; none iff there is none |
| PortfolioService.DailySpec | src/services/portfolio.service.ts:157-249 | an unknown portfolio is 404. An existing snapshot for the day, or none on or before it, writes nothing. A known portfolio with no snapshot for the day and an earlier one gets exactly one appended snapshot, built from the latest one with `DailyAssets`, `DailyTotal` and `DailyUnit` |
| PortfolioService.DailyIsOncePerDay | src/services/portfolio.service.ts:166-175 | a second daily run for the same day writes nothing, whatever the lookups answer |
| PortfolioService.SnapIdx | src/services/portfolio.service.ts:145-148 | exactly the positions of the portfolio's snapshots, ascending |
| PortfolioService.GetPortfolioSnapshots | src/services/portfolio.service.ts:136-155 | one summary (date, total, unit) per position of the snapshot order, its date written by the intended `formatDate` (see Findings) |
| PortfolioService.SnapshotsSorted | src/services/portfolio.service.ts:148 | the summaries ascend by date |
| PortfolioService.GetPortfolioSnapshotsAsWritten | src/services/portfolio.service.ts:150-154 | the summaries in the same order with the date written by `formatDate`'s default format as written |
| PortfolioService.AsWrittenSummariesHaveNoDay | src/services/portfolio.service.ts:151 | as written, no summary date is a `yyyy-MM-dd` day |
| PortfolioService.SummaryDatesAreDays | src/services/portfolio.service.ts:151 | with the intended format, each summary carries its snapshot's stored day, a `yyyy-MM-dd` day |
| PortfolioService.SnapshotOrderExact | src/services/portfolio.service.ts:145-148 | every snapshot of the portfolio appears exactly once, and no other |
| PortfolioService.GetPortfolioList | src/services/portfolio.service.ts:268-275 | one element per portfolio |
| PortfolioService.PortfolioListSortedPermutation | src/services/portfolio.service.ts:269 | the list is a permutation of the portfolios, ascending by name |
| PortfolioService.SnapshotStore.AddOrUpdateAssetToPortfolio | src/services/portfolio.service.ts:31-91 | the method equals `AddOrUpdate` with the unit "KRW" supplied on a new day |
| PortfolioService.SnapshotStore.GetPortfolioSnapshotByDate | src/services/portfolio.service.ts:93-134 | no snapshot for the day gives null and changes nothing. Otherwise the stored snapshot's total and unit become `IntendedTotals` with the rates looked up on `formatDate(date)`, and the rest is kept |
| PortfolioService.SnapshotStore.CreateDailyPortfolioSnapshot | src/services/portfolio.service.ts:157-249 | the method equals `DailySpec`, including the appended day's snapshot |
| PortfolioService.MissingRateSnoc | src/services/portfolio.service.ts:109-127 | a rate is missing in a longer prefix iff it was missing before or is missing for the new entry |
| AssetRecordApi.Status | src/db/assetrecord.api.ts:36-555 | a refusal carries its own status, a creation 201 and everything else 200 |
| AssetRecordApi.FirstWithId | src/db/assetrecord.api.ts:115 | the first record with that id; none iff there is none |
| AssetRecordApi.Locate | src/db/assetrecord.api.ts:115-127 | success is a stored record with that id in that portfolio. Otherwise the 404 is "not found in this portfolio" iff the id exists elsewhere, and "Asset record not found" when it does not exist |
| AssetRecordApi.ListSpec | src/db/assetrecord.api.ts:36-59 | an invalid portfolio id is 400 and an unknown portfolio 404; otherwise it lists |
| AssetRecordApi.ListedExactly | src/db/assetrecord.api.ts:51-54 | the list is exactly the portfolio's records, ascending by date, and [] when it has none |
| AssetRecordApi.GetOneSpec | src/db/assetrecord.api.ts:102-132 | the portfolio id is checked before the record id (400 each). With both well formed, a record of that portfolio is sent as found, and otherwise `Locate`'s 404 ("not found in this portfolio" or "not found"); it is found exactly then |
| AssetRecordApi.PostSpec | src/db/assetrecord.api.ts:291-341 | 400 for an invalid id; 404 for an unknown portfolio. A missing `_assetId`, date or unit, or an undefined change, gives 400 "All required fields must be provided". A complete body whose date does not parse is 400 "Invalid date format". A request is created exactly when it passes all four checks, appending exactly one record with result 0, price 0 and memo "" by default. Any refusal changes nothing |
| AssetRecordApi.ZeroChangeAccepted | src/db/assetrecord.api.ts:309-313 | a change of 0 is accepted |
| AssetRecordApi.PostAllowsDuplicateKey | src/db/assetrecord.api.ts:320-332 | POST does not check (portfolio, asset, date) uniqueness: a second record with an existing key is appended |
| AssetRecordApi.PutFields | src/db/assetrecord.api.ts:436-449 | change, result, price and unit are replaced and an absent memo is kept; `_pfId`, `_assetId` and date stay |
| AssetRecordApi.PutSpec | src/db/assetrecord.api.ts:414-463 | the ids are checked, then the body before any lookup, then ownership: with valid ids and a full body a record of that portfolio is updated, and otherwise `Locate`'s 404. An update rewrites the record at its position with `PutFields`. Any refusal changes nothing |
| AssetRecordApi.DeleteSpec | src/db/assetrecord.api.ts:518-555 | the ids are checked, then ownership: with valid ids a record of that portfolio is deleted, and otherwise `Locate`'s 404. A deletion removes the record at its position. Any refusal changes nothing |
| AssetRecordApi.PutTouchesOnlyTarget | src/db/assetrecord.api.ts:452-458 | with unique ids, an update changes only the target record and keeps the length |
| AssetRecordApi.DeleteRemovesExactlyOne | src/db/assetrecord.api.ts:548 | with unique ids, a deletion removes exactly that record and keeps every other |
| AssetRecordApi.RemoveAt | src/db/assetrecord.api.ts:548 | removing one position drops exactly that record as a multiset |
| AssetRecordApi.RecordTable.List | src/db/assetrecord.api.ts:36-59 | the method equals `ListSpec` |
| AssetRecordApi.RecordTable.GetOne | src/db/assetrecord.api.ts:102-132 | the method equals `GetOneSpec` |
| AssetRecordApi.RecordTable.Post | src/db/assetrecord.api.ts:291-341 | the method's reply and new table equal `PostSpec` |
| AssetRecordApi.RecordTable.Put | src/db/assetrecord.api.ts:414-463 | the method's reply and new table equal `PutSpec` |
| AssetRecordApi.RecordTable.Delete | src/db/assetrecord.api.ts:518-555 | the method's reply and new table equal `DeleteSpec` |
| AssetApi.AssetPos | src/db/asset.api.ts:75 | `findById`: the first asset with that id; none iff there is none |
| AssetApi.GetSpec | src/db/asset.api.ts:68-86 | an invalid id is 400, an unknown id 404, and a well-formed id of a stored asset is answered with the first asset holding it |
| AssetApi.PostSpec | src/db/asset.api.ts:213-252 | a missing field is 400. A category outside the six is 400 "Invalid category". An existing (category, ticker) is 400. Otherwise 201 appends exactly one asset with the given fields. Any refusal stores nothing |
| AssetApi.PostKeepsListingsUnique | src/db/asset.api.ts:229-232 | POST keeps (category, ticker) unique |
| AssetApi.PutSpec | src/db/asset.api.ts:309-341 | an invalid id is 400, a missing field 400 and an unknown id 404. Otherwise it replaces the four fields of that asset only and keeps the length. Any refusal changes nothing |
| AssetApi.PutCanDuplicateListing | src/db/asset.api.ts:319-334 | PUT has no category or uniqueness check: it can turn a unique list into one with a duplicate (category, ticker) |
| AssetApi.DeleteSpec | src/db/asset.api.ts:382-403 | an invalid id is 400 and an unknown id 404; otherwise that asset's position is removed |
| AssetApi.DeleteRemovesOnlyThatAsset | src/db/asset.api.ts:397-398 | with unique ids, a deletion removes exactly that asset and keeps every other |
| AssetApi.Named | src/db/asset.api.ts:164 | the first asset with that name, category and ticker; none iff there is none |
| AssetApi.NamedAt | src/db/asset.api.ts:164 | a matching position with no match before it is the first match |
| AssetApi.UpdateAssetSpec | src/db/asset.api.ts:156-165 | it throws "Category, name, and ticker are required" iff one of the three is missing |
| AssetApi.UpdateAssetUpserts | src/db/asset.api.ts:164 | a match is updated in place (only the unit, and only when given), with nothing else changed; without one, a new asset is appended. Either way the filter then finds it |
| AssetApi.UpdateAssetIdempotent | src/db/asset.api.ts:164 | upserting the same data twice is upserting it once |
| AssetApi.AssetTable.GetAll | src/db/asset.api.ts:28-31 | returns the whole collection |
| AssetApi.AssetTable.Get | src/db/asset.api.ts:68-86 | the method equals `GetSpec` |
| AssetApi.AssetTable.Post | src/db/asset.api.ts:213-252 | the method's reply and new table equal `PostSpec` |
| AssetApi.AssetTable.Put | src/db/asset.api.ts:309-341 | the method's reply and new table equal `PutSpec` |
| AssetApi.AssetTable.Delete | src/db/asset.api.ts:382-403 | the method's reply and new table equal `DeleteSpec` |
| AssetApi.AssetTable.UpdateAsset | src/db/asset.api.ts:156-165 | the method throws or stores exactly what `UpdateAssetSpec` says |
| Timezone.FormatDateAsWritten | src/utils/timezone.ts:11-13 | as written, the result starts with the literal "YYYY-", then the day's month and the localised medium date |
| Timezone.AsWrittenIsNeverADay | src/utils/timezone.ts:11-13 | as written, `formatDate` never yields a `yyyy-MM-dd` day, in any locale |
| Timezone.FormatDate | src/utils/timezone.ts:11-13 | with the intended `yyyy-MM-dd` format, a day comes back as that same day |

## Left out

- Express routing, response objects, swagger, logging: only the handlers' decisions are modelled, as `Reply` values.
- MongoDB and Redis drivers: they are sequences and maps. Store errors and the handlers' 500 catch paths are not modelled. That covers `portfolio.query.ts` lines 41-44, the `catch` blocks of `assetrecord.api.ts` and `asset.api.ts`, and Redis connection failures.
- TTL expiry: cache entries never expire. The TTL written is recorded but never consulted.
- Cached values: they are kept as values. The JSON round trip of `setCache`/`getCache` is taken to be lossless.
- Floating point: prices, values and quantities are integers. `Number()` (the currency parser's `num` parameter), `toFixed(2)` and fractional `toSeconds` are not modelled; timestamps are whole seconds.
- Dates and time: the localised medium date of luxon's `DD` token (`MediumDate`), `DateTime.now()`, the ISO timestamp builder (`iso`), `Date.parse` (`DateCheck`) and `ObjectId.isValid` (`IdCheck`) are parameters. `new Date()` timestamps in the handlers are not modelled.
- `getCryptoData` (imported by `src/api/fapi.ts:1`), `requestFData` and `requestFDataRange` (`src/db/assetprice.ts:3`, `:94`) are not defined in the source. They and the network adapters (`src/api/crypto.ts`, `src/api/stock.ts`, the upbit, KOSPI and NYSE parsers) are function-typed parameters.
- The currency adapter's URL carries a service key: the model takes the URL prefix as a parameter.
- Ties in sorting: records, snapshots and portfolios that sort equal keep an order fixed by the store order. MongoDB leaves that order unspecified.
- CurrencyApi.ParseRates: `Number()` of the stripped rate is the parameter `num`, so the model does not capture `NaN` for malformed rates.
- ExternalDataUtils.KeyField: a missing field of the split key (JavaScript `undefined`) is read as "".
- The external-data import path: `asset.service.ts` imports its gateway through a path that is not part of this model. It is taken to be the switch of `src/services/external-data/index.ts`.
- PortfolioService.SnapshotStore.GetPortfolioSnapshotByDate: models the "Mixed" unit the code evidently intends (see Findings). The rates come from an `AssetLookup` parameter rather than through `AssetService` and its cache.
- PortfolioService.SnapshotStore.AddOrUpdateAssetToPortfolio: models the new-day branch with the required unit supplied (see Findings).
- PortfolioService.Latest: among snapshots with the same latest date it keeps the earliest stored, where `sort({ date: -1 })` leaves the order open.
- AssetApi.UpdateAssetSpec: an upsert-inserted asset without a unit is stored with unit "". The real document would lack the field.
- Mongoose update semantics are those of version 6 and later: undefined keys of an update are dropped, so an absent memo or unit is kept.
- The reconciler prices every record at the pass's target date, not at the record's own date. The model reproduces this and does not correct it.
- Timezone.FormatDate: the intended `formatDate` is modelled on days only. Dates in the model are `yyyy-MM-dd` days already, and the Seoul shift of a day stored at UTC midnight keeps the day, so it returns the day; instants at other times of day are not modelled.
- `src/db/portfolio.api.ts`, `src/db/pfassetrecord.api.ts`, the scheduler, the abandoned drafts and the schema files are not part of this model.

## Findings

| source | as written | input that shows it | evidently intended | confidence | as-written member | corrected member |
|---|---|---|---|---|---|---|
| src/services/portfolio.service.ts:68-90 | the new snapshot created for a day without one omits `total_portfolio_unit`, which the snapshot schema requires (src/models/portfolio-snapshot.model.ts:35) | a known portfolio, a known asset and no snapshot for `input.date` | a new snapshot with one asset is stored | not executed | PortfolioService.NewSnapshotFailsValidation | PortfolioService.AddedAssetIsListed |
| src/services/portfolio.service.ts:113-124 | a missing rate is tested as a falsy result, but `getAssetDataByDate` throws instead of returning falsy, so the call rejects and nothing is saved | one USD entry whose `<ticker>-KRW` lookup fails | the total counts that entry unconverted and the unit becomes "Mixed" | not executed | PortfolioService.AsWrittenNeverMixed | PortfolioService.IntendedTotals |
| src/utils/timezone.ts:11-13 | `formatDate`'s default format is `'YYYY-MM-DD'`. Luxon's tokens are `yyyy` and `dd`, so `YYYY` is copied literally and `DD` is the localised medium date. The summaries of `getPortfolioSnapshots` (src/services/portfolio.service.ts:151) and the rate lookup date (:115) therefore get a string such as `YYYY-08-Aug 6, 2024` | any snapshot, e.g. one stored for 2024-08-06 | `'yyyy-MM-dd'`, as the nightly job writes it (src/cron/portfolio-snapshot.cron.ts:11): the summary carries the day `2024-08-06` | not executed; depends on luxon's formatter treating unknown letters as literals | PortfolioService.AsWrittenSummariesHaveNoDay | PortfolioService.SummaryDatesAreDays |
