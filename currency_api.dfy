/** `external-api/currency.ts`: the exchange-rate adapter. It builds its cache key and
    the `searchdate` query value from the ticker and day, and parses the bank's rate
    table into a quote through `fetchAndCache`. */
module CurrencyApi {
  import opened Wrappers
  import opened Text
  import opened Cache
  import opened ExternalData
  import opened ExternalDataUtils

  /** `extapi:currency:<ticker>:<date>`. */
  function CacheKey(ticker: string, date: string): (k: string)
    ensures k == "extapi" + [':'] + "currency" + [':'] + ticker + [':'] + date
  {
    "extapi:currency:" + ticker + ":" + date
  }

  /** The wrapper reads the key back as category `currency`, the ticker and the day,
      as long as neither contains a colon. */
  lemma CacheKeyFields(ticker: string, date: string)
    requires ':' !in ticker && ':' !in date
    ensures KeyField(CacheKey(ticker, date), 1) == "currency"
    ensures KeyField(CacheKey(ticker, date), 2) == ticker
    ensures KeyField(CacheKey(ticker, date), 3) == date
  {
    assert ':' !in "extapi" && ':' !in "currency";
    SplitJoin3("extapi", "currency", ticker, date, ':');
  }

  /** The `searchdate` query value: the day with every `-` removed. */
  function SearchDate(date: string): (r: string)
    ensures '-' !in r
    ensures forall x :: x in r ==> x in date
  {
    RemoveAll(date, '-')
  }

  /** Removing dashes from two parts joined by a dash drops the joining dash. */
  lemma DashJoin(a: string, b: string)
    requires '-' !in b
    ensures RemoveAll(a + "-" + b, '-') == RemoveAll(a, '-') + b
  {
    var dash: string := "-";
    var head := a + dash;
    RemoveAllConcat(head, b, '-');
    RemoveAllConcat(a, dash, '-');
    assert RemoveAll(dash, '-') == "" by {
      assert dash[0] == '-' && dash[1..] == "";
    }
    assert RemoveAll(b, '-') == b;
  }

  /** A `yyyy-MM-dd` day becomes `yyyyMMdd`. */
  lemma SearchDateOfDay(y: string, m: string, d: string)
    requires '-' !in y && '-' !in m && '-' !in d
    ensures SearchDate(y + "-" + m + "-" + d) == y + m + d
  {
    DashJoin(y + "-" + m, d);
    DashJoin(y, m);
  }

  /** One row of the bank's table: the currency code and the base rate as text. */
  datatype CurrencyRow = CurrencyRow(curUnit: string, dealBasR: string)

  /** The first row for currency `src`. */
  function FirstRow(rows: seq<CurrencyRow>, src: string): (r: Option<nat>)
    ensures r.Some? ==> r.value < |rows| && rows[r.value].curUnit == src
    ensures r.Some? ==> forall j :: 0 <= j < r.value ==> rows[j].curUnit != src
    ensures r.None? <==> forall j :: 0 <= j < |rows| ==> rows[j].curUnit != src
  {
    if |rows| == 0 then None
    else if rows[0].curUnit == src then Some(0)
    else match FirstRow(rows[1..], src)
      case None => None
      case Some(j) => Some(j + 1)
  }

  /** The `parser` closure. `rows` is `response.data`, `None` when the payload has none;
      `num` stands for `Number()` and `iso` for `DateTime.fromISO(date).toISO() || ""`. */
  function ParseRates(num: string -> int, iso: string -> string, rows: Option<seq<CurrencyRow>>,
                      category: string, ticker: string, date: string): (r: Option<EFResponse>)
    ensures r.None? <==> rows.None? || forall j :: 0 <= j < |rows.value| ==> rows.value[j].curUnit != SliceTo(ticker, 3)
    ensures r.Some? ==>
              r.value.category == category && r.value.ticker == ticker && r.value.date == date &&
              r.value.unit == SliceFrom(ticker, 3) && r.value.timestamp == iso(date)
    ensures r.Some? ==>
              exists j :: 0 <= j < |rows.value| && rows.value[j].curUnit == SliceTo(ticker, 3) &&
                          (forall i :: 0 <= i < j ==> rows.value[i].curUnit != SliceTo(ticker, 3)) &&
                          r.value.value == num(RemoveAll(rows.value[j].dealBasR, ','))
  {
    var src := SliceTo(ticker, 3);
    var dst := SliceFrom(ticker, 3);
    match rows
    case None => None
    case Some(data) =>
      match FirstRow(data, src)
      case None => None
      case Some(j) => Some(EFResponse(category, ticker, date, num(RemoveAll(data[j].dealBasR, ',')), dst, iso(date)))
  }

  /** The pair a ticker names: the first three characters are bought, the rest is the quote unit. */
  lemma TickerSplits(ticker: string)
    ensures SliceTo(ticker, 3) + SliceFrom(ticker, 3) == ticker
    ensures |ticker| >= 3 ==> |SliceTo(ticker, 3)| == 3
  {
  }

  lemma UsdKrwPair()
    ensures SliceTo("USDKRW", 3) == "USD" && SliceFrom("USDKRW", 3) == "KRW"
  {
  }

  /** The caching time `fetchAndCache` falls back to, which this adapter does not override. */
  const DefaultCachingTime: int := 300

  /** `fetchCurrencyData(ticker, date, noCache)`. The request URL is `urlPrefix` followed by
      the search day and the table selector. */
  method FetchCurrencyData(cache: KvCache<EFResponse>, get: string -> Reply<Option<seq<CurrencyRow>>>,
                           num: string -> int, iso: string -> string,
                           urlPrefix: string, ticker: string, date: string, noCache: bool)
    returns (r: Result<EFResponse, Thrown>)
    modifies cache
    ensures var f := FetchAndCacheSpec(old(cache.entries), CacheKey(ticker, date), RatesUrl(urlPrefix, date),
                                       get(RatesUrl(urlPrefix, date)),
                                       (rows, c, t, d) => ParseRates(num, iso, rows, c, t, d), noCache);
            r == f.result &&
            (f.write.Some? ==> cache.entries == old(cache.entries)[CacheKey(ticker, date) := f.write.value] &&
                               cache.ttls == old(cache.ttls)[CacheKey(ticker, date) := DefaultCachingTime]) &&
            (f.write.None? ==> cache.entries == old(cache.entries) && cache.ttls == old(cache.ttls))
  {
    var cacheKey := CacheKey(ticker, date);
    var url := RatesUrl(urlPrefix, date);
    var parser := (rows, c, t, d) => ParseRates(num, iso, rows, c, t, d);
    r := FetchAndCache(cache, get, cacheKey, url, parser, noCache, DefaultCachingTime);
  }

  /** The request URL for a day: the search day appears right after the prefix. */
  function RatesUrl(urlPrefix: string, date: string): (u: string)
    ensures |u| > |urlPrefix| + |SearchDate(date)|
    ensures u[..|urlPrefix|] == urlPrefix
    ensures u[|urlPrefix|..|urlPrefix| + |SearchDate(date)|] == SearchDate(date)
  {
    urlPrefix + SearchDate(date) + "&data=AP01"
  }

  /** A successful fetch for a ticker and day without colons yields a quote for exactly
      that pair and day, quoted in the ticker's destination currency. */
  lemma FetchedQuoteDescribesRequest(entries: map<string, EFResponse>, num: string -> int, iso: string -> string,
                                     reply: Reply<Option<seq<CurrencyRow>>>, url: string,
                                     ticker: string, date: string, noCache: bool)
    requires ':' !in ticker && ':' !in date
    requires !(noCache && CacheKey(ticker, date) in entries)
    requires FetchAndCacheSpec(entries, CacheKey(ticker, date), url, reply,
                               (rows, c, t, d) => ParseRates(num, iso, rows, c, t, d), noCache).result.Success?
    ensures var x := FetchAndCacheSpec(entries, CacheKey(ticker, date), url, reply,
                                       (rows, c, t, d) => ParseRates(num, iso, rows, c, t, d), noCache).result.value;
            x.category == "currency" && x.ticker == ticker && x.date == date && x.unit == SliceFrom(ticker, 3)
  {
    CacheKeyFields(ticker, date);
  }
}
