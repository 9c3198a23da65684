/** `external-data.utils.ts`: `fetchAndCache`, the cache-aside wrapper around one HTTP
    GET of an external market data API, with the error classification the gateway
    reports (rate limiting as 429, everything else as 500). */
module ExternalDataUtils {
  import opened Wrappers
  import opened Text
  import opened Cache
  import opened ExternalData

  /** What `axios.get(url)` settles to: a response body, or a rejection carrying the HTTP
      status of the response when there was one. */
  datatype Reply<T> = Response(body: T) | HttpFailure(status: Option<int>)

  /** The parser a caller passes: a response and the category, ticker and day read
      back from the cache key, to a response or `undefined` (which also stands for a
      parser that throws: both end in the same catch). */
  type Parser<!T> = (T, string, string, string) -> Option<EFResponse>

  const RateLimited: Thrown := ApiError(429, "External API rate limit exceeded")

  function FetchFailed(url: string): Thrown {
    ApiError(500, "Failed to fetch data from " + url)
  }

  /** The outcome of one call: what it resolves to, the cache entry it writes, and
      whether it performed the GET. */
  datatype Fetched = Fetched(result: Result<EFResponse, Thrown>, write: Option<EFResponse>, fetched: bool)

  /** `cacheKey.split(':')[i]`. */
  function KeyField(cacheKey: string, i: nat): string {
    FieldOr(Split(cacheKey, ':'), i)
  }

  /** `fetchAndCache(cacheKey, url, parser, noCache)` over the cache's entries and the
      reply the GET would get. */
  function FetchAndCacheSpec<T>(entries: map<string, EFResponse>, cacheKey: string, url: string,
                                reply: Reply<T>, parser: Parser<T>, noCache: bool): (f: Fetched)
    // the cache is read only when `noCache` is set: the flag works inverted
    ensures !noCache ==> f.fetched
    ensures noCache && cacheKey in entries ==> f == Fetched(Success(entries[cacheKey]), None, false)
    ensures f.fetched <==> !(noCache && cacheKey in entries)
    // a success is written, a failure is not
    ensures f.write.Some? <==> f.fetched && f.result.Success?
    ensures f.write.Some? ==> f.write.value == f.result.value
    ensures f.fetched && reply.Response? ==>
              f.result == (match parser(reply.body, KeyField(cacheKey, 1), KeyField(cacheKey, 2), KeyField(cacheKey, 3))
                           case Some(x) => Success(x)
                           case None => Failure(FetchFailed(url)))
    ensures f.fetched && reply.HttpFailure? ==>
              f.result == Failure(if reply.status == Some(429) then RateLimited else FetchFailed(url))
  {
    if noCache && cacheKey in entries then Fetched(Success(entries[cacheKey]), None, false)
    else match reply
      case HttpFailure(status) =>
        Fetched(Failure(if status == Some(429) then RateLimited else FetchFailed(url)), None, true)
      case Response(body) =>
        match parser(body, KeyField(cacheKey, 1), KeyField(cacheKey, 2), KeyField(cacheKey, 3))
        case None => Fetched(Failure(FetchFailed(url)), None, true)
        case Some(x) => Fetched(Success(x), Some(x), true)
  }

  /** The only errors the wrapper lets out are a 429 and a 500. */
  lemma OnlyTwoErrors<T>(entries: map<string, EFResponse>, cacheKey: string, url: string,
                         reply: Reply<T>, parser: Parser<T>, noCache: bool)
    ensures var f := FetchAndCacheSpec(entries, cacheKey, url, reply, parser, noCache);
            f.result.Failure? ==> f.result.error == RateLimited || f.result.error == FetchFailed(url)
  {
  }

  /** `fetchAndCache(cacheKey, url, parser, noCache, cachingTime)`. */
  method FetchAndCache<T>(cache: KvCache<EFResponse>, get: string -> Reply<T>,
                          cacheKey: string, url: string, parser: Parser<T>, noCache: bool, cachingTime: int)
    returns (r: Result<EFResponse, Thrown>)
    modifies cache
    ensures var f := FetchAndCacheSpec(old(cache.entries), cacheKey, url, get(url), parser, noCache);
            r == f.result &&
            (f.write.Some? ==> cache.entries == old(cache.entries)[cacheKey := f.write.value] &&
                               cache.ttls == old(cache.ttls)[cacheKey := EffectiveTtl(Some(cachingTime))]) &&
            (f.write.None? ==> cache.entries == old(cache.entries) && cache.ttls == old(cache.ttls))
  {
    var cachedData: Option<EFResponse> := None;
    if noCache {
      cachedData := cache.Get(cacheKey);
    }
    if cachedData.Some? {
      return Success(cachedData.value);
    }
    var response := get(url);
    if response.HttpFailure? {
      if response.status == Some(429) {
        return Failure(RateLimited);
      }
      return Failure(FetchFailed(url));
    }
    var parsedData := parser(response.body, KeyField(cacheKey, 1), KeyField(cacheKey, 2), KeyField(cacheKey, 3));
    if parsedData.None? {
      return Failure(FetchFailed(url));
    }
    cache.Set(cacheKey, parsedData.value, Some(cachingTime));
    return Success(parsedData.value);
  }

  /** With `noCache` set, a call after a success answers from the cache without a GET,
      whatever the API would now reply. */
  lemma CachedAfterSuccess<T>(entries: map<string, EFResponse>, cacheKey: string, url: string,
                              reply1: Reply<T>, reply2: Reply<T>, parser: Parser<T>)
    requires FetchAndCacheSpec(entries, cacheKey, url, reply1, parser, true).write.Some?
    ensures var f1 := FetchAndCacheSpec(entries, cacheKey, url, reply1, parser, true);
            FetchAndCacheSpec(entries[cacheKey := f1.write.value], cacheKey, url, reply2, parser, true) ==
              Fetched(f1.result, None, false)
  {
  }
}
