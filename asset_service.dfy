/** `services/asset.service.ts`: `getAssetDataByDate`, the service layer's cache-aside
    read of one asset's value on one day through the external-data switch. */
module AssetService {
  import opened Wrappers
  import opened Cache
  import opened ExternalData
  import CurrencyApi

  /** A document of the service layer's `Asset` collection. */
  datatype StoredAsset = StoredAsset(id: string, name: string, category: string, ticker: string)

  /** The object `getAssetDataByDate` resolves to and caches. */
  datatype AssetResponse = AssetResponse(assetId: string, name: string, date: string,
                                         value: int, currency: string, timestamp: string)

  /** `asset:<assetId>:<date>`. */
  function AssetKey(assetId: string, date: string): (k: string)
    ensures |k| >= 6 && k[..6] == "asset:"
  {
    "asset:" + assetId + ":" + date
  }

  /** The service's keys and the currency adapter's keys live in different parts of the
      one Redis key space, so the two caches can be modelled as separate maps. */
  lemma KeysNeverCollide(assetId: string, date: string, ticker: string, day: string)
    ensures AssetKey(assetId, date) != CurrencyApi.CacheKey(ticker, day)
  {
    var k := CurrencyApi.CacheKey(ticker, day);
    assert k[0] == 'e';
    assert AssetKey(assetId, date)[0] == 'a';
  }

  const NotFound: Thrown := ApiError(404, "Asset not found")
  const RetrievalFailed: Thrown := ApiError(500, "Failed to retrieve asset data")

  /** The expiry the service writes its entries with: one hour. */
  const ServiceTtl: int := 3600

  /** The outcome of one call: what it resolves to, the entry it writes, and whether it
      got past the cache (and so looked the asset up). */
  datatype Served = Served(result: Result<AssetResponse, Thrown>, write: Option<AssetResponse>, missed: bool)

  /** The response built from the asset and the gateway's answer. */
  function Respond(asset: StoredAsset, x: EFResponse): (a: AssetResponse)
    ensures a.assetId == asset.id && a.name == asset.name
    ensures a.date == x.date && a.value == x.value && a.currency == x.unit && a.timestamp == x.timestamp
  {
    AssetResponse(asset.id, asset.name, x.date, x.value, x.unit, x.timestamp)
  }

  /** The error the service reports for a gateway failure: a 429 passes unchanged. */
  function Reported(e: Thrown): (t: Thrown)
    ensures e.ApiError? && e.status == 429 ==> t == e
    ensures !(e.ApiError? && e.status == 429) ==> t == RetrievalFailed
  {
    if e.ApiError? && e.status == 429 then e else RetrievalFailed
  }

  /** `getAssetDataByDate(assetId, date)` over the cache's entries, the `Asset` collection
      keyed by id, and the gateway's adapters. */
  function ServeSpec(entries: map<string, AssetResponse>, assets: map<string, StoredAsset>, ad: Adapters,
                     assetId: string, date: string): (s: Served)
    // a hit answers from the cache, whether or not the asset still exists
    ensures AssetKey(assetId, date) in entries ==> s == Served(Success(entries[AssetKey(assetId, date)]), None, false)
    ensures s.missed <==> AssetKey(assetId, date) !in entries
    ensures s.missed && assetId !in assets ==> s == Served(Failure(NotFound), None, true)
    // a success is cached; no failure is
    ensures s.write.Some? <==> s.missed && s.result.Success?
    ensures s.write.Some? ==> s.write.value == s.result.value
    ensures s.missed && assetId in assets ==>
              var asset := assets[assetId];
              match FetchExternalData(ad, asset.category, asset.ticker, date)
              case Success(x) => s.result == Success(Respond(asset, x))
              case Failure(e) => s.result == Failure(Reported(e))
  {
    var key := AssetKey(assetId, date);
    if key in entries then Served(Success(entries[key]), None, false)
    else if assetId !in assets then Served(Failure(NotFound), None, true)
    else
      var asset := assets[assetId];
      match FetchExternalData(ad, asset.category, asset.ticker, date)
      case Success(x) => Served(Success(Respond(asset, x)), Some(Respond(asset, x)), true)
      case Failure(e) => Served(Failure(Reported(e)), None, true)
  }

  /** The only errors the service lets out: 404, a 429 of the gateway's, and 500. */
  lemma ServeErrors(entries: map<string, AssetResponse>, assets: map<string, StoredAsset>, ad: Adapters,
                    assetId: string, date: string)
    requires ServeSpec(entries, assets, ad, assetId, date).result.Failure?
    ensures var e := ServeSpec(entries, assets, ad, assetId, date).result.error;
            e == NotFound || e == RetrievalFailed || (e.ApiError? && e.status == 429)
  {
  }

  /** An invalid category reaches the caller as a 500, not as the switch's 400. */
  lemma InvalidCategoryIsRetrievalFailure(entries: map<string, AssetResponse>, assets: map<string, StoredAsset>,
                                          ad: Adapters, assetId: string, date: string)
    requires AssetKey(assetId, date) !in entries && assetId in assets && !Known(assets[assetId].category)
    ensures ServeSpec(entries, assets, ad, assetId, date) == Served(Failure(RetrievalFailed), None, true)
  {
  }

  /** After a success, a repeat call for the same asset and day returns the same value
      without going past the cache, whatever the gateway or the collection now hold. */
  lemma RepeatIsCached(entries: map<string, AssetResponse>, assets: map<string, StoredAsset>, ad: Adapters,
                       assets2: map<string, StoredAsset>, ad2: Adapters, assetId: string, date: string)
    requires ServeSpec(entries, assets, ad, assetId, date).result.Success?
    ensures var s := ServeSpec(entries, assets, ad, assetId, date);
            var entries2 := if s.write.Some? then entries[AssetKey(assetId, date) := s.write.value] else entries;
            ServeSpec(entries2, assets2, ad2, assetId, date) == Served(s.result, None, false)
  {
  }

  /** `getAssetDataByDate(assetId, date)`. */
  method GetAssetDataByDate(cache: KvCache<AssetResponse>, assets: map<string, StoredAsset>, ad: Adapters,
                            assetId: string, date: string)
    returns (r: Result<AssetResponse, Thrown>)
    modifies cache
    ensures var s := ServeSpec(old(cache.entries), assets, ad, assetId, date);
            r == s.result &&
            (s.write.Some? ==> cache.entries == old(cache.entries)[AssetKey(assetId, date) := s.write.value] &&
                               cache.ttls == old(cache.ttls)[AssetKey(assetId, date) := ServiceTtl]) &&
            (s.write.None? ==> cache.entries == old(cache.entries) && cache.ttls == old(cache.ttls))
  {
    var cacheKey := AssetKey(assetId, date);
    var cachedData := cache.Get(cacheKey);
    if cachedData.Some? {
      return Success(cachedData.value);
    }
    if assetId !in assets {
      return Failure(NotFound);
    }
    var asset := assets[assetId];
    var externalData := FetchExternalData(ad, asset.category, asset.ticker, date);
    if externalData.Failure? {
      var error := externalData.error;
      if error.ApiError? && error.status == 429 {
        return Failure(error);
      }
      return Failure(RetrievalFailed);
    }
    var response := Respond(asset, externalData.value);
    cache.Set(cacheKey, response, Some(ServiceTtl));
    return Success(response);
  }
}
