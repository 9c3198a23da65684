/** `asset.ctrl.ts`: the price of an asset on a day, read from the price cache and,
    when forced or missing, fetched through `getFData` and written back. */
module AssetCtrl {
  import opened Wrappers
  import opened Catalog
  import opened PriceStore
  import opened Fapi

  datatype Quote = Quote(value: int, unit: string)

  /** A resolved adapter answer read as `{ value, unit: currency }`, a falsy value as
      `null`, a throw as a throw. */
  function AsQuote(fd: FData): (r: Result<Option<Quote>, Thrown>)
    ensures fd.FQuote? <==> r.Success? && r.value.Some?
    ensures fd.FQuote? ==> r.value.value == Quote(fd.value, fd.currency)
    ensures fd.FNothing? <==> r == Success(None)
    ensures fd.FThrow? <==> r.Failure?
    ensures fd.FThrow? ==> r.error == fd.error
  {
    match fd
    case FQuote(v, c) => Success(Some(Quote(v, c)))
    case FNothing => Success(None)
    case FThrow(e) => Failure(e)
  }

  /** `requestAssetPrice(category, ticker, date)`. */
  function RequestAssetPrice(feeds: Feeds, category: string, ticker: string, date: string): (r: Result<Option<Quote>, Thrown>)
    ensures !Routed(category) ==> r == Failure(InvalidType)
    ensures Routed(category) ==> r == AsQuote(GetFData(feeds, category, ticker, date))
  {
    AsQuote(GetFData(feeds, category, ticker, date))
  }

  /** What a lookup returns, the price store afterwards, and whether an adapter was asked. */
  datatype Lookup = Lookup(price: Option<PricePoint>, points: seq<PricePoint>, fetched: bool)

  /** The cache-or-fetch decision of `loadNupdateAssetPrice` for a known asset, given the
      answer the fetch would give. */
  function Resolve(points: seq<PricePoint>, assetId: string, date: string, force: bool,
                   fr: Result<Option<Quote>, Thrown>): (l: Lookup)
    // the adapter is asked exactly when forced or when nothing is cached
    ensures l.fetched <==> force || FindPrice(points, assetId, date).None?
    ensures !l.fetched ==> l.price == FindPrice(points, assetId, date) && l.points == points
    // a fetched quote is returned and cached
    ensures l.fetched && fr.Success? && fr.value.Some? ==>
              l.price == Some(PricePoint(assetId, date, fr.value.value.value, fr.value.value.unit)) &&
              l.points == UpsertPrice(points, l.price.value)
    // no quote: the cached price (if any) comes back, nothing is written
    ensures l.fetched && fr == Success(None) ==> l.price == FindPrice(points, assetId, date) && l.points == points
    // a throw is swallowed into `null`
    ensures l.fetched && fr.Failure? ==> l.price == None && l.points == points
    // whatever is returned is what the store now holds for that asset and day
    ensures l.price.Some? ==> FindPrice(l.points, assetId, date) == l.price
    ensures l.price.Some? ==> l.price.value.assetId == assetId && l.price.value.date == date
  {
    var cached := FindPrice(points, assetId, date);
    if !force && cached.Some? then Lookup(cached, points, false)
    else match fr
      case Failure(_) => Lookup(None, points, true)
      case Success(None) => Lookup(cached, points, true)
      case Success(Some(q)) =>
        var p := PricePoint(assetId, date, q.value, q.unit);
        Lookup(Some(p), UpsertPrice(points, p), true)
  }

  /** `loadNupdateAssetPrice(assetId, date, force)` over a price store, an asset list and the adapters. */
  function LoadNupdateSpec(points: seq<PricePoint>, assets: seq<Asset>, feeds: Feeds,
                           assetId: string, date: string, force: bool): (l: Lookup)
    ensures FindAsset(assets, assetId).None? ==> l == Lookup(None, points, false)
    ensures l.price.Some? ==> l.price.value.assetId == assetId && l.price.value.date == date
    ensures l.price.Some? ==> FindPrice(l.points, assetId, date) == l.price
    // a known asset goes through the cache-or-fetch decision with its own adapter's answer
    ensures FindAsset(assets, assetId).Some? ==>
              var a := FindAsset(assets, assetId).value;
              l == Resolve(points, assetId, date, force, RequestAssetPrice(feeds, a.category, a.ticker, date))
    // an adapter is asked exactly for a known asset that is forced or not cached
    ensures l.fetched <==> FindAsset(assets, assetId).Some? && (force || FindPrice(points, assetId, date).None?)
  {
    match FindAsset(assets, assetId)
    case None => Lookup(None, points, false)
    case Some(a) => Resolve(points, assetId, date, force, RequestAssetPrice(feeds, a.category, a.ticker, date))
  }

  /** `loadNupdateAssetPrice(assetId, date, force)`. */
  method LoadNupdateAssetPrice(store: Store, assets: seq<Asset>, feeds: Feeds,
                               assetId: string, date: string, force: bool)
    returns (r: Option<PricePoint>)
    modifies store
    ensures r == LoadNupdateSpec(old(store.points), assets, feeds, assetId, date, force).price
    ensures store.points == LoadNupdateSpec(old(store.points), assets, feeds, assetId, date, force).points
  {
    var asset := FindAsset(assets, assetId);
    if asset.None? {
      return None;
    }
    var data := store.LoadAssetPrice(assetId, date);
    if force || data.None? {
      var fdata := RequestAssetPrice(feeds, asset.value.category, asset.value.ticker, date);
      if fdata.Failure? {
        return None;
      }
      if fdata.value.None? {
        return data;
      }
      data := Some(PricePoint(assetId, date, fdata.value.value.value, fdata.value.value.unit));
      store.UpdateAssetPrice(assetId, date, fdata.value.value.value, fdata.value.value.unit);
    }
    return data;
  }

  /** A lookup that returned a price settles: asking again without force returns the
      same price, asks no adapter and writes nothing, whatever the adapters would say. */
  lemma LookupSettles(points: seq<PricePoint>, assets: seq<Asset>, f1: Feeds, f2: Feeds,
                      assetId: string, date: string, force: bool)
    requires LoadNupdateSpec(points, assets, f1, assetId, date, force).price.Some?
    ensures var l1 := LoadNupdateSpec(points, assets, f1, assetId, date, force);
            LoadNupdateSpec(l1.points, assets, f2, assetId, date, false) == Lookup(l1.price, l1.points, false)
  {
  }

  /** A lookup writes at most the one asset and day it was asked for. */
  lemma LookupWritesOnlyTarget(points: seq<PricePoint>, assets: seq<Asset>, feeds: Feeds,
                               assetId: string, date: string, force: bool, a: string, d: string)
    requires !(a == assetId && d == date)
    ensures FindPrice(LoadNupdateSpec(points, assets, feeds, assetId, date, force).points, a, d) == FindPrice(points, a, d)
  {
    var l := LoadNupdateSpec(points, assets, feeds, assetId, date, force);
    if l.points != points {
      UpsertPriceKeepsOthers(points, l.price.value, a, d);
    }
  }

  /** An asset whose category `getFData` does not route is never priced by a fetch:
      when forced, or when nothing is cached, the answer is `null` and nothing is written. */
  lemma UnroutedAssetYieldsNull(points: seq<PricePoint>, assets: seq<Asset>, feeds: Feeds,
                                a: Asset, date: string, force: bool)
    requires FindAsset(assets, a.id) == Some(a) && !Routed(a.category)
    requires force || FindPrice(points, a.id, date).None?
    ensures LoadNupdateSpec(points, assets, feeds, a.id, date, force) == Lookup(None, points, true)
  {
  }
}
