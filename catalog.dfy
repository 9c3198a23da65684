/** The reference collections every layer reads: assets and portfolios, looked
    up by their document id (`Model.findById`). */
module Catalog {
  import opened Wrappers

  /** A tradable asset. `symbol` is only set on assets that the range
      backfill and the symbol-based price lookup use. */
  datatype Asset = Asset(
    id: string,
    name: string,
    ticker: string,
    category: string,
    unit: string,
    symbol: Option<string>)

  /** A portfolio: an id and a display name. */
  datatype Portfolio = Portfolio(id: string, name: string)

  /** `AssetListModel.findById(id)`: ids are unique, so the first match is the match. */
  function FindAsset(assets: seq<Asset>, id: string): (r: Option<Asset>)
    ensures r.Some? ==> r.value in assets && r.value.id == id
    ensures r.None? <==> forall a :: a in assets ==> a.id != id
  {
    if |assets| == 0 then None
    else if assets[0].id == id then Some(assets[0])
    else FindAsset(assets[1..], id)
  }

  /** `PortfolioModel.findById(id)` / `PortfolioListModel.findById(id)`. */
  function FindPortfolio(portfolios: seq<Portfolio>, id: string): (r: Option<Portfolio>)
    ensures r.Some? ==> r.value in portfolios && r.value.id == id
    ensures r.None? <==> forall p :: p in portfolios ==> p.id != id
  {
    if |portfolios| == 0 then None
    else if portfolios[0].id == id then Some(portfolios[0])
    else FindPortfolio(portfolios[1..], id)
  }

  /** No two documents share an id, as MongoDB guarantees for `_id`. */
  predicate UniqueAssetIds(assets: seq<Asset>) {
    forall i, j :: 0 <= i < j < |assets| ==> assets[i].id != assets[j].id
  }

  /** With unique ids, the asset found is the only one with that id. */
  lemma FindAssetExact(assets: seq<Asset>, a: Asset)
    requires UniqueAssetIds(assets) && a in assets
    ensures FindAsset(assets, a.id) == Some(a)
  {
    var k :| 0 <= k < |assets| && assets[k] == a;
    var r := FindAsset(assets, a.id);
    var j :| 0 <= j < |assets| && assets[j] == r.value;
    assert j == k;
  }
}
