/** `db/asset.api.ts`: the decision logic of the asset list handlers and of `updateAsset`,
    over the asset list collection (`Catalog.Asset` documents in natural order). */
module AssetApi {
  import opened Wrappers
  import opened Catalog

  datatype Reply =
    | AllAssets(assets: seq<Asset>)          // 200, the array
    | FoundAsset(asset: Asset)               // 200, the document
    | CreatedAsset(asset: Asset)             // 201
    | UpdatedAsset                           // 200
    | DeletedAsset                           // 200
    | Refused(status: int, message: string)

  const InvalidAssetId: Reply := Refused(400, "Invalid asset ID")
  const AssetMissing: Reply := Refused(404, "Asset not found")
  const FieldsRequired: Reply := Refused(400, "Name, ticker, category, and unit are required")
  const InvalidCategory: Reply := Refused(400, "Invalid category")
  const AlreadyExists: Reply := Refused(400, "Asset category&ticker already exists")

  /** The categories POST accepts. */
  const ValidCategories: seq<string> := ["currency", "crypto", "KOSPI", "KOSDAQ", "NASDAQ", "NYSE"]

  /** The fields of a POST or PUT body; `None` is an absent field. */
  datatype AssetBody = AssetBody(name: Option<string>, ticker: Option<string>, category: Option<string>, unit: Option<string>)

  /** `mongoose.Types.ObjectId.isValid`, which the model takes as given. */
  type IdCheck = string -> bool

  /** No two assets share a category and a ticker. */
  predicate UniqueListing(assets: seq<Asset>) {
    forall i, j :: 0 <= i < j < |assets| ==> !(assets[i].category == assets[j].category && assets[i].ticker == assets[j].ticker)
  }

  predicate Complete(body: AssetBody) {
    Truthy(body.name) && Truthy(body.ticker) && Truthy(body.category) && Truthy(body.unit)
  }

  /** `findById(id)`: the position of the first asset with that id. */
  function AssetPos(assets: seq<Asset>, id: string): (r: Option<nat>)
    ensures r.Some? ==> r.value < |assets| && assets[r.value].id == id
    ensures r.Some? ==> forall j :: 0 <= j < r.value ==> assets[j].id != id
    ensures r.None? <==> forall j :: 0 <= j < |assets| ==> assets[j].id != id
  {
    if |assets| == 0 then None
    else if assets[0].id == id then Some(0)
    else match AssetPos(assets[1..], id)
      case None => None
      case Some(j) => Some(j + 1)
  }

  /** `findOne({ category, ticker })`: whether a listing exists. */
  predicate Listed(assets: seq<Asset>, category: string, ticker: string) {
    exists j :: 0 <= j < |assets| && assets[j].category == category && assets[j].ticker == ticker
  }

  /** GET `/:id`. */
  function GetSpec(assets: seq<Asset>, validId: IdCheck, id: string): (r: Reply)
    ensures !validId(id) ==> r == InvalidAssetId
    ensures validId(id) && AssetPos(assets, id).None? ==> r == AssetMissing
    ensures r.FoundAsset? ==> r.asset in assets && r.asset.id == id
    ensures r.FoundAsset? || r == InvalidAssetId || r == AssetMissing
    // a well-formed id of a stored asset is answered with the first asset holding it
    ensures validId(id) && AssetPos(assets, id).Some? ==> r == FoundAsset(assets[AssetPos(assets, id).value])
  {
    if !validId(id) then InvalidAssetId
    else match AssetPos(assets, id)
      case None => AssetMissing
      case Some(p) => FoundAsset(assets[p])
  }

  /** POST `/`; `newId` is the `_id` the new document receives. */
  function PostSpec(assets: seq<Asset>, body: AssetBody, newId: string): (r: (Reply, seq<Asset>))
    ensures !r.0.CreatedAsset? ==> r.1 == assets
    ensures !Complete(body) ==> r.0 == FieldsRequired
    ensures Complete(body) && body.category.value !in ValidCategories ==> r.0 == InvalidCategory
    ensures Complete(body) && body.category.value in ValidCategories && Listed(assets, body.category.value, body.ticker.value) ==>
              r.0 == AlreadyExists
    ensures r.0.CreatedAsset? <==>
              Complete(body) && body.category.value in ValidCategories && !Listed(assets, body.category.value, body.ticker.value)
    ensures r.0.CreatedAsset? ==>
              r.1 == assets + [r.0.asset] &&
              r.0.asset == Asset(newId, body.name.value, body.ticker.value, body.category.value, body.unit.value, None)
  {
    if !Complete(body) then (FieldsRequired, assets)
    else if body.category.value !in ValidCategories then (InvalidCategory, assets)
    else if Listed(assets, body.category.value, body.ticker.value) then (AlreadyExists, assets)
    else
      var a := Asset(newId, body.name.value, body.ticker.value, body.category.value, body.unit.value, None);
      (CreatedAsset(a), assets + [a])
  }

  /** POST keeps the collection free of duplicate listings. */
  lemma PostKeepsListingsUnique(assets: seq<Asset>, body: AssetBody, newId: string)
    requires UniqueListing(assets)
    ensures UniqueListing(PostSpec(assets, body, newId).1)
  {
    var r := PostSpec(assets, body, newId);
    if r.0.CreatedAsset? {
      var t := r.1;
      forall i, j | 0 <= i < j < |t|
        ensures !(t[i].category == t[j].category && t[i].ticker == t[j].ticker)
      {
        if j == |assets| {
          assert t[i] == assets[i];
        } else {
          assert t[i] == assets[i] && t[j] == assets[j];
        }
      }
    }
  }

  /** PUT `/:id`: the four fields are replaced, with no category or listing check. */
  function PutSpec(assets: seq<Asset>, validId: IdCheck, id: string, body: AssetBody): (r: (Reply, seq<Asset>))
    ensures r.0 != UpdatedAsset ==> r.1 == assets
    ensures !validId(id) ==> r.0 == InvalidAssetId
    ensures validId(id) && !Complete(body) ==> r.0 == FieldsRequired
    ensures validId(id) && Complete(body) && AssetPos(assets, id).None? ==> r.0 == AssetMissing
    ensures r.0 == UpdatedAsset <==> validId(id) && Complete(body) && AssetPos(assets, id).Some?
    ensures r.0 == UpdatedAsset ==>
              var p := AssetPos(assets, id).value;
              |r.1| == |assets| && (forall j :: 0 <= j < |assets| && j != p ==> r.1[j] == assets[j]) &&
              r.1[p] == Asset(id, body.name.value, body.ticker.value, body.category.value, body.unit.value, assets[p].symbol)
  {
    if !validId(id) then (InvalidAssetId, assets)
    else if !Complete(body) then (FieldsRequired, assets)
    else match AssetPos(assets, id)
      case None => (AssetMissing, assets)
      case Some(p) =>
        (UpdatedAsset, assets[p := assets[p].(name := body.name.value, ticker := body.ticker.value,
                                              category := body.category.value, unit := body.unit.value)])
  }

  /** PUT can give an asset the category and ticker of another: two assets, the second
      renamed onto the first's listing. */
  lemma PutCanDuplicateListing(validId: IdCheck)
    requires validId("b")
    ensures var assets := [Asset("a", "Bitcoin", "BTC", "crypto", "KRW", None),
                           Asset("b", "Ether", "ETH", "crypto", "KRW", None)];
            UniqueListing(assets) &&
            !UniqueListing(PutSpec(assets, validId, "b", AssetBody(Some("Bitcoin"), Some("BTC"), Some("crypto"), Some("KRW"))).1)
  {
    var assets := [Asset("a", "Bitcoin", "BTC", "crypto", "KRW", None),
                   Asset("b", "Ether", "ETH", "crypto", "KRW", None)];
    assert AssetPos(assets, "b") == Some(1);
    var t := PutSpec(assets, validId, "b", AssetBody(Some("Bitcoin"), Some("BTC"), Some("crypto"), Some("KRW"))).1;
    assert t[0].category == t[1].category && t[0].ticker == t[1].ticker;
  }

  /** DELETE `/:id`. */
  function DeleteSpec(assets: seq<Asset>, validId: IdCheck, id: string): (r: (Reply, seq<Asset>))
    ensures r.0 != DeletedAsset ==> r.1 == assets
    ensures !validId(id) ==> r.0 == InvalidAssetId
    ensures validId(id) && AssetPos(assets, id).None? ==> r.0 == AssetMissing
    ensures r.0 == DeletedAsset <==> validId(id) && AssetPos(assets, id).Some?
    ensures r.0 == DeletedAsset ==>
              var p := AssetPos(assets, id).value;
              r.1 == assets[..p] + assets[p + 1..]
  {
    if !validId(id) then (InvalidAssetId, assets)
    else match AssetPos(assets, id)
      case None => (AssetMissing, assets)
      case Some(p) => (DeletedAsset, assets[..p] + assets[p + 1..])
  }

  /** With unique ids, DELETE removes exactly that asset and keeps the others in order. */
  lemma DeleteRemovesOnlyThatAsset(assets: seq<Asset>, validId: IdCheck, id: string)
    requires UniqueAssetIds(assets)
    requires DeleteSpec(assets, validId, id).0 == DeletedAsset
    ensures var t := DeleteSpec(assets, validId, id).1;
            |t| == |assets| - 1 && (forall x :: x in t <==> x in assets && x.id != id)
  {
    var p := AssetPos(assets, id).value;
    var t := assets[..p] + assets[p + 1..];
    forall y | y in assets && y.id != id ensures y in t {
      var j :| 0 <= j < |assets| && assets[j] == y;
      if j < p { assert t[j] == y; } else { assert t[j - 1] == y; }
    }
    forall y | y in t ensures y in assets && y.id != id {
      var j :| 0 <= j < |t| && t[j] == y;
      if j < p { assert y == assets[j]; } else { assert y == assets[j + 1]; }
    }
  }

  /** The argument of `updateAsset`; the unit may be absent. */
  datatype AssetData = AssetData(category: Option<string>, name: Option<string>, ticker: Option<string>, unit: Option<string>)

  const UpdateFieldsRequired: Thrown := PlainError("Category, name, and ticker are required")

  predicate IsNamed(a: Asset, name: string, category: string, ticker: string) {
    a.name == name && a.category == category && a.ticker == ticker
  }

  /** The first asset with that name, category and ticker. */
  function Named(assets: seq<Asset>, name: string, category: string, ticker: string): (r: Option<nat>)
    ensures r.Some? ==> r.value < |assets| && IsNamed(assets[r.value], name, category, ticker)
    ensures r.Some? ==> forall j :: 0 <= j < r.value ==> !IsNamed(assets[j], name, category, ticker)
    ensures r.None? <==> forall j :: 0 <= j < |assets| ==> !IsNamed(assets[j], name, category, ticker)
  {
    if |assets| == 0 then None
    else if IsNamed(assets[0], name, category, ticker) then Some(0)
    else match Named(assets[1..], name, category, ticker)
      case None => None
      case Some(j) => Some(j + 1)
  }

  /** The first match is at `p` when `p` matches and nothing before it does. */
  lemma NamedAt(t: seq<Asset>, name: string, category: string, ticker: string, p: nat)
    requires p < |t| && IsNamed(t[p], name, category, ticker)
    requires forall j :: 0 <= j < p ==> !IsNamed(t[j], name, category, ticker)
    ensures Named(t, name, category, ticker) == Some(p)
  {
    var r := Named(t, name, category, ticker);
    assert r.Some?;
  }

  /** The filter of `updateAsset` needs all three of category, name and ticker. */
  predicate HasFilter(data: AssetData) {
    Truthy(data.category) && Truthy(data.name) && Truthy(data.ticker)
  }

  /** The document an upsert writes at position `p`: only the unit changes, and only when given. */
  function Refreshed(a: Asset, unit: Option<string>): Asset {
    a.(unit := if unit.Some? then unit.value else a.unit)
  }

  /** `updateAsset(data)`: `updateOne({ name, category, ticker }, data, { upsert: true })`.
      An absent unit leaves a stored unit as it is; an inserted asset without one gets `""`. */
  function UpdateAssetSpec(assets: seq<Asset>, data: AssetData, newId: string): (r: Result<seq<Asset>, Thrown>)
    ensures !HasFilter(data) <==> r == Failure(UpdateFieldsRequired)
  {
    if !HasFilter(data) then Failure(UpdateFieldsRequired)
    else match Named(assets, data.name.value, data.category.value, data.ticker.value)
      case Some(p) => Success(assets[p := Refreshed(assets[p], data.unit)])
      case None => Success(assets + [Asset(newId, data.name.value, data.ticker.value, data.category.value, OrElse(data.unit, ""), None)])
  }

  /** A matching asset is updated where it stands and nothing else changes; without one a
      new asset is appended; either way the filter then finds an asset. */
  lemma UpdateAssetUpserts(assets: seq<Asset>, data: AssetData, newId: string)
    requires HasFilter(data)
    ensures var name, category, ticker := data.name.value, data.category.value, data.ticker.value;
            var t := UpdateAssetSpec(assets, data, newId).value;
            var q := Named(assets, name, category, ticker);
            (q.Some? ==> |t| == |assets| && (forall j :: 0 <= j < |assets| && j != q.value ==> t[j] == assets[j]) &&
                         t[q.value] == Refreshed(assets[q.value], data.unit) &&
                         Named(t, name, category, ticker) == q) &&
            (q.None? ==> t == assets + [Asset(newId, name, ticker, category, OrElse(data.unit, ""), None)] &&
                         Named(t, name, category, ticker) == Some(|assets|))
  {
    var name, category, ticker := data.name.value, data.category.value, data.ticker.value;
    var t := UpdateAssetSpec(assets, data, newId).value;
    var q := Named(assets, name, category, ticker);
    if q.Some? {
      NamedAt(t, name, category, ticker, q.value);
    } else {
      assert forall j :: 0 <= j < |assets| ==> t[j] == assets[j];
      NamedAt(t, name, category, ticker, |assets|);
    }
  }

  /** Upserting the same data twice is upserting it once. */
  lemma UpdateAssetIdempotent(assets: seq<Asset>, data: AssetData, newId: string, newId2: string)
    requires UpdateAssetSpec(assets, data, newId).Success?
    ensures var once := UpdateAssetSpec(assets, data, newId).value;
            UpdateAssetSpec(once, data, newId2) == Success(once)
  {
    var once := UpdateAssetSpec(assets, data, newId).value;
    UpdateAssetUpserts(assets, data, newId);
    var p := Named(once, data.name.value, data.category.value, data.ticker.value).value;
    assert Refreshed(once[p], data.unit) == once[p];
    assert once[p := once[p]] == once;
  }

  /** The asset list collection behind the handlers. */
  class AssetTable {
    var assets: seq<Asset>

    constructor (initial: seq<Asset>)
      ensures assets == initial
    {
      assets := initial;
    }

    /** GET `/`: the whole collection. */
    method GetAll() returns (r: Reply)
      ensures r == AllAssets(assets)
    {
      return AllAssets(assets);
    }

    method Get(validId: IdCheck, id: string) returns (r: Reply)
      ensures r == GetSpec(assets, validId, id)
    {
      if !validId(id) {
        return InvalidAssetId;
      }
      var p := AssetPos(assets, id);
      if p.None? {
        return AssetMissing;
      }
      return FoundAsset(assets[p.value]);
    }

    method Post(body: AssetBody, newId: string) returns (r: Reply)
      modifies this
      ensures (r, assets) == PostSpec(old(assets), body, newId)
    {
      if !Complete(body) {
        return FieldsRequired;
      }
      if body.category.value !in ValidCategories {
        return InvalidCategory;
      }
      if Listed(assets, body.category.value, body.ticker.value) {
        return AlreadyExists;
      }
      var a := Asset(newId, body.name.value, body.ticker.value, body.category.value, body.unit.value, None);
      assets := assets + [a];
      return CreatedAsset(a);
    }

    method Put(validId: IdCheck, id: string, body: AssetBody) returns (r: Reply)
      modifies this
      ensures (r, assets) == PutSpec(old(assets), validId, id, body)
    {
      if !validId(id) {
        return InvalidAssetId;
      }
      if !Complete(body) {
        return FieldsRequired;
      }
      var p := AssetPos(assets, id);
      if p.None? {
        return AssetMissing;
      }
      var k := p.value;
      assets := assets[k := assets[k].(name := body.name.value, ticker := body.ticker.value,
                                        category := body.category.value, unit := body.unit.value)];
      return UpdatedAsset;
    }

    method Delete(validId: IdCheck, id: string) returns (r: Reply)
      modifies this
      ensures (r, assets) == DeleteSpec(old(assets), validId, id)
    {
      if !validId(id) {
        return InvalidAssetId;
      }
      var p := AssetPos(assets, id);
      if p.None? {
        return AssetMissing;
      }
      assets := assets[..p.value] + assets[p.value + 1..];
      return DeletedAsset;
    }

    /** `updateAsset(data)`. */
    method UpdateAsset(data: AssetData, newId: string) returns (r: Outcome<Thrown>)
      modifies this
      ensures UpdateAssetSpec(old(assets), data, newId).Failure? ==>
                r == Fail(UpdateAssetSpec(old(assets), data, newId).error) && assets == old(assets)
      ensures UpdateAssetSpec(old(assets), data, newId).Success? ==>
                r == Pass && assets == UpdateAssetSpec(old(assets), data, newId).value
    {
      var next := UpdateAssetSpec(assets, data, newId);
      if next.Failure? {
        return Fail(next.error);
      }
      assets := next.value;
      return Pass;
    }
  }
}
