/** The price cache: the `AssetPrice` collection, at most one price per asset and
    day once written through `updateAssetPrice`, in MongoDB's natural order. */
module PriceStore {
  import opened Wrappers

  datatype PricePoint = PricePoint(assetId: string, date: string, value: int, unit: string)

  predicate At(p: PricePoint, assetId: string, date: string) {
    p.assetId == assetId && p.date == date
  }

  /** The position of the first point for that asset and day. */
  function FirstAt(s: seq<PricePoint>, assetId: string, date: string): (r: Option<nat>)
    ensures r.Some? ==> r.value < |s| && At(s[r.value], assetId, date)
    ensures r.Some? ==> forall j :: 0 <= j < r.value ==> !At(s[j], assetId, date)
    ensures r.None? <==> forall j :: 0 <= j < |s| ==> !At(s[j], assetId, date)
  {
    if |s| == 0 then None
    else if At(s[0], assetId, date) then Some(0)
    else match FirstAt(s[1..], assetId, date)
      case None => None
      case Some(j) => Some(j + 1)
  }

  /** `AssetPriceModel.findOne({ _assetId, date })`. */
  function FindPrice(s: seq<PricePoint>, assetId: string, date: string): (r: Option<PricePoint>)
    ensures r.Some? ==> r.value in s && At(r.value, assetId, date)
    ensures r.None? <==> forall p :: p in s ==> !At(p, assetId, date)
  {
    match FirstAt(s, assetId, date)
    case None => None
    case Some(j) => Some(s[j])
  }

  /** Two stores that agree on which positions hold a given asset and day, and on
      what those positions hold, answer the same lookup. */
  lemma FirstAtAgree(s: seq<PricePoint>, t: seq<PricePoint>, assetId: string, date: string)
    requires |s| <= |t|
    requires forall j :: 0 <= j < |s| ==> (At(s[j], assetId, date) <==> At(t[j], assetId, date))
    requires FirstAt(s, assetId, date).Some?
    ensures FirstAt(t, assetId, date) == FirstAt(s, assetId, date)
  {
    var i := FirstAt(s, assetId, date).value;
    var k := FirstAt(t, assetId, date);
    assert At(t[i], assetId, date);
    assert k.Some?;
  }

  /** `updateOne({ _assetId, date }, { $set: p }, { upsert: true })`. */
  function UpsertPrice(s: seq<PricePoint>, p: PricePoint): (t: seq<PricePoint>)
    ensures FindPrice(t, p.assetId, p.date) == Some(p)
    ensures FindPrice(s, p.assetId, p.date).Some? ==> |t| == |s|
    ensures FindPrice(s, p.assetId, p.date).None? ==> t == s + [p]
  {
    match FirstAt(s, p.assetId, p.date)
    case None =>
      var t := s + [p];
      assert t[|s|] == p;
      assert forall j :: 0 <= j < |s| ==> t[j] == s[j];
      assert FirstAt(t, p.assetId, p.date) == Some(|s|);
      t
    case Some(j) =>
      var t := s[j := p];
      FirstAtAgree(s, t, p.assetId, p.date);
      t
  }

  /** An upsert leaves the lookup of every other asset and day as it was. */
  lemma UpsertPriceKeepsOthers(s: seq<PricePoint>, p: PricePoint, a: string, d: string)
    requires !(a == p.assetId && d == p.date)
    ensures FindPrice(UpsertPrice(s, p), a, d) == FindPrice(s, a, d)
  {
    var t := UpsertPrice(s, p);
    match FirstAt(s, p.assetId, p.date)
    case None =>
      assert forall j :: 0 <= j < |s| ==> t[j] == s[j];
      if FirstAt(s, a, d).Some? {
        FirstAtAgree(s, t, a, d);
      }
    case Some(j) =>
      if FirstAt(s, a, d).Some? {
        FirstAtAgree(s, t, a, d);
      } else if FirstAt(t, a, d).Some? {
        FirstAtAgree(t, s, a, d);
      }
  }

  /** Writing the same price twice is writing it once. */
  lemma UpsertPriceIdempotent(s: seq<PricePoint>, p: PricePoint)
    ensures UpsertPrice(UpsertPrice(s, p), p) == UpsertPrice(s, p)
  {
    var t := UpsertPrice(s, p);
    var j := FirstAt(t, p.assetId, p.date).value;
    assert t[j] == p;
    assert t[j := p] == t;
  }

  /** Writing the price already found changes nothing. */
  lemma UpsertFoundIsNoop(s: seq<PricePoint>, p: PricePoint)
    requires FindPrice(s, p.assetId, p.date) == Some(p)
    ensures UpsertPrice(s, p) == s
  {
    var j := FirstAt(s, p.assetId, p.date).value;
    assert s[j := p] == s;
  }

  /** The `AssetPrice` collection. */
  class Store {
    var points: seq<PricePoint>

    constructor (initial: seq<PricePoint>)
      ensures points == initial
    {
      points := initial;
    }

    /** `loadAssetPrice(assetId, date)`. */
    method LoadAssetPrice(assetId: string, date: string) returns (r: Option<PricePoint>)
      ensures r == FindPrice(points, assetId, date)
    {
      r := FindPrice(points, assetId, date);
    }

    /** `updateAssetPrice(assetId, date, value, unit)`. */
    method UpdateAssetPrice(assetId: string, date: string, value: int, unit: string)
      modifies this
      ensures points == UpsertPrice(old(points), PricePoint(assetId, date, value, unit))
    {
      points := UpsertPrice(points, PricePoint(assetId, date, value, unit));
    }
  }
}
