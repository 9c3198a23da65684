/** `services/portfolio.service.ts`: the service layer's portfolio snapshots. A snapshot
    is one document per portfolio and day listing the portfolio's assets with their
    quantity, value and unit, and a total in won.

    The `PortfolioSnapshot` collection is a sequence in MongoDB's natural order; the
    `Portfolio` collection is read through `Catalog.FindPortfolio` and the service-layer
    `Asset` collection as a map from id to document. */
module PortfolioService {
  import opened Wrappers
  import opened Ordering
  import opened Catalog
  import opened AssetService
  import opened Timezone

  /** One asset entry of a snapshot. */
  datatype SnapAsset = SnapAsset(assetId: string, name: string, ticker: string,
                                 quantity: int, value: int, unit: string)

  /** A stored snapshot. */
  datatype Snapshot = Snapshot(portfolioId: string, date: string, assets: seq<SnapAsset>,
                               total: int, unit: string)

  /** A snapshot document as the code builds it before `save()`: the unit may be missing. */
  datatype SnapshotDoc = SnapshotDoc(portfolioId: string, date: string, assets: seq<SnapAsset>,
                                     total: int, unit: Option<string>)

  /** `PortfolioAssetInput`. */
  datatype AssetInput = AssetInput(assetId: string, date: string, quantity: int, value: int, unit: string)

  /** `assetService.getAssetDataByDate(assetId, date)`, as the answer it settles to. */
  type AssetLookup = (string, string) -> Result<AssetResponse, Thrown>

  const PortfolioNotFound: Thrown := ApiError(404, "Portfolio not found")
  const UnknownAsset: Thrown := ApiError(400, "Asset not found")

  /** The path the schema requires and `addOrUpdateAssetToPortfolio` leaves out. */
  const UnitPath: string := "total_portfolio_unit"

  /** The unit a total starts from. */
  const Won: string := "KRW"
  const Mixed: string := "Mixed"

  /** `save()` of a new document: Mongoose refuses one without its required unit. */
  function Save(doc: SnapshotDoc): (r: Result<Snapshot, Thrown>)
    ensures doc.unit.None? <==> r == Failure(ValidationError(UnitPath))
    ensures r.Success? ==> r.value.portfolioId == doc.portfolioId && r.value.date == doc.date &&
                           r.value.assets == doc.assets && r.value.total == doc.total && r.value.unit == doc.unit.value
  {
    match doc.unit
    case None => Failure(ValidationError(UnitPath))
    case Some(u) => Success(Snapshot(doc.portfolioId, doc.date, doc.assets, doc.total, u))
  }

  /** `PortfolioSnapshotModel.findOne({ portfolio_id, date })`: the first snapshot of that
      portfolio and day. */
  function FirstSnapshot(snaps: seq<Snapshot>, portfolioId: string, date: string): (r: Option<nat>)
    ensures r.Some? ==> r.value < |snaps| && snaps[r.value].portfolioId == portfolioId && snaps[r.value].date == date
    ensures r.Some? ==> forall j :: 0 <= j < r.value ==> !(snaps[j].portfolioId == portfolioId && snaps[j].date == date)
    ensures r.None? <==> forall j :: 0 <= j < |snaps| ==> !(snaps[j].portfolioId == portfolioId && snaps[j].date == date)
  {
    if |snaps| == 0 then None
    else if snaps[0].portfolioId == portfolioId && snaps[0].date == date then Some(0)
    else match FirstSnapshot(snaps[1..], portfolioId, date)
      case None => None
      case Some(j) => Some(j + 1)
  }

  /** `snapshot.assets.findIndex(a => a.asset_id === assetId)`, `None` for `-1`. */
  function FindEntry(assets: seq<SnapAsset>, assetId: string): (r: Option<nat>)
    ensures r.Some? ==> r.value < |assets| && assets[r.value].assetId == assetId
    ensures r.Some? ==> forall j :: 0 <= j < r.value ==> assets[j].assetId != assetId
    ensures r.None? <==> forall j :: 0 <= j < |assets| ==> assets[j].assetId != assetId
  {
    if |assets| == 0 then None
    else if assets[0].assetId == assetId then Some(0)
    else match FindEntry(assets[1..], assetId)
      case None => None
      case Some(j) => Some(j + 1)
  }

  /** The entry built for an asset not yet in the snapshot. */
  function NewEntry(asset: StoredAsset, input: AssetInput): SnapAsset {
    SnapAsset(asset.id, asset.name, asset.ticker, input.quantity, input.value, input.unit)
  }

  /** `addOrUpdateAssetToPortfolio(portfolioId, input)` over the snapshot collection;
      `newUnit` is the unit the new-snapshot branch gives its document. The code as
      written gives none (`None`); the corrected model gives `KRW`. */
  function AddOrUpdate(portfolios: seq<Portfolio>, assets: map<string, StoredAsset>, snaps: seq<Snapshot>,
                       portfolioId: string, input: AssetInput, newUnit: Option<string>): (r: (Outcome<Thrown>, seq<Snapshot>))
    // a failure changes nothing
    ensures r.0.Fail? ==> r.1 == snaps
    ensures FindPortfolio(portfolios, portfolioId).None? ==> r == (Fail(PortfolioNotFound), snaps)
    // an entry for the asset is updated in place: same position, same identity, same array length
    ensures FindPortfolio(portfolios, portfolioId).Some? && FirstSnapshot(snaps, portfolioId, input.date).Some? ==>
              var k := FirstSnapshot(snaps, portfolioId, input.date).value;
              FindEntry(snaps[k].assets, input.assetId).Some? ==>
                var i := FindEntry(snaps[k].assets, input.assetId).value;
                r.0 == Pass && |r.1| == |snaps| &&
                (forall j :: 0 <= j < |snaps| && j != k ==> r.1[j] == snaps[j]) &&
                r.1[k].portfolioId == snaps[k].portfolioId && r.1[k].date == snaps[k].date &&
                r.1[k].total == snaps[k].total && r.1[k].unit == snaps[k].unit &&
                |r.1[k].assets| == |snaps[k].assets| &&
                (forall j :: 0 <= j < |snaps[k].assets| && j != i ==> r.1[k].assets[j] == snaps[k].assets[j]) &&
                r.1[k].assets[i] == SnapAsset(snaps[k].assets[i].assetId, snaps[k].assets[i].name, snaps[k].assets[i].ticker,
                                              input.quantity, input.value, input.unit)
    // an asset not yet listed is appended, or refused when unknown
    ensures FindPortfolio(portfolios, portfolioId).Some? && FirstSnapshot(snaps, portfolioId, input.date).Some? ==>
              var k := FirstSnapshot(snaps, portfolioId, input.date).value;
              FindEntry(snaps[k].assets, input.assetId).None? ==>
                if input.assetId !in assets then r == (Fail(UnknownAsset), snaps)
                else r.0 == Pass && r.1 == snaps[k := snaps[k].(assets := snaps[k].assets + [NewEntry(assets[input.assetId], input)])]
    // without a snapshot for the day, a new one with just that asset and a zero total is saved
    ensures FindPortfolio(portfolios, portfolioId).Some? && FirstSnapshot(snaps, portfolioId, input.date).None? ==>
              if input.assetId !in assets then r == (Fail(UnknownAsset), snaps)
              else if newUnit.None? then r == (Fail(ValidationError(UnitPath)), snaps)
              else r == (Pass, snaps + [Snapshot(portfolioId, input.date, [NewEntry(assets[input.assetId], input)], 0, newUnit.value)])
  {
    if FindPortfolio(portfolios, portfolioId).None? then (Fail(PortfolioNotFound), snaps)
    else match FirstSnapshot(snaps, portfolioId, input.date)
      case Some(k) =>
        var snapshot := snaps[k];
        (match FindEntry(snapshot.assets, input.assetId)
         case Some(i) =>
           var e := snapshot.assets[i];
           var e' := e.(quantity := input.quantity, value := input.value, unit := input.unit);
           (Pass, snaps[k := snapshot.(assets := snapshot.assets[i := e'])])
         case None =>
           if input.assetId !in assets then (Fail(UnknownAsset), snaps)
           else (Pass, snaps[k := snapshot.(assets := snapshot.assets + [NewEntry(assets[input.assetId], input)])]))
      case None =>
        if input.assetId !in assets then (Fail(UnknownAsset), snaps)
        else
          var doc := SnapshotDoc(portfolioId, input.date, [NewEntry(assets[input.assetId], input)], 0, newUnit);
          match Save(doc)
          case Failure(e) => (Fail(e), snaps)
          case Success(s) => (Pass, snaps + [s])
  }

  /** As written, adding an asset to a day that has no snapshot yet always fails
      validation and stores nothing. */
  lemma NewSnapshotFailsValidation(portfolios: seq<Portfolio>, assets: map<string, StoredAsset>, snaps: seq<Snapshot>,
                                   portfolioId: string, input: AssetInput)
    requires FindPortfolio(portfolios, portfolioId).Some? && input.assetId in assets
    requires FirstSnapshot(snaps, portfolioId, input.date).None?
    ensures AddOrUpdate(portfolios, assets, snaps, portfolioId, input, None) == (Fail(ValidationError(UnitPath)), snaps)
  {
  }

  /** The entry for an asset in the first snapshot of a portfolio and day, if any. */
  function EntryOf(snaps: seq<Snapshot>, portfolioId: string, date: string, assetId: string): (r: Option<SnapAsset>)
    ensures r.Some? ==> r.value.assetId == assetId
  {
    match FirstSnapshot(snaps, portfolioId, date)
    case None => None
    case Some(k) =>
      match FindEntry(snaps[k].assets, assetId)
      case None => None
      case Some(i) => Some(snaps[k].assets[i])
  }

  /** A known asset added to a known portfolio always ends up in that day's first
      snapshot with the given quantity, value and unit, once the new snapshot carries
      a unit. */
  lemma AddedAssetIsListed(portfolios: seq<Portfolio>, assets: map<string, StoredAsset>, snaps: seq<Snapshot>,
                           portfolioId: string, input: AssetInput)
    requires FindPortfolio(portfolios, portfolioId).Some? && input.assetId in assets
    requires assets[input.assetId].id == input.assetId
    ensures var r := AddOrUpdate(portfolios, assets, snaps, portfolioId, input, Some(Won));
            var e := EntryOf(r.1, portfolioId, input.date, input.assetId);
            r.0 == Pass && e.Some? &&
            e.value.quantity == input.quantity && e.value.value == input.value && e.value.unit == input.unit
  {
    var r := AddOrUpdate(portfolios, assets, snaps, portfolioId, input, Some(Won));
    var found := FirstSnapshot(snaps, portfolioId, input.date);
    if found.Some? {
      var k := found.value;
      SameFirstSnapshot(snaps, r.1, portfolioId, input.date, k);
      var a := snaps[k].assets;
      var i := FindEntry(a, input.assetId);
      if i.Some? {
        SameFirstEntry(a, r.1[k].assets, input.assetId, i.value);
      } else {
        AppendedEntry(a, NewEntry(assets[input.assetId], input), input.assetId);
      }
    } else {
      assert r.1 == snaps + [r.1[|snaps|]];
      AppendedSnapshot(snaps, r.1[|snaps|], portfolioId, input.date);
      assert r.1[|snaps|].assets[0].assetId == input.assetId;
    }
  }

  lemma SameFirstSnapshot(s: seq<Snapshot>, t: seq<Snapshot>, portfolioId: string, date: string, k: nat)
    requires FirstSnapshot(s, portfolioId, date) == Some(k) && |s| == |t|
    requires forall j :: 0 <= j < |s| && j != k ==> t[j] == s[j]
    requires t[k].portfolioId == portfolioId && t[k].date == date
    ensures FirstSnapshot(t, portfolioId, date) == Some(k)
  {
    assert forall j :: 0 <= j < k ==> t[j] == s[j];
  }

  lemma AppendedSnapshot(s: seq<Snapshot>, x: Snapshot, portfolioId: string, date: string)
    requires FirstSnapshot(s, portfolioId, date).None?
    requires x.portfolioId == portfolioId && x.date == date
    ensures FirstSnapshot(s + [x], portfolioId, date) == Some(|s|)
  {
    var t := s + [x];
    assert t[|s|] == x;
    assert forall j :: 0 <= j < |s| ==> t[j] == s[j];
  }

  lemma SameFirstEntry(a: seq<SnapAsset>, b: seq<SnapAsset>, assetId: string, i: nat)
    requires FindEntry(a, assetId) == Some(i) && |a| == |b|
    requires forall j :: 0 <= j < |a| && j != i ==> b[j] == a[j]
    requires b[i].assetId == assetId
    ensures FindEntry(b, assetId) == Some(i)
  {
    assert forall j :: 0 <= j < i ==> b[j] == a[j];
  }

  lemma AppendedEntry(a: seq<SnapAsset>, x: SnapAsset, assetId: string)
    requires FindEntry(a, assetId).None? && x.assetId == assetId
    ensures FindEntry(a + [x], assetId) == Some(|a|)
  {
    var b := a + [x];
    assert b[|a|] == x;
    assert forall j :: 0 <= j < |a| ==> b[j] == a[j];
  }

  /** The key under which a foreign unit's rate to won is looked up: `<ticker>-KRW`. */
  function RateKey(a: SnapAsset): string {
    a.ticker + "-KRW"
  }

  /** Some foreign entry of `s` finds no rate. */
  predicate MissingRate(s: seq<SnapAsset>, rate: AssetLookup, date: string) {
    exists j :: 0 <= j < |s| && s[j].unit != Won && rate(RateKey(s[j]), date).Failure?
  }

  /** One entry's value in won: a foreign value times its rate, or the value itself when
      the entry is in won or its rate is missing. */
  function WonValue(a: SnapAsset, rate: AssetLookup, date: string): (v: int)
    ensures a.unit == Won ==> v == a.value
    ensures a.unit != Won && rate(RateKey(a), date).Success? ==> v == a.value * rate(RateKey(a), date).value.value
    ensures a.unit != Won && rate(RateKey(a), date).Failure? ==> v == a.value
  {
    if a.unit == Won then a.value
    else match rate(RateKey(a), date)
      case Success(info) => a.value * info.value
      case Failure(_) => a.value
  }

  /** The total `getPortfolioSnapshotByDate` evidently means: the sum of quantity times
      value in won over the entries. */
  function RateTotal(s: seq<SnapAsset>, rate: AssetLookup, date: string): (t: int)
    ensures (forall j :: 0 <= j < |s| ==> s[j].unit == Won) ==> t == PlainTotal(s)
    decreases |s|
  {
    if |s| == 0 then 0
    else
      assert s[..|s| - 1] + [s[|s| - 1]] == s;
      RateTotal(s[..|s| - 1], rate, date) + s[|s| - 1].quantity * WonValue(s[|s| - 1], rate, date)
  }

  /** Quantity times value summed over the entries, in whatever unit they carry. */
  function PlainTotal(s: seq<SnapAsset>): int
    decreases |s|
  {
    if |s| == 0 then 0 else PlainTotal(s[..|s| - 1]) + s[|s| - 1].quantity * s[|s| - 1].value
  }

  /** The total and unit of a snapshot as the code evidently intends them: `Mixed` exactly
      when some foreign entry finds no rate. */
  function IntendedTotals(s: seq<SnapAsset>, rate: AssetLookup, date: string): (r: (int, string))
    ensures r.1 == Mixed <==> MissingRate(s, rate, date)
    ensures r.1 == Won <==> !MissingRate(s, rate, date)
    ensures r.0 == RateTotal(s, rate, date)
  {
    (RateTotal(s, rate, date), if MissingRate(s, rate, date) then Mixed else Won)
  }

  /** The totals as the code computes them: the rate lookup throws rather than resolving
      to nothing, so the first foreign entry without a rate rejects the whole call. */
  function TotalsAsWritten(s: seq<SnapAsset>, rate: AssetLookup, date: string): (r: Result<int, Thrown>)
    decreases |s|
  {
    if |s| == 0 then Success(0)
    else
      var a := s[|s| - 1];
      match TotalsAsWritten(s[..|s| - 1], rate, date)
      case Failure(e) => Failure(e)
      case Success(t) =>
        if a.unit != Won && rate(RateKey(a), date).Failure? then Failure(rate(RateKey(a), date).error)
        else Success(t + a.quantity * WonValue(a, rate, date))
  }

  /** As written, the `Mixed` unit is never reported: a missing rate makes the call reject,
      and otherwise the code's total is the intended one under the unit `KRW`. */
  lemma {:induction false} AsWrittenNeverMixed(s: seq<SnapAsset>, rate: AssetLookup, date: string)
    ensures TotalsAsWritten(s, rate, date).Failure? <==> MissingRate(s, rate, date)
    ensures TotalsAsWritten(s, rate, date).Success? ==>
              TotalsAsWritten(s, rate, date).value == IntendedTotals(s, rate, date).0 &&
              IntendedTotals(s, rate, date).1 == Won
    decreases |s|
  {
    if |s| > 0 {
      var p := s[..|s| - 1];
      var a := s[|s| - 1];
      AsWrittenNeverMixed(p, rate, date);
      assert forall j :: 0 <= j < |p| ==> p[j] == s[j];
      if MissingRate(p, rate, date) {
        var j :| 0 <= j < |p| && p[j].unit != Won && rate(RateKey(p[j]), date).Failure?;
        assert s[j] == p[j];
      }
      if MissingRate(s, rate, date) && !MissingRate(p, rate, date) {
        var j :| 0 <= j < |s| && s[j].unit != Won && rate(RateKey(s[j]), date).Failure?;
        assert j == |s| - 1;
      }
    }
  }

  /** A single foreign entry without a rate: the intended snapshot is `Mixed`, the code
      rejects with the lookup's error instead. */
  lemma MissingRateExample(rate: AssetLookup, date: string, a: SnapAsset)
    requires a.unit == "USD" && rate(RateKey(a), date).Failure?
    ensures IntendedTotals([a], rate, date) == (a.quantity * a.value, Mixed)
    ensures TotalsAsWritten([a], rate, date) == Failure(rate(RateKey(a), date).error)
  {
    assert [a][..0] == [];
    assert MissingRate([a], rate, date) by {
      assert [a][0] == a;
    }
  }

  /** Entries in won alone never consult a rate and are summed as they are. */
  lemma AllWonIgnoresRates(s: seq<SnapAsset>, rate: AssetLookup, date: string)
    requires forall j :: 0 <= j < |s| ==> s[j].unit == Won
    ensures IntendedTotals(s, rate, date) == (PlainTotal(s), Won)
  {
  }

  /** Whether a daily lookup of the entry succeeded. */
  function Info(a: SnapAsset, lookup: AssetLookup, date: string): Result<AssetResponse, Thrown> {
    lookup(a.assetId, date)
  }

  /** The new snapshot's entry for a previous entry: the fresh value and currency on
      success, the previous entry unchanged on failure. */
  function DailyEntry(a: SnapAsset, info: Result<AssetResponse, Thrown>): (e: SnapAsset)
    ensures e.assetId == a.assetId && e.name == a.name && e.ticker == a.ticker && e.quantity == a.quantity
    ensures info.Failure? ==> e == a
    ensures info.Success? ==> e.value == info.value.value && e.unit == info.value.currency
  {
    match info
    case Success(x) => a.(value := x.value, unit := x.currency)
    case Failure(_) => a
  }

  function DailyAssets(s: seq<SnapAsset>, lookup: AssetLookup, date: string): (r: seq<SnapAsset>)
    ensures |r| == |s|
    ensures forall i :: 0 <= i < |s| ==> r[i] == DailyEntry(s[i], Info(s[i], lookup, date))
    decreases |s|
  {
    if |s| == 0 then []
    else DailyAssets(s[..|s| - 1], lookup, date) + [DailyEntry(s[|s| - 1], Info(s[|s| - 1], lookup, date))]
  }

  /** `convertCurrency(amount, from, to, date)`: no conversion is implemented, so the
      amount comes back unchanged whatever the currencies. */
  function ConvertCurrency(amount: int, fromCurrency: string, toCurrency: string, date: string): (r: int)
    ensures r == amount
  {
    if fromCurrency == toCurrency then amount else amount
  }

  /** What one entry adds to the daily total: quantity times the fresh value, converted
      when the previous entry was foreign; nothing when its lookup failed. */
  function DailyGain(a: SnapAsset, info: Result<AssetResponse, Thrown>, date: string): (g: int)
    ensures info.Failure? ==> g == 0
    ensures info.Success? ==> g == a.quantity * info.value.value
  {
    match info
    case Success(x) => a.quantity * (if a.unit == Won then x.value else ConvertCurrency(x.value, x.currency, Won, date))
    case Failure(_) => 0
  }

  /** The daily total over the entries. */
  function DailyTotal(s: seq<SnapAsset>, lookup: AssetLookup, date: string): int
    decreases |s|
  {
    if |s| == 0 then 0
    else DailyTotal(s[..|s| - 1], lookup, date) + DailyGain(s[|s| - 1], Info(s[|s| - 1], lookup, date), date)
  }

  /** Quantity times fresh value summed over the entries whose lookup succeeded. */
  function SuccessTotal(s: seq<SnapAsset>, lookup: AssetLookup, date: string): int
    decreases |s|
  {
    if |s| == 0 then 0
    else
      var a := s[|s| - 1];
      SuccessTotal(s[..|s| - 1], lookup, date) + (if Info(a, lookup, date).Success? then a.quantity * Info(a, lookup, date).value.value else 0)
  }

  /** Since no conversion happens, the daily total counts every fresh value as won,
      whatever currency it is in. */
  lemma {:induction false} DailyTotalIgnoresCurrency(s: seq<SnapAsset>, lookup: AssetLookup, date: string)
    ensures DailyTotal(s, lookup, date) == SuccessTotal(s, lookup, date)
    decreases |s|
  {
    if |s| > 0 {
      DailyTotalIgnoresCurrency(s[..|s| - 1], lookup, date);
    }
  }

  /** `portfolioUnit` after the loop: each foreign entry sets it, to `KRW` on success and
      to `Mixed` on failure. */
  function DailyUnit(s: seq<SnapAsset>, lookup: AssetLookup, date: string): string
    decreases |s|
  {
    if |s| == 0 then Won
    else
      var a := s[|s| - 1];
      if a.unit == Won then DailyUnit(s[..|s| - 1], lookup, date)
      else if Info(a, lookup, date).Success? then Won else Mixed
  }

  /** The position of the last foreign entry. */
  function LastForeign(s: seq<SnapAsset>): (r: Option<nat>)
    ensures r.Some? ==> r.value < |s| && s[r.value].unit != Won && forall j :: r.value < j < |s| ==> s[j].unit == Won
    ensures r.None? <==> forall j :: 0 <= j < |s| ==> s[j].unit == Won
    decreases |s|
  {
    if |s| == 0 then None
    else if s[|s| - 1].unit != Won then Some(|s| - 1)
    else LastForeign(s[..|s| - 1])
  }

  /** The daily unit is decided by the last foreign entry alone: `Mixed` exactly when its
      lookup failed, whatever happened to earlier ones; `KRW` when there is none. */
  lemma {:induction false} DailyUnitIsLastForeign(s: seq<SnapAsset>, lookup: AssetLookup, date: string)
    ensures LastForeign(s).None? ==> DailyUnit(s, lookup, date) == Won
    ensures LastForeign(s).Some? ==>
              DailyUnit(s, lookup, date) == (if Info(s[LastForeign(s).value], lookup, date).Success? then Won else Mixed)
    decreases |s|
  {
    if |s| > 0 && s[|s| - 1].unit == Won {
      var p := s[..|s| - 1];
      DailyUnitIsLastForeign(p, lookup, date);
      assert forall j :: 0 <= j < |p| ==> p[j] == s[j];
    }
  }

  /** `findOne({ portfolio_id, date: { $lte: date } }).sort({ date: -1 })`: among the first
      `k` snapshots, the first one of the portfolio with the latest day on or before `date`. */
  function Latest(snaps: seq<Snapshot>, portfolioId: string, date: string, k: nat): (r: Option<nat>)
    requires k <= |snaps|
    ensures r.Some? ==> r.value < k && snaps[r.value].portfolioId == portfolioId && LexLe(snaps[r.value].date, date)
    ensures r.Some? ==> forall j :: 0 <= j < k && snaps[j].portfolioId == portfolioId && LexLe(snaps[j].date, date) ==>
                          LexLe(snaps[j].date, snaps[r.value].date)
    ensures r.None? <==> forall j :: 0 <= j < k ==> !(snaps[j].portfolioId == portfolioId && LexLe(snaps[j].date, date))
    decreases k
  {
    if k == 0 then None
    else
      var best := Latest(snaps, portfolioId, date, k - 1);
      var s := snaps[k - 1];
      if s.portfolioId == portfolioId && LexLe(s.date, date) then
        if best.None? then
          LexLeReflexive(s.date);
          Some(k - 1)
        else if LexLe(s.date, snaps[best.value].date) then best
        else
          LexLeTotal(s.date, snaps[best.value].date);
          forall j | 0 <= j < k - 1 && snaps[j].portfolioId == portfolioId && LexLe(snaps[j].date, date)
            ensures LexLe(snaps[j].date, s.date)
          {
            LexLeTransitive(snaps[j].date, snaps[best.value].date, s.date);
          }
          LexLeReflexive(s.date);
          Some(k - 1)
      else best
  }

  /** `createDailyPortfolioSnapshot(portfolioId, date)` over the snapshot collection. */
  function DailySpec(portfolios: seq<Portfolio>, snaps: seq<Snapshot>, lookup: AssetLookup,
                     portfolioId: string, date: string): (r: (Outcome<Thrown>, seq<Snapshot>))
    ensures FindPortfolio(portfolios, portfolioId).None? ==> r == (Fail(PortfolioNotFound), snaps)
    ensures FindPortfolio(portfolios, portfolioId).Some? ==> r.0 == Pass
    // nothing is written when the day already has a snapshot or nothing precedes it
    ensures FirstSnapshot(snaps, portfolioId, date).Some? || Latest(snaps, portfolioId, date, |snaps|).None? ==> r.1 == snaps
    ensures r.1 != snaps ==>
              var prev := snaps[Latest(snaps, portfolioId, date, |snaps|).value];
              FirstSnapshot(snaps, portfolioId, date).None? &&
              r.1 == snaps + [Snapshot(portfolioId, date, DailyAssets(prev.assets, lookup, date),
                                       DailyTotal(prev.assets, lookup, date), DailyUnit(prev.assets, lookup, date))]
    // a known portfolio with no snapshot for the day and an earlier one gets the day's snapshot
    ensures FindPortfolio(portfolios, portfolioId).Some? && FirstSnapshot(snaps, portfolioId, date).None? &&
            Latest(snaps, portfolioId, date, |snaps|).Some? ==>
              var prev := snaps[Latest(snaps, portfolioId, date, |snaps|).value];
              r.1 == snaps + [Snapshot(portfolioId, date, DailyAssets(prev.assets, lookup, date),
                                       DailyTotal(prev.assets, lookup, date), DailyUnit(prev.assets, lookup, date))]
  {
    if FindPortfolio(portfolios, portfolioId).None? then (Fail(PortfolioNotFound), snaps)
    else if FirstSnapshot(snaps, portfolioId, date).Some? then (Pass, snaps)
    else match Latest(snaps, portfolioId, date, |snaps|)
      case None => (Pass, snaps)
      case Some(k) =>
        var prev := snaps[k].assets;
        (Pass, snaps + [Snapshot(portfolioId, date, DailyAssets(prev, lookup, date),
                                 DailyTotal(prev, lookup, date), DailyUnit(prev, lookup, date))])
  }

  /** A second run for the same day writes nothing: the first created the day's snapshot. */
  lemma DailyIsOncePerDay(portfolios: seq<Portfolio>, snaps: seq<Snapshot>, lookup: AssetLookup, lookup2: AssetLookup,
                          portfolioId: string, date: string)
    ensures var once := DailySpec(portfolios, snaps, lookup, portfolioId, date).1;
            DailySpec(portfolios, once, lookup2, portfolioId, date).1 == once
  {
    var once := DailySpec(portfolios, snaps, lookup, portfolioId, date).1;
    if once != snaps {
      assert once[|snaps|].portfolioId == portfolioId && once[|snaps|].date == date;
      assert FirstSnapshot(once, portfolioId, date).Some?;
    }
  }

  /** One line of `getPortfolioSnapshots`: `{ date, total_portfolio_value, total_portfolio_unit }`. */
  datatype Summary = Summary(date: string, total: int, unit: string)

  /** A snapshot's summary, its day written by the intended `formatDate`. */
  function Summarize(s: Snapshot): Summary {
    Summary(FormatDate(s.date), s.total, s.unit)
  }

  /** A summary as written: the day goes through `formatDate`'s default `'YYYY-MM-DD'`. */
  function SummarizeAsWritten(s: Snapshot, medium: MediumDate): Summary {
    Summary(FormatDateAsWritten(s.date, medium), s.total, s.unit)
  }

  /** The positions below `k` of the portfolio's snapshots, in store order. */
  function SnapIdx(snaps: seq<Snapshot>, portfolioId: string, k: nat): (idx: seq<nat>)
    requires k <= |snaps|
    ensures InBounds(idx, k) && InBounds(idx, |snaps|)
    ensures forall i, j :: 0 <= i < j < |idx| ==> idx[i] < idx[j]
    ensures forall j: nat :: j in idx <==> j < k && snaps[j].portfolioId == portfolioId
    decreases k
  {
    if k == 0 then []
    else
      var rest := SnapIdx(snaps, portfolioId, k - 1);
      if snaps[k - 1].portfolioId == portfolioId then rest + [k - 1] else rest
  }

  function SnapDates(snaps: seq<Snapshot>): (ds: seq<string>)
    ensures |ds| == |snaps| && forall i :: 0 <= i < |snaps| ==> ds[i] == snaps[i].date
  {
    seq(|snaps|, i requires 0 <= i < |snaps| => snaps[i].date)
  }

  /** The positions `find({ portfolio_id }).sort({ date: 1 })` reads, in the order it returns them. */
  function SnapshotOrder(snaps: seq<Snapshot>, portfolioId: string): (ord: seq<nat>)
    ensures InBounds(ord, |snaps|)
  {
    SortIdx(SnapDates(snaps), SnapIdx(snaps, portfolioId, |snaps|))
  }

  /** `getPortfolioSnapshots(portfolioId)`: the summaries in that order. */
  function GetPortfolioSnapshots(snaps: seq<Snapshot>, portfolioId: string): (r: seq<Summary>)
    ensures |r| == |SnapshotOrder(snaps, portfolioId)|
    ensures forall i :: 0 <= i < |r| ==> r[i] == Summarize(snaps[SnapshotOrder(snaps, portfolioId)[i]])
  {
    var ord := SnapshotOrder(snaps, portfolioId);
    seq(|ord|, i requires 0 <= i < |ord| => Summarize(snaps[ord[i]]))
  }

  /** `getPortfolioSnapshots(portfolioId)` as written, in the same order. */
  function GetPortfolioSnapshotsAsWritten(snaps: seq<Snapshot>, portfolioId: string, medium: MediumDate): (r: seq<Summary>)
    ensures |r| == |SnapshotOrder(snaps, portfolioId)|
    ensures forall i :: 0 <= i < |r| ==> r[i] == SummarizeAsWritten(snaps[SnapshotOrder(snaps, portfolioId)[i]], medium)
  {
    var ord := SnapshotOrder(snaps, portfolioId);
    seq(|ord|, i requires 0 <= i < |ord| => SummarizeAsWritten(snaps[ord[i]], medium))
  }

  /** As written, no summary carries a `yyyy-MM-dd` day, whatever the stored days are. */
  lemma AsWrittenSummariesHaveNoDay(snaps: seq<Snapshot>, portfolioId: string, medium: MediumDate)
    ensures var r := GetPortfolioSnapshotsAsWritten(snaps, portfolioId, medium);
            forall i :: 0 <= i < |r| ==> !IsDay(r[i].date)
  {
    var r := GetPortfolioSnapshotsAsWritten(snaps, portfolioId, medium);
    forall i | 0 <= i < |r| ensures !IsDay(r[i].date) {
      AsWrittenIsNeverADay(snaps[SnapshotOrder(snaps, portfolioId)[i]].date, medium);
    }
  }

  /** With the intended format, every summary carries its snapshot's stored day, so a
      portfolio whose snapshots are stored by day lists `yyyy-MM-dd` days. */
  lemma SummaryDatesAreDays(snaps: seq<Snapshot>, portfolioId: string)
    requires forall p :: 0 <= p < |snaps| && snaps[p].portfolioId == portfolioId ==> IsDay(snaps[p].date)
    ensures var r := GetPortfolioSnapshots(snaps, portfolioId);
            var ord := SnapshotOrder(snaps, portfolioId);
            forall i :: 0 <= i < |r| ==> r[i].date == snaps[ord[i]].date && IsDay(r[i].date)
  {
    SnapshotOrderExact(snaps, portfolioId);
    var ord := SnapshotOrder(snaps, portfolioId);
    forall i | 0 <= i < |ord| ensures IsDay(snaps[ord[i]].date) {
      assert ord[i] in ord;
    }
  }

  /** The summaries ascend by date. */
  lemma SnapshotsSorted(snaps: seq<Snapshot>, portfolioId: string)
    ensures var r := GetPortfolioSnapshots(snaps, portfolioId);
            forall i, j :: 0 <= i < j < |r| ==> LexLe(r[i].date, r[j].date)
  {
    var keys := SnapDates(snaps);
    var idx := SnapIdx(snaps, portfolioId, |snaps|);
    SortIdxSorted(keys, idx);
    assert SortedBy(keys, SortIdx(keys, idx));
  }

  /** Each of the portfolio's snapshots is summarised exactly once, and no other. */
  lemma SnapshotOrderExact(snaps: seq<Snapshot>, portfolioId: string)
    ensures Distinct(SnapshotOrder(snaps, portfolioId))
    ensures forall p: nat :: p in SnapshotOrder(snaps, portfolioId) <==> p < |snaps| && snaps[p].portfolioId == portfolioId
  {
    var idx := SnapIdx(snaps, portfolioId, |snaps|);
    SortIdxMembers(SnapDates(snaps), idx);
  }

  /** The positions `0 .. n-1`. */
  function AllIdx(n: nat): (idx: seq<nat>)
    ensures |idx| == n && forall i :: 0 <= i < n ==> idx[i] == i
  {
    seq(n, i requires 0 <= i < n => i)
  }

  function Names(portfolios: seq<Portfolio>): (ns: seq<string>)
    ensures |ns| == |portfolios| && forall i :: 0 <= i < |portfolios| ==> ns[i] == portfolios[i].name
  {
    seq(|portfolios|, i requires 0 <= i < |portfolios| => portfolios[i].name)
  }

  /** `getPortfolioList()`: every portfolio's id and name, `find({}).sort({ name: 1 })`. */
  function GetPortfolioList(portfolios: seq<Portfolio>): (r: seq<Portfolio>)
    ensures |r| == |portfolios|
  {
    Gather(portfolios, SortIdx(Names(portfolios), AllIdx(|portfolios|)))
  }

  /** The list is the collection itself, reordered by name. */
  lemma PortfolioListSortedPermutation(portfolios: seq<Portfolio>)
    ensures var r := GetPortfolioList(portfolios);
            multiset(r) == multiset(portfolios) &&
            forall i, j :: 0 <= i < j < |r| ==> LexLe(r[i].name, r[j].name)
  {
    var keys := Names(portfolios);
    var idx := AllIdx(|portfolios|);
    GatherSort(portfolios, keys, idx);
    assert Gather(portfolios, idx) == portfolios;
    SortIdxSorted(keys, idx);
  }

  /** The snapshot collection. */
  class SnapshotStore {
    var snapshots: seq<Snapshot>

    constructor (initial: seq<Snapshot>)
      ensures snapshots == initial
    {
      snapshots := initial;
    }

    /** `addOrUpdateAssetToPortfolio(portfolioId, input)`, with the new-snapshot branch
        corrected to give its document the unit `KRW`. */
    method AddOrUpdateAssetToPortfolio(portfolios: seq<Portfolio>, assets: map<string, StoredAsset>,
                                       portfolioId: string, input: AssetInput)
      returns (r: Outcome<Thrown>)
      modifies this
      ensures (r, snapshots) == AddOrUpdate(portfolios, assets, old(snapshots), portfolioId, input, Some(Won))
    {
      if FindPortfolio(portfolios, portfolioId).None? {
        return Fail(PortfolioNotFound);
      }
      var found := FirstSnapshot(snapshots, portfolioId, input.date);
      if found.Some? {
        var k := found.value;
        var snapshot := snapshots[k];
        var existing := FindEntry(snapshot.assets, input.assetId);
        if existing.Some? {
          var i := existing.value;
          var e := snapshot.assets[i].(quantity := input.quantity, value := input.value, unit := input.unit);
          snapshots := snapshots[k := snapshot.(assets := snapshot.assets[i := e])];
        } else {
          if input.assetId !in assets {
            return Fail(UnknownAsset);
          }
          snapshots := snapshots[k := snapshot.(assets := snapshot.assets + [NewEntry(assets[input.assetId], input)])];
        }
        return Pass;
      }
      if input.assetId !in assets {
        return Fail(UnknownAsset);
      }
      var saved := Save(SnapshotDoc(portfolioId, input.date, [NewEntry(assets[input.assetId], input)], 0, Some(Won)));
      snapshots := snapshots + [saved.value];
      return Pass;
    }

    /** `getPortfolioSnapshotByDate(portfolioId, date)`, with a missing rate marking the
        total `Mixed` as the code intends. The totals are saved on the day's snapshot. */
    method GetPortfolioSnapshotByDate(rate: AssetLookup, portfolioId: string, date: string)
      returns (r: Option<Snapshot>)
      modifies this
      ensures FirstSnapshot(old(snapshots), portfolioId, date).None? ==> r.None? && snapshots == old(snapshots)
      ensures FirstSnapshot(old(snapshots), portfolioId, date).Some? ==>
                var k := FirstSnapshot(old(snapshots), portfolioId, date).value;
                var t := IntendedTotals(old(snapshots)[k].assets, rate, FormatDate(date));
                r == Some(old(snapshots)[k].(total := t.0, unit := t.1)) &&
                snapshots == old(snapshots)[k := r.value]
    {
      var found := FirstSnapshot(snapshots, portfolioId, date);
      if found.None? {
        return None;
      }
      var k := found.value;
      var snapshot := snapshots[k];
      var assets := snapshot.assets;
      var day := FormatDate(date);
      var total := 0;
      var unit := Won;
      var i := 0;
      while i < |assets|
        invariant 0 <= i <= |assets|
        invariant snapshots == old(snapshots)
        invariant total == RateTotal(assets[..i], rate, day)
        invariant unit == (if MissingRate(assets[..i], rate, day) then Mixed else Won)
      {
        var a := assets[i];
        RateAdvance(assets, i, rate, day);
        var valueInWon := a.value;
        if a.unit != Won {
          var info := rate(RateKey(a), day);
          if info.Success? {
            valueInWon := a.value * info.value.value;
          } else {
            unit := Mixed;
          }
        }
        total := total + a.quantity * valueInWon;
        i := i + 1;
      }
      assert assets[..i] == assets;
      var updated := snapshot.(total := total, unit := unit);
      snapshots := snapshots[k := updated];
      return Some(updated);
    }

    /** `createDailyPortfolioSnapshot(portfolioId, date)`. */
    method CreateDailyPortfolioSnapshot(portfolios: seq<Portfolio>, lookup: AssetLookup, portfolioId: string, date: string)
      returns (r: Outcome<Thrown>)
      modifies this
      ensures (r, snapshots) == DailySpec(portfolios, old(snapshots), lookup, portfolioId, date)
    {
      if FindPortfolio(portfolios, portfolioId).None? {
        return Fail(PortfolioNotFound);
      }
      if FirstSnapshot(snapshots, portfolioId, date).Some? {
        return Pass;
      }
      var latest := Latest(snapshots, portfolioId, date, |snapshots|);
      if latest.None? {
        return Pass;
      }
      var prev := snapshots[latest.value].assets;
      var total := 0;
      var updated: seq<SnapAsset> := [];
      var unit := Won;
      var i := 0;
      while i < |prev|
        invariant 0 <= i <= |prev|
        invariant snapshots == old(snapshots)
        invariant updated == DailyAssets(prev[..i], lookup, date)
        invariant total == DailyTotal(prev[..i], lookup, date)
        invariant unit == DailyUnit(prev[..i], lookup, date)
      {
        var a := prev[i];
        assert prev[..i + 1][..i] == prev[..i];
        assert prev[..i + 1][i] == a;
        var current := lookup(a.assetId, date);
        if current.Success? {
          var valueInWon := if a.unit == Won then current.value.value
                            else ConvertCurrency(current.value.value, current.value.currency, Won, date);
          total := total + a.quantity * valueInWon;
          updated := updated + [a.(value := current.value.value, unit := current.value.currency)];
          if a.unit != Won {
            unit := Won;
          }
        } else {
          updated := updated + [a];
          if a.unit != Won {
            unit := Mixed;
          }
        }
        i := i + 1;
      }
      assert prev[..i] == prev;
      snapshots := snapshots + [Snapshot(portfolioId, date, updated, total, unit)];
      return Pass;
    }
  }

  /** One more entry of a snapshot adds its value in won to the total, and marks the
      total mixed when its rate is missing. */
  lemma RateAdvance(s: seq<SnapAsset>, i: nat, rate: AssetLookup, date: string)
    requires i < |s|
    ensures RateTotal(s[..i + 1], rate, date) == RateTotal(s[..i], rate, date) + s[i].quantity * WonValue(s[i], rate, date)
    ensures MissingRate(s[..i + 1], rate, date) <==>
              MissingRate(s[..i], rate, date) || (s[i].unit != Won && rate(RateKey(s[i]), date).Failure?)
  {
    assert s[..i + 1] == s[..i] + [s[i]];
    assert s[..i + 1][..i] == s[..i];
    MissingRateSnoc(s[..i], s[i], rate, date);
  }

  lemma MissingRateSnoc(p: seq<SnapAsset>, a: SnapAsset, rate: AssetLookup, date: string)
    ensures MissingRate(p + [a], rate, date) <==>
              MissingRate(p, rate, date) || (a.unit != Won && rate(RateKey(a), date).Failure?)
  {
    var s := p + [a];
    assert s[|p|] == a;
    if MissingRate(p, rate, date) {
      var j :| 0 <= j < |p| && p[j].unit != Won && rate(RateKey(p[j]), date).Failure?;
      assert s[j] == p[j];
    }
    if MissingRate(s, rate, date) && !(a.unit != Won && rate(RateKey(a), date).Failure?) {
      var j :| 0 <= j < |s| && s[j].unit != Won && rate(RateKey(s[j]), date).Failure?;
      assert j < |p| && s[j] == p[j];
    }
  }
}
