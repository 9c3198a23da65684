/** `assetprice.ts`: the symbol-based variant of the price lookup, and the range
    backfill that compares a fetched price series with the stored prices of an asset
    and writes only the days that changed or were missing. */
module AssetPrice {
  import opened Wrappers
  import opened Ordering
  import opened Catalog
  import opened PriceStore
  import opened Fapi
  import opened AssetCtrl

  /** `requestFData(category, symbol, date)`: an adapter keyed by the asset's `symbol`,
      which `fapi.ts` does not define; the model takes its answers as a function. */
  type SymbolFeed = (string, Option<string>, string) -> FData

  /** `loadNupdateAssetPrice(assetId, date, force)` of `assetprice.ts`: the same
      cache-or-fetch rule as the one of `asset.ctrl.ts`, asking the adapter by symbol. */
  function LoadNupdateBySymbol(points: seq<PricePoint>, assets: seq<Asset>, fetch: SymbolFeed,
                               assetId: string, date: string, force: bool): (l: Lookup)
    ensures FindAsset(assets, assetId).None? ==> l == Lookup(None, points, false)
    ensures FindAsset(assets, assetId).Some? ==>
              (l.fetched <==> force || FindPrice(points, assetId, date).None?)
    ensures l.price.Some? ==> FindPrice(l.points, assetId, date) == l.price
    // a known asset that is not fetched: the cached price comes back, nothing is written
    ensures FindAsset(assets, assetId).Some? && !l.fetched ==>
              l.price == FindPrice(points, assetId, date) && l.points == points
    // fetched by the asset's symbol: the quote is returned and cached as { value, unit: currency }
    ensures FindAsset(assets, assetId).Some? && l.fetched ==>
              var a := FindAsset(assets, assetId).value;
              var fd := fetch(a.category, a.symbol, date);
              (fd.FQuote? ==> l.price == Some(PricePoint(assetId, date, fd.value, fd.currency)) &&
                              l.points == UpsertPrice(points, l.price.value)) &&
              // a falsy answer keeps the cache, a throw becomes `null`; neither writes
              (fd.FNothing? ==> l.price == FindPrice(points, assetId, date) && l.points == points) &&
              (fd.FThrow? ==> l.price == None && l.points == points)
  {
    match FindAsset(assets, assetId)
    case None => Lookup(None, points, false)
    case Some(a) => Resolve(points, assetId, date, force, AsQuote(fetch(a.category, a.symbol, date)))
  }

  /** The two lookups agree whenever the symbol adapter answers for an asset what
      `getFData` answers for its ticker. */
  lemma BySymbolAgrees(points: seq<PricePoint>, assets: seq<Asset>, fetch: SymbolFeed, feeds: Feeds,
                       assetId: string, date: string, force: bool)
    requires forall a :: a in assets && a.id == assetId ==>
               fetch(a.category, a.symbol, date) == GetFData(feeds, a.category, a.ticker, date)
    ensures LoadNupdateBySymbol(points, assets, fetch, assetId, date, force) ==
            LoadNupdateSpec(points, assets, feeds, assetId, date, force)
  {
  }

  /** `loadNupdateAssetPrice(assetId, date, force)` of `assetprice.ts`. */
  method LoadNupdateAssetPriceBySymbol(store: Store, assets: seq<Asset>, fetch: SymbolFeed,
                                       assetId: string, date: string, force: bool)
    returns (r: Option<PricePoint>)
    modifies store
    ensures r == LoadNupdateBySymbol(old(store.points), assets, fetch, assetId, date, force).price
    ensures store.points == LoadNupdateBySymbol(old(store.points), assets, fetch, assetId, date, force).points
  {
    var asset := FindAsset(assets, assetId);
    if asset.None? {
      return None;
    }
    var data := store.LoadAssetPrice(assetId, date);
    if force || data.None? {
      var fdata := fetch(asset.value.category, asset.value.symbol, date);
      if fdata.FThrow? {
        return None;
      }
      if fdata.FNothing? {
        return data;
      }
      data := Some(PricePoint(assetId, date, fdata.value, fdata.currency));
      store.UpdateAssetPrice(assetId, date, fdata.value, fdata.currency);
    }
    return data;
  }

  /** One day of a fetched price series. */
  datatype RangeItem = RangeItem(date: string, value: int, currency: string)

  /** `requestFDataRange(category, symbol, startDate, endDate)`, which `fapi.ts` does not
      define either: a series, or a throw. */
  type RangeFeed = (string, Option<string>, string, string) -> Result<seq<RangeItem>, Thrown>

  /** The read filter `{ _assetId, date: { $gte: startDate, $lt: endDate } }`. */
  predicate InRange(p: PricePoint, assetId: string, startDate: string, endDate: string) {
    p.assetId == assetId && LexLe(startDate, p.date) && !LexLe(endDate, p.date)
  }

  /** The positions below k of the stored prices the range read returns, in store order. */
  function RangeIdx(s: seq<PricePoint>, assetId: string, startDate: string, endDate: string, k: nat): (idx: seq<nat>)
    requires k <= |s|
    ensures InBounds(idx, k) && InBounds(idx, |s|)
    ensures forall q: nat :: q in idx <==> q < k && InRange(s[q], assetId, startDate, endDate)
    decreases k
  {
    if k == 0 then []
    else
      var rest := RangeIdx(s, assetId, startDate, endDate, k - 1);
      if InRange(s[k - 1], assetId, startDate, endDate) then rest + [k - 1] else rest
  }

  /** `dbData.find(d => d.date === date)`: the position of the first document of the
      read set, as it now stands, with that date. */
  function FindExisting(s: seq<PricePoint>, pos: seq<nat>, date: string): (r: Option<nat>)
    requires InBounds(pos, |s|)
    ensures r.Some? ==> r.value in pos && r.value < |s| && s[r.value].date == date
    ensures r.None? <==> forall i :: 0 <= i < |pos| ==> s[pos[i]].date != date
  {
    if pos == [] then None
    else if s[pos[0]].date == date then Some(pos[0])
    else FindExisting(s, pos[1..], date)
  }

  /** One fetched item: a stored day whose value differs is overwritten (value and unit),
      one whose value is equal is left alone even when the unit differs, and a day the
      read set lacks is inserted as a new document. */
  function RangeStep(s: seq<PricePoint>, pos: seq<nat>, assetId: string, item: RangeItem): (t: seq<PricePoint>)
    requires InBounds(pos, |s|)
    ensures |s| <= |t| <= |s| + 1
    ensures forall q :: 0 <= q < |s| ==> t[q].assetId == s[q].assetId && t[q].date == s[q].date
    ensures match FindExisting(s, pos, item.date)
            case Some(q) => (s[q].value == item.value ==> t == s) &&
                            (s[q].value != item.value ==> t == s[q := s[q].(value := item.value, unit := item.currency)])
            case None => t == s + [PricePoint(assetId, item.date, item.value, item.currency)]
  {
    match FindExisting(s, pos, item.date)
    case Some(q) =>
      if s[q].value != item.value then s[q := s[q].(value := item.value, unit := item.currency)] else s
    case None => s + [PricePoint(assetId, item.date, item.value, item.currency)]
  }

  /** The loop over the fetched items, against the read set computed once before it. */
  function RangeRun(s: seq<PricePoint>, pos: seq<nat>, assetId: string, items: seq<RangeItem>): (t: seq<PricePoint>)
    requires InBounds(pos, |s|)
    ensures |s| <= |t|
    decreases |items|
  {
    if items == [] then s
    else
      var prev := RangeRun(s, pos, assetId, items[..|items| - 1]);
      RangeStep(prev, pos, assetId, items[|items| - 1])
  }

  /** The price store after the call and what the call resolves to: `null` for an
      unknown asset, otherwise the documents of the read set as they stand at the end. */
  datatype RangeOutcome = RangeOutcome(points: seq<PricePoint>, result: Result<Option<seq<PricePoint>>, Thrown>)

  /** `updateAssetPriceRange(assetId, startDate, endDate)`. */
  function RangeSpec(points: seq<PricePoint>, assets: seq<Asset>, fetch: RangeFeed,
                     assetId: string, startDate: string, endDate: string): (o: RangeOutcome)
    ensures FindAsset(assets, assetId).None? ==> o == RangeOutcome(points, Success(None))
    ensures o.result.Failure? ==> o.points == points
    ensures (FindAsset(assets, assetId).Some? && o.result.Success?) ==>
              o.result.value.Some? && |o.result.value.value| == |RangeIdx(points, assetId, startDate, endDate, |points|)|
    ensures |points| <= |o.points|
  {
    match FindAsset(assets, assetId)
    case None => RangeOutcome(points, Success(None))
    case Some(a) =>
      var pos := RangeIdx(points, assetId, startDate, endDate, |points|);
      match fetch(a.category, a.symbol, startDate, endDate)
      case Failure(e) => RangeOutcome(points, Failure(e))
      case Success(items) =>
        var fin := RangeRun(points, pos, assetId, items);
        RangeOutcome(fin, Success(Some(Gather(fin, pos))))
  }

  /** The body of the loop of `updateAssetPriceRange` for one fetched item: `existing.save()`
      writes the document found back in place, `newPrice.save()` appends a new one. */
  method ApplyItem(store: Store, dbData: seq<nat>, assetId: string, item: RangeItem)
    requires InBounds(dbData, |store.points|)
    modifies store
    ensures store.points == RangeStep(old(store.points), dbData, assetId, item)
  {
    var existing := FindExisting(store.points, dbData, item.date);
    if existing.Some? {
      var q := existing.value;
      if store.points[q].value != item.value {
        store.points := store.points[q := store.points[q].(value := item.value, unit := item.currency)];
      }
    } else {
      store.points := store.points + [PricePoint(assetId, item.date, item.value, item.currency)];
    }
  }

  /** `updateAssetPriceRange(assetId, startDate, endDate, force)`; `force` is unused. */
  method UpdateAssetPriceRange(store: Store, assets: seq<Asset>, fetch: RangeFeed,
                               assetId: string, startDate: string, endDate: string, force: bool)
    returns (r: Result<Option<seq<PricePoint>>, Thrown>)
    modifies store
    ensures var o := RangeSpec(old(store.points), assets, fetch, assetId, startDate, endDate);
            r == o.result && store.points == o.points
  {
    var asset := FindAsset(assets, assetId);
    if asset.None? {
      return Success(None);
    }
    ghost var p0 := store.points;
    var dbData := RangeIdx(store.points, assetId, startDate, endDate, |store.points|);
    var fData := fetch(asset.value.category, asset.value.symbol, startDate, endDate);
    if fData.Failure? {
      return Failure(fData.error);
    }
    var items := fData.value;
    var i := 0;
    while i < |items|
      invariant 0 <= i <= |items|
      invariant store.points == RangeRun(p0, dbData, assetId, items[..i])
    {
      assert items[..i + 1][..i] == items[..i];
      ApplyItem(store, dbData, assetId, items[i]);
      i := i + 1;
    }
    assert items[..i] == items;
    return Success(Some(Gather(store.points, dbData)));
  }

  /** The loop never moves, removes or re-dates a stored document: inserts only append. */
  lemma {:induction false} RunKeepsSkeleton(s: seq<PricePoint>, pos: seq<nat>, assetId: string, items: seq<RangeItem>)
    requires InBounds(pos, |s|)
    ensures var t := RangeRun(s, pos, assetId, items);
            forall q :: 0 <= q < |s| ==> t[q].assetId == s[q].assetId && t[q].date == s[q].date
    decreases |items|
  {
    if items != [] {
      RunKeepsSkeleton(s, pos, assetId, items[..|items| - 1]);
    }
  }

  /** What the call resolves to is the read set only: one document per stored price of
      the asset in the range before the call, at its old position, with its day, and
      none of the documents the call inserted. */
  lemma RangeReturnsReadSet(points: seq<PricePoint>, assets: seq<Asset>, fetch: RangeFeed,
                            assetId: string, startDate: string, endDate: string)
    requires FindAsset(assets, assetId).Some?
    requires RangeSpec(points, assets, fetch, assetId, startDate, endDate).result.Success?
    ensures var o := RangeSpec(points, assets, fetch, assetId, startDate, endDate);
            var idx := RangeIdx(points, assetId, startDate, endDate, |points|);
            var ret := o.result.value.value;
            |ret| == |idx| &&
            forall i :: 0 <= i < |ret| ==>
              idx[i] < |points| && ret[i] == o.points[idx[i]] &&
              ret[i].date == points[idx[i]].date && InRange(ret[i], assetId, startDate, endDate)
  {
    var a := FindAsset(assets, assetId).value;
    var pos := RangeIdx(points, assetId, startDate, endDate, |points|);
    RunKeepsSkeleton(points, pos, assetId, fetch(a.category, a.symbol, startDate, endDate).value);
    assert forall i :: 0 <= i < |pos| ==> pos[i] in pos;
  }

  /** Since the read set is computed once, before the loop, two fetched items for the
      same day that the read set lacks are both inserted, whatever the store holds. */
  lemma DuplicateDaysBothInsert(s: seq<PricePoint>, pos: seq<nat>, assetId: string, first: RangeItem, second: RangeItem)
    requires InBounds(pos, |s|)
    requires first.date == second.date && FindExisting(s, pos, first.date).None?
    ensures RangeRun(s, pos, assetId, [first, second]) ==
            s + [PricePoint(assetId, first.date, first.value, first.currency),
                 PricePoint(assetId, second.date, second.value, second.currency)]
  {
    var items := [first, second];
    assert items[..1] == [first] && [first][..0] == [];
    assert RangeRun(s, pos, assetId, [first][..0]) == s;
    var one := RangeRun(s, pos, assetId, [first]);
    assert one == RangeStep(s, pos, assetId, first);
    assert one == s + [PricePoint(assetId, first.date, first.value, first.currency)];
    assert InBounds(pos, |one|);
    FindExistingAgree(s, one, pos, second.date);
    assert RangeRun(s, pos, assetId, items) == RangeStep(one, pos, assetId, second);
  }

  // The second call with the same series: a backfill that has run settles every
  // fetched day, so rerunning it writes nothing.

  function Dates(items: seq<RangeItem>): (ds: seq<string>)
    ensures |ds| == |items| && forall i :: 0 <= i < |items| ==> ds[i] == items[i].date
  {
    seq(|items|, i requires 0 <= i < |items| => items[i].date)
  }

  predicate DistinctDays(items: seq<RangeItem>) {
    forall i, j :: 0 <= i < j < |items| ==> items[i].date != items[j].date
  }

  predicate AllInRange(items: seq<RangeItem>, startDate: string, endDate: string) {
    forall i :: 0 <= i < |items| ==> LexLe(startDate, items[i].date) && !LexLe(endDate, items[i].date)
  }

  /** An item is settled when the document a read would find for its day (the first of
      the old read set, else the first one inserted after position n) holds its value. */
  predicate Settled(s: seq<PricePoint>, pos: seq<nat>, n: nat, item: RangeItem)
    requires InBounds(pos, |s|)
  {
    match FindExisting(s, pos, item.date)
    case Some(q) => s[q].value == item.value
    case None => exists q :: n <= q < |s| && s[q].date == item.date && s[q].value == item.value
  }

  /** The invariant of the first call after k items. */
  predicate BackfillInv(s0: seq<PricePoint>, pos: seq<nat>, assetId: string, startDate: string, endDate: string,
                        items: seq<RangeItem>, k: nat, s: seq<PricePoint>)
    requires InBounds(pos, |s0|) && k <= |items|
  {
    |s0| <= |s| &&
    (forall q :: 0 <= q < |s0| ==> s[q].assetId == s0[q].assetId && s[q].date == s0[q].date) &&
    (forall q :: |s0| <= q < |s| ==> InRange(s[q], assetId, startDate, endDate) && s[q].date in Dates(items[..k])) &&
    (forall q, q' :: |s0| <= q < q' < |s| ==> s[q].date != s[q'].date) &&
    (forall m :: 0 <= m < k ==> Settled(s, pos, |s0|, items[m]))
  }

  /** Documents whose days agree at the read positions are found at the same position. */
  lemma {:induction false} FindExistingAgree(s: seq<PricePoint>, t: seq<PricePoint>, pos: seq<nat>, date: string)
    requires InBounds(pos, |s|) && InBounds(pos, |t|)
    requires forall i :: 0 <= i < |pos| ==> s[pos[i]].date == t[pos[i]].date
    ensures FindExisting(s, pos, date) == FindExisting(t, pos, date)
    decreases |pos|
  {
    if pos != [] {
      FindExistingAgree(s, t, pos[1..], date);
    }
  }

  /** A step for another day keeps an item settled. */
  lemma SettledKept(s: seq<PricePoint>, pos: seq<nat>, n: nat, assetId: string, it: RangeItem, item: RangeItem)
    requires InBounds(pos, |s|) && n <= |s|
    requires item.date != it.date && Settled(s, pos, n, item)
    ensures Settled(RangeStep(s, pos, assetId, it), pos, n, item)
  {
    var t := RangeStep(s, pos, assetId, it);
    FindExistingAgree(s, t, pos, item.date);
    if FindExisting(s, pos, item.date).None? {
      var q :| n <= q < |s| && s[q].date == item.date && s[q].value == item.value;
      assert t[q] == s[q];
    }
  }

  /** A step settles its own item. */
  lemma SettledNew(s: seq<PricePoint>, pos: seq<nat>, n: nat, assetId: string, it: RangeItem)
    requires InBounds(pos, |s|) && n <= |s|
    ensures Settled(RangeStep(s, pos, assetId, it), pos, n, it)
  {
    var t := RangeStep(s, pos, assetId, it);
    FindExistingAgree(s, t, pos, it.date);
    if FindExisting(s, pos, it.date).None? {
      assert t[|s|].date == it.date && t[|s|].value == it.value;
    }
  }

  lemma BackfillStep(s0: seq<PricePoint>, pos: seq<nat>, assetId: string, startDate: string, endDate: string,
                     items: seq<RangeItem>, k: nat, s: seq<PricePoint>)
    requires InBounds(pos, |s0|) && k < |items|
    requires DistinctDays(items) && AllInRange(items, startDate, endDate)
    requires BackfillInv(s0, pos, assetId, startDate, endDate, items, k, s)
    ensures BackfillInv(s0, pos, assetId, startDate, endDate, items, k + 1, RangeStep(s, pos, assetId, items[k]))
  {
    var it := items[k];
    var t := RangeStep(s, pos, assetId, it);
    assert Dates(items[..k + 1]) == Dates(items[..k]) + [it.date];
    assert it.date !in Dates(items[..k]);
    forall m | 0 <= m < k + 1 ensures Settled(t, pos, |s0|, items[m]) {
      if m < k {
        SettledKept(s, pos, |s0|, assetId, it, items[m]);
      } else {
        SettledNew(s, pos, |s0|, assetId, it);
      }
    }
  }

  lemma {:induction false} BackfillRun(s0: seq<PricePoint>, pos: seq<nat>, assetId: string, startDate: string, endDate: string,
                                       items: seq<RangeItem>, k: nat)
    requires InBounds(pos, |s0|) && k <= |items|
    requires DistinctDays(items) && AllInRange(items, startDate, endDate)
    ensures BackfillInv(s0, pos, assetId, startDate, endDate, items, k, RangeRun(s0, pos, assetId, items[..k]))
    decreases k
  {
    if k == 0 {
      assert items[..0] == [];
    } else {
      BackfillRun(s0, pos, assetId, startDate, endDate, items, k - 1);
      assert items[..k][..k - 1] == items[..k - 1];
      BackfillStep(s0, pos, assetId, startDate, endDate, items, k - 1, RangeRun(s0, pos, assetId, items[..k - 1]));
    }
  }

  /** The positions a..k-1, in order. */
  function Span(a: nat, k: nat): (r: seq<nat>)
    requires a <= k
    ensures |r| == k - a && forall i :: 0 <= i < |r| ==> r[i] == a + i
  {
    seq(k - a, i requires 0 <= i < k - a => a + i)
  }

  lemma SpanSnoc(a: nat, k: nat)
    requires a < k
    ensures Span(a, k) == Span(a, k - 1) + [k - 1]
  {
  }

  /** The read set only depends on the asset and day of each stored document. */
  lemma {:induction false} RangeIdxCongruent(s: seq<PricePoint>, t: seq<PricePoint>, assetId: string,
                                             startDate: string, endDate: string, k: nat)
    requires k <= |s| && k <= |t|
    requires forall q :: 0 <= q < k ==> s[q].assetId == t[q].assetId && s[q].date == t[q].date
    ensures RangeIdx(s, assetId, startDate, endDate, k) == RangeIdx(t, assetId, startDate, endDate, k)
    decreases k
  {
    if k > 0 {
      RangeIdxCongruent(s, t, assetId, startDate, endDate, k - 1);
    }
  }

  /** Appended documents inside the range extend the read set at its end. */
  lemma {:induction false} RangeIdxTail(s: seq<PricePoint>, assetId: string, startDate: string, endDate: string, a: nat, k: nat)
    requires a <= k <= |s|
    requires forall q :: a <= q < k ==> InRange(s[q], assetId, startDate, endDate)
    ensures RangeIdx(s, assetId, startDate, endDate, k) == RangeIdx(s, assetId, startDate, endDate, a) + Span(a, k)
    decreases k
  {
    if k > a {
      var head := RangeIdx(s, assetId, startDate, endDate, a);
      RangeIdxTail(s, assetId, startDate, endDate, a, k - 1);
      assert RangeIdx(s, assetId, startDate, endDate, k) == RangeIdx(s, assetId, startDate, endDate, k - 1) + [k - 1];
      SpanSnoc(a, k);
      assert (head + Span(a, k - 1)) + [k - 1] == head + (Span(a, k - 1) + [k - 1]);
    } else {
      assert Span(a, k) == [];
    }
  }

  lemma {:induction false} FindExistingConcat(s: seq<PricePoint>, xs: seq<nat>, ys: seq<nat>, date: string)
    requires InBounds(xs, |s|) && InBounds(ys, |s|)
    ensures InBounds(xs + ys, |s|)
    ensures FindExisting(s, xs + ys, date) ==
            if FindExisting(s, xs, date).Some? then FindExisting(s, xs, date) else FindExisting(s, ys, date)
    decreases |xs|
  {
    if xs != [] {
      assert (xs + ys)[1..] == xs[1..] + ys;
      FindExistingConcat(s, xs[1..], ys, date);
    } else {
      assert xs + ys == ys;
    }
  }

  /** Among appended documents with distinct days, the one with the day is found. */
  lemma {:induction false} FindExistingSpan(s: seq<PricePoint>, a: nat, k: nat, q: nat)
    requires a <= q < k <= |s|
    requires forall x, y :: a <= x < y < k ==> s[x].date != s[y].date
    ensures InBounds(Span(a, k), |s|)
    ensures FindExisting(s, Span(a, k), s[q].date) == Some(q)
    decreases q - a
  {
    var sp := Span(a, k);
    if q > a {
      assert sp[1..] == Span(a + 1, k);
      FindExistingSpan(s, a + 1, k, q);
    }
  }

  /** A quiet step for each item leaves the store as it was. */
  lemma {:induction false} QuietBackfill(s: seq<PricePoint>, pos: seq<nat>, assetId: string, items: seq<RangeItem>)
    requires InBounds(pos, |s|)
    requires forall m :: 0 <= m < |items| ==>
               FindExisting(s, pos, items[m].date).Some? && s[FindExisting(s, pos, items[m].date).value].value == items[m].value
    ensures RangeRun(s, pos, assetId, items) == s
    decreases |items|
  {
    if items != [] {
      var init := items[..|items| - 1];
      assert forall m :: 0 <= m < |init| ==> init[m] == items[m];
      QuietBackfill(s, pos, assetId, init);
    }
  }

  /** A settled item is found by a read of the old read set followed by the appended documents. */
  lemma SettledFound(s0: seq<PricePoint>, s1: seq<PricePoint>, pos: seq<nat>, item: RangeItem)
    requires |s0| <= |s1| && InBounds(pos, |s0|)
    requires forall x, y :: |s0| <= x < y < |s1| ==> s1[x].date != s1[y].date
    requires Settled(s1, pos, |s0|, item)
    ensures InBounds(pos + Span(|s0|, |s1|), |s1|)
    ensures var r := FindExisting(s1, pos + Span(|s0|, |s1|), item.date);
            r.Some? && s1[r.value].value == item.value
  {
    FindExistingConcat(s1, pos, Span(|s0|, |s1|), item.date);
    if FindExisting(s1, pos, item.date).None? {
      var q :| |s0| <= q < |s1| && s1[q].date == item.date && s1[q].value == item.value;
      FindExistingSpan(s1, |s0|, |s1|, q);
    }
  }

  /** After the first run every fetched day, distinct and inside the range, is what the
      second run's read finds, holding the fetched value. */
  lemma SettledAfterRun(s0: seq<PricePoint>, assetId: string, startDate: string, endDate: string, items: seq<RangeItem>)
    requires DistinctDays(items) && AllInRange(items, startDate, endDate)
    ensures var pos := RangeIdx(s0, assetId, startDate, endDate, |s0|);
            var s1 := RangeRun(s0, pos, assetId, items);
            var pos1 := RangeIdx(s1, assetId, startDate, endDate, |s1|);
            forall m :: 0 <= m < |items| ==>
              FindExisting(s1, pos1, items[m].date).Some? &&
              s1[FindExisting(s1, pos1, items[m].date).value].value == items[m].value
  {
    var pos := RangeIdx(s0, assetId, startDate, endDate, |s0|);
    var s1 := RangeRun(s0, pos, assetId, items);
    BackfillRun(s0, pos, assetId, startDate, endDate, items, |items|);
    assert items[..|items|] == items;
    RangeIdxCongruent(s0, s1, assetId, startDate, endDate, |s0|);
    RangeIdxTail(s1, assetId, startDate, endDate, |s0|, |s1|);
    var pos1 := RangeIdx(s1, assetId, startDate, endDate, |s1|);
    assert pos1 == pos + Span(|s0|, |s1|);
    forall m | 0 <= m < |items|
      ensures FindExisting(s1, pos1, items[m].date).Some? &&
              s1[FindExisting(s1, pos1, items[m].date).value].value == items[m].value
    {
      SettledFound(s0, s1, pos, items[m]);
    }
  }

  /** Backfilling twice with the same series, whose days are distinct and inside the
      range, writes nothing the second time. */
  lemma SecondBackfillIsQuiet(points: seq<PricePoint>, assets: seq<Asset>, fetch: RangeFeed,
                              assetId: string, startDate: string, endDate: string)
    requires forall a :: a in assets && a.id == assetId && fetch(a.category, a.symbol, startDate, endDate).Success? ==>
               DistinctDays(fetch(a.category, a.symbol, startDate, endDate).value) &&
               AllInRange(fetch(a.category, a.symbol, startDate, endDate).value, startDate, endDate)
    ensures var o1 := RangeSpec(points, assets, fetch, assetId, startDate, endDate);
            RangeSpec(o1.points, assets, fetch, assetId, startDate, endDate).points == o1.points
  {
    var o1 := RangeSpec(points, assets, fetch, assetId, startDate, endDate);
    if FindAsset(assets, assetId).Some? {
      var a := FindAsset(assets, assetId).value;
      var fr := fetch(a.category, a.symbol, startDate, endDate);
      if fr.Success? {
        SettledAfterRun(points, assetId, startDate, endDate, fr.value);
        var s1 := o1.points;
        QuietBackfill(s1, RangeIdx(s1, assetId, startDate, endDate, |s1|), assetId, fr.value);
      }
    }
  }
}
