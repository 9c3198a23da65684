/** `portfolio.ctrl.ts`: the daily reconciler. For one portfolio and one day it walks
    the portfolio's ledger records up to that day in date order, recomputes each
    record's cumulative holding per asset, and for every record whose stored holding
    disagrees asks the price lookup for the day's price and writes the record back. */
module PortfolioCtrl {
  import opened Wrappers
  import opened Catalog
  import opened Ledger
  import opened PriceStore
  import opened Fapi
  import opened AssetCtrl

  /** The `condition` argument of `loadPortfolioAssetRecords`: `"lte"` and `"gte"` are
      range conditions, anything else asks for that exact day. */
  function ConditionFilter(condition: string, date: string): (f: DateFilter)
    ensures condition == "lte" <==> f == OnOrBefore(date)
    ensures condition == "gte" <==> f == OnOrAfter(date)
    ensures condition != "lte" && condition != "gte" <==> f == OnDay(date)
  {
    if condition == "lte" then OnOrBefore(date)
    else if condition == "gte" then OnOrAfter(date)
    else OnDay(date)
  }

  /** `loadPortfolioAssetRecords(_pfId, date, condition)`. The source's `null` branch
      cannot be taken (`find` resolves to an array), so the result is always a list. */
  method LoadPortfolioAssetRecords(ledger: LedgerStore, pfId: string, date: string, condition: string)
    returns (rs: seq<LedgerRecord>)
    ensures rs == Query(ledger.records, pfId, ConditionFilter(condition, date))
  {
    rs := ledger.Find(pfId, ConditionFilter(condition, date));
  }

  /** The sum of `change` over the records of asset `a`: the holding they add up to. */
  function Total(rs: seq<LedgerRecord>, a: string): int
    decreases |rs|
  {
    if rs == [] then 0
    else Total(rs[..|rs| - 1], a) + (if rs[|rs| - 1].assetId == a then rs[|rs| - 1].change else 0)
  }

  /** The holding of record k's asset once records 0..k have been applied. */
  function Holding(loaded: seq<LedgerRecord>, k: nat): int
    requires k < |loaded|
  {
    Total(loaded[..k + 1], loaded[k].assetId)
  }

  /** `totalAssets.get(a) || 0`. */
  function Get(totals: map<string, int>, a: string): int {
    if a in totals then totals[a] else 0
  }

  /** What the pass did with one record (the source logs it). */
  datatype Action =
    | Skip                         // stored holding already right
    | Refreshed(point: PricePoint) // holding, price and unit rewritten from the day's price
    | NoPrice                      // no price found; the record is written back unchanged

  /** The record as the pass writes it back. */
  function Applied(ar: LedgerRecord, act: Action, holding: int): (r: LedgerRecord)
    ensures Key(r) == Key(ar) && r.id == ar.id && r.change == ar.change && r.memo == ar.memo
    ensures act.Refreshed? ==> r == ar.(price := act.point.value, unit := act.point.unit, result := holding)
    ensures !act.Refreshed? ==> r == ar
  {
    match act
    case Refreshed(p) => ar.(price := p.value, unit := p.unit, result := holding)
    case _ => ar
  }

  /** The environment of a pass: the asset list, the adapters, the day and `force`. */
  datatype Ctx = Ctx(assets: seq<Asset>, feeds: Feeds, date: string, force: bool)

  /** The stores and the log after some records; `aborted` holds what a failed write threw. */
  datatype Progress = Progress(ledger: seq<LedgerRecord>, points: seq<PricePoint>, trace: seq<Action>, aborted: Option<Thrown>)

  /** One record of the pass, given the holding it should have. */
  function Step(ctx: Ctx, st: Progress, ar: LedgerRecord, holding: int): Progress {
    if st.aborted.Some? then st
    else if ar.result == holding then st.(trace := st.trace + [Skip])
    else
      var l := LoadNupdateSpec(st.points, ctx.assets, ctx.feeds, ar.assetId, ctx.date, ctx.force);
      var act := if l.price.Some? then Refreshed(l.price.value) else NoPrice;
      match UpsertRecord(st.ledger, Applied(ar, act, holding))
      case Success(s) => Progress(s, l.points, st.trace + [act], None)
      case Failure(e) => Progress(st.ledger, l.points, st.trace + [act], Some(e))
  }

  /** The pass after the first k loaded records. */
  function RunPrefix(ctx: Ctx, init: Progress, loaded: seq<LedgerRecord>, k: nat): (st: Progress)
    requires k <= |loaded|
    decreases k
  {
    if k == 0 then init
    else Step(ctx, RunPrefix(ctx, init, loaded, k - 1), loaded[k - 1], Holding(loaded, k - 1))
  }

  /** A failed write ends the pass: nothing after it changes the state. */
  lemma {:induction false} AbortedIsFinal(ctx: Ctx, init: Progress, loaded: seq<LedgerRecord>, k: nat, n: nat)
    requires k <= n <= |loaded|
    requires RunPrefix(ctx, init, loaded, k).aborted.Some?
    ensures RunPrefix(ctx, init, loaded, n) == RunPrefix(ctx, init, loaded, k)
    decreases n - k
  {
    if n > k {
      AbortedIsFinal(ctx, init, loaded, k, n - 1);
    }
  }

  datatype PassOutcome = Completed | NoRecords | Aborted(error: Thrown)

  datatype PassResult = PassResult(ledger: seq<LedgerRecord>, points: seq<PricePoint>, trace: seq<Action>, outcome: PassOutcome)

  /** The records one pass walks: the portfolio's records up to the day, by date. */
  function Loaded(ledger: seq<LedgerRecord>, pfId: string, date: string): seq<LedgerRecord> {
    Query(ledger, pfId, OnOrBefore(date))
  }

  /** `updatePortfolioforDate(portfolio, date, force)`, with the date already formatted. */
  function ReconcileSpec(ctx: Ctx, ledger: seq<LedgerRecord>, points: seq<PricePoint>, pfId: string): (r: PassResult)
    ensures |Loaded(ledger, pfId, ctx.date)| == 0 <==> r.outcome == NoRecords
    ensures r.outcome == NoRecords ==> r == PassResult(ledger, points, [], NoRecords)
    ensures r.outcome != NoRecords ==> 0 < |r.trace| <= |Loaded(ledger, pfId, ctx.date)|
  {
    var loaded := Loaded(ledger, pfId, ctx.date);
    if |loaded| == 0 then PassResult(ledger, points, [], NoRecords)
    else
      var fin := RunPrefix(ctx, Progress(ledger, points, [], None), loaded, |loaded|);
      TraceLength(ctx, Progress(ledger, points, [], None), loaded, |loaded|);
      PassResult(fin.ledger, fin.points, fin.trace,
                 if fin.aborted.Some? then Aborted(fin.aborted.value) else Completed)
  }

  /** Each record processed logs one action; after an abort none are. */
  lemma {:induction false} TraceLength(ctx: Ctx, init: Progress, loaded: seq<LedgerRecord>, k: nat)
    requires k <= |loaded| && init.aborted.None?
    ensures 0 < k ==> 0 < |RunPrefix(ctx, init, loaded, k).trace| - |init.trace|
    ensures |RunPrefix(ctx, init, loaded, k).trace| - |init.trace| <= k
    ensures RunPrefix(ctx, init, loaded, k).aborted.None? ==> |RunPrefix(ctx, init, loaded, k).trace| == |init.trace| + k
    decreases k
  {
    if k > 0 {
      TraceLength(ctx, init, loaded, k - 1);
    }
  }

  /** Adding a record's change to the running total of its asset gives its holding. */
  lemma TotalStep(loaded: seq<LedgerRecord>, i: nat, a: string)
    requires i < |loaded|
    ensures Total(loaded[..i + 1], a) == Total(loaded[..i], a) + (if loaded[i].assetId == a then loaded[i].change else 0)
  {
    assert loaded[..i + 1][..i] == loaded[..i];
  }

  /** The body of the loop of `updatePortfolioforDate` for one record whose holding
      is known, on a pass that has not failed. */
  method ReconcileRecord(ledger: LedgerStore, prices: Store, ghost ctx: Ctx,
                         assets: seq<Asset>, feeds: Feeds, date: string, force: bool,
                         ar: LedgerRecord, holding: int)
    returns (act: Action, out: Outcome<Thrown>)
    requires ctx == Ctx(assets, feeds, date, force)
    modifies ledger, prices
    ensures var st := Step(ctx, Progress(old(ledger.records), old(prices.points), [], None), ar, holding);
            st == Progress(ledger.records, prices.points, [act], if out.Fail? then Some(out.error) else None)
  {
    if ar.result != holding {
      var ap := LoadNupdateAssetPrice(prices, assets, feeds, ar.assetId, date, force);
      act := if ap.Some? then Refreshed(ap.value) else NoPrice;
      out := ledger.Upsert(Applied(ar, act, holding));
    } else {
      act := Skip;
      out := Pass;
    }
  }

  /** A step depends on the log so far only by appending to it. */
  lemma StepAppends(ctx: Ctx, st: Progress, ar: LedgerRecord, holding: int)
    requires st.aborted.None?
    ensures var one := Step(ctx, st.(trace := []), ar, holding);
            Step(ctx, st, ar, holding) == one.(trace := st.trace + one.trace)
  {
  }

  /** The running totals after record i have record i's change added to its asset. */
  lemma TotalsAdvance(totals: map<string, int>, loaded: seq<LedgerRecord>, i: nat, holding: int, next: map<string, int>)
    requires i < |loaded|
    requires forall a :: Get(totals, a) == Total(loaded[..i], a)
    requires holding == Get(totals, loaded[i].assetId) + loaded[i].change
    requires next == totals[loaded[i].assetId := holding]
    ensures holding == Holding(loaded, i)
    ensures forall a :: Get(next, a) == Total(loaded[..i + 1], a)
  {
    TotalStep(loaded, i, loaded[i].assetId);
    forall a ensures Get(next, a) == Total(loaded[..i + 1], a) {
      TotalStep(loaded, i, a);
    }
  }

  /** One more record of the pass, run on its own from the state reached so far. */
  lemma PrefixAdvance(ctx: Ctx, init: Progress, loaded: seq<LedgerRecord>, i: nat,
                      l: seq<LedgerRecord>, p: seq<PricePoint>, trace: seq<Action>,
                      l': seq<LedgerRecord>, p': seq<PricePoint>, act: Action, abort: Option<Thrown>)
    requires i < |loaded|
    requires RunPrefix(ctx, init, loaded, i) == Progress(l, p, trace, None)
    requires Step(ctx, Progress(l, p, [], None), loaded[i], Holding(loaded, i)) == Progress(l', p', [act], abort)
    ensures RunPrefix(ctx, init, loaded, i + 1) == Progress(l', p', trace + [act], abort)
  {
    StepAppends(ctx, Progress(l, p, trace, None), loaded[i], Holding(loaded, i));
  }

  /** `updatePortfolioforDate(portfolio, date, force)`. */
  method UpdatePortfolioForDate(ledger: LedgerStore, prices: Store, assets: seq<Asset>, feeds: Feeds,
                                pf: Portfolio, date: string, force: bool)
    returns (outcome: PassOutcome, trace: seq<Action>)
    modifies ledger, prices
    ensures var r := ReconcileSpec(Ctx(assets, feeds, date, force), old(ledger.records), old(prices.points), pf.id);
            ledger.records == r.ledger && prices.points == r.points && trace == r.trace && outcome == r.outcome
  {
    ghost var ctx := Ctx(assets, feeds, date, force);
    ghost var init := Progress(ledger.records, prices.points, [], None);
    var loaded := LoadPortfolioAssetRecords(ledger, pf.id, date, "lte");
    if |loaded| == 0 {
      return NoRecords, [];
    }
    var totals: map<string, int> := map[];
    trace := [];
    var i := 0;
    while i < |loaded|
      invariant 0 <= i <= |loaded|
      invariant forall a :: Get(totals, a) == Total(loaded[..i], a)
      invariant RunPrefix(ctx, init, loaded, i) == Progress(ledger.records, prices.points, trace, None)
    {
      var ar := loaded[i];
      var holding := Get(totals, ar.assetId) + ar.change;
      var next := totals[ar.assetId := holding];
      TotalsAdvance(totals, loaded, i, holding, next);
      totals := next;
      ghost var l, p := ledger.records, prices.points;
      var act, out := ReconcileRecord(ledger, prices, ctx, assets, feeds, date, force, ar, holding);
      PrefixAdvance(ctx, init, loaded, i, l, p, trace, ledger.records, prices.points, act,
                    if out.Fail? then Some(out.error) else None);
      trace := trace + [act];
      if out.Fail? {
        PassEnds(ctx, init, pf.id, loaded, i + 1, ledger.records, prices.points, trace, Some(out.error));
        return Aborted(out.error), trace;
      }
      i := i + 1;
    }
    PassEnds(ctx, init, pf.id, loaded, i, ledger.records, prices.points, trace, None);
    return Completed, trace;
  }

  /** A pass that has walked every record, or that failed on the last one it walked,
      ends with the state and log reached there. */
  lemma PassEnds(ctx: Ctx, init: Progress, pfId: string, loaded: seq<LedgerRecord>, k: nat,
                 l: seq<LedgerRecord>, p: seq<PricePoint>, trace: seq<Action>, abort: Option<Thrown>)
    requires init == Progress(init.ledger, init.points, [], None)
    requires loaded == Loaded(init.ledger, pfId, ctx.date) && 0 < k <= |loaded|
    requires abort.None? ==> k == |loaded|
    requires RunPrefix(ctx, init, loaded, k) == Progress(l, p, trace, abort)
    ensures ReconcileSpec(ctx, init.ledger, init.points, pfId) ==
            PassResult(l, p, trace, if abort.Some? then Aborted(abort.value) else Completed)
  {
    if abort.Some? {
      AbortedIsFinal(ctx, init, loaded, k, |loaded|);
    }
  }

  /** The whole nightly run over a list of portfolios. */
  datatype AllResult = AllResult(ledger: seq<LedgerRecord>, points: seq<PricePoint>, outcomes: seq<PassOutcome>)

  function RunAll(ctx: Ctx, ledger: seq<LedgerRecord>, points: seq<PricePoint>, pfs: seq<Portfolio>): (r: AllResult)
    ensures |r.outcomes| == |pfs|
    decreases |pfs|
  {
    if pfs == [] then AllResult(ledger, points, [])
    else
      var before := RunAll(ctx, ledger, points, pfs[..|pfs| - 1]);
      var pass := ReconcileSpec(ctx, before.ledger, before.points, pfs[|pfs| - 1].id);
      AllResult(pass.ledger, pass.points, before.outcomes + [pass.outcome])
  }

  /** `updatePortfolioAll(date, force)`, given the portfolio list `find()` returns.
      Every portfolio gets its own pass, in list order; a failing pass does not stop the run. */
  method UpdatePortfolioAll(ledger: LedgerStore, prices: Store, assets: seq<Asset>, feeds: Feeds,
                            portfolios: seq<Portfolio>, date: string, force: bool)
    returns (outcomes: seq<PassOutcome>)
    modifies ledger, prices
    ensures var r := RunAll(Ctx(assets, feeds, date, force), old(ledger.records), old(prices.points), portfolios);
            ledger.records == r.ledger && prices.points == r.points && outcomes == r.outcomes
  {
    ghost var ctx := Ctx(assets, feeds, date, force);
    ghost var l0 := ledger.records;
    ghost var p0 := prices.points;
    outcomes := [];
    var i := 0;
    while i < |portfolios|
      invariant 0 <= i <= |portfolios|
      invariant RunAll(ctx, l0, p0, portfolios[..i]) == AllResult(ledger.records, prices.points, outcomes)
    {
      ghost var l, p := ledger.records, prices.points;
      var outcome, _ := UpdatePortfolioForDate(ledger, prices, assets, feeds, portfolios[i], date, force);
      RunAllAdvance(ctx, l0, p0, portfolios, i, l, p, outcomes, ReconcileSpec(ctx, l, p, portfolios[i].id));
      outcomes := outcomes + [outcome];
      i := i + 1;
    }
    assert portfolios[..i] == portfolios;
  }

  /** One more portfolio of the nightly run is one more pass, from the state reached so far. */
  lemma RunAllAdvance(ctx: Ctx, l0: seq<LedgerRecord>, p0: seq<PricePoint>, pfs: seq<Portfolio>, i: nat,
                      l: seq<LedgerRecord>, p: seq<PricePoint>, outs: seq<PassOutcome>, pass: PassResult)
    requires i < |pfs|
    requires RunAll(ctx, l0, p0, pfs[..i]) == AllResult(l, p, outs)
    requires pass == ReconcileSpec(ctx, l, p, pfs[i].id)
    ensures RunAll(ctx, l0, p0, pfs[..i + 1]) == AllResult(pass.ledger, pass.points, outs + [pass.outcome])
  {
    assert pfs[..i + 1][..i] == pfs[..i];
  }

  /** `cronUpdatePortfolioAll(now)`: the nightly run, always forcing a fresh price. */
  method CronUpdatePortfolioAll(ledger: LedgerStore, prices: Store, assets: seq<Asset>, feeds: Feeds,
                                portfolios: seq<Portfolio>, now: string)
    returns (outcomes: seq<PassOutcome>)
    modifies ledger, prices
    ensures var r := RunAll(Ctx(assets, feeds, now, true), old(ledger.records), old(prices.points), portfolios);
            ledger.records == r.ledger && prices.points == r.points && outcomes == r.outcomes
  {
    outcomes := UpdatePortfolioAll(ledger, prices, assets, feeds, portfolios, now, true);
  }
}
