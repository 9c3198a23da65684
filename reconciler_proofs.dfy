/** What a reconciliation pass guarantees about the ledger and the price store. */
module ReconcilerProofs {
  import opened Wrappers
  import opened Ordering
  import opened Catalog
  import opened Ledger
  import opened PriceStore
  import opened Fapi
  import opened AssetCtrl
  import opened PortfolioCtrl

  /** What a pass never rewrites: each record's id, key, change and memo. */
  predicate SameSkeleton(a: seq<LedgerRecord>, b: seq<LedgerRecord>) {
    |a| == |b| &&
    forall p :: 0 <= p < |a| ==>
      b[p].id == a[p].id && Key(b[p]) == Key(a[p]) && b[p].change == a[p].change && b[p].memo == a[p].memo
  }

  lemma SkeletonKeepsUniqueness(a: seq<LedgerRecord>, b: seq<LedgerRecord>)
    requires SameSkeleton(a, b)
    ensures UniqueIds(a) ==> UniqueIds(b)
    ensures UniqueKeys(a) ==> UniqueKeys(b)
  {
  }

  /** The log explains itself: a record is skipped exactly when its stored holding is
      already right, and a refresh carries a price of that record's asset on the day. */
  predicate TraceMeans(loaded: seq<LedgerRecord>, trace: seq<Action>, date: string)
    requires |trace| <= |loaded|
  {
    forall m :: 0 <= m < |trace| ==>
      (trace[m] == Skip <==> loaded[m].result == Holding(loaded, m)) &&
      (trace[m].Refreshed? ==> trace[m].point.assetId == loaded[m].assetId && trace[m].point.date == date)
  }

  /** After the first k records of a pass that has not failed, each walked position
      holds its record as written back and every other position is untouched. */
  predicate Reflects(l0: seq<LedgerRecord>, l: seq<LedgerRecord>, ord: seq<nat>, loaded: seq<LedgerRecord>, trace: seq<Action>)
    requires InBounds(ord, |l0|) && |loaded| == |ord| && |trace| <= |ord| && |l| == |l0|
  {
    (forall m :: 0 <= m < |trace| ==> l[ord[m]] == Applied(loaded[m], trace[m], Holding(loaded, m))) &&
    (forall p :: 0 <= p < |l0| && p !in ord[..|trace|] ==> l[p] == l0[p])
  }

  function Start(ledger: seq<LedgerRecord>, points: seq<PricePoint>): Progress {
    Progress(ledger, points, [], None)
  }

  /** The invariant of a pass over `loaded`, read from `l0` at positions `ord`, after k records. */
  predicate Inv(l0: seq<LedgerRecord>, ord: seq<nat>, loaded: seq<LedgerRecord>, date: string, st: Progress, k: nat)
    requires InBounds(ord, |l0|) && |loaded| == |ord| && k <= |ord|
  {
    SameSkeleton(l0, st.ledger) &&
    (forall p :: 0 <= p < |l0| && p !in ord ==> st.ledger[p] == l0[p]) &&
    (UniqueKeys(l0) ==> st.aborted.None?) &&
    (st.aborted.None? ==> |st.trace| == k && Reflects(l0, st.ledger, ord, loaded, st.trace) &&
                          TraceMeans(loaded, st.trace, date))
  }

  /** The records a pass walks, read at distinct positions. */
  predicate WalkOf(l0: seq<LedgerRecord>, ord: seq<nat>, loaded: seq<LedgerRecord>) {
    InBounds(ord, |l0|) && Distinct(ord) && |loaded| == |ord| &&
    forall m :: 0 <= m < |ord| ==> loaded[m] == l0[ord[m]]
  }

  /** The action a step logs for a record that needs rewriting. */
  function ActOf(ctx: Ctx, st: Progress, ar: LedgerRecord): Action {
    var l := LoadNupdateSpec(st.points, ctx.assets, ctx.feeds, ar.assetId, ctx.date, ctx.force);
    if l.price.Some? then Refreshed(l.price.value) else NoPrice
  }

  /** What one step does to a record stored at `pos` on a ledger with unique ids. */
  lemma StepShape(ctx: Ctx, st: Progress, ar: LedgerRecord, h: int, pos: nat)
    requires st.aborted.None? && UniqueIds(st.ledger) && pos < |st.ledger| && st.ledger[pos] == ar
    ensures var next := Step(ctx, st, ar, h);
            var act := if ar.result == h then Skip else ActOf(ctx, st, ar);
            next.trace == st.trace + [act] &&
            (next.aborted.None? ==> next.ledger == st.ledger[pos := Applied(ar, act, h)]) &&
            (next.aborted.Some? ==> next.ledger == st.ledger) &&
            (UniqueKeys(st.ledger) ==> next.aborted.None?) &&
            (act.Refreshed? ==> act.point.assetId == ar.assetId && act.point.date == ctx.date)
  {
    if ar.result != h {
      var act := ActOf(ctx, st, ar);
      var rec := Applied(ar, act, h);
      var up := UpsertRecord(st.ledger, rec);
      UpsertRecordContract(st.ledger, rec);
      assert Key(st.ledger[pos]) == Key(rec);
      if up.Success? {
        assert up.value == st.ledger[pos := rec];
      }
    } else {
      assert st.ledger[pos := ar] == st.ledger;
    }
  }

  /** Writing record k back at its position extends what the ledger reflects by one. */
  lemma ReflectsStep(l0: seq<LedgerRecord>, l: seq<LedgerRecord>, ord: seq<nat>, loaded: seq<LedgerRecord>,
                     trace: seq<Action>, act: Action)
    requires WalkOf(l0, ord, loaded) && |trace| < |ord| && |l| == |l0|
    requires Reflects(l0, l, ord, loaded, trace)
    ensures var k := |trace|;
            Reflects(l0, l[ord[k] := Applied(loaded[k], act, Holding(loaded, k))], ord, loaded, trace + [act])
  {
    var k := |trace|;
    assert ord[..k + 1] == ord[..k] + [ord[k]];
    assert ord[k] !in ord[..k];
  }

  /** Logging one more action that explains itself keeps the log explained. */
  lemma TraceMeansStep(loaded: seq<LedgerRecord>, trace: seq<Action>, act: Action, date: string)
    requires |trace| < |loaded| && TraceMeans(loaded, trace, date)
    requires act == Skip <==> loaded[|trace|].result == Holding(loaded, |trace|)
    requires act.Refreshed? ==> act.point.assetId == loaded[|trace|].assetId && act.point.date == date
    ensures TraceMeans(loaded, trace + [act], date)
  {
    var t := trace + [act];
    forall m | 0 <= m < |t|
      ensures (t[m] == Skip <==> loaded[m].result == Holding(loaded, m)) &&
              (t[m].Refreshed? ==> t[m].point.assetId == loaded[m].assetId && t[m].point.date == date)
    {
      if m < |trace| {
        assert t[m] == trace[m];
      }
    }
  }

  /** One record keeps the invariant. */
  lemma StepKeepsInv(ctx: Ctx, l0: seq<LedgerRecord>, ord: seq<nat>, loaded: seq<LedgerRecord>, st: Progress, k: nat)
    requires UniqueIds(l0) && WalkOf(l0, ord, loaded) && k < |ord|
    requires Inv(l0, ord, loaded, ctx.date, st, k)
    ensures Inv(l0, ord, loaded, ctx.date, Step(ctx, st, loaded[k], Holding(loaded, k)), k + 1)
  {
    var next := Step(ctx, st, loaded[k], Holding(loaded, k));
    if st.aborted.None? {
      var pos := ord[k];
      var ar := loaded[k];
      var h := Holding(loaded, k);
      assert pos !in ord[..k];
      assert st.ledger[pos] == ar;
      SkeletonKeepsUniqueness(l0, st.ledger);
      StepShape(ctx, st, ar, h, pos);
      var act := if ar.result == h then Skip else ActOf(ctx, st, ar);
      var rec := Applied(ar, act, h);
      assert next.trace == st.trace + [act];
      if next.aborted.None? {
        assert next.ledger == st.ledger[pos := rec];
        ReflectsStep(l0, st.ledger, ord, loaded, st.trace, act);
        assert SameSkeleton(l0, next.ledger);
        assert forall p :: 0 <= p < |l0| && p !in ord ==> next.ledger[p] == l0[p];
        TraceMeansStep(loaded, st.trace, act, ctx.date);
      } else {
        assert next.ledger == st.ledger;
      }
    }
  }

  /** The invariant of the pass, by induction over the records walked. */
  lemma {:induction false} RunKeepsInv(ctx: Ctx, l0: seq<LedgerRecord>, ord: seq<nat>, loaded: seq<LedgerRecord>, init: Progress, k: nat)
    requires UniqueIds(l0) && WalkOf(l0, ord, loaded) && k <= |ord|
    requires init == Start(l0, init.points)
    ensures Inv(l0, ord, loaded, ctx.date, RunPrefix(ctx, init, loaded, k), k)
    decreases k
  {
    if k == 0 {
      StartKeepsInv(ctx, l0, ord, loaded, init);
    } else {
      var prev := RunPrefix(ctx, init, loaded, k - 1);
      RunKeepsInv(ctx, l0, ord, loaded, init, k - 1);
      StepKeepsInv(ctx, l0, ord, loaded, prev, k - 1);
      RunPrefixUnfold(ctx, init, loaded, k);
    }
  }

  /** The invariant holds before the first record. */
  lemma StartKeepsInv(ctx: Ctx, l0: seq<LedgerRecord>, ord: seq<nat>, loaded: seq<LedgerRecord>, init: Progress)
    requires WalkOf(l0, ord, loaded) && init == Start(l0, init.points)
    ensures Inv(l0, ord, loaded, ctx.date, RunPrefix(ctx, init, loaded, 0), 0)
  {
  }

  /** One more record of a pass is one more step. */
  lemma RunPrefixUnfold(ctx: Ctx, init: Progress, loaded: seq<LedgerRecord>, k: nat)
    requires 0 < k <= |loaded|
    ensures RunPrefix(ctx, init, loaded, k) == Step(ctx, RunPrefix(ctx, init, loaded, k - 1), loaded[k - 1], Holding(loaded, k - 1))
  {
  }

  /** A pass's walk is a walk of its ledger. */
  lemma PassWalk(l0: seq<LedgerRecord>, pfId: string, date: string)
    ensures WalkOf(l0, QueryOrder(l0, pfId, OnOrBefore(date)), Loaded(l0, pfId, date))
  {
    QueryOrderDistinct(l0, pfId, OnOrBefore(date));
  }

  /** The invariant for the whole pass. */
  lemma RunInvariant(ctx: Ctx, l0: seq<LedgerRecord>, p0: seq<PricePoint>, pfId: string)
    requires UniqueIds(l0)
    ensures var ord := QueryOrder(l0, pfId, OnOrBefore(ctx.date));
            var loaded := Loaded(l0, pfId, ctx.date);
            WalkOf(l0, ord, loaded) &&
            Inv(l0, ord, loaded, ctx.date, RunPrefix(ctx, Start(l0, p0), loaded, |loaded|), |loaded|)
  {
    var ord := QueryOrder(l0, pfId, OnOrBefore(ctx.date));
    var loaded := Loaded(l0, pfId, ctx.date);
    PassWalk(l0, pfId, ctx.date);
    RunKeepsInv(ctx, l0, ord, loaded, Start(l0, p0), |loaded|);
  }

  /** A running total only looks at each record's asset and change. */
  lemma {:induction false} TotalCongruent(rs: seq<LedgerRecord>, qs: seq<LedgerRecord>, a: string)
    requires |rs| == |qs|
    requires forall m :: 0 <= m < |rs| ==> rs[m].assetId == qs[m].assetId && rs[m].change == qs[m].change
    ensures Total(rs, a) == Total(qs, a)
    decreases |rs|
  {
    if rs != [] {
      TotalCongruent(rs[..|rs| - 1], qs[..|qs| - 1], a);
    }
  }

  lemma HoldingCongruent(rs: seq<LedgerRecord>, qs: seq<LedgerRecord>, m: nat)
    requires |rs| == |qs| && m < |rs|
    requires forall i :: 0 <= i < |rs| ==> rs[i].assetId == qs[i].assetId && rs[i].change == qs[i].change
    ensures Holding(rs, m) == Holding(qs, m)
  {
    TotalCongruent(rs[..m + 1], qs[..m + 1], rs[m].assetId);
  }

  /** A pass rewrites only records of its own portfolio dated up to its day, keeps
      every record's id, key, change and memo, and never adds or removes one. */
  lemma PassTouchesOnlyItsRecords(ctx: Ctx, l0: seq<LedgerRecord>, p0: seq<PricePoint>, pfId: string)
    requires UniqueIds(l0)
    ensures var r := ReconcileSpec(ctx, l0, p0, pfId);
            SameSkeleton(l0, r.ledger) &&
            forall p :: 0 <= p < |l0| && !Matches(l0[p], pfId, OnOrBefore(ctx.date)) ==> r.ledger[p] == l0[p]
  {
    QueryOrderDistinct(l0, pfId, OnOrBefore(ctx.date));
    RunInvariant(ctx, l0, p0, pfId);
  }

  /** On a ledger without two records for one portfolio, asset and day, a pass never fails. */
  lemma PassNeverAbortsOnUniqueKeys(ctx: Ctx, l0: seq<LedgerRecord>, p0: seq<PricePoint>, pfId: string)
    requires UniqueIds(l0) && UniqueKeys(l0)
    ensures !ReconcileSpec(ctx, l0, p0, pfId).outcome.Aborted?
  {
    RunInvariant(ctx, l0, p0, pfId);
  }

  /** A completed pass leaves each walked record with the holding its asset has after
      it, and the price and unit of the day's price, unless no price was found; a
      record whose holding was already right is left exactly as it was. */
  lemma CompletedPassReconciles(ctx: Ctx, l0: seq<LedgerRecord>, p0: seq<PricePoint>, pfId: string, m: nat)
    requires UniqueIds(l0)
    requires ReconcileSpec(ctx, l0, p0, pfId).outcome == Completed
    requires m < |Loaded(l0, pfId, ctx.date)|
    ensures SameSkeleton(l0, ReconcileSpec(ctx, l0, p0, pfId).ledger)
    ensures InBounds(QueryOrder(l0, pfId, OnOrBefore(ctx.date)), |l0|)
    ensures var r := ReconcileSpec(ctx, l0, p0, pfId);
            var loaded := Loaded(l0, pfId, ctx.date);
            var rec := r.ledger[QueryOrder(l0, pfId, OnOrBefore(ctx.date))[m]];
            |r.trace| == |loaded| &&
            (r.trace[m] == Skip <==> loaded[m].result == Holding(loaded, m)) &&
            (r.trace[m] == Skip ==> rec == loaded[m]) &&
            (r.trace[m].Refreshed? ==> rec == loaded[m].(price := r.trace[m].point.value, unit := r.trace[m].point.unit,
                                                         result := Holding(loaded, m)) &&
                                       r.trace[m].point.assetId == loaded[m].assetId && r.trace[m].point.date == ctx.date) &&
            (r.trace[m] == NoPrice ==> rec == loaded[m])
  {
    RunInvariant(ctx, l0, p0, pfId);
  }

  /** With every walked record agreeing with its running total, the pass only skips. */
  lemma {:induction false} QuietRun(ctx: Ctx, init: Progress, loaded: seq<LedgerRecord>, k: nat)
    requires init.aborted.None? && init.trace == []
    requires k <= |loaded|
    requires forall m :: 0 <= m < |loaded| ==> loaded[m].result == Holding(loaded, m)
    ensures RunPrefix(ctx, init, loaded, k) == init.(trace := seq(k, _ => Skip))
    decreases k
  {
    if k > 0 {
      QuietRun(ctx, init, loaded, k - 1);
      assert seq(k - 1, _ => Skip) + [Skip] == seq(k, _ => Skip);
    }
  }

  /** The records a second pass walks are the first pass's records as written back. */
  /** Reading back what a completed walk wrote: the same positions in the same order,
      each holding its record as written back, with the same running holdings. */
  lemma Reload(l0: seq<LedgerRecord>, l1: seq<LedgerRecord>, ord: seq<nat>, loaded: seq<LedgerRecord>,
               trace: seq<Action>, pfId: string, date: string)
    requires ord == QueryOrder(l0, pfId, OnOrBefore(date)) && loaded == Loaded(l0, pfId, date)
    requires WalkOf(l0, ord, loaded) && SameSkeleton(l0, l1)
    requires |trace| == |loaded| && Reflects(l0, l1, ord, loaded, trace)
    ensures QueryOrder(l1, pfId, OnOrBefore(date)) == ord
    ensures |Loaded(l1, pfId, date)| == |loaded|
    ensures forall m :: 0 <= m < |loaded| ==> Loaded(l1, pfId, date)[m] == Applied(loaded[m], trace[m], Holding(loaded, m))
    ensures forall m :: 0 <= m < |loaded| ==> Holding(Loaded(l1, pfId, date), m) == Holding(loaded, m)
  {
    QueryOrderCongruent(l0, l1, pfId, OnOrBefore(date));
    var again := Loaded(l1, pfId, date);
    forall m | 0 <= m < |again| ensures Holding(again, m) == Holding(loaded, m) {
      HoldingCongruent(again, loaded, m);
    }
  }

  lemma SecondPassLoads(ctx: Ctx, l0: seq<LedgerRecord>, p0: seq<PricePoint>, pfId: string)
    requires UniqueIds(l0)
    requires ReconcileSpec(ctx, l0, p0, pfId).outcome == Completed
    ensures var r := ReconcileSpec(ctx, l0, p0, pfId);
            var loaded := Loaded(l0, pfId, ctx.date);
            var again := Loaded(r.ledger, pfId, ctx.date);
            |again| == |loaded| == |r.trace| &&
            QueryOrder(r.ledger, pfId, OnOrBefore(ctx.date)) == QueryOrder(l0, pfId, OnOrBefore(ctx.date)) &&
            SameSkeleton(l0, r.ledger) &&
            (forall m :: 0 <= m < |again| ==> again[m] == Applied(loaded[m], r.trace[m], Holding(loaded, m))) &&
            (forall m :: 0 <= m < |again| ==> Holding(again, m) == Holding(loaded, m)) &&
            TraceMeans(loaded, r.trace, ctx.date)
  {
    var r := ReconcileSpec(ctx, l0, p0, pfId);
    var ord := QueryOrder(l0, pfId, OnOrBefore(ctx.date));
    var loaded := Loaded(l0, pfId, ctx.date);
    RunInvariant(ctx, l0, p0, pfId);
    var fin := RunPrefix(ctx, Start(l0, p0), loaded, |loaded|);
    assert fin.ledger == r.ledger && fin.trace == r.trace && fin.aborted.None?;
    Reload(l0, r.ledger, ord, loaded, r.trace, pfId, ctx.date);
  }

  /** Reconciliation is idempotent: once a pass has completed with a price for every
      record it rewrote, a second pass for the same portfolio and day (forced or not,
      whatever the adapters now answer) skips every record and changes neither store. */
  lemma SecondPassIsQuiet(ctx1: Ctx, ctx2: Ctx, l0: seq<LedgerRecord>, p0: seq<PricePoint>, pfId: string)
    requires UniqueIds(l0)
    requires ctx2.date == ctx1.date
    requires ReconcileSpec(ctx1, l0, p0, pfId).outcome == Completed
    requires NoPrice !in ReconcileSpec(ctx1, l0, p0, pfId).trace
    ensures var r1 := ReconcileSpec(ctx1, l0, p0, pfId);
            ReconcileSpec(ctx2, r1.ledger, r1.points, pfId) ==
              PassResult(r1.ledger, r1.points, seq(|r1.trace|, _ => Skip), Completed)
  {
    var r1 := ReconcileSpec(ctx1, l0, p0, pfId);
    SecondPassFindsTotals(ctx1, l0, p0, pfId);
    var again := Loaded(r1.ledger, pfId, ctx2.date);
    QuietRun(ctx2, Start(r1.ledger, r1.points), again, |again|);
    assert RunPrefix(ctx2, Progress(r1.ledger, r1.points, [], None), again, |again|) ==
           Progress(r1.ledger, r1.points, seq(|r1.trace|, _ => Skip), None);
  }

  /** After a pass that priced every record it rewrote, every record the next load reads
      holds its running total. */
  lemma SecondPassFindsTotals(ctx: Ctx, l0: seq<LedgerRecord>, p0: seq<PricePoint>, pfId: string)
    requires UniqueIds(l0)
    requires ReconcileSpec(ctx, l0, p0, pfId).outcome == Completed
    requires NoPrice !in ReconcileSpec(ctx, l0, p0, pfId).trace
    ensures var again := Loaded(ReconcileSpec(ctx, l0, p0, pfId).ledger, pfId, ctx.date);
            0 < |again| == |ReconcileSpec(ctx, l0, p0, pfId).trace| &&
            forall m :: 0 <= m < |again| ==> again[m].result == Holding(again, m)
  {
    var r1 := ReconcileSpec(ctx, l0, p0, pfId);
    SecondPassLoads(ctx, l0, p0, pfId);
    var loaded := Loaded(l0, pfId, ctx.date);
    var again := Loaded(r1.ledger, pfId, ctx.date);
    forall m | 0 <= m < |again| ensures again[m].result == Holding(again, m) {
      assert r1.trace[m] in r1.trace;
      ReconciledRecord(loaded[m], r1.trace[m], Holding(loaded, m));
    }
  }

  /** A record that was skipped or refreshed holds its running total afterwards. */
  lemma ReconciledRecord(x: LedgerRecord, act: Action, h: int)
    requires act != NoPrice
    requires act == Skip <==> x.result == h
    ensures Applied(x, act, h).result == h
  {
  }

  /** A record for which no price was found is asked about again by the next pass. */
  lemma NoPriceIsRetried(ctx1: Ctx, ctx2: Ctx, l0: seq<LedgerRecord>, p0: seq<PricePoint>, pfId: string, m: nat)
    requires UniqueIds(l0) && UniqueKeys(l0)
    requires ctx2.date == ctx1.date
    requires ReconcileSpec(ctx1, l0, p0, pfId).outcome == Completed
    requires m < |ReconcileSpec(ctx1, l0, p0, pfId).trace|
    requires ReconcileSpec(ctx1, l0, p0, pfId).trace[m] == NoPrice
    ensures var r1 := ReconcileSpec(ctx1, l0, p0, pfId);
            var r2 := ReconcileSpec(ctx2, r1.ledger, r1.points, pfId);
            r2.outcome == Completed && m < |r2.trace| && r2.trace[m] != Skip
  {
    var r1 := ReconcileSpec(ctx1, l0, p0, pfId);
    SecondPassLoads(ctx1, l0, p0, pfId);
    SkeletonKeepsUniqueness(l0, r1.ledger);
    var again := Loaded(r1.ledger, pfId, ctx2.date);
    RunInvariant(ctx2, r1.ledger, r1.points, pfId);
  }

  /** A pass writes prices only for its own day. */
  lemma StepPricesOnlyOnDate(ctx: Ctx, st: Progress, ar: LedgerRecord, h: int, a: string, d: string)
    requires d != ctx.date
    ensures FindPrice(Step(ctx, st, ar, h).points, a, d) == FindPrice(st.points, a, d)
  {
    if st.aborted.None? && ar.result != h {
      var l := LoadNupdateSpec(st.points, ctx.assets, ctx.feeds, ar.assetId, ctx.date, ctx.force);
      assert Step(ctx, st, ar, h).points == l.points;
      LookupWritesOnlyTarget(st.points, ctx.assets, ctx.feeds, ar.assetId, ctx.date, ctx.force, a, d);
    }
  }

  lemma {:induction false} RunPricesOnlyOnDate(ctx: Ctx, init: Progress, loaded: seq<LedgerRecord>, k: nat, a: string, d: string)
    requires k <= |loaded| && d != ctx.date
    ensures FindPrice(RunPrefix(ctx, init, loaded, k).points, a, d) == FindPrice(init.points, a, d)
    decreases k
  {
    if k > 0 {
      RunPricesOnlyOnDate(ctx, init, loaded, k - 1, a, d);
      RunStepPrice(ctx, init, loaded, k, a, d);
    }
  }

  /** One more step of a pass leaves the price of another day as it was. */
  lemma RunStepPrice(ctx: Ctx, init: Progress, loaded: seq<LedgerRecord>, k: nat, a: string, d: string)
    requires 0 < k <= |loaded| && d != ctx.date
    ensures FindPrice(RunPrefix(ctx, init, loaded, k).points, a, d) == FindPrice(RunPrefix(ctx, init, loaded, k - 1).points, a, d)
  {
    RunPrefixUnfold(ctx, init, loaded, k);
    StepPricesOnlyOnDate(ctx, RunPrefix(ctx, init, loaded, k - 1), loaded[k - 1], Holding(loaded, k - 1), a, d);
  }

  lemma PassPricesOnlyOnDate(ctx: Ctx, l0: seq<LedgerRecord>, p0: seq<PricePoint>, pfId: string)
    ensures var r := ReconcileSpec(ctx, l0, p0, pfId);
            forall a, d :: d != ctx.date ==> FindPrice(r.points, a, d) == FindPrice(p0, a, d)
  {
    var loaded := Loaded(l0, pfId, ctx.date);
    forall a, d | d != ctx.date
      ensures FindPrice(ReconcileSpec(ctx, l0, p0, pfId).points, a, d) == FindPrice(p0, a, d)
    {
      RunPricesOnlyOnDate(ctx, Start(l0, p0), loaded, |loaded|, a, d);
    }
  }

  /** In a nightly run, records of portfolios not in the list are never touched, and no
      record loses its id, key, change or memo. */
  lemma {:induction false} RunAllTouchesOnlyListed(ctx: Ctx, l0: seq<LedgerRecord>, p0: seq<PricePoint>, pfs: seq<Portfolio>)
    requires UniqueIds(l0)
    ensures var r := RunAll(ctx, l0, p0, pfs);
            SameSkeleton(l0, r.ledger) &&
            forall p :: 0 <= p < |l0| && (forall i :: 0 <= i < |pfs| ==> pfs[i].id != l0[p].pfId) ==> r.ledger[p] == l0[p]
    decreases |pfs|
  {
    if pfs != [] {
      var before := RunAll(ctx, l0, p0, pfs[..|pfs| - 1]);
      RunAllTouchesOnlyListed(ctx, l0, p0, pfs[..|pfs| - 1]);
      SkeletonKeepsUniqueness(l0, before.ledger);
      PassTouchesOnlyItsRecords(ctx, before.ledger, before.points, pfs[|pfs| - 1].id);
    }
  }
}
