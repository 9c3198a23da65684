/** `db/portfolio.query.ts`: `loadPortfolioAssetRecords` by portfolio name, the
    half-open date-range read of the ledger. */
module PortfolioQuery {
  import opened Wrappers
  import opened Ordering
  import opened Catalog
  import opened Ledger

  /** `PortfolioListModel.findOne({ name })`: the first portfolio with that name. */
  function FindByName(portfolios: seq<Portfolio>, name: string): (r: Option<Portfolio>)
    ensures r.Some? ==> r.value in portfolios && r.value.name == name
    ensures r.None? <==> forall p :: p in portfolios ==> p.name != name
    ensures r.Some? ==> exists k :: 0 <= k < |portfolios| && portfolios[k] == r.value &&
                                    forall j :: 0 <= j < k ==> portfolios[j].name != name
  {
    if |portfolios| == 0 then None
    else if portfolios[0].name == name then Some(portfolios[0])
    else
      var r := FindByName(portfolios[1..], name);
      if r.Some? then
        var k :| 0 <= k < |portfolios[1..]| && portfolios[1..][k] == r.value &&
                 forall j :: 0 <= j < k ==> portfolios[1..][j].name != name;
        assert portfolios[k + 1] == r.value;
        r
      else r
  }

  /** `loadPortfolioAssetRecords(name, from, to)`: `null` for an unknown name and for an
      empty range, otherwise the portfolio's records with `from <= date < to` by date. */
  function LoadByName(portfolios: seq<Portfolio>, records: seq<LedgerRecord>,
                      name: string, from: string, until: string): (r: Option<seq<LedgerRecord>>)
    ensures FindByName(portfolios, name).None? ==> r.None?
    ensures r.Some? ==> |r.value| > 0
  {
    match FindByName(portfolios, name)
    case None => None
    case Some(pf) =>
      var rs := Query(records, pf.id, Between(from, until));
      if |rs| == 0 then None else Some(rs)
  }

  /** What a non-null answer holds: exactly the records of the named portfolio inside the
      half-open range, ascending by date, each as often as it is stored. */
  lemma LoadByNameMeans(portfolios: seq<Portfolio>, records: seq<LedgerRecord>,
                        name: string, from: string, until: string)
    requires LoadByName(portfolios, records, name, from, until).Some?
    ensures var rs := LoadByName(portfolios, records, name, from, until).value;
            var pf := FindByName(portfolios, name).value;
            (forall x :: x in rs <==> x in records && x.pfId == pf.id && LexLe(from, x.date) && !LexLe(until, x.date)) &&
            (forall i, j :: 0 <= i < j < |rs| ==> LexLe(rs[i].date, rs[j].date)) &&
            multiset(rs) == multiset(Filter(records, pf.id, Between(from, until)))
  {
    var pf := FindByName(portfolios, name).value;
    QueryMembers(records, pf.id, Between(from, until));
    QuerySorted(records, pf.id, Between(from, until));
    QueryPermutesFilter(records, pf.id, Between(from, until));
  }

  /** A known name answers `null` exactly when no record of that portfolio lies in the range. */
  lemma EmptyRangeIsNull(portfolios: seq<Portfolio>, records: seq<LedgerRecord>,
                         name: string, from: string, until: string)
    requires FindByName(portfolios, name).Some?
    ensures var pf := FindByName(portfolios, name).value;
            LoadByName(portfolios, records, name, from, until).None? <==>
              forall x :: x in records && x.pfId == pf.id ==> !(LexLe(from, x.date) && !LexLe(until, x.date))
  {
    var pf := FindByName(portfolios, name).value;
    QueryMembers(records, pf.id, Between(from, until));
    var rs := Query(records, pf.id, Between(from, until));
    if |rs| > 0 {
      assert rs[0] in rs;
    }
  }

  /** An empty range (`until <= from`) is always `null`. */
  lemma ReversedRangeIsNull(portfolios: seq<Portfolio>, records: seq<LedgerRecord>,
                            name: string, from: string, until: string)
    requires LexLe(until, from)
    ensures LoadByName(portfolios, records, name, from, until).None?
  {
    if FindByName(portfolios, name).Some? {
      var pf := FindByName(portfolios, name).value;
      forall x | x in records && x.pfId == pf.id && LexLe(from, x.date)
        ensures LexLe(until, x.date)
      {
        LexLeTransitive(until, from, x.date);
      }
      EmptyRangeIsNull(portfolios, records, name, from, until);
    }
  }
}
