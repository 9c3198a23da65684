/** The portfolio ledger: the `PortfolioAssetRecord` collection, one document per
    change in the holding of one asset inside one portfolio on one day, with the
    cumulative holding (`result`) and the price used on that day.

    The collection is a sequence of documents in MongoDB's natural (insertion)
    order: `findOne`/`updateOne` act on the first match, and `find().sort()`
    returns the matches ordered by the sort key. */
module Ledger {
  import opened Wrappers
  import opened Ordering

  datatype LedgerRecord = LedgerRecord(
    id: string,       // `_id`
    pfId: string,     // `_pfId`
    assetId: string,  // `_assetId`
    date: string,     // `yyyy-MM-dd`
    change: int,      // quantity bought (positive) or sold (negative) that day
    result: int,      // holding after the change
    price: int,
    unit: string,
    memo: string)

  /** The filter `updatePortfolioAssetRecord` upserts by. */
  function Key(r: LedgerRecord): (string, string, string) {
    (r.pfId, r.assetId, r.date)
  }

  /** A date condition of a ledger query. */
  datatype DateFilter =
    | AnyDate
    | OnOrBefore(d: string)                 // `{ $lte: d }`
    | OnOrAfter(d: string)                  // `{ $gte: d }`
    | OnDay(d: string)                      // `d`
    | Between(from: string, until: string)  // `{ $gte: from, $lt: until }`

  predicate DateMatches(date: string, f: DateFilter) {
    match f
    case AnyDate => true
    case OnOrBefore(d) => LexLe(date, d)
    case OnOrAfter(d) => LexLe(d, date)
    case OnDay(d) => date == d
    case Between(from, until) => LexLe(from, date) && !LexLe(until, date)
  }

  predicate Matches(r: LedgerRecord, pfId: string, f: DateFilter) {
    r.pfId == pfId && DateMatches(r.date, f)
  }

  /** The positions below `k` of the records of portfolio `pfId` matching `f`, in store order. */
  function MatchIdx(s: seq<LedgerRecord>, pfId: string, f: DateFilter, k: nat): (idx: seq<nat>)
    requires k <= |s|
    ensures InBounds(idx, k) && InBounds(idx, |s|)
    ensures forall i, j :: 0 <= i < j < |idx| ==> idx[i] < idx[j]
    ensures forall j: nat :: j in idx <==> j < k && Matches(s[j], pfId, f)
    decreases k
  {
    if k == 0 then []
    else
      var rest := MatchIdx(s, pfId, f, k - 1);
      if Matches(s[k - 1], pfId, f) then rest + [k - 1] else rest
  }

  function DatesOf(s: seq<LedgerRecord>): (ds: seq<string>)
    ensures |ds| == |s| && forall i :: 0 <= i < |s| ==> ds[i] == s[i].date
  {
    seq(|s|, i requires 0 <= i < |s| => s[i].date)
  }

  /** The matching records in store order. */
  function Filter(s: seq<LedgerRecord>, pfId: string, f: DateFilter): (r: seq<LedgerRecord>)
    ensures forall x :: x in r <==> x in s && Matches(x, pfId, f)
  {
    var idx := MatchIdx(s, pfId, f, |s|);
    var r := Gather(s, idx);
    assert forall x :: x in s && Matches(x, pfId, f) ==> x in r by {
      forall x | x in s && Matches(x, pfId, f) ensures x in r {
        var j :| 0 <= j < |s| && s[j] == x;
        assert (j as nat) in idx;
        var i :| 0 <= i < |idx| && idx[i] == j;
        assert r[i] == x;
      }
    }
    r
  }

  /** The positions `find({ _pfId, date: f }).sort({ date: 1 })` reads, in the order it returns them. */
  function QueryOrder(s: seq<LedgerRecord>, pfId: string, f: DateFilter): (ord: seq<nat>)
    ensures InBounds(ord, |s|)
  {
    SortIdx(DatesOf(s), MatchIdx(s, pfId, f, |s|))
  }

  /** `find({ _pfId, date: f }).sort({ date: 1 })`. */
  function Query(s: seq<LedgerRecord>, pfId: string, f: DateFilter): (r: seq<LedgerRecord>)
  {
    Gather(s, QueryOrder(s, pfId, f))
  }

  /** The query returns the matching records, each as often as it is stored. */
  lemma QueryPermutesFilter(s: seq<LedgerRecord>, pfId: string, f: DateFilter)
    ensures multiset(Query(s, pfId, f)) == multiset(Filter(s, pfId, f))
  {
    GatherSort(s, DatesOf(s), MatchIdx(s, pfId, f, |s|));
  }

  /** The query returns exactly the stored records that match. */
  lemma QueryMembers(s: seq<LedgerRecord>, pfId: string, f: DateFilter)
    ensures forall x :: x in Query(s, pfId, f) <==> x in s && Matches(x, pfId, f)
  {
    var r := Query(s, pfId, f);
    var fl := Filter(s, pfId, f);
    QueryPermutesFilter(s, pfId, f);
    assert forall x :: x in r <==> x in multiset(r);
    assert forall x :: x in fl <==> x in multiset(fl);
  }

  /** The query's results ascend by date. */
  lemma QuerySorted(s: seq<LedgerRecord>, pfId: string, f: DateFilter)
    ensures forall i, j :: 0 <= i < j < |Query(s, pfId, f)| ==>
              LexLe(Query(s, pfId, f)[i].date, Query(s, pfId, f)[j].date)
  {
    var ord := QueryOrder(s, pfId, f);
    SortIdxSorted(DatesOf(s), MatchIdx(s, pfId, f, |s|));
    assert SortedBy(DatesOf(s), ord);
  }

  /** The query order visits each position at most once. */
  lemma QueryOrderDistinct(s: seq<LedgerRecord>, pfId: string, f: DateFilter)
    ensures Distinct(QueryOrder(s, pfId, f))
    ensures forall p: nat :: p in QueryOrder(s, pfId, f) <==> p < |s| && Matches(s[p], pfId, f)
  {
    var idx := MatchIdx(s, pfId, f, |s|);
    SortIdxMembers(DatesOf(s), idx);
  }

  /** The query order depends only on the portfolio ids and dates of the stored records. */
  lemma {:induction false} MatchIdxCongruent(s: seq<LedgerRecord>, t: seq<LedgerRecord>, pfId: string, f: DateFilter, k: nat)
    requires k <= |s| == |t|
    requires forall j :: 0 <= j < |s| ==> s[j].pfId == t[j].pfId && s[j].date == t[j].date
    ensures MatchIdx(s, pfId, f, k) == MatchIdx(t, pfId, f, k)
    decreases k
  {
    if k > 0 {
      MatchIdxCongruent(s, t, pfId, f, k - 1);
    }
  }

  lemma QueryOrderCongruent(s: seq<LedgerRecord>, t: seq<LedgerRecord>, pfId: string, f: DateFilter)
    requires |s| == |t|
    requires forall j :: 0 <= j < |s| ==> s[j].pfId == t[j].pfId && s[j].date == t[j].date
    ensures QueryOrder(s, pfId, f) == QueryOrder(t, pfId, f)
  {
    MatchIdxCongruent(s, t, pfId, f, |s|);
    assert DatesOf(s) == DatesOf(t);
  }

  /** The first stored record with the given key. */
  function FirstWithKey(s: seq<LedgerRecord>, key: (string, string, string)): (r: Option<nat>)
    ensures r.Some? ==> r.value < |s| && Key(s[r.value]) == key
    ensures r.Some? ==> forall j :: 0 <= j < r.value ==> Key(s[j]) != key
    ensures r.None? <==> forall j :: 0 <= j < |s| ==> Key(s[j]) != key
  {
    if |s| == 0 then None
    else if Key(s[0]) == key then Some(0)
    else match FirstWithKey(s[1..], key)
      case None => None
      case Some(j) => Some(j + 1)
  }

  predicate HasId(s: seq<LedgerRecord>, id: string) {
    exists j :: 0 <= j < |s| && s[j].id == id
  }

  predicate UniqueIds(s: seq<LedgerRecord>) {
    forall i, j :: 0 <= i < j < |s| ==> s[i].id != s[j].id
  }

  predicate UniqueKeys(s: seq<LedgerRecord>) {
    forall i, j :: 0 <= i < j < |s| ==> Key(s[i]) != Key(s[j])
  }

  /** `updateOne({ _pfId, _assetId, date }, { $set: r }, { upsert: true })` with a whole
      record `r`, `_id` included. The first record with r's key is overwritten, which
      MongoDB refuses when that record has another `_id`; with no record of that key, `r`
      is inserted, which the unique index on `_id` refuses when the id is taken. */
  function UpsertRecord(s: seq<LedgerRecord>, r: LedgerRecord): (out: Result<seq<LedgerRecord>, Thrown>)
    ensures out.Failure? ==> out.error == ImmutableIdError || out.error == DuplicateKeyError
  {
    match FirstWithKey(s, Key(r))
    case None =>
      if HasId(s, r.id) then Failure(DuplicateKeyError) else Success(s + [r])
    case Some(j) =>
      if s[j].id == r.id then Success(s[j := r]) else Failure(ImmutableIdError)
  }

  /** After a successful upsert `r` is stored: either in place of a record with its key
      and id, or appended when no record had its key. Records with other keys stay put,
      and neither keys nor ids become duplicated. The upsert fails only when a record
      with r's key has another id, or when r's id is taken and its key is new. */
  lemma UpsertRecordContract(s: seq<LedgerRecord>, r: LedgerRecord)
    ensures var out := UpsertRecord(s, r);
            (out.Success? ==> r in out.value) &&
            (out.Success? ==> (|out.value| == |s| && (exists j :: 0 <= j < |s| && s[j].id == r.id && Key(s[j]) == Key(r) && out.value == s[j := r]))
                              || (out.value == s + [r] && forall j :: 0 <= j < |s| ==> Key(s[j]) != Key(r))) &&
            (out.Success? ==> forall j :: 0 <= j < |s| && Key(s[j]) != Key(r) ==> out.value[j] == s[j]) &&
            (((forall j :: 0 <= j < |s| && Key(s[j]) == Key(r) ==> s[j].id == r.id) &&
              (HasId(s, r.id) ==> exists j :: 0 <= j < |s| && Key(s[j]) == Key(r))) ==> out.Success?) &&
            (out.Success? && UniqueKeys(s) ==> UniqueKeys(out.value)) &&
            (out.Success? && UniqueIds(s) ==> UniqueIds(out.value))
  {
    match FirstWithKey(s, Key(r))
    case None =>
    case Some(j) =>
      assert s[j := r][j] == r;
  }

  /** The `PortfolioAssetRecord` collection. */
  class LedgerStore {
    var records: seq<LedgerRecord>

    constructor (initial: seq<LedgerRecord>)
      ensures records == initial
    {
      records := initial;
    }

    /** `PortfolioAssetRecordModel.find({ _pfId, date: f }).sort({ date: 1 })`. */
    method Find(pfId: string, f: DateFilter) returns (rs: seq<LedgerRecord>)
      ensures rs == Query(records, pfId, f)
    {
      var ord := QueryOrder(records, pfId, f);
      rs := [];
      var i := 0;
      while i < |ord|
        invariant 0 <= i <= |ord|
        invariant rs == Gather(records, ord[..i])
      {
        rs := rs + [records[ord[i]]];
        i := i + 1;
      }
      assert ord[..i] == ord;
    }

    /** `updatePortfolioAssetRecord(r)`. */
    method Upsert(r: LedgerRecord) returns (out: Outcome<Thrown>)
      modifies this
      ensures UpsertRecord(old(records), r).Success? ==> records == UpsertRecord(old(records), r).value && out == Pass
      ensures UpsertRecord(old(records), r).Failure? ==> records == old(records) && out == Fail(UpsertRecord(old(records), r).error)
    {
      var res := UpsertRecord(records, r);
      if res.Success? {
        records := res.value;
        out := Pass;
      } else {
        out := Fail(res.error);
      }
    }
  }
}
