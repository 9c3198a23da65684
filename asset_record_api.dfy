/** `db/assetrecord.api.ts`: the decision logic of the five ledger record handlers under
    `/:portfolioId/assetrecord`, over the ledger collection (`Ledger`) and the portfolio
    list (`Catalog`). A handler's answer is a `Reply`: the data it sends with status 200
    or 201, or a refusal with its status and message. */
module AssetRecordApi {
  import opened Wrappers
  import opened Ordering
  import opened Catalog
  import opened Ledger

  datatype Reply =
    | Listed(records: seq<LedgerRecord>)   // 200, the array
    | Found(record: LedgerRecord)          // 200, the document
    | Created(record: LedgerRecord)        // 201
    | Updated(record: LedgerRecord)        // 200
    | Deleted                              // 200
    | Refused(status: int, message: string)

  function Status(r: Reply): (s: int)
    ensures r.Refused? ==> s == r.status
    ensures r.Created? ==> s == 201
    ensures !r.Refused? && !r.Created? ==> s == 200
  {
    match r
    case Created(_) => 201
    case Refused(s, _) => s
    case _ => 200
  }

  const InvalidPortfolioId: Reply := Refused(400, "Invalid portfolio ID")
  const InvalidRecordId: Reply := Refused(400, "Invalid asset record ID")
  const PortfolioMissing: Reply := Refused(404, "Portfolio not found")
  const MissingFields: Reply := Refused(400, "All required fields must be provided")
  const BadDate: Reply := Refused(400, "Invalid date format")
  const NotInPortfolio: Reply := Refused(404, "Asset record not found in this portfolio")
  const NoSuchRecord: Reply := Refused(404, "Asset record not found")

  /** The fields of a POST body; `None` is an absent (`undefined`) field. */
  datatype PostBody = PostBody(assetId: Option<string>, date: Option<string>, change: Option<int>,
                               unit: Option<string>, result: Option<int>, price: Option<int>, memo: Option<string>)

  /** The fields of a PUT body. */
  datatype PutBody = PutBody(change: Option<int>, result: Option<int>, price: Option<int>,
                             unit: Option<string>, memo: Option<string>)

  /** `mongoose.Types.ObjectId.isValid` and `!isNaN(Date.parse(d))`, which the model takes as given. */
  type IdCheck = string -> bool
  type DateCheck = string -> bool

  /** `findById(id)`: the position of the first record with that id. */
  function FirstWithId(records: seq<LedgerRecord>, id: string): (r: Option<nat>)
    ensures r.Some? ==> r.value < |records| && records[r.value].id == id
    ensures r.Some? ==> forall j :: 0 <= j < r.value ==> records[j].id != id
    ensures r.None? <==> forall j :: 0 <= j < |records| ==> records[j].id != id
  {
    if |records| == 0 then None
    else if records[0].id == id then Some(0)
    else match FirstWithId(records[1..], id)
      case None => None
      case Some(j) => Some(j + 1)
  }

  /** `findOne({ _id: id, _pfId: portfolioId })`, then the ownership check: the record, or
      the 404 that tells a record of another portfolio from a missing one. */
  function Locate(records: seq<LedgerRecord>, portfolioId: string, id: string): (r: Result<LedgerRecord, Reply>)
    ensures r.Success? ==> r.value in records && r.value.id == id && r.value.pfId == portfolioId
    ensures r.Success? ==> FirstWithId(records, id).Some?
    ensures r.Failure? <==> forall x :: x in records ==> !(x.id == id && x.pfId == portfolioId)
    ensures r.Failure? ==> (r.error == NotInPortfolio <==> exists x :: x in records && x.id == id)
    ensures r.Failure? ==> r.error == NotInPortfolio || r.error == NoSuchRecord
  {
    if exists x :: x in records && x.id == id && x.pfId == portfolioId then
      var x :| x in records && x.id == id && x.pfId == portfolioId;
      assert FirstWithId(records, id).Some?;
      Success(FirstOwned(records, portfolioId, id))
    else if FirstWithId(records, id).Some? then
      assert records[FirstWithId(records, id).value] in records;
      Failure(NotInPortfolio)
    else Failure(NoSuchRecord)
  }

  /** The first record with that id in that portfolio. */
  function FirstOwned(records: seq<LedgerRecord>, portfolioId: string, id: string): (x: LedgerRecord)
    requires exists x :: x in records && x.id == id && x.pfId == portfolioId
    ensures x in records && x.id == id && x.pfId == portfolioId
  {
    if records[0].id == id && records[0].pfId == portfolioId then records[0]
    else
      assert exists x :: x in records[1..] && x.id == id && x.pfId == portfolioId by {
        var x :| x in records && x.id == id && x.pfId == portfolioId;
        assert x != records[0];
      }
      FirstOwned(records[1..], portfolioId, id)
  }

  /** GET `/:portfolioId/assetrecord`. */
  function ListSpec(portfolios: seq<Portfolio>, records: seq<LedgerRecord>, validId: IdCheck, portfolioId: string): (r: Reply)
    ensures !validId(portfolioId) ==> r == InvalidPortfolioId
    ensures validId(portfolioId) && FindPortfolio(portfolios, portfolioId).None? ==> r == PortfolioMissing
    ensures r.Listed? <==> validId(portfolioId) && FindPortfolio(portfolios, portfolioId).Some?
  {
    if !validId(portfolioId) then InvalidPortfolioId
    else if FindPortfolio(portfolios, portfolioId).None? then PortfolioMissing
    else Listed(Query(records, portfolioId, AnyDate))
  }

  /** A listing holds exactly the portfolio's records, ascending by date, possibly none. */
  lemma ListedExactly(portfolios: seq<Portfolio>, records: seq<LedgerRecord>, validId: IdCheck, portfolioId: string)
    requires ListSpec(portfolios, records, validId, portfolioId).Listed?
    ensures var rs := ListSpec(portfolios, records, validId, portfolioId).records;
            (forall x :: x in rs <==> x in records && x.pfId == portfolioId) &&
            (forall i, j :: 0 <= i < j < |rs| ==> LexLe(rs[i].date, rs[j].date)) &&
            ((forall x :: x in records ==> x.pfId != portfolioId) ==> rs == [])
  {
    QueryMembers(records, portfolioId, AnyDate);
    QuerySorted(records, portfolioId, AnyDate);
    var rs := Query(records, portfolioId, AnyDate);
    if |rs| > 0 {
      assert rs[0] in rs;
    }
  }

  /** GET `/:portfolioId/assetrecord/:id`. */
  function GetOneSpec(records: seq<LedgerRecord>, validId: IdCheck, portfolioId: string, id: string): (r: Reply)
    ensures !validId(portfolioId) ==> r == InvalidPortfolioId
    ensures validId(portfolioId) && !validId(id) ==> r == InvalidRecordId
    ensures r.Found? ==> r.record in records && r.record.id == id && r.record.pfId == portfolioId
    // with both ids well formed, an owned record is sent, and otherwise the lookup's 404
    ensures validId(portfolioId) && validId(id) ==>
              (Locate(records, portfolioId, id).Success? ==> r == Found(Locate(records, portfolioId, id).value)) &&
              (Locate(records, portfolioId, id).Failure? ==> r == Locate(records, portfolioId, id).error)
    ensures r.Found? <==> validId(portfolioId) && validId(id) && Locate(records, portfolioId, id).Success?
  {
    if !validId(portfolioId) then InvalidPortfolioId
    else if !validId(id) then InvalidRecordId
    else match Locate(records, portfolioId, id)
      case Success(x) => Found(x)
      case Failure(e) => e
  }

  /** POST `/:portfolioId/assetrecord`; `newId` is the `_id` the new document receives. */
  function PostSpec(portfolios: seq<Portfolio>, records: seq<LedgerRecord>, validId: IdCheck, parses: DateCheck,
                    portfolioId: string, body: PostBody, newId: string): (r: (Reply, seq<LedgerRecord>))
    ensures !r.0.Created? ==> r.1 == records
    ensures !validId(portfolioId) ==> r.0 == InvalidPortfolioId
    ensures validId(portfolioId) && FindPortfolio(portfolios, portfolioId).None? ==> r.0 == PortfolioMissing
    ensures validId(portfolioId) && FindPortfolio(portfolios, portfolioId).Some? ==>
              (!Truthy(body.assetId) || !Truthy(body.date) || body.change.None? || !Truthy(body.unit) <==> r.0 == MissingFields)
    // exactly one record is inserted, with the defaults for the optional fields
    ensures r.0.Created? ==>
              r.1 == records + [r.0.record] &&
              r.0.record == LedgerRecord(newId, portfolioId, body.assetId.value, body.date.value, body.change.value,
                                         if body.result.Some? then body.result.value else 0,
                                         if body.price.Some? then body.price.value else 0,
                                         body.unit.value, OrElse(body.memo, ""))
    // a complete body for a known portfolio is created exactly when its date parses
    ensures validId(portfolioId) && FindPortfolio(portfolios, portfolioId).Some? &&
            Truthy(body.assetId) && Truthy(body.date) && body.change.Some? && Truthy(body.unit) ==>
              (parses(body.date.value) <==> r.0.Created?) &&
              (!parses(body.date.value) ==> r.0 == BadDate)
    ensures r.0.Created? <==> validId(portfolioId) && FindPortfolio(portfolios, portfolioId).Some? &&
                              Truthy(body.assetId) && Truthy(body.date) && body.change.Some? && Truthy(body.unit) &&
                              parses(body.date.value)
  {
    if !validId(portfolioId) then (InvalidPortfolioId, records)
    else if FindPortfolio(portfolios, portfolioId).None? then (PortfolioMissing, records)
    else if !Truthy(body.assetId) || !Truthy(body.date) || body.change.None? || !Truthy(body.unit) then (MissingFields, records)
    else if !parses(body.date.value) then (BadDate, records)
    else
      var x := LedgerRecord(newId, portfolioId, body.assetId.value, body.date.value, body.change.value,
                            if body.result.Some? then body.result.value else 0,
                            if body.price.Some? then body.price.value else 0,
                            body.unit.value, OrElse(body.memo, ""));
      (Created(x), records + [x])
  }

  /** A zero change is a change like any other: it is accepted. */
  lemma ZeroChangeAccepted(portfolios: seq<Portfolio>, records: seq<LedgerRecord>, validId: IdCheck, parses: DateCheck,
                           portfolioId: string, body: PostBody, newId: string)
    requires validId(portfolioId) && FindPortfolio(portfolios, portfolioId).Some?
    requires Truthy(body.assetId) && Truthy(body.date) && body.change == Some(0) && Truthy(body.unit) && parses(body.date.value)
    ensures PostSpec(portfolios, records, validId, parses, portfolioId, body, newId).0.Created?
  {
  }

  /** POST checks no key: a second record for the same portfolio, asset and day is
      accepted, which leaves the ledger with two records under one upsert key. */
  lemma PostAllowsDuplicateKey(portfolios: seq<Portfolio>, records: seq<LedgerRecord>, validId: IdCheck, parses: DateCheck,
                               portfolioId: string, body: PostBody, newId: string, k: nat)
    requires validId(portfolioId) && FindPortfolio(portfolios, portfolioId).Some?
    requires Truthy(body.assetId) && Truthy(body.date) && body.change.Some? && Truthy(body.unit) && parses(body.date.value)
    requires k < |records| && Key(records[k]) == (portfolioId, body.assetId.value, body.date.value)
    ensures var t := PostSpec(portfolios, records, validId, parses, portfolioId, body, newId).1;
            |t| == |records| + 1 && t[k] == records[k] && Key(t[|records|]) == Key(t[k])
  {
  }

  /** The update a PUT applies: the five fields, an absent memo left as it was (Mongoose
      drops `undefined` keys from an update). */
  function PutFields(x: LedgerRecord, body: PutBody): (y: LedgerRecord)
    requires body.change.Some? && body.result.Some? && body.price.Some? && body.unit.Some?
    ensures y.id == x.id && y.pfId == x.pfId && y.assetId == x.assetId && y.date == x.date
    ensures y.change == body.change.value && y.result == body.result.value && y.price == body.price.value
    ensures y.unit == body.unit.value && y.memo == (if body.memo.Some? then body.memo.value else x.memo)
  {
    x.(change := body.change.value, result := body.result.value, price := body.price.value,
       unit := body.unit.value, memo := if body.memo.Some? then body.memo.value else x.memo)
  }

  /** PUT `/:portfolioId/assetrecord/:id`. The body is checked before the record is looked up. */
  function PutSpec(records: seq<LedgerRecord>, validId: IdCheck, portfolioId: string, id: string, body: PutBody): (r: (Reply, seq<LedgerRecord>))
    ensures !r.0.Updated? ==> r.1 == records
    ensures !validId(portfolioId) ==> r.0 == InvalidPortfolioId
    ensures validId(portfolioId) && !validId(id) ==> r.0 == InvalidRecordId
    ensures (validId(portfolioId) && validId(id) &&
             (body.change.None? || body.result.None? || body.price.None? || !Truthy(body.unit))) ==> r.0 == MissingFields
    ensures r.0.Updated? ==>
              Locate(records, portfolioId, id).Success? && FirstWithId(records, id).Some? &&
              var p := FirstWithId(records, id).value;
              |r.1| == |records| && r.1 == records[p := PutFields(records[p], body)] && r.0.record == r.1[p]
    // well-formed ids and a full body: an owned record is updated, and otherwise the lookup's 404
    ensures validId(portfolioId) && validId(id) &&
            body.change.Some? && body.result.Some? && body.price.Some? && Truthy(body.unit) ==>
              (Locate(records, portfolioId, id).Success? ==> r.0.Updated?) &&
              (Locate(records, portfolioId, id).Failure? ==> r.0 == Locate(records, portfolioId, id).error)
  {
    if !validId(portfolioId) then (InvalidPortfolioId, records)
    else if !validId(id) then (InvalidRecordId, records)
    else if body.change.None? || body.result.None? || body.price.None? || !Truthy(body.unit) then (MissingFields, records)
    else match Locate(records, portfolioId, id)
      case Failure(e) => (e, records)
      case Success(_) =>
        var p := FirstWithId(records, id).value;
        var y := PutFields(records[p], body);
        (Updated(y), records[p := y])
  }

  /** DELETE `/:portfolioId/assetrecord/:id`. */
  function DeleteSpec(records: seq<LedgerRecord>, validId: IdCheck, portfolioId: string, id: string): (r: (Reply, seq<LedgerRecord>))
    ensures r.0 != Deleted ==> r.1 == records
    ensures !validId(portfolioId) ==> r.0 == InvalidPortfolioId
    ensures validId(portfolioId) && !validId(id) ==> r.0 == InvalidRecordId
    ensures r.0 == Deleted ==>
              Locate(records, portfolioId, id).Success? && FirstWithId(records, id).Some? &&
              var p := FirstWithId(records, id).value;
              r.1 == records[..p] + records[p + 1..]
    // well-formed ids: an owned record is deleted, and otherwise the lookup's 404
    ensures validId(portfolioId) && validId(id) ==>
              (Locate(records, portfolioId, id).Success? ==> r.0 == Deleted) &&
              (Locate(records, portfolioId, id).Failure? ==> r.0 == Locate(records, portfolioId, id).error)
  {
    if !validId(portfolioId) then (InvalidPortfolioId, records)
    else if !validId(id) then (InvalidRecordId, records)
    else match Locate(records, portfolioId, id)
      case Failure(e) => (e, records)
      case Success(_) =>
        var p := FirstWithId(records, id).value;
        (Deleted, records[..p] + records[p + 1..])
  }

  /** With unique ids, a successful PUT rewrites the located record only and keeps its
      identity: portfolio, asset and day are untouched. */
  lemma PutTouchesOnlyTarget(records: seq<LedgerRecord>, validId: IdCheck, portfolioId: string, id: string, body: PutBody)
    requires UniqueIds(records)
    requires PutSpec(records, validId, portfolioId, id, body).0.Updated?
    ensures var t := PutSpec(records, validId, portfolioId, id, body).1;
            var x := Locate(records, portfolioId, id).value;
            |t| == |records| &&
            forall j :: 0 <= j < |records| ==>
              if records[j].id == id then records[j] == x && t[j] == PutFields(x, body)
              else t[j] == records[j]
  {
    var p := FirstWithId(records, id).value;
    var x := Locate(records, portfolioId, id).value;
    var q :| 0 <= q < |records| && records[q] == x;
    assert q == p;
  }

  /** With unique ids, a successful DELETE removes that one record and no other. */
  lemma DeleteRemovesExactlyOne(records: seq<LedgerRecord>, validId: IdCheck, portfolioId: string, id: string)
    requires UniqueIds(records)
    requires DeleteSpec(records, validId, portfolioId, id).0 == Deleted
    ensures var t := DeleteSpec(records, validId, portfolioId, id).1;
            |t| == |records| - 1 &&
            (forall x :: x in t <==> x in records && x.id != id) &&
            multiset(t) + multiset{Locate(records, portfolioId, id).value} == multiset(records)
  {
    var p := FirstWithId(records, id).value;
    var x := Locate(records, portfolioId, id).value;
    var q :| 0 <= q < |records| && records[q] == x;
    assert q == p;
    RemoveAt(records, p);
  }

  /** Taking out the record at `p` leaves the others, and with unique ids only they lack its id. */
  lemma RemoveAt(records: seq<LedgerRecord>, p: nat)
    requires p < |records| && UniqueIds(records)
    ensures var t := records[..p] + records[p + 1..];
            |t| == |records| - 1 &&
            (forall x :: x in t <==> x in records && x.id != records[p].id) &&
            multiset(t) + multiset{records[p]} == multiset(records)
  {
    var t := records[..p] + records[p + 1..];
    assert records == records[..p] + [records[p]] + records[p + 1..];
    forall y | y in records && y.id != records[p].id ensures y in t {
      var j :| 0 <= j < |records| && records[j] == y;
      if j < p { assert t[j] == y; } else { assert t[j - 1] == y; }
    }
    forall y | y in t ensures y in records && y.id != records[p].id {
      var j :| 0 <= j < |t| && t[j] == y;
      if j < p { assert y == records[j]; } else { assert y == records[j + 1]; }
    }
  }

  /** The ledger collection behind the handlers. */
  class RecordTable {
    var records: seq<LedgerRecord>

    constructor (initial: seq<LedgerRecord>)
      ensures records == initial
    {
      records := initial;
    }

    method List(portfolios: seq<Portfolio>, validId: IdCheck, portfolioId: string) returns (r: Reply)
      ensures r == ListSpec(portfolios, records, validId, portfolioId)
    {
      if !validId(portfolioId) {
        return InvalidPortfolioId;
      }
      if FindPortfolio(portfolios, portfolioId).None? {
        return PortfolioMissing;
      }
      return Listed(Query(records, portfolioId, AnyDate));
    }

    method GetOne(validId: IdCheck, portfolioId: string, id: string) returns (r: Reply)
      ensures r == GetOneSpec(records, validId, portfolioId, id)
    {
      if !validId(portfolioId) {
        return InvalidPortfolioId;
      }
      if !validId(id) {
        return InvalidRecordId;
      }
      var d := Locate(records, portfolioId, id);
      if d.Success? {
        return Found(d.value);
      }
      return d.error;
    }

    method Post(portfolios: seq<Portfolio>, validId: IdCheck, parses: DateCheck,
                portfolioId: string, body: PostBody, newId: string) returns (r: Reply)
      modifies this
      ensures (r, records) == PostSpec(portfolios, old(records), validId, parses, portfolioId, body, newId)
    {
      if !validId(portfolioId) {
        return InvalidPortfolioId;
      }
      if FindPortfolio(portfolios, portfolioId).None? {
        return PortfolioMissing;
      }
      if !Truthy(body.assetId) || !Truthy(body.date) || body.change.None? || !Truthy(body.unit) {
        return MissingFields;
      }
      if !parses(body.date.value) {
        return BadDate;
      }
      var data := LedgerRecord(newId, portfolioId, body.assetId.value, body.date.value, body.change.value,
                               if body.result.Some? then body.result.value else 0,
                               if body.price.Some? then body.price.value else 0,
                               body.unit.value, OrElse(body.memo, ""));
      records := records + [data];
      return Created(data);
    }

    method Put(validId: IdCheck, portfolioId: string, id: string, body: PutBody) returns (r: Reply)
      modifies this
      ensures (r, records) == PutSpec(old(records), validId, portfolioId, id, body)
    {
      if !validId(portfolioId) {
        return InvalidPortfolioId;
      }
      if !validId(id) {
        return InvalidRecordId;
      }
      if body.change.None? || body.result.None? || body.price.None? || !Truthy(body.unit) {
        return MissingFields;
      }
      var existing := Locate(records, portfolioId, id);
      if existing.Failure? {
        return existing.error;
      }
      var p := FirstWithId(records, id).value;
      var updated := PutFields(records[p], body);
      records := records[p := updated];
      return Updated(updated);
    }

    method Delete(validId: IdCheck, portfolioId: string, id: string) returns (r: Reply)
      modifies this
      ensures (r, records) == DeleteSpec(old(records), validId, portfolioId, id)
    {
      if !validId(portfolioId) {
        return InvalidPortfolioId;
      }
      if !validId(id) {
        return InvalidRecordId;
      }
      var existing := Locate(records, portfolioId, id);
      if existing.Failure? {
        return existing.error;
      }
      var p := FirstWithId(records, id).value;
      records := records[..p] + records[p + 1..];
      return Deleted;
    }
  }
}
