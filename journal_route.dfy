/** The journal API: posting an entry (authentication, required fields,
    role gate, balance tolerance, line normalisation, insert) and listing a
    company's entries. */
module JournalRoute {
  import opened Ledger
  import opened Store

  /** One posted line: amounts arrive as numbers or strings. */
  datatype LineInput = LineInput(account: string, description: string, debit: RawAmount, credit: RawAmount)

  /** The body of a post; a missing date is `None`, a missing string is
      empty, and missing `lines` is the empty list. */
  datatype PostRequest = PostRequest(
    auth: Auth, companyId: string, date: Option<int>, description: string, reference: string,
    lines: seq<LineInput>)

  datatype RouteError = Unauthorized | InvalidToken | MissingFields | AccessDenied | Unbalanced

  /** `lines.reduce((sum, line) => sum + (Number(line.debit) || 0), 0)` and
      the same for credits. */
  function InputTotal(lines: seq<LineInput>, side: Side): real
  {
    if lines == [] then 0.0
    else
      var l := lines[|lines| - 1];
      InputTotal(lines[..|lines| - 1], side) + NumberOrZero(if side == Debit then l.debit else l.credit)
  }

  /** The stored form of the posted lines: same order, `account` renamed
      to `accountName`, both amounts normalised with `Number(x) || 0`. */
  function StoredLines(lines: seq<LineInput>): (r: seq<JournalLine>)
    ensures |r| == |lines|
    ensures forall k :: 0 <= k < |r| ==>
      r[k].accountName == lines[k].account && r[k].description == lines[k].description
      && r[k].debit == NumberOrZero(lines[k].debit) && r[k].credit == NumberOrZero(lines[k].credit)
  {
    seq(|lines|, k requires 0 <= k < |lines| =>
      JournalLine(lines[k].account, lines[k].description,
                  NumberOrZero(lines[k].debit), NumberOrZero(lines[k].credit)))
  }

  /** The balance check sums exactly the amounts that are then stored. */
  lemma {:induction false} InputTotalIsStoredTotal(lines: seq<LineInput>, side: Side)
    ensures InputTotal(lines, side) == Total(StoredLines(lines), side)
  {
    if lines != [] {
      var init := lines[..|lines| - 1];
      InputTotalIsStoredTotal(init, side);
      assert StoredLines(lines)[..|lines| - 1] == StoredLines(init);
    }
  }

  predicate FieldsPresent(req: PostRequest)
  {
    req.companyId != [] && req.date.Some? && req.description != [] && req.reference != [] && req.lines != []
  }

  /** The POST checks in their order; the first that fails decides the
      answer. Success yields the lines to store. */
  function Validate(req: PostRequest, memberships: seq<Membership>): Result<seq<JournalLine>, RouteError>
  {
    if req.auth == NoBearer then Err(Unauthorized)
    else if req.auth == BadToken then Err(InvalidToken)
    else if !FieldsPresent(req) then Err(MissingFields)
    else if !MayWrite(FindMembership(memberships, req.auth.userId, req.companyId)) then Err(AccessDenied)
    else
      var difference := InputTotal(req.lines, Debit) - InputTotal(req.lines, Credit);
      if difference > 0.01 || -difference > 0.01 then Err(Unbalanced)
      else Ok(StoredLines(req.lines))
  }

  /** A post is accepted exactly when the caller is authenticated, every
      field is present, the caller holds a writing role in the company and
      the stored debits and credits differ by at most 0.01 either way;
      nothing about the named accounts, the signs of the amounts or
      one-sidedness is checked. */
  lemma AcceptedExactly(req: PostRequest, memberships: seq<Membership>)
    ensures Validate(req, memberships).Ok? <==>
      && req.auth.User?
      && FieldsPresent(req)
      && MayWrite(FindMembership(memberships, req.auth.userId, req.companyId))
      && -0.01 <= Total(StoredLines(req.lines), Debit) - Total(StoredLines(req.lines), Credit) <= 0.01
    ensures Validate(req, memberships).Ok? ==> Validate(req, memberships).value == StoredLines(req.lines)
  {
    InputTotalIsStoredTotal(req.lines, Debit);
    InputTotalIsStoredTotal(req.lines, Credit);
  }

  /** Each refusal happens only when every earlier check passed. */
  lemma RefusalOrder(req: PostRequest, memberships: seq<Membership>)
    ensures Validate(req, memberships) == Err(Unauthorized) <==> req.auth == NoBearer
    ensures Validate(req, memberships) == Err(InvalidToken) <==> req.auth == BadToken
    ensures Validate(req, memberships) == Err(MissingFields) <==> req.auth.User? && !FieldsPresent(req)
    ensures Validate(req, memberships) == Err(AccessDenied)
        <==> req.auth.User? && FieldsPresent(req)
             && !MayWrite(FindMembership(memberships, req.auth.userId, req.companyId))
    ensures Validate(req, memberships) == Err(Unbalanced)
        <==> req.auth.User? && FieldsPresent(req)
             && MayWrite(FindMembership(memberships, req.auth.userId, req.companyId))
             && !(-0.01 <= Total(StoredLines(req.lines), Debit) - Total(StoredLines(req.lines), Credit) <= 0.01)
  {
    InputTotalIsStoredTotal(req.lines, Debit);
    InputTotalIsStoredTotal(req.lines, Credit);
  }

  /** Every entry this route accepted is balanced within 0.01, so a book of
      n such entries can have debits and credits that differ by up to
      0.01 * n. */
  lemma {:induction false} AcceptedEntriesDrift(entries: seq<JournalEntry>, reqs: seq<PostRequest>,
                                                memberships: seq<Membership>)
    requires |reqs| == |entries|
    requires forall k :: 0 <= k < |entries| ==>
      Validate(reqs[k], memberships) == Ok(entries[k].lines)
    ensures -0.01 * |entries| as real
      <= Total(AllLines(entries), Debit) - Total(AllLines(entries), Credit)
      <= 0.01 * |entries| as real
  {
    if entries != [] {
      var n := |entries| - 1;
      AcceptedEntriesDrift(entries[..n], reqs[..n], memberships);
      AcceptedWithinTolerance(reqs[n], memberships, entries[n].lines);
      TotalAppend(AllLines(entries[..n]), entries[n].lines, Debit);
      TotalAppend(AllLines(entries[..n]), entries[n].lines, Credit);
    }
  }

  lemma AcceptedWithinTolerance(req: PostRequest, memberships: seq<Membership>, lines: seq<JournalLine>)
    requires Validate(req, memberships) == Ok(lines)
    ensures -0.01 <= Total(lines, Debit) - Total(lines, Credit) <= 0.01
  {
    AcceptedExactly(req, memberships);
  }

  /** A one-line post of 0.02 against 0.01 is off by exactly the tolerance
      and is accepted. The figures are chosen so that their difference is
      0.01 in double-precision arithmetic too; with larger amounts, such as
      100.01 against 100.00, doubles round the difference above 0.01 and the
      route refuses what exact arithmetic accepts. */
  lemma CentOffAccepted(userId: string, companyId: string, memberships: seq<Membership>)
    requires companyId != []
    requires MayWrite(FindMembership(memberships, userId, companyId))
    ensures Validate(PostRequest(User(userId), companyId, Some(0), "d", "r",
                                 [LineInput("Cash", "", Numeric(0.02), Numeric(0.01))]),
                     memberships).Ok?
  {
    var ls := [LineInput("Cash", "", Numeric(0.02), Numeric(0.01))];
    assert ls[..0] == [];
    assert InputTotal(ls, Debit) == 0.02;
    assert InputTotal(ls, Credit) == 0.01;
  }

  /** `POST /api/journal`: validate, then insert the entry and its lines
      under the identifier the database generates; a refusal stores
      nothing. */
  method Post(db: Database, req: PostRequest, id: string) returns (r: Result<JournalEntry, RouteError>)
    modifies db
    ensures r.Err? <==> Validate(req, old(db.memberships)).Err?
    ensures r.Err? ==> r.error == Validate(req, old(db.memberships)).error
    ensures r.Err? ==> db.entries == old(db.entries) && db.lines == old(db.lines)
    ensures r.Ok? ==>
      && db.entries == old(db.entries)
           + [EntryRow(id, req.companyId, req.auth.userId, req.date.value, req.description, req.reference)]
      && db.lines == old(db.lines) + LineRowsFor(id, StoredLines(req.lines))
      && r.value.lines == StoredLines(req.lines)
    ensures db.accounts == old(db.accounts) && db.memberships == old(db.memberships)
  {
    var checked := Validate(req, db.memberships);
    if checked.Err? {
      return Err(checked.error);
    }
    var e := db.CreateJournalEntry(id, req.companyId, req.auth.userId, req.date.value,
                                   req.description, req.reference, checked.value);
    r := Ok(JournalEntry(id, req.companyId, req.date.value, req.description, req.reference, checked.value));
  }

  datatype ListError = ListUnauthorized | ListInvalidToken | CompanyRequired | ListAccessDenied

  /** `GET /api/journal`: any membership in the company, whatever its role,
      may list the company's entries, newest first. */
  function List(db: Database, auth: Auth, companyId: string): (r: Result<seq<JournalEntry>, ListError>)
    reads db
    ensures r.Ok? <==> auth.User? && companyId != [] && FindMembership(db.memberships, auth.userId, companyId).Some?
    ensures r.Ok? ==> forall e :: e in r.value ==> e.companyId == companyId
    ensures r.Ok? ==> multiset(r.value) == multiset(CompanyEntries(db.entries, db.lines, companyId))
    ensures r.Ok? ==> forall i, j :: 0 <= i < j < |r.value| ==> r.value[i].date >= r.value[j].date
  {
    if auth == NoBearer then Err(ListUnauthorized)
    else if auth == BadToken then Err(ListInvalidToken)
    else if companyId == [] then Err(CompanyRequired)
    else if FindMembership(db.memberships, auth.userId, companyId).None? then Err(ListAccessDenied)
    else
      JournalEntriesListing(db.entries, db.lines, companyId);
      Ok(JournalEntriesOf(db.entries, db.lines, companyId))
  }
}
