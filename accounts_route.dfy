/** The accounts API: creating an account (field, type, role, parent and
    code-uniqueness checks, in that order) and listing a company's active
    accounts. */
module AccountsRoute {
  import opened Ledger
  import opened Store

  /** The body of a create request; a missing string is empty. */
  datatype CreateRequest = CreateRequest(
    auth: Auth, companyId: string, code: string, name: string, accountType: string,
    subcategory: string, parentId: string)

  datatype CreateError =
    | Unauthorized | InvalidToken | MissingFields | InvalidType | Forbidden
    | ParentNotFound | ParentTypeMismatch | ParentOtherCompany | CodeConflict

  /** `findUnique({ id })`: the account with that id, in any company. */
  function FindById(accs: seq<Account>, id: string): (r: Option<Account>)
    ensures r.None? <==> forall i :: 0 <= i < |accs| ==> accs[i].id != id
    ensures r.Some? ==> r.value in accs && r.value.id == id
  {
    if accs == [] then None
    else if accs[0].id == id then Some(accs[0])
    else
      assert forall i :: 1 <= i < |accs| ==> accs[i] == accs[1..][i - 1];
      FindById(accs[1..], id)
  }

  /** `x || null` for an optional string. */
  function OrNull(s: string): (r: Option<string>)
    ensures r.None? <==> s == []
    ensures r.Some? ==> r.value == s
  {
    if s == [] then None else Some(s)
  }

  /** The row the route inserts: optional fields null when empty, active. */
  function NewRow(req: CreateRequest, id: string): Account
  {
    Account(id, req.companyId, req.code, req.name, req.accountType,
            OrNull(req.subcategory), OrNull(req.parentId), true)
  }

  predicate FieldsPresent(req: CreateRequest)
  {
    req.companyId != [] && req.code != [] && req.name != [] && req.accountType != []
  }

  /** The parent checks, when a parent is named: it exists, has the same
      type and belongs to the same company. */
  function ParentCheck(req: CreateRequest, accs: seq<Account>): Option<CreateError>
  {
    if req.parentId == [] then None
    else
      match FindById(accs, req.parentId)
      case None => Some(ParentNotFound)
      case Some(p) =>
        if p.accountType != req.accountType then Some(ParentTypeMismatch)
        else if p.companyId != req.companyId then Some(ParentOtherCompany)
        else None
  }

  /** The POST checks in their order; the first that fails decides. */
  function Validate(req: CreateRequest, memberships: seq<Membership>, accs: seq<Account>, id: string)
    : Result<Account, CreateError>
  {
    if req.auth == NoBearer then Err(Unauthorized)
    else if req.auth == BadToken then Err(InvalidToken)
    else if !FieldsPresent(req) then Err(MissingFields)
    else if !IsAccountType(req.accountType) then Err(InvalidType)
    else if !MayWrite(FindMembership(memberships, req.auth.userId, req.companyId)) then Err(Forbidden)
    else if ParentCheck(req, accs).Some? then Err(ParentCheck(req, accs).value)
    else if CodeTaken(accs, req.companyId, req.code) then Err(CodeConflict)
    else Ok(NewRow(req, id))
  }

  /** A create succeeds exactly when the caller is authenticated, the four
      fields are present, the type is one of the five, the caller holds a
      writing role, any named parent is an account of the same type in the
      same company, and the company does not use the code yet. Whether the
      parent itself has a parent is never looked at. */
  lemma AcceptedExactly(req: CreateRequest, memberships: seq<Membership>, accs: seq<Account>, id: string)
    ensures Validate(req, memberships, accs, id).Ok? <==>
      && req.auth.User?
      && FieldsPresent(req)
      && IsAccountType(req.accountType)
      && MayWrite(FindMembership(memberships, req.auth.userId, req.companyId))
      && (req.parentId != [] ==>
            && FindById(accs, req.parentId).Some?
            && FindById(accs, req.parentId).value.accountType == req.accountType
            && FindById(accs, req.parentId).value.companyId == req.companyId)
      && !CodeTaken(accs, req.companyId, req.code)
    ensures Validate(req, memberships, accs, id).Ok? ==>
      && Validate(req, memberships, accs, id).value.isActive
      && Validate(req, memberships, accs, id).value.code == req.code
      && Validate(req, memberships, accs, id).value.companyId == req.companyId
      && Validate(req, memberships, accs, id).value.accountType == req.accountType
  {
  }

  /** A created account never breaks the `(companyId, code)` constraint. */
  lemma CreateKeepsCodesUnique(req: CreateRequest, memberships: seq<Membership>, accs: seq<Account>, id: string)
    requires CodesUnique(accs) && Validate(req, memberships, accs, id).Ok?
    ensures CodesUnique(accs + [Validate(req, memberships, accs, id).value])
  {
    AppendFreshCode(accs, Validate(req, memberships, accs, id).value);
  }

  /** A sub-account may be created under an account that is itself a
      sub-account: the tree can grow deeper than two levels. */
  lemma GrandchildAccepted(req: CreateRequest, memberships: seq<Membership>, accs: seq<Account>, id: string,
                           parent: Account)
    requires req.auth.User? && FieldsPresent(req) && IsAccountType(req.accountType)
    requires MayWrite(FindMembership(memberships, req.auth.userId, req.companyId))
    requires req.parentId != [] && parent in accs && parent.id == req.parentId && parent.parentId.Some?
    requires parent.accountType == req.accountType && parent.companyId == req.companyId
    requires forall i :: 0 <= i < |accs| && accs[i].id == parent.id ==> accs[i] == parent
    requires !CodeTaken(accs, req.companyId, req.code)
    ensures Validate(req, memberships, accs, id) == Ok(NewRow(req, id))
    ensures NewRow(req, id).parentId == Some(parent.id)
  {
    assert FindById(accs, req.parentId) == Some(parent);
  }

  /** `POST /api/accounts`: validate, then insert the new row under the
      identifier the database generates; a refusal changes nothing. */
  method Create(db: Database, req: CreateRequest, id: string) returns (r: Result<Account, CreateError>)
    modifies db
    ensures r == Validate(req, old(db.memberships), old(db.accounts), id)
    ensures db.accounts == if r.Ok? then old(db.accounts) + [r.value] else old(db.accounts)
    ensures db.entries == old(db.entries) && db.lines == old(db.lines) && db.memberships == old(db.memberships)
  {
    r := Validate(req, db.memberships, db.accounts, id);
    if r.Ok? {
      var created := db.CreateAccount(r.value);
    }
  }

  datatype ListError = ListUnauthorized | ListInvalidToken | CompanyRequired | ListForbidden

  /** `GET /api/accounts`: any member may list the company's active
      accounts, by type and then code. */
  function List(db: Database, auth: Auth, companyId: string): (r: Result<seq<Account>, ListError>)
    reads db
    ensures r.Ok? <==> auth.User? && companyId != [] && FindMembership(db.memberships, auth.userId, companyId).Some?
    ensures r.Ok? ==> forall a :: a in r.value <==> a in db.accounts && a.companyId == companyId && a.isActive
    ensures r.Ok? ==> multiset(r.value) == multiset(ActiveOf(db.accounts, companyId))
    ensures r.Ok? ==> forall i, j :: 0 <= i < j < |r.value| ==> ByTypeThenCode(r.value[i], r.value[j])
  {
    if auth == NoBearer then Err(ListUnauthorized)
    else if auth == BadToken then Err(ListInvalidToken)
    else if companyId == [] then Err(CompanyRequired)
    else if FindMembership(db.memberships, auth.userId, companyId).None? then Err(ListForbidden)
    else
      CompanyAccountsListing(db.accounts, companyId);
      Ok(CompanyAccountsOf(db.accounts, companyId))
  }
}
