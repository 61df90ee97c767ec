/** Deleting an account through the API: refused while any line of the
    company's entries carries the account's name. */
module AccountDeleteRoute {
  import opened Ledger
  import opened Store

  datatype DeleteError =
    | Unauthorized | InvalidToken | AccountIdRequired | CompanyIdRequired
    | AccessDenied | AccountNotFound | InUse(count: nat)

  /** The entry `id` exists and belongs to `companyId`. */
  predicate EntryOfCompany(es: seq<EntryRow>, id: string, companyId: string)
  {
    exists i :: 0 <= i < |es| && es[i].id == id && es[i].companyId == companyId
  }

  /** `journalLine.count` over the lines named `name` whose entry belongs
      to the company. */
  function UsageCount(es: seq<EntryRow>, table: seq<LineRow>, name: string, companyId: string): (n: nat)
    ensures n == 0 <==> forall k :: 0 <= k < |table| ==>
      !(table[k].accountName == name && EntryOfCompany(es, table[k].journalEntryId, companyId))
    ensures n <= |table|
  {
    if table == [] then 0
    else
      var l := table[|table| - 1];
      var init := table[..|table| - 1];
      assert forall k :: 0 <= k < |init| ==> init[k] == table[k];
      UsageCount(es, init, name, companyId)
      + (if l.accountName == name && EntryOfCompany(es, l.journalEntryId, companyId) then 1 else 0)
  }

  /** The route's checks in order, then the removal of exactly that account
      row; every refusal leaves the tables as they were. */
  method Delete(db: Database, auth: Auth, accountId: string, companyId: string)
    returns (r: Result<Account, DeleteError>)
    modifies db
    ensures r == Err(Unauthorized) <==> auth == NoBearer
    ensures r == Err(InvalidToken) <==> auth == BadToken
    ensures r == Err(AccountIdRequired) <==> auth.User? && accountId == []
    ensures r == Err(CompanyIdRequired) <==> auth.User? && accountId != [] && companyId == []
    ensures r == Err(AccessDenied) <==>
      auth.User? && accountId != [] && companyId != []
      && old(FindMembership(db.memberships, auth.userId, companyId)).None?
    ensures r == Err(AccountNotFound) <==>
      auth.User? && accountId != [] && companyId != []
      && old(FindMembership(db.memberships, auth.userId, companyId)).Some?
      && old(FindAccountById(db.accounts, accountId, companyId)).None?
    ensures r.Err? && r.error.InUse? ==>
      && old(FindAccountById(db.accounts, accountId, companyId)).Some?
      && r.error.count == old(UsageCount(db.entries, db.lines,
                                         FindAccountById(db.accounts, accountId, companyId).value.name, companyId))
      && r.error.count > 0
    ensures r.Ok? ==>
      && auth.User? && old(FindMembership(db.memberships, auth.userId, companyId)).Some?
      && r.value == old(FindAccountById(db.accounts, accountId, companyId)).value
      && old(UsageCount(db.entries, db.lines, r.value.name, companyId)) == 0
      && db.accounts == AccountsWithout(old(db.accounts), accountId)
    ensures r.Err? ==> db.accounts == old(db.accounts)
    ensures db.entries == old(db.entries) && db.lines == old(db.lines) && db.memberships == old(db.memberships)
  {
    if auth == NoBearer {
      return Err(Unauthorized);
    }
    if auth == BadToken {
      return Err(InvalidToken);
    }
    if accountId == [] {
      return Err(AccountIdRequired);
    }
    if companyId == [] {
      return Err(CompanyIdRequired);
    }
    if FindMembership(db.memberships, auth.userId, companyId).None? {
      return Err(AccessDenied);
    }
    var account := FindAccountById(db.accounts, accountId, companyId);
    if account.None? {
      return Err(AccountNotFound);
    }
    var count := UsageCount(db.entries, db.lines, account.value.name, companyId);
    if count > 0 {
      return Err(InUse(count));
    }
    db.accounts := AccountsWithout(db.accounts, accountId);
    r := Ok(account.value);
  }
}
