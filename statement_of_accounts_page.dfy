/** The statement-of-accounts page: accounts grouped by type and nested one
    level under their parents, the parent picker, the subcategory choices,
    the account form with its own checks, and the local list updates after
    a create, an edit or a delete. */
module StatementOfAccountsPage {
  import opened Ledger
  import opened Seqs
  import opened Store
  import AccountsRoute
  import AccountDeleteRoute

  /** `!!account.parentId`: a parent id that is present and not empty. */
  predicate HasParent(a: Account)
  {
    a.parentId.Some? && a.parentId.value != []
  }

  predicate IsMain(a: Account)
  {
    !HasParent(a)
  }

  /** `subAccount.parentId === mainAccount.id`. */
  predicate ChildOf(c: Account, parentId: string)
  {
    c.parentId == Some(parentId)
  }

  /** `getAvailableParentAccounts`: accounts of the form's type that have
      no parent themselves, other than the account being edited. */
  function AvailableParents(accounts: seq<Account>, formType: string, editingId: Option<string>): (r: seq<Account>)
    ensures forall a :: a in r <==>
      a in accounts && a.accountType == formType && !HasParent(a) && (editingId.Some? ==> a.id != editingId.value)
  {
    Filter(accounts, (a: Account) => a.accountType == formType && IsMain(a) && (editingId.None? || a.id != editingId.value))
  }

  /** A top-level account with the sub-accounts listed under it. */
  datatype Node = Node(account: Account, children: seq<Account>)

  /** `organizeAccountsHierarchically`: one node per account without a
      parent, in list order, holding the sub-accounts that name it. */
  function Organize(list: seq<Account>): (r: seq<Node>)
    ensures |r| == |Filter(list, IsMain)|
    ensures forall k :: 0 <= k < |r| ==> r[k].account == Filter(list, IsMain)[k]
    ensures forall k :: 0 <= k < |r| ==> r[k].account in list && !HasParent(r[k].account)
    ensures forall a :: a in list && !HasParent(a) ==> exists k :: 0 <= k < |r| && r[k].account == a
    ensures forall k, c :: 0 <= k < |r| ==>
      (c in r[k].children <==> c in list && HasParent(c) && ChildOf(c, r[k].account.id))
  {
    var mains := Filter(list, IsMain);
    var subs := Filter(list, HasParent);
    var r := seq(|mains|, k requires 0 <= k < |mains| => Node(mains[k], Filter(subs, (c: Account) => ChildOf(c, mains[k].id))));
    assert forall a :: a in list && !HasParent(a) ==> a in mains;
    r
  }

  /** A sub-account whose parent is not a top-level account of the list
      appears nowhere in the hierarchy. */
  lemma OrphanHidden(list: seq<Account>, a: Account)
    requires a in list && HasParent(a)
    requires forall m :: m in list && !HasParent(m) ==> m.id != a.parentId.value
    ensures forall k :: 0 <= k < |Organize(list)| ==>
      Organize(list)[k].account != a && a !in Organize(list)[k].children
  {
  }

  /** One heading of the page: a type and its hierarchy. */
  datatype Group = Group(accountType: string, nodes: seq<Node>)

  /** The test `(a) => a.type === type`. */
  function IsOfType(t: string): Account -> bool
  {
    (a: Account) => a.accountType == t
  }

  /** The accounts of one type, in list order. */
  function OfType(accounts: seq<Account>, t: string): (r: seq<Account>)
    ensures forall a :: a in r <==> a in accounts && a.accountType == t
  {
    Filter(accounts, IsOfType(t))
  }

  /** Grouping by type keeps every occurrence of an account of the type,
      and only those. */
  lemma OfTypeKeepsEach(accounts: seq<Account>, t: string)
    ensures |OfType(accounts, t)| == CountIf(accounts, IsOfType(t))
    ensures forall a :: multiset(OfType(accounts, t))[a]
                     == if a.accountType == t then multiset(accounts)[a] else 0
  {
    FilterMultiset(accounts, IsOfType(t));
  }

  /** `groupedAccounts`: the five types in their fixed order, each with the
      hierarchy of its own accounts only. */
  function GroupedAccounts(accounts: seq<Account>): (r: seq<Group>)
    ensures |r| == 5
    ensures forall i :: 0 <= i < 5 ==> r[i].accountType == AccountTypes[i]
    ensures forall i :: 0 <= i < 5 ==> r[i].nodes == Organize(OfType(accounts, AccountTypes[i]))
  {
    seq(5, i requires 0 <= i < 5 => Group(AccountTypes[i], Organize(OfType(accounts, AccountTypes[i]))))
  }

  /** Whether an account is shown anywhere on the page. */
  predicate Shown(groups: seq<Group>, a: Account)
  {
    exists i, k :: 0 <= i < |groups| && 0 <= k < |groups[i].nodes| &&
      (groups[i].nodes[k].account == a || a in groups[i].nodes[k].children)
  }

  /** Every account shown under a heading has that heading's type, whether
      it is shown as a top-level account or as a sub-account. */
  lemma GroupsHoldTheirType(accounts: seq<Account>, i: int, k: int)
    requires 0 <= i < 5
    requires 0 <= k < |GroupedAccounts(accounts)[i].nodes|
    ensures GroupedAccounts(accounts)[i].nodes[k].account.accountType == AccountTypes[i]
    ensures forall c :: c in GroupedAccounts(accounts)[i].nodes[k].children ==> c.accountType == AccountTypes[i]
    ensures GroupedAccounts(accounts)[i].nodes[k].account in accounts
  {
    var typed := OfType(accounts, AccountTypes[i]);
    assert GroupedAccounts(accounts)[i].nodes == Organize(typed);
  }

  lemma ShownAt(groups: seq<Group>, a: Account, i: int, k: int)
    requires 0 <= i < |groups| && 0 <= k < |groups[i].nodes|
    requires groups[i].nodes[k].account == a
    ensures Shown(groups, a)
  {
  }

  /** Every top-level account of one of the five types has a place on the
      page. */
  lemma MainAccountShown(accounts: seq<Account>, a: Account)
    requires a in accounts && IsAccountType(a.accountType) && !HasParent(a)
    ensures Shown(GroupedAccounts(accounts), a)
  {
    var g := GroupedAccounts(accounts);
    var i := TypeIndex(a.accountType);
    var typed := OfType(accounts, a.accountType);
    assert a in typed;
    var nodes := Organize(typed);
    assert g[i].nodes == nodes;
    var k :| 0 <= k < |nodes| && nodes[k].account == a;
    ShownAt(g, a, i, k);
  }

  /** A sub-account whose parent, where there is one in the list, has a
      different type is shown nowhere. */
  lemma MismatchedChildHidden(accounts: seq<Account>, a: Account)
    requires a in accounts && HasParent(a)
    requires forall m :: m in accounts && m.id == a.parentId.value ==> m.accountType != a.accountType
    ensures !Shown(GroupedAccounts(accounts), a)
  {
    var g := GroupedAccounts(accounts);
    forall i, k | 0 <= i < 5 && 0 <= k < |g[i].nodes|
      ensures g[i].nodes[k].account != a && a !in g[i].nodes[k].children
    {
      GroupsHoldTheirType(accounts, i, k);
      var typed := OfType(accounts, AccountTypes[i]);
      assert g[i].nodes == Organize(typed);
    }
  }

  lemma NotShownAt(groups: seq<Group>, a: Account)
    requires forall i, k :: 0 <= i < |groups| && 0 <= k < |groups[i].nodes| ==>
      groups[i].nodes[k].account != a && a !in groups[i].nodes[k].children
    ensures !Shown(groups, a)
  {
  }

  /** An account whose type is none of the five is shown nowhere. */
  lemma UntypedHidden(accounts: seq<Account>, a: Account)
    requires !IsAccountType(a.accountType)
    ensures !Shown(GroupedAccounts(accounts), a)
  {
    var g := GroupedAccounts(accounts);
    forall i, k | 0 <= i < |g| && 0 <= k < |g[i].nodes|
      ensures g[i].nodes[k].account != a && a !in g[i].nodes[k].children
    {
      ListedTypeIsType(i);
      GroupsHoldTheirType(accounts, i, k);
    }
    NotShownAt(g, a);
  }

  /** The subcategory choices offered for a type; a type outside the five
      has none. */
  function SubcategoryOptions(t: string): (r: seq<string>)
    ensures r != [] <==> IsAccountType(t)
  {
    if t == ASSET then ["NON_CURRENT_ASSETS", "CURRENT_ASSETS"]
    else if t == LIABILITY then ["NON_CURRENT_LIABILITIES", "CURRENT_LIABILITIES"]
    else if t == EQUITY then ["SHARE_CAPITAL", "DRAWINGS", "RETAINED_EARNINGS"]
    else if t == REVENUE then ["REVENUE", "GAINS"]
    else if t == EXPENSE then ["COST_OF_SALES", "SELLING_MARKETING", "ADMIN_DISTRIBUTION"]
    else []
  }

  /** The type that offers subcategory `s`, if any. */
  function SubcategoryOwner(s: string): string
  {
    if s in SubcategoryOptions(ASSET) then ASSET
    else if s in SubcategoryOptions(LIABILITY) then LIABILITY
    else if s in SubcategoryOptions(EQUITY) then EQUITY
    else if s in SubcategoryOptions(REVENUE) then REVENUE
    else EXPENSE
  }

  /** Each subcategory offered under `t` is owned by `t`. */
  lemma OwnerOfOption(t: string, s: string)
    requires s in SubcategoryOptions(t)
    ensures SubcategoryOwner(s) == t
  {
  }

  /** No subcategory is offered under two types. */
  lemma SubcategoriesScoped(t: string, u: string, s: string)
    requires t != u && s in SubcategoryOptions(t)
    ensures s !in SubcategoryOptions(u)
  {
    OwnerOfOption(t, s);
    if s in SubcategoryOptions(u) {
      OwnerOfOption(u, s);
    }
  }

  /** The account form (`newAccount`). */
  datatype AccountForm = AccountForm(
    code: string, name: string, accountType: string, subcategory: string, isSubAccount: bool, parentId: string)

  function EmptyForm(): AccountForm
  {
    AccountForm("", "", "", "", false, "")
  }

  /** `editAccount`: the form filled from an existing account. */
  function FormOf(a: Account): (f: AccountForm)
    ensures f.isSubAccount <==> f.parentId != []
    ensures f.code == a.code && f.name == a.name && f.accountType == a.accountType
  {
    AccountForm(a.code, a.name, a.accountType, if a.subcategory.Some? then a.subcategory.value else "",
                HasParent(a), if HasParent(a) then a.parentId.value else "")
  }

  /** `saveAccount`'s own checks, in order. */
  datatype SaveRefusal = MissingFields | NoParent | NoCompany | InvalidType

  function SaveCheck(form: AccountForm, company: Option<string>): Option<SaveRefusal>
  {
    if form.code == [] || form.name == [] || form.accountType == [] then Some(MissingFields)
    else if form.isSubAccount && form.parentId == [] then Some(NoParent)
    else if company.None? then Some(NoCompany)
    else if !IsAccountType(form.accountType) then Some(InvalidType)
    else None
  }

  /** The create request the form posts: the parent only when the
      sub-account box is ticked. */
  function CreateBody(auth: Auth, companyId: string, form: AccountForm): AccountsRoute.CreateRequest
  {
    AccountsRoute.CreateRequest(auth, companyId, form.code, form.name, form.accountType, form.subcategory,
                                if form.isSubAccount then form.parentId else "")
  }

  /** A form that passes the page's checks is never refused by the server
      for a missing field or an unknown type; what remains for the server
      is the caller, the role, the parent and the code. */
  lemma ClientCreateChecked(auth: Auth, companyId: string, form: AccountForm, memberships: seq<Membership>,
                            accs: seq<Account>, id: string)
    requires SaveCheck(form, Some(companyId)).None? && companyId != []
    ensures var v := AccountsRoute.Validate(CreateBody(auth, companyId, form), memberships, accs, id);
      v != Err(AccountsRoute.MissingFields) && v != Err(AccountsRoute.InvalidType)
    ensures var v := AccountsRoute.Validate(CreateBody(auth, companyId, form), memberships, accs, id);
      v.Ok? <==>
        && auth.User? && MayWrite(FindMembership(memberships, auth.userId, companyId))
        && AccountsRoute.ParentCheck(CreateBody(auth, companyId, form), accs).None?
        && !CodeTaken(accs, companyId, form.code)
  {
  }

  /** A parent picked from the offered list passes the server's parent
      checks, provided the list came from the company's own accounts and
      account ids are unique. */
  lemma PickedParentPasses(auth: Auth, companyId: string, form: AccountForm, view: seq<Account>,
                           accs: seq<Account>, editingId: Option<string>, p: Account)
    requires form.isSubAccount && form.parentId == p.id && p.id != []
    requires p in AvailableParents(view, form.accountType, editingId)
    requires forall a :: a in view ==> a in accs && a.companyId == companyId
    requires forall i, j :: 0 <= i < |accs| && 0 <= j < |accs| && accs[i].id == accs[j].id ==> i == j
    ensures AccountsRoute.ParentCheck(CreateBody(auth, companyId, form), accs).None?
  {
    var found := AccountsRoute.FindById(accs, p.id);
    var i :| 0 <= i < |accs| && accs[i] == p;
    assert found.Some?;
    var j :| 0 <= j < |accs| && accs[j] == found.value;
    assert found.value == p;
  }

  /** The record an edit leaves in the list: the form's fields over the old
      record, an empty subcategory and an unticked box becoming absent. */
  function Edited(a: Account, form: AccountForm): (e: Account)
    ensures e.id == a.id && e.companyId == a.companyId && e.isActive == a.isActive
    ensures e.code == form.code && e.name == form.name && e.accountType == form.accountType
    ensures e.parentId.Some? <==> form.isSubAccount
  {
    a.(code := form.code, name := form.name, accountType := form.accountType,
       subcategory := if form.subcategory != [] then Some(form.subcategory) else None,
       parentId := if form.isSubAccount then Some(form.parentId) else None)
  }

  /** `accounts.map((acc) => acc.id === id ? {...} : acc)`. */
  function ReplaceById(accounts: seq<Account>, id: string, form: AccountForm): (r: seq<Account>)
    ensures |r| == |accounts|
    ensures forall k :: 0 <= k < |r| && accounts[k].id != id ==> r[k] == accounts[k]
    ensures forall k :: 0 <= k < |r| && accounts[k].id == id ==> r[k] == Edited(accounts[k], form)
    ensures forall k :: 0 <= k < |r| ==> r[k].id == accounts[k].id
  {
    seq(|accounts|, k requires 0 <= k < |accounts| =>
      if accounts[k].id == id then Edited(accounts[k], form) else accounts[k])
  }

  datatype SaveOutcome = Refused(reason: SaveRefusal) | Failed | Saved

  /** The page's state: the loaded accounts, the form, the account being
      edited and whether the form shows. */
  class AccountsView {
    var accounts: seq<Account>
    var form: AccountForm
    var editing: Option<Account>
    var showForm: bool

    /** What the handlers keep true: with the sub-account box unticked,
        no parent is kept. */
    ghost predicate Valid()
      reads this
    {
      form.isSubAccount || form.parentId == []
    }

    constructor()
      ensures accounts == [] && form == EmptyForm() && editing.None? && !showForm
      ensures Valid()
    {
      accounts := [];
      form := EmptyForm();
      editing := None;
      showForm := false;
    }

    /** `fetchAccounts`: the list becomes what the accounts API returns. */
    method Load(db: Database, auth: Auth, companyId: string)
      modifies this
      ensures var listed := AccountsRoute.List(db, auth, companyId);
        accounts == if listed.Ok? then listed.value else old(accounts)
      ensures form == old(form) && editing == old(editing) && showForm == old(showForm)
    {
      var listed := AccountsRoute.List(db, auth, companyId);
      if listed.Ok? {
        accounts := listed.value;
      }
    }

    /** `editAccount`. */
    method Edit(a: Account)
      modifies this
      ensures editing == Some(a) && form == FormOf(a) && showForm
      ensures accounts == old(accounts)
      ensures Valid()
    {
      editing := Some(a);
      form := FormOf(a);
      showForm := true;
    }

    /** `handleTypeChange`: a new type clears the subcategory. */
    method ChangeType(t: string)
      modifies this
      ensures form == old(form).(accountType := t, subcategory := "")
      ensures accounts == old(accounts) && editing == old(editing) && showForm == old(showForm)
      ensures old(Valid()) ==> Valid()
    {
      form := form.(accountType := t, subcategory := "");
    }

    /** `handleSubAccountChange`: unticking clears the parent. */
    method ChangeSubAccount(checked: bool)
      modifies this
      ensures form == old(form).(isSubAccount := checked, parentId := if checked then old(form).parentId else "")
      ensures accounts == old(accounts) && editing == old(editing) && showForm == old(showForm)
      ensures Valid()
    {
      form := form.(isSubAccount := checked, parentId := if checked then form.parentId else "");
    }

    /** The parent picker, which is on screen only while the box is ticked. */
    method SetParent(id: string)
      modifies this
      ensures form == old(form).(parentId := id)
      ensures accounts == old(accounts) && editing == old(editing) && showForm == old(showForm)
      ensures old(Valid()) && old(form).isSubAccount ==> Valid()
    {
      form := form.(parentId := id);
    }

    /** `cancelForm`. */
    method Cancel()
      modifies this
      ensures form == EmptyForm() && editing.None? && !showForm
      ensures accounts == old(accounts)
      ensures Valid()
    {
      form := EmptyForm();
      editing := None;
      showForm := false;
    }

    /** `saveAccount`: the page's checks; then an edit, whose answer from
        the update API is `updated`, replaces only the record being edited,
        and a create goes through the accounts API and appends the account
        it returns. A success clears the form. */
    method Save(db: Database, auth: Auth, company: Option<string>, id: string, updated: bool)
      returns (r: SaveOutcome)
      modifies this, db
      ensures r.Refused? <==> old(SaveCheck(form, company)).Some?
      ensures r.Refused? ==> r.reason == old(SaveCheck(form, company)).value
      ensures old(SaveCheck(form, company)).None? && old(editing).Some? ==> (r.Saved? <==> updated)
      ensures old(SaveCheck(form, company)).None? && old(editing).None? && company.Some? ==>
        (r.Saved? <==> AccountsRoute.Validate(CreateBody(auth, company.value, old(form)),
                                              old(db.memberships), old(db.accounts), id).Ok?)
      ensures r.Saved? && old(editing).Some? ==>
        accounts == ReplaceById(old(accounts), old(editing).value.id, old(form))
      ensures r.Saved? && old(editing).None? ==>
        && company.Some?
        && accounts == old(accounts) + [AccountsRoute.NewRow(CreateBody(auth, company.value, old(form)), id)]
        && db.accounts == old(db.accounts) + [AccountsRoute.NewRow(CreateBody(auth, company.value, old(form)), id)]
      ensures r.Saved? ==> form == EmptyForm() && editing.None? && !showForm
      ensures !r.Saved? ==> accounts == old(accounts) && form == old(form) && editing == old(editing)
      ensures old(editing).Some? || !r.Saved? ==> db.accounts == old(db.accounts)
      ensures db.entries == old(db.entries) && db.lines == old(db.lines) && db.memberships == old(db.memberships)
      ensures old(Valid()) ==> Valid()
    {
      var refusal := SaveCheck(form, company);
      if refusal.Some? {
        return Refused(refusal.value);
      }
      if editing.Some? {
        if !updated {
          return Failed;
        }
        accounts := ReplaceById(accounts, editing.value.id, form);
      } else {
        var created := AccountsRoute.Create(db, CreateBody(auth, company.value, form), id);
        if created.Err? {
          return Failed;
        }
        accounts := accounts + [created.value];
      }
      form := EmptyForm();
      editing := None;
      showForm := false;
      r := Saved;
    }

    /** `deleteAccount`: after confirmation, the delete request; when the
        server removes the account, exactly that id leaves the list. */
    method Delete(db: Database, auth: Auth, companyId: string, accountId: string, confirmed: bool)
      returns (deleted: bool)
      modifies this, db
      ensures !confirmed ==> !deleted
      ensures accounts == if deleted then AccountsWithout(old(accounts), accountId) else old(accounts)
      ensures deleted ==> db.accounts == AccountsWithout(old(db.accounts), accountId)
      ensures !deleted ==> db.accounts == old(db.accounts)
      ensures form == old(form) && editing == old(editing) && showForm == old(showForm)
      ensures db.entries == old(db.entries) && db.lines == old(db.lines) && db.memberships == old(db.memberships)
      ensures old(Valid()) ==> Valid()
    {
      if !confirmed {
        return false;
      }
      var r := AccountDeleteRoute.Delete(db, auth, accountId, companyId);
      deleted := r.Ok?;
      if deleted {
        accounts := AccountsWithout(accounts, accountId);
      }
    }
  }
}
