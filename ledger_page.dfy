/** The ledger page's fold: one ledger per account name of the chart, each
    with a row per line naming it. A row's balance is the running total at
    the moment the line is replayed (in the order the entries are fetched);
    only afterwards are the rows sorted by date, so the running balances
    need not read as prefix sums of the displayed rows. */
module LedgerPage {
  import opened Ledger
  import opened Seqs
  import opened Sorting

  datatype LedgerRow = LedgerRow(date: int, description: string, reference: string,
                                 debit: real, credit: real, balance: real)

  datatype AccountLedger = AccountLedger(account: Account, entries: seq<LedgerRow>, balance: real)

  /** A line together with the entry it belongs to. */
  datatype Posting = Posting(entry: JournalEntry, line: JournalLine)

  /** Every line of every entry with its entry, in the order of the nested
      `forEach` loops. */
  function Postings(entries: seq<JournalEntry>): seq<Posting>
  {
    if entries == [] then []
    else
      var e := entries[|entries| - 1];
      Postings(entries[..|entries| - 1]) + seq(|e.lines|, j requires 0 <= j < |e.lines| => Posting(e, e.lines[j]))
  }

  function AccountNames(accounts: seq<Account>): (names: seq<string>)
    ensures |names| == |accounts|
    ensures forall i :: 0 <= i < |accounts| ==> names[i] == accounts[i].name
  {
    seq(|accounts|, i requires 0 <= i < |accounts| => accounts[i].name)
  }

  /** The account a name's ledger shows: `ledgerMap.set` is called once per
      account, so the last account with that name wins. */
  function LastNamed(accounts: seq<Account>, name: string): (a: Account)
    requires KnownName(accounts, name)
    ensures a.name == name
    ensures exists i :: 0 <= i < |accounts| && accounts[i] == a
                        && forall j :: i < j < |accounts| ==> accounts[j].name != name
  {
    var last := accounts[|accounts| - 1];
    var init := accounts[..|accounts| - 1];
    if last.name == name then last
    else
      assert forall j :: 0 <= j < |init| ==> init[j] == accounts[j];
      assert KnownName(init, name) by {
        var i :| 0 <= i < |accounts| && accounts[i].name == name;
        assert i < |init|;
      }
      LastNamed(init, name)
  }

  /** `line.description || entry.description`. */
  function RowDescription(p: Posting): string
  {
    if p.line.description != "" then p.line.description else p.entry.description
  }

  /** Σ of the signed changes, under type `t`, of the postings to `name`. */
  function BalanceOf(ps: seq<Posting>, name: string, t: string): real
  {
    if ps == [] then 0.0
    else
      var p := ps[|ps| - 1];
      BalanceOf(ps[..|ps| - 1], name, t)
      + (if p.line.accountName == name then SignedChange(t, p.line.debit, p.line.credit) else 0.0)
  }

  /** The rows of `name`'s ledger before sorting: one per posting to it, in
      replay order, each carrying the running balance at that point. */
  function RowsOf(ps: seq<Posting>, name: string, t: string): seq<LedgerRow>
  {
    if ps == [] then []
    else
      var p := ps[|ps| - 1];
      RowsOf(ps[..|ps| - 1], name, t)
      + (if p.line.accountName == name
         then [LedgerRow(p.entry.date, RowDescription(p), p.entry.reference,
                         p.line.debit, p.line.credit, BalanceOf(ps, name, t))]
         else [])
  }

  /** The comparator `new Date(a.date) - new Date(b.date)`, as "a sorts no
      later than b". */
  function ByDate(a: LedgerRow, b: LedgerRow): bool
  {
    a.date <= b.date
  }

  lemma ByDateIsTotalPreorder()
    ensures TotalPreorder(ByDate)
  {
  }

  /** The ledger of one account name of the chart. */
  function LedgerOf(accounts: seq<Account>, ps: seq<Posting>, name: string): AccountLedger
    requires KnownName(accounts, name)
  {
    var a := LastNamed(accounts, name);
    AccountLedger(a, SortBy(RowsOf(ps, name, a.accountType), ByDate), BalanceOf(ps, name, a.accountType))
  }

  /** The ledgers of `names`, in their order, that have at least one row. */
  function NonEmptyLedgers(accounts: seq<Account>, ps: seq<Posting>, names: seq<string>): (r: seq<AccountLedger>)
    requires forall n :: n in names ==> KnownName(accounts, n)
    ensures forall k :: 0 <= k < |r| ==> |r[k].entries| > 0
    ensures forall k :: 0 <= k < |r| ==> exists i :: 0 <= i < |names| && r[k] == LedgerOf(accounts, ps, names[i])
  {
    if names == [] then []
    else
      var init := names[..|names| - 1];
      var last := names[|names| - 1];
      assert forall i :: 0 <= i < |init| ==> init[i] == names[i];
      var l := LedgerOf(accounts, ps, last);
      NonEmptyLedgers(accounts, ps, init) + (if |l.entries| > 0 then [l] else [])
  }

  /** The ledger of every name of `names`, in order, empty or not. */
  function LedgersOf(accounts: seq<Account>, ps: seq<Posting>, names: seq<string>): (r: seq<AccountLedger>)
    requires forall n :: n in names ==> KnownName(accounts, n)
    ensures |r| == |names|
    ensures forall i :: 0 <= i < |names| ==> r[i] == LedgerOf(accounts, ps, names[i])
  {
    seq(|names|, i requires 0 <= i < |names| => LedgerOf(accounts, ps, names[i]))
  }

  /** The test `(l) => l.entries.length > 0`. */
  predicate HasRows(l: AccountLedger)
  {
    |l.entries| > 0
  }

  lemma {:induction false} NonEmptyLedgersKept(accounts: seq<Account>, ps: seq<Posting>, names: seq<string>)
    requires forall n :: n in names ==> KnownName(accounts, n)
    ensures NonEmptyLedgers(accounts, ps, names) == Kept(LedgersOf(accounts, ps, names), HasRows)
  {
    if names != [] {
      var init := names[..|names| - 1];
      var all := LedgersOf(accounts, ps, names);
      assert forall i :: 0 <= i < |init| ==> init[i] == names[i];
      NonEmptyLedgersKept(accounts, ps, init);
      assert all[..|all| - 1] == LedgersOf(accounts, ps, init);
    }
  }

  /** The nonempty ledgers are exactly the ledgers of `names` filtered by
      "has a row": in the order of `names`, and every name whose ledger has
      a row contributes its ledger. */
  lemma NonEmptyLedgersFiltered(accounts: seq<Account>, ps: seq<Posting>, names: seq<string>)
    requires forall n :: n in names ==> KnownName(accounts, n)
    ensures NonEmptyLedgers(accounts, ps, names) == Filter(LedgersOf(accounts, ps, names), HasRows)
    ensures forall i :: 0 <= i < |names| && |LedgerOf(accounts, ps, names[i]).entries| > 0
                 ==> LedgerOf(accounts, ps, names[i]) in NonEmptyLedgers(accounts, ps, names)
  {
    var all := LedgersOf(accounts, ps, names);
    var r := NonEmptyLedgers(accounts, ps, names);
    NonEmptyLedgersKept(accounts, ps, names);
    FilterIsKept(all, HasRows);
    forall i | 0 <= i < |names| && |LedgerOf(accounts, ps, names[i]).entries| > 0
      ensures LedgerOf(accounts, ps, names[i]) in r
    {
      assert all[i] in all && HasRows(all[i]);
    }
  }

  lemma ChartNamesKnown(accounts: seq<Account>)
    ensures forall n :: n in Dedup(AccountNames(accounts)) ==> KnownName(accounts, n)
  {
    DedupElements(AccountNames(accounts));
    forall n | n in Dedup(AccountNames(accounts)) ensures KnownName(accounts, n) {
      var i :| 0 <= i < |accounts| && AccountNames(accounts)[i] == n;
    }
  }

  /** What `processLedgerData` returns: the nonempty ledgers, one per distinct
      account name, in the chart's first-appearance order of names. */
  function Ledgers(accounts: seq<Account>, entries: seq<JournalEntry>): seq<AccountLedger>
  {
    ChartNamesKnown(accounts);
    NonEmptyLedgers(accounts, Postings(entries), Dedup(AccountNames(accounts)))
  }

  // ----------------------------------------------------------------------
  // The imperative fold

  /** The Map after the initialisation loop over `accounts[..k]`. */
  ghost predicate InitState(accs: seq<Account>, order: seq<string>, ledgers: map<string, AccountLedger>)
  {
    && order == Dedup(AccountNames(accs))
    && (forall n :: n in ledgers <==> n in order)
    && (forall n :: n in ledgers ==> KnownName(accs, n) && ledgers[n] == AccountLedger(LastNamed(accs, n), [], 0.0))
  }

  /** The Map's keys are the chart's distinct names, each holding the last
      account with that name. */
  ghost predicate Keyed(accounts: seq<Account>, order: seq<string>, ledgers: map<string, AccountLedger>)
  {
    && order == Dedup(AccountNames(accounts))
    && (forall n :: n in ledgers <==> n in order)
    && (forall n :: n in ledgers ==> KnownName(accounts, n) && ledgers[n].account == LastNamed(accounts, n))
  }

  /** Every ledger of the Map holds the rows and balance of replaying `ps`. */
  ghost predicate Replayed(ps: seq<Posting>, ledgers: map<string, AccountLedger>)
  {
    forall n :: n in ledgers ==>
      && ledgers[n].entries == RowsOf(ps, n, ledgers[n].account.accountType)
      && ledgers[n].balance == BalanceOf(ps, n, ledgers[n].account.accountType)
  }

  /** The Map after replaying the postings `ps`. */
  ghost predicate ReplayState(accounts: seq<Account>, ps: seq<Posting>, order: seq<string>, ledgers: map<string, AccountLedger>)
  {
    Keyed(accounts, order, ledgers) && Replayed(ps, ledgers)
  }

  /** Two Maps with the same keys holding the same accounts. */
  ghost predicate SameAccounts(ledgers0: map<string, AccountLedger>, ledgers: map<string, AccountLedger>)
  {
    && (forall n :: n in ledgers <==> n in ledgers0)
    && (forall n :: n in ledgers ==> ledgers[n].account == ledgers0[n].account)
  }

  lemma KeyedKept(accounts: seq<Account>, order: seq<string>, ledgers0: map<string, AccountLedger>,
                  ledgers: map<string, AccountLedger>)
    requires Keyed(accounts, order, ledgers0) && SameAccounts(ledgers0, ledgers)
    ensures Keyed(accounts, order, ledgers)
  {
  }

  lemma InitReplayed(accounts: seq<Account>, order: seq<string>, ledgers: map<string, AccountLedger>)
    requires InitState(accounts, order, ledgers)
    ensures ReplayState(accounts, [], order, ledgers)
  {
  }

  lemma AccountNamesSnoc(accs: seq<Account>, a: Account)
    ensures AccountNames(accs + [a]) == AccountNames(accs) + [a.name]
  {
    assert AccountNames(accs + [a])[..|accs|] == AccountNames(accs);
  }

  /** One more account keeps the key order the first-appearance order of the
      chart's names. */
  lemma InitKeysStep(accs: seq<Account>, a: Account, order0: seq<string>, ledgers0: map<string, AccountLedger>,
                     order: seq<string>, ledgers: map<string, AccountLedger>)
    requires order0 == Dedup(AccountNames(accs))
    requires forall n :: n in ledgers0 <==> n in order0
    requires order == if a.name in ledgers0 then order0 else order0 + [a.name]
    requires forall n :: n in ledgers <==> n in ledgers0 || n == a.name
    ensures order == Dedup(AccountNames(accs + [a]))
    ensures forall n :: n in ledgers <==> n in order
  {
    AccountNamesSnoc(accs, a);
    DedupSnoc(AccountNames(accs), a.name);
  }

  /** The last account with a name, after one more account: that account
      when it has the name, the earlier last one otherwise. */
  lemma LastNamedSnoc(accs: seq<Account>, a: Account, n: string)
    requires n == a.name || KnownName(accs, n)
    ensures KnownName(accs + [a], n)
    ensures LastNamed(accs + [a], n) == if n == a.name then a else LastNamed(accs, n)
  {
    var after := accs + [a];
    assert after[..|after| - 1] == accs;
    if n == a.name {
      assert after[|accs|] == a;
    } else {
      var i :| 0 <= i < |accs| && accs[i].name == n;
      assert after[i] == accs[i];
    }
  }

  lemma InitValuesStep(accs: seq<Account>, a: Account, ledgers0: map<string, AccountLedger>,
                       ledgers: map<string, AccountLedger>)
    requires forall n :: n in ledgers0 ==> KnownName(accs, n) && ledgers0[n] == AccountLedger(LastNamed(accs, n), [], 0.0)
    requires ledgers == ledgers0[a.name := AccountLedger(a, [], 0.0)]
    ensures forall n :: n in ledgers ==>
      KnownName(accs + [a], n) && ledgers[n] == AccountLedger(LastNamed(accs + [a], n), [], 0.0)
  {
    forall n | n in ledgers
      ensures KnownName(accs + [a], n) && ledgers[n] == AccountLedger(LastNamed(accs + [a], n), [], 0.0)
    {
      LastNamedSnoc(accs, a, n);
    }
  }

  lemma InitStep(accs: seq<Account>, a: Account, order0: seq<string>, ledgers0: map<string, AccountLedger>,
                 order: seq<string>, ledgers: map<string, AccountLedger>)
    requires InitState(accs, order0, ledgers0)
    requires order == if a.name in ledgers0 then order0 else order0 + [a.name]
    requires ledgers == ledgers0[a.name := AccountLedger(a, [], 0.0)]
    ensures InitState(accs + [a], order, ledgers)
  {
    InitKeysStep(accs, a, order0, ledgers0, order, ledgers);
    InitValuesStep(accs, a, ledgers0, ledgers);
  }

  lemma RowsOfUntouched(ps: seq<Posting>, p: Posting, name: string, t: string)
    requires p.line.accountName != name
    ensures RowsOf(ps + [p], name, t) == RowsOf(ps, name, t)
    ensures BalanceOf(ps + [p], name, t) == BalanceOf(ps, name, t)
  {
    assert (ps + [p])[..|ps|] == ps;
  }

  lemma RowsOfPosted(ps: seq<Posting>, p: Posting, t: string)
    ensures BalanceOf(ps + [p], p.line.accountName, t)
         == BalanceOf(ps, p.line.accountName, t) + SignedChange(t, p.line.debit, p.line.credit)
    ensures RowsOf(ps + [p], p.line.accountName, t)
         == RowsOf(ps, p.line.accountName, t)
            + [LedgerRow(p.entry.date, RowDescription(p), p.entry.reference, p.line.debit, p.line.credit,
                         BalanceOf(ps + [p], p.line.accountName, t))]
  {
    assert (ps + [p])[..|ps|] == ps;
  }

  /** A ledger after one posting to its account. */
  function Posted(ledger: AccountLedger, p: Posting): AccountLedger
  {
    var balance := ledger.balance + SignedChange(ledger.account.accountType, p.line.debit, p.line.credit);
    ledger.(balance := balance,
            entries := ledger.entries + [LedgerRow(p.entry.date, RowDescription(p), p.entry.reference,
                                                   p.line.debit, p.line.credit, balance)])
  }

  lemma ReplayStep(ps: seq<Posting>, p: Posting, ledgers0: map<string, AccountLedger>, ledgers: map<string, AccountLedger>)
    requires Replayed(ps, ledgers0)
    requires ledgers == if p.line.accountName in ledgers0
                        then ledgers0[p.line.accountName := Posted(ledgers0[p.line.accountName], p)]
                        else ledgers0
    ensures Replayed(ps + [p], ledgers) && SameAccounts(ledgers0, ledgers)
  {
    var a := p.line.accountName;
    if a in ledgers0 {
      RowsOfPosted(ps, p, ledgers0[a].account.accountType);
    }
    forall n | n in ledgers
      ensures ledgers[n].entries == RowsOf(ps + [p], n, ledgers[n].account.accountType)
      ensures ledgers[n].balance == BalanceOf(ps + [p], n, ledgers[n].account.accountType)
    {
      if n != a {
        assert ledgers[n] == ledgers0[n];
        RowsOfUntouched(ps, p, n, ledgers0[n].account.accountType);
      }
    }
  }

  /** The body of the inner `forEach`: a line naming a ledger's account adds
      its signed change to the ledger's balance and pushes a row with the new
      balance; any other line changes nothing. */
  method PostLine(entry: JournalEntry, line: JournalLine, ledgers0: map<string, AccountLedger>)
    returns (ledgers: map<string, AccountLedger>)
    ensures ledgers == if line.accountName in ledgers0
                       then ledgers0[line.accountName := Posted(ledgers0[line.accountName], Posting(entry, line))]
                       else ledgers0
  {
    ledgers := ledgers0;
    if line.accountName in ledgers {
      var ledger := ledgers[line.accountName];
      var debit := line.debit;
      var credit := line.credit;
      var balanceChange := 0.0;
      if ledger.account.accountType == ASSET || ledger.account.accountType == EXPENSE {
        balanceChange := debit - credit;
      } else {
        balanceChange := credit - debit;
      }
      ledger := ledger.(balance := ledger.balance + balanceChange);
      var description := if line.description != "" then line.description else entry.description;
      ledger := ledger.(entries := ledger.entries
        + [LedgerRow(entry.date, description, entry.reference, debit, credit, ledger.balance)]);
      ledgers := ledgers[line.accountName := ledger];
    }
  }

  lemma PostingsSnoc(entries: seq<JournalEntry>, i: int)
    requires 0 <= i < |entries|
    ensures Postings(entries[..i + 1])
         == Postings(entries[..i]) + seq(|entries[i].lines|, j requires 0 <= j < |entries[i].lines| =>
                                           Posting(entries[i], entries[i].lines[j]))
  {
    assert entries[..i + 1][..i] == entries[..i];
  }

  /** The first `forEach` of `processLedgerData`: an empty ledger per account,
      keyed by name. */
  method InitLedgers(accounts: seq<Account>) returns (order: seq<string>, ledgers: map<string, AccountLedger>)
    ensures InitState(accounts, order, ledgers)
  {
    ledgers := map[];
    order := [];
    ghost var done: seq<Account> := [];
    var k := 0;
    while k < |accounts|
      invariant 0 <= k <= |accounts|
      invariant done == accounts[..k]
      invariant InitState(done, order, ledgers)
    {
      var account := accounts[k];
      ghost var order0, ledgers0 := order, ledgers;
      if account.name !in ledgers {
        order := order + [account.name];
      }
      ledgers := ledgers[account.name := AccountLedger(account, [], 0.0)];
      InitStep(done, account, order0, ledgers0, order, ledgers);
      done := done + [account];
      k := k + 1;
    }
    assert accounts[..k] == accounts;
  }

  /** The nested `forEach` over the journal. */
  method ReplayEntries(accounts: seq<Account>, entries: seq<JournalEntry>, order: seq<string>,
                       ledgers0: map<string, AccountLedger>)
    returns (ledgers: map<string, AccountLedger>)
    requires ReplayState(accounts, [], order, ledgers0)
    ensures ReplayState(accounts, Postings(entries), order, ledgers)
  {
    ledgers := ledgers0;
    var i := 0;
    while i < |entries|
      invariant 0 <= i <= |entries|
      invariant SameAccounts(ledgers0, ledgers)
      invariant Replayed(Postings(entries[..i]), ledgers)
    {
      var entry := entries[i];
      ghost var base := Postings(entries[..i]);
      ghost var batch := seq(|entry.lines|, j requires 0 <= j < |entry.lines| => Posting(entry, entry.lines[j]));
      var j := 0;
      assert base + batch[..j] == base;
      while j < |entry.lines|
        invariant 0 <= j <= |entry.lines|
        invariant SameAccounts(ledgers0, ledgers)
        invariant Replayed(base + batch[..j], ledgers)
      {
        ghost var before := ledgers;
        ledgers := PostLine(entry, entry.lines[j], ledgers);
        ReplayStep(base + batch[..j], Posting(entry, entry.lines[j]), before, ledgers);
        assert base + batch[..j + 1] == base + batch[..j] + [Posting(entry, entry.lines[j])];
        j := j + 1;
      }
      assert batch[..j] == batch;
      PostingsSnoc(entries, i);
      i := i + 1;
    }
    assert entries[..i] == entries;
    KeyedKept(accounts, order, ledgers0, ledgers);
  }

  /** `ledger.entries.sort(...)` for every ledger of the Map, keyed by the
      distinct names `order`: each ledger's rows end up sorted by date. */
  method SortEach(order: seq<string>, ledgers0: map<string, AccountLedger>)
    returns (ledgers: map<string, AccountLedger>)
    requires NoDuplicates(order)
    requires forall n :: n in ledgers0 <==> n in order
    ensures forall n :: n in ledgers <==> n in order
    ensures forall n :: n in ledgers ==> ledgers[n] == ledgers0[n].(entries := SortBy(ledgers0[n].entries, ByDate))
  {
    ledgers := ledgers0;
    var k := 0;
    while k < |order|
      invariant 0 <= k <= |order|
      invariant forall n :: n in ledgers <==> n in ledgers0
      invariant forall n :: n in ledgers ==>
        ledgers[n] == if n in order[..k] then ledgers0[n].(entries := SortBy(ledgers0[n].entries, ByDate))
                      else ledgers0[n]
    {
      assert order[..k + 1] == order[..k] + [order[k]];
      assert order[k] !in order[..k];
      var ledger := ledgers[order[k]];
      ledgers := ledgers[order[k] := ledger.(entries := SortBy(ledger.entries, ByDate))];
      k := k + 1;
    }
    assert order[..k] == order;
  }

  /** The replayed Map with every ledger's rows sorted holds each name's
      ledger. */
  method SortLedgers(ghost accounts: seq<Account>, ghost ps: seq<Posting>, order: seq<string>,
                     ledgers0: map<string, AccountLedger>)
    returns (ledgers: map<string, AccountLedger>)
    requires ReplayState(accounts, ps, order, ledgers0)
    ensures forall n :: n in ledgers <==> n in order
    ensures forall n :: n in ledgers ==> KnownName(accounts, n) && ledgers[n] == LedgerOf(accounts, ps, n)
  {
    DedupElements(AccountNames(accounts));
    ledgers := SortEach(order, ledgers0);
  }

  /** `Array.from(ledgerMap.values()).filter((l) => l.entries.length > 0)`:
      the ledgers in key order that have rows. */
  method KeepNonEmpty(ghost accounts: seq<Account>, ghost ps: seq<Posting>, order: seq<string>,
                      ledgers: map<string, AccountLedger>)
    returns (result: seq<AccountLedger>)
    requires forall n :: n in order ==> KnownName(accounts, n) && n in ledgers && ledgers[n] == LedgerOf(accounts, ps, n)
    ensures result == NonEmptyLedgers(accounts, ps, order)
  {
    result := [];
    var k := 0;
    while k < |order|
      invariant 0 <= k <= |order|
      invariant result == NonEmptyLedgers(accounts, ps, order[..k])
    {
      assert order[..k + 1][..k] == order[..k];
      var ledger := ledgers[order[k]];
      if |ledger.entries| > 0 {
        result := result + [ledger];
      }
      k := k + 1;
    }
    assert order[..k] == order;
  }

  /** `processLedgerData`. */
  method ProcessLedgerData(accounts: seq<Account>, entries: seq<JournalEntry>) returns (result: seq<AccountLedger>)
    ensures result == Ledgers(accounts, entries)
  {
    var order, ledgers := InitLedgers(accounts);
    InitReplayed(accounts, order, ledgers);
    ledgers := ReplayEntries(accounts, entries, order, ledgers);
    ledgers := SortLedgers(accounts, Postings(entries), order, ledgers);
    ChartNamesKnown(accounts);
    result := KeepNonEmpty(accounts, Postings(entries), order, ledgers);
  }

  // ----------------------------------------------------------------------
  // Properties

  /** Before sorting, the rows carry a running balance in replay order: the
      first row's balance is its own signed change, and each later row's is
      the previous row's plus its own. */
  lemma {:induction false} RunningBalance(ps: seq<Posting>, name: string, t: string)
    ensures forall k :: 0 < k < |RowsOf(ps, name, t)| ==>
      RowsOf(ps, name, t)[k].balance
        == RowsOf(ps, name, t)[k - 1].balance
           + SignedChange(t, RowsOf(ps, name, t)[k].debit, RowsOf(ps, name, t)[k].credit)
    ensures |RowsOf(ps, name, t)| > 0 ==>
      RowsOf(ps, name, t)[0].balance == SignedChange(t, RowsOf(ps, name, t)[0].debit, RowsOf(ps, name, t)[0].credit)
    ensures |RowsOf(ps, name, t)| > 0 ==>
      RowsOf(ps, name, t)[|RowsOf(ps, name, t)| - 1].balance == BalanceOf(ps, name, t)
    ensures |RowsOf(ps, name, t)| == 0 ==> BalanceOf(ps, name, t) == 0.0
  {
    if ps != [] {
      var init := ps[..|ps| - 1];
      RunningBalance(init, name, t);
    }
  }

  /** Each ledger has one row per line naming its account, its rows are a
      date-sorted permutation of the replayed rows, and rows with equal
      dates keep their replay order. */
  lemma LedgerRows(accounts: seq<Account>, ps: seq<Posting>, name: string, row: LedgerRow)
    requires KnownName(accounts, name)
    ensures var l := LedgerOf(accounts, ps, name);
      && |l.entries| == |RowsOf(ps, name, l.account.accountType)| == CountNamed(ps, name)
      && multiset(l.entries) == multiset(RowsOf(ps, name, l.account.accountType))
      && SortedBy(l.entries, ByDate)
      && Ties(l.entries, row, ByDate) == Ties(RowsOf(ps, name, l.account.accountType), row, ByDate)
  {
    var l := LedgerOf(accounts, ps, name);
    var rows := RowsOf(ps, name, l.account.accountType);
    ByDateIsTotalPreorder();
    SortByPermutation(rows, ByDate);
    SortBySorted(rows, ByDate);
    SortByStable(rows, row, ByDate);
    RowsOfCount(ps, name, l.account.accountType);
  }

  /** The number of postings to `name`. */
  function CountNamed(ps: seq<Posting>, name: string): nat
  {
    if ps == [] then 0
    else CountNamed(ps[..|ps| - 1], name) + (if ps[|ps| - 1].line.accountName == name then 1 else 0)
  }

  lemma {:induction false} RowsOfCount(ps: seq<Posting>, name: string, t: string)
    ensures |RowsOf(ps, name, t)| == CountNamed(ps, name)
  {
    if ps != [] {
      RowsOfCount(ps[..|ps| - 1], name, t);
    }
  }

  /** Replaying the postings of the entries adds up, per account name, the
      same signed sums as the report folds. */
  lemma {:induction false} BalanceOfPostings(entries: seq<JournalEntry>, name: string, t: string)
    ensures BalanceOf(Postings(entries), name, t)
         == SignedChange(t, AmountOf(AllLines(entries), name, Debit), AmountOf(AllLines(entries), name, Credit))
  {
    if entries != [] {
      var init := entries[..|entries| - 1];
      var e := entries[|entries| - 1];
      BalanceOfPostings(init, name, t);
      var batch := seq(|e.lines|, k requires 0 <= k < |e.lines| => Posting(e, e.lines[k]));
      BalanceOfBatch(Postings(init), AllLines(init), e, batch, name, t);
      assert e.lines[..|e.lines|] == e.lines;
    }
  }

  lemma {:induction false} BalanceOfBatch(ps: seq<Posting>, lines: seq<JournalLine>, e: JournalEntry,
                                          batch: seq<Posting>, name: string, t: string)
    requires |batch| <= |e.lines|
    requires forall k :: 0 <= k < |batch| ==> batch[k] == Posting(e, e.lines[k])
    requires BalanceOf(ps, name, t) == SignedChange(t, AmountOf(lines, name, Debit), AmountOf(lines, name, Credit))
    ensures BalanceOf(ps + batch, name, t)
         == SignedChange(t, AmountOf(lines + e.lines[..|batch|], name, Debit),
                            AmountOf(lines + e.lines[..|batch|], name, Credit))
  {
    var j := |batch|;
    if j == 0 {
      assert ps + batch == ps;
      assert lines + e.lines[..j] == lines;
    } else {
      BalanceOfBatch(ps, lines, e, batch[..j - 1], name, t);
      assert (ps + batch)[..|ps + batch| - 1] == ps + batch[..j - 1];
      assert (lines + e.lines[..j])[..|lines + e.lines[..j]| - 1] == lines + e.lines[..j - 1];
    }
  }

  /** With uniquely named accounts, an account's ledger balance is the
      balance the balance sheet fold gives it. */
  lemma LedgerBalanceMatchesReports(accounts: seq<Account>, entries: seq<JournalEntry>, i: int)
    requires UniqueNames(accounts) && 0 <= i < |accounts|
    ensures KnownName(accounts, accounts[i].name)
    ensures LedgerOf(accounts, Postings(entries), accounts[i].name).balance
         == SignedChange(accounts[i].accountType,
                         AmountOf(AllLines(entries), accounts[i].name, Debit),
                         AmountOf(AllLines(entries), accounts[i].name, Credit))
  {
    var a := LastNamed(accounts, accounts[i].name);
    assert a == accounts[i];
    BalanceOfPostings(entries, accounts[i].name, accounts[i].accountType);
  }

  /** Lines naming no account of the chart add a posting but change no
      ledger. */
  lemma UnknownPostingIgnored(accounts: seq<Account>, ps: seq<Posting>, p: Posting, name: string)
    requires KnownName(accounts, name) && !KnownName(accounts, p.line.accountName)
    ensures LedgerOf(accounts, ps + [p], name) == LedgerOf(accounts, ps, name)
  {
    RowsOfUntouched(ps, p, name, LastNamed(accounts, name).accountType);
  }

  function CashAccount(): Account
  {
    Account("a1", "c1", "1000", "Cash", ASSET, None, None, true)
  }

  /** Two entries as the store returns them, newest first: a sale on day 2
      and a loan on day 1, each debiting Cash. */
  function NewestFirst(): seq<JournalEntry>
  {
    [JournalEntry("e2", "c1", 2, "Sale", "R2", [JournalLine("Cash", "", 100.0, 0.0)]),
     JournalEntry("e1", "c1", 1, "Loan", "R1", [JournalLine("Cash", "", 50.0, 0.0)])]
  }

  /** The postings of the two entries: one each, in fetch order. */
  lemma NewestFirstPostings()
    ensures var entries := NewestFirst();
      Postings(entries) == [Posting(entries[0], entries[0].lines[0]), Posting(entries[1], entries[1].lines[0])]
  {
    var entries := NewestFirst();
    assert entries[..1] == [entries[0]] && [entries[0]][..0] == [];
    assert entries[..|entries| - 1] == entries[..1];
    assert Postings([entries[0]]) == [Posting(entries[0], entries[0].lines[0])];
  }

  lemma NewestFirstRows()
    ensures RowsOf(Postings(NewestFirst()), "Cash", ASSET)
         == [LedgerRow(2, "Sale", "R2", 100.0, 0.0, 100.0), LedgerRow(1, "Loan", "R1", 50.0, 0.0, 150.0)]
  {
    var entries := NewestFirst();
    var p1 := Posting(entries[0], entries[0].lines[0]);
    var p2 := Posting(entries[1], entries[1].lines[0]);
    NewestFirstPostings();
    var ps := [p1, p2];
    assert ps[..1] == [p1] && [p1][..0] == [];
    assert BalanceOf([p1], "Cash", ASSET) == 100.0;
    assert RowsOf([p1], "Cash", ASSET) == [LedgerRow(2, "Sale", "R2", 100.0, 0.0, 100.0)];
    assert BalanceOf(ps, "Cash", ASSET) == 150.0;
  }

  /** Entries fetched newest first: the displayed first row of Cash is the
      older posting, yet it shows the balance after both. */
  lemma RunningBalanceIsNotDisplayOrder()
    ensures KnownName([CashAccount()], "Cash")
    ensures var l := LedgerOf([CashAccount()], Postings(NewestFirst()), "Cash");
      && |l.entries| == 2
      && l.entries[0].date == 1 && l.entries[0].debit == 50.0 && l.entries[0].balance == 150.0
      && l.entries[1].date == 2 && l.entries[1].balance == 100.0
  {
    assert [CashAccount()][0].name == "Cash";
    assert LastNamed([CashAccount()], "Cash") == CashAccount();
    NewestFirstRows();
    var r1 := LedgerRow(2, "Sale", "R2", 100.0, 0.0, 100.0);
    var r2 := LedgerRow(1, "Loan", "R1", 50.0, 0.0, 150.0);
    assert [r1, r2][1..] == [r2] && [r2][1..] == [];
    assert SortBy([r2], ByDate) == [r2];
    assert !ByDate(r1, r2);
    assert Insert(r1, [r2], ByDate) == [r2] + Insert(r1, [], ByDate);
    assert SortBy([r1, r2], ByDate) == [r2, r1];
  }

  // ----------------------------------------------------------------------
  // Grouping

  /** The test `(l) => l.account.type === t`. */
  function HasType(t: string): AccountLedger -> bool
  {
    (l: AccountLedger) => l.account.accountType == t
  }

  /** `ledgers.filter((l) => l.account.type === t)`: every ledger of the
      type, as often as it occurs and in its order, and no other. */
  function OfType(ledgers: seq<AccountLedger>, t: string): (r: seq<AccountLedger>)
    ensures forall l :: l in r <==> l in ledgers && l.account.accountType == t
  {
    if ledgers == [] then []
    else
      OfType(ledgers[..|ledgers| - 1], t)
      + (if ledgers[|ledgers| - 1].account.accountType == t then [ledgers[|ledgers| - 1]] else [])
  }

  lemma {:induction false} OfTypeIsFilter(ledgers: seq<AccountLedger>, t: string)
    ensures OfType(ledgers, t) == Filter(ledgers, HasType(t))
  {
    if ledgers != [] {
      OfTypeIsFilter(ledgers[..|ledgers| - 1], t);
      FilterIsKept(ledgers[..|ledgers| - 1], HasType(t));
    }
    FilterIsKept(ledgers, HasType(t));
  }

  /** Grouping by type keeps every occurrence of a ledger of the type. */
  lemma OfTypeKeepsEach(ledgers: seq<AccountLedger>, t: string)
    ensures |OfType(ledgers, t)| == CountIf(ledgers, HasType(t))
    ensures forall l :: multiset(OfType(ledgers, t))[l]
                     == if l.account.accountType == t then multiset(ledgers)[l] else 0
  {
    OfTypeIsFilter(ledgers, t);
    FilterMultiset(ledgers, HasType(t));
  }

  datatype GroupedLedgers = GroupedLedgers(
    assets: seq<AccountLedger>, liabilities: seq<AccountLedger>, equity: seq<AccountLedger>,
    revenue: seq<AccountLedger>, expenses: seq<AccountLedger>)

  function Grouped(ledgers: seq<AccountLedger>): GroupedLedgers
  {
    GroupedLedgers(OfType(ledgers, ASSET), OfType(ledgers, LIABILITY), OfType(ledgers, EQUITY),
                   OfType(ledgers, REVENUE), OfType(ledgers, EXPENSE))
  }

  function Groups(g: GroupedLedgers): seq<seq<AccountLedger>>
  {
    [g.assets, g.liabilities, g.equity, g.revenue, g.expenses]
  }

  /** A ledger of one of the five types is in exactly the group of its type
      (the groups follow the order of `AccountTypes`); a ledger of any other
      type string is in none. */
  lemma GroupedExactlyOnce(ledgers: seq<AccountLedger>, l: AccountLedger)
    requires l in ledgers
    ensures forall g :: 0 <= g < 5 ==> (l in Groups(Grouped(ledgers))[g] <==> l.account.accountType == AccountTypes[g])
    ensures !IsAccountType(l.account.accountType) ==> forall g :: 0 <= g < 5 ==> l !in Groups(Grouped(ledgers))[g]
  {
    var groups := Groups(Grouped(ledgers));
    forall g | 0 <= g < 5
      ensures l in groups[g] <==> l.account.accountType == AccountTypes[g]
    {
      assert groups[g] == OfType(ledgers, AccountTypes[g]);
    }
  }
}
