/** What the three report folds promise together: lines that name no account
    are skipped by the profit and loss statement and the balance sheet, and,
    for a consistent chart of accounts and balanced entries, the balance
    sheet's assets exceed its liabilities plus equity by exactly the net
    income of the profit and loss statement (the balance sheet never folds
    net income into equity). */
module ReportProperties {
  import opened Ledger
  import opened JournalUtils

  lemma ItemsTotalSnoc(items: seq<Item>, extra: seq<Item>)
    requires |extra| <= 1
    ensures ItemsTotal(items + extra) == ItemsTotal(items) + (if extra == [] then 0.0 else extra[0].amount)
  {
    if extra == [] {
      assert items + extra == items;
    } else {
      assert (items + extra)[..|items|] == items;
    }
  }

  // ----------------------------------------------------------------------
  // Lines naming no account

  /** The sections depend on the lines only through the balances of the
      scanned accounts' names. */
  lemma {:induction false} SectionItemsFollowBalances(l1: seq<JournalLine>, l2: seq<JournalLine>,
                                                     all: seq<Account>, accs: seq<Account>, s: Section)
    requires forall i :: 0 <= i < |accs| ==> BSBalanceOf(l1, all, accs[i].name) == BSBalanceOf(l2, all, accs[i].name)
    ensures SectionItems(l1, all, accs, s) == SectionItems(l2, all, accs, s)
  {
    if accs != [] {
      SectionItemsFollowBalances(l1, l2, all, accs[..|accs| - 1], s);
    }
  }

  lemma {:induction false} PLItemsFollowBalances(l1: seq<JournalLine>, l2: seq<JournalLine>,
                                                all: seq<Account>, accs: seq<Account>, t: string)
    requires forall i :: 0 <= i < |accs| ==> PLBalanceOf(l1, all, accs[i].name) == PLBalanceOf(l2, all, accs[i].name)
    ensures PLItems(l1, all, accs, t) == PLItems(l2, all, accs, t)
  {
    if accs != [] {
      PLItemsFollowBalances(l1, l2, all, accs[..|accs| - 1], t);
    }
  }

  /** A line whose account name matches no account changes neither the
      profit and loss statement nor the balance sheet. */
  lemma UnknownLineIgnored(lines: seq<JournalLine>, line: JournalLine, accounts: seq<Account>)
    requires !KnownName(accounts, line.accountName)
    ensures ProfitLossOf(lines + [line], accounts) == ProfitLossOf(lines, accounts)
    ensures BalanceSheetOf(lines + [line], accounts) == BalanceSheetOf(lines, accounts)
  {
    forall n ensures PLBalanceOf(lines + [line], accounts, n) == PLBalanceOf(lines, accounts, n) {
      PLBalanceSnoc(lines, line, accounts, n);
    }
    forall n ensures BSBalanceOf(lines + [line], accounts, n) == BSBalanceOf(lines, accounts, n) {
      BSBalanceSnoc(lines, line, accounts, n);
    }
    PLItemsFollowBalances(lines + [line], lines, accounts, accounts, REVENUE);
    PLItemsFollowBalances(lines + [line], lines, accounts, accounts, EXPENSE);
    SectionItemsFollowBalances(lines + [line], lines, accounts, accounts, CurrentAsset);
    SectionItemsFollowBalances(lines + [line], lines, accounts, accounts, NonCurrentAsset);
    SectionItemsFollowBalances(lines + [line], lines, accounts, accounts, CurrentLiability);
    SectionItemsFollowBalances(lines + [line], lines, accounts, accounts, LongTermLiability);
    SectionItemsFollowBalances(lines + [line], lines, accounts, accounts, EquitySection);
  }

  // ----------------------------------------------------------------------
  // Section totals as per-type sums

  /** Σ of the balance-sheet balances of the accounts of type `t` in `accs`. */
  function TypeTotal(lines: seq<JournalLine>, all: seq<Account>, accs: seq<Account>, t: string): real
  {
    if accs == [] then 0.0
    else
      var a := accs[|accs| - 1];
      TypeTotal(lines, all, accs[..|accs| - 1], t)
      + (if a.accountType == t then BSBalanceOf(lines, all, a.name) else 0.0)
  }

  /** Σ of the profit-and-loss balances of the accounts of type `t` in `accs`. */
  function PLTypeTotal(lines: seq<JournalLine>, all: seq<Account>, accs: seq<Account>, t: string): real
  {
    if accs == [] then 0.0
    else
      var a := accs[|accs| - 1];
      PLTypeTotal(lines, all, accs[..|accs| - 1], t)
      + (if a.accountType == t then PLBalanceOf(lines, all, a.name) else 0.0)
  }

  /** One more scanned account adds its balance to the one section the
      classifier gives it, unless that balance is zero. */
  lemma SectionItemsStep(lines: seq<JournalLine>, all: seq<Account>, accs: seq<Account>, s: Section)
    requires accs != []
    ensures ItemsTotal(SectionItems(lines, all, accs, s))
         == ItemsTotal(SectionItems(lines, all, accs[..|accs| - 1], s))
            + (if Classify(accs[|accs| - 1].accountType, accs[|accs| - 1].name) == s
               then BSBalanceOf(lines, all, accs[|accs| - 1].name) else 0.0)
  {
    var a := accs[|accs| - 1];
    var bal := BSBalanceOf(lines, all, a.name);
    ItemsTotalSnoc(SectionItems(lines, all, accs[..|accs| - 1], s),
                   if bal != 0.0 && Classify(a.accountType, a.name) == s then [Item(a.name, bal)] else []);
  }

  /** Dropping zero balances loses nothing: the two asset sections together
      total every ASSET account's balance, the two liability sections every
      LIABILITY account's, and the equity section every EQUITY account's. */
  lemma {:induction false} SectionTotals(lines: seq<JournalLine>, all: seq<Account>, accs: seq<Account>)
    ensures ItemsTotal(SectionItems(lines, all, accs, CurrentAsset))
          + ItemsTotal(SectionItems(lines, all, accs, NonCurrentAsset)) == TypeTotal(lines, all, accs, ASSET)
    ensures ItemsTotal(SectionItems(lines, all, accs, CurrentLiability))
          + ItemsTotal(SectionItems(lines, all, accs, LongTermLiability)) == TypeTotal(lines, all, accs, LIABILITY)
    ensures ItemsTotal(SectionItems(lines, all, accs, EquitySection)) == TypeTotal(lines, all, accs, EQUITY)
  {
    if accs != [] {
      var init := accs[..|accs| - 1];
      SectionTotals(lines, all, init);
      SectionItemsStep(lines, all, accs, CurrentAsset);
      SectionItemsStep(lines, all, accs, NonCurrentAsset);
      SectionItemsStep(lines, all, accs, CurrentLiability);
      SectionItemsStep(lines, all, accs, LongTermLiability);
      SectionItemsStep(lines, all, accs, EquitySection);
    }
  }

  lemma PLItemsStep(lines: seq<JournalLine>, all: seq<Account>, accs: seq<Account>, t: string)
    requires accs != []
    ensures ItemsTotal(PLItems(lines, all, accs, t))
         == ItemsTotal(PLItems(lines, all, accs[..|accs| - 1], t))
            + (if accs[|accs| - 1].accountType == t then PLBalanceOf(lines, all, accs[|accs| - 1].name) else 0.0)
  {
    var a := accs[|accs| - 1];
    var bal := PLBalanceOf(lines, all, a.name);
    ItemsTotalSnoc(PLItems(lines, all, accs[..|accs| - 1], t),
                   if bal != 0.0 && a.accountType == t then [Item(a.name, bal)] else []);
  }

  /** Likewise, a P&L list totals every account of its type. */
  lemma {:induction false} PLTotals(lines: seq<JournalLine>, all: seq<Account>, accs: seq<Account>, t: string)
    ensures ItemsTotal(PLItems(lines, all, accs, t)) == PLTypeTotal(lines, all, accs, t)
  {
    if accs != [] {
      PLTotals(lines, all, accs[..|accs| - 1], t);
      PLItemsStep(lines, all, accs, t);
    }
  }

  // ----------------------------------------------------------------------
  // Debits minus credits, account by account

  /** Σ over `accs` of debits minus credits posted to each account's name. */
  function SumNetDebit(lines: seq<JournalLine>, accs: seq<Account>): real
  {
    if accs == [] then 0.0
    else SumNetDebit(lines, accs[..|accs| - 1]) + NetDebitOf(lines, accs[|accs| - 1].name)
  }

  /** Signed by the normal-balance rule and split into balance-sheet and
      profit-and-loss types, the per-account balances still add up to debits
      minus credits, provided each account is the one its name finds and
      carries one of the five types. */
  lemma {:induction false} SignedBalancesSum(lines: seq<JournalLine>, all: seq<Account>, accs: seq<Account>)
    requires forall i :: 0 <= i < |accs| ==> FindAccount(all, accs[i].name) == Some(accs[i])
    requires forall i :: 0 <= i < |accs| ==> IsAccountType(accs[i].accountType)
    ensures TypeTotal(lines, all, accs, ASSET) - TypeTotal(lines, all, accs, LIABILITY)
            - TypeTotal(lines, all, accs, EQUITY)
            - PLTypeTotal(lines, all, accs, REVENUE) + PLTypeTotal(lines, all, accs, EXPENSE)
         == SumNetDebit(lines, accs)
  {
    if accs != [] {
      var init := accs[..|accs| - 1];
      assert forall i :: 0 <= i < |init| ==> init[i] == accs[i];
      SignedBalancesSum(lines, all, init);
      assert FindAccount(all, accs[|accs| - 1].name) == Some(accs[|accs| - 1]);
    }
  }

  lemma {:induction false} SumNetDebitOfNothing(accs: seq<Account>)
    ensures SumNetDebit([], accs) == 0.0
  {
    if accs != [] {
      SumNetDebitOfNothing(accs[..|accs| - 1]);
    }
  }

  /** One more line adds its debit minus credit once if its account name is
      known (names being unique) and not at all otherwise. */
  lemma {:induction false} SumNetDebitSnoc(lines: seq<JournalLine>, line: JournalLine, accs: seq<Account>)
    requires UniqueNames(accs)
    ensures SumNetDebit(lines + [line], accs)
         == SumNetDebit(lines, accs) + (if KnownName(accs, line.accountName) then line.debit - line.credit else 0.0)
  {
    if accs != [] {
      var init := accs[..|accs| - 1];
      var a := accs[|accs| - 1];
      assert forall i :: 0 <= i < |init| ==> init[i] == accs[i];
      SumNetDebitSnoc(lines, line, init);
      AmountOfSnoc(lines, line, a.name, Debit);
      AmountOfSnoc(lines, line, a.name, Credit);
      if KnownName(accs, line.accountName) {
        var i :| 0 <= i < |accs| && accs[i].name == line.accountName;
        if i < |init| {
          assert KnownName(init, line.accountName) && a.name != line.accountName;
        } else {
          assert !KnownName(init, line.accountName);
        }
      } else {
        assert !KnownName(init, line.accountName);
      }
    }
  }

  /** Exchange of sums: when every line names one of the (uniquely named)
      accounts, summing debits minus credits account by account gives total
      debits minus total credits. */
  lemma {:induction false} SumNetDebitKnown(lines: seq<JournalLine>, accs: seq<Account>)
    requires UniqueNames(accs)
    requires forall i :: 0 <= i < |lines| ==> KnownName(accs, lines[i].accountName)
    ensures SumNetDebit(lines, accs) == Total(lines, Debit) - Total(lines, Credit)
  {
    if lines == [] {
      SumNetDebitOfNothing(accs);
    } else {
      var init := lines[..|lines| - 1];
      var line := lines[|lines| - 1];
      assert lines == init + [line];
      SumNetDebitKnown(init, accs);
      SumNetDebitSnoc(init, line, accs);
    }
  }

  /** Total assets of a balance sheet. */
  function TotalAssets(bs: BalanceSheetData): real
  {
    ItemsTotal(bs.assets.current) + ItemsTotal(bs.assets.nonCurrent)
  }

  /** Total liabilities of a balance sheet. */
  function TotalLiabilities(bs: BalanceSheetData): real
  {
    ItemsTotal(bs.liabilities.current) + ItemsTotal(bs.liabilities.longTerm)
  }

  /** Total equity of a balance sheet. */
  function TotalEquity(bs: BalanceSheetData): real
  {
    ItemsTotal(bs.equity)
  }

  /** The accounting equation as these reports state it: for balanced
      entries whose lines all name one of the uniquely named, validly typed
      accounts, assets minus liabilities minus equity on the balance sheet is
      exactly the profit and loss statement's net income. */
  lemma AccountingEquation(entries: seq<JournalEntry>, accounts: seq<Account>)
    requires forall k :: 0 <= k < |entries| ==> Balanced(entries[k])
    requires UniqueNames(accounts)
    requires forall i :: 0 <= i < |accounts| ==> IsAccountType(accounts[i].accountType)
    requires forall i :: 0 <= i < |AllLines(entries)| ==> KnownName(accounts, AllLines(entries)[i].accountName)
    ensures TotalAssets(BalanceSheetOf(AllLines(entries), accounts))
            - (TotalLiabilities(BalanceSheetOf(AllLines(entries), accounts))
               + TotalEquity(BalanceSheetOf(AllLines(entries), accounts)))
         == ProfitLossOf(AllLines(entries), accounts).netIncome
  {
    var lines := AllLines(entries);
    SectionTotals(lines, accounts, accounts);
    PLTotals(lines, accounts, accounts, REVENUE);
    PLTotals(lines, accounts, accounts, EXPENSE);
    forall i | 0 <= i < |accounts|
      ensures FindAccount(accounts, accounts[i].name) == Some(accounts[i])
    {
      FindUnique(accounts, i);
    }
    SignedBalancesSum(lines, accounts, accounts);
    SumNetDebitKnown(lines, accounts);
    AllLinesBalanced(entries);
  }
}
