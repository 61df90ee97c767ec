/** The balance-sheet page: the section totals it derives from
    `calculateBalanceSheet`, its tolerance check and the difference line it
    shows when the check fails. */
module BalanceSheetPage {
  import opened Ledger
  import opened JournalUtils
  import opened ReportProperties

  /** The data the page holds before anything has been fetched. */
  function EmptySheet(): BalanceSheetData
  {
    BalanceSheetData(Assets([], []), Liabilities([], []), [])
  }

  datatype SheetTotals = SheetTotals(
    currentAssets: real, nonCurrentAssets: real, totalAssets: real,
    currentLiabilities: real, longTermLiabilities: real, totalLiabilities: real,
    totalEquity: real, totalLiabilitiesAndEquity: real, isBalanced: bool)

  function Abs(x: real): (r: real)
    ensures r >= 0.0 && (r == x || r == -x)
  {
    if x < 0.0 then -x else x
  }

  /** The figures the page derives from a balance sheet: one sum per
      section, the two grand totals and the strict `< 0.01` check. */
  function PageTotals(bs: BalanceSheetData): SheetTotals
  {
    var currentAssets := ItemsTotal(bs.assets.current);
    var nonCurrentAssets := ItemsTotal(bs.assets.nonCurrent);
    var currentLiabilities := ItemsTotal(bs.liabilities.current);
    var longTermLiabilities := ItemsTotal(bs.liabilities.longTerm);
    var totalEquity := ItemsTotal(bs.equity);
    var totalAssets := currentAssets + nonCurrentAssets;
    var totalLiabilities := currentLiabilities + longTermLiabilities;
    var totalLiabilitiesAndEquity := totalLiabilities + totalEquity;
    SheetTotals(currentAssets, nonCurrentAssets, totalAssets,
                currentLiabilities, longTermLiabilities, totalLiabilities,
                totalEquity, totalLiabilitiesAndEquity,
                Abs(totalAssets - totalLiabilitiesAndEquity) < 0.01)
  }

  /** The "Difference" line: present exactly when the sheet is unbalanced. */
  function DifferenceShown(t: SheetTotals): (d: Option<real>)
    ensures d.Some? <==> !t.isBalanced
    ensures d.Some? ==> d.value == Abs(t.totalAssets - t.totalLiabilitiesAndEquity)
  {
    if t.isBalanced then None else Some(Abs(t.totalAssets - t.totalLiabilitiesAndEquity))
  }

  /** The page's totals agree with the report-level totals, and its check is
      the two-sided strict tolerance on assets minus liabilities and equity. */
  lemma PageTotalsAgree(bs: BalanceSheetData)
    ensures PageTotals(bs).totalAssets == TotalAssets(bs)
    ensures PageTotals(bs).totalLiabilitiesAndEquity == TotalLiabilities(bs) + TotalEquity(bs)
    ensures PageTotals(bs).isBalanced
        <==> -0.01 < TotalAssets(bs) - (TotalLiabilities(bs) + TotalEquity(bs)) < 0.01
    ensures DifferenceShown(PageTotals(bs)).Some? ==> DifferenceShown(PageTotals(bs)).value >= 0.01
  {
  }

  /** Before any data arrives every total is 0 and the sheet shows as
      balanced, with no difference line. */
  lemma EmptySheetBalanced()
    ensures PageTotals(EmptySheet()) == SheetTotals(0.0, 0.0, 0.0, 0.0, 0.0, 0.0, 0.0, 0.0, true)
    ensures DifferenceShown(PageTotals(EmptySheet())) == None
  {
    var empty: seq<Item> := [];
    assert ItemsTotal(empty) == 0.0;
  }

  /** Whatever the entries, the page's total assets are the sum of the
      signed balances of all ASSET accounts, and its liabilities-and-equity
      total that of all LIABILITY and EQUITY accounts: the classifier and
      the zero filter drop nothing that counts. */
  lemma PageTotalsByType(lines: seq<JournalLine>, accounts: seq<Account>)
    ensures PageTotals(BalanceSheetOf(lines, accounts)).totalAssets
         == TypeTotal(lines, accounts, accounts, ASSET)
    ensures PageTotals(BalanceSheetOf(lines, accounts)).totalLiabilities
         == TypeTotal(lines, accounts, accounts, LIABILITY)
    ensures PageTotals(BalanceSheetOf(lines, accounts)).totalEquity
         == TypeTotal(lines, accounts, accounts, EQUITY)
  {
    SectionTotals(lines, accounts, accounts);
  }

  /** Since net income is never carried into equity, a sheet built from
      well-formed books shows as balanced exactly when the period's net
      income is within a cent of zero; otherwise the difference shown is
      the size of the net income. */
  lemma BalancedIffNoNetIncome(entries: seq<JournalEntry>, accounts: seq<Account>)
    requires forall k :: 0 <= k < |entries| ==> Balanced(entries[k])
    requires UniqueNames(accounts)
    requires forall i :: 0 <= i < |accounts| ==> IsAccountType(accounts[i].accountType)
    requires forall i :: 0 <= i < |AllLines(entries)| ==> KnownName(accounts, AllLines(entries)[i].accountName)
    ensures PageTotals(BalanceSheetOf(AllLines(entries), accounts)).isBalanced
        <==> -0.01 < ProfitLossOf(AllLines(entries), accounts).netIncome < 0.01
    ensures DifferenceShown(PageTotals(BalanceSheetOf(AllLines(entries), accounts))).Some? ==>
      DifferenceShown(PageTotals(BalanceSheetOf(AllLines(entries), accounts))).value
        == Abs(ProfitLossOf(AllLines(entries), accounts).netIncome)
  {
    AccountingEquation(entries, accounts);
  }

  // ----------------------------------------------------------------------
  // The two sample entries the database seed posts

  /** The accounts of the seeded chart that the sample entries name. */
  function SeedAccounts(): seq<Account>
  {
    [Account("acc-cash", "demo", "1000", "Cash", ASSET, None, None, true),
     Account("acc-equity", "demo", "3000", "Owner's Equity", EQUITY, None, None, true),
     Account("acc-supplies", "demo", "6300", "Office Supplies Expense", EXPENSE, None, None, true)]
  }

  /** An initial capital investment of 50000, then 250 of office supplies
      paid in cash; dates are day numbers. */
  function SeedEntries(): seq<JournalEntry>
  {
    [JournalEntry("je-1", "demo", 20240115, "Initial capital investment", "JE001",
       [JournalLine("Cash", "Initial investment", 50000.0, 0.0),
        JournalLine("Owner's Equity", "Initial investment", 0.0, 50000.0)]),
     JournalEntry("je-2", "demo", 20240116, "Purchase of office supplies", "JE002",
       [JournalLine("Office Supplies Expense", "Office supplies purchase", 250.0, 0.0),
        JournalLine("Cash", "Payment for office supplies", 0.0, 250.0)])]
  }

  function SeedLines(): seq<JournalLine>
  {
    SeedEntries()[0].lines + SeedEntries()[1].lines
  }

  lemma SeedLinesInOrder()
    ensures AllLines(SeedEntries()) == SeedLines()
  {
    var es := SeedEntries();
    assert es[..1][..0] == [];
    assert AllLines(es[..1]) == es[0].lines;
    assert es[..|es| - 1] == es[..1];
  }

  lemma SeedEntriesBalanced()
    ensures forall k :: 0 <= k < |SeedEntries()| ==> Balanced(SeedEntries()[k])
  {
    var l0 := SeedEntries()[0].lines;
    var l1 := SeedEntries()[1].lines;
    assert l0[..1][..0] == [] && l0[..|l0| - 1] == l0[..1];
    assert l1[..1][..0] == [] && l1[..|l1| - 1] == l1[..1];
    assert Total(l0, Debit) == 50000.0 && Total(l0, Credit) == 50000.0;
    assert Total(l1, Debit) == 250.0 && Total(l1, Credit) == 250.0;
  }

  lemma SeedAccountsWellFormed()
    ensures UniqueNames(SeedAccounts())
    ensures forall i :: 0 <= i < |SeedAccounts()| ==> IsAccountType(SeedAccounts()[i].accountType)
  {
    var a := SeedAccounts();
    assert a[0].name[0] != a[1].name[0] && a[0].name[0] != a[2].name[0];
    assert a[1].name[1] != a[2].name[1];
  }

  lemma SeedLinesKnown()
    ensures forall i :: 0 <= i < |SeedLines()| ==> KnownName(SeedAccounts(), SeedLines()[i].accountName)
  {
    var a := SeedAccounts();
    var l := SeedLines();
    assert a[0].name == l[0].accountName && a[0].name == l[3].accountName;
    assert a[1].name == l[1].accountName && a[2].name == l[2].accountName;
  }

  /** The supplies account is debited 250 in all and never credited. */
  lemma SeedSuppliesAmounts()
    ensures AmountOf(SeedLines(), "Office Supplies Expense", Debit) == 250.0
    ensures AmountOf(SeedLines(), "Office Supplies Expense", Credit) == 0.0
  {
    var l := SeedLines();
    var name := "Office Supplies Expense";
    assert l[..3][..2][..1][..0] == [];
    assert l[0].accountName[0] != name[0] && l[1].accountName[1] != name[1];
    assert l[2].accountName == name && l[3].accountName[0] != name[0];
    assert AmountOf(l[..3][..2][..1], name, Debit) == 0.0 && AmountOf(l[..3][..2][..1], name, Credit) == 0.0;
    assert AmountOf(l[..3][..2], name, Debit) == 0.0 && AmountOf(l[..3][..2], name, Credit) == 0.0;
    assert AmountOf(l[..3], name, Debit) == 250.0 && AmountOf(l[..3], name, Credit) == 0.0;
  }

  lemma SeedSuppliesBalance()
    ensures PLBalanceOf(SeedLines(), SeedAccounts(), "Office Supplies Expense") == 250.0
  {
    SeedSuppliesAmounts();
    SeedAccountsWellFormed();
    FindUnique(SeedAccounts(), 2);
  }

  /** The seeded books: the only revenue or expense is the 250 of supplies. */
  lemma SeedNetLoss()
    ensures ProfitLossOf(SeedLines(), SeedAccounts()).netIncome == -250.0
  {
    var a := SeedAccounts();
    var l := SeedLines();
    SeedSuppliesBalance();
    PLTotals(l, a, a, REVENUE);
    PLTotals(l, a, a, EXPENSE);
    assert a[..2][..1][..0] == [];
    assert REVENUE[0] != EXPENSE[0];
    assert PLTypeTotal(l, a, a, REVENUE) == 0.0;
    assert PLTypeTotal(l, a, a, EXPENSE) == 250.0;
  }

  lemma SeedDifference()
    ensures TotalAssets(BalanceSheetOf(SeedLines(), SeedAccounts()))
            - (TotalLiabilities(BalanceSheetOf(SeedLines(), SeedAccounts()))
               + TotalEquity(BalanceSheetOf(SeedLines(), SeedAccounts())))
         == -250.0
  {
    SeedEntriesBalanced();
    SeedLinesInOrder();
    SeedAccountsWellFormed();
    SeedLinesKnown();
    SeedNetLoss();
    AccountingEquation(SeedEntries(), SeedAccounts());
  }

  /** A sheet whose assets fall 250 short of liabilities and equity shows
      as unbalanced with a difference of 250. */
  lemma ShortBy250(bs: BalanceSheetData)
    requires TotalAssets(bs) - (TotalLiabilities(bs) + TotalEquity(bs)) == -250.0
    ensures !PageTotals(bs).isBalanced
    ensures DifferenceShown(PageTotals(bs)) == Some(250.0)
  {
    PageTotalsAgree(bs);
  }

  /** Both seeded entries balance, yet the balance sheet the page shows for
      them is off by 250, exactly the period's net loss. */
  lemma SeedSheetOffByNetLoss()
    ensures forall k :: 0 <= k < |SeedEntries()| ==> Balanced(SeedEntries()[k])
    ensures !PageTotals(BalanceSheetOf(AllLines(SeedEntries()), SeedAccounts())).isBalanced
    ensures DifferenceShown(PageTotals(BalanceSheetOf(AllLines(SeedEntries()), SeedAccounts()))) == Some(250.0)
  {
    SeedEntriesBalanced();
    SeedLinesInOrder();
    SeedDifference();
    ShortBy250(BalanceSheetOf(SeedLines(), SeedAccounts()));
  }
}
