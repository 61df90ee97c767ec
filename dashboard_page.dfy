/** The dashboard: four headline figures and a "recent activity" list,
    all derived from the company's entries and accounts with the shared
    report folds. */
module DashboardPage {
  import opened Ledger
  import opened JournalUtils
  import opened ReportProperties
  import BalanceSheetPage
  import Store
  import opened Seqs

  datatype Stats = Stats(
    totalAssets: real, netIncome: real, journalEntries: nat, activeAccounts: nat, isBalanced: bool)

  datatype Activity = Activity(title: string, description: string, time: int)

  predicate IsActive(a: Account)
  {
    a.isActive
  }

  /** `accounts.filter((a) => a.isActive)`: every active account, as often
      as it occurs and in its order, and nothing else. */
  function ActiveAccounts(accounts: seq<Account>): (r: seq<Account>)
    ensures |r| == CountIf(accounts, IsActive)
    ensures forall a :: a in r <==> a in accounts && a.isActive
    ensures forall a :: multiset(r)[a] == if a.isActive then multiset(accounts)[a] else 0
  {
    FilterMultiset(accounts, IsActive);
    Filter(accounts, IsActive)
  }

  /** The headline figures: gross trial-balance totals compared with the
      strict `< 0.01` tolerance, total assets from the balance sheet, net
      income from the profit and loss statement, and two counts. */
  function DashboardStats(entries: seq<JournalEntry>, accounts: seq<Account>): Stats
  {
    var lines := AllLines(entries);
    var trialBalance := TrialBalanceOf(lines);
    var totalDebits := ItemsSideTotal(trialBalance, Debit);
    var totalCredits := ItemsSideTotal(trialBalance, Credit);
    var balanceSheet := BalanceSheetOf(lines, accounts);
    Stats(ItemsTotal(balanceSheet.assets.current) + ItemsTotal(balanceSheet.assets.nonCurrent),
          ProfitLossOf(lines, accounts).netIncome,
          |entries|,
          |ActiveAccounts(accounts)|,
          BalanceSheetPage.Abs(totalDebits - totalCredits) < 0.01)
  }

  /** The dashboard's "balanced" flag looks only at the gross debit and
      credit totals of every posted line; it is the same test whichever
      account a line names, known or not. */
  lemma DashboardBalancedIsGross(entries: seq<JournalEntry>, accounts: seq<Account>)
    ensures DashboardStats(entries, accounts).isBalanced
        <==> -0.01 < Total(AllLines(entries), Debit) - Total(AllLines(entries), Credit) < 0.01
  {
    TrialBalanceConservesTotals(AllLines(entries));
  }

  /** The "active accounts" figure is the number of positions of the
      account list holding an active account. */
  lemma ActiveAccountsCounted(entries: seq<JournalEntry>, accounts: seq<Account>)
    ensures DashboardStats(entries, accounts).activeAccounts
         == |set i | 0 <= i < |accounts| && accounts[i].isActive|
  {
    CountIfIndices(accounts, IsActive);
    assert IndicesWhere(accounts, IsActive) == set i | 0 <= i < |accounts| && accounts[i].isActive;
  }

  /** Exactly balanced entries always show as balanced. */
  lemma BalancedEntriesShowBalanced(entries: seq<JournalEntry>, accounts: seq<Account>)
    requires forall k :: 0 <= k < |entries| ==> Balanced(entries[k])
    ensures DashboardStats(entries, accounts).isBalanced
  {
    TrialBalanceOfBalancedEntries(entries);
  }

  /** The dashboard's figures are those of the reports: total assets is the
      sum of every ASSET account's balance and net income is revenue minus
      expenses over the chart. */
  lemma DashboardAgreesWithReports(entries: seq<JournalEntry>, accounts: seq<Account>)
    ensures DashboardStats(entries, accounts).totalAssets
         == TypeTotal(AllLines(entries), accounts, accounts, ASSET)
    ensures DashboardStats(entries, accounts).netIncome
         == PLTypeTotal(AllLines(entries), accounts, accounts, REVENUE)
            - PLTypeTotal(AllLines(entries), accounts, accounts, EXPENSE)
    ensures DashboardStats(entries, accounts).journalEntries == |entries|
    ensures DashboardStats(entries, accounts).activeAccounts <= |accounts|
  {
    SectionTotals(AllLines(entries), accounts, accounts);
    PLTotals(AllLines(entries), accounts, accounts, REVENUE);
    PLTotals(AllLines(entries), accounts, accounts, EXPENSE);
  }

  /** For the seeded books the dashboard reports "balanced" while the
      balance-sheet page, fed the same data, reports a difference of 250. */
  lemma SeedDashboardDisagreesWithSheet()
    ensures DashboardStats(BalanceSheetPage.SeedEntries(), BalanceSheetPage.SeedAccounts()).isBalanced
    ensures !BalanceSheetPage.PageTotals(
      BalanceSheetOf(AllLines(BalanceSheetPage.SeedEntries()), BalanceSheetPage.SeedAccounts())).isBalanced
  {
    BalanceSheetPage.SeedSheetOffByNetLoss();
    BalancedEntriesShowBalanced(BalanceSheetPage.SeedEntries(), BalanceSheetPage.SeedAccounts());
  }

  /** `s.reverse()` on a fresh copy. */
  function Reverse<T>(s: seq<T>): (r: seq<T>)
    ensures |r| == |s|
    ensures forall k :: 0 <= k < |s| ==> r[k] == s[|s| - 1 - k]
  {
    if s == [] then [] else [s[|s| - 1]] + Reverse(s[..|s| - 1])
  }

  /** `entries.slice(-3).reverse()`: the last three entries of the list,
      the last one first. */
  function RecentEntries(entries: seq<JournalEntry>): (r: seq<JournalEntry>)
    ensures |r| == if |entries| < 3 then |entries| else 3
    ensures forall k :: 0 <= k < |r| ==> r[k] == entries[|entries| - 1 - k]
  {
    var start := if |entries| < 3 then 0 else |entries| - 3;
    Reverse(entries[start..])
  }

  function ActivityOf(e: JournalEntry): Activity
  {
    Activity("Journal entry: " + e.reference, e.description, e.date)
  }

  /** The activity list: one item per recent entry, titled by its reference. */
  function RecentActivity(entries: seq<JournalEntry>): (r: seq<Activity>)
    ensures |r| == |RecentEntries(entries)|
    ensures forall k :: 0 <= k < |r| ==>
      r[k].description == entries[|entries| - 1 - k].description
      && r[k].title == "Journal entry: " + entries[|entries| - 1 - k].reference
  {
    var recent := RecentEntries(entries);
    seq(|recent|, k requires 0 <= k < |recent| => ActivityOf(recent[k]))
  }

  /** Taking the tail of a newest-first list shows its OLDEST entries, the
      oldest one first: each shown entry is no later than any entry before
      it in the list. */
  lemma RecentOfNewestFirst(listed: seq<JournalEntry>)
    requires forall i, j :: 0 <= i < j < |listed| ==> listed[i].date >= listed[j].date
    ensures forall i, j :: 0 <= i < |RecentEntries(listed)| && 0 <= j < |listed| - i ==>
      RecentEntries(listed)[i].date <= listed[j].date
    ensures forall i :: 0 <= i < |RecentEntries(listed)| - 1 ==>
      RecentEntries(listed)[i].date <= RecentEntries(listed)[i + 1].date
  {
    var r := RecentEntries(listed);
    forall i, j | 0 <= i < |r| && 0 <= j < |listed| - i
      ensures r[i].date <= listed[j].date
    {
      assert r[i] == listed[|listed| - 1 - i];
    }
    forall i | 0 <= i < |r| - 1
      ensures r[i].date <= r[i + 1].date
    {
      assert r[i + 1] == listed[|listed| - 2 - i];
    }
  }

  /** The journal list arrives newest first, so the dashboard's "recent
      activity" shows the company's oldest entries, oldest first. */
  lemma RecentIsOldest(es: seq<Store.EntryRow>, table: seq<Store.LineRow>, companyId: string)
    ensures var listed := Store.JournalEntriesOf(es, table, companyId);
      forall i, j :: 0 <= i < |RecentEntries(listed)| && 0 <= j < |listed| - i ==>
        RecentEntries(listed)[i].date <= listed[j].date
    ensures var r := RecentEntries(Store.JournalEntriesOf(es, table, companyId));
      forall i :: 0 <= i < |r| - 1 ==> r[i].date <= r[i + 1].date
  {
    Store.JournalEntriesListing(es, table, companyId);
    RecentOfNewestFirst(Store.JournalEntriesOf(es, table, companyId));
  }
}
