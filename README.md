# Double-entry ledger of a small-business accounting application

The application keeps double-entry books for companies. Users belong to companies with a role. A company has a chart of accounts of five types: ASSET, LIABILITY, EQUITY, REVENUE and EXPENSE. An account may be a sub-account of another. Users post journal entries whose lines debit and credit accounts by name. The application derives a trial balance, a profit and loss statement, a balance sheet, per-account ledgers and a dashboard from those entries.

This project models the ledger core of that application in Dafny:

- **Tables.** The database tables of accounts, entry rows, line rows and memberships are modelled in `store.dfy` as the class `Store.Database`. It also holds the shared library functions that create, list and delete entries and accounts, check access and seed the default chart.
- **API routes.** Posting and listing entries, creating and listing accounts, and deleting accounts and entries are modelled in `journal_route.dfy`, `accounts_route.dfy`, `account_delete_route.dfy` and `journal_entry_delete_route.dfy`. Each route's checks are modelled in their order, with every error answer.
- **Report folds.** `journal_utils.dfy` holds the gross trial balance, the profit and loss statement and the balance sheet. Each is an imperative fold over a `Map`, written as a method with loop invariants and proved equal to a specification function. `report_properties.dfy` proves what the reports promise together.
- **Pages.** The trial-balance page (its own net fold), the ledger page, the balance-sheet page, the dashboard, the journal editor and the chart-of-accounts page are modelled in their own files. The two editors are classes whose methods update the page state.
- **Support.** `ledger.dfy` holds the shared shapes and sums. `seqs.dfy`, `sorting.dfy` and `text.dfy` hold filtering and de-duplication, a stable sort, lower-casing and string order. `default_chart.dfy` holds the nineteen default accounts.

Amounts are `real` and dates are day numbers (`int`). A value that JavaScript passes to `Number(...)` is a `RawAmount`: a number, or something that converts to NaN. This makes `Number(x) || 0` explicit. Identifiers that the database generates and answers the user gives to `confirm()` are parameters. The bearer-token check is reduced to its three outcomes: no bearer header, a bad token, or a user.

Where the code's behaviour differs from what its names and labels suggest, the model follows the code:

- **Entry validation.** The server accepts an entry whose debits and credits differ by at most 0.01. It never checks that the named accounts exist, that they are active, or that a line is one-sided. Only the client editor enforces one side per line. The editor also demands exact equality of its totals (`JournalRoute.AcceptedExactly`, `JournalPage.OneSided`).
- **Tolerance drift.** Entries accepted within the tolerance can make the books drift by 0.01 per entry (`JournalRoute.AcceptedEntriesDrift`). The journal page then shows such books as "Unbalanced" (`JournalPage.ToleratedEntryShowsUnbalanced`).
- **Sub-accounts.** A sub-account may be created under a sub-account, so the tree can be deeper than two levels (`AccountsRoute.GrandchildAccepted`). The chart-of-accounts page shows only two levels (`StatementOfAccountsPage.OrphanHidden`).
- **Deleting entries.**
  - `deleteJournalEntry` in the library removes only the entry row, checking existence before the role.
  - The delete API route removes the lines and then the entry, and lets any member do it.
- **Deleting accounts.** An account is refused deletion only while a line of the same company carries its name.
- **Balance sheet.** The balance sheet never carries net income into equity. It therefore shows as balanced only when net income is within a cent of zero. The seeded sample books show a difference of 250 (`BalanceSheetPage.BalancedIffNoNetIncome`, `BalanceSheetPage.SeedSheetOffByNetLoss`).
- **Trial-balance page.** The page nets balances. It drops every account whose net balance is within 0.01 of zero, so an exactly balanced journal can show as unbalanced (`TrialBalancePage.DroppedCentsUnbalance`). The dashboard's "balanced" flag uses the gross totals instead.
- **Ledger page.** The ledger page computes running balances in the order the entries are fetched, newest first, and sorts the rows by date only afterwards (`LedgerPage.RunningBalanceIsNotDisplayOrder`).
- **Dashboard.** The dashboard's "recent activity" takes the last three entries of the journal list and reverses them. The list arrives newest first, so it shows the three oldest entries, oldest first (`DashboardPage.RecentIsOldest`).

## Model

| member | source | states |
|---|---|---|
| Ledger.FindAccount | src/lib/journal-utils.ts:72 | `find` by name: None iff no account has the name; otherwise the first account carrying it |
| Ledger.FindUnique | src/lib/journal-utils.ts:109 | with unique names, looking an account up by its name finds that very account |
| Ledger.AllLinesBalanced | src/app/journal/page.tsx:162-169 | when every entry is exactly balanced, debits over all lines equal credits over all lines |
| Ledger.AllLinesWithinTolerance | src/app/api/journal/route.ts:45-50 | entries each within 0.01 add up to books within 0.01 times the number of entries |
| Ledger.TotalAppend | src/lib/journal-utils.ts:97-99 | a side total over two runs of lines is the sum of the two totals |
| Seqs.DedupFirstAppearance | src/lib/journal-utils.ts:61 | the keys of a JavaScript `Map` in insertion order: distinct, and in order of first appearance |
| Seqs.Filter | src/app/dashboard/page.tsx:70 | `Array.prototype.filter`: one element per passing element of the input, exactly the passing values, and the input itself when everything passes |
| Seqs.FilterMultiset | src/app/dashboard/page.tsx:70 | filtering keeps every occurrence of a passing value and no occurrence of any other |
| Seqs.FilterAppend | src/app/ledger/page.tsx:162-166 | filtering keeps order: filtering two runs is filtering each and joining the results |
| Seqs.CountIfIndices | src/app/dashboard/page.tsx:70 | the count of passing elements is the number of positions holding one |
| Text.ToLower | src/lib/journal-utils.ts:139-141 | `toLowerCase` keeps the length and lower-cases each character |
| Text.MissingCharExcludes | src/lib/journal-utils.ts:138-148 | a name lacking a character of the keyword cannot include the keyword |
| Text.LessEqTotal | src/app/api/accounts/route.ts:51 | code order compares any two codes |
| Text.LessEqTransitive | src/app/api/accounts/route.ts:51 | code order chains |
| Text.LessEqAntisymmetric | src/app/api/accounts/route.ts:51 | two codes that each sort no later than the other are equal |
| Sorting.SortByPermutation | src/app/ledger/page.tsx:140-142 | the sort returns a permutation of its input |
| Sorting.SortBySorted | src/app/ledger/page.tsx:140-142 | the sort's output is ordered by the comparator |
| Sorting.SortByStable | src/app/ledger/page.tsx:140-142 | elements that compare equal keep their input order |
| JournalUtils.ItemsFor | src/lib/journal-utils.ts:61-65 | one item per listed name carrying that name's gross debit and credit sums |
| JournalUtils.NamesListed | src/lib/journal-utils.ts:54-61 | a name is a key of the trial balance map iff some line names it |
| JournalUtils.TrialStateStep | src/lib/journal-utils.ts:53-58 | one line adds its amounts to its own account's entry and keeps the map equal to the sums of the lines folded |
| JournalUtils.AddToTrialBalance | src/lib/journal-utils.ts:53-59 | the inner loop leaves the map equal to the gross sums of the lines folded so far |
| JournalUtils.CalculateTrialBalance | src/lib/journal-utils.ts:50-66 | the method's result equals the gross trial balance of all lines of all entries |
| JournalUtils.TrialStateItems | src/lib/journal-utils.ts:61-65 | listing the map gives one item per key in insertion order, with the key's sums |
| JournalUtils.TrialBalanceAccounts | src/lib/journal-utils.ts:50-66 | items name distinct accounts that some line carries, every line's account has an item, in first-appearance order |
| JournalUtils.SumOverDistinctNames | src/lib/journal-utils.ts:50-66 | per-account sums over the distinct names add up to the sum over all lines |
| JournalUtils.TrialBalanceConservesTotals | src/lib/journal-utils.ts:50-66 | the items' debit total is the total of all line debits, and likewise for credits |
| JournalUtils.TrialBalanceOfBalancedEntries | src/lib/journal-utils.ts:50-66 | exactly balanced entries give a trial balance with equal debit and credit totals |
| JournalUtils.PLItems | src/lib/journal-utils.ts:83-95 | the listed items are the accounts of the type, in chart order, whose P&L balance is nonzero |
| JournalUtils.PLBalanceSnoc | src/lib/journal-utils.ts:69-81 | one line changes only its account's P&L balance, credit-normal for REVENUE, debit-normal for EXPENSE, and nothing for other or unknown accounts |
| JournalUtils.CalculateProfitLoss | src/lib/journal-utils.ts:68-102 | the method's result equals the specification of the profit and loss statement, with net income = revenue − expenses |
| JournalUtils.AddToProfitLoss | src/lib/journal-utils.ts:71-80 | after one entry's lines, every revenue and expense balance is the credit- or debit-normal sum over the lines so far |
| JournalUtils.ListProfitLoss | src/lib/journal-utils.ts:83-101 | listing the nonzero revenue and expense balances in chart order yields the profit and loss statement |
| JournalUtils.BSBalanceSnoc | src/lib/journal-utils.ts:105-121 | one line changes only its account's balance, by the normal-balance sign rule; unknown names are skipped |
| JournalUtils.Classify | src/lib/journal-utils.ts:133-157 | ASSET current iff the lower-cased name contains cash, receivable or inventory; LIABILITY current iff payable or accrued; EQUITY flat; other types unlisted |
| JournalUtils.SectionItems | src/lib/journal-utils.ts:133-157 | a section lists the accounts the classifier puts in it whose balance is nonzero, in chart order |
| JournalUtils.CalculateBalanceSheet | src/lib/journal-utils.ts:104-160 | the method's result equals the specification of the balance sheet |
| JournalUtils.AddToBalanceSheet | src/lib/journal-utils.ts:108-120 | after one entry's lines, every account balance is its debit- or credit-normal sum over the lines so far |
| JournalUtils.ListBalanceSheet | src/lib/journal-utils.ts:123-159 | placing each nonzero balance in its section, in chart order, yields the balance sheet |
| ReportProperties.SectionItemsFollowBalances | src/lib/journal-utils.ts:133-157 | sections depend on the lines only through the accounts' balances |
| ReportProperties.PLItemsFollowBalances | src/lib/journal-utils.ts:83-95 | P&L lists depend on the lines only through the accounts' balances |
| ReportProperties.UnknownLineIgnored | src/lib/journal-utils.ts:72-73 | a line naming no account changes neither the P&L nor the balance sheet |
| ReportProperties.SectionTotals | src/lib/journal-utils.ts:133-157 | dropping zero balances loses nothing: the sections total all ASSET, all LIABILITY and all EQUITY balances |
| ReportProperties.PLTotals | src/lib/journal-utils.ts:97-99 | a P&L list totals every account of its type |
| ReportProperties.SignedBalancesSum | src/lib/journal-utils.ts:114-119 | normal-signed balances recombine to debits minus credits over the chart |
| ReportProperties.SumNetDebitKnown | src/lib/journal-utils.ts:105-121 | when every line names a known account, summing per account gives total debits minus credits |
| ReportProperties.AccountingEquation | src/lib/journal-utils.ts:104-160 | for balanced, well-formed books, assets − (liabilities + equity) equals the P&L net income |
| Store.LineRowsFor | src/lib/auth.ts:168-175 | one line row per posted line, all tied to the new entry |
| Store.LinesOfOwnRows | src/lib/auth.ts:161-180 | the rows written for an entry read back as exactly its posted lines |
| Store.CreatedLinesRoundTrip | src/lib/auth.ts:161-180 | creating an entry under a fresh id and reading it back gives the posted lines in order; other entries' lines are unchanged |
| Store.CompanyEntries | src/lib/auth.ts:184-186 | exactly the company's entries, each assembled with its lines |
| Store.CompanyEntriesOnePerRow | src/lib/auth.ts:184-186 | the company's entries are its rows of the entry table, filtered in table order and assembled one entry per row |
| Store.JournalEntriesListing | src/lib/auth.ts:183-199 | the listing is a permutation of the company's entries ordered by descending date |
| Store.EntriesWithout | src/lib/auth.ts:216-218 | the entry rows other than the deleted one |
| Store.EntriesWithoutFiltered | src/lib/auth.ts:216-218 | deleting an entry row removes exactly the rows with its id; every other row stays, in order and as often as it occurred |
| Store.LinesWithout | src/app/api/journal-entry-delete/route.ts:78-80 | the line rows not belonging to the deleted entry |
| Store.LinesWithoutFiltered | src/app/api/journal-entry-delete/route.ts:78-80 | every line row of another entry stays, in order and as often as it occurred |
| Store.LinesWithoutKeepsOthers | src/app/api/journal-entry-delete/route.ts:76-89 | deleting one entry's lines leaves every other entry's lines as they were |
| Store.TypeRank | src/lib/auth.ts:240 | the enum position of a type: below five iff it is one of the five, in declaration order |
| Store.ByTypeThenCodeIsTotalPreorder | src/lib/auth.ts:240 | ordering by type then code is a total preorder |
| Store.ActiveOf | src/lib/auth.ts:234-239 | exactly the company's active accounts |
| Store.ActiveOfFiltered | src/lib/auth.ts:234-239 | the company's active accounts in table order, each row as often as it occurs |
| Store.CompanyAccountsListing | src/lib/auth.ts:234-242 | the listing is a permutation of the company's active accounts, sorted by type and then code |
| Store.AppendFreshCode | src/lib/auth.ts:222-232 | appending an account whose code the company does not use keeps codes unique per company |
| Store.FindEntry | src/lib/auth.ts:203-208 | the entry with that id in that company, or None iff there is none |
| Store.FindAccountById | src/app/api/account-delete/route.ts:47-56 | the account with that id in that company, or None iff there is none |
| Store.FindMembership | src/lib/auth.ts:136-145 | the user's membership in the company, or None iff there is none |
| Store.AccountsWithout | src/app/api/account-delete/route.ts:78-82 | the account rows other than the deleted one |
| Store.AccountsWithoutFiltered | src/app/api/account-delete/route.ts:78-82 | exactly the rows with the deleted id go; every other row stays, in order and as often as it occurred |
| Store.SeededKeepsAndCovers | src/lib/auth.ts:271-281 | seeding only appends chart accounts of this company, and afterwards every chart code is in use |
| Store.SeededNothingNew | src/lib/auth.ts:271-281 | seeding a company that uses every chart code changes nothing (seeding is idempotent) |
| Store.SeededFresh | src/lib/auth.ts:271-281 | seeding a company that uses none of the codes adds every chart account in order |
| Store.SeededKeepsCodesUnique | src/lib/auth.ts:271-281 | seeding keeps codes unique per company |
| Store.NewCompanySeeded | src/lib/auth.ts:244-282 | a company without accounts gets the nineteen default accounts, in order, all active |
| Store.Database.Access | src/lib/auth.ts:136-145 | `checkUserCompanyAccess`: the membership of the user in the company, or None iff there is none |
| Store.Database.CreateJournalEntry | src/lib/auth.ts:148-181 | one entry row and one line row per posted line, in order; nothing else changes; the result reads back as stored |
| Store.Database.DeleteJournalEntry | src/lib/auth.ts:201-219 | not found first, then insufficient role; on success only the entry row is removed |
| Store.Database.CreateAccount | src/lib/auth.ts:222-232 | refused with nothing changed iff the company already uses the code, otherwise appended |
| Store.Database.InitializeDefaultAccounts | src/lib/auth.ts:244-282 | the account table afterwards is the default chart seeded into it, failures skipped |
| Store.Database.SeedChart | src/lib/auth.ts:271-281 | each chart row is inserted unless its code is taken, and nothing but the account table changes |
| DefaultChart.NewAccount | src/lib/auth.ts:273-276 | the stored account for a chart entry: same code, name and type, no parent, active |
| DefaultChart.DefaultChartShape | src/lib/auth.ts:245-270 | nineteen accounts with pairwise distinct codes and valid types |
| DefaultChart.DefaultChartCoversTypes | src/lib/auth.ts:245-270 | every one of the five types has a default account |
| DefaultChart.DefaultCurrentAssets | src/lib/journal-utils.ts:138-143 | Cash, Accounts Receivable and Inventory are classified as current assets |
| DefaultChart.DefaultNonCurrentAssets | src/lib/journal-utils.ts:138-146 | Equipment and its accumulated depreciation are non-current assets |
| DefaultChart.DefaultLiabilities | src/lib/journal-utils.ts:148-152 | Accounts Payable and Accrued Expenses are current liabilities; long-term debt is long-term |
| JournalRoute.StoredLines | src/app/api/journal/route.ts:59-64 | posted lines stored in order, account renamed to accountName, amounts read with `Number(x) \|\| 0` |
| JournalRoute.InputTotalIsStoredTotal | src/app/api/journal/route.ts:45-46 | the balance check sums exactly the amounts that are then stored |
| JournalRoute.AcceptedExactly | src/app/api/journal/route.ts:14-50 | a post is accepted iff authenticated, fields present, writing role and stored totals within 0.01; nothing about accounts or one-sidedness |
| JournalRoute.RefusalOrder | src/app/api/journal/route.ts:14-50 | each error answer happens iff every earlier check passed and its own failed |
| JournalRoute.AcceptedEntriesDrift | src/app/api/journal/route.ts:48-50 | n accepted entries can make the books differ by up to 0.01 × n |
| JournalRoute.AcceptedWithinTolerance | src/app/api/journal/route.ts:48-50 | every accepted entry is balanced within 0.01 |
| JournalRoute.CentOffAccepted | src/app/api/journal/route.ts:48-50 | a post of 0.02 against 0.01, a difference of exactly the tolerance, is accepted |
| JournalRoute.Post | src/app/api/journal/route.ts:12-78 | the answer is the validation's; on success exactly one entry row and its line rows are appended; a refusal stores nothing |
| JournalRoute.List | src/app/api/journal/route.ts:81-116 | listed iff authenticated, company given and any membership; the listing is a reordering of all the company's entries, one per row, newest first |
| AccountsRoute.FindById | src/app/api/accounts/route.ts:117-119 | the account with that id in any company, None iff there is none |
| AccountsRoute.OrNull | src/app/api/accounts/route.ts:164-165 | an empty optional string is stored as null |
| AccountsRoute.AcceptedExactly | src/app/api/accounts/route.ts:85-155 | a create succeeds iff authenticated, fields present, valid type, writing role, a named parent of the same type and company, and an unused code |
| AccountsRoute.CreateKeepsCodesUnique | src/app/api/accounts/route.ts:141-155 | a created account keeps codes unique per company |
| AccountsRoute.GrandchildAccepted | src/app/api/accounts/route.ts:116-138 | a sub-account of a sub-account is accepted |
| AccountsRoute.Create | src/app/api/accounts/route.ts:158-174 | the answer is the validation's; on success exactly the new row is appended, otherwise nothing changes |
| AccountsRoute.List | src/app/api/accounts/route.ts:9-63 | listed iff authenticated, company given and any membership; a reordering of the company's active accounts, each as often as it occurs, ordered by type and then code |
| AccountDeleteRoute.UsageCount | src/app/api/account-delete/route.ts:59-66 | zero iff no line of the company's entries carries the account's name |
| AccountDeleteRoute.Delete | src/app/api/account-delete/route.ts:10-82 | each refusal in order with nothing changed; refused while in use; otherwise exactly that account row is removed |
| JournalEntryDeleteRoute.Delete | src/app/api/journal-entry-delete/route.ts:17-89 | each refusal in order with nothing changed; otherwise the entry's lines and the entry row are removed |
| JournalEntryDeleteRoute.OtherEntriesIntact | src/app/api/journal-entry-delete/route.ts:76-89 | every remaining entry reads back with its lines, and no line of the deleted entry is left |
| TrialBalancePage.TypeOrAsset | src/app/trial-balance/page.tsx:39 | a missing or empty type counts as ASSET |
| TrialBalancePage.FirstTypeOf | src/app/trial-balance/page.tsx:36-40 | an account's type is that of the first line naming it |
| TrialBalancePage.SignedSumIsNetDebit | src/app/trial-balance/page.tsx:46-50 | the signed sum is the net debit, negated for credit-normal types |
| TrialBalancePage.RowFor | src/app/trial-balance/page.tsx:61-75 | a positive balance goes to the type's normal column, a negative one to the other |
| TrialBalancePage.RowsFor | src/app/trial-balance/page.tsx:58-77 | one row per name whose balance exceeds 0.01 in absolute value |
| TrialBalancePage.NetStateStep | src/app/trial-balance/page.tsx:36-52 | one line adds its signed change to its account under the settled type |
| TrialBalancePage.PostLine | src/app/trial-balance/page.tsx:36-52 | the loop body keeps the map equal to the net balances of the lines folded |
| TrialBalancePage.AddToNetBalances | src/app/trial-balance/page.tsx:35-53 | the inner loop keeps the map equal to the net balances of the lines folded |
| TrialBalancePage.ProcessTrialBalanceData | src/app/trial-balance/page.tsx:30-80 | the method's rows equal the net trial balance of all fetched lines |
| TrialBalancePage.ListNetRows | src/app/trial-balance/page.tsx:57-79 | the rows listed from the accumulated balances are the net rows of all fetched lines, in first-seen order |
| TrialBalancePage.NetTrialBalanceRows | src/app/trial-balance/page.tsx:56-79 | every row is a listed account's balance split by type, and names are distinct |
| TrialBalancePage.NetTrialBalanceRow | src/app/trial-balance/page.tsx:59 | an account gets a row iff a line names it and its balance exceeds 0.01 in absolute value |
| TrialBalancePage.RowIsTypeIndependent | src/app/trial-balance/page.tsx:61-75 | the row shows the net debit whatever type the account settles on |
| TrialBalancePage.StoredLinesAreAssets | src/app/trial-balance/page.tsx:39 | lines as stored carry no type, so every account is signed as an ASSET |
| TrialBalancePage.DroppedCentsUnbalance | src/app/trial-balance/page.tsx:165-167 | an exactly balanced journal whose one-cent accounts are dropped shows as unbalanced |
| LedgerPage.LastNamed | src/app/ledger/page.tsx:101-107 | a name's ledger shows the last account with that name |
| LedgerPage.ByDateIsTotalPreorder | src/app/ledger/page.tsx:141 | the date comparator is a total preorder |
| LedgerPage.NonEmptyLedgers | src/app/ledger/page.tsx:144 | every ledger kept has a row and is the ledger of one of the names |
| LedgerPage.NonEmptyLedgersFiltered | src/app/ledger/page.tsx:144 | the kept ledgers are the names' ledgers filtered by "has a row", in the names' order, and every name whose ledger has a row contributes it |
| LedgerPage.InitStep | src/app/ledger/page.tsx:101-107 | one account of the first loop keys an empty ledger by its name |
| LedgerPage.ReplayStep | src/app/ledger/page.tsx:110-137 | one posting adds a row and its signed change to its account's ledger only |
| LedgerPage.PostLine | src/app/ledger/page.tsx:112-135 | a line naming a ledger's account adds its change and pushes a row with the new balance; any other line changes nothing |
| LedgerPage.InitLedgers | src/app/ledger/page.tsx:101-107 | an empty ledger per distinct account name, holding the last account of that name |
| LedgerPage.ReplayEntries | src/app/ledger/page.tsx:110-137 | every ledger holds the rows and balance of replaying all postings |
| LedgerPage.SortLedgers | src/app/ledger/page.tsx:140-142 | every ledger's rows are sorted by date, stably |
| LedgerPage.SortEach | src/app/ledger/page.tsx:140-142 | every ledger's rows become their stable date sort; the set of ledgers is unchanged |
| LedgerPage.KeepNonEmpty | src/app/ledger/page.tsx:144 | the kept ledgers are exactly the nonempty ones, in order |
| LedgerPage.ProcessLedgerData | src/app/ledger/page.tsx:97-145 | the method's result equals the nonempty ledgers in chart order |
| LedgerPage.RunningBalance | src/app/ledger/page.tsx:119-133 | before sorting, each row's balance is the previous row's plus its own change, the last being the account balance |
| LedgerPage.LedgerRows | src/app/ledger/page.tsx:110-142 | a ledger's rows are a date-sorted, stable permutation of its replayed rows |
| LedgerPage.BalanceOfPostings | src/app/ledger/page.tsx:118-125 | the ledger replay sums the same signed amounts as the report folds |
| LedgerPage.LedgerBalanceMatchesReports | src/app/ledger/page.tsx:118-125 | with unique names, a ledger's balance is the balance-sheet balance of its account |
| LedgerPage.UnknownPostingIgnored | src/app/ledger/page.tsx:112-113 | a line naming no chart account changes no ledger |
| LedgerPage.RunningBalanceIsNotDisplayOrder | src/app/ledger/page.tsx:139-142 | with entries fetched newest first, the first displayed row carries the balance after both postings |
| LedgerPage.OfType | src/app/ledger/page.tsx:162-166 | a ledger is in a type's group iff it is one of the ledgers and has that type |
| LedgerPage.OfTypeIsFilter | src/app/ledger/page.tsx:162-166 | a type's group is the ledgers filtered by that type, so it keeps their order |
| LedgerPage.OfTypeKeepsEach | src/app/ledger/page.tsx:162-166 | a type's group holds every occurrence of each ledger of the type, one element per such ledger |
| LedgerPage.GroupedExactlyOnce | src/app/ledger/page.tsx:161-167 | a ledger of one of the five types is in exactly its own group; any other type in none |
| BalanceSheetPage.DifferenceShown | src/app/balance-sheet/page.tsx:329-333 | a difference is shown iff the sheet is unbalanced, and it is the absolute gap between assets and liabilities plus equity |
| BalanceSheetPage.PageTotalsAgree | src/app/balance-sheet/page.tsx:66-77 | the page totals agree with the report totals, and the check is the strict two-sided 0.01 tolerance |
| BalanceSheetPage.EmptySheetBalanced | src/app/balance-sheet/page.tsx:17-21 | before data arrives all totals are zero and the sheet shows as balanced |
| BalanceSheetPage.PageTotalsByType | src/app/balance-sheet/page.tsx:66-75 | total assets is every ASSET balance; liabilities and equity is every LIABILITY and EQUITY balance |
| BalanceSheetPage.BalancedIffNoNetIncome | src/app/balance-sheet/page.tsx:77 | well-formed books show balanced iff net income is within 0.01 of zero; otherwise the difference is net income |
| BalanceSheetPage.SeedEntriesBalanced | prisma/seed.ts:115-163 | both seeded entries are exactly balanced |
| BalanceSheetPage.SeedNetLoss | prisma/seed.ts:140-163 | the seeded books' only P&L movement is 250 of supplies expense |
| BalanceSheetPage.SeedSheetOffByNetLoss | src/app/balance-sheet/page.tsx:329-333 | the seeded books show a balance-sheet difference of 250, the net loss |
| DashboardPage.ActiveAccounts | src/app/dashboard/page.tsx:70 | exactly the active accounts, each as often as it occurs in the list, one element per active account |
| DashboardPage.ActiveAccountsCounted | src/app/dashboard/page.tsx:70 | the "active accounts" figure is the number of positions of the list holding an active account |
| DashboardPage.DashboardBalancedIsGross | src/app/dashboard/page.tsx:58-60 | the balanced flag compares the gross totals of every posted line |
| DashboardPage.BalancedEntriesShowBalanced | src/app/dashboard/page.tsx:58-60 | exactly balanced entries always show as balanced |
| DashboardPage.DashboardAgreesWithReports | src/app/dashboard/page.tsx:62-70 | total assets is every ASSET balance; net income is revenue minus expenses |
| DashboardPage.SeedDashboardDisagreesWithSheet | src/app/dashboard/page.tsx:58-60 | for the seeded books the dashboard shows balanced while the balance sheet is off by 250 |
| DashboardPage.RecentEntries | src/app/dashboard/page.tsx:75-77 | the last three entries of the list, last first |
| DashboardPage.RecentOfNewestFirst | src/app/dashboard/page.tsx:75-77 | taken from a newest-first list, the shown entries are its oldest, oldest first |
| DashboardPage.RecentIsOldest | src/app/dashboard/page.tsx:75-77 | from the journal listing, each shown entry is no later than every entry listed before it, and the first shown is the oldest of all |
| DashboardPage.RecentActivity | src/app/dashboard/page.tsx:75-82 | one activity per recent entry, titled by its reference, with its description |
| JournalPage.OneSided | src/app/journal/page.tsx:175-185 | a line accepted by the editor carries an amount on at most one side |
| JournalPage.DraftTotalAppend | src/app/journal/page.tsx:158-160 | adding a line adds its amount to the draft total |
| JournalPage.DraftTotalRemove | src/app/journal/page.tsx:196-198 | removing a line subtracts its amount from the draft total |
| JournalPage.RequestLines | src/app/journal/page.tsx:223-228 | the posted lines carry the draft lines' accounts, descriptions and amounts, in order |
| JournalPage.RequestTotals | src/app/journal/page.tsx:158-160 | the server's input totals of the posted lines equal the draft totals |
| JournalPage.SaveGuards | src/app/journal/page.tsx:201-208 | the editor refuses to post iff the draft is unbalanced, text is missing, or no company is chosen |
| JournalPage.ClientSaveValidated | src/app/journal/page.tsx:200-230 | a post the editor sends is accepted iff the user is authenticated, a date is set, the company is named and the role may write; the stored totals then match and are positive |
| JournalPage.ExactEntriesShowBalanced | src/app/journal/page.tsx:162-169 | exactly balanced entries show as "Balanced" |
| JournalPage.ToleratedEntryShowsUnbalanced | src/app/journal/page.tsx:355-358 | the entry of 0.02 against 0.01, which the server accepts, shows as "Unbalanced" |
| JournalPage.WithoutEntry | src/app/journal/page.tsx:132 | the entry list without the deleted entry, unchanged if no entry has that id |
| JournalPage.WithoutEntryFiltered | src/app/journal/page.tsx:132 | the local delete keeps every other entry, in order and as often as it was listed |
| JournalPage.JournalForm.constructor | src/app/journal/page.tsx:56-72 | an empty editor: no entries, form hidden, today's date, no lines |
| JournalPage.JournalForm.ToggleForm | src/app/journal/page.tsx:366 | flips only the form's visibility |
| JournalPage.JournalForm.SetHeader | src/app/journal/page.tsx:394-418 | sets only the entry header |
| JournalPage.JournalForm.SetAccount | src/app/journal/page.tsx:434 | sets only the current line's account |
| JournalPage.JournalForm.SetLineDescription | src/app/journal/page.tsx:456 | sets only the current line's description |
| JournalPage.JournalForm.SetDebit | src/app/journal/page.tsx:469 | sets the debit and clears the credit of the current line |
| JournalPage.JournalForm.SetCredit | src/app/journal/page.tsx:482 | sets the credit and clears the debit of the current line |
| JournalPage.JournalForm.AddLine | src/app/journal/page.tsx:171-194 | a line is added iff it has an account and an amount on exactly one side; the totals move by exactly that amount |
| JournalPage.JournalForm.RemoveLine | src/app/journal/page.tsx:196-198 | removes exactly the line at the index; the totals drop by its amount |
| JournalPage.JournalForm.Cancel | src/app/journal/page.tsx:253-267 | resets the form and hides it; the entry list is unchanged |
| JournalPage.JournalForm.Save | src/app/journal/page.tsx:200-251 | refused by the editor's guards, or else saved iff the server accepts the request, with the server's error otherwise; on success the stored entry is balanced with a positive total, the entry row and its line rows are appended, the form is reset and the list refetched |
| JournalPage.JournalForm.AfterPost | src/app/journal/page.tsx:233-242 | the form is reset and the list is refetched, keeping the old list when the fetch fails |
| JournalPage.JournalForm.DeleteEntry | src/app/journal/page.tsx:114-143 | without confirmation nothing happens; on a successful delete the entry leaves the list and the store |
| StatementOfAccountsPage.AvailableParents | src/app/statement-of-accounts/page.tsx:287-294 | an account is offered as parent iff it has the form's type, has no parent itself and is not the account being edited |
| StatementOfAccountsPage.Organize | src/app/statement-of-accounts/page.tsx:297-305 | one node per main account, in order, holding exactly its children |
| StatementOfAccountsPage.OrphanHidden | src/app/statement-of-accounts/page.tsx:297-305 | a sub-account whose parent is not a top-level account of the list appears nowhere in the tree |
| StatementOfAccountsPage.OfType | src/app/statement-of-accounts/page.tsx:334 | an account is listed under a type iff it is in the list and has that type |
| StatementOfAccountsPage.OfTypeKeepsEach | src/app/statement-of-accounts/page.tsx:334 | the accounts of the type, each as often as it occurs in the list, and one element per such account |
| StatementOfAccountsPage.GroupedAccounts | src/app/statement-of-accounts/page.tsx:333-340 | five groups, one per type, in declaration order |
| StatementOfAccountsPage.GroupsHoldTheirType | src/app/statement-of-accounts/page.tsx:333-340 | every node of a group has the group's type |
| StatementOfAccountsPage.MainAccountShown | src/app/statement-of-accounts/page.tsx:333-340 | a main account of one of the five types is shown |
| StatementOfAccountsPage.MismatchedChildHidden | src/app/statement-of-accounts/page.tsx:297-305 | a sub-account whose parent has a different type is shown nowhere on the page |
| StatementOfAccountsPage.UntypedHidden | src/app/statement-of-accounts/page.tsx:333-340 | an account whose type is not one of the five is not shown |
| StatementOfAccountsPage.SubcategoryOptions | src/app/statement-of-accounts/page.tsx:56-79 | subcategories are offered iff the type is one of the five |
| StatementOfAccountsPage.SubcategoriesScoped | src/app/statement-of-accounts/page.tsx:56-79 | a subcategory offered under one type is offered under no other |
| StatementOfAccountsPage.FormOf | src/app/statement-of-accounts/page.tsx:166-177 | the form copies code, name and type; the sub-account box is ticked iff a parent id is filled in |
| StatementOfAccountsPage.ClientCreateChecked | src/app/statement-of-accounts/page.tsx:179-222 | a create the page sends never fails on fields or type, and is accepted iff the server's remaining checks pass |
| StatementOfAccountsPage.PickedParentPasses | src/app/statement-of-accounts/page.tsx:287-294 | a parent picked from the offered list passes the server's parent checks |
| StatementOfAccountsPage.Edited | src/app/statement-of-accounts/page.tsx:236-243 | keeps id, company and active flag, takes code, name and type from the form, and has a parent iff the box is ticked |
| StatementOfAccountsPage.ReplaceById | src/app/statement-of-accounts/page.tsx:232-246 | the account with the id is replaced, every other account is unchanged |
| StatementOfAccountsPage.AccountsView.constructor | src/app/statement-of-accounts/page.tsx:85-99 | an empty page with an empty, hidden form |
| StatementOfAccountsPage.AccountsView.Load | src/app/statement-of-accounts/page.tsx:109-130 | on a successful fetch the list is the company's active accounts; otherwise it is unchanged |
| StatementOfAccountsPage.AccountsView.Edit | src/app/statement-of-accounts/page.tsx:166-177 | fills the form from the account and shows it |
| StatementOfAccountsPage.AccountsView.ChangeType | src/app/statement-of-accounts/page.tsx:277-279 | sets the type and clears the subcategory |
| StatementOfAccountsPage.AccountsView.ChangeSubAccount | src/app/statement-of-accounts/page.tsx:282-284 | sets the flag; clearing it clears the parent |
| StatementOfAccountsPage.AccountsView.SetParent | src/app/statement-of-accounts/page.tsx:518-525 | sets the parent; the form stays consistent when the box is ticked |
| StatementOfAccountsPage.AccountsView.Cancel | src/app/statement-of-accounts/page.tsx:270-274 | resets and hides the form |
| StatementOfAccountsPage.AccountsView.Save | src/app/statement-of-accounts/page.tsx:179-268 | refused by the page's checks with nothing changed; past them, an edit is saved iff the update succeeds and replaces the edited record in the page's list, leaving the modelled store as it was, and a create is saved iff the accounts API accepts it and appends the route's new row to the list and the store |
| StatementOfAccountsPage.AccountsView.Delete | src/app/statement-of-accounts/page.tsx:132-164 | without confirmation nothing happens; a successful delete removes the account from the list and the store |

## Left out

- **Token verification.** Signing and verifying JSON Web Tokens, password hashing, registration and the company routes are not modelled. A request's authentication is the `Auth` value it carries. An "Invalid token payload" answer is modelled as a bad token.
- **Rendering.** HTTP status codes, response bodies, React rendering, loading indicators, redirects of signed-out users, the expand and collapse state of groups, and the user names shown on entries are not modelled.
- **Parsing and formatting.** Floating-point arithmetic is modelled as exact `real` arithmetic, so rounding drift is not captured. At the 0.01 tolerance the two can disagree: the route refuses 100.01 against 100.00, whose difference in doubles is just above 0.01, while the model accepts it. Parsing dates and numbers is modelled by the value it produces. `toLocaleString`, `toLocaleDateString` and the CSV export of the trial-balance page are not modelled.
- **Database behaviour.**
  - Transactions are atomic updates.
  - Concurrent requests are not modelled, including the race behind the unique-constraint error of the accounts route.
  - A schema-level cascade from entries to lines is not modelled: `Store.Database.DeleteJournalEntry` removes only the entry row, as the library code does.
  - The enum order of account types is taken to be their declaration order.
  - `orderBy: { date: "desc" }` leaves the order of entries with the same date open. The model fixes it as their table order, and the ledger page's running balances over same-date entries follow that choice.
  - Account codes are ordered by character code. The database's collation for `code: "asc"` is not modelled.
  - The column default that makes a seeded account active is taken as given.
- **Text.** Lower-casing covers only the ASCII letters A to Z.
- **Identifiers and answers.** Generated identifiers, the current date, and the user's answer to a confirmation dialog are parameters.
- **Other pages and routes.** The profit-and-loss page only displays `calculateProfitLoss` and is not modelled. The `journal-delete/[id]` route is not modelled; it returns a fixed answer.
- **Account updates.** The account-update API that the chart-of-accounts page calls when editing is not part of this model. Its outcome is the `updated` parameter of `StatementOfAccountsPage.AccountsView.Save`. The store is not updated by an edit: `db.accounts` is left unchanged when an edit succeeds, and only the page's own list takes the updated account.
- **Mock database.** The in-memory mock database and the company context are not part of this model.
