/** The report folds of the journal utilities: the gross trial balance, the
    profit and loss statement and the balance sheet. Each is an imperative
    fold over all journal lines into a `Map` of per-account sums, followed by
    a pass that pushes report rows; each method is proved equal to a
    specification function, and the report properties are lemmas about those
    functions. */
module JournalUtils {
  import opened Ledger
  import opened Seqs
  import opened Text

  datatype TrialBalanceItem = TrialBalanceItem(account: string, debit: real, credit: real)

  datatype Item = Item(name: string, amount: real)

  datatype ProfitLossData = ProfitLossData(
    revenue: seq<Item>, expenses: seq<Item>,
    totalRevenue: real, totalExpenses: real, netIncome: real)

  datatype Assets = Assets(current: seq<Item>, nonCurrent: seq<Item>)

  datatype Liabilities = Liabilities(current: seq<Item>, longTerm: seq<Item>)

  datatype BalanceSheetData = BalanceSheetData(assets: Assets, liabilities: Liabilities, equity: seq<Item>)

  /** `items.reduce((sum, item) => sum + item.amount, 0)`. */
  function ItemsTotal(items: seq<Item>): real
  {
    if items == [] then 0.0 else ItemsTotal(items[..|items| - 1]) + items[|items| - 1].amount
  }

  /** Adding one line at the end changes only the sums of the account it names. */
  lemma AmountOfSnoc(lines: seq<JournalLine>, line: JournalLine, name: string, side: Side)
    ensures AmountOf(lines + [line], name, side)
         == AmountOf(lines, name, side) + (if line.accountName == name then Amount(line, side) else 0.0)
  {
    assert (lines + [line])[..|lines|] == lines;
  }

  lemma LineNamesSnoc(lines: seq<JournalLine>, line: JournalLine)
    ensures LineNames(lines + [line]) == LineNames(lines) + [line.accountName]
  {
  }

  /** Names that occur in the lines are exactly those that `Dedup` lists. */
  lemma NamesListed(lines: seq<JournalLine>, name: string)
    ensures name in Dedup(LineNames(lines)) <==> NamedIn(lines, name)
  {
    DedupElements(LineNames(lines));
    if NamedIn(lines, name) {
      var i :| 0 <= i < |lines| && lines[i].accountName == name;
      assert LineNames(lines)[i] == name;
    }
  }

  // ----------------------------------------------------------------------
  // Trial balance: gross debit and credit sums per account name

  /** One item per name of `names`, with that name's gross sums. */
  function ItemsFor(lines: seq<JournalLine>, names: seq<string>): (items: seq<TrialBalanceItem>)
    ensures |items| == |names|
    ensures forall k :: 0 <= k < |names| ==>
      items[k] == TrialBalanceItem(names[k], AmountOf(lines, names[k], Debit), AmountOf(lines, names[k], Credit))
  {
    if names == [] then []
    else
      var last := names[|names| - 1];
      ItemsFor(lines, names[..|names| - 1])
      + [TrialBalanceItem(last, AmountOf(lines, last, Debit), AmountOf(lines, last, Credit))]
  }

  /** The gross trial balance of a sequence of lines: one item per distinct
      account name, in order of first appearance. */
  function TrialBalanceOf(lines: seq<JournalLine>): seq<TrialBalanceItem>
  {
    ItemsFor(lines, Dedup(LineNames(lines)))
  }

  /** The map the trial balance fold has built after `done`: its keys in
      insertion order are the distinct names of `done`, each holding that
      name's gross debit and credit sums. */
  ghost predicate TrialState(done: seq<JournalLine>, order: seq<string>, balances: map<string, (real, real)>)
  {
    && order == Dedup(LineNames(done))
    && (forall n :: n in balances <==> n in order)
    && (forall n :: n in balances ==>
          balances[n] == (AmountOf(done, n, Debit), AmountOf(done, n, Credit)))
  }

  /** The sums of one name after one more line: the line's amounts are
      added when it names `n`, and nothing changes otherwise. */
  lemma TrialSumStep(done: seq<JournalLine>, line: JournalLine, n: string, sums: (real, real))
    requires sums == (AmountOf(done, n, Debit), AmountOf(done, n, Credit))
    ensures (if line.accountName == n then (sums.0 + line.debit, sums.1 + line.credit) else sums)
         == (AmountOf(done + [line], n, Debit), AmountOf(done + [line], n, Credit))
  {
    AmountOfSnoc(done, line, n, Debit);
    AmountOfSnoc(done, line, n, Credit);
  }

  /** One step of the fold keeps the key order in step with the lines. */
  lemma TrialKeysStep(done: seq<JournalLine>, line: JournalLine,
                      order0: seq<string>, balances0: map<string, (real, real)>,
                      order: seq<string>, balances: map<string, (real, real)>)
    requires order0 == Dedup(LineNames(done))
    requires forall n :: n in balances0 <==> n in order0
    requires order == if line.accountName in balances0 then order0 else order0 + [line.accountName]
    requires forall n :: n in balances <==> n in balances0 || n == line.accountName
    ensures order == Dedup(LineNames(done + [line]))
    ensures forall n :: n in balances <==> n in order
  {
    LineNamesSnoc(done, line);
    DedupSnoc(LineNames(done), line.accountName);
  }

  /** One step of the fold keeps every entry equal to its name's sums. */
  lemma TrialSumsStep(done: seq<JournalLine>, line: JournalLine,
                      balances0: map<string, (real, real)>, balances: map<string, (real, real)>)
    requires forall n :: n in balances0 ==> balances0[n] == (AmountOf(done, n, Debit), AmountOf(done, n, Credit))
    requires line.accountName !in balances0 ==> !NamedIn(done, line.accountName)
    requires var existing := if line.accountName in balances0 then balances0[line.accountName] else (0.0, 0.0);
      balances == balances0[line.accountName := (existing.0 + line.debit, existing.1 + line.credit)]
    ensures forall n :: n in balances ==>
      balances[n] == (AmountOf(done + [line], n, Debit), AmountOf(done + [line], n, Credit))
  {
    var x := line.accountName;
    if x !in balances0 {
      AmountOfUnnamed(done, x, Debit);
      AmountOfUnnamed(done, x, Credit);
    }
    TrialSumStep(done, line, x, if x in balances0 then balances0[x] else (0.0, 0.0));
    forall n | n in balances0 && n != x
      ensures balances[n] == (AmountOf(done + [line], n, Debit), AmountOf(done + [line], n, Credit))
    {
      TrialSumStep(done, line, n, balances0[n]);
    }
  }

  /** One step of the fold keeps the state in step with the lines folded. */
  lemma TrialStateStep(done: seq<JournalLine>, line: JournalLine,
                       order0: seq<string>, balances0: map<string, (real, real)>,
                       order: seq<string>, balances: map<string, (real, real)>)
    requires TrialState(done, order0, balances0)
    requires order == if line.accountName in balances0 then order0 else order0 + [line.accountName]
    requires var existing := if line.accountName in balances0 then balances0[line.accountName] else (0.0, 0.0);
      balances == balances0[line.accountName := (existing.0 + line.debit, existing.1 + line.credit)]
    ensures TrialState(done + [line], order, balances)
  {
    NamesListed(done, line.accountName);
    TrialKeysStep(done, line, order0, balances0, order, balances);
    TrialSumsStep(done, line, balances0, balances);
  }

  /** The inner `forEach` of `calculateTrialBalance`: folds one entry's
      lines into the map. */
  method AddToTrialBalance(lines: seq<JournalLine>, ghost done: seq<JournalLine>,
                           order0: seq<string>, balances0: map<string, (real, real)>)
    returns (order: seq<string>, balances: map<string, (real, real)>)
    requires TrialState(done, order0, balances0)
    ensures TrialState(done + lines, order, balances)
  {
    order, balances := order0, balances0;
    ghost var folded := done;
    var j := 0;
    while j < |lines|
      invariant 0 <= j <= |lines|
      invariant folded == done + lines[..j]
      invariant TrialState(folded, order, balances)
    {
      var line := lines[j];
      ghost var order0, balances0 := order, balances;
      var existing := if line.accountName in balances then balances[line.accountName] else (0.0, 0.0);
      if line.accountName !in balances {
        order := order + [line.accountName];
      }
      balances := balances[line.accountName := (existing.0 + line.debit, existing.1 + line.credit)];
      TrialStateStep(folded, line, order0, balances0, order, balances);
      folded := folded + [line];
      assert lines[..j + 1] == lines[..j] + [line];
      j := j + 1;
    }
    assert lines[..j] == lines;
  }

  /** `calculateTrialBalance`: folds every line of every entry into a map of
      gross sums keyed by account name, then lists the map. */
  method CalculateTrialBalance(entries: seq<JournalEntry>) returns (items: seq<TrialBalanceItem>)
    ensures items == TrialBalanceOf(AllLines(entries))
  {
    // the JavaScript Map: its contents, and its keys in insertion order
    var balances: map<string, (real, real)> := map[];
    var order: seq<string> := [];
    var i := 0;
    while i < |entries|
      invariant 0 <= i <= |entries|
      invariant TrialState(AllLines(entries[..i]), order, balances)
    {
      order, balances := AddToTrialBalance(entries[i].lines, AllLines(entries[..i]), order, balances);
      AllLinesSnoc(entries, i);
      i := i + 1;
    }
    assert entries[..i] == entries;
    items := seq(|order|, k requires 0 <= k < |order| && order[k] in balances =>
      TrialBalanceItem(order[k], balances[order[k]].0, balances[order[k]].1));
    TrialStateItems(AllLines(entries), order, balances, items);
  }

  lemma TrialStateItems(done: seq<JournalLine>, order: seq<string>, balances: map<string, (real, real)>,
                        items: seq<TrialBalanceItem>)
    requires TrialState(done, order, balances)
    requires |items| == |order|
    requires forall k :: 0 <= k < |order| ==>
      order[k] in balances && items[k] == TrialBalanceItem(order[k], balances[order[k]].0, balances[order[k]].1)
    ensures items == TrialBalanceOf(done)
  {
  }

  /** Each item is a distinct account name that some line carries, every
      line's account has an item, and items follow first appearance. */
  lemma TrialBalanceAccounts(lines: seq<JournalLine>)
    ensures forall a, b :: 0 <= a < b < |TrialBalanceOf(lines)| ==>
      TrialBalanceOf(lines)[a].account != TrialBalanceOf(lines)[b].account
    ensures forall name :: NamedIn(lines, name) <==>
      exists k :: 0 <= k < |TrialBalanceOf(lines)| && TrialBalanceOf(lines)[k].account == name
  {
    var names := Dedup(LineNames(lines));
    DedupElements(LineNames(lines));
    forall name
      ensures NamedIn(lines, name) <==>
        exists k :: 0 <= k < |TrialBalanceOf(lines)| && TrialBalanceOf(lines)[k].account == name
    {
      NamesListed(lines, name);
      if name in names {
        var k :| 0 <= k < |names| && names[k] == name;
        assert TrialBalanceOf(lines)[k].account == name;
      }
    }
  }

  /** Σ over `names` of the sums posted to each name. */
  function SumOver(lines: seq<JournalLine>, names: seq<string>, side: Side): real
  {
    if names == [] then 0.0
    else SumOver(lines, names[..|names| - 1], side) + AmountOf(lines, names[|names| - 1], side)
  }

  /** `Σ item.debit` (or credit) over trial balance items. */
  function ItemsSideTotal(items: seq<TrialBalanceItem>, side: Side): real
  {
    if items == [] then 0.0
    else
      ItemsSideTotal(items[..|items| - 1], side)
      + (if side == Debit then items[|items| - 1].debit else items[|items| - 1].credit)
  }

  lemma {:induction false} ItemsForTotal(lines: seq<JournalLine>, names: seq<string>, side: Side)
    ensures ItemsSideTotal(ItemsFor(lines, names), side) == SumOver(lines, names, side)
  {
    if names != [] {
      var init := names[..|names| - 1];
      ItemsForTotal(lines, init, side);
      assert ItemsFor(lines, names)[..|names| - 1] == ItemsFor(lines, init);
    }
  }

  /** A new line adds its amount to the sum over `names` once if its account
      is among them (the names being distinct) and not at all otherwise. */
  lemma {:induction false} SumOverSnoc(lines: seq<JournalLine>, line: JournalLine, names: seq<string>, side: Side)
    requires NoDuplicates(names)
    ensures SumOver(lines + [line], names, side)
         == SumOver(lines, names, side) + (if line.accountName in names then Amount(line, side) else 0.0)
  {
    if names != [] {
      var init := names[..|names| - 1];
      assert NoDuplicates(init);
      SumOverSnoc(lines, line, init, side);
      AmountOfSnoc(lines, line, names[|names| - 1], side);
      assert names == init + [names[|names| - 1]];
      assert line.accountName in names <==> line.accountName in init || line.accountName == names[|names| - 1];
    }
  }

  /** Gross totals are conserved: summed over the distinct account names, the
      per-account sums add up to the sum over all lines. */
  lemma {:induction false} SumOverDistinctNames(lines: seq<JournalLine>, side: Side)
    ensures SumOver(lines, Dedup(LineNames(lines)), side) == Total(lines, side)
  {
    if lines != [] {
      var init := lines[..|lines| - 1];
      var line := lines[|lines| - 1];
      assert lines == init + [line];
      SumOverDistinctNames(init, side);
      var d := Dedup(LineNames(init));
      DedupElements(LineNames(init));
      LineNamesSnoc(init, line);
      assert LineNames(lines)[..|LineNames(lines)| - 1] == LineNames(init);
      SumOverSnoc(init, line, d, side);
      if line.accountName !in d {
        NamesListed(init, line.accountName);
        AmountOfUnnamed(init, line.accountName, side);
        AmountOfSnoc(init, line, line.accountName, side);
        assert (d + [line.accountName])[..|d|] == d;
      }
    }
  }

  /** Σ item.debit equals the sum of all line debits, and likewise for credits. */
  lemma TrialBalanceConservesTotals(lines: seq<JournalLine>)
    ensures ItemsSideTotal(TrialBalanceOf(lines), Debit) == Total(lines, Debit)
    ensures ItemsSideTotal(TrialBalanceOf(lines), Credit) == Total(lines, Credit)
  {
    ItemsForTotal(lines, Dedup(LineNames(lines)), Debit);
    ItemsForTotal(lines, Dedup(LineNames(lines)), Credit);
    SumOverDistinctNames(lines, Debit);
    SumOverDistinctNames(lines, Credit);
  }

  /** If every entry is exactly balanced, the trial balance's debit and credit
      totals are equal (no zero-filtering takes place). */
  lemma TrialBalanceOfBalancedEntries(entries: seq<JournalEntry>)
    requires forall k :: 0 <= k < |entries| ==> Balanced(entries[k])
    ensures ItemsSideTotal(TrialBalanceOf(AllLines(entries)), Debit)
         == ItemsSideTotal(TrialBalanceOf(AllLines(entries)), Credit)
  {
    TrialBalanceConservesTotals(AllLines(entries));
    AllLinesBalanced(entries);
  }

  // ----------------------------------------------------------------------
  // Profit and loss

  /** The P&L balance of an account name: the type of the first account with
      that name decides; REVENUE is credit-normal, EXPENSE debit-normal, and
      lines of any other account (or of no account) are ignored. */
  function PLBalanceOf(lines: seq<JournalLine>, accounts: seq<Account>, name: string): real
  {
    match FindAccount(accounts, name)
    case None => 0.0
    case Some(a) =>
      if a.accountType == REVENUE then AmountOf(lines, name, Credit) - AmountOf(lines, name, Debit)
      else if a.accountType == EXPENSE then AmountOf(lines, name, Debit) - AmountOf(lines, name, Credit)
      else 0.0
  }

  /** The items the P&L lists for type `t`, scanning `accs` in order: accounts
      of that type whose balance is exactly nonzero. */
  function PLItems(lines: seq<JournalLine>, all: seq<Account>, accs: seq<Account>, t: string): (r: seq<Item>)
    ensures forall k :: 0 <= k < |r| ==> r[k].amount != 0.0
    ensures forall k :: 0 <= k < |r| ==> r[k].amount == PLBalanceOf(lines, all, r[k].name)
    ensures forall k :: 0 <= k < |r| ==>
      exists i :: 0 <= i < |accs| && accs[i].name == r[k].name && accs[i].accountType == t
  {
    if accs == [] then []
    else
      var a := accs[|accs| - 1];
      var init := accs[..|accs| - 1];
      var bal := PLBalanceOf(lines, all, a.name);
      var r := PLItems(lines, all, init, t) + (if bal != 0.0 && a.accountType == t then [Item(a.name, bal)] else []);
      assert forall i :: 0 <= i < |init| ==> init[i] == accs[i];
      r
  }

  function ProfitLossOf(lines: seq<JournalLine>, accounts: seq<Account>): ProfitLossData
  {
    var revenue := PLItems(lines, accounts, accounts, REVENUE);
    var expenses := PLItems(lines, accounts, accounts, EXPENSE);
    ProfitLossData(revenue, expenses, ItemsTotal(revenue), ItemsTotal(expenses),
                   ItemsTotal(revenue) - ItemsTotal(expenses))
  }

  /** One line's effect on the P&L map, given the accounts. */
  lemma PLBalanceSnoc(lines: seq<JournalLine>, line: JournalLine, accounts: seq<Account>, name: string)
    ensures PLBalanceOf(lines + [line], accounts, name)
         == PLBalanceOf(lines, accounts, name)
            + (if line.accountName != name then 0.0
               else match FindAccount(accounts, name)
                 case None => 0.0
                 case Some(a) =>
                   if a.accountType == REVENUE then line.credit - line.debit
                   else if a.accountType == EXPENSE then line.debit - line.credit
                   else 0.0)
  {
    AmountOfSnoc(lines, line, name, Debit);
    AmountOfSnoc(lines, line, name, Credit);
  }

  /** `accountBalances.get(name) || 0`. */
  function Lookup(balances: map<string, real>, name: string): real
  {
    if name in balances then balances[name] else 0.0
  }

  /** The P&L map after folding `done`: every name reads as its P&L balance. */
  ghost predicate PLState(done: seq<JournalLine>, accounts: seq<Account>, balances: map<string, real>)
  {
    forall n :: Lookup(balances, n) == PLBalanceOf(done, accounts, n)
  }

  /** The body of the inner `forEach` of `calculateProfitLoss`: a line of a
      REVENUE or EXPENSE account adds to that name's balance; other lines are
      skipped. */
  method PLPostLine(line: JournalLine, ghost done: seq<JournalLine>, accounts: seq<Account>,
                    balances0: map<string, real>)
    returns (balances: map<string, real>)
    requires PLState(done, accounts, balances0)
    ensures PLState(done + [line], accounts, balances)
  {
    balances := balances0;
    var account := FindAccount(accounts, line.accountName);
    if account.Some? {
      var existing := Lookup(balances, line.accountName);
      if account.value.accountType == REVENUE {
        balances := balances[line.accountName := existing + line.credit - line.debit];
      } else if account.value.accountType == EXPENSE {
        balances := balances[line.accountName := existing + line.debit - line.credit];
      }
    }
    forall n ensures Lookup(balances, n) == PLBalanceOf(done + [line], accounts, n) {
      PLBalanceSnoc(done, line, accounts, n);
    }
  }

  /** The inner `forEach` of `calculateProfitLoss`. */
  method AddToProfitLoss(lines: seq<JournalLine>, ghost done: seq<JournalLine>, accounts: seq<Account>,
                         balances0: map<string, real>)
    returns (balances: map<string, real>)
    requires PLState(done, accounts, balances0)
    ensures PLState(done + lines, accounts, balances)
  {
    balances := balances0;
    var j := 0;
    assert done + lines[..0] == done;
    while j < |lines|
      invariant 0 <= j <= |lines|
      invariant PLState(done + lines[..j], accounts, balances)
    {
      balances := PLPostLine(lines[j], done + lines[..j], accounts, balances);
      assert done + lines[..j] + [lines[j]] == done + lines[..j + 1];
      j := j + 1;
    }
    assert lines[..j] == lines;
  }

  /** The second half of `calculateProfitLoss`: scan the accounts, push the
      nonzero balances and total them. */
  method ListProfitLoss(ghost lines: seq<JournalLine>, accounts: seq<Account>, balances: map<string, real>)
    returns (pl: ProfitLossData)
    requires PLState(lines, accounts, balances)
    ensures pl == ProfitLossOf(lines, accounts)
  {
    var revenue: seq<Item> := [];
    var expenses: seq<Item> := [];
    var k := 0;
    while k < |accounts|
      invariant 0 <= k <= |accounts|
      invariant revenue == PLItems(lines, accounts, accounts[..k], REVENUE)
      invariant expenses == PLItems(lines, accounts, accounts[..k], EXPENSE)
    {
      var account := accounts[k];
      assert accounts[..k + 1][..k] == accounts[..k];
      var balance := Lookup(balances, account.name);
      if balance != 0.0 {
        if account.accountType == REVENUE {
          revenue := revenue + [Item(account.name, balance)];
        } else if account.accountType == EXPENSE {
          expenses := expenses + [Item(account.name, balance)];
        }
      }
      k := k + 1;
    }
    assert accounts[..k] == accounts;
    var totalRevenue := ItemsTotal(revenue);
    var totalExpenses := ItemsTotal(expenses);
    pl := ProfitLossData(revenue, expenses, totalRevenue, totalExpenses, totalRevenue - totalExpenses);
  }

  /** `calculateProfitLoss`. */
  method CalculateProfitLoss(entries: seq<JournalEntry>, accounts: seq<Account>) returns (pl: ProfitLossData)
    ensures pl == ProfitLossOf(AllLines(entries), accounts)
  {
    var balances: map<string, real> := map[];
    var i := 0;
    assert AllLines(entries[..0]) == [];
    while i < |entries|
      invariant 0 <= i <= |entries|
      invariant PLState(AllLines(entries[..i]), accounts, balances)
    {
      balances := AddToProfitLoss(entries[i].lines, AllLines(entries[..i]), accounts, balances);
      AllLinesSnoc(entries, i);
      i := i + 1;
    }
    assert entries[..i] == entries;
    pl := ListProfitLoss(AllLines(entries), accounts, balances);
  }

  // ----------------------------------------------------------------------
  // Balance sheet

  /** The balance of an account name under the normal-balance sign rule,
      using the type of the first account with that name; lines naming no
      account are skipped. */
  function BSBalanceOf(lines: seq<JournalLine>, accounts: seq<Account>, name: string): real
  {
    match FindAccount(accounts, name)
    case None => 0.0
    case Some(a) => SignedChange(a.accountType, AmountOf(lines, name, Debit), AmountOf(lines, name, Credit))
  }

  lemma BSBalanceSnoc(lines: seq<JournalLine>, line: JournalLine, accounts: seq<Account>, name: string)
    ensures BSBalanceOf(lines + [line], accounts, name)
         == BSBalanceOf(lines, accounts, name)
            + (if line.accountName != name then 0.0
               else match FindAccount(accounts, name)
                 case None => 0.0
                 case Some(a) => SignedChange(a.accountType, line.debit, line.credit))
  {
    AmountOfSnoc(lines, line, name, Debit);
    AmountOfSnoc(lines, line, name, Credit);
  }

  /** The sections of the balance sheet; `NotListed` for revenue, expense and
      unknown types. */
  datatype Section = CurrentAsset | NonCurrentAsset | CurrentLiability | LongTermLiability | EquitySection | NotListed

  /** The name-based classifier: an ASSET is current when its lower-cased
      name contains "cash", "receivable" or "inventory"; a LIABILITY is
      current when it contains "payable" or "accrued"; EQUITY is one flat
      section; every other type is not listed. */
  function Classify(accountType: string, name: string): (s: Section)
    ensures s in {CurrentAsset, NonCurrentAsset} <==> accountType == ASSET
    ensures s in {CurrentLiability, LongTermLiability} <==> accountType == LIABILITY
    ensures s == EquitySection <==> accountType == EQUITY
    ensures s == NotListed <==> !(accountType in {ASSET, LIABILITY, EQUITY})
  {
    var lower := ToLower(name);
    if accountType == ASSET then
      if Includes(lower, "cash") || Includes(lower, "receivable") || Includes(lower, "inventory")
      then CurrentAsset else NonCurrentAsset
    else if accountType == LIABILITY then
      if Includes(lower, "payable") || Includes(lower, "accrued")
      then CurrentLiability else LongTermLiability
    else if accountType == EQUITY then EquitySection
    else NotListed
  }

  /** The items section `s` lists, scanning `accs` in order: accounts the
      classifier puts in `s` whose balance is exactly nonzero. */
  function SectionItems(lines: seq<JournalLine>, all: seq<Account>, accs: seq<Account>, s: Section): (r: seq<Item>)
    ensures forall k :: 0 <= k < |r| ==> r[k].amount != 0.0
    ensures forall k :: 0 <= k < |r| ==> r[k].amount == BSBalanceOf(lines, all, r[k].name)
    ensures forall k :: 0 <= k < |r| ==>
      exists i :: 0 <= i < |accs| && accs[i].name == r[k].name
                  && Classify(accs[i].accountType, accs[i].name) == s
  {
    if accs == [] then []
    else
      var a := accs[|accs| - 1];
      var init := accs[..|accs| - 1];
      var bal := BSBalanceOf(lines, all, a.name);
      var r := SectionItems(lines, all, init, s)
        + (if bal != 0.0 && Classify(a.accountType, a.name) == s then [Item(a.name, bal)] else []);
      assert forall i :: 0 <= i < |init| ==> init[i] == accs[i];
      r
  }

  /** The balance sheet listed from the accounts `accs`, scanned in order. */
  function SheetUpTo(lines: seq<JournalLine>, all: seq<Account>, accs: seq<Account>): BalanceSheetData
  {
    BalanceSheetData(
      Assets(SectionItems(lines, all, accs, CurrentAsset),
             SectionItems(lines, all, accs, NonCurrentAsset)),
      Liabilities(SectionItems(lines, all, accs, CurrentLiability),
                  SectionItems(lines, all, accs, LongTermLiability)),
      SectionItems(lines, all, accs, EquitySection))
  }

  function BalanceSheetOf(lines: seq<JournalLine>, accounts: seq<Account>): BalanceSheetData
  {
    SheetUpTo(lines, accounts, accounts)
  }

  /** `push` of `item` onto the array of section `s`. */
  function Place(bs: BalanceSheetData, s: Section, item: Item): BalanceSheetData
  {
    match s
    case CurrentAsset => bs.(assets := bs.assets.(current := bs.assets.current + [item]))
    case NonCurrentAsset => bs.(assets := bs.assets.(nonCurrent := bs.assets.nonCurrent + [item]))
    case CurrentLiability => bs.(liabilities := bs.liabilities.(current := bs.liabilities.current + [item]))
    case LongTermLiability => bs.(liabilities := bs.liabilities.(longTerm := bs.liabilities.longTerm + [item]))
    case EquitySection => bs.(equity := bs.equity + [item])
    case NotListed => bs
  }

  /** One more account scanned: its item goes to the section the classifier
      picks when its balance is nonzero. */
  lemma SheetStep(lines: seq<JournalLine>, all: seq<Account>, accs: seq<Account>)
    requires accs != []
    ensures SheetUpTo(lines, all, accs) ==
      var a := accs[|accs| - 1];
      var bal := BSBalanceOf(lines, all, a.name);
      var before := SheetUpTo(lines, all, accs[..|accs| - 1]);
      if bal != 0.0 then Place(before, Classify(a.accountType, a.name), Item(a.name, bal)) else before
  {
  }

  /** The balance-sheet map after folding `done`: every name reads as its
      balance under the sign rule. */
  ghost predicate BSState(done: seq<JournalLine>, accounts: seq<Account>, balances: map<string, real>)
  {
    forall n :: Lookup(balances, n) == BSBalanceOf(done, accounts, n)
  }

  /** The body of the inner `forEach` of `calculateBalanceSheet`: a line of a
      known account adds its signed change to that name's balance. */
  method BSPostLine(line: JournalLine, ghost done: seq<JournalLine>, accounts: seq<Account>,
                    balances0: map<string, real>)
    returns (balances: map<string, real>)
    requires BSState(done, accounts, balances0)
    ensures BSState(done + [line], accounts, balances)
  {
    balances := balances0;
    var account := FindAccount(accounts, line.accountName);
    if account.Some? {
      var existing := Lookup(balances, line.accountName);
      if account.value.accountType == ASSET || account.value.accountType == EXPENSE {
        balances := balances[line.accountName := existing + line.debit - line.credit];
      } else {
        balances := balances[line.accountName := existing + line.credit - line.debit];
      }
    }
    forall n ensures Lookup(balances, n) == BSBalanceOf(done + [line], accounts, n) {
      BSBalanceSnoc(done, line, accounts, n);
    }
  }

  /** The inner `forEach` of `calculateBalanceSheet`. */
  method AddToBalanceSheet(lines: seq<JournalLine>, ghost done: seq<JournalLine>, accounts: seq<Account>,
                           balances0: map<string, real>)
    returns (balances: map<string, real>)
    requires BSState(done, accounts, balances0)
    ensures BSState(done + lines, accounts, balances)
  {
    balances := balances0;
    var j := 0;
    assert done + lines[..0] == done;
    while j < |lines|
      invariant 0 <= j <= |lines|
      invariant BSState(done + lines[..j], accounts, balances)
    {
      balances := BSPostLine(lines[j], done + lines[..j], accounts, balances);
      assert done + lines[..j] + [lines[j]] == done + lines[..j + 1];
      j := j + 1;
    }
    assert lines[..j] == lines;
  }

  /** The second half of `calculateBalanceSheet`: scan the accounts and push
      each nonzero balance into the section the classifier picks. */
  method ListBalanceSheet(ghost lines: seq<JournalLine>, accounts: seq<Account>, balances: map<string, real>)
    returns (bs: BalanceSheetData)
    requires BSState(lines, accounts, balances)
    ensures bs == BalanceSheetOf(lines, accounts)
  {
    var currentAssets: seq<Item> := [];
    var nonCurrentAssets: seq<Item> := [];
    var currentLiabilities: seq<Item> := [];
    var longTermLiabilities: seq<Item> := [];
    var equity: seq<Item> := [];
    var k := 0;
    while k < |accounts|
      invariant 0 <= k <= |accounts|
      invariant BalanceSheetData(Assets(currentAssets, nonCurrentAssets),
                                 Liabilities(currentLiabilities, longTermLiabilities), equity)
                == SheetUpTo(lines, accounts, accounts[..k])
    {
      var account := accounts[k];
      var balance := Lookup(balances, account.name);
      var section := Classify(account.accountType, account.name);
      assert accounts[..k + 1][..k] == accounts[..k];
      SheetStep(lines, accounts, accounts[..k + 1]);
      if balance != 0.0 {
        if section == CurrentAsset {
          currentAssets := currentAssets + [Item(account.name, balance)];
        } else if section == NonCurrentAsset {
          nonCurrentAssets := nonCurrentAssets + [Item(account.name, balance)];
        } else if section == CurrentLiability {
          currentLiabilities := currentLiabilities + [Item(account.name, balance)];
        } else if section == LongTermLiability {
          longTermLiabilities := longTermLiabilities + [Item(account.name, balance)];
        } else if section == EquitySection {
          equity := equity + [Item(account.name, balance)];
        }
      }
      k := k + 1;
    }
    assert accounts[..k] == accounts;
    bs := BalanceSheetData(Assets(currentAssets, nonCurrentAssets),
                           Liabilities(currentLiabilities, longTermLiabilities), equity);
  }

  /** `calculateBalanceSheet`. */
  method CalculateBalanceSheet(entries: seq<JournalEntry>, accounts: seq<Account>) returns (bs: BalanceSheetData)
    ensures bs == BalanceSheetOf(AllLines(entries), accounts)
  {
    var balances: map<string, real> := map[];
    var i := 0;
    assert AllLines(entries[..0]) == [];
    while i < |entries|
      invariant 0 <= i <= |entries|
      invariant BSState(AllLines(entries[..i]), accounts, balances)
    {
      balances := AddToBalanceSheet(entries[i].lines, AllLines(entries[..i]), accounts, balances);
      AllLinesSnoc(entries, i);
      i := i + 1;
    }
    assert entries[..i] == entries;
    bs := ListBalanceSheet(AllLines(entries), accounts, balances);
  }
}
