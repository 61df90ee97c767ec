/** The default chart of accounts a new company is seeded with, and what
    the reports make of it. */
module DefaultChart {
  import opened Ledger
  import opened Text
  import opened JournalUtils

  datatype ChartAccount = ChartAccount(code: string, name: string, accountType: string)

  /** The nineteen default accounts, in seeding order. */
  function DefaultAccounts(): seq<ChartAccount>
  {
    [ChartAccount("1000", "Cash", ASSET),
     ChartAccount("1100", "Accounts Receivable", ASSET),
     ChartAccount("1200", "Inventory", ASSET),
     ChartAccount("1500", "Equipment", ASSET),
     ChartAccount("1600", "Accumulated Depreciation - Equipment", ASSET),
     ChartAccount("2000", "Accounts Payable", LIABILITY),
     ChartAccount("2100", "Accrued Expenses", LIABILITY),
     ChartAccount("2500", "Long-term Debt", LIABILITY),
     ChartAccount("3000", "Owner's Equity", EQUITY),
     ChartAccount("3100", "Retained Earnings", EQUITY),
     ChartAccount("4000", "Sales Revenue", REVENUE),
     ChartAccount("4100", "Service Revenue", REVENUE),
     ChartAccount("5000", "Cost of Goods Sold", EXPENSE),
     ChartAccount("6000", "Salaries Expense", EXPENSE),
     ChartAccount("6100", "Rent Expense", EXPENSE),
     ChartAccount("6200", "Utilities Expense", EXPENSE),
     ChartAccount("6300", "Office Supplies Expense", EXPENSE),
     ChartAccount("6400", "Insurance Expense", EXPENSE),
     ChartAccount("6500", "Depreciation Expense", EXPENSE)]
  }

  /** The stored account the seeding creates for one chart entry: no
      subcategory, no parent, active. */
  function NewAccount(id: string, companyId: string, c: ChartAccount): (a: Account)
    ensures a.companyId == companyId && a.code == c.code && a.name == c.name && a.accountType == c.accountType
    ensures a.subcategory.None? && a.parentId.None? && a.isActive
  {
    Account(id, companyId, c.code, c.name, c.accountType, None, None, true)
  }

  /** The first two characters of a code, as one number. */
  function CodeKey(code: string): int
  {
    if |code| >= 2 then code[0] as int * 65536 + code[1] as int else 0
  }

  /** Keys that rise from each account to the next rise across the list. */
  lemma {:induction false} KeysIncrease(c: seq<ChartAccount>)
    requires forall i :: 0 <= i < |c| - 1 ==> CodeKey(c[i].code) < CodeKey(c[i + 1].code)
    ensures forall i, j :: 0 <= i < j < |c| ==> CodeKey(c[i].code) < CodeKey(c[j].code)
  {
    if |c| > 1 {
      var init := c[..|c| - 1];
      assert forall i :: 0 <= i < |init| ==> init[i] == c[i];
      KeysIncrease(init);
      forall i, j | 0 <= i < j < |c| ensures CodeKey(c[i].code) < CodeKey(c[j].code) {
        if j < |c| - 1 {
          assert CodeKey(init[i].code) < CodeKey(init[j].code);
        } else if i < j - 1 {
          assert CodeKey(init[i].code) < CodeKey(init[j - 1].code);
        }
      }
    }
  }

  /** The default codes rise in the first two digits, account by account. */
  lemma DefaultKeysRise()
    ensures forall i :: 0 <= i < |DefaultAccounts()| - 1 ==>
      CodeKey(DefaultAccounts()[i].code) < CodeKey(DefaultAccounts()[i + 1].code)
  {
  }

  /** Nineteen accounts, pairwise distinct codes, every type valid. */
  lemma DefaultChartShape()
    ensures |DefaultAccounts()| == 19
    ensures forall i, j :: 0 <= i < j < |DefaultAccounts()| ==> DefaultAccounts()[i].code != DefaultAccounts()[j].code
    ensures forall i :: 0 <= i < |DefaultAccounts()| ==> IsAccountType(DefaultAccounts()[i].accountType)
  {
    DefaultKeysRise();
    KeysIncrease(DefaultAccounts());
  }

  /** Every one of the five types has at least one default account. */
  lemma DefaultChartCoversTypes()
    ensures forall t :: IsAccountType(t) ==>
      exists i :: 0 <= i < |DefaultAccounts()| && DefaultAccounts()[i].accountType == t
  {
    var c := DefaultAccounts();
    assert c[0].accountType == ASSET && c[5].accountType == LIABILITY && c[8].accountType == EQUITY;
    assert c[10].accountType == REVENUE && c[12].accountType == EXPENSE;
  }

  /** Cash, Accounts Receivable and Inventory are current assets. */
  lemma DefaultCurrentAssets()
    ensures Classify(ASSET, "Cash") == CurrentAsset
    ensures Classify(ASSET, "Accounts Receivable") == CurrentAsset
    ensures Classify(ASSET, "Inventory") == CurrentAsset
  {
    assert OccursAt(ToLower("Cash"), "cash", 0);
    assert OccursAt(ToLower("Accounts Receivable"), "receivable", 9);
    assert OccursAt(ToLower("Inventory"), "inventory", 0);
  }

  /** Equipment and its accumulated depreciation are non-current assets. */
  lemma DefaultNonCurrentAssets()
    ensures Classify(ASSET, "Equipment") == NonCurrentAsset
    ensures Classify(ASSET, "Accumulated Depreciation - Equipment") == NonCurrentAsset
  {
    EquipmentNonCurrent();
    DepreciationNonCurrent();
  }

  lemma EquipmentNonCurrent()
    ensures Classify(ASSET, "Equipment") == NonCurrentAsset
  {
    var e := "Equipment";
    LowerLacks(e, 'c');
    LowerLacks(e, 'r');
    LowerLacks(e, 'v');
    MissingCharExcludes(ToLower(e), "cash", 0);
    MissingCharExcludes(ToLower(e), "receivable", 0);
    MissingCharExcludes(ToLower(e), "inventory", 2);
  }

  lemma DepreciationLacksH()
    ensures 'h' !in "Accumulated Depreciation - Equipment" && 'H' !in "Accumulated Depreciation - Equipment"
  {
  }

  lemma DepreciationLacksV()
    ensures 'v' !in "Accumulated Depreciation - Equipment" && 'V' !in "Accumulated Depreciation - Equipment"
  {
  }

  lemma DepreciationNonCurrent()
    ensures Classify(ASSET, "Accumulated Depreciation - Equipment") == NonCurrentAsset
  {
    var d := "Accumulated Depreciation - Equipment";
    DepreciationLacksH();
    DepreciationLacksV();
    LowerLacks(d, 'h');
    LowerLacks(d, 'v');
    MissingCharExcludes(ToLower(d), "cash", 3);
    MissingCharExcludes(ToLower(d), "receivable", 5);
    MissingCharExcludes(ToLower(d), "inventory", 2);
  }

  /** Accounts Payable and Accrued Expenses are current liabilities; the
      long-term debt is long-term. */
  lemma DefaultLiabilities()
    ensures Classify(LIABILITY, "Accounts Payable") == CurrentLiability
    ensures Classify(LIABILITY, "Accrued Expenses") == CurrentLiability
    ensures Classify(LIABILITY, "Long-term Debt") == LongTermLiability
  {
    assert OccursAt(ToLower("Accounts Payable"), "payable", 9);
    assert OccursAt(ToLower("Accrued Expenses"), "accrued", 0);
    var d := ToLower("Long-term Debt");
    MissingCharExcludes(d, "payable", 0);
    MissingCharExcludes(d, "accrued", 0);
  }
}
