/** The trial balance page's own fold: a net presentation in which each
    account's signed balance is split into a debit or a credit column.
    The account's type comes from the first fetched line for that name and
    defaults to ASSET; lines fetched from the store carry no type at all. */
module TrialBalancePage {
  import opened Ledger
  import opened Seqs
  import opened JournalUtils

  /** A journal line as the page receives it: the amounts are whatever the
      JSON held, and the type field is present only if the line has one. */
  datatype FetchedLine = FetchedLine(accountName: string, accountType: Option<string>, debit: RawAmount, credit: RawAmount)

  datatype AccountBalance = AccountBalance(account: string, balance: real, accountType: string)

  /** `line.accountType || "ASSET"`: a missing or empty type counts as ASSET. */
  function TypeOrAsset(t: Option<string>): (r: string)
    ensures t.Some? && t.value != "" ==> r == t.value
    ensures t.None? || t.value == "" ==> r == ASSET
  {
    match t
    case Some(s) => if s != "" then s else ASSET
    case None => ASSET
  }

  /** The lines of all fetched entries, entry by entry. */
  function Flatten(entries: seq<seq<FetchedLine>>): seq<FetchedLine>
  {
    if entries == [] then [] else Flatten(entries[..|entries| - 1]) + entries[|entries| - 1]
  }

  /** The account names the lines carry, in order. */
  function Names(lines: seq<FetchedLine>): (names: seq<string>)
    ensures |names| == |lines|
    ensures forall i :: 0 <= i < |lines| ==> names[i] == lines[i].accountName
  {
    LineNames(Stored(lines))
  }

  predicate Mentions(lines: seq<FetchedLine>, name: string)
  {
    exists i :: 0 <= i < |lines| && lines[i].accountName == name
  }

  /** The type the page settles on for `name`: that of the first line naming
      it (ASSET when that line has none). */
  function FirstTypeOf(lines: seq<FetchedLine>, name: string): (t: string)
    ensures Mentions(lines, name) ==>
      exists i :: 0 <= i < |lines| && lines[i].accountName == name
                  && (forall j :: 0 <= j < i ==> lines[j].accountName != name)
                  && t == TypeOrAsset(lines[i].accountType)
  {
    if lines == [] then ASSET
    else
      var init := lines[..|lines| - 1];
      var last := lines[|lines| - 1];
      assert forall j :: 0 <= j < |init| ==> init[j] == lines[j];
      if Mentions(init, name) then FirstTypeOf(init, name)
      else if last.accountName == name then TypeOrAsset(last.accountType)
      else ASSET
  }

  /** Σ of the signed changes, under type `t`, of the lines naming `name`;
      a non-numeric amount counts as 0. */
  function SignedSum(lines: seq<FetchedLine>, name: string, t: string): real
  {
    if lines == [] then 0.0
    else
      var last := lines[|lines| - 1];
      SignedSum(lines[..|lines| - 1], name, t)
      + (if last.accountName == name then SignedChange(t, NumberOrZero(last.debit), NumberOrZero(last.credit)) else 0.0)
  }

  /** The net balance of `name`: its lines signed by its settled type. */
  function NetBalanceOf(lines: seq<FetchedLine>, name: string): real
  {
    SignedSum(lines, name, FirstTypeOf(lines, name))
  }

  /** Debits minus credits of the lines naming `name`. */
  function NetDebit(lines: seq<FetchedLine>, name: string): real
  {
    if lines == [] then 0.0
    else
      var last := lines[|lines| - 1];
      NetDebit(lines[..|lines| - 1], name)
      + (if last.accountName == name then NumberOrZero(last.debit) - NumberOrZero(last.credit) else 0.0)
  }

  /** The signed sum is the net debit, negated for credit-normal types. */
  lemma {:induction false} SignedSumIsNetDebit(lines: seq<FetchedLine>, name: string, t: string)
    ensures SignedSum(lines, name, t) == if IsDebitNormal(t) then NetDebit(lines, name) else -NetDebit(lines, name)
  {
    if lines != [] {
      SignedSumIsNetDebit(lines[..|lines| - 1], name, t);
    }
  }

  /** The row an account balance becomes: a positive balance goes to the
      type's normal side, a negative one to the other side. */
  function RowFor(ab: AccountBalance): (row: TrialBalanceItem)
    ensures row.account == ab.account
    ensures row.debit >= 0.0 && row.credit >= 0.0
    ensures row.debit == 0.0 || row.credit == 0.0
    ensures IsDebitNormal(ab.accountType) ==> row.debit - row.credit == ab.balance
    ensures !IsDebitNormal(ab.accountType) ==> row.credit - row.debit == ab.balance
  {
    if IsDebitNormal(ab.accountType) then
      TrialBalanceItem(ab.account, if ab.balance > 0.0 then ab.balance else 0.0,
                       if ab.balance < 0.0 then -ab.balance else 0.0)
    else
      TrialBalanceItem(ab.account, if ab.balance < 0.0 then -ab.balance else 0.0,
                       if ab.balance > 0.0 then ab.balance else 0.0)
  }

  function BalanceFor(lines: seq<FetchedLine>, name: string): AccountBalance
  {
    AccountBalance(name, NetBalanceOf(lines, name), FirstTypeOf(lines, name))
  }

  /** `|balance| > 0.01`, the page's test for listing an account. */
  predicate Listed(balance: real)
  {
    balance > 0.01 || balance < -0.01
  }

  /** The rows for `names`, in their order, of the accounts that are listed. */
  function RowsFor(lines: seq<FetchedLine>, names: seq<string>): (rows: seq<TrialBalanceItem>)
    ensures forall k :: 0 <= k < |rows| ==>
      exists i :: 0 <= i < |names| && rows[k] == RowFor(BalanceFor(lines, names[i]))
                  && Listed(NetBalanceOf(lines, names[i]))
  {
    if names == [] then []
    else
      var init := names[..|names| - 1];
      var last := names[|names| - 1];
      assert forall i :: 0 <= i < |init| ==> init[i] == names[i];
      RowsFor(lines, init) + (if Listed(NetBalanceOf(lines, last)) then [RowFor(BalanceFor(lines, last))] else [])
  }

  /** The net trial balance of the fetched lines: one row per distinct
      account name, in first-appearance order, for the listed accounts. */
  function NetTrialBalance(lines: seq<FetchedLine>): seq<TrialBalanceItem>
  {
    RowsFor(lines, Dedup(Names(lines)))
  }

  /** The page's Map after folding `done`. */
  ghost predicate NetState(done: seq<FetchedLine>, order: seq<string>, balances: map<string, AccountBalance>)
  {
    && order == Dedup(Names(done))
    && (forall n :: n in balances <==> n in order)
    && (forall n :: n in balances ==> balances[n] == BalanceFor(done, n))
  }

  lemma {:induction false} SignedSumUnmentioned(lines: seq<FetchedLine>, name: string, t: string)
    requires !Mentions(lines, name)
    ensures SignedSum(lines, name, t) == 0.0
  {
    if lines != [] {
      var init := lines[..|lines| - 1];
      assert forall j :: 0 <= j < |init| ==> init[j] == lines[j];
      SignedSumUnmentioned(init, name, t);
    }
  }

  lemma NamesListed(lines: seq<FetchedLine>, name: string)
    ensures name in Dedup(Names(lines)) <==> Mentions(lines, name)
  {
    DedupElements(Names(lines));
    if Mentions(lines, name) {
      var i :| 0 <= i < |lines| && lines[i].accountName == name;
      assert Names(lines)[i] == name;
    }
  }

  /** The names of one more line: the old names and that line's name. */
  lemma NamesSnoc(done: seq<FetchedLine>, line: FetchedLine)
    ensures Names(done + [line]) == Names(done) + [line.accountName]
  {
    assert Names(done + [line])[..|done|] == Names(done);
  }

  /** One line of the fold keeps the key order the first-appearance order of
      the names, and the keys of the Map those names. */
  lemma NetKeysStep(done: seq<FetchedLine>, line: FetchedLine,
                    order0: seq<string>, balances0: map<string, AccountBalance>,
                    order: seq<string>, balances: map<string, AccountBalance>)
    requires order0 == Dedup(Names(done))
    requires forall n :: n in balances0 <==> n in order0
    requires order == if line.accountName in balances0 then order0 else order0 + [line.accountName]
    requires forall n :: n in balances <==> n in balances0 || n == line.accountName
    ensures order == Dedup(Names(done + [line]))
    ensures forall n :: n in balances <==> n in order
  {
    NamesSnoc(done, line);
    DedupSnoc(Names(done), line.accountName);
  }

  /** One more line changes only the balance of its own account: that one
      gains the signed change under the type settled for it. */
  lemma NetBalanceStep(done: seq<FetchedLine>, line: FetchedLine, n: string)
    ensures n != line.accountName ==> BalanceFor(done + [line], n) == BalanceFor(done, n)
    ensures n == line.accountName ==>
      var existing := if Mentions(done, n) then BalanceFor(done, n)
                      else AccountBalance(n, 0.0, TypeOrAsset(line.accountType));
      BalanceFor(done + [line], n) == existing.(balance := existing.balance
        + SignedChange(existing.accountType, NumberOrZero(line.debit), NumberOrZero(line.credit)))
  {
    var after := done + [line];
    assert after[..|after| - 1] == done;
    if n == line.accountName && !Mentions(done, n) {
      SignedSumUnmentioned(done, n, TypeOrAsset(line.accountType));
    }
  }

  /** One line of the fold keeps every entry of the Map the balance of its
      name over the lines folded so far. */
  lemma NetSumsStep(done: seq<FetchedLine>, line: FetchedLine,
                    balances0: map<string, AccountBalance>, balances: map<string, AccountBalance>)
    requires forall n :: n in balances0 ==> balances0[n] == BalanceFor(done, n)
    requires line.accountName in balances0 <==> Mentions(done, line.accountName)
    requires var existing := if line.accountName in balances0 then balances0[line.accountName]
                             else AccountBalance(line.accountName, 0.0, TypeOrAsset(line.accountType));
      balances == balances0[line.accountName :=
        existing.(balance := existing.balance
                   + SignedChange(existing.accountType, NumberOrZero(line.debit), NumberOrZero(line.credit)))]
    ensures forall n :: n in balances ==> balances[n] == BalanceFor(done + [line], n)
  {
    forall n | n in balances
      ensures balances[n] == BalanceFor(done + [line], n)
    {
      NetBalanceStep(done, line, n);
    }
  }

  /** One line of the fold: the balance of its account gains the signed
      change under the account's settled type. */
  lemma NetStateStep(done: seq<FetchedLine>, line: FetchedLine,
                     order0: seq<string>, balances0: map<string, AccountBalance>,
                     order: seq<string>, balances: map<string, AccountBalance>)
    requires NetState(done, order0, balances0)
    requires order == if line.accountName in balances0 then order0 else order0 + [line.accountName]
    requires var existing := if line.accountName in balances0 then balances0[line.accountName]
                             else AccountBalance(line.accountName, 0.0, TypeOrAsset(line.accountType));
      balances == balances0[line.accountName :=
        existing.(balance := existing.balance
                   + SignedChange(existing.accountType, NumberOrZero(line.debit), NumberOrZero(line.credit)))]
    ensures NetState(done + [line], order, balances)
  {
    NamesListed(done, line.accountName);
    NetKeysStep(done, line, order0, balances0, order, balances);
    NetSumsStep(done, line, balances0, balances);
  }

  /** `processTrialBalanceData`. */
  method ProcessTrialBalanceData(entries: seq<seq<FetchedLine>>) returns (rows: seq<TrialBalanceItem>)
    ensures rows == NetTrialBalance(Flatten(entries))
  {
    var balances: map<string, AccountBalance> := map[];
    var order: seq<string> := [];
    var i := 0;
    while i < |entries|
      invariant 0 <= i <= |entries|
      invariant NetState(Flatten(entries[..i]), order, balances)
    {
      order, balances := AddToNetBalances(entries[i], Flatten(entries[..i]), order, balances);
      assert entries[..i + 1][..i] == entries[..i];
      i := i + 1;
    }
    assert entries[..i] == entries;
    rows := ListNetRows(Flatten(entries), order, balances);
  }

  /** The second half of `processTrialBalanceData`: the Map's values in key
      order, those with `|balance| > 0.01` turned into rows. */
  method ListNetRows(ghost all: seq<FetchedLine>, order: seq<string>, balances: map<string, AccountBalance>)
    returns (rows: seq<TrialBalanceItem>)
    requires forall n :: n in order ==> n in balances && balances[n] == BalanceFor(all, n)
    ensures rows == RowsFor(all, order)
  {
    rows := [];
    var k := 0;
    while k < |order|
      invariant 0 <= k <= |order|
      invariant rows == RowsFor(all, order[..k])
    {
      assert order[..k + 1][..k] == order[..k];
      var account := balances[order[k]];
      if account.balance > 0.01 || account.balance < -0.01 {
        rows := rows + [RowFor(account)];
      }
      k := k + 1;
    }
    assert order[..k] == order;
  }

  /** The inner `forEach` of `processTrialBalanceData`. */
  method AddToNetBalances(lines: seq<FetchedLine>, ghost done: seq<FetchedLine>,
                          order0: seq<string>, balances0: map<string, AccountBalance>)
    returns (order: seq<string>, balances: map<string, AccountBalance>)
    requires NetState(done, order0, balances0)
    ensures NetState(done + lines, order, balances)
  {
    order, balances := order0, balances0;
    var j := 0;
    assert done + lines[..j] == done;
    while j < |lines|
      invariant 0 <= j <= |lines|
      invariant NetState(done + lines[..j], order, balances)
    {
      order, balances := PostLine(lines[j], done + lines[..j], order, balances);
      assert done + lines[..j + 1] == done + lines[..j] + [lines[j]];
      j := j + 1;
    }
    assert lines[..j] == lines;
  }

  /** The body of the inner `forEach`: one line updates its account's entry,
      creating it with the line's type (or ASSET) on first sight. */
  method PostLine(line: FetchedLine, ghost done: seq<FetchedLine>,
                  order0: seq<string>, balances0: map<string, AccountBalance>)
    returns (order: seq<string>, balances: map<string, AccountBalance>)
    requires NetState(done, order0, balances0)
    ensures NetState(done + [line], order, balances)
  {
    var existing := if line.accountName in balances0 then balances0[line.accountName]
                    else AccountBalance(line.accountName, 0.0, TypeOrAsset(line.accountType));
    ghost var start := existing;
    var debit := NumberOrZero(line.debit);
    var credit := NumberOrZero(line.credit);
    if existing.accountType == ASSET || existing.accountType == EXPENSE {
      existing := existing.(balance := existing.balance + (debit - credit));
    } else {
      existing := existing.(balance := existing.balance + (credit - debit));
    }
    assert existing == start.(balance := start.balance + SignedChange(start.accountType, debit, credit));
    order := if line.accountName in balances0 then order0 else order0 + [line.accountName];
    balances := balances0[line.accountName := existing];
    NetStateStep(done, line, order0, balances0, order, balances);
  }

  // ----------------------------------------------------------------------
  // Properties of the net trial balance

  /** An account gets a row iff some line names it and its net balance
      exceeds 0.01 in absolute value; its row is its balance split by type,
      and no account gets two rows. */
  lemma NetTrialBalanceRows(lines: seq<FetchedLine>)
    ensures forall name :: (exists k :: 0 <= k < |NetTrialBalance(lines)| && NetTrialBalance(lines)[k].account == name)
                           <==> Mentions(lines, name) && Listed(NetBalanceOf(lines, name))
    ensures forall k :: 0 <= k < |NetTrialBalance(lines)| ==>
      NetTrialBalance(lines)[k] == RowFor(BalanceFor(lines, NetTrialBalance(lines)[k].account))
    ensures forall a, b :: 0 <= a < b < |NetTrialBalance(lines)| ==>
      NetTrialBalance(lines)[a].account != NetTrialBalance(lines)[b].account
  {
    var names := Dedup(Names(lines));
    DedupElements(Names(lines));
    RowsForDistinct(lines, names);
    forall name {
      NetTrialBalanceRow(lines, name);
    }
  }

  lemma NetTrialBalanceRow(lines: seq<FetchedLine>, name: string)
    ensures (exists k :: 0 <= k < |NetTrialBalance(lines)| && NetTrialBalance(lines)[k].account == name)
            <==> Mentions(lines, name) && Listed(NetBalanceOf(lines, name))
  {
    var names := Dedup(Names(lines));
    var rows := RowsFor(lines, names);
    assert rows == NetTrialBalance(lines);
    NamesListed(lines, name);
    if exists k :: 0 <= k < |rows| && rows[k].account == name {
      var k :| 0 <= k < |rows| && rows[k].account == name;
      RowsForSound(lines, names);
      assert name in names;
    }
    if Mentions(lines, name) && Listed(NetBalanceOf(lines, name)) {
      RowsForComplete(lines, names, name);
    }
  }

  lemma {:induction false} RowsForSound(lines: seq<FetchedLine>, names: seq<string>)
    ensures forall k :: 0 <= k < |RowsFor(lines, names)| ==>
      RowsFor(lines, names)[k].account in names && Listed(NetBalanceOf(lines, RowsFor(lines, names)[k].account))
  {
    forall k | 0 <= k < |RowsFor(lines, names)|
      ensures RowsFor(lines, names)[k].account in names
      ensures Listed(NetBalanceOf(lines, RowsFor(lines, names)[k].account))
    {
      var i :| 0 <= i < |names| && RowsFor(lines, names)[k] == RowFor(BalanceFor(lines, names[i]))
               && Listed(NetBalanceOf(lines, names[i]));
    }
  }

  lemma {:induction false} RowsForDistinct(lines: seq<FetchedLine>, names: seq<string>)
    requires NoDuplicates(names)
    ensures forall a, b :: 0 <= a < b < |RowsFor(lines, names)| ==>
      RowsFor(lines, names)[a].account != RowsFor(lines, names)[b].account
    ensures forall k :: 0 <= k < |RowsFor(lines, names)| ==> RowsFor(lines, names)[k].account in names
  {
    if names != [] {
      var init := names[..|names| - 1];
      assert forall i :: 0 <= i < |init| ==> init[i] == names[i];
      RowsForDistinct(lines, init);
      var r := RowsFor(lines, init);
      assert forall k :: 0 <= k < |r| ==> r[k].account in init;
      assert names[|names| - 1] !in init;
    }
  }

  lemma {:induction false} RowsForComplete(lines: seq<FetchedLine>, names: seq<string>, name: string)
    requires name in names && Listed(NetBalanceOf(lines, name))
    ensures exists k :: 0 <= k < |RowsFor(lines, names)| && RowsFor(lines, names)[k].account == name
  {
    var init := names[..|names| - 1];
    if names[|names| - 1] == name {
      assert RowsFor(lines, names)[|RowsFor(lines, names)| - 1].account == name;
    } else {
      assert name in init;
      RowsForComplete(lines, init, name);
      var k :| 0 <= k < |RowsFor(lines, init)| && RowsFor(lines, init)[k].account == name;
      assert RowsFor(lines, names)[k] == RowsFor(lines, init)[k];
    }
  }

  /** Whatever type an account settles on, its row shows the net debit in
      the debit column when positive and its negation in the credit column
      when negative: the presentation does not depend on the type. */
  lemma RowIsTypeIndependent(lines: seq<FetchedLine>, name: string)
    ensures RowFor(BalanceFor(lines, name)).debit
            == if NetDebit(lines, name) > 0.0 then NetDebit(lines, name) else 0.0
    ensures RowFor(BalanceFor(lines, name)).credit
            == if NetDebit(lines, name) < 0.0 then -NetDebit(lines, name) else 0.0
    ensures Listed(NetBalanceOf(lines, name)) <==> Listed(NetDebit(lines, name))
  {
    SignedSumIsNetDebit(lines, name, FirstTypeOf(lines, name));
  }

  /** Lines as the store returns them carry no type, so every account is
      signed as an ASSET. */
  lemma StoredLinesAreAssets(lines: seq<FetchedLine>, name: string)
    requires forall i :: 0 <= i < |lines| ==> lines[i].accountType.None?
    ensures FirstTypeOf(lines, name) == ASSET
    ensures NetBalanceOf(lines, name) == NetDebit(lines, name)
  {
    SignedSumIsNetDebit(lines, name, FirstTypeOf(lines, name));
  }

  // ----------------------------------------------------------------------
  // Totals

  function TotalDebits(rows: seq<TrialBalanceItem>): real
  {
    ItemsSideTotal(rows, Debit)
  }

  function TotalCredits(rows: seq<TrialBalanceItem>): real
  {
    ItemsSideTotal(rows, Credit)
  }

  /** `Math.abs(totalDebits - totalCredits) < 0.01`. */
  predicate IsBalanced(rows: seq<TrialBalanceItem>)
  {
    -0.01 < TotalDebits(rows) - TotalCredits(rows) < 0.01
  }

  /** Three stored lines of one exactly balanced entry: a two-cent debit to
      Cash against one-cent credits to two revenue accounts. */
  function CentLines(): seq<FetchedLine>
  {
    [FetchedLine("Cash", None, Numeric(0.02), Numeric(0.0)),
     FetchedLine("Sales Revenue", None, Numeric(0.0), Numeric(0.01)),
     FetchedLine("Service Revenue", None, Numeric(0.0), Numeric(0.01))]
  }

  lemma CentNamesDistinct()
    ensures "Sales Revenue" != "Cash" && "Service Revenue" != "Cash" && "Service Revenue" != "Sales Revenue"
  {
    assert "Sales Revenue"[0] != "Cash"[0] && "Service Revenue"[0] != "Cash"[0];
    assert "Service Revenue"[1] != "Sales Revenue"[1];
  }

  lemma CentOrder()
    ensures Dedup(Names(CentLines())) == ["Cash", "Sales Revenue", "Service Revenue"]
  {
    CentNamesDistinct();
    var names := Names(CentLines());
    assert names == ["Cash", "Sales Revenue", "Service Revenue"];
    assert Dedup(names[..1]) == ["Cash"];
    assert names[..2][..1] == names[..1];
    assert Dedup(names[..2]) == ["Cash", "Sales Revenue"];
    assert names[..3][..2] == names[..2] && names[..3] == names;
  }

  lemma CentBalances()
    ensures NetDebit(CentLines(), "Cash") == 0.02
    ensures NetDebit(CentLines(), "Sales Revenue") == -0.01
    ensures NetDebit(CentLines(), "Service Revenue") == -0.01
  {
    CentNamesDistinct();
    var lines := CentLines();
    assert lines[..2][..1] == lines[..1] && lines[..3] == lines;
    assert NetDebit(lines[..1], "Cash") == 0.02;
    assert NetDebit(lines[..2], "Cash") == 0.02;
    assert NetDebit(lines[..1], "Sales Revenue") == 0.0;
    assert NetDebit(lines[..2], "Sales Revenue") == -0.01;
    assert NetDebit(lines[..1], "Service Revenue") == 0.0;
    assert NetDebit(lines[..2], "Service Revenue") == 0.0;
  }

  /** The stored lines debit and credit two cents each. */
  lemma CentTotals()
    ensures Total(Stored(CentLines()), Debit) == 0.02
    ensures Total(Stored(CentLines()), Credit) == 0.02
  {
    var stored := Stored(CentLines());
    assert stored[..2][..1] == stored[..1] && stored[..3] == stored;
    assert stored[..1][..0] == [];
    assert Total(stored[..1], Debit) == 0.02 && Total(stored[..1], Credit) == 0.0;
    assert Total(stored[..2], Debit) == 0.02 && Total(stored[..2], Credit) == 0.01;
  }

  /** Only Cash is listed: the two revenue accounts sit at the threshold. */
  lemma CentRows()
    ensures NetTrialBalance(CentLines()) == [TrialBalanceItem("Cash", 0.02, 0.0)]
  {
    var lines := CentLines();
    CentOrder();
    CentBalances();
    StoredLinesAreAssets(lines, "Cash");
    StoredLinesAreAssets(lines, "Sales Revenue");
    StoredLinesAreAssets(lines, "Service Revenue");
    var names := ["Cash", "Sales Revenue", "Service Revenue"];
    assert names[..2][..1] == names[..1] && names[..3] == names;
    assert RowsFor(lines, names[..1]) == [TrialBalanceItem("Cash", 0.02, 0.0)];
    assert RowsFor(lines, names[..2]) == [TrialBalanceItem("Cash", 0.02, 0.0)];
  }

  /** A journal that balances exactly can still show as unbalanced: the two
      one-cent credits are each at the 0.01 threshold and get no row, while
      the two-cent debit they balance does. */
  lemma DroppedCentsUnbalance()
    ensures Total(Stored(CentLines()), Debit) == Total(Stored(CentLines()), Credit)
    ensures NetTrialBalance(CentLines()) == [TrialBalanceItem("Cash", 0.02, 0.0)]
    ensures !IsBalanced(NetTrialBalance(CentLines()))
  {
    CentTotals();
    CentRows();
    var rows := [TrialBalanceItem("Cash", 0.02, 0.0)];
    assert rows[..0] == [];
  }

  /** The fetched lines as journal lines, amounts read with `Number(x) || 0`
      (the line description plays no part here). */
  function Stored(lines: seq<FetchedLine>): (r: seq<JournalLine>)
    ensures |r| == |lines|
    ensures forall i :: 0 <= i < |lines| ==>
      r[i] == JournalLine(lines[i].accountName, "", NumberOrZero(lines[i].debit), NumberOrZero(lines[i].credit))
  {
    seq(|lines|, i requires 0 <= i < |lines| =>
      JournalLine(lines[i].accountName, "", NumberOrZero(lines[i].debit), NumberOrZero(lines[i].credit)))
  }
}
