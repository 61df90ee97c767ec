/** The database tables the library functions and API routes read and
    write: accounts, journal entries, their lines and company memberships,
    with the queries and updates of the shared library. Identifiers that
    the database generates are passed in by the caller. */
module Store {
  import opened Ledger
  import opened Text
  import opened Sorting
  import opened DefaultChart
  import opened Seqs

  datatype Membership = Membership(userId: string, companyId: string, role: string)

  /** A row of the journal-entry table; its lines live in their own table. */
  datatype EntryRow = EntryRow(
    id: string, companyId: string, userId: string, date: int, description: string, reference: string)

  /** A row of the journal-line table, tied to its entry by `journalEntryId`. */
  datatype LineRow = LineRow(
    journalEntryId: string, accountName: string, description: string, debit: real, credit: real)

  // ----------------------------------------------------------------------
  // Journal lines

  /** The rows `createJournalEntry` inserts for the lines of entry `id`. */
  function LineRowsFor(id: string, ls: seq<JournalLine>): (r: seq<LineRow>)
    ensures |r| == |ls|
    ensures forall k :: 0 <= k < |r| ==> r[k].journalEntryId == id
  {
    seq(|ls|, k requires 0 <= k < |ls| =>
      LineRow(id, ls[k].accountName, ls[k].description, ls[k].debit, ls[k].credit))
  }

  /** The lines of entry `id`, in table order. */
  function LinesOf(table: seq<LineRow>, id: string): seq<JournalLine>
  {
    if table == [] then []
    else
      var row := table[|table| - 1];
      LinesOf(table[..|table| - 1], id)
      + (if row.journalEntryId == id
         then [JournalLine(row.accountName, row.description, row.debit, row.credit)] else [])
  }

  lemma {:induction false} LinesOfAppend(t1: seq<LineRow>, t2: seq<LineRow>, id: string)
    ensures LinesOf(t1 + t2, id) == LinesOf(t1, id) + LinesOf(t2, id)
  {
    if t2 == [] {
      assert t1 + t2 == t1;
    } else {
      assert (t1 + t2)[..|t1 + t2| - 1] == t1 + t2[..|t2| - 1];
      LinesOfAppend(t1, t2[..|t2| - 1], id);
    }
  }

  lemma {:induction false} LinesOfNone(table: seq<LineRow>, id: string)
    requires forall k :: 0 <= k < |table| ==> table[k].journalEntryId != id
    ensures LinesOf(table, id) == []
  {
    if table != [] {
      LinesOfNone(table[..|table| - 1], id);
    }
  }

  lemma {:induction false} LinesOfOwnRows(id: string, ls: seq<JournalLine>)
    ensures LinesOf(LineRowsFor(id, ls), id) == ls
  {
    if ls != [] {
      var init := ls[..|ls| - 1];
      assert LineRowsFor(id, ls)[..|ls| - 1] == LineRowsFor(id, init);
      LinesOfOwnRows(id, init);
    }
  }

  /** Creating an entry under an unused identifier and reading it back
      gives the posted lines, in the posted order, field for field; the
      lines read back for every other entry are as before. */
  lemma CreatedLinesRoundTrip(table: seq<LineRow>, id: string, ls: seq<JournalLine>, other: string)
    requires forall k :: 0 <= k < |table| ==> table[k].journalEntryId != id
    ensures LinesOf(table + LineRowsFor(id, ls), id) == ls
    ensures other != id ==> LinesOf(table + LineRowsFor(id, ls), other) == LinesOf(table, other)
  {
    LinesOfAppend(table, LineRowsFor(id, ls), id);
    LinesOfNone(table, id);
    LinesOfOwnRows(id, ls);
    if other != id {
      LinesOfAppend(table, LineRowsFor(id, ls), other);
      LinesOfNone(LineRowsFor(id, ls), other);
    }
  }

  // ----------------------------------------------------------------------
  // Journal entries

  /** An entry row together with its lines, as the queries return it. */
  function Assemble(e: EntryRow, table: seq<LineRow>): JournalEntry
  {
    JournalEntry(e.id, e.companyId, e.date, e.description, e.reference, LinesOf(table, e.id))
  }

  /** The company's entries in table order, each with its lines. */
  function CompanyEntries(es: seq<EntryRow>, table: seq<LineRow>, companyId: string): (r: seq<JournalEntry>)
    ensures |r| <= |es|
    ensures forall k :: 0 <= k < |r| ==> r[k].companyId == companyId
    ensures forall k :: 0 <= k < |r| ==> exists i :: 0 <= i < |es| && r[k] == Assemble(es[i], table)
    ensures forall i :: 0 <= i < |es| && es[i].companyId == companyId ==> Assemble(es[i], table) in r
  {
    if es == [] then []
    else
      var init := es[..|es| - 1];
      var e := es[|es| - 1];
      assert forall i :: 0 <= i < |init| ==> init[i] == es[i];
      CompanyEntries(init, table, companyId) + (if e.companyId == companyId then [Assemble(e, table)] else [])
  }

  /** The test `companyId` of the entry query's `where`. */
  function RowOfCompany(companyId: string): EntryRow -> bool
  {
    (e: EntryRow) => e.companyId == companyId
  }

  /** Each row assembled with its lines, in order. */
  function AssembleAll(rows: seq<EntryRow>, table: seq<LineRow>): (r: seq<JournalEntry>)
    ensures |r| == |rows|
    ensures forall i :: 0 <= i < |rows| ==> r[i] == Assemble(rows[i], table)
  {
    seq(|rows|, i requires 0 <= i < |rows| => Assemble(rows[i], table))
  }

  lemma {:induction false} CompanyEntriesKept(es: seq<EntryRow>, table: seq<LineRow>, companyId: string)
    ensures CompanyEntries(es, table, companyId) == AssembleAll(Kept(es, RowOfCompany(companyId)), table)
  {
    if es != [] {
      var init := es[..|es| - 1];
      CompanyEntriesKept(init, table, companyId);
      var kept := Kept(init, RowOfCompany(companyId));
      var e := es[|es| - 1];
      var tail := if e.companyId == companyId then [e] else [];
      assert Kept(es, RowOfCompany(companyId)) == kept + tail;
      assert AssembleAll(kept + tail, table) == AssembleAll(kept, table) + AssembleAll(tail, table);
    }
  }

  /** The company's entries are its rows filtered from the table in table
      order, one entry per row, each assembled with its lines. */
  lemma CompanyEntriesOnePerRow(es: seq<EntryRow>, table: seq<LineRow>, companyId: string)
    ensures CompanyEntries(es, table, companyId) == AssembleAll(Filter(es, RowOfCompany(companyId)), table)
    ensures |CompanyEntries(es, table, companyId)| == CountIf(es, RowOfCompany(companyId))
  {
    CompanyEntriesKept(es, table, companyId);
    FilterIsKept(es, RowOfCompany(companyId));
  }

  predicate NewestFirst(a: JournalEntry, b: JournalEntry)
  {
    a.date >= b.date
  }

  /** `getJournalEntries`: the company's entries, newest first. The database
      leaves the order of entries with the same date open; the model fixes
      it as their table order. */
  function JournalEntriesOf(es: seq<EntryRow>, table: seq<LineRow>, companyId: string): seq<JournalEntry>
  {
    SortBy(CompanyEntries(es, table, companyId), NewestFirst)
  }

  /** The listing holds exactly the company's entries, each once per row,
      ordered by descending date. */
  lemma JournalEntriesListing(es: seq<EntryRow>, table: seq<LineRow>, companyId: string)
    ensures multiset(JournalEntriesOf(es, table, companyId)) == multiset(CompanyEntries(es, table, companyId))
    ensures forall i, j :: 0 <= i < j < |JournalEntriesOf(es, table, companyId)| ==>
      JournalEntriesOf(es, table, companyId)[i].date >= JournalEntriesOf(es, table, companyId)[j].date
    ensures forall e :: e in JournalEntriesOf(es, table, companyId) ==> e.companyId == companyId
  {
    var listed := CompanyEntries(es, table, companyId);
    assert TotalPreorder(NewestFirst);
    SortByPermutation(listed, NewestFirst);
    SortBySorted(listed, NewestFirst);
    forall e | e in JournalEntriesOf(es, table, companyId) ensures e.companyId == companyId {
      assert e in multiset(listed);
    }
  }

  /** The entry rows other than `id`, in order. */
  function EntriesWithout(es: seq<EntryRow>, id: string): (r: seq<EntryRow>)
    ensures |r| <= |es|
    ensures forall e :: e in r <==> e in es && e.id != id
  {
    if es == [] then []
    else
      var init := es[..|es| - 1];
      var e := es[|es| - 1];
      assert es == init + [e];
      EntriesWithout(init, id) + (if e.id != id then [e] else [])
  }

  /** The test `(e) => e.id !== id`. */
  function EntryIdNot(id: string): EntryRow -> bool
  {
    (e: EntryRow) => e.id != id
  }

  /** Deleting an entry row filters the table: the remaining rows keep
      their order, and every other row stays as often as it occurred. */
  lemma {:induction false} EntriesWithoutFiltered(es: seq<EntryRow>, id: string)
    ensures EntriesWithout(es, id) == Filter(es, EntryIdNot(id))
    ensures forall e :: multiset(EntriesWithout(es, id))[e] == if e.id != id then multiset(es)[e] else 0
  {
    if es != [] {
      EntriesWithoutFiltered(es[..|es| - 1], id);
      FilterIsKept(es[..|es| - 1], EntryIdNot(id));
    }
    FilterIsKept(es, EntryIdNot(id));
    FilterMultiset(es, EntryIdNot(id));
  }

  /** The line rows that do not belong to entry `id`, in order. */
  function LinesWithout(table: seq<LineRow>, id: string): (r: seq<LineRow>)
    ensures |r| <= |table|
    ensures forall l :: l in r <==> l in table && l.journalEntryId != id
  {
    if table == [] then []
    else
      var init := table[..|table| - 1];
      var l := table[|table| - 1];
      assert table == init + [l];
      LinesWithout(init, id) + (if l.journalEntryId != id then [l] else [])
  }

  /** The test `journalEntryId !== id`. */
  function LineEntryNot(id: string): LineRow -> bool
  {
    (l: LineRow) => l.journalEntryId != id
  }

  /** Deleting an entry's line rows filters the table: the remaining rows
      keep their order, and every other row stays as often as it occurred. */
  lemma {:induction false} LinesWithoutFiltered(table: seq<LineRow>, id: string)
    ensures LinesWithout(table, id) == Filter(table, LineEntryNot(id))
    ensures forall l :: multiset(LinesWithout(table, id))[l]
                     == if l.journalEntryId != id then multiset(table)[l] else 0
  {
    if table != [] {
      LinesWithoutFiltered(table[..|table| - 1], id);
      FilterIsKept(table[..|table| - 1], LineEntryNot(id));
    }
    FilterIsKept(table, LineEntryNot(id));
    FilterMultiset(table, LineEntryNot(id));
  }

  /** Removing rows of another entry leaves the lines of an entry as they were. */
  lemma {:induction false} LinesWithoutKeepsOthers(table: seq<LineRow>, id: string, other: string)
    requires other != id
    ensures LinesOf(LinesWithout(table, id), other) == LinesOf(table, other)
  {
    if table != [] {
      var init := table[..|table| - 1];
      var l := table[|table| - 1];
      LinesWithoutKeepsOthers(init, id, other);
      var kept := LinesWithout(init, id);
      if l.journalEntryId != id {
        assert LinesWithout(table, id) == kept + [l];
        assert (kept + [l])[..|kept + [l]| - 1] == kept;
      } else {
        assert LinesWithout(table, id) == kept;
      }
    }
  }

  // ----------------------------------------------------------------------
  // Accounts

  /** The position of an account type in the database's enum, which lists
      the five types in declaration order. */
  function TypeRank(t: string): (r: nat)
    ensures r < 5 <==> IsAccountType(t)
    ensures forall i :: 0 <= i < |AccountTypes| && AccountTypes[i] == t ==> r == i
  {
    if t == ASSET then 0
    else if t == LIABILITY then 1
    else if t == EQUITY then 2
    else if t == REVENUE then 3
    else if t == EXPENSE then 4
    else 5
  }

  /** `orderBy: [{ type: "asc" }, { code: "asc" }]`, with the codes compared
      by character code in place of the database's collation. */
  predicate ByTypeThenCode(a: Account, b: Account)
  {
    TypeRank(a.accountType) < TypeRank(b.accountType)
    || (TypeRank(a.accountType) == TypeRank(b.accountType) && LessEq(a.code, b.code))
  }

  lemma ByTypeThenCodeIsTotalPreorder()
    ensures TotalPreorder(ByTypeThenCode)
  {
    forall a: Account, b: Account ensures ByTypeThenCode(a, b) || ByTypeThenCode(b, a) {
      LessEqTotal(a.code, b.code);
    }
    forall a: Account, b: Account, c: Account | ByTypeThenCode(a, b) && ByTypeThenCode(b, c)
      ensures ByTypeThenCode(a, c)
    {
      if LessEq(a.code, b.code) && LessEq(b.code, c.code) {
        LessEqTransitive(a.code, b.code, c.code);
      }
    }
  }

  /** The company's active accounts, in table order. */
  function ActiveOf(accs: seq<Account>, companyId: string): (r: seq<Account>)
    ensures |r| <= |accs|
    ensures forall a :: a in r <==> a in accs && a.companyId == companyId && a.isActive
  {
    if accs == [] then []
    else
      var init := accs[..|accs| - 1];
      var a := accs[|accs| - 1];
      assert accs == init + [a];
      ActiveOf(init, companyId) + (if a.companyId == companyId && a.isActive then [a] else [])
  }

  /** The test of the account query's `where`: the company's, and active. */
  function ActiveIn(companyId: string): Account -> bool
  {
    (a: Account) => a.companyId == companyId && a.isActive
  }

  /** The company's active accounts are the table filtered by that test:
      table order, and every such row as often as it occurs. */
  lemma {:induction false} ActiveOfFiltered(accs: seq<Account>, companyId: string)
    ensures ActiveOf(accs, companyId) == Filter(accs, ActiveIn(companyId))
    ensures forall a :: multiset(ActiveOf(accs, companyId))[a]
                     == if a.companyId == companyId && a.isActive then multiset(accs)[a] else 0
  {
    if accs != [] {
      ActiveOfFiltered(accs[..|accs| - 1], companyId);
      FilterIsKept(accs[..|accs| - 1], ActiveIn(companyId));
    }
    FilterIsKept(accs, ActiveIn(companyId));
    FilterMultiset(accs, ActiveIn(companyId));
  }

  /** `getCompanyAccounts`: the company's active accounts by type, then code. */
  function CompanyAccountsOf(accs: seq<Account>, companyId: string): seq<Account>
  {
    SortBy(ActiveOf(accs, companyId), ByTypeThenCode)
  }

  /** The listing is a reordering of the company's active accounts, sorted
      by type rank and then by code. */
  lemma CompanyAccountsListing(accs: seq<Account>, companyId: string)
    ensures multiset(CompanyAccountsOf(accs, companyId)) == multiset(ActiveOf(accs, companyId))
    ensures forall a :: a in CompanyAccountsOf(accs, companyId)
                        <==> a in accs && a.companyId == companyId && a.isActive
    ensures forall i, j :: 0 <= i < j < |CompanyAccountsOf(accs, companyId)| ==>
      ByTypeThenCode(CompanyAccountsOf(accs, companyId)[i], CompanyAccountsOf(accs, companyId)[j])
  {
    var active := ActiveOf(accs, companyId);
    ByTypeThenCodeIsTotalPreorder();
    SortByPermutation(active, ByTypeThenCode);
    SortBySorted(active, ByTypeThenCode);
    forall a ensures a in CompanyAccountsOf(accs, companyId) <==> a in active {
      assert a in CompanyAccountsOf(accs, companyId) <==> a in multiset(CompanyAccountsOf(accs, companyId));
    }
  }

  /** Some account of the company already uses `code`. */
  predicate CodeTaken(accs: seq<Account>, companyId: string, code: string)
  {
    exists i :: 0 <= i < |accs| && accs[i].companyId == companyId && accs[i].code == code
  }

  /** The `(companyId, code)` unique constraint of the account table. */
  predicate CodesUnique(accs: seq<Account>)
  {
    forall i, j :: 0 <= i < j < |accs| ==>
      !(accs[i].companyId == accs[j].companyId && accs[i].code == accs[j].code)
  }

  /** Appending an account whose code its company does not use yet keeps
      the constraint. */
  lemma AppendFreshCode(accs: seq<Account>, a: Account)
    requires CodesUnique(accs) && !CodeTaken(accs, a.companyId, a.code)
    ensures CodesUnique(accs + [a])
  {
    var after := accs + [a];
    forall i, j | 0 <= i < j < |after|
      ensures !(after[i].companyId == after[j].companyId && after[i].code == after[j].code)
    {
      if j == |accs| {
        assert after[i] == accs[i];
      } else {
        assert after[i] == accs[i] && after[j] == accs[j];
      }
    }
  }

  /** `findFirst({ id, companyId })` on the journal-entry table. */
  function FindEntry(es: seq<EntryRow>, id: string, companyId: string): (r: Option<EntryRow>)
    ensures r.None? <==> forall i :: 0 <= i < |es| ==> !(es[i].id == id && es[i].companyId == companyId)
    ensures r.Some? ==> r.value in es && r.value.id == id && r.value.companyId == companyId
  {
    FindFirst(es, (e: EntryRow) => e.id == id && e.companyId == companyId)
  }

  /** `findFirst({ id, companyId })` on the account table. */
  function FindAccountById(accs: seq<Account>, id: string, companyId: string): (r: Option<Account>)
    ensures r.None? <==> forall i :: 0 <= i < |accs| ==> !(accs[i].id == id && accs[i].companyId == companyId)
    ensures r.Some? ==> r.value in accs && r.value.id == id && r.value.companyId == companyId
  {
    FindFirst(accs, (a: Account) => a.id == id && a.companyId == companyId)
  }

  /** The membership of `userId` in `companyId`, if any. */
  function FindMembership(ms: seq<Membership>, userId: string, companyId: string): (r: Option<Membership>)
    ensures r.None? <==> forall i :: 0 <= i < |ms| ==> !(ms[i].userId == userId && ms[i].companyId == companyId)
    ensures r.Some? ==> r.value in ms && r.value.userId == userId && r.value.companyId == companyId
  {
    FindFirst(ms, (m: Membership) => m.userId == userId && m.companyId == companyId)
  }

  /** Whether a membership lets its holder post, create and delete. */
  predicate MayWrite(m: Option<Membership>)
  {
    m.Some? && CanWrite(m.value.role)
  }

  /** The account table without the row `id`. */
  function AccountsWithout(accs: seq<Account>, id: string): (r: seq<Account>)
    ensures |r| <= |accs|
    ensures forall a :: a in r <==> a in accs && a.id != id
  {
    if accs == [] then []
    else
      var init := accs[..|accs| - 1];
      var a := accs[|accs| - 1];
      assert accs == init + [a];
      AccountsWithout(init, id) + (if a.id != id then [a] else [])
  }

  /** The test `id !== accountId`. */
  function AccountIdNot(id: string): Account -> bool
  {
    (a: Account) => a.id != id
  }

  /** Deleting an account row filters the table: exactly the rows with that
      id go, and every other row stays, as often as it occurred and in
      order. */
  lemma {:induction false} AccountsWithoutFiltered(accs: seq<Account>, id: string)
    ensures AccountsWithout(accs, id) == Filter(accs, AccountIdNot(id))
    ensures forall a :: multiset(AccountsWithout(accs, id))[a] == if a.id != id then multiset(accs)[a] else 0
  {
    if accs != [] {
      AccountsWithoutFiltered(accs[..|accs| - 1], id);
      FilterIsKept(accs[..|accs| - 1], AccountIdNot(id));
    }
    FilterIsKept(accs, AccountIdNot(id));
    FilterMultiset(accs, AccountIdNot(id));
  }

  // ----------------------------------------------------------------------
  // Seeding the default chart

  /** The account table after `chart` has been offered to `createAccount`
      entry by entry, each under its own generated identifier: an entry
      whose code the company already uses fails and is skipped. */
  function Seeded(accs: seq<Account>, companyId: string, chart: seq<ChartAccount>, ids: seq<string>): seq<Account>
    requires |ids| == |chart|
  {
    if chart == [] then accs
    else
      var before := Seeded(accs, companyId, chart[..|chart| - 1], ids[..|ids| - 1]);
      var c := chart[|chart| - 1];
      if CodeTaken(before, companyId, c.code) then before
      else before + [NewAccount(ids[|ids| - 1], companyId, c)]
  }

  /** Offering the chart's next account: it is added unless its code is
      already in use in the company. */
  lemma SeededSnoc(accs: seq<Account>, companyId: string, chart: seq<ChartAccount>, ids: seq<string>, i: int)
    requires |ids| == |chart| && 0 <= i < |chart|
    ensures var before := Seeded(accs, companyId, chart[..i], ids[..i]);
      Seeded(accs, companyId, chart[..i + 1], ids[..i + 1])
        == if CodeTaken(before, companyId, chart[i].code) then before
           else before + [NewAccount(ids[i], companyId, chart[i])]
  {
    assert chart[..i + 1][..i] == chart[..i] && ids[..i + 1][..i] == ids[..i];
  }

  /** Seeding only appends. */
  lemma {:induction false} SeededExtends(accs: seq<Account>, companyId: string,
                                         chart: seq<ChartAccount>, ids: seq<string>)
    requires |ids| == |chart|
    ensures accs <= Seeded(accs, companyId, chart, ids)
  {
    if chart != [] {
      SeededExtends(accs, companyId, chart[..|chart| - 1], ids[..|ids| - 1]);
    }
  }

  /** After seeding, every chart code is in use in the company. */
  lemma {:induction false} SeededCovers(accs: seq<Account>, companyId: string,
                                        chart: seq<ChartAccount>, ids: seq<string>)
    requires |ids| == |chart|
    ensures forall i :: 0 <= i < |chart| ==> CodeTaken(Seeded(accs, companyId, chart, ids), companyId, chart[i].code)
  {
    if chart != [] {
      var init := chart[..|chart| - 1];
      var initIds := ids[..|ids| - 1];
      var before := Seeded(accs, companyId, init, initIds);
      var c := chart[|chart| - 1];
      var after := Seeded(accs, companyId, chart, ids);
      SeededCovers(accs, companyId, init, initIds);
      forall i | 0 <= i < |chart| ensures CodeTaken(after, companyId, chart[i].code) {
        if i < |init| {
          assert chart[i] == init[i];
          var j :| 0 <= j < |before| && before[j].companyId == companyId && before[j].code == init[i].code;
          assert after[j] == before[j];
        } else if !CodeTaken(before, companyId, c.code) {
          assert after[|after| - 1] == NewAccount(ids[|ids| - 1], companyId, c);
        }
      }
    }
  }

  /** Every row seeding adds is a chart account of this company under its
      own identifier. */
  lemma {:induction false} SeededOrigin(accs: seq<Account>, companyId: string,
                                        chart: seq<ChartAccount>, ids: seq<string>)
    requires |ids| == |chart|
    ensures forall k :: |accs| <= k < |Seeded(accs, companyId, chart, ids)| ==>
      exists i :: 0 <= i < |chart| && Seeded(accs, companyId, chart, ids)[k] == NewAccount(ids[i], companyId, chart[i])
  {
    if chart != [] {
      var init := chart[..|chart| - 1];
      var initIds := ids[..|ids| - 1];
      var before := Seeded(accs, companyId, init, initIds);
      var c := chart[|chart| - 1];
      var after := Seeded(accs, companyId, chart, ids);
      SeededOrigin(accs, companyId, init, initIds);
      SeededExtends(accs, companyId, init, initIds);
      assert before <= after;
      forall k | |accs| <= k < |after|
        ensures exists i :: 0 <= i < |chart| && after[k] == NewAccount(ids[i], companyId, chart[i])
      {
        if k < |before| {
          var i :| 0 <= i < |init| && before[k] == NewAccount(initIds[i], companyId, init[i]);
          assert initIds[i] == ids[i] && init[i] == chart[i];
          assert after[k] == NewAccount(ids[i], companyId, chart[i]);
        } else {
          var i := |chart| - 1;
          assert after[k] == NewAccount(ids[i], companyId, chart[i]);
        }
      }
    } else {
      assert Seeded(accs, companyId, chart, ids) == accs;
    }
  }

  /** Seeding only appends, only chart accounts of this company, and
      afterwards every chart code is in use in the company. */
  lemma SeededKeepsAndCovers(accs: seq<Account>, companyId: string,
                             chart: seq<ChartAccount>, ids: seq<string>)
    requires |ids| == |chart|
    ensures accs <= Seeded(accs, companyId, chart, ids)
    ensures forall i :: 0 <= i < |chart| ==> CodeTaken(Seeded(accs, companyId, chart, ids), companyId, chart[i].code)
    ensures forall k :: |accs| <= k < |Seeded(accs, companyId, chart, ids)| ==>
      exists i :: 0 <= i < |chart| && Seeded(accs, companyId, chart, ids)[k] == NewAccount(ids[i], companyId, chart[i])
  {
    SeededExtends(accs, companyId, chart, ids);
    SeededCovers(accs, companyId, chart, ids);
    SeededOrigin(accs, companyId, chart, ids);
  }

  /** Seeding a company that already uses every chart code changes nothing;
      with the previous lemma, seeding twice is the same as seeding once. */
  lemma {:induction false} SeededNothingNew(accs: seq<Account>, companyId: string,
                                            chart: seq<ChartAccount>, ids: seq<string>)
    requires |ids| == |chart|
    requires forall i :: 0 <= i < |chart| ==> CodeTaken(accs, companyId, chart[i].code)
    ensures Seeded(accs, companyId, chart, ids) == accs
  {
    if chart != [] {
      SeededNothingNew(accs, companyId, chart[..|chart| - 1], ids[..|ids| - 1]);
    }
  }

  /** Seeding a company that uses none of the chart's distinct codes adds
      every chart account, in chart order. */
  lemma {:induction false} SeededFresh(accs: seq<Account>, companyId: string,
                                       chart: seq<ChartAccount>, ids: seq<string>)
    requires |ids| == |chart|
    requires forall i :: 0 <= i < |chart| ==> !CodeTaken(accs, companyId, chart[i].code)
    requires forall i, j :: 0 <= i < j < |chart| ==> chart[i].code != chart[j].code
    ensures |Seeded(accs, companyId, chart, ids)| == |accs| + |chart|
    ensures forall i :: 0 <= i < |chart| ==>
      Seeded(accs, companyId, chart, ids)[|accs| + i] == NewAccount(ids[i], companyId, chart[i])
  {
    if chart != [] {
      var init := chart[..|chart| - 1];
      var initIds := ids[..|ids| - 1];
      var before := Seeded(accs, companyId, init, initIds);
      var c := chart[|chart| - 1];
      SeededFresh(accs, companyId, init, initIds);
      forall i | 0 <= i < |init| ensures init[i].code != c.code {
        assert init[i] == chart[i];
      }
      SeededLeavesCodeFree(accs, companyId, init, initIds, c.code);
      var after := Seeded(accs, companyId, chart, ids);
      assert after == before + [NewAccount(ids[|ids| - 1], companyId, c)];
      forall i | 0 <= i < |chart| ensures after[|accs| + i] == NewAccount(ids[i], companyId, chart[i]) {
        if i < |init| {
          assert initIds[i] == ids[i] && init[i] == chart[i];
          assert before[|accs| + i] == NewAccount(initIds[i], companyId, init[i]);
          assert after[|accs| + i] == before[|accs| + i];
        } else {
          assert i == |chart| - 1 && |accs| + i == |before|;
        }
      }
    }
  }

  /** A code that neither the table nor the chart uses stays unused. */
  lemma SeededLeavesCodeFree(accs: seq<Account>, companyId: string,
                             chart: seq<ChartAccount>, ids: seq<string>, code: string)
    requires |ids| == |chart|
    requires !CodeTaken(accs, companyId, code)
    requires forall i :: 0 <= i < |chart| ==> chart[i].code != code
    ensures !CodeTaken(Seeded(accs, companyId, chart, ids), companyId, code)
  {
    var after := Seeded(accs, companyId, chart, ids);
    SeededExtends(accs, companyId, chart, ids);
    SeededOrigin(accs, companyId, chart, ids);
    forall j | 0 <= j < |after| && after[j].companyId == companyId ensures after[j].code != code {
      if j < |accs| {
        assert after[j] == accs[j];
      } else {
        var i :| 0 <= i < |chart| && after[j] == NewAccount(ids[i], companyId, chart[i]);
      }
    }
  }

  /** Seeding keeps the `(companyId, code)` constraint. */
  lemma {:induction false} SeededKeepsCodesUnique(accs: seq<Account>, companyId: string,
                                                  chart: seq<ChartAccount>, ids: seq<string>)
    requires |ids| == |chart| && CodesUnique(accs)
    ensures CodesUnique(Seeded(accs, companyId, chart, ids))
  {
    if chart != [] {
      var init := chart[..|chart| - 1];
      var initIds := ids[..|ids| - 1];
      SeededKeepsCodesUnique(accs, companyId, init, initIds);
      var before := Seeded(accs, companyId, init, initIds);
      var c := chart[|chart| - 1];
      if !CodeTaken(before, companyId, c.code) {
        AppendFreshCode(before, NewAccount(ids[|ids| - 1], companyId, c));
      }
    }
  }

  /** A company that had no accounts ends up with the nineteen default
      accounts, in order, all active. */
  lemma NewCompanySeeded(accs: seq<Account>, companyId: string, ids: seq<string>)
    requires |ids| == |DefaultAccounts()|
    requires forall k :: 0 <= k < |accs| ==> accs[k].companyId != companyId
    ensures |Seeded(accs, companyId, DefaultAccounts(), ids)| == |accs| + 19
    ensures forall i :: 0 <= i < 19 ==>
      Seeded(accs, companyId, DefaultAccounts(), ids)[|accs| + i] == NewAccount(ids[i], companyId, DefaultAccounts()[i])
  {
    DefaultChartShape();
    SeededFresh(accs, companyId, DefaultAccounts(), ids);
  }

  datatype DeleteEntryError = EntryNotFound | InsufficientPermissions

  class Database {
    var accounts: seq<Account>
    var entries: seq<EntryRow>
    var lines: seq<LineRow>
    var memberships: seq<Membership>

    constructor ()
      ensures accounts == [] && entries == [] && lines == [] && memberships == []
    {
      accounts := [];
      entries := [];
      lines := [];
      memberships := [];
    }

    /** `checkUserCompanyAccess`. */
    function Access(userId: string, companyId: string): (r: Option<Membership>)
      reads this
      ensures r.Some? ==> r.value in memberships && r.value.userId == userId && r.value.companyId == companyId
      ensures r.None? ==> forall m :: m in memberships ==> !(m.userId == userId && m.companyId == companyId)
    {
      FindMembership(memberships, userId, companyId)
    }

    /** `createJournalEntry`: one entry row and one line row per posted line,
        in the posted order; nothing else changes. */
    method CreateJournalEntry(id: string, companyId: string, userId: string, date: int,
                              description: string, reference: string, ls: seq<JournalLine>)
      returns (e: JournalEntry)
      modifies this
      ensures entries == old(entries) + [EntryRow(id, companyId, userId, date, description, reference)]
      ensures lines == old(lines) + LineRowsFor(id, ls)
      ensures accounts == old(accounts) && memberships == old(memberships)
      ensures (forall k :: 0 <= k < |old(lines)| ==> old(lines)[k].journalEntryId != id) ==>
        e == Assemble(entries[|entries| - 1], lines)
    {
      entries := entries + [EntryRow(id, companyId, userId, date, description, reference)];
      ghost var before := lines;
      lines := lines + LineRowsFor(id, ls);
      e := JournalEntry(id, companyId, date, description, reference, ls);
      if forall k :: 0 <= k < |before| ==> before[k].journalEntryId != id {
        CreatedLinesRoundTrip(before, id, ls, id);
      }
    }

    /** `deleteJournalEntry`: the entry must exist in the company (checked
        first), then the caller must hold a writing role; only the entry row
        is removed. */
    method DeleteJournalEntry(entryId: string, userId: string, companyId: string)
      returns (r: Result<EntryRow, DeleteEntryError>)
      modifies this
      ensures r == Err(EntryNotFound) <==> old(FindEntry(entries, entryId, companyId)).None?
      ensures r == Err(InsufficientPermissions)
          <==> old(FindEntry(entries, entryId, companyId)).Some? && !MayWrite(old(Access(userId, companyId)))
      ensures r.Ok? ==> r.value == old(FindEntry(entries, entryId, companyId)).value
      ensures r.Ok? ==> entries == EntriesWithout(old(entries), entryId)
      ensures r.Err? ==> entries == old(entries)
      ensures lines == old(lines) && accounts == old(accounts) && memberships == old(memberships)
    {
      var found := FindEntry(entries, entryId, companyId);
      if found.None? {
        return Err(EntryNotFound);
      }
      if !MayWrite(Access(userId, companyId)) {
        return Err(InsufficientPermissions);
      }
      entries := EntriesWithout(entries, entryId);
      r := Ok(found.value);
    }

    /** `account.create`: refused, with nothing changed, when the company
        already has an account with that code (the unique constraint). */
    method CreateAccount(a: Account) returns (created: bool)
      modifies this
      ensures created <==> !old(CodeTaken(accounts, a.companyId, a.code))
      ensures accounts == if created then old(accounts) + [a] else old(accounts)
      ensures entries == old(entries) && lines == old(lines) && memberships == old(memberships)
    {
      if CodeTaken(accounts, a.companyId, a.code) {
        created := false;
      } else {
        accounts := accounts + [a];
        created := true;
      }
    }

    /** Offers every account of `chart` in turn under its own identifier; a
        create that fails is skipped and the loop goes on. */
    method SeedChart(companyId: string, chart: seq<ChartAccount>, ids: seq<string>)
      requires |ids| == |chart|
      modifies this
      ensures accounts == Seeded(old(accounts), companyId, chart, ids)
      ensures entries == old(entries) && lines == old(lines) && memberships == old(memberships)
    {
      for i := 0 to |chart|
        invariant accounts == Seeded(old(accounts), companyId, chart[..i], ids[..i])
        invariant entries == old(entries) && lines == old(lines) && memberships == old(memberships)
      {
        SeededSnoc(old(accounts), companyId, chart, ids, i);
        var _ := CreateAccount(NewAccount(ids[i], companyId, chart[i]));
      }
      assert chart[..|chart|] == chart && ids[..|ids|] == ids;
    }

    /** `initializeDefaultAccounts`: offers every default account in turn. */
    method InitializeDefaultAccounts(companyId: string, ids: seq<string>)
      requires |ids| == |DefaultAccounts()|
      modifies this
      ensures accounts == Seeded(old(accounts), companyId, DefaultAccounts(), ids)
      ensures entries == old(entries) && lines == old(lines) && memberships == old(memberships)
    {
      SeedChart(companyId, DefaultAccounts(), ids);
    }
  }
}
