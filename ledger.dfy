/** The shapes every part of the bookkeeping ledger shares: accounts,
    journal entries and their lines, the five account types, the roles that
    may write, the normal-balance sign rule and the sums the reports fold. */
module Ledger {

  datatype Option<+T> = None | Some(value: T)

  datatype Result<+T, +E> = Ok(value: T) | Err(error: E)

  /** A lookup in a table: the first row satisfying `p`, if any. */
  function FindFirst<T>(s: seq<T>, p: T -> bool): (r: Option<T>)
    ensures r.None? <==> forall i :: 0 <= i < |s| ==> !p(s[i])
    ensures r.Some? ==> r.value in s && p(r.value)
  {
    if s == [] then None
    else if p(s[0]) then Some(s[0])
    else
      assert forall i :: 1 <= i < |s| ==> s[i] == s[1..][i - 1];
      FindFirst(s[1..], p)
  }

  const ASSET: string := "ASSET"
  const LIABILITY: string := "LIABILITY"
  const EQUITY: string := "EQUITY"
  const REVENUE: string := "REVENUE"
  const EXPENSE: string := "EXPENSE"

  /** The account types, in the order the chart of accounts declares them. */
  const AccountTypes: seq<string> := [ASSET, LIABILITY, EQUITY, REVENUE, EXPENSE]

  predicate IsAccountType(t: string)
  {
    t == ASSET || t == LIABILITY || t == EQUITY || t == REVENUE || t == EXPENSE
  }

  lemma ListedTypeIsType(i: int)
    requires 0 <= i < |AccountTypes|
    ensures IsAccountType(AccountTypes[i])
  {
  }

  /** The position of a type in the fixed order of the five. */
  function TypeIndex(t: string): (i: nat)
    requires IsAccountType(t)
    ensures i < |AccountTypes| && AccountTypes[i] == t
  {
    if t == ASSET then 0 else if t == LIABILITY then 1 else if t == EQUITY then 2
    else if t == REVENUE then 3 else 4
  }

  const OWNER: string := "OWNER"
  const ADMIN: string := "ADMIN"
  const ACCOUNTANT: string := "ACCOUNTANT"

  /** The roles allowed to post entries, create accounts and delete entries
      through the library; any other role, or no membership, is refused. */
  predicate CanWrite(role: string)
  {
    role == OWNER || role == ADMIN || role == ACCOUNTANT
  }

  /** What an API route's bearer-token check yields: no `Bearer` header, a
      token that does not verify, or the user it identifies. Signing and
      verifying tokens is outside the model. */
  datatype Auth = NoBearer | BadToken | User(userId: string)

  /** A value handed to JavaScript's `Number(...)`: either it converts to a
      number, or it converts to NaN. */
  datatype RawAmount = Numeric(value: real) | NotANumber

  /** `Number(x) || 0`: NaN (and 0) become 0. */
  function NumberOrZero(a: RawAmount): real
  {
    match a
    case Numeric(v) => v
    case NotANumber => 0.0
  }

  datatype JournalLine = JournalLine(accountName: string, description: string, debit: real, credit: real)

  datatype JournalEntry = JournalEntry(
    id: string, companyId: string, date: int, description: string, reference: string,
    lines: seq<JournalLine>)

  datatype Account = Account(
    id: string, companyId: string, code: string, name: string, accountType: string,
    subcategory: Option<string>, parentId: Option<string>, isActive: bool)

  /** Assets and expenses carry a debit balance; every other type string
      (including ones outside the five) is treated as credit-normal. */
  predicate IsDebitNormal(t: string)
  {
    t == ASSET || t == EXPENSE
  }

  /** The change a posting makes to an account's signed balance. */
  function SignedChange(t: string, debit: real, credit: real): real
  {
    if IsDebitNormal(t) then debit - credit else credit - debit
  }

  /** All lines of all entries, entry by entry, each entry's lines in order:
      the order of the nested `forEach` loops of every report fold. */
  function AllLines(entries: seq<JournalEntry>): seq<JournalLine>
  {
    if entries == [] then []
    else AllLines(entries[..|entries| - 1]) + entries[|entries| - 1].lines
  }

  datatype Side = Debit | Credit

  function Amount(line: JournalLine, side: Side): real
  {
    if side == Debit then line.debit else line.credit
  }

  /** The sum of one side over all lines, added left to right. */
  function Total(lines: seq<JournalLine>, side: Side): real
  {
    if lines == [] then 0.0
    else Total(lines[..|lines| - 1], side) + Amount(lines[|lines| - 1], side)
  }

  /** The sum of one side over the lines that name account `name`. */
  function AmountOf(lines: seq<JournalLine>, name: string, side: Side): real
  {
    if lines == [] then 0.0
    else
      AmountOf(lines[..|lines| - 1], name, side)
      + (if lines[|lines| - 1].accountName == name then Amount(lines[|lines| - 1], side) else 0.0)
  }

  /** Debits minus credits posted to account `name`. */
  function NetDebitOf(lines: seq<JournalLine>, name: string): real
  {
    AmountOf(lines, name, Debit) - AmountOf(lines, name, Credit)
  }

  /** The account names of the lines, in order. */
  function LineNames(lines: seq<JournalLine>): (names: seq<string>)
    ensures |names| == |lines|
    ensures forall i :: 0 <= i < |lines| ==> names[i] == lines[i].accountName
  {
    seq(|lines|, i requires 0 <= i < |lines| => lines[i].accountName)
  }

  predicate NamedIn(lines: seq<JournalLine>, name: string)
  {
    exists i :: 0 <= i < |lines| && lines[i].accountName == name
  }

  /** An entry whose debits and credits are exactly equal. */
  predicate Balanced(e: JournalEntry)
  {
    Total(e.lines, Debit) == Total(e.lines, Credit)
  }

  lemma {:induction false} TotalAppend(a: seq<JournalLine>, b: seq<JournalLine>, side: Side)
    ensures Total(a + b, side) == Total(a, side) + Total(b, side)
  {
    if b != [] {
      var b' := b[..|b| - 1];
      assert (a + b)[..|a + b| - 1] == a + b';
      TotalAppend(a, b', side);
    } else {
      assert a + b == a;
    }
  }

  /** A name that no line carries has nothing posted to it. */
  lemma {:induction false} AmountOfUnnamed(lines: seq<JournalLine>, name: string, side: Side)
    requires !NamedIn(lines, name)
    ensures AmountOf(lines, name, side) == 0.0
  {
    if lines != [] {
      var init := lines[..|lines| - 1];
      assert !NamedIn(init, name) by {
        forall i | 0 <= i < |init| ensures init[i].accountName != name {
          assert init[i] == lines[i];
        }
      }
      AmountOfUnnamed(init, name, side);
    }
  }

  /** Stepping over one entry adds that entry's lines at the end. */
  lemma AllLinesSnoc(entries: seq<JournalEntry>, i: int)
    requires 0 <= i < |entries|
    ensures AllLines(entries[..i + 1]) == AllLines(entries[..i]) + entries[i].lines
  {
    assert entries[..i + 1][..i] == entries[..i];
  }

  /** When every entry is exactly balanced, all debits equal all credits. */
  lemma {:induction false} AllLinesBalanced(entries: seq<JournalEntry>)
    requires forall k :: 0 <= k < |entries| ==> Balanced(entries[k])
    ensures Total(AllLines(entries), Debit) == Total(AllLines(entries), Credit)
  {
    if entries != [] {
      var init := entries[..|entries| - 1];
      AllLinesBalanced(init);
      TotalAppend(AllLines(init), entries[|entries| - 1].lines, Debit);
      TotalAppend(AllLines(init), entries[|entries| - 1].lines, Credit);
    }
  }

  /** When every entry is balanced only within the server's tolerance of
      0.01, the differences may add up: n entries can be off by 0.01 * n. */
  lemma {:induction false} AllLinesWithinTolerance(entries: seq<JournalEntry>)
    requires forall k :: 0 <= k < |entries| ==>
      -0.01 <= Total(entries[k].lines, Debit) - Total(entries[k].lines, Credit) <= 0.01
    ensures -0.01 * |entries| as real
      <= Total(AllLines(entries), Debit) - Total(AllLines(entries), Credit)
      <= 0.01 * |entries| as real
  {
    if entries != [] {
      var init := entries[..|entries| - 1];
      AllLinesWithinTolerance(init);
      TotalAppend(AllLines(init), entries[|entries| - 1].lines, Debit);
      TotalAppend(AllLines(init), entries[|entries| - 1].lines, Credit);
    }
  }

  /** `accounts.find((a) => a.name === name)`: the first account with that name. */
  function FindAccount(accounts: seq<Account>, name: string): (r: Option<Account>)
    ensures r.None? <==> forall i :: 0 <= i < |accounts| ==> accounts[i].name != name
    ensures r.Some? ==> r.value.name == name
    ensures r.Some? ==>
      (exists i :: 0 <= i < |accounts| && accounts[i] == r.value
                   && forall j :: 0 <= j < i ==> accounts[j].name != name)
  {
    if accounts == [] then None
    else if accounts[0].name == name then Some(accounts[0])
    else
      var r := FindAccount(accounts[1..], name);
      assert forall j :: 1 <= j < |accounts| ==> accounts[j] == accounts[1..][j - 1];
      r
  }

  predicate UniqueNames(accounts: seq<Account>)
  {
    forall i, j :: 0 <= i < j < |accounts| ==> accounts[i].name != accounts[j].name
  }

  predicate KnownName(accounts: seq<Account>, name: string)
  {
    exists i :: 0 <= i < |accounts| && accounts[i].name == name
  }

  /** With unique names, looking an account up by its name finds it. */
  lemma FindUnique(accounts: seq<Account>, i: int)
    requires UniqueNames(accounts) && 0 <= i < |accounts|
    ensures FindAccount(accounts, accounts[i].name) == Some(accounts[i])
  {
  }
}
