/** The journal page: the draft-entry editor (a header, the lines added so
    far and the line being typed), its exact balance check and save guard,
    the overall status over the saved entries, and the local removal of a
    deleted entry. */
module JournalPage {
  import opened Ledger
  import opened Store
  import opened Seqs
  import JournalRoute
  import JournalEntryDeleteRoute

  /** An amount input: blank, or some text together with what
      `Number.parseFloat` makes of it (parsing itself is not modelled). */
  datatype AmountInput = Blank | Entered(parsed: RawAmount)

  /** The text "0" the editor stores for the side left blank. */
  function ZeroInput(): AmountInput
  {
    Entered(Numeric(0.0))
  }

  /** `Number.parseFloat(x) || 0`; a blank input parses to NaN. */
  function InputValue(a: AmountInput): real
  {
    match a
    case Blank => 0.0
    case Entered(p) => NumberOrZero(p)
  }

  /** A draft line (`NewJournalLine`), amounts still as typed. */
  datatype DraftLine = DraftLine(account: string, description: string, debit: AmountInput, credit: AmountInput)

  function BlankLine(): DraftLine
  {
    DraftLine("", "", Blank, Blank)
  }

  /** The entry header (`newEntry`); a cleared date field is `None`. */
  datatype Header = Header(date: Option<int>, description: string, reference: string)

  function FreshHeader(today: int): Header
  {
    Header(Some(today), "", "")
  }

  function DraftAmount(l: DraftLine, side: Side): real
  {
    InputValue(if side == Debit then l.debit else l.credit)
  }

  /** `totalDebits` / `totalCredits`: the reduce over the draft lines. */
  function DraftTotal(lines: seq<DraftLine>, side: Side): real
  {
    if lines == [] then 0.0
    else DraftTotal(lines[..|lines| - 1], side) + DraftAmount(lines[|lines| - 1], side)
  }

  /** `isBalanced`: exact equality, and something on the debit side. */
  predicate IsBalanced(lines: seq<DraftLine>)
  {
    DraftTotal(lines, Debit) == DraftTotal(lines, Credit) && DraftTotal(lines, Debit) > 0.0
  }

  /** The line `addLine` appends: a blank amount becomes "0" and a blank
      description becomes the entry's description. */
  function Accepted(c: DraftLine, entryDescription: string): DraftLine
  {
    DraftLine(c.account, if c.description != [] then c.description else entryDescription,
              if c.debit.Entered? then c.debit else ZeroInput(),
              if c.credit.Entered? then c.credit else ZeroInput())
  }

  /** A line as `addLine` leaves it: an account, both amounts filled in, and
      one of them the stored "0". */
  predicate WellFormedLine(l: DraftLine)
  {
    l.account != [] && l.debit.Entered? && l.credit.Entered? && (l.debit == ZeroInput() || l.credit == ZeroInput())
  }

  /** A well-formed line moves only one side. */
  lemma OneSided(l: DraftLine)
    requires WellFormedLine(l)
    ensures DraftAmount(l, Debit) == 0.0 || DraftAmount(l, Credit) == 0.0
  {
  }

  lemma {:induction false} DraftTotalAppend(lines: seq<DraftLine>, l: DraftLine, side: Side)
    ensures DraftTotal(lines + [l], side) == DraftTotal(lines, side) + DraftAmount(l, side)
  {
    assert (lines + [l])[..|lines|] == lines;
  }

  /** Appending the accepted form of a line with an account and exactly
      one amount keeps every line well formed and moves each total by the
      amount typed on that side. */
  lemma AcceptedAppend(lines: seq<DraftLine>, c: DraftLine, entryDescription: string)
    requires c.account != [] && (c.debit.Blank? != c.credit.Blank?)
    ensures WellFormedLine(Accepted(c, entryDescription))
    ensures DraftTotal(lines + [Accepted(c, entryDescription)], Debit) == DraftTotal(lines, Debit) + InputValue(c.debit)
    ensures DraftTotal(lines + [Accepted(c, entryDescription)], Credit) == DraftTotal(lines, Credit) + InputValue(c.credit)
    ensures (forall k :: 0 <= k < |lines| ==> WellFormedLine(lines[k])) ==>
      forall k :: 0 <= k < |lines| + 1 ==> WellFormedLine((lines + [Accepted(c, entryDescription)])[k])
  {
    DraftTotalAppend(lines, Accepted(c, entryDescription), Debit);
    DraftTotalAppend(lines, Accepted(c, entryDescription), Credit);
  }

  /** Removing the i-th line takes exactly its amount off each total. */
  lemma {:induction false} DraftTotalRemove(lines: seq<DraftLine>, i: int, side: Side)
    requires 0 <= i < |lines|
    ensures DraftTotal(lines[..i] + lines[i + 1..], side) == DraftTotal(lines, side) - DraftAmount(lines[i], side)
  {
    var n := |lines| - 1;
    var init := lines[..n];
    if i == n {
      assert lines[..i] + lines[i + 1..] == init;
    } else {
      DraftTotalRemove(init, i, side);
      var removed := lines[..i] + lines[i + 1..];
      assert removed[..|removed| - 1] == init[..i] + init[i + 1..];
      assert removed[|removed| - 1] == lines[n];
      assert init[i] == lines[i];
    }
  }

  /** The result of pressing "Add Line". */
  datatype AddOutcome = Ignored | BothAmounts | Added

  /** `saveJournalEntry`'s own checks, in order. */
  datatype SaveRefusal = NotBalanced | MissingText | NoCompany

  /** The body `saveJournalEntry` posts: each amount sent as
      `Number.parseFloat(x) || 0`. */
  function RequestLines(lines: seq<DraftLine>): (r: seq<JournalRoute.LineInput>)
    ensures |r| == |lines|
    ensures forall k :: 0 <= k < |r| ==>
      r[k].account == lines[k].account && r[k].description == lines[k].description
      && NumberOrZero(r[k].debit) == DraftAmount(lines[k], Debit)
      && NumberOrZero(r[k].credit) == DraftAmount(lines[k], Credit)
  {
    seq(|lines|, k requires 0 <= k < |lines| =>
      JournalRoute.LineInput(lines[k].account, lines[k].description,
                             Numeric(InputValue(lines[k].debit)), Numeric(InputValue(lines[k].credit))))
  }

  /** The server sums the posted lines to the same totals the editor shows. */
  lemma {:induction false} RequestTotals(lines: seq<DraftLine>, side: Side)
    ensures JournalRoute.InputTotal(RequestLines(lines), side) == DraftTotal(lines, side)
  {
    if lines != [] {
      var init := lines[..|lines| - 1];
      RequestTotals(init, side);
      assert RequestLines(lines)[..|lines| - 1] == RequestLines(init);
    }
  }

  /** The checks `saveJournalEntry` makes before posting, then the request. */
  function SaveRequest(auth: Auth, company: Option<string>, header: Header, lines: seq<DraftLine>)
    : Result<JournalRoute.PostRequest, SaveRefusal>
  {
    if !IsBalanced(lines) then Err(NotBalanced)
    else if header.description == [] || header.reference == [] then Err(MissingText)
    else if company.None? then Err(NoCompany)
    else Ok(JournalRoute.PostRequest(auth, company.value, header.date, header.description, header.reference,
                                     RequestLines(lines)))
  }

  /** Each refusal of the editor happens only when the earlier checks passed. */
  lemma SaveGuards(auth: Auth, company: Option<string>, header: Header, lines: seq<DraftLine>)
    ensures SaveRequest(auth, company, header, lines) == Err(NotBalanced) <==>
      DraftTotal(lines, Debit) != DraftTotal(lines, Credit) || DraftTotal(lines, Debit) <= 0.0
    ensures SaveRequest(auth, company, header, lines) == Err(MissingText) <==>
      IsBalanced(lines) && (header.description == [] || header.reference == [])
    ensures SaveRequest(auth, company, header, lines) == Err(NoCompany) <==>
      IsBalanced(lines) && header.description != [] && header.reference != [] && company.None?
    ensures SaveRequest(auth, company, header, lines).Ok? ==> lines != []
  {
  }

  /** Whatever the editor lets through, the server accepts exactly when the
      caller is signed in, the date field is filled, the company id is not
      empty and the caller may write there, and the entry it then stores is
      exactly balanced with a positive total: the client's exact check is
      stricter than the server's 0.01 tolerance. */
  lemma ClientSaveValidated(auth: Auth, company: Option<string>, header: Header, lines: seq<DraftLine>,
                            memberships: seq<Membership>)
    requires SaveRequest(auth, company, header, lines).Ok?
    ensures var req := SaveRequest(auth, company, header, lines).value;
      JournalRoute.Validate(req, memberships).Ok? <==>
        auth.User? && header.date.Some? && company.value != []
        && MayWrite(FindMembership(memberships, auth.userId, company.value))
    ensures var req := SaveRequest(auth, company, header, lines).value;
      JournalRoute.Validate(req, memberships).Ok? ==>
        var stored := JournalRoute.StoredLines(req.lines);
        && JournalRoute.Validate(req, memberships).value == stored
        && Total(stored, Debit) == Total(stored, Credit) && Total(stored, Debit) > 0.0
  {
    var req := SaveRequest(auth, company, header, lines).value;
    RequestTotals(lines, Debit);
    RequestTotals(lines, Credit);
    JournalRoute.InputTotalIsStoredTotal(req.lines, Debit);
    JournalRoute.InputTotalIsStoredTotal(req.lines, Credit);
    JournalRoute.AcceptedExactly(req, memberships);
  }

  /** The status badge: "Balanced" exactly when the debits and the credits
      summed over every loaded entry are equal. */
  predicate StatusBalanced(entries: seq<JournalEntry>)
  {
    Total(AllLines(entries), Debit) == Total(AllLines(entries), Credit)
  }

  /** Entries that are each exactly balanced (as every entry saved from this
      editor is) give a "Balanced" badge. */
  lemma ExactEntriesShowBalanced(entries: seq<JournalEntry>)
    requires forall k :: 0 <= k < |entries| ==> Balanced(entries[k])
    ensures StatusBalanced(entries)
  {
    AllLinesBalanced(entries);
  }

  /** One entry the server accepted, 0.02 against 0.01 and so a cent off,
      turns the badge to "Unbalanced": the badge has no tolerance while the
      server has one. */
  lemma ToleratedEntryShowsUnbalanced(userId: string, companyId: string, memberships: seq<Membership>)
    requires companyId != []
    requires MayWrite(FindMembership(memberships, userId, companyId))
    ensures var req := JournalRoute.PostRequest(User(userId), companyId, Some(0), "d", "r",
                                                [JournalRoute.LineInput("Cash", "", Numeric(0.02), Numeric(0.01))]);
      && JournalRoute.Validate(req, memberships).Ok?
      && !StatusBalanced([JournalEntry("e", companyId, 0, "d", "r", JournalRoute.Validate(req, memberships).value)])
  {
    var req := JournalRoute.PostRequest(User(userId), companyId, Some(0), "d", "r",
                                        [JournalRoute.LineInput("Cash", "", Numeric(0.02), Numeric(0.01))]);
    JournalRoute.CentOffAccepted(userId, companyId, memberships);
    JournalRoute.AcceptedExactly(req, memberships);
    var line := JournalLine("Cash", "", 0.02, 0.01);
    assert JournalRoute.StoredLines(req.lines) == [line];
    var entries := [JournalEntry("e", companyId, 0, "d", "r", [line])];
    assert [line][..0] == [];
    assert AllLines(entries) == [line] by {
      assert entries[..0] == [];
    }
    assert Total([line], Debit) == 0.02;
  }

  /** `entries.filter((entry) => entry.id !== entryId)`. */
  function WithoutEntry(entries: seq<JournalEntry>, id: string): (r: seq<JournalEntry>)
    ensures |r| <= |entries|
    ensures forall e :: e in r <==> e in entries && e.id != id
    ensures (forall k :: 0 <= k < |entries| ==> entries[k].id != id) ==> r == entries
  {
    if entries == [] then []
    else
      var init := entries[..|entries| - 1];
      var e := entries[|entries| - 1];
      assert entries == init + [e];
      assert forall k :: 0 <= k < |init| ==> init[k] == entries[k];
      WithoutEntry(init, id) + (if e.id != id then [e] else [])
  }

  /** The test `(entry) => entry.id !== entryId`. */
  function EntryIsNot(id: string): JournalEntry -> bool
  {
    (e: JournalEntry) => e.id != id
  }

  /** The local delete is `filter`: the other entries keep their order and
      each stays as often as it was listed. */
  lemma {:induction false} WithoutEntryFiltered(entries: seq<JournalEntry>, id: string)
    ensures WithoutEntry(entries, id) == Filter(entries, EntryIsNot(id))
    ensures forall e :: multiset(WithoutEntry(entries, id))[e] == if e.id != id then multiset(entries)[e] else 0
  {
    if entries != [] {
      WithoutEntryFiltered(entries[..|entries| - 1], id);
      FilterIsKept(entries[..|entries| - 1], EntryIsNot(id));
    }
    FilterIsKept(entries, EntryIsNot(id));
    FilterMultiset(entries, EntryIsNot(id));
  }

  /** The page's state: the loaded entries, whether the form shows, and the
      draft being edited. */
  class JournalForm {
    var entries: seq<JournalEntry>
    var showForm: bool
    var header: Header
    var lines: seq<DraftLine>
    var current: DraftLine

    /** What the handlers keep true: the line being typed never has both
        amounts (typing one clears the other), and every added line is
        well formed. */
    ghost predicate Valid()
      reads this
    {
      (current.debit.Blank? || current.credit.Blank?)
      && forall k :: 0 <= k < |lines| ==> WellFormedLine(lines[k])
    }

    constructor(today: int)
      ensures entries == [] && !showForm && header == FreshHeader(today)
      ensures lines == [] && current == BlankLine()
      ensures Valid()
    {
      entries := [];
      showForm := false;
      header := FreshHeader(today);
      lines := [];
      current := BlankLine();
    }

    /** The "New Entry" button. */
    method ToggleForm()
      modifies this
      ensures showForm == !old(showForm)
      ensures entries == old(entries) && header == old(header) && lines == old(lines) && current == old(current)
    {
      showForm := !showForm;
    }

    /** The date, reference and description inputs. */
    method SetHeader(h: Header)
      modifies this
      ensures header == h
      ensures entries == old(entries) && showForm == old(showForm) && lines == old(lines) && current == old(current)
      ensures old(Valid()) ==> Valid()
    {
      header := h;
    }

    /** The account picker. */
    method SetAccount(name: string)
      modifies this
      ensures current == old(current).(account := name)
      ensures entries == old(entries) && showForm == old(showForm) && header == old(header) && lines == old(lines)
      ensures old(Valid()) ==> Valid()
    {
      current := current.(account := name);
    }

    /** The line-description input. */
    method SetLineDescription(d: string)
      modifies this
      ensures current == old(current).(description := d)
      ensures entries == old(entries) && showForm == old(showForm) && header == old(header) && lines == old(lines)
      ensures old(Valid()) ==> Valid()
    {
      current := current.(description := d);
    }

    /** The debit input: typing a debit clears the credit. */
    method SetDebit(a: AmountInput)
      modifies this
      ensures current == old(current).(debit := a, credit := Blank)
      ensures entries == old(entries) && showForm == old(showForm) && header == old(header) && lines == old(lines)
      ensures old(Valid()) ==> Valid()
    {
      current := current.(debit := a, credit := Blank);
    }

    /** The credit input: typing a credit clears the debit. */
    method SetCredit(a: AmountInput)
      modifies this
      ensures current == old(current).(credit := a, debit := Blank)
      ensures entries == old(entries) && showForm == old(showForm) && header == old(header) && lines == old(lines)
      ensures old(Valid()) ==> Valid()
    {
      current := current.(credit := a, debit := Blank);
    }

    /** `addLine`: nothing happens without an account or without any
        amount; a line with both amounts is refused (which the handlers
        never allow to arise); otherwise the line is appended, moving the
        totals by exactly what was typed, and the input row is cleared. */
    method AddLine() returns (outcome: AddOutcome)
      modifies this
      ensures outcome == Ignored <==> old(current.account) == [] || (old(current.debit).Blank? && old(current.credit).Blank?)
      ensures outcome == BothAmounts <==>
        old(current.account) != [] && old(current.debit).Entered? && old(current.credit).Entered?
      ensures outcome != Added ==> lines == old(lines) && current == old(current)
      ensures outcome == Added ==>
        && lines == old(lines) + [Accepted(old(current), old(header).description)]
        && current == BlankLine()
        && DraftTotal(lines, Debit) == DraftTotal(old(lines), Debit) + InputValue(old(current).debit)
        && DraftTotal(lines, Credit) == DraftTotal(old(lines), Credit) + InputValue(old(current).credit)
      ensures old(Valid()) ==> Valid() && outcome != BothAmounts
      ensures entries == old(entries) && showForm == old(showForm) && header == old(header)
    {
      if current.account == [] || (current.debit.Blank? && current.credit.Blank?) {
        return Ignored;
      }
      if current.debit.Entered? && current.credit.Entered? {
        return BothAmounts;
      }
      AcceptedAppend(lines, current, header.description);
      lines := lines + [Accepted(current, header.description)];
      current := BlankLine();
      outcome := Added;
    }

    /** `removeLine(index)`: exactly the index-th line goes, the others keep
        their order, and its amounts leave the totals; an index outside the
        list changes nothing. */
    method RemoveLine(i: int)
      modifies this
      ensures lines == if 0 <= i < |old(lines)| then old(lines)[..i] + old(lines)[i + 1..] else old(lines)
      ensures 0 <= i < |old(lines)| ==>
        && multiset(lines) + multiset{old(lines)[i]} == multiset(old(lines))
        && DraftTotal(lines, Debit) == DraftTotal(old(lines), Debit) - DraftAmount(old(lines)[i], Debit)
        && DraftTotal(lines, Credit) == DraftTotal(old(lines), Credit) - DraftAmount(old(lines)[i], Credit)
      ensures entries == old(entries) && showForm == old(showForm) && header == old(header) && current == old(current)
      ensures old(Valid()) ==> Valid()
    {
      if 0 <= i < |lines| {
        DraftTotalRemove(lines, i, Debit);
        DraftTotalRemove(lines, i, Credit);
        assert lines == lines[..i] + [lines[i]] + lines[i + 1..];
        lines := lines[..i] + lines[i + 1..];
      }
    }

    /** `cancelEntry`: a fresh header, no lines, a blank input row, and the
        form closed. */
    method Cancel(today: int)
      modifies this
      ensures header == FreshHeader(today) && lines == [] && current == BlankLine() && !showForm
      ensures entries == old(entries)
      ensures Valid()
    {
      header := FreshHeader(today);
      lines := [];
      current := BlankLine();
      showForm := false;
    }

    /** `saveJournalEntry`: the editor's checks, then the post; on success
        the header and lines are reset, the form closes and the entries are
        fetched again. The line being typed is left as it was. An entry
        saved this way is exactly balanced. */
    method Save(db: Database, auth: Auth, company: Option<string>, id: string, today: int)
      returns (r: Result<JournalEntry, Option<JournalRoute.RouteError>>)
      modifies this, db
      ensures r == Err(None) <==> old(SaveRequest(auth, company, header, lines)).Err?
      ensures r.Ok? <==>
        && old(SaveRequest(auth, company, header, lines)).Ok?
        && JournalRoute.Validate(old(SaveRequest(auth, company, header, lines)).value, old(db.memberships)).Ok?
      ensures r.Err? && r.error.Some? ==>
        r.error.value == JournalRoute.Validate(old(SaveRequest(auth, company, header, lines)).value,
                                               old(db.memberships)).error
      ensures r.Err? ==>
        && entries == old(entries) && showForm == old(showForm) && header == old(header) && lines == old(lines)
        && db.entries == old(db.entries) && db.lines == old(db.lines)
      ensures r.Ok? ==>
        && Balanced(r.value) && Total(r.value.lines, Debit) > 0.0
        && auth.User? && company.Some? && old(header).date.Some?
        && db.entries == old(db.entries)
             + [EntryRow(id, company.value, auth.userId, old(header).date.value,
                         old(header).description, old(header).reference)]
        && db.lines == old(db.lines) + LineRowsFor(id, JournalRoute.StoredLines(RequestLines(old(lines))))
        && r.value.lines == JournalRoute.StoredLines(RequestLines(old(lines)))
        && header == FreshHeader(today) && lines == [] && !showForm
        && entries == if JournalRoute.List(db, auth, company.value).Ok?
                      then JournalRoute.List(db, auth, company.value).value else old(entries)
      ensures current == old(current)
      ensures db.accounts == old(db.accounts) && db.memberships == old(db.memberships)
      ensures old(Valid()) ==> Valid()
    {
      var request := SaveRequest(auth, company, header, lines);
      if request.Err? {
        return Err(None);
      }
      ClientSaveValidated(auth, company, header, lines, db.memberships);
      var posted := JournalRoute.Post(db, request.value, id);
      if posted.Err? {
        return Err(Some(posted.error));
      }
      AfterPost(db, auth, company.value, today);
      r := Ok(posted.value);
    }

    /** What follows a successful post: the editor is cleared and closed,
        and the entries are fetched again (a failed fetch keeps the old
        list). */
    method AfterPost(db: Database, auth: Auth, companyId: string, today: int)
      modifies this
      ensures header == FreshHeader(today) && lines == [] && !showForm && current == old(current)
      ensures entries == if JournalRoute.List(db, auth, companyId).Ok?
                         then JournalRoute.List(db, auth, companyId).value else old(entries)
      ensures old(Valid()) ==> Valid()
    {
      header := FreshHeader(today);
      lines := [];
      showForm := false;
      var listed := JournalRoute.List(db, auth, companyId);
      if listed.Ok? {
        entries := listed.value;
      }
    }

    /** `deleteJournalEntry`: after confirmation, the delete request; when
        the server removes the entry, exactly that entry leaves the list. */
    method DeleteEntry(db: Database, auth: Auth, companyId: string, entryId: string, confirmed: bool)
      returns (deleted: bool)
      modifies this, db
      ensures !confirmed ==> !deleted && db.entries == old(db.entries) && db.lines == old(db.lines)
      ensures entries == if deleted then WithoutEntry(old(entries), entryId) else old(entries)
      ensures deleted ==> db.entries == EntriesWithout(old(db.entries), entryId)
      ensures !deleted ==> db.entries == old(db.entries) && db.lines == old(db.lines)
      ensures showForm == old(showForm) && header == old(header) && lines == old(lines) && current == old(current)
      ensures db.accounts == old(db.accounts) && db.memberships == old(db.memberships)
      ensures old(Valid()) ==> Valid()
    {
      if !confirmed {
        return false;
      }
      var r := JournalEntryDeleteRoute.Delete(db, auth, entryId, companyId);
      deleted := r.Ok?;
      if deleted {
        entries := WithoutEntry(entries, entryId);
      }
    }
  }
}
