/** Deleting a journal entry through the API: its lines first, then the
    entry, as one transaction. */
module JournalEntryDeleteRoute {
  import opened Ledger
  import opened Store

  datatype DeleteError =
    | Unauthorized | InvalidToken | EntryIdRequired | CompanyIdRequired | AccessDenied | NotFound

  /** The route's checks in order (any membership in the company will do),
      then the removal of the entry's lines and of the entry row. */
  method Delete(db: Database, auth: Auth, entryId: string, companyId: string)
    returns (r: Result<EntryRow, DeleteError>)
    modifies db
    ensures r == Err(Unauthorized) <==> auth == NoBearer
    ensures r == Err(InvalidToken) <==> auth == BadToken
    ensures r == Err(EntryIdRequired) <==> auth.User? && entryId == []
    ensures r == Err(CompanyIdRequired) <==> auth.User? && entryId != [] && companyId == []
    ensures r == Err(AccessDenied) <==>
      auth.User? && entryId != [] && companyId != []
      && old(FindMembership(db.memberships, auth.userId, companyId)).None?
    ensures r == Err(NotFound) <==>
      auth.User? && entryId != [] && companyId != []
      && old(FindMembership(db.memberships, auth.userId, companyId)).Some?
      && old(FindEntry(db.entries, entryId, companyId)).None?
    ensures r.Ok? ==>
      && r.value == old(FindEntry(db.entries, entryId, companyId)).value
      && db.lines == LinesWithout(old(db.lines), entryId)
      && db.entries == EntriesWithout(old(db.entries), entryId)
    ensures r.Err? ==> db.lines == old(db.lines) && db.entries == old(db.entries)
    ensures db.accounts == old(db.accounts) && db.memberships == old(db.memberships)
  {
    if auth == NoBearer {
      return Err(Unauthorized);
    }
    if auth == BadToken {
      return Err(InvalidToken);
    }
    if entryId == [] {
      return Err(EntryIdRequired);
    }
    if companyId == [] {
      return Err(CompanyIdRequired);
    }
    if FindMembership(db.memberships, auth.userId, companyId).None? {
      return Err(AccessDenied);
    }
    var entry := FindEntry(db.entries, entryId, companyId);
    if entry.None? {
      return Err(NotFound);
    }
    db.lines := LinesWithout(db.lines, entryId);
    db.entries := EntriesWithout(db.entries, entryId);
    r := Ok(entry.value);
  }

  /** After the deletion every remaining entry reads back with exactly the
      lines it had, and no line of the deleted entry is left. */
  lemma OtherEntriesIntact(es: seq<EntryRow>, table: seq<LineRow>, entryId: string)
    ensures forall e :: e in EntriesWithout(es, entryId) ==>
      Assemble(e, LinesWithout(table, entryId)) == Assemble(e, table)
    ensures LinesOf(LinesWithout(table, entryId), entryId) == []
  {
    forall e | e in EntriesWithout(es, entryId)
      ensures Assemble(e, LinesWithout(table, entryId)) == Assemble(e, table)
    {
      LinesWithoutKeepsOthers(table, entryId, e.id);
    }
    var kept := LinesWithout(table, entryId);
    forall k | 0 <= k < |kept| ensures kept[k].journalEntryId != entryId {
      assert kept[k] in kept;
    }
    LinesOfNone(kept, entryId);
  }
}
