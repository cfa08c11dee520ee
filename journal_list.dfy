// components/journal-list.tsx: the user's journal entries, newest first,
// and the delete button. The confirmation dialog's answer is a parameter;
// the store requests are returned, as is the text of the alert shown.

module JournalListing {
  import opened Wrappers
  import opened Errors
  import opened Types
  import opened Store

  /** The query the list sends: all the user's entries, newest first. */
  function EntriesQuery(userId: string): Query
  {
    Select("journal_entries", [Eq("user_id", userId)], Descending, None)
  }

  /** The alert text for a failed load. */
  function LoadError(detail: string): string
  {
    "Failed to load journal entries: " + detail
  }

  /** The alert text for a failed delete. */
  function DeleteError(e: Thrown): string
  {
    "Failed to delete entry: " + Describe(e)
  }

  /** `entries.filter((entry) => entry.id !== id)` */
  function RemoveId(entries: seq<JournalEntry>, id: string): seq<JournalEntry>
  {
    if entries == [] then []
    else if entries[0].id != id then [entries[0]] + RemoveId(entries[1..], id)
    else RemoveId(entries[1..], id)
  }

  /** Exactly the entries with another id are kept. */
  lemma {:induction false} RemoveIdMembership(entries: seq<JournalEntry>, id: string)
    ensures forall e :: e in RemoveId(entries, id) <==> e in entries && e.id != id
    ensures |RemoveId(entries, id)| <= |entries|
  {
    if entries != [] {
      RemoveIdMembership(entries[1..], id);
      assert entries == [entries[0]] + entries[1..];
    }
  }

  /** Removing an id no entry has leaves the list as it was. */
  lemma {:induction false} RemoveAbsentId(entries: seq<JournalEntry>, id: string)
    requires forall e :: e in entries ==> e.id != id
    ensures RemoveId(entries, id) == entries
  {
    if entries != [] {
      assert entries[0] in entries;
      RemoveAbsentId(entries[1..], id);
      assert entries == [entries[0]] + entries[1..];
    }
  }

  /** Filtering a list in two parts filters each part, so the order is kept. */
  lemma {:induction false} RemoveIdAppend(a: seq<JournalEntry>, b: seq<JournalEntry>, id: string)
    ensures RemoveId(a + b, id) == RemoveId(a, id) + RemoveId(b, id)
  {
    if a != [] {
      assert (a + b)[1..] == a[1..] + b;
      RemoveIdAppend(a[1..], b, id);
    } else {
      assert a + b == b;
    }
  }

  /** Deleting the same entry twice removes nothing more. */
  lemma RemoveIdIdempotent(entries: seq<JournalEntry>, id: string)
    ensures RemoveId(RemoveId(entries, id), id) == RemoveId(entries, id)
  {
    RemoveIdMembership(entries, id);
    RemoveAbsentId(RemoveId(entries, id), id);
  }

  /** The `JournalList` component's state. */
  class JournalList {
    var entries: seq<JournalEntry>
    var loading: bool
    var error: Option<string>

    constructor()
      ensures entries == [] && loading && error.None?
    {
      entries := [];
      loading := true;
      error := None;
    }

    /**
     * `fetchJournalEntries`: `auth` is what `getUser()` yields, `rows` the
     * table's rows in the query's order and `dbError` the query's error.
     */
    method FetchJournalEntries(auth: AuthOutcome, rows: seq<JournalEntry>, dbError: Option<StoreError>)
      returns (sent: Option<Query>)
      modifies this
      ensures !loading
      ensures sent.Some? <==> auth.SignedIn?
      ensures auth.SignedIn? ==> sent == Some(EntriesQuery(auth.user.id))
      ensures auth.AuthFailed? ==>
        entries == old(entries) && error == Some(LoadError("Auth error: " + auth.message))
      ensures auth.SignedOut? ==> entries == old(entries) && error == old(error)
      ensures auth.SignedIn? && dbError.Some? ==>
        entries == old(entries) && error == Some(LoadError("Database error: " + dbError.value.message))
      // the user's entries, all of them, in the store's order
      ensures auth.SignedIn? && dbError.None? ==>
        && entries == Run(EntriesQuery(auth.user.id), rows, JournalRow)
        && (forall e :: e in entries <==> e in rows && e.user_id == auth.user.id)
        && error == old(error)
    {
      sent := None;
      match auth {
        case AuthFailed(m) =>
          error := Some(LoadError(Describe(ErrorInstance("Auth error: " + m))));
        case SignedOut =>
        case SignedIn(user) =>
          var q := EntriesQuery(user.id);
          sent := Some(q);
          if dbError.Some? {
            error := Some(LoadError(Describe(ErrorInstance("Database error: " + dbError.value.message))));
          } else {
            entries := Run(q, rows, JournalRow);
            forall e | e in rows ensures Satisfies(JournalRow(e), q.filters) <==> e.user_id == user.id {
              OwnerFilter(e.id, e.user_id, user.id);
            }
          }
      }
      loading := false;
    }

    /**
     * `handleDelete(id)`: `confirmed` is the dialog's answer, `auth` what
     * `getUser()` yields and `deleteError` the delete's error. Returns the
     * delete's filters, if it was sent, and the alert shown, if any.
     */
    method HandleDelete(id: string, confirmed: bool, auth: AuthOutcome, deleteError: Option<StoreError>)
      returns (deleted: Option<seq<Filter>>, alert: Option<string>)
      modifies this`entries
      // declining, or no user, does nothing
      ensures !confirmed || auth.SignedOut? ==> entries == old(entries) && deleted.None? && alert.None?
      // an auth error is rethrown and alerted
      ensures confirmed && auth.AuthFailed? ==>
        entries == old(entries) && deleted.None? && alert == Some(DeleteError(ErrorInstance(auth.message)))
      // the delete names the entry and its owner
      ensures confirmed && auth.SignedIn? ==> deleted == Some([Eq("id", id), Eq("user_id", auth.user.id)])
      ensures confirmed && auth.SignedIn? && deleteError.Some? ==>
        entries == old(entries) && alert == Some(DeleteError(deleteError.value.AsThrown()))
      // a successful delete drops every listed entry with that id and keeps the rest in order
      ensures confirmed && auth.SignedIn? && deleteError.None? ==>
        entries == RemoveId(old(entries), id) && alert.None?
    {
      deleted := None;
      alert := None;
      if !confirmed {
        return;
      }
      match auth {
        case AuthFailed(m) =>
          alert := Some(DeleteError(ErrorInstance(m)));
        case SignedOut =>
        case SignedIn(user) =>
          deleted := Some([Eq("id", id), Eq("user_id", user.id)]);
          if deleteError.Some? {
            alert := Some(DeleteError(deleteError.value.AsThrown()));
          } else {
            entries := RemoveId(entries, id);
          }
      }
    }
  }
}
