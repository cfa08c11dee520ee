// components/journal-editor.tsx: the form that creates a journal entry, or
// edits one when an entry id is given. A new entry is seeded with a prompt
// from the AI gateway; saving bootstraps the profile and then sends one
// update or one insert to the store, which this model returns.

module JournalEditing {
  import opened Wrappers
  import opened Errors
  import opened Types
  import opened Text
  import opened Store
  import Ai

  /** The object inserted into `journal_entries`: the store adds the id and timestamps. */
  datatype NewJournalEntry = NewJournalEntry(user_id: string, title: string, content: string, prompt_used: string)

  /** The write `handleSubmit` sends. */
  datatype JournalWrite =
    | UpdateEntry(filters: seq<Filter>, title: string, content: string, updated_at: Timestamp)
    | InsertEntry(entry: NewJournalEntry)

  /** The filters of the update: `.eq("id", entryId).eq("user_id", userId)`. */
  function EntryFilters(entryId: string, userId: string): seq<Filter>
  {
    [Eq("id", entryId), Eq("user_id", userId)]
  }

  /** The alert text for a failed save. */
  function SaveError(e: Thrown): string
  {
    "Failed to save journal entry: " + Describe(e)
  }

  /** `!title.trim() || !content.trim() || loading` is false: a submit goes ahead. */
  predicate CanSave(title: string, content: string, loading: bool)
  {
    Trim(title) != "" && Trim(content) != "" && !loading
  }

  /** A save goes ahead exactly when both fields hold more than whitespace and no save is running. */
  lemma CanSaveIff(title: string, content: string, loading: bool)
    ensures CanSave(title, content, loading) <==> !AllWhitespace(title) && !AllWhitespace(content) && !loading
  {
    TrimEmptyIff(title);
    TrimEmptyIff(content);
  }

  /** What the store does with an update: every row the filters select gets the new fields. */
  function ApplyUpdate(rows: seq<JournalEntry>, w: JournalWrite): seq<JournalEntry>
    requires w.UpdateEntry?
  {
    seq(|rows|, i requires 0 <= i < |rows| =>
      if Satisfies(JournalRow(rows[i]), w.filters)
      then rows[i].(title := w.title, content := w.content, updated_at := w.updated_at)
      else rows[i])
  }

  /**
   * An update reaches only the entry with that id owned by that user, and
   * changes only its title, content and `updated_at`; `created_at` and
   * `prompt_used` are kept. When no row matches, the table is unchanged.
   */
  lemma UpdateTouchesOnlyTheEntry(rows: seq<JournalEntry>, entryId: string, userId: string,
                                  title: string, content: string, at: Timestamp)
    ensures var r := ApplyUpdate(rows, UpdateEntry(EntryFilters(entryId, userId), title, content, at));
      && |r| == |rows|
      && (forall i :: 0 <= i < |rows| ==>
            && r[i].id == rows[i].id && r[i].user_id == rows[i].user_id
            && r[i].created_at == rows[i].created_at && r[i].prompt_used == rows[i].prompt_used)
      && (forall i :: 0 <= i < |rows| && rows[i].id == entryId && rows[i].user_id == userId ==>
            r[i].title == title && r[i].content == content && r[i].updated_at == at)
      && (forall i :: 0 <= i < |rows| && !(rows[i].id == entryId && rows[i].user_id == userId) ==>
            r[i] == rows[i])
  {
    var w := UpdateEntry(EntryFilters(entryId, userId), title, content, at);
    forall i | 0 <= i < |rows|
      ensures Satisfies(JournalRow(rows[i]), w.filters) <==> rows[i].id == entryId && rows[i].user_id == userId
    {
      IdAndOwnerFilter(rows[i].id, rows[i].user_id, entryId, userId);
    }
  }

  /** The `JournalEditor` component's state. */
  class JournalEditor {
    const entryId: Option<string>
    var title: string
    var content: string
    var prompt: string
    var loading: bool
    var promptLoading: bool
    var error: Option<string>
    var success: bool

    /** `isEditing = !!entryId`: an empty id counts as none. */
    predicate IsEditing()
    {
      entryId.Some? && entryId.value != ""
    }

    constructor(entryId: Option<string>, initialTitle: Option<string>, initialContent: Option<string>)
      ensures this.entryId == entryId
      ensures title == (if initialTitle.Some? then initialTitle.value else "")
      ensures content == (if initialContent.Some? then initialContent.value else "")
      ensures prompt == "" && !loading && !promptLoading && error.None? && !success
    {
      this.entryId := entryId;
      title := if initialTitle.Some? then initialTitle.value else "";
      content := if initialContent.Some? then initialContent.value else "";
      prompt := "";
      loading := false;
      promptLoading := false;
      error := None;
      success := false;
    }

    /**
     * `fetchJournalPrompt`: asks the gateway for a prompt without a mood.
     * The gateway answers with text in every case, so the `catch` fallback
     * is never taken.
     */
    method FetchJournalPrompt(configured: bool, outcome: Ai.Completion) returns (call: Option<Ai.ModelCall>)
      modifies this`prompt, this`promptLoading
      ensures !promptLoading
      ensures prompt == Ai.GenerateJournalPrompt(configured, None, outcome).result
      ensures call == Ai.GenerateJournalPrompt(configured, None, outcome).call
    {
      promptLoading := true;
      var run := Ai.GenerateJournalPrompt(configured, None, outcome);
      prompt := run.result;
      call := run.call;
      promptLoading := false;
    }

    /** The mount effect: a prompt is fetched only when creating. */
    method Mount(configured: bool, outcome: Ai.Completion) returns (call: Option<Ai.ModelCall>)
      modifies this`prompt, this`promptLoading
      ensures IsEditing() ==> prompt == old(prompt) && promptLoading == old(promptLoading) && call.None?
      ensures !IsEditing() ==>
        && !promptLoading
        && prompt == Ai.GenerateJournalPrompt(configured, None, outcome).result
        && call == Ai.GenerateJournalPrompt(configured, None, outcome).call
    {
      call := None;
      if !IsEditing() {
        call := FetchJournalPrompt(configured, outcome);
      }
    }

    method SetTitle(value: string)
      modifies this`title
      ensures title == value
    {
      title := value;
    }

    method SetContent(value: string)
      modifies this`content
      ensures content == value
    {
      content := value;
    }

    /**
     * `handleSubmit`: `bootstrap` is what `ensureUserProfileExists()`
     * returned or threw, `storeError` the write's error and `now` the time
     * of the update. Returns the write sent, if the save got that far.
     */
    method HandleSubmit(bootstrap: Result<string, Thrown>, storeError: Option<StoreError>, now: Timestamp)
      returns (write: Option<JournalWrite>)
      modifies this`loading, this`error, this`success
      // blank fields, or a save already running, change nothing
      ensures !CanSave(title, content, old(loading)) ==>
        loading == old(loading) && error == old(error) && success == old(success) && write.None?
      ensures CanSave(title, content, old(loading)) ==> !loading
      // a failed bootstrap is reported and nothing is written
      ensures CanSave(title, content, old(loading)) && bootstrap.Failure? ==>
        write.None? && !success && error == Some(SaveError(bootstrap.error))
      // editing sends the trimmed fields to the entry with that id, owned by the user
      ensures CanSave(title, content, old(loading)) && bootstrap.Success? && IsEditing() ==>
        write == Some(UpdateEntry(EntryFilters(entryId.value, bootstrap.value), Trim(title), Trim(content), now))
      // creating inserts the trimmed fields with the prompt shown
      ensures CanSave(title, content, old(loading)) && bootstrap.Success? && !IsEditing() ==>
        write == Some(InsertEntry(NewJournalEntry(bootstrap.value, Trim(title), Trim(content), prompt)))
      // the write's outcome decides between success and an error
      ensures CanSave(title, content, old(loading)) && bootstrap.Success? && storeError.None? ==>
        success && error.None?
      ensures CanSave(title, content, old(loading)) && bootstrap.Success? && storeError.Some? ==>
        !success && error == Some(SaveError(ErrorInstance("Database error: " + storeError.value.message)))
    {
      write := None;
      if !CanSave(title, content, loading) {
        return;
      }
      loading := true;
      error := None;
      success := false;
      if bootstrap.Failure? {
        error := Some(SaveError(bootstrap.error));
      } else {
        var userId := bootstrap.value;
        if IsEditing() {
          write := Some(UpdateEntry(EntryFilters(entryId.value, userId), Trim(title), Trim(content), now));
        } else {
          write := Some(InsertEntry(NewJournalEntry(userId, Trim(title), Trim(content), prompt)));
        }
        if storeError.Some? {
          error := Some(SaveError(ErrorInstance("Database error: " + storeError.value.message)));
        } else {
          success := true;
        }
      }
      loading := false;
    }
  }

  /** A saved entry's title and content are never blank. */
  lemma SavedFieldsAreNotBlank(title: string, content: string, loading: bool)
    requires CanSave(title, content, loading)
    ensures Trim(title) != "" && !AllWhitespace(Trim(title))
    ensures Trim(content) != "" && !AllWhitespace(Trim(content))
  {
    TrimEmptyIff(Trim(title));
    TrimIdempotent(title);
    TrimEmptyIff(Trim(content));
    TrimIdempotent(content);
  }
}
