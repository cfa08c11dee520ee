// components/mood-tracker.tsx: the score-to-label table, the lookup of the
// slider's score in it, and the form's submit handler, which bootstraps the
// profile, builds the entry and updates the form's flags.

module MoodTracking {
  import opened Wrappers
  import opened Errors
  import opened Text
  import opened Sequences
  import Store

  datatype MoodLabel = MoodLabel(score: int, name: string, emoji: string)

  /** `moodLabels` */
  const MoodLabels: seq<MoodLabel> := [
    MoodLabel(1, "Terrible", "😭"),
    MoodLabel(2, "Bad", "😢"),
    MoodLabel(3, "Sad", "😔"),
    MoodLabel(4, "Meh", "😐"),
    MoodLabel(5, "Okay", "🙂"),
    MoodLabel(6, "Good", "😊"),
    MoodLabel(7, "Great", "😁"),
    MoodLabel(8, "Excellent", "🥳"),
    MoodLabel(9, "Amazing", "😍"),
    MoodLabel(10, "Euphoric", "🤩")
  ]

  /** The slider's range: `min={1} max={10} step={1}`. */
  predicate IsSliderValue(score: int)
  {
    1 <= score <= 10
  }

  /** The table lists scores 1 to 10 in order, each with its own label. */
  lemma TableIsOneToOne()
    ensures |MoodLabels| == 10
    ensures forall i :: 0 <= i < |MoodLabels| ==> MoodLabels[i].score == i + 1
    ensures forall i, j :: 0 <= i < j < |MoodLabels| ==> MoodLabels[i].name != MoodLabels[j].name
  {
  }

  /** `moodLabels.find((m) => m.score === moodScore)` */
  function CurrentMood(score: int): Option<MoodLabel>
  {
    Find(MoodLabels, (m: MoodLabel) => m.score == score)
  }

  /** Each slider value finds exactly its own entry; any other score finds none. */
  lemma {:induction false} CurrentMoodIsTotalOnSlider(score: int)
    ensures IsSliderValue(score) ==> CurrentMood(score) == Some(MoodLabels[score - 1])
    ensures IsSliderValue(score) ==> forall i :: 0 <= i < |MoodLabels| && MoodLabels[i].score == score ==> i == score - 1
    ensures !IsSliderValue(score) ==> CurrentMood(score).None?
  {
    TableIsOneToOne();
    var p := (m: MoodLabel) => m.score == score;
    FindSpec(MoodLabels, p);
    var r := CurrentMood(score);
    if IsSliderValue(score) {
      assert p(MoodLabels[score - 1]);
      var i :| FirstMatchAt(MoodLabels, p, i) && MoodLabels[i] == r.value;
      assert i == score - 1;
    } else {
      assert forall i :: 0 <= i < |MoodLabels| ==> !p(MoodLabels[i]);
    }
  }

  /** `currentMood?.label || ""` */
  function MoodLabelText(score: int): (r: string)
    ensures IsSliderValue(score) ==> r == MoodLabels[score - 1].name && r != ""
    ensures !IsSliderValue(score) ==> r == ""
  {
    CurrentMoodIsTotalOnSlider(score);
    var found := CurrentMood(score);
    if found.Some? && found.value.name != "" then found.value.name else ""
  }

  /** The form starts at score 5, whose label is "Okay". */
  lemma InitialScoreIsOkay()
    ensures MoodLabelText(InitialScore) == "Okay"
  {
  }

  const InitialScore := 5

  /** `notes.trim() || null` */
  function NotesValue(notes: string): (r: Option<string>)
    ensures r.None? <==> AllWhitespace(notes)
    ensures r.Some? ==> r.value == Trim(notes) && r.value != ""
  {
    TrimEmptyIff(notes);
    var t := Trim(notes);
    if t == "" then None else Some(t)
  }

  /** The object inserted into `mood_entries`. */
  datatype NewMoodEntry = NewMoodEntry(user_id: string, mood_score: int, mood_label: string, notes: Option<string>)

  /** The entry `handleSubmit` builds for a user from the form's score and notes. */
  function MoodEntryPayload(userId: string, score: int, notes: string): NewMoodEntry
  {
    NewMoodEntry(userId, score, MoodLabelText(score), NotesValue(notes))
  }

  /**
   * A slider score is saved with its own, non-empty label, and the notes are
   * saved trimmed, or as null when they hold nothing but whitespace.
   */
  lemma PayloadFields(userId: string, score: int, notes: string)
    requires IsSliderValue(score)
    ensures MoodEntryPayload(userId, score, notes).mood_label == MoodLabels[score - 1].name != ""
    ensures MoodEntryPayload(userId, score, notes).notes.None? <==> AllWhitespace(notes)
    ensures MoodEntryPayload(userId, score, notes).notes.Some? ==>
      MoodEntryPayload(userId, score, notes).notes.value == Trim(notes) != ""
  {
  }

  /** The message shown when saving fails. */
  function SaveError(e: Thrown): string
  {
    "Failed to save mood: " + DescribeOrUnknown(e)
  }

  /** The `MoodTracker` component's state. */
  class MoodTracker {
    var moodScore: int
    var notes: string
    var loading: bool
    var error: Option<string>
    var success: bool

    /** The score always comes from the slider. */
    ghost predicate Valid()
      reads this
    {
      IsSliderValue(moodScore)
    }

    constructor()
      ensures Valid()
      ensures moodScore == InitialScore && notes == "" && !loading && error.None? && !success
    {
      moodScore := InitialScore;
      notes := "";
      loading := false;
      error := None;
      success := false;
    }

    /** The slider's `onValueChange`. */
    method SetMoodScore(value: int)
      requires IsSliderValue(value)
      modifies this`moodScore
      ensures Valid() && moodScore == value
    {
      moodScore := value;
    }

    /** The notes field's `onChange`. */
    method SetNotes(value: string)
      modifies this`notes
      ensures notes == value
    {
      notes := value;
    }

    /**
     * `handleSubmit`: `bootstrap` is what `ensureUserProfileExists()` returned
     * or threw, `insertError` the insert's error. Returns the entry sent to
     * the store, if the submit got that far.
     */
    method HandleSubmit(bootstrap: Result<string, Thrown>, insertError: Option<Store.StoreError>)
      returns (inserted: Option<NewMoodEntry>)
      requires Valid()
      modifies this
      ensures Valid() && moodScore == old(moodScore) && !loading
      // the entry: the user's id, the score, its label and the trimmed notes or null
      ensures bootstrap.Failure? <==> inserted.None?
      ensures inserted.Some? ==> inserted.value == MoodEntryPayload(bootstrap.value, moodScore, old(notes))
      // a saved entry clears the notes and reports success
      ensures bootstrap.Success? && insertError.None? ==> notes == "" && success && error.None?
      // a failure keeps the notes and reports the error
      ensures bootstrap.Failure? ==>
        notes == old(notes) && !success && error == Some(SaveError(bootstrap.error))
      ensures bootstrap.Success? && insertError.Some? ==>
        notes == old(notes) && !success && error == Some(SaveError(insertError.value.AsThrown()))
    {
      loading := true;
      error := None;
      success := false;
      if bootstrap.Failure? {
        inserted := None;
        error := Some(SaveError(bootstrap.error));
      } else {
        inserted := Some(MoodEntryPayload(bootstrap.value, moodScore, notes));
        if insertError.Some? {
          error := Some(SaveError(insertError.value.AsThrown()));
        } else {
          notes := "";
          success := true;
        }
      }
      loading := false;
    }
  }
}
