// The record shapes of lib/types.ts, and the signed-in identity the auth
// client hands to every component.

module Types {
  import opened Wrappers

  /** An ISO timestamp, abstracted as a number that orders like the text does. */
  type Timestamp = int

  datatype MoodEntry = MoodEntry(
    id: string,
    user_id: string,
    mood_score: int,
    mood_label: string,
    notes: Option<string>,
    created_at: Timestamp)

  datatype JournalEntry = JournalEntry(
    id: string,
    user_id: string,
    title: string,
    content: string,
    prompt_used: Option<string>,
    created_at: Timestamp,
    updated_at: Timestamp)

  datatype ChatMessage = ChatMessage(
    id: string,
    user_id: string,
    is_user: bool,
    content: string,
    created_at: Timestamp)

  datatype MusicRecommendation = MusicRecommendation(
    id: string,
    user_id: string,
    track_name: string,
    artist_name: string,
    album_name: Option<string>,
    spotify_uri: Option<string>,
    mood_context: Option<string>,
    created_at: Timestamp)

  datatype UserProfile = UserProfile(
    id: string,
    display_name: Option<string>,
    created_at: Timestamp,
    updated_at: Timestamp)

  /** The user the auth client resolves; `email` may be absent. */
  datatype User = User(id: string, email: Option<string>)

  /**
   * What `supabase.auth.getUser()` yields: an error (an `Error` instance
   * with a message, in the auth client), no user, or a user.
   */
  datatype AuthOutcome =
    | AuthFailed(message: string)
    | SignedOut
    | SignedIn(user: User)
  {
    /** `data.user` when the caller ignores the error field: null unless signed in. */
    function UserOrNull(): Option<User>
    {
      if SignedIn? then Some(user) else None
    }
  }
}
