// components/music-recommendations.tsx: three songs for the user's latest
// mood. Stored recommendations are shown when there are any; otherwise the
// AI gateway is asked, and its suggestions are stored and shown. The ids
// and the time given to new rows, and what the gateway and the store
// answer, are parameters.

module MusicPicks {
  import opened Wrappers
  import opened Types
  import opened Store
  import Ai

  /** What a generation round sees: the auth client, the gateway, the insert, fresh ids and the time. */
  datatype GenerationEnv = GenerationEnv(
    auth: AuthOutcome,
    configured: bool,
    outcome: Ai.Completion,
    decode: string -> Option<Ai.Parsed>,
    insertError: Option<StoreError>,
    ids: nat -> string,
    now: Timestamp)

  /** The latest mood: the user's newest entry only. */
  function LatestMoodQuery(userId: string): Query
  {
    Select("mood_entries", [Eq("user_id", userId)], Descending, Some(1))
  }

  /** The stored recommendations: the user's three newest. */
  function StoredQuery(userId: string): Query
  {
    Select("music_recommendations", [Eq("user_id", userId)], Descending, Some(3))
  }

  /** `value || ""` on an optional text: absent and empty both become "". */
  function OrEmpty(value: Option<string>): string
  {
    if value.Some? then value.value else ""
  }

  /** `suggestions.map(...)`: one row per suggestion, for the user and the mood. */
  function ToRecommendations(suggestions: seq<Ai.Suggestion>, userId: string, mood: string,
                             ids: nat -> string, now: Timestamp): seq<MusicRecommendation>
  {
    seq(|suggestions|, i requires 0 <= i < |suggestions| =>
      MusicRecommendation(
        ids(i), userId,
        suggestions[i].track_name, suggestions[i].artist_name,
        Some(OrEmpty(suggestions[i].album_name)), Some(OrEmpty(suggestions[i].spotify_uri)),
        Some(mood), now))
  }

  /**
   * Each suggestion becomes one row, in order, owned by the user, tagged
   * with the mood, with its track and artist kept and an absent album or
   * link stored as "" rather than null.
   */
  lemma ToRecommendationsKeepsSuggestions(suggestions: seq<Ai.Suggestion>, userId: string, mood: string,
                                          ids: nat -> string, now: Timestamp)
    ensures var r := ToRecommendations(suggestions, userId, mood, ids, now);
      && |r| == |suggestions|
      && forall i :: 0 <= i < |r| ==>
        && r[i].user_id == userId && r[i].mood_context == Some(mood)
        && r[i].track_name == suggestions[i].track_name
        && r[i].artist_name == suggestions[i].artist_name
        && r[i].album_name.Some? && r[i].spotify_uri.Some?
        && (suggestions[i].album_name.Some? ==> r[i].album_name == suggestions[i].album_name)
        && (suggestions[i].album_name.None? ==> r[i].album_name == Some(""))
        && (suggestions[i].spotify_uri.Some? ==> r[i].spotify_uri == suggestions[i].spotify_uri)
        && (suggestions[i].spotify_uri.None? ==> r[i].spotify_uri == Some(""))
  {
    var r := ToRecommendations(suggestions, userId, mood, ids, now);
    forall i | 0 <= i < |r|
      ensures r[i].album_name == Some(OrEmpty(suggestions[i].album_name))
      ensures r[i].spotify_uri == Some(OrEmpty(suggestions[i].spotify_uri))
      ensures r[i].user_id == userId && r[i].mood_context == Some(mood)
    {
    }
  }

  /**
   * What one `generateRecommendations(mood)` round does: the model call
   * made, the rows sent to the store, and the list shown afterwards when it
   * changes.
   */
  datatype Round = Round(call: Option<Ai.ModelCall>, sent: seq<MusicRecommendation>,
                         shown: Option<seq<MusicRecommendation>>)

  /** The round for a mood, as the outside answers in `env` decide it. */
  function GenerationRound(mood: string, env: GenerationEnv): (r: Round)
    // without a user nothing is asked, sent or shown
    ensures !env.auth.SignedIn? ==> r == Round(None, [], None)
    // with a user the gateway is asked about the mood
    ensures env.auth.SignedIn? ==>
      r.call == Ai.GenerateMusicSuggestion(env.configured, mood, env.outcome, env.decode).call
    // a list is shown only once its rows were inserted without error
    ensures r.shown.Some? ==> r.shown.value == r.sent && env.insertError.None?
    // a reply holding a null makes the mapping throw: nothing is sent or shown
    ensures Ai.GenerateMusicSuggestion(env.configured, mood, env.outcome, env.decode).result.NullElement? ==>
      r.sent == [] && r.shown.None?
    // otherwise one row per suggestion is sent, and shown when the insert succeeds
    ensures env.auth.SignedIn?
            && Ai.GenerateMusicSuggestion(env.configured, mood, env.outcome, env.decode).result.Songs? ==>
      && |r.sent| == |Ai.GenerateMusicSuggestion(env.configured, mood, env.outcome, env.decode).result.songs|
      && (forall x :: x in r.sent ==> x.user_id == env.auth.user.id && x.mood_context == Some(mood))
      && (r.shown.Some? <==> env.insertError.None?)
      // row i is built from suggestion i, as `ToRecommendationsKeepsSuggestions` describes
      && r.sent == ToRecommendations(Ai.GenerateMusicSuggestion(env.configured, mood, env.outcome, env.decode).result.songs,
                                     env.auth.user.id, mood, env.ids, env.now)
  {
    if !env.auth.SignedIn? then Round(None, [], None)
    else
      var run := Ai.GenerateMusicSuggestion(env.configured, mood, env.outcome, env.decode);
      match run.result
      case NullElement => Round(run.call, [], None)
      case Songs(list) =>
        var rows := ToRecommendations(list, env.auth.user.id, mood, env.ids, env.now);
        ToRecommendationsKeepsSuggestions(list, env.auth.user.id, mood, env.ids, env.now);
        Round(run.call, rows, if env.insertError.None? then Some(rows) else None)
  }

  /**
   * When the gateway is not configured or its call fails, a signed-in user
   * still gets the three calming tracks, tagged with the mood asked about.
   */
  lemma FallbackRecommendations(mood: string, env: GenerationEnv)
    requires env.auth.SignedIn?
    requires !env.configured || env.outcome.Threw?
    ensures var r := GenerationRound(mood, env).sent;
      && |r| == 3
      && (forall i :: 0 <= i < 3 ==> r[i].mood_context == Some(mood) && r[i].user_id == env.auth.user.id)
      && r[0].track_name == "Weightless" && r[1].track_name == "Electra" && r[2].track_name == "Watermark"
  {
    ToRecommendationsKeepsSuggestions(Ai.Fallback, env.auth.user.id, mood, env.ids, env.now);
  }

  /**
   * A reply that parses to an array holding a `null` stores nothing and
   * leaves the list shown as it was, even when the insert would succeed.
   */
  lemma NullReplyStoresNothing(mood: string, env: GenerationEnv)
    requires env.configured && env.outcome.Completed?
    requires Ai.ExtractArray(env.outcome.text).Some?
    requires env.decode(Ai.ExtractArray(env.outcome.text).value) == Some(Ai.NullElement)
    ensures GenerationRound(mood, env).sent == [] && GenerationRound(mood, env).shown.None?
  {
  }

  /** The list shown after a round that started from `before`. */
  function Shown(round: Round, before: seq<MusicRecommendation>): seq<MusicRecommendation>
  {
    if round.shown.Some? then round.shown.value else before
  }

  /** The `MusicRecommendations` component's state. */
  class MusicRecommendations {
    var recommendations: seq<MusicRecommendation>
    var latestMood: Option<MoodEntry>
    var loading: bool

    constructor()
      ensures recommendations == [] && latestMood.None? && !loading
    {
      recommendations := [];
      latestMood := None;
      loading := false;
    }

    /**
     * `generateRecommendations(mood)`: returns the model call made and the
     * rows sent to the store.
     */
    method GenerateRecommendations(mood: string, env: GenerationEnv)
      returns (call: Option<Ai.ModelCall>, sent: seq<MusicRecommendation>)
      modifies this`recommendations, this`loading
      ensures !loading
      ensures call == GenerationRound(mood, env).call && sent == GenerationRound(mood, env).sent
      ensures recommendations == Shown(GenerationRound(mood, env), old(recommendations))
    {
      loading := true;
      call := None;
      sent := [];
      if env.auth.SignedIn? {
        var user := env.auth.user;
        var run := Ai.GenerateMusicSuggestion(env.configured, mood, env.outcome, env.decode);
        call := run.call;
        if run.result.Songs? {
          sent := ToRecommendations(run.result.songs, user.id, mood, env.ids, env.now);
          if env.insertError.None? {
            recommendations := sent;
          }
        }
      }
      loading := false;
    }

    /**
     * `fetchData`: `auth` is what its `getUser()` yields; the two queries'
     * rows (in the query's order) and errors follow; `env` is what the
     * generation round, if one starts, sees. Returns the queries sent, the
     * model call made and the rows inserted.
     */
    method FetchData(auth: AuthOutcome, moodRows: seq<MoodEntry>, moodError: Option<StoreError>,
                     recRows: seq<MusicRecommendation>, recError: Option<StoreError>, env: GenerationEnv)
      returns (queries: seq<Query>, call: Option<Ai.ModelCall>, sent: seq<MusicRecommendation>)
      modifies this
      // without a user, or when the mood query fails, nothing else happens
      ensures !auth.SignedIn? ==> queries == [] && unchanged(this) && call.None? && sent == []
      ensures auth.SignedIn? && moodError.Some? ==>
        queries == [LatestMoodQuery(auth.user.id)] && unchanged(this) && call.None? && sent == []
      // the newest mood entry, if there is one, becomes the latest mood
      ensures auth.SignedIn? && moodError.None? ==>
        var latest := Run(LatestMoodQuery(auth.user.id), moodRows, MoodRow);
        && queries == [LatestMoodQuery(auth.user.id), StoredQuery(auth.user.id)]
        && latestMood == (if latest != [] then Some(latest[0]) else old(latestMood))
      // stored recommendations win; they are at most three and the user's own
      ensures auth.SignedIn? && moodError.None? && recError.None?
              && Run(StoredQuery(auth.user.id), recRows, RecommendationRow) != [] ==>
        && recommendations == Run(StoredQuery(auth.user.id), recRows, RecommendationRow)
        && |recommendations| <= 3
        && (forall r :: r in recommendations ==> r.user_id == auth.user.id)
        && call.None? && sent == [] && loading == old(loading)
      // without stored ones, a round is generated for the latest mood's label
      ensures auth.SignedIn? && moodError.None? && recError.None?
              && Run(StoredQuery(auth.user.id), recRows, RecommendationRow) == []
              && Run(LatestMoodQuery(auth.user.id), moodRows, MoodRow) != [] ==>
        var round := GenerationRound(Run(LatestMoodQuery(auth.user.id), moodRows, MoodRow)[0].mood_label, env);
        && !loading && call == round.call && sent == round.sent
        && recommendations == Shown(round, old(recommendations))
      // no stored recommendations and no mood: nothing is shown or generated
      ensures auth.SignedIn? && moodError.None?
              && (recError.Some? || (Run(StoredQuery(auth.user.id), recRows, RecommendationRow) == []
                                     && Run(LatestMoodQuery(auth.user.id), moodRows, MoodRow) == [])) ==>
        recommendations == old(recommendations) && loading == old(loading) && call.None? && sent == []
    {
      queries := [];
      call := None;
      sent := [];
      if !auth.SignedIn? {
        return;
      }
      var user := auth.user;
      var moodQuery := LatestMoodQuery(user.id);
      queries := [moodQuery];
      if moodError.Some? {
        return;
      }
      var moodData := Run(moodQuery, moodRows, MoodRow);
      if |moodData| > 0 {
        latestMood := Some(moodData[0]);
      }
      var recQuery := StoredQuery(user.id);
      queries := queries + [recQuery];
      if recError.Some? {
        return;
      }
      var recData := Run(recQuery, recRows, RecommendationRow);
      if |recData| > 0 {
        recommendations := recData;
        forall r | r in recData ensures r.user_id == user.id {
          OwnerFilter(r.id, r.user_id, user.id);
        }
      } else if |moodData| > 0 {
        call, sent := GenerateRecommendations(moodData[0].mood_label, env);
      }
    }

    /** `handleRefresh`: a new round for the latest mood, if there is one. */
    method HandleRefresh(env: GenerationEnv) returns (call: Option<Ai.ModelCall>, sent: seq<MusicRecommendation>)
      modifies this`recommendations, this`loading
      ensures latestMood.None? ==> unchanged(this) && call.None? && sent == []
      ensures latestMood.Some? ==>
        var round := GenerationRound(latestMood.value.mood_label, env);
        && !loading && call == round.call && sent == round.sent
        && recommendations == Shown(round, old(recommendations))
    {
      call := None;
      sent := [];
      if latestMood.Some? {
        call, sent := GenerateRecommendations(latestMood.value.mood_label, env);
      }
    }
  }
}
