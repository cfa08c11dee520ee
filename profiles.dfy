// lib/db/profiles.ts: `ensureUserProfileExists`, the bootstrap every saving
// component runs before it writes. The store's lookup and insert are
// parameters; the function returns the store requests it makes, in order,
// with the id it returns or the value it throws.

module Profiles {
  import opened Wrappers
  import opened Errors
  import opened Types
  import Text
  import opened Store

  /** The PostgREST code `.single()` reports when the lookup finds no row. */
  const NoRowsCode := "PGRST116"

  /** What `.from("profiles").select("id").eq("id", id).single()` yields. */
  datatype ProfileLookup = ProfileLookup(found: bool, error: Option<StoreError>)

  /** A request the bootstrap makes of the store. */
  datatype Effect =
    | LookupProfile(id: string)
    | InsertProfile(profile: UserProfile)

  /** The store requests made, in order, and the returned id or the thrown value. */
  datatype Bootstrap = Bootstrap(effects: seq<Effect>, outcome: Result<string, Thrown>)

  /** `profileError?.code === "PGRST116"` */
  predicate IsNoRows(error: Option<StoreError>)
  {
    error.Some? && error.value.code == Some(NoRowsCode)
  }

  /**
   * The insert condition exactly as written on line 25:
   * `(!existingProfile && code !== "PGRST116") || (profileError && code !== "PGRST116")`.
   */
  predicate InsertWanted(found: bool, error: Option<StoreError>)
  {
    (!found && !IsNoRows(error)) || (error.Some? && !IsNoRows(error))
  }

  /** The condition the comment above line 25 describes: a missing profile is created. */
  predicate InsertWantedCorrected(found: bool, error: Option<StoreError>)
  {
    !found || (error.Some? && !IsNoRows(error))
  }

  /** The truth table of the written condition. */
  lemma InsertWantedTruthTable(found: bool, error: Option<StoreError>)
    ensures InsertWanted(found, error) <==> !IsNoRows(error) && (!found || error.Some?)
    ensures found && error.None? ==> !InsertWanted(found, error)
    ensures !found && error.None? ==> InsertWanted(found, error)
    ensures error.Some? && !IsNoRows(error) ==> InsertWanted(found, error)
  {
  }

  /**
   * As written, a lookup that finds no row and reports "no rows" does not
   * insert: a new user's profile is never created.
   */
  lemma NoRowsSkipsInsert(message: string)
    ensures IsNoRows(Some(StoreError(Some(NoRowsCode), message)))
    ensures !InsertWanted(false, Some(StoreError(Some(NoRowsCode), message)))
  {
  }

  /**
   * The corrected condition inserts whenever no profile was found and never
   * for a found profile without error; it differs from the written one only
   * on a "no rows" lookup that found nothing.
   */
  lemma CorrectedInsertsMissingProfile(found: bool, error: Option<StoreError>)
    ensures !found ==> InsertWantedCorrected(found, error)
    ensures found && error.None? ==> !InsertWantedCorrected(found, error)
    ensures InsertWanted(found, error) != InsertWantedCorrected(found, error) <==> !found && IsNoRows(error)
  {
  }

  /**
   * `user.email?.split('@')[0] || "User"`: the email text before its first
   * '@', or "User" when the email is absent or that text is empty.
   */
  function DisplayName(email: Option<string>): (r: string)
    ensures r != [] && '@' !in r
    ensures email.None? || email.value == [] || email.value[0] == '@' ==> r == "User"
    ensures email.Some? && email.value != [] && email.value[0] != '@' ==>
      r <= email.value && (|r| == |email.value| || email.value[|r|] == '@')
  {
    if email.None? then "User"
    else
      var local := Text.BeforeFirst(email.value, '@');
      if local == [] then "User" else local
  }

  /**
   * `ensureUserProfileExists()`: with the auth outcome, the lookup's answer,
   * the insert's error (if any) and the time of the call. The insert is
   * decided by the corrected condition, so a missing profile is created.
   */
  function EnsureUserProfileExists(auth: AuthOutcome, lookup: ProfileLookup, insertError: Option<StoreError>, now: Timestamp): (r: Bootstrap)
    // an auth error, or no user, throws before the store is asked anything
    ensures auth.AuthFailed? ==> r.effects == [] && r.outcome == Failure(ErrorInstance(auth.message))
    ensures auth.SignedOut? ==> r.effects == [] && r.outcome == Failure(ErrorInstance("Not authenticated"))
    // a signed-in user's profile is looked up first, and inserted exactly when the condition holds
    ensures auth.SignedIn? ==>
      && 1 <= |r.effects| <= 2
      && r.effects[0] == LookupProfile(auth.user.id)
      && (|r.effects| == 2 <==> InsertWantedCorrected(lookup.found, lookup.error))
    ensures |r.effects| == 2 ==>
      r.effects[1] == InsertProfile(UserProfile(auth.user.id, Some(DisplayName(auth.user.email)), now, now))
    // the only value returned is the signed-in user's id; an insert error is rethrown
    ensures r.outcome.Success? <==> auth.SignedIn? && (insertError.None? || !InsertWantedCorrected(lookup.found, lookup.error))
    ensures r.outcome.Success? ==> r.outcome.value == auth.user.id
    ensures auth.SignedIn? && r.outcome.Failure? ==> |r.effects| == 2 && r.outcome.error == insertError.value.AsThrown()
  {
    match auth
    case AuthFailed(m) => Bootstrap([], Failure(ErrorInstance(m)))
    case SignedOut => Bootstrap([], Failure(ErrorInstance("Not authenticated")))
    case SignedIn(user) =>
      var lookedUp := [LookupProfile(user.id)];
      if InsertWantedCorrected(lookup.found, lookup.error) then
        var profile := UserProfile(user.id, Some(DisplayName(user.email)), now, now);
        var effects := lookedUp + [InsertProfile(profile)];
        if insertError.Some? then Bootstrap(effects, Failure(insertError.value.AsThrown()))
        else Bootstrap(effects, Success(user.id))
      else
        Bootstrap(lookedUp, Success(user.id))
  }

  /** A new user, whose lookup reports "no rows", gets a profile named after the email. */
  lemma NewUserGetsProfile(user: User, message: string, now: Timestamp)
    ensures var r := EnsureUserProfileExists(SignedIn(user), ProfileLookup(false, Some(StoreError(Some(NoRowsCode), message))), None, now);
      && r.effects == [LookupProfile(user.id), InsertProfile(UserProfile(user.id, Some(DisplayName(user.email)), now, now))]
      && r.outcome == Success(user.id)
  {
  }

  /** A found profile with no lookup error is never inserted again. */
  lemma FoundProfileIsKept(user: User, insertError: Option<StoreError>, now: Timestamp)
    ensures EnsureUserProfileExists(SignedIn(user), ProfileLookup(true, None), insertError, now)
         == Bootstrap([LookupProfile(user.id)], Success(user.id))
  {
  }
}
