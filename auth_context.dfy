/**
 * The authentication context: the feature and limit lookups it offers, and the
 * transitions of its state record. The backend's replies (profile fetch, profile
 * creation, profile update, sign-out) are inputs; the requests the provider would send
 * are returned so that a contract can say what was asked for.
 */
module AuthContext {
  import opened Wrappers
  import opened Accounts

  // ---------------------------------------------------------------------------------
  // Lookups

  /** `checkFeatureAccess`: no profile, no access; otherwise the feature must be among the
      profile tier's features. */
  function CheckFeatureAccess(table: LimitsTable, profile: Option<Profile>, feature: string): (b: bool)
    ensures profile.None? ==> !b
    ensures profile.Some? ==> (b <==> feature in LimitsOf(table, profile.value.tier).features)
  {
    match profile
    case None => false
    case Some(p) => feature in LimitsOf(table, p.tier).features
  }

  /** `getRemainingLimits`: the free tier's limits without a profile, the profile tier's
      otherwise. */
  function GetRemainingLimits(table: LimitsTable, profile: Option<Profile>): (limits: SubscriptionLimits)
    ensures profile.None? ==> limits == table.free
    ensures profile.Some? ==> limits == LimitsOf(table, profile.value.tier)
  {
    match profile
    case None => table.free
    case Some(p) => LimitsOf(table, p.tier)
  }

  /** The two lookups agree: a feature is accessible exactly when there is a profile and the
      feature is listed in the limits the context reports. Without a profile the free
      features are reported but none is accessible. */
  lemma FeatureAccessMatchesLimits(table: LimitsTable, profile: Option<Profile>, feature: string)
    ensures CheckFeatureAccess(table, profile, feature)
      <==> profile.Some? && feature in GetRemainingLimits(table, profile).features
    ensures profile.None? && feature in table.free.features ==>
      feature in GetRemainingLimits(table, profile).features && !CheckFeatureAccess(table, profile, feature)
  {
  }

  // ---------------------------------------------------------------------------------
  // Backend replies

  /** An error object of the backend: its code and message. */
  datatype BackendError = BackendError(code: string, message: string)

  /** The code the backend gives when no row was found. */
  const NotFoundCode: string := "PGRST116"

  /** A `{ data, error }` reply carrying a profile row. */
  datatype ProfileReply = ProfileReply(data: Option<Profile>, error: Option<BackendError>)

  /** The row `loadUserProfile` asks to create for a user without a profile. */
  datatype NewProfile = NewProfile(userId: string, fullName: string, tier: Tier)

  /** The new profile: the user's id, the metadata name or "", the free tier. */
  function NewProfileFor(user: User): (p: NewProfile)
    ensures p.userId == user.id && p.tier == Free
    ensures Truthy(user.fullNameMetadata) ==> p.fullName == user.fullNameMetadata.value
    ensures !Truthy(user.fullNameMetadata) ==> p.fullName == ""
  {
    NewProfile(user.id, OrElse(user.fullNameMetadata, ""), Free)
  }

  /** Whether a fetch reply counts as a failure: an error other than "not found". */
  predicate FetchFailed(reply: ProfileReply) {
    reply.error.Some? && reply.error.value.code != NotFoundCode
  }

  /** A not-found error is never a failure, whatever its message. */
  lemma NotFoundIsNoFailure(data: Option<Profile>, message: string)
    ensures !FetchFailed(ProfileReply(data, Some(BackendError(NotFoundCode, message))))
  {
  }

  /** A profile is only ever held alongside a user. */
  predicate ProfileHasUser(s: AuthState) {
    s.profile.Some? ==> s.user.Some?
  }

  /** The state `loadUserProfile` leaves behind, from the state `prev` it starts in. The
      user is recorded and loading ends; the session is kept; a failed fetch, or a failed
      creation of a missing profile, records its message and keeps the old profile;
      otherwise the fetched or created row becomes the profile and the error is cleared. */
  function AfterLoad(prev: AuthState, user: User, fetched: ProfileReply, create: NewProfile -> ProfileReply): (s: AuthState)
    ensures s.user == Some(user) && s.session == prev.session && !s.loading
    ensures FetchFailed(fetched) ==> s.profile == prev.profile && s.error == Some(fetched.error.value.message)
    ensures !FetchFailed(fetched) && fetched.data.Some? ==> s.profile == fetched.data && s.error == None
    ensures !FetchFailed(fetched) && fetched.data.None? ==>
      var created := create(NewProfileFor(user));
      && (created.error.Some? ==> s.profile == prev.profile && s.error == Some(created.error.value.message))
      && (created.error.None? ==> s.profile == created.data && s.error == None)
    ensures ProfileHasUser(s)
  {
    if FetchFailed(fetched) then
      prev.(user := Some(user), loading := false, error := Some(fetched.error.value.message))
    else if fetched.data.Some? then
      prev.(user := Some(user), profile := fetched.data, loading := false, error := None)
    else
      var created := create(NewProfileFor(user));
      if created.error.Some? then
        prev.(user := Some(user), loading := false, error := Some(created.error.value.message))
      else
        prev.(user := Some(user), profile := created.data, loading := false, error := None)
  }

  /** A fetch that fails only with "not found" and returns no row leads to the creation
      request; the created row is then the profile, with the free tier when the backend
      returns what was asked for. */
  lemma MissingProfileIsCreatedFree(prev: AuthState, user: User, message: string, create: NewProfile -> ProfileReply, row: Profile)
    requires create(NewProfileFor(user)) == ProfileReply(Some(row), None)
    requires row.userId == NewProfileFor(user).userId && row.tier == NewProfileFor(user).tier
    ensures var s := AfterLoad(prev, user, ProfileReply(None, Some(BackendError(NotFoundCode, message))), create);
      s.profile == Some(row) && s.profile.value.tier == Free && s.profile.value.userId == user.id && s.error == None
  {
  }

  // ---------------------------------------------------------------------------------
  // Auth events

  datatype AuthEvent = SignedIn | SignedOut | TokenRefreshed | OtherEvent(name: string)

  /** The provider's state. Every transition keeps a profile only alongside a user. */
  class AuthProvider {
    var state: AuthState

    ghost predicate Valid()
      reads this
    {
      ProfileHasUser(state)
    }

    /** The state starts empty and loading. */
    constructor()
      ensures Valid()
      ensures state == InitialState
    {
      state := InitialState;
    }

    /** `loadUserProfile`: the user is recorded and loading starts; a failed fetch records
        its message; a missing profile is created as `NewProfileFor(user)` and the created
        row (or the creation error) is recorded; a fetched profile is recorded. The
        session is never touched. `create` is the backend's reply to a creation request. */
    method LoadUserProfile(user: User, fetched: ProfileReply, create: NewProfile -> ProfileReply)
      returns (request: Option<NewProfile>)
      requires Valid()
      modifies this
      ensures Valid()
      ensures state == AfterLoad(old(state), user, fetched, create)
      ensures request == if !FetchFailed(fetched) && fetched.data.None? then Some(NewProfileFor(user)) else None
    {
      request := None;
      state := state.(user := Some(user), loading := true);
      if FetchFailed(fetched) {
        state := state.(error := Some(fetched.error.value.message), loading := false);
        return;
      }
      if fetched.data.None? {
        var newProfile := NewProfileFor(user);
        request := Some(newProfile);
        var created := create(newProfile);
        if created.error.Some? {
          state := state.(error := Some(created.error.value.message), loading := false);
          return;
        }
        state := state.(profile := created.data, loading := false, error := None);
      } else {
        state := state.(profile := fetched.data, loading := false, error := None);
      }
    }

    /** The listener of auth-state changes. A sign-in with a session loads the session
        user's profile; a sign-out clears the state; a token refresh with a session replaces
        the session and the user and nothing else; any other event changes nothing. */
    method HandleAuthEvent(event: AuthEvent, session: Option<Session>, fetched: ProfileReply, create: NewProfile -> ProfileReply)
      requires Valid()
      modifies this
      ensures Valid()
      ensures event == SignedIn && session.Some? ==> state == AfterLoad(old(state), session.value.user, fetched, create)
      ensures event == SignedOut ==> state == SignedOutState
      ensures event == TokenRefreshed && session.Some? ==>
        state == old(state).(session := session, user := Some(session.value.user))
      ensures event.OtherEvent? || (event != SignedOut && session.None?) ==> state == old(state)
    {
      if event == SignedIn && session.Some? {
        var _ := LoadUserProfile(session.value.user, fetched, create);
      } else if event == SignedOut {
        state := SignedOutState;
      } else if event == TokenRefreshed && session.Some? {
        state := state.(session := session, user := Some(session.value.user));
      }
    }

    /** `signOut`: loading starts and the error is cleared; a failed sign-out records its
        message; a successful one clears the state. */
    method SignOut(reply: Option<BackendError>)
      requires Valid()
      modifies this
      ensures Valid()
      ensures reply.Some? ==> state == old(state).(loading := false, error := Some(reply.value.message))
      ensures reply.None? ==> state == SignedOutState
    {
      state := state.(loading := true, error := None);
      if reply.Some? {
        state := state.(loading := false, error := Some(reply.value.message));
        return;
      }
      state := SignedOutState;
    }

    /** `updateProfile`: without a user or a profile the answer is "No authenticated user"
        and the state is unchanged. Otherwise the update is sent for the user's id; a failed
        update records its message, a successful one records the returned row. `update`
        is the backend's reply for a given user id. */
    method UpdateProfile(update: string -> ProfileReply) returns (error: Option<string>)
      requires Valid()
      modifies this
      ensures Valid()
      ensures old(state).user.None? || old(state).profile.None? ==>
        error == Some("No authenticated user") && state == old(state)
      ensures old(state).user.Some? && old(state).profile.Some? && update(old(state).user.value.id).error.Some? ==>
        error == Some(update(old(state).user.value.id).error.value.message)
        && state == old(state).(loading := false, error := error)
      ensures old(state).user.Some? && old(state).profile.Some? && update(old(state).user.value.id).error.None? ==>
        error == None && state == old(state).(profile := update(old(state).user.value.id).data, loading := false, error := None)
    {
      if state.user.None? || state.profile.None? {
        return Some("No authenticated user");
      }
      var userId := state.user.value.id;
      state := state.(loading := true, error := None);
      var reply := update(userId);
      if reply.error.Some? {
        state := state.(loading := false, error := Some(reply.error.value.message));
        return Some(reply.error.value.message);
      }
      state := state.(profile := reply.data, loading := false, error := None);
      error := None;
    }
  }
}
