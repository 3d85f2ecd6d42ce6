/** The auth layer: a provider that holds the session, the signed-in user,
    that user's profile and a loading flag, refreshes them from the auth
    service on mount and on every auth-state change, and renders the app only
    when it is not loading. */
module Auth {
  import opened Wrappers
  import opened Domain

  /** What the provider hands to its consumers. */
  datatype AuthContextValue = AuthContextValue(
    session: Option<Session>,
    user: Option<User>,
    profile: Option<Profile>,
    loading: bool)

  const OutsideProviderMessage := "useAuth must be used within an AuthProvider"

  /** `useAuth`: the provider's value, or the error it throws when there is no
      provider above the caller. */
  function UseAuth(context: Option<AuthContextValue>): (r: Result<AuthContextValue>)
    ensures r.Err? <==> context.None?
    ensures r.Err? ==> r.message == OutsideProviderMessage
    ensures r.Ok? ==> r.value == context.value
  {
    match context
    case None => Err(OutsideProviderMessage)
    case Some(v) => Ok(v)
  }

  class AuthProvider {
    var loading: bool
    var session: Option<Session>
    var user: Option<User>
    var profile: Option<Profile>

    /** The provider's first render: loading, and nothing known yet. */
    constructor ()
      ensures loading && session == None && user == None && profile == None
    {
      loading := true;
      session := None;
      user := None;
      profile := None;
    }

    function Value(): (v: AuthContextValue)
      reads this
      ensures v.session == session && v.user == user && v.profile == profile && v.loading == loading
    {
      AuthContextValue(session, user, profile, loading)
    }

    /** The provider renders its children only when it is not loading. */
    function RendersChildren(): (b: bool)
      reads this
      ensures b <==> !loading
    {
      !loading
    }

    /** First step of `fetchData`: loading starts; nothing else changes. */
    method BeginFetch()
      modifies this
      ensures loading
      ensures session == old(session) && user == old(user) && profile == old(profile)
    {
      loading := true;
    }

    /** `getSession` has answered. A failure is only logged; no session ends
        the fetch; a session is stored with its user, and the profile lookup
        for that user follows (its user is returned). */
    method SessionArrived(reply: Result<Option<Session>>) returns (lookup: Option<User>)
      modifies this
      ensures reply.Err? || reply.value.None? ==>
                && lookup.None? && !loading
                && session == old(session) && user == old(user) && profile == old(profile)
      ensures reply.Ok? && reply.value.Some? ==>
                && lookup == Some(reply.value.value.user)
                && session == reply.value && user == Some(reply.value.value.user)
                && profile == old(profile) && loading == old(loading)
    {
      lookup := None;
      match reply
      case Err(_) =>
        loading := false;
      case Ok(None) =>
        loading := false;
      case Ok(Some(s)) =>
        user := Some(s.user);
        session := Some(s);
        lookup := Some(s.user);
    }

    /** The profile lookup has answered: a found profile is stored, a failure
        is only logged; either way loading ends. */
    method ProfileArrived(reply: Result<Profile>)
      modifies this
      ensures !loading
      ensures profile == (if reply.Ok? then Some(reply.value) else old(profile))
      ensures session == old(session) && user == old(user)
    {
      if reply.Ok? {
        profile := Some(reply.value);
      }
      loading := false;
    }

    /** `fetchData` run to completion. `profileReply` is what the profile
        lookup would answer; it is consulted only when there is a session. */
    method FetchData(sessionReply: Result<Option<Session>>, profileReply: Result<Profile>)
      modifies this
      ensures !loading
      // a session error, or no session, changes nothing but the loading flag
      ensures sessionReply.Err? || sessionReply.value.None? ==>
                session == old(session) && user == old(user) && profile == old(profile)
      // a session is stored with its user; the profile only if the lookup succeeds
      ensures sessionReply.Ok? && sessionReply.value.Some? ==>
                && session == sessionReply.value
                && user == Some(sessionReply.value.value.user)
                && profile == (if profileReply.Ok? then Some(profileReply.value) else old(profile))
      // the profile is never cleared
      ensures old(profile).Some? ==> profile.Some?
    {
      BeginFetch();
      var lookup := SessionArrived(sessionReply);
      if lookup.Some? {
        ProfileArrived(profileReply);
      }
    }

    /** The auth-change listener: the event's session and its user (or no
        user) are stored at once, then `fetchData` runs again. */
    method OnAuthStateChange(eventSession: Option<Session>, sessionReply: Result<Option<Session>>, profileReply: Result<Profile>)
      modifies this
      ensures !loading
      ensures sessionReply.Err? || sessionReply.value.None? ==>
                && session == eventSession
                && user == (if eventSession.Some? then Some(eventSession.value.user) else None)
                && profile == old(profile)
      ensures sessionReply.Ok? && sessionReply.value.Some? ==>
                && session == sessionReply.value
                && user == Some(sessionReply.value.value.user)
                && profile == (if profileReply.Ok? then Some(profileReply.value) else old(profile))
      // signing out keeps the previous user's profile
      ensures eventSession.None? && sessionReply == Ok(None) ==>
                session.None? && user.None? && profile == old(profile)
    {
      session := eventSession;
      user := if eventSession.Some? then Some(eventSession.value.user) else None;
      FetchData(sessionReply, profileReply);
    }
  }

  /** A sign-in followed by a sign-out leaves the signed-in user's profile in
      place: nothing in the provider ever resets it. */
  method SignInThenOut(s: Session, p: Profile) returns (a: AuthProvider)
    ensures !a.loading && a.session.None? && a.user.None?
    ensures a.profile == Some(p)
    ensures a.RendersChildren()
  {
    a := new AuthProvider();
    a.FetchData(Ok(None), Err("unused"));
    a.OnAuthStateChange(Some(s), Ok(Some(s)), Ok(p));
    a.OnAuthStateChange(None, Ok(None), Err("unused"));
  }
}
