/** The login page: password sign-in and sign-up, a redirect when a session
    already exists, and the one-click demo accounts that sign in (creating the
    account on first use), record the account's role and open its dashboard. */
module Login {
  import opened Wrappers
  import opened Domain
  import Routing

  /** What `signInWithPassword` and `signUp` resolve to. */
  datatype AuthReply = AuthReply(user: Option<User>, session: Option<Session>, error: Option<string>)

  /** The backend calls the demo flow makes, in order. */
  datatype Call =
    | SignIn(email: string, password: string)
    | SignUp(email: string, password: string)
    | UpsertProfile(userId: string, role: Role)

  datatype DemoRole = DemoBuyer | DemoAdmin

  const DemoPassword := "demo123456"

  function DemoEmail(r: DemoRole): string
  {
    if r == DemoBuyer then "buyer@demo.com" else "admin@demo.com"
  }

  function DemoProfileRole(r: DemoRole): Role
  {
    if r == DemoBuyer then Buyer else PlatformAdmin
  }

  function DemoHome(r: DemoRole): string
  {
    if r == DemoBuyer then "/dashboard" else "/admin"
  }

  /** The two demo accounts are distinct, share one password, and each opens
      exactly the dashboard that the role redirect of `/` would choose for
      the role it is given. */
  lemma DemoAccountsConsistent(r: DemoRole, s: DemoRole)
    ensures r != s ==> DemoEmail(r) != DemoEmail(s) && DemoProfileRole(r) != DemoProfileRole(s)
    ensures DemoHome(r) == Routing.HomeRedirect(Some(Profile(DemoProfileRole(r))))
  {
    if r != s {
      assert "buyer@demo.com"[0] != "admin@demo.com"[0];
    }
  }

  /** The page's mount check: an existing session opens the dashboard. */
  function MountRedirect(session: Option<Session>): (to: Option<string>)
    ensures to.Some? <==> session.Some?
    ensures to.Some? ==> to.value == "/dashboard"
  {
    if session.Some? then Some("/dashboard") else None
  }

  class LoginPage {
    var loading: bool
    var demoLoading: bool
    var email: string
    var password: string

    constructor ()
      ensures !loading && !demoLoading && email == "" && password == ""
    {
      loading, demoLoading := false, false;
      email, password := "", "";
    }

    /** The e-mail input: the typed text replaces the field. */
    method SetEmail(text: string)
      modifies this`email
      ensures email == text
    {
      email := text;
    }

    /** The password input: the typed text replaces the field. */
    method SetPassword(text: string)
      modifies this`password
      ensures password == text
    {
      password := text;
    }

    /** The login button: signs in with the typed credentials; an error is
        alerted, a session opens `/`. There is no catch: when the call
        rejects, `loading` is left set. */
    method HandleLogin(reply: Settled<AuthReply>) returns (call: Call, navigateTo: Option<string>, alert: Option<string>)
      modifies this`loading
      ensures call == SignIn(email, password)
      ensures reply.Rejected? ==> loading && navigateTo.None? && alert.None?
      ensures reply.Resolved? ==> !loading
      ensures reply.Resolved? && reply.value.error.Some? ==> alert == reply.value.error && navigateTo.None?
      ensures reply.Resolved? && reply.value.error.None? ==>
                alert.None? && navigateTo == (if reply.value.session.Some? then Some("/") else None)
    {
      loading := true;
      call := SignIn(email, password);
      navigateTo, alert := None, None;
      if reply.Rejected? {
        return;
      }
      var r := reply.value;
      if r.error.Some? {
        alert := r.error;
      } else if r.session.Some? {
        navigateTo := Some("/");
      }
      loading := false;
    }

    /** The sign-up button: the outcome is only alerted. */
    method HandleSignUp(reply: Settled<AuthReply>) returns (call: Call, alert: Option<string>)
      modifies this`loading
      ensures call == SignUp(email, password)
      ensures reply.Rejected? ==> loading && alert.None?
      ensures reply.Resolved? ==> !loading && alert.Some?
      ensures reply.Resolved? && reply.value.error.Some? ==> alert == reply.value.error
      ensures reply.Resolved? && reply.value.error.None? ==> alert == Some("Check your email for the confirmation link!")
    {
      loading := true;
      call := SignUp(email, password);
      alert := None;
      if reply.Rejected? {
        return;
      }
      alert := if reply.value.error.Some? then reply.value.error else Some("Check your email for the confirmation link!");
      loading := false;
    }

    /** First step of a demo login: both demo buttons become disabled. */
    method BeginDemoLogin()
      modifies this`demoLoading
      ensures demoLoading
    {
      demoLoading := true;
    }

    /** A demo button. `signIn`, `signUp` and `upsert` are what those calls
        would settle with; `upsert` resolves to the upsert's error, if any. */
    method HandleDemoLogin(role: DemoRole, signIn: Settled<AuthReply>, signUp: Settled<AuthReply>, upsert: Settled<Option<string>>)
      returns (calls: seq<Call>, navigateTo: Option<string>)
      modifies this`demoLoading
      // whatever happens, the buttons are enabled again at the end
      ensures !demoLoading
      // the first call is always the sign-in with the role's fixed credentials
      ensures |calls| >= 1 && calls[0] == SignIn(DemoEmail(role), DemoPassword)
      // a sign-up is attempted exactly when the sign-in reported an error, and at most once
      ensures (|calls| >= 2 && calls[1] == SignUp(DemoEmail(role), DemoPassword))
              <==> signIn.Resolved? && signIn.value.error.Some?
      ensures forall i :: 2 <= i < |calls| ==> calls[i].UpsertProfile?
      // navigation goes only to the role's dashboard, and only once a user is known
      ensures navigateTo.Some? ==> navigateTo.value == DemoHome(role)
      ensures navigateTo.Some? <==> |calls| >= 2 && calls[|calls| - 1].UpsertProfile? && upsert.Resolved?
      // a failed sign-up ends the flow without navigating
      ensures signIn.Resolved? && signIn.value.error.Some? && signUp.Resolved? && signUp.value.error.Some?
              ==> navigateTo.None? && |calls| == 2
      // a user from the sign-in (or, after its failure, the sign-up) gets its
      // profile written, and an upsert error does not stop navigation
      ensures signIn.Resolved? && signIn.value.error.None? && signIn.value.user.Some? ==>
                calls == [SignIn(DemoEmail(role), DemoPassword), UpsertProfile(signIn.value.user.value.id, DemoProfileRole(role))]
                && (navigateTo.Some? <==> upsert.Resolved?)
      // after a failed sign-in, a successful sign-up's user is the one whose
      // profile is written; without a user nothing is written and nobody navigates
      ensures signIn.Resolved? && signIn.value.error.Some? && signUp.Resolved? && signUp.value.error.None? ==>
                && calls == [SignIn(DemoEmail(role), DemoPassword), SignUp(DemoEmail(role), DemoPassword)]
                             + (if signUp.value.user.Some? then [UpsertProfile(signUp.value.user.value.id, DemoProfileRole(role))] else [])
                && (navigateTo.Some? <==> signUp.value.user.Some? && upsert.Resolved?)
      // a sign-in that throws, or that answers with neither error nor user, ends the flow
      ensures signIn.Rejected? || (signIn.value.error.None? && signIn.value.user.None?) ==>
                calls == [SignIn(DemoEmail(role), DemoPassword)] && navigateTo.None?
      // a sign-up that throws ends the flow too
      ensures signIn.Resolved? && signIn.value.error.Some? && signUp.Rejected? ==>
                |calls| == 2 && navigateTo.None?
    {
      BeginDemoLogin();
      var email := DemoEmail(role);
      var profileRole := DemoProfileRole(role);
      calls := [SignIn(email, DemoPassword)];
      navigateTo := None;
      if signIn.Rejected? {
        // caught: alerted, then the flag is cleared below
        demoLoading := false;
        return;
      }
      var signInData := signIn.value;
      if signInData.error.Some? {
        calls := calls + [SignUp(email, DemoPassword)];
        if signUp.Rejected? {
          demoLoading := false;
          return;
        }
        if signUp.value.error.Some? {
          demoLoading := false;
          return;
        }
        signInData := signUp.value;
      }
      if signInData.user.Some? {
        calls := calls + [UpsertProfile(signInData.user.value.id, profileRole)];
        if upsert.Rejected? {
          demoLoading := false;
          return;
        }
        // an upsert error is only logged
        navigateTo := Some(DemoHome(role));
      }
      demoLoading := false;
    }
  }
}
