/**
 * The authentication context of the `lib` side: the signed-in user, the
 * profile fetched for it, the loading flag, the derived role, and the
 * registration that creates the profile through the profile endpoint.
 */
module AuthProvider {
  import opened Common
  import opened LibSchema
  import opened LibAuth
  import Forms
  import ProfileRoute
  import EmailRule
  import SignUpForm

  const NoProvider := "useAuth must be used within an AuthProvider"
  const ProfileNotCreated := "Не удалось создать профиль"

  /** The profile `fetchProfile` stores for a reply of `getUserProfile`: the row, or null on any error. */
  function Fetched(reply: ProfileReply): (p: Option<Profile>)
    ensures p.Some? <==> GetUserProfile(reply).Ok?
    ensures p.Some? ==> p.value == reply.profile
  {
    match GetUserProfile(reply)
    case Ok(profile) => Some(profile)
    case Err(_) => None
  }

  /** The reply of `auth.getSession()`: a session with its user's id, none, or an exception. */
  datatype SessionReply = SessionUser(userId: string) | NoSession | SessionThrew

  /** `useAuth`: the context, or the error it throws outside a provider. */
  function UseAuth<T>(context: Option<T>): (r: Result<T>)
    ensures r.Ok? <==> context.Some?
    ensures r.Ok? ==> r.value == context.value
    ensures r.Err? ==> r.error == NoProvider
  {
    match context
    case Some(c) => Ok(c)
    case None => Err(NoProvider)
  }

  /** The body the provider posts to the profile endpoint; an undefined company or phone is dropped by JSON.stringify. */
  function RequestBody(userId: string, data: Forms.SignUpRequest): (b: ProfileRoute.Body)
    ensures b.userId == Some(userId) && b.email == Some(data.email) && b.fullName == Some(data.fullName)
    ensures b.role == Some(data.role) && b.companyName == data.companyName && b.phone == data.phone
  {
    ProfileRoute.Body(Some(userId), Some(data.email), Some(data.fullName), Some(data.role), data.companyName, data.phone)
  }

  /** The outcome of the `fetch` to the profile endpoint: a response, or an exception. */
  datatype FetchReply = Responded(response: ProfileRoute.Response) | FetchThrew

  /**
   * The provider's `signUp`: the same translation of the account error as the
   * helper, then the profile endpoint instead of a direct insert.
   */
  function ProviderSignUp(auth: SignUpReply, fetch: FetchReply): (r: AuthResult)
    ensures auth.SignUpRefused? ==> r == AuthError(FirstMatch(SignUpRules, auth.message, SignUpFailed))
    ensures auth == SignUpThrew ==> r == AuthError(SignUpUnexpected)
    ensures auth == SignedUp(None) ==> r == AuthOk
    ensures auth.SignedUp? && auth.userId.Some? ==>
              r == match fetch
                   case FetchThrew => AuthError(SignUpUnexpected)
                   case Responded(resp) =>
                     if resp.Ok() then AuthOk
                     else AuthError(if resp.error.Some? && resp.error.value != "" then resp.error.value else ProfileNotCreated)
  {
    match auth
    case SignUpThrew => AuthError(SignUpUnexpected)
    case SignUpRefused(m) => AuthError(FirstMatch(SignUpRules, m, SignUpFailed))
    case SignedUp(None) => AuthOk
    case SignedUp(Some(_)) =>
      match fetch
      case FetchThrew => AuthError(SignUpUnexpected)
      case Responded(resp) =>
        if !resp.Ok() then AuthError(if resp.error.Some? && resp.error.value != "" then resp.error.value else ProfileNotCreated)
        else AuthOk
  }

  /**
   * Registration end to end: a form that passed its checks always gets past the
   * endpoint's required-field check, so the outcome is decided by the insert,
   * and the endpoint's message reaches the form unchanged.
   */
  lemma ValidFormDecidedByInsert(d: SignUpForm.SignUpData, userId: string, insert: Reply)
    requires SignUpForm.SignUpErrors(d) == map[] && userId != "" && d.role != ""
    ensures var h := ProfileRoute.Post(Some(RequestBody(userId, SignUpForm.Payload(d))), insert);
            && h.response.status != 400
            && ProviderSignUp(SignedUp(Some(userId)), Responded(h.response)) ==
                 match insert
                 case Done => AuthOk
                 case Failed => AuthError(ProfileCreateFailed)
                 case Threw => AuthError(Forms.UnexpectedError)
  {
    SignUpForm.SignUpErrorsByField(d);
    var b := RequestBody(userId, SignUpForm.Payload(d));
    assert d.email != "" by {
      var i, k :| 0 < i && i + 1 < k < |d.email| - 1 && EmailRule.OnlyAt(d.email, i) && d.email[k] == '.';
    }
    assert d.fullName != "" by {
      assert IsBlank("");
    }
    assert ProfileRoute.RequiredPresent(b);
  }

  class Provider {
    var user: Option<string>      // the signed-in user, by id
    var profile: Option<Profile>
    var loading: bool

    constructor ()
      ensures user == None && profile == None && loading
    {
      user, profile, loading := None, None, true;
    }

    /** `profile?.role || null`. */
    function Role(): (role: Option<string>)
      reads this
      ensures role.Some? <==> profile.Some? && profile.value.role != ""
      ensures role.Some? ==> role.value == profile.value.role
    {
      if profile.Some? && profile.value.role != "" then Some(profile.value.role) else None
    }

    /** `fetchProfile`, with the reply of `getUserProfile` for the user as a parameter. */
    method FetchProfile(reply: ProfileReply)
      modifies this`profile
      ensures profile == Fetched(reply)
    {
      var r := GetUserProfile(reply);
      if r.Err? {
        profile := None;
      } else {
        profile := Some(r.value);
      }
    }

    /** `refreshProfile`: fetches again for the current user; without one nothing happens. */
    method RefreshProfile(reply: ProfileReply)
      modifies this`profile
      ensures user.None? ==> profile == old(profile)
      ensures user.Some? ==> profile == Fetched(reply)
    {
      if user.Some? {
        FetchProfile(reply);
      }
    }

    /** `getInitialSession`: adopts the session's user and its profile; loading ends whatever happened. */
    method GetInitialSession(session: SessionReply, reply: ProfileReply)
      modifies this
      ensures session.SessionUser? ==> user == Some(session.userId) && profile == Fetched(reply)
      ensures !session.SessionUser? ==> user == old(user) && profile == old(profile)
      ensures !loading
    {
      if session.SessionUser? {
        user := Some(session.userId);
        FetchProfile(reply);
      }
      loading := false;
    }

    /** The auth-change handler: a session sets the user and fetches the profile, none clears both. */
    method OnAuthStateChange(session: Option<string>, reply: ProfileReply)
      modifies this
      ensures session.Some? ==> user == session && profile == Fetched(reply)
      ensures session.None? ==> user == None && profile == None && Role() == None
      ensures !loading
    {
      if session.Some? {
        user := session;
        FetchProfile(reply);
      } else {
        user := None;
        profile := None;
      }
      loading := false;
    }
  }
}
