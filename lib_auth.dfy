/**
 * The authentication helpers: the translation of the backend's error messages
 * into Russian texts, where the first pattern the message contains decides;
 * the profile lookup; and the sign-up that creates the profile row once the
 * account exists.
 */
module LibAuth {
  import opened Common
  import opened LibSchema
  import Forms

  /** The `{ error?, success? }` object every helper returns. */
  datatype AuthResult = AuthOk | AuthError(message: string)

  /** The reply of an authentication call: no error, an error with its message, or an exception. */
  datatype AuthReply = AuthDone | AuthRefused(message: string) | AuthThrew

  /** A pattern looked for in the backend's message and the text shown when it is found. */
  type Rule = (string, string)

  /** Rule `i` is the first whose pattern the message contains. */
  predicate FirstMatchAt(rules: seq<Rule>, message: string, i: int) {
    && 0 <= i < |rules| && Includes(message, rules[i].0)
    && forall j :: 0 <= j < i ==> !Includes(message, rules[j].0)
  }

  /** The text of the first rule whose pattern occurs in `message`, `fallback` when none does. */
  function FirstMatch(rules: seq<Rule>, message: string, fallback: string): (text: string)
    ensures (forall i :: 0 <= i < |rules| ==> !Includes(message, rules[i].0)) ==> text == fallback
    ensures forall i :: FirstMatchAt(rules, message, i) ==> text == rules[i].1
    decreases |rules|
  {
    if rules == [] then fallback
    else if Includes(message, rules[0].0) then rules[0].1
    else
      var text := FirstMatch(rules[1..], message, fallback);
      assert forall i :: FirstMatchAt(rules, message, i) ==> i > 0 && FirstMatchAt(rules[1..], message, i - 1);
      text
  }

  const UserExists := "Пользователь с таким email уже зарегистрирован"
  const SignUpFailed := "Ошибка регистрации"
  const SignUpUnexpected := "Произошла непредвиденная ошибка при регистрации"
  const BadCredentials := "Неверный email или пароль"
  const EmailNotConfirmed := "Email не подтвержден. Проверьте вашу почту"
  const SignInFailed := "Ошибка входа"
  const SignInUnexpected := "Произошла непредвиденная ошибка при входе"
  const SignOutFailed := "Ошибка при выходе из системы"
  const SignOutUnexpected := "Произошла непредвиденная ошибка при выходе"
  const UserNotFound := "Пользователь с таким email не найден"
  const ResetFailed := "Ошибка сброса пароля"
  const ResetUnexpected := "Произошла непредвиденная ошибка при сбросе пароля"
  const UpdateFailed := "Ошибка обновления пароля"
  const UpdateUnexpected := "Произошла непредвиденная ошибка при обновлении пароля"
  const ProfileCreateFailed := "Не удалось создать профиль пользователя"
  const ProfileNotFound := "Профиль не найден"
  const ProfileLoadFailed := "Не удалось загрузить профиль"

  const SignUpRules: seq<Rule> := [
    ("User already registered", UserExists),
    ("Password should be", Forms.PasswordTooShort),
    ("Invalid email", Forms.EmailInvalid)]
  const SignInRules: seq<Rule> := [
    ("Invalid login credentials", BadCredentials),
    ("Email not confirmed", EmailNotConfirmed)]
  const ResetRules: seq<Rule> := [("User not found", UserNotFound)]
  const UpdateRules: seq<Rule> := [("Password should be", Forms.PasswordTooShort)]

  /** The error-to-message step of an authentication call. */
  function Translate(reply: AuthReply, rules: seq<Rule>, fallback: string, unexpected: string): (r: AuthResult)
    ensures r == AuthOk <==> reply == AuthDone
    ensures reply == AuthThrew ==> r == AuthError(unexpected)
    ensures reply.AuthRefused? ==> r == AuthError(FirstMatch(rules, reply.message, fallback))
  {
    match reply
    case AuthDone => AuthOk
    case AuthRefused(m) => AuthError(FirstMatch(rules, m, fallback))
    case AuthThrew => AuthError(unexpected)
  }

  /** `signIn`: credentials are reported before confirmation, anything else gets the generic text. */
  function SignIn(reply: AuthReply): (r: AuthResult)
    ensures r == AuthOk <==> reply == AuthDone
    ensures reply == AuthThrew ==> r == AuthError(SignInUnexpected)
    ensures reply.AuthRefused? ==>
              r == AuthError(if Includes(reply.message, "Invalid login credentials") then BadCredentials
                             else if Includes(reply.message, "Email not confirmed") then EmailNotConfirmed
                             else SignInFailed)
  {
    if reply.AuthRefused? then SignInMessageOrder(reply.message); Translate(reply, SignInRules, SignInFailed, SignInUnexpected)
    else Translate(reply, SignInRules, SignInFailed, SignInUnexpected)
  }

  /** `resetPassword`: only an unknown user has its own text. */
  function ResetPassword(reply: AuthReply): (r: AuthResult)
    ensures r == AuthOk <==> reply == AuthDone
    ensures reply == AuthThrew ==> r == AuthError(ResetUnexpected)
    ensures reply.AuthRefused? ==>
              r == AuthError(if Includes(reply.message, "User not found") then UserNotFound else ResetFailed)
  {
    if reply.AuthRefused? then SinglePatternTranslations(reply.message); Translate(reply, ResetRules, ResetFailed, ResetUnexpected)
    else Translate(reply, ResetRules, ResetFailed, ResetUnexpected)
  }

  /** `updatePassword`: only the password-policy error has its own text. */
  function UpdatePassword(reply: AuthReply): (r: AuthResult)
    ensures r == AuthOk <==> reply == AuthDone
    ensures reply == AuthThrew ==> r == AuthError(UpdateUnexpected)
    ensures reply.AuthRefused? ==>
              r == AuthError(if Includes(reply.message, "Password should be") then Forms.PasswordTooShort else UpdateFailed)
  {
    if reply.AuthRefused? then SinglePatternTranslations(reply.message); Translate(reply, UpdateRules, UpdateFailed, UpdateUnexpected)
    else Translate(reply, UpdateRules, UpdateFailed, UpdateUnexpected)
  }

  /** `signOut`: the backend's message is not looked at; every refusal gets the same text. */
  function SignOut(reply: AuthReply): (r: AuthResult)
    ensures r == AuthOk <==> reply == AuthDone
    ensures reply == AuthThrew ==> r == AuthError(SignOutUnexpected)
    ensures forall m :: reply == AuthRefused(m) ==> r == AuthError(SignOutFailed)
  {
    Translate(reply, [], SignOutFailed, SignOutUnexpected)
  }

  /** The sign-up translation is the else-if chain of the source, in its order. */
  lemma SignUpMessageOrder(m: string)
    ensures FirstMatch(SignUpRules, m, SignUpFailed) ==
              if Includes(m, "User already registered") then UserExists
              else if Includes(m, "Password should be") then Forms.PasswordTooShort
              else if Includes(m, "Invalid email") then Forms.EmailInvalid
              else SignUpFailed
  {
    var r := SignUpRules;
    assert r[0].0 == "User already registered" && r[1].0 == "Password should be" && r[2].0 == "Invalid email";
    if Includes(m, r[0].0) {
      assert FirstMatchAt(r, m, 0);
    } else if Includes(m, r[1].0) {
      assert FirstMatchAt(r, m, 1);
    } else if Includes(m, r[2].0) {
      assert FirstMatchAt(r, m, 2);
    }
  }

  /** The sign-in translation: bad credentials win over a missing confirmation. */
  lemma SignInMessageOrder(m: string)
    ensures FirstMatch(SignInRules, m, SignInFailed) ==
              if Includes(m, "Invalid login credentials") then BadCredentials
              else if Includes(m, "Email not confirmed") then EmailNotConfirmed
              else SignInFailed
  {
    var r := SignInRules;
    assert r[0].0 == "Invalid login credentials" && r[1].0 == "Email not confirmed";
    if Includes(m, r[0].0) {
      assert FirstMatchAt(r, m, 0);
    } else if Includes(m, r[1].0) {
      assert FirstMatchAt(r, m, 1);
    }
  }

  /** Reset and update each recognise one pattern and nothing else. */
  lemma SinglePatternTranslations(m: string)
    ensures FirstMatch(ResetRules, m, ResetFailed) ==
              if Includes(m, "User not found") then UserNotFound else ResetFailed
    ensures FirstMatch(UpdateRules, m, UpdateFailed) ==
              if Includes(m, "Password should be") then Forms.PasswordTooShort else UpdateFailed
  {
    assert ResetRules[1..] == [] && UpdateRules[1..] == [];
  }

  /** The reply of the profile query: a row, an error with its code, or an exception. */
  datatype ProfileReply = ProfileRow(profile: Profile) | ProfileFailed(code: string) | ProfileThrew

  /** `getUserProfile`: the row, or the text of what went wrong. */
  function GetUserProfile(reply: ProfileReply): (r: Result<Profile>)
    ensures r.Ok? <==> reply.ProfileRow?
    ensures r.Ok? ==> r.value == reply.profile
    ensures reply.ProfileFailed? ==>
              r == Err(if reply.code == "PGRST116" then ProfileNotFound else ProfileLoadFailed)
    ensures reply == ProfileThrew ==> r == Err(Forms.UnexpectedError)
  {
    match reply
    case ProfileRow(p) => Ok(p)
    case ProfileFailed(code) => if code == "PGRST116" then Err(ProfileNotFound) else Err(ProfileLoadFailed)
    case ProfileThrew => Err(Forms.UnexpectedError)
  }

  /** The row `createProfile` inserts for a new account. */
  function ProfileFor(userId: string, data: Forms.SignUpRequest): (p: Profile)
    ensures p.id == userId && p.email == data.email && p.fullName == Some(data.fullName) && p.role == data.role
    ensures p.companyName == data.companyName && p.phone == data.phone
  {
    Profile(userId, data.email, Some(data.fullName), data.role, data.companyName, data.phone)
  }

  /** A result together with the profile row it inserted, if any. */
  datatype Created = Created(result: AuthResult, inserted: Option<Profile>)

  /** `createProfile`, with the reply of the insert as a parameter. */
  function CreateProfile(userId: string, data: Forms.SignUpRequest, insert: Reply): (c: Created)
    ensures c.inserted.Some? <==> c.result == AuthOk
    ensures c.result == AuthOk <==> insert == Done
    ensures c.inserted.Some? ==> c.inserted.value == ProfileFor(userId, data)
    ensures insert == Failed ==> c.result == AuthError(ProfileCreateFailed)
    ensures insert == Threw ==> c.result == AuthError(Forms.UnexpectedError)
  {
    match insert
    case Done => Created(AuthOk, Some(ProfileFor(userId, data)))
    case Failed => Created(AuthError(ProfileCreateFailed), None)
    case Threw => Created(AuthError(Forms.UnexpectedError), None)
  }

  /** The reply of `auth.signUp`: the new user's id when one is returned, an error, or an exception. */
  datatype SignUpReply = SignedUp(userId: Option<string>) | SignUpRefused(message: string) | SignUpThrew

  /**
   * `signUp`: the account first; a profile only when a user comes back, its
   * error passed on unchanged.
   */
  function SignUp(data: Forms.SignUpRequest, auth: SignUpReply, insert: Reply): (c: Created)
    ensures c.inserted.Some? <==> auth.SignedUp? && auth.userId.Some? && insert == Done
    ensures auth.SignUpRefused? ==> c == Created(AuthError(FirstMatch(SignUpRules, auth.message, SignUpFailed)), None)
    ensures auth == SignUpThrew ==> c == Created(AuthError(SignUpUnexpected), None)
    ensures auth == SignedUp(None) ==> c == Created(AuthOk, None)
    ensures auth.SignedUp? && auth.userId.Some? ==> c == CreateProfile(auth.userId.value, data, insert)
  {
    match auth
    case SignUpThrew => Created(AuthError(SignUpUnexpected), None)
    case SignUpRefused(m) => Created(AuthError(FirstMatch(SignUpRules, m, SignUpFailed)), None)
    case SignedUp(None) => Created(AuthOk, None)
    case SignedUp(Some(id)) =>
      var p := CreateProfile(id, data, insert);
      if p.result.AuthError? then Created(AuthError(p.result.message), None) else p
  }
}
