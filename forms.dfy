/**
 * What the four authentication forms share: the names of their fields, the
 * error map they keep (`Record<string, string>`), the email and password rules
 * and messages, error clearing on edit, and the shape of a submit's outcome.
 */
module Forms {
  import opened Common
  import opened EmailRule

  /** The `name` attributes of the inputs, and `general` for a server error. */
  datatype Field = Email | Password | ConfirmPassword | FullName | Role | CompanyName | Phone | General

  type Errors = map<Field, string>

  const EmailRequired := "Email обязателен"
  const EmailInvalid := "Некорректный email адрес"
  const PasswordRequired := "Пароль обязателен"
  const PasswordTooShort := "Пароль должен содержать минимум 6 символов"
  const ConfirmationRequired := "Подтверждение пароля обязательно"
  const PasswordsDiffer := "Пароли не совпадают"
  const UnexpectedError := "Произошла непредвиденная ошибка"

  /** The least password length, counted in UTF-16 code units as `password.length` is. */
  const MinPasswordLength := 6

  /** `errors[f]` is truthy, so the form shows a message under `f`. */
  predicate Shows(errors: Errors, f: Field) {
    f in errors && errors[f] != ""
  }

  /** The email check: blank after trim is "required", otherwise the address must pass the rule. */
  function EmailError(email: string): (r: Option<string>)
    ensures r == None <==> IsValidEmail(email)
    ensures IsBlank(email) ==> r == Some(EmailRequired)
    ensures !IsBlank(email) && !IsValidEmail(email) ==> r == Some(EmailInvalid)
  {
    if IsBlank(email) then Some(EmailRequired)
    else if !IsValidEmail(email) then Some(EmailInvalid)
    else None
  }

  /** The password check of sign-up and reset: present, then at least six code units. */
  function NewPasswordError(password: string): (r: Option<string>)
    ensures r == None <==> JsLength(password) >= MinPasswordLength
    ensures password == "" ==> r == Some(PasswordRequired)
    ensures password != "" && JsLength(password) < MinPasswordLength ==> r == Some(PasswordTooShort)
  {
    JsLengthZeroIffEmpty(password);
    if password == "" then Some(PasswordRequired)
    else if JsLength(password) < MinPasswordLength then Some(PasswordTooShort)
    else None
  }

  /** The confirmation check: present, then equal to the password. */
  function ConfirmationError(password: string, confirmation: string): (r: Option<string>)
    ensures r == None <==> confirmation != "" && confirmation == password
    ensures confirmation == "" ==> r == Some(ConfirmationRequired)
    ensures confirmation != "" && confirmation != password ==> r == Some(PasswordsDiffer)
  {
    if confirmation == "" then Some(ConfirmationRequired)
    else if password != confirmation then Some(PasswordsDiffer)
    else None
  }

  /** Adds the message of a failed check under `f`, as `newErrors.f = ...` does. */
  function Record(errors: Errors, f: Field, check: Option<string>): Errors {
    if check.Some? then errors[f := check.value] else errors
  }

  /**
   * The error update of `handleChange`: a shown error under the edited field is
   * overwritten with '' (the key stays), every other entry stays as it was.
   */
  function ClearOnEdit(errors: Errors, f: Field): (r: Errors)
    ensures !Shows(r, f)
    ensures r.Keys == errors.Keys
    ensures forall g :: g in errors && g != f ==> r[g] == errors[g]
    ensures !Shows(errors, f) ==> r == errors
  {
    if Shows(errors, f) then errors[f := ""] else errors
  }

  /** A reply of an authentication call: `{ error?: string }`, or an exception. */
  datatype CallReply = Returned(error: Option<string>) | Raised {
    /** `result.error` is truthy. */
    predicate IsError() {
      Returned? && error.Some? && error.value != ""
    }
  }

  /** What the form does once a call succeeded. */
  datatype Next = CallOnSuccess | CallOnBackToSignIn | Navigate(path: string) | Stay

  /**
   * The registration data the sign-up form hands to `signUp`: optional company
   * and phone are absent when the inputs are empty (`value || undefined`).
   */
  datatype SignUpRequest = SignUpRequest(
    email: string, password: string, fullName: string, role: string,
    companyName: Option<string>, phone: Option<string>)

  /** `value || undefined` on a string input. */
  function Truthy(s: string): (r: Option<string>)
    ensures r == None <==> s == ""
    ensures r.Some? ==> r.value == s
  {
    if s == "" then None else Some(s)
  }

  /** The outcome of one submit. */
  datatype Submit =
    | NotSent         // validation failed; the authentication call is not made
    | SentFailed      // the call was made and reported an error or threw
    | SentOk(next: Next)

  /** The error map after a submit whose call was made. */
  function ErrorsAfterCall(reply: CallReply): (e: Errors)
    ensures e.Keys <= {General}
    ensures General in e <==> reply.IsError() || reply.Raised?
  {
    match reply
    case Raised => map[General := UnexpectedError]
    case Returned(_) => if reply.IsError() then map[General := reply.error.value] else map[]
  }
}
