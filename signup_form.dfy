/**
 * The registration form: its field state, the role taken from the `role` query
 * parameter, error clearing on edit, the field checks of `validateForm`, the
 * submit outcome, and the labels of the role selector.
 */
module SignUpForm {
  import opened Common
  import opened EmailRule
  import opened Forms

  const NameRequired := "Имя обязательно"
  const CompanyRequired := "Название компании обязательно"
  const SignUpSucceeded := "Регистрация успешна! Пожалуйста, проверьте вашу почту для подтверждения аккаунта."

  /** The roles the query parameter may select. */
  const QueryRoles: set<string> := {"shipper", "carrier", "admin"}

  /** The inputs of the form, by their `name` attributes. */
  const Inputs: set<Field> := {Email, Password, ConfirmPassword, FullName, Role, CompanyName, Phone}

  /** The fields `validateForm` checks; the phone is never checked. */
  const Checked: set<Field> := {Email, Password, ConfirmPassword, FullName, CompanyName}

  datatype SignUpData = SignUpData(
    email: string, password: string, confirmPassword: string, fullName: string,
    role: string, companyName: string, phone: string)

  /** Company name is asked of shippers and carriers only. */
  predicate NeedsCompany(role: string) {
    role == "shipper" || role == "carrier"
  }

  /** The check `validateForm` runs on one field. */
  function CheckOf(d: SignUpData, f: Field): Option<string> {
    match f
    case Email => EmailError(d.email)
    case Password => NewPasswordError(d.password)
    case ConfirmPassword => ConfirmationError(d.password, d.confirmPassword)
    case FullName => if IsBlank(d.fullName) then Some(NameRequired) else None
    case CompanyName => if NeedsCompany(d.role) && IsBlank(d.companyName) then Some(CompanyRequired) else None
    case _ => None
  }

  /** The error map `validateForm` builds: one entry per failed check, all checks run. */
  function SignUpErrors(d: SignUpData): (e: Errors)
    ensures forall f :: f in e <==> f in Checked && CheckOf(d, f).Some?
    ensures forall f :: f in e ==> e[f] == CheckOf(d, f).value
  {
    var e0 := Record(map[], Email, CheckOf(d, Email));
    var e1 := Record(e0, Password, CheckOf(d, Password));
    var e2 := Record(e1, ConfirmPassword, CheckOf(d, ConfirmPassword));
    var e3 := Record(e2, FullName, CheckOf(d, FullName));
    Record(e3, CompanyName, CheckOf(d, CompanyName))
  }

  /** Each checked field has an entry exactly when its rule fails, with the message of the failed step. */
  lemma SignUpErrorsByField(d: SignUpData)
    ensures SignUpErrors(d).Keys <= Checked
    ensures Email in SignUpErrors(d) <==> !IsValidEmail(d.email)
    ensures Password in SignUpErrors(d) <==> JsLength(d.password) < MinPasswordLength
    ensures ConfirmPassword in SignUpErrors(d) <==> d.confirmPassword == "" || d.confirmPassword != d.password
    ensures FullName in SignUpErrors(d) <==> IsBlank(d.fullName)
    ensures CompanyName in SignUpErrors(d) <==> NeedsCompany(d.role) && IsBlank(d.companyName)
    ensures Email in SignUpErrors(d) ==>
              SignUpErrors(d)[Email] == (if IsBlank(d.email) then EmailRequired else EmailInvalid)
    ensures Password in SignUpErrors(d) ==>
              SignUpErrors(d)[Password] == (if d.password == "" then PasswordRequired else PasswordTooShort)
    ensures ConfirmPassword in SignUpErrors(d) ==>
              SignUpErrors(d)[ConfirmPassword] ==
                (if d.confirmPassword == "" then ConfirmationRequired else PasswordsDiffer)
    ensures forall f :: f in SignUpErrors(d) ==> SignUpErrors(d)[f] != ""
  {
    var e := SignUpErrors(d);
    assert CheckOf(d, Email) == EmailError(d.email);
    assert CheckOf(d, Password) == NewPasswordError(d.password);
    assert CheckOf(d, ConfirmPassword) == ConfirmationError(d.password, d.confirmPassword);
  }

  /** The form is valid exactly when every field rule holds. */
  lemma ValidIff(d: SignUpData)
    ensures SignUpErrors(d) == map[] <==>
              && IsValidEmail(d.email)
              && JsLength(d.password) >= MinPasswordLength
              && d.confirmPassword == d.password && d.confirmPassword != ""
              && !IsBlank(d.fullName)
              && (NeedsCompany(d.role) ==> !IsBlank(d.companyName))
  {
    var e := SignUpErrors(d);
    if e != map[] {
      var f :| f in e;
    }
  }

  /** An administrator is never asked for a company, and the phone is never checked. */
  lemma AdminAndPhoneUnchecked(d: SignUpData)
    ensures d.role == "admin" ==> CompanyName !in SignUpErrors(d)
    ensures Phone !in SignUpErrors(d) && Role !in SignUpErrors(d)
  {
  }

  /** The argument of the `signUp` call: the data as typed, empty optional inputs left out. */
  function Payload(d: SignUpData): (p: SignUpRequest)
    ensures p.email == d.email && p.password == d.password && p.fullName == d.fullName && p.role == d.role
    ensures p.companyName.Some? <==> d.companyName != ""
    ensures p.phone.Some? <==> d.phone != ""
    ensures p.companyName.GetOr("") == d.companyName && p.phone.GetOr("") == d.phone
  {
    SignUpRequest(d.email, d.password, d.fullName, d.role, Truthy(d.companyName), Truthy(d.phone))
  }

  /** `getRoleLabel`: the Russian label of a role, the role itself when unknown. */
  function RoleLabel(role: string): (text: string)
    ensures role !in QueryRoles ==> text == role
    ensures role in QueryRoles ==> text !in QueryRoles && text != ""
  {
    if role == "shipper" then "Заказчик"
    else if role == "carrier" then "Исполнитель"
    else if role == "admin" then "Администратор"
    else role
  }

  /** Distinct known roles get distinct labels. */
  lemma RoleLabelInjective(a: string, b: string)
    requires a in QueryRoles && b in QueryRoles && a != b
    ensures RoleLabel(a) != RoleLabel(b)
  {
  }

  class Form {
    var email: string
    var password: string
    var confirmPassword: string
    var fullName: string
    var role: string
    var companyName: string
    var phone: string
    var errors: Errors
    var isLoading: bool
    var successMessage: string

    function Data(): SignUpData
      reads this
    {
      SignUpData(email, password, confirmPassword, fullName, role, companyName, phone)
    }

    /** The initial state: empty fields, role 'shipper', no errors. */
    constructor ()
      ensures Data() == SignUpData("", "", "", "", "shipper", "", "")
      ensures errors == map[] && !isLoading && successMessage == ""
    {
      email, password, confirmPassword, fullName := "", "", "", "";
      role, companyName, phone := "shipper", "", "";
      errors, isLoading, successMessage := map[], false, "";
    }

    /** The effect on `searchParams`: a known role parameter replaces the role, anything else is ignored. */
    method AdoptRoleParam(roleParam: Option<string>)
      modifies this`role
      ensures role == if roleParam.Some? && roleParam.value in QueryRoles then roleParam.value else old(role)
    {
      if roleParam.Some? && roleParam.value != "" && roleParam.value in QueryRoles {
        role := roleParam.value;
      }
    }

    /** `handleChange`: stores the value under the input's name and clears that input's shown error. */
    method HandleChange(name: Field, value: string)
      requires name in Inputs
      modifies this
      ensures Data() == match name
        case Email => old(Data()).(email := value)
        case Password => old(Data()).(password := value)
        case ConfirmPassword => old(Data()).(confirmPassword := value)
        case FullName => old(Data()).(fullName := value)
        case Role => old(Data()).(role := value)
        case CompanyName => old(Data()).(companyName := value)
        case _ => old(Data()).(phone := value)
      ensures errors == ClearOnEdit(old(errors), name)
      ensures isLoading == old(isLoading) && successMessage == old(successMessage)
    {
      match name {
        case Email => email := value;
        case Password => password := value;
        case ConfirmPassword => confirmPassword := value;
        case FullName => fullName := value;
        case Role => role := value;
        case CompanyName => companyName := value;
        case Phone => phone := value;
      }
      if Shows(errors, name) {
        errors := errors[name := ""];
      }
    }

    /** `validateForm`: replaces the shown errors with the map of failed checks; valid when it has no key. */
    method ValidateForm() returns (valid: bool)
      modifies this`errors
      ensures errors == SignUpErrors(Data())
      ensures valid <==> errors == map[]
    {
      var newErrors := SignUpErrors(Data());
      errors := newErrors;
      valid := |newErrors| == 0;
    }

    /**
     * `handleSubmit`, with the reply of `signUp` as a parameter. An invalid form
     * makes no call; a valid one sends `Payload`, and after a success schedules
     * `onSuccess`, or else a navigation to the sign-in page.
     */
    method HandleSubmit(reply: CallReply, hasOnSuccess: bool) returns (outcome: Submit, sent: Option<SignUpRequest>)
      modifies this`errors, this`isLoading, this`successMessage
      ensures sent == if SignUpErrors(Data()) == map[] then Some(Payload(Data())) else None
      ensures SignUpErrors(Data()) != map[] ==>
                outcome == NotSent && errors == SignUpErrors(Data())
                && isLoading == old(isLoading) && successMessage == old(successMessage)
      ensures SignUpErrors(Data()) == map[] ==>
                && errors == ErrorsAfterCall(reply)
                && !isLoading
                && (if reply.IsError() || reply.Raised? then
                      outcome == SentFailed && successMessage == old(successMessage)
                    else
                      outcome == SentOk(if hasOnSuccess then CallOnSuccess else Navigate("/auth/signin"))
                      && successMessage == SignUpSucceeded)
    {
      var valid := ValidateForm();
      if !valid {
        return NotSent, None;
      }
      isLoading := true;
      errors := map[];
      sent := Some(Payload(Data()));
      if reply.Raised? {
        errors := map[General := UnexpectedError];
        outcome := SentFailed;
      } else if reply.IsError() {
        errors := map[General := reply.error.value];
        outcome := SentFailed;
      } else {
        successMessage := SignUpSucceeded;
        outcome := SentOk(if hasOnSuccess then CallOnSuccess else Navigate("/auth/signin"));
      }
      isLoading := false;
    }
  }
}
