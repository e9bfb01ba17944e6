/**
 * The sign-in form: email and password, a presence check on the password only,
 * and the submit that hands both to `signIn`.
 */
module SignInForm {
  import opened Common
  import opened EmailRule
  import opened Forms
  import SignUpForm

  const Inputs: set<Field> := {Email, Password}

  datatype SignInData = SignInData(email: string, password: string)

  /** The error map of `validateForm`: the email rule, and a password that is present. */
  function SignInErrors(d: SignInData): (e: Errors)
    ensures e.Keys <= Inputs
    ensures Email in e <==> !IsValidEmail(d.email)
    ensures Password in e <==> d.password == ""
    ensures Email in e ==> e[Email] == (if IsBlank(d.email) then EmailRequired else EmailInvalid)
    ensures Password in e ==> e[Password] == PasswordRequired
  {
    var e0 := Record(map[], Email, EmailError(d.email));
    Record(e0, Password, if d.password == "" then Some(PasswordRequired) else None)
  }

  /**
   * Sign-in asks less than registration: credentials that pass the registration
   * checks on email and password pass the sign-in form.
   */
  lemma RegisteredCredentialsPass(d: SignUpForm.SignUpData)
    requires Email !in SignUpForm.SignUpErrors(d) && Password !in SignUpForm.SignUpErrors(d)
    ensures SignInErrors(SignInData(d.email, d.password)) == map[]
  {
    SignUpForm.SignUpErrorsByField(d);
    JsLengthZeroIffEmpty(d.password);
  }

  /** A password of one character is not refused here, though registration refuses it. */
  lemma ShortPasswordPasses()
    ensures SignInErrors(SignInData("a@b.c", "x")) == map[]
  {
    AcceptsSimpleAddress();
  }

  class Form {
    var email: string
    var password: string
    var errors: Errors
    var isLoading: bool

    function Data(): SignInData
      reads this
    {
      SignInData(email, password)
    }

    constructor ()
      ensures Data() == SignInData("", "") && errors == map[] && !isLoading
    {
      email, password, errors, isLoading := "", "", map[], false;
    }

    /** `handleChange`: stores the value under the input's name and clears that input's shown error. */
    method HandleChange(name: Field, value: string)
      requires name in Inputs
      modifies this
      ensures Data() == if name == Email then old(Data()).(email := value) else old(Data()).(password := value)
      ensures errors == ClearOnEdit(old(errors), name)
      ensures isLoading == old(isLoading)
    {
      if name == Email {
        email := value;
      } else {
        password := value;
      }
      if Shows(errors, name) {
        errors := errors[name := ""];
      }
    }

    /** `validateForm`: replaces the shown errors with the map of failed checks; valid when it has no key. */
    method ValidateForm() returns (valid: bool)
      modifies this`errors
      ensures errors == SignInErrors(Data())
      ensures valid <==> errors == map[]
    {
      var newErrors := SignInErrors(Data());
      errors := newErrors;
      valid := |newErrors| == 0;
    }

    /**
     * `handleSubmit`, with the reply of `signIn` as a parameter. After a success
     * the form calls `onSuccess`, or else navigates to the dashboard.
     */
    method HandleSubmit(reply: CallReply, hasOnSuccess: bool) returns (outcome: Submit)
      modifies this`errors, this`isLoading
      ensures SignInErrors(Data()) != map[] ==>
                outcome == NotSent && errors == SignInErrors(Data()) && isLoading == old(isLoading)
      ensures SignInErrors(Data()) == map[] ==>
                && errors == ErrorsAfterCall(reply)
                && !isLoading
                && outcome == if reply.IsError() || reply.Raised? then SentFailed
                              else SentOk(if hasOnSuccess then CallOnSuccess else Navigate("/dashboard"))
    {
      var valid := ValidateForm();
      if !valid {
        return NotSent;
      }
      isLoading := true;
      errors := map[];
      if reply.Raised? {
        errors := map[General := UnexpectedError];
        outcome := SentFailed;
      } else if reply.IsError() {
        errors := map[General := reply.error.value];
        outcome := SentFailed;
      } else {
        outcome := SentOk(if hasOnSuccess then CallOnSuccess else Navigate("/dashboard"));
      }
      isLoading := false;
    }
  }
}
