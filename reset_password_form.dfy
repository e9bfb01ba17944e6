/**
 * The form that sets a new password after a reset link: the password rules of
 * registration, and a submit that hands the password to `updatePassword` and
 * then returns to the sign-in page.
 */
module ResetPasswordForm {
  import opened Common
  import opened Forms
  import SignUpForm

  const ResetSucceeded := "Пароль успешно обновлен! Перенаправление на страницу входа..."

  const Inputs: set<Field> := {Password, ConfirmPassword}

  datatype ResetData = ResetData(password: string, confirmPassword: string)

  /** The error map of `validateForm`: the new password and its confirmation. */
  function ResetErrors(d: ResetData): (e: Errors)
    ensures e.Keys <= Inputs
    ensures Password in e <==> JsLength(d.password) < MinPasswordLength
    ensures ConfirmPassword in e <==> d.confirmPassword == "" || d.confirmPassword != d.password
    ensures Password in e ==> e[Password] == (if d.password == "" then PasswordRequired else PasswordTooShort)
    ensures ConfirmPassword in e ==>
              e[ConfirmPassword] == (if d.confirmPassword == "" then ConfirmationRequired else PasswordsDiffer)
  {
    var e0 := Record(map[], Password, NewPasswordError(d.password));
    Record(e0, ConfirmPassword, ConfirmationError(d.password, d.confirmPassword))
  }

  /** A new password is held to exactly the rules and messages of registration. */
  lemma SameRulesAsSignUp(d: SignUpForm.SignUpData)
    ensures forall f :: f in Inputs ==>
              (f in ResetErrors(ResetData(d.password, d.confirmPassword)) <==> f in SignUpForm.SignUpErrors(d))
    ensures forall f :: f in Inputs && f in SignUpForm.SignUpErrors(d) ==>
              ResetErrors(ResetData(d.password, d.confirmPassword))[f] == SignUpForm.SignUpErrors(d)[f]
  {
    SignUpForm.SignUpErrorsByField(d);
  }

  class Form {
    var password: string
    var confirmPassword: string
    var errors: Errors
    var isLoading: bool
    var successMessage: string

    function Data(): ResetData
      reads this
    {
      ResetData(password, confirmPassword)
    }

    constructor ()
      ensures Data() == ResetData("", "") && errors == map[] && !isLoading && successMessage == ""
    {
      password, confirmPassword := "", "";
      errors, isLoading, successMessage := map[], false, "";
    }

    /** `handleChange`: stores the value under the input's name and clears that input's shown error. */
    method HandleChange(name: Field, value: string)
      requires name in Inputs
      modifies this
      ensures Data() == if name == Password then old(Data()).(password := value)
                        else old(Data()).(confirmPassword := value)
      ensures errors == ClearOnEdit(old(errors), name)
      ensures isLoading == old(isLoading) && successMessage == old(successMessage)
    {
      if name == Password {
        password := value;
      } else {
        confirmPassword := value;
      }
      if Shows(errors, name) {
        errors := errors[name := ""];
      }
    }

    /** `validateForm`: replaces the shown errors with the map of failed checks; valid when it has no key. */
    method ValidateForm() returns (valid: bool)
      modifies this`errors
      ensures errors == ResetErrors(Data())
      ensures valid <==> errors == map[]
    {
      var newErrors := ResetErrors(Data());
      errors := newErrors;
      valid := |newErrors| == 0;
    }

    /**
     * `handleSubmit`, with the reply of `updatePassword` as a parameter. After a
     * success the form shows its message and schedules the move to sign-in.
     */
    method HandleSubmit(reply: CallReply) returns (outcome: Submit)
      modifies this`errors, this`isLoading, this`successMessage
      ensures ResetErrors(Data()) != map[] ==>
                outcome == NotSent && errors == ResetErrors(Data())
                && isLoading == old(isLoading) && successMessage == old(successMessage)
      ensures ResetErrors(Data()) == map[] ==>
                && errors == ErrorsAfterCall(reply)
                && !isLoading
                && (if reply.IsError() || reply.Raised? then
                      outcome == SentFailed && successMessage == old(successMessage)
                    else
                      outcome == SentOk(Navigate("/auth/signin")) && successMessage == ResetSucceeded)
    {
      var valid := ValidateForm();
      if !valid {
        return NotSent;
      }
      isLoading := true;
      errors := map[];
      if reply.Raised? {
        errors := map[General := UnexpectedError];
        outcome := SentFailed;
      } else if reply.IsError() {
        errors := map[General := reply.error.value];
        outcome := SentFailed;
      } else {
        successMessage := ResetSucceeded;
        outcome := SentOk(Navigate("/auth/signin"));
      }
      isLoading := false;
    }
  }
}
