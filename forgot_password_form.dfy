/**
 * The form that asks for a reset link: one email input, the shared email rule,
 * and a submit that hands the address to `resetPassword`.
 */
module ForgotPasswordForm {
  import opened Common
  import opened EmailRule
  import opened Forms

  const InstructionsSent := "Инструкции по сбросу пароля отправлены на ваш email"

  /** The error map of `validateForm`: the email rule alone. */
  function ForgotErrors(email: string): (e: Errors)
    ensures e.Keys <= {Email}
    ensures Email in e <==> !IsValidEmail(email)
    ensures Email in e ==> e[Email] == (if IsBlank(email) then EmailRequired else EmailInvalid)
  {
    Record(map[], Email, EmailError(email))
  }

  /** What the form does once the link was sent: `onSuccess`, else `onBackToSignIn`, else nothing. */
  function AfterSent(hasOnSuccess: bool, hasOnBackToSignIn: bool): (next: Next)
    ensures next == CallOnSuccess <==> hasOnSuccess
    ensures next == CallOnBackToSignIn <==> !hasOnSuccess && hasOnBackToSignIn
    ensures next == Stay <==> !hasOnSuccess && !hasOnBackToSignIn
  {
    if hasOnSuccess then CallOnSuccess
    else if hasOnBackToSignIn then CallOnBackToSignIn
    else Stay
  }

  class Form {
    var email: string
    var errors: Errors
    var isLoading: bool
    var successMessage: string

    constructor ()
      ensures email == "" && errors == map[] && !isLoading && successMessage == ""
    {
      email, errors, isLoading, successMessage := "", map[], false, "";
    }

    /** `handleChange`: stores the address and clears a shown email error. */
    method HandleChange(value: string)
      modifies this
      ensures email == value
      ensures errors == ClearOnEdit(old(errors), Email)
      ensures isLoading == old(isLoading) && successMessage == old(successMessage)
    {
      email := value;
      if Shows(errors, Email) {
        errors := errors[Email := ""];
      }
    }

    /** `validateForm`: replaces the shown errors with the email check's result. */
    method ValidateForm() returns (valid: bool)
      modifies this`errors
      ensures errors == ForgotErrors(email)
      ensures valid <==> IsValidEmail(email)
    {
      var newErrors := ForgotErrors(email);
      errors := newErrors;
      valid := |newErrors| == 0;
    }

    /**
     * `handleSubmit`, with the reply of `resetPassword` as a parameter. A valid
     * submit first clears an earlier success message, whatever the reply.
     */
    method HandleSubmit(reply: CallReply, hasOnSuccess: bool, hasOnBackToSignIn: bool) returns (outcome: Submit)
      modifies this`errors, this`isLoading, this`successMessage
      ensures !IsValidEmail(email) ==>
                outcome == NotSent && errors == ForgotErrors(email)
                && isLoading == old(isLoading) && successMessage == old(successMessage)
      ensures IsValidEmail(email) ==>
                && errors == ErrorsAfterCall(reply)
                && !isLoading
                && (if reply.IsError() || reply.Raised? then
                      outcome == SentFailed && successMessage == ""
                    else
                      outcome == SentOk(AfterSent(hasOnSuccess, hasOnBackToSignIn))
                      && successMessage == InstructionsSent)
    {
      var valid := ValidateForm();
      if !valid {
        return NotSent;
      }
      isLoading := true;
      errors := map[];
      successMessage := "";
      if reply.Raised? {
        errors := map[General := UnexpectedError];
        outcome := SentFailed;
      } else if reply.IsError() {
        errors := map[General := reply.error.value];
        outcome := SentFailed;
      } else {
        successMessage := InstructionsSent;
        outcome := SentOk(AfterSent(hasOnSuccess, hasOnBackToSignIn));
      }
      isLoading := false;
    }
  }
}
