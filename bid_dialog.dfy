/**
 * The dialog in which an executor bids on a request: the guard of its submit
 * handler, the order of what a successful submit does, and the disabled state
 * of its button.
 */
module BidDialog {
  import opened Common
  import opened BidAmount
  import Forms

  /** The request the dialog is opened for (only what the dialog uses). */
  datatype DialogRequest = DialogRequest(id: string, title: string)

  /** One thing `handleSubmit` does, in the order it does it. */
  datatype Step =
    | LoadingOn
    | Send(row: BidInsert)
    | ResetAmount
    | ResetMessage
    | CloseDialog       // the `onClose` prop
    | NotifySubmitted   // the `onSubmit` prop
    | ShowAlert(text: string)
    | LoadingOff

  /** The guard of `handleSubmit`: no request, or a refused amount. */
  predicate Refused(request: Option<DialogRequest>, amount: string, parse: string -> Option<real>) {
    request.None? || AmountRefused(amount, parse)
  }

  /** `disabled` of the submit button. */
  predicate Disabled(loading: bool, amount: string, parse: string -> Option<real>) {
    loading || AmountRefused(amount, parse)
  }

  /**
   * For a dialog that renders (it has a request) and is not loading, the button
   * is disabled exactly when the handler would refuse to send.
   */
  lemma DisabledMatchesGuard(request: DialogRequest, amount: string, parse: string -> Option<real>)
    ensures Disabled(false, amount, parse) <==> Refused(Some(request), amount, parse)
    ensures Disabled(true, amount, parse)
  {
  }

  /** What the dialog renders: nothing without a request. */
  datatype View = Nothing | Shown(request: DialogRequest, open: bool, busy: bool)

  function Render(request: Option<DialogRequest>, isOpen: bool, loading: bool): (v: View)
    ensures v == Nothing <==> request.None?
    ensures v.Shown? ==> v.request == request.value && v.open == isOpen && v.busy == loading
  {
    if request.None? then Nothing else Shown(request.value, isOpen, loading)
  }

  class Dialog {
    const userId: string
    var amount: string
    var message: string
    var loading: bool

    constructor (userId: string)
      ensures this.userId == userId && amount == "" && message == "" && !loading
    {
      this.userId := userId;
      amount, message, loading := "", "", false;
    }

    method EnterValues(amount: string, message: string)
      modifies this`amount, this`message
      ensures this.amount == amount && this.message == message
    {
      this.amount := amount;
      this.message := message;
    }

    /**
     * `handleSubmit`, with the insert's reply as a parameter. A refused submit
     * only alerts. Otherwise loading is switched on, the row is sent, and on
     * success amount and message are reset before `onClose`, then `onSubmit`,
     * then the alert; loading is switched off last whatever the reply.
     */
    method HandleSubmit(request: Option<DialogRequest>, parse: string -> Option<real>, reply: Reply)
      returns (steps: seq<Step>)
      modifies this`amount, this`message, this`loading
      ensures Refused(request, old(amount), parse) ==>
                steps == [ShowAlert(InvalidAmount)]
                && amount == old(amount) && message == old(message) && loading == old(loading)
      ensures !Refused(request, old(amount), parse) ==>
                var row := BidInsert(request.value.id, userId, parse(old(amount)), Forms.Truthy(old(message)));
                && !loading
                && (reply == Done ==>
                      steps == [LoadingOn, Send(row), ResetAmount, ResetMessage, CloseDialog, NotifySubmitted,
                                ShowAlert(BidSubmitted), LoadingOff]
                      && amount == "" && message == "")
                && (reply != Done ==>
                      steps == [LoadingOn, Send(row), ShowAlert(SubmitFailed), LoadingOff]
                      && amount == old(amount) && message == old(message))
    {
      if request.None? || AmountRefused(amount, parse) {
        return [ShowAlert(InvalidAmount)];
      }
      loading := true;
      steps := [LoadingOn];
      steps := steps + [Send(BidInsert(request.value.id, userId, parse(amount), Forms.Truthy(message)))];
      if reply == Done {
        amount := "";
        steps := steps + [ResetAmount];
        message := "";
        steps := steps + [ResetMessage];
        steps := steps + [CloseDialog, NotifySubmitted, ShowAlert(BidSubmitted)];
      } else {
        steps := steps + [ShowAlert(SubmitFailed)];
      }
      loading := false;
      steps := steps + [LoadingOff];
    }
  }
}
