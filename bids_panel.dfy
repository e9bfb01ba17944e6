/**
 * The bids panel: submitting, editing and cancelling bids, the actions a bid
 * offers to each role, and the colour of each status.
 */
module BidsPanel {
  import opened Common
  import opened SrcSchema
  import opened BidAmount
  import Forms

  const BidUpdated := "Bid updated successfully!"
  const UpdateFailed := "Failed to update bid"
  const CancelFailed := "Failed to cancel bid"

  const Yellow := "bg-yellow-100 text-yellow-800"
  const Green := "bg-green-100 text-green-800"
  const Red := "bg-red-100 text-red-800"
  const Gray := "bg-gray-100 text-gray-800"

  /** A write the panel sends to `bids`. */
  datatype BidWrite =
    | Insert(row: BidInsert)
    | Update(id: string, amount: Option<real>, message: Option<string>)
    | SetStatus(id: string, status: string)

  /**
   * What one handler does besides changing the panel's state: the write it
   * sends, the text of the `alert` it shows, and whether it calls `fetchBids`.
   */
  datatype Effects = Effects(write: Option<BidWrite>, alert: Option<string>, refetch: bool)

  const NoEffects := Effects(None, None, false)

  /** The reply of the `bids` query: rows (`data || []`) or an error. */
  datatype FetchReply = Rows(data: Option<seq<Bid>>) | FetchFailed

  datatype Action = Edit | Cancel | Accept | Reject

  /**
   * The buttons a bid shows: none unless it is pending; an executor may edit and
   * cancel it, any other role accept and reject it.
   */
  function Actions(status: string, role: string): (a: set<Action>)
    ensures a != {} <==> status == "PENDING"
    ensures status == "PENDING" && role == "EXECUTOR" ==> a == {Edit, Cancel}
    ensures status == "PENDING" && role != "EXECUTOR" ==> a == {Accept, Reject}
  {
    if status != "PENDING" then {}
    else if role == "EXECUTOR" then {Edit, Cancel}
    else {Accept, Reject}
  }

  /** No role is offered both an executor's and an owner's action on the same bid. */
  lemma ActionsSplitByRole(status: string, role: string)
    ensures Actions(status, role) * {Edit, Cancel} == {} || Actions(status, role) * {Accept, Reject} == {}
  {
  }

  /** `getStatusColor`: one colour per known status, gray for any other. */
  function StatusColor(status: string): (c: string)
    ensures status == "PENDING" <==> c == Yellow
    ensures status == "ACCEPTED" <==> c == Green
    ensures status == "REJECTED" <==> c == Red
    ensures status !in {"PENDING", "ACCEPTED", "REJECTED"} <==> c == Gray
  {
    if status == "PENDING" then Yellow
    else if status == "ACCEPTED" then Green
    else if status == "REJECTED" then Red
    else Gray
  }

  /**
   * The rows of `bids` once `update({status: 'CANCELLED'}).eq('id', bidId)` is
   * applied: the bids with that id are cancelled, every other row is untouched.
   */
  function CancelIn(bids: seq<Bid>, bidId: string): (r: seq<Bid>)
    ensures |r| == |bids|
    ensures forall i :: 0 <= i < |bids| && bids[i].id == bidId ==> r[i] == bids[i].(status := "CANCELLED")
    ensures forall i :: 0 <= i < |bids| && bids[i].id != bidId ==> r[i] == bids[i]
  {
    if bids == [] then []
    else
      var head := if bids[0].id == bidId then bids[0].(status := "CANCELLED") else bids[0];
      var tail := CancelIn(bids[1..], bidId);
      assert forall i :: 1 <= i < |bids| ==> bids[i] == bids[1..][i - 1];
      [head] + tail
  }

  /** A cancelled bid offers no action to anyone. */
  lemma CancelledBidHasNoActions(bids: seq<Bid>, bidId: string, i: int, role: string)
    requires 0 <= i < |bids| && bids[i].id == bidId
    ensures Actions(CancelIn(bids, bidId)[i].status, role) == {}
  {
  }

  class Panel {
    const userId: string
    const userRole: string
    var bids: seq<Bid>
    var loading: bool
    var editingBid: Option<Bid>
    var bidAmount: string
    var bidMessage: string

    /** The role defaults to 'EXECUTOR' when the prop is not given. */
    constructor (userId: string, userRole: Option<string>)
      ensures this.userId == userId && this.userRole == userRole.GetOr("EXECUTOR")
      ensures bids == [] && loading && editingBid == None && bidAmount == "" && bidMessage == ""
    {
      this.userId := userId;
      this.userRole := userRole.GetOr("EXECUTOR");
      bids, loading, editingBid, bidAmount, bidMessage := [], true, None, "", "";
    }

    /** `fetchBids`: rows replace the list, an error keeps it; loading ends either way. */
    method FetchBids(reply: FetchReply)
      modifies this`bids, this`loading
      ensures bids == if reply.Rows? then reply.data.GetOr([]) else old(bids)
      ensures !loading
    {
      if reply.Rows? {
        bids := reply.data.GetOr([]);
      }
      loading := false;
    }

    /**
     * `handleSubmitBid`, with the insert's reply as a parameter. A refused amount
     * sends nothing. A success clears amount and message and refetches; a
     * failure keeps both.
     */
    method HandleSubmitBid(requestId: string, parse: string -> Option<real>, reply: Reply) returns (fx: Effects)
      modifies this`bidAmount, this`bidMessage
      ensures AmountRefused(old(bidAmount), parse) ==>
                fx == Effects(None, Some(InvalidAmount), false)
                && bidAmount == old(bidAmount) && bidMessage == old(bidMessage)
      ensures !AmountRefused(old(bidAmount), parse) ==>
                && fx.write == Some(Insert(BidInsert(requestId, userId, parse(old(bidAmount)), Forms.Truthy(old(bidMessage)))))
                && (reply == Done ==> fx.alert == Some(BidSubmitted) && fx.refetch && bidAmount == "" && bidMessage == "")
                && (reply != Done ==> fx.alert == Some(SubmitFailed) && !fx.refetch
                                      && bidAmount == old(bidAmount) && bidMessage == old(bidMessage))
    {
      if AmountRefused(bidAmount, parse) {
        return Effects(None, Some(InvalidAmount), false);
      }
      var write := Insert(BidInsert(requestId, userId, parse(bidAmount), Forms.Truthy(bidMessage)));
      if reply == Done {
        bidAmount := "";
        bidMessage := "";
        fx := Effects(Some(write), Some(BidSubmitted), true);
      } else {
        fx := Effects(Some(write), Some(SubmitFailed), false);
      }
    }

    /**
     * `handleUpdateBid`: refused also when no bid is being edited. A success
     * closes the editor, clears amount and message and refetches.
     */
    method HandleUpdateBid(parse: string -> Option<real>, reply: Reply) returns (fx: Effects)
      modifies this`editingBid, this`bidAmount, this`bidMessage
      ensures old(editingBid) == None || AmountRefused(old(bidAmount), parse) ==>
                fx == Effects(None, Some(InvalidAmount), false)
                && editingBid == old(editingBid) && bidAmount == old(bidAmount) && bidMessage == old(bidMessage)
      ensures old(editingBid).Some? && !AmountRefused(old(bidAmount), parse) ==>
                && fx.write == Some(Update(old(editingBid).value.id, parse(old(bidAmount)), Forms.Truthy(old(bidMessage))))
                && (reply == Done ==>
                      fx.alert == Some(BidUpdated) && fx.refetch
                      && editingBid == None && bidAmount == "" && bidMessage == "")
                && (reply != Done ==>
                      fx.alert == Some(UpdateFailed) && !fx.refetch
                      && editingBid == old(editingBid) && bidAmount == old(bidAmount) && bidMessage == old(bidMessage))
    {
      if editingBid == None || AmountRefused(bidAmount, parse) {
        return Effects(None, Some(InvalidAmount), false);
      }
      var write := Update(editingBid.value.id, parse(bidAmount), Forms.Truthy(bidMessage));
      if reply == Done {
        editingBid := None;
        bidAmount := "";
        bidMessage := "";
        fx := Effects(Some(write), Some(BidUpdated), true);
      } else {
        fx := Effects(Some(write), Some(UpdateFailed), false);
      }
    }

    /**
     * `handleCancelBid`: without confirmation nothing happens; otherwise the
     * status write is sent, and a success refetches while a failure alerts.
     * The panel's own state is not changed.
     */
    method HandleCancelBid(bidId: string, confirmed: bool, reply: Reply) returns (fx: Effects)
      ensures !confirmed ==> fx == NoEffects
      ensures confirmed ==> fx.write == Some(SetStatus(bidId, "CANCELLED"))
      ensures confirmed && reply == Done ==> fx.alert == None && fx.refetch
      ensures confirmed && reply != Done ==> fx.alert == Some(CancelFailed) && !fx.refetch
    {
      if !confirmed {
        return NoEffects;
      }
      var write := SetStatus(bidId, "CANCELLED");
      if reply == Done {
        fx := Effects(Some(write), None, true);
      } else {
        fx := Effects(Some(write), Some(CancelFailed), false);
      }
    }

    /**
     * The Edit button: the bid becomes the one being edited, its amount is shown
     * through `toString` (a parameter) and its message, or '' when it has none.
     */
    method StartEdit(bid: Bid, toText: real -> string)
      modifies this`editingBid, this`bidAmount, this`bidMessage
      ensures editingBid == Some(bid) && bidAmount == toText(bid.amount) && bidMessage == bid.message.GetOr("")
    {
      editingBid := Some(bid);
      bidAmount := toText(bid.amount);
      bidMessage := bid.message.GetOr("");
    }

    /** The Cancel button of the edit dialog: closes the editor and keeps the typed values. */
    method CloseEdit()
      modifies this`editingBid
      ensures editingBid == None
    {
      editingBid := None;
    }

    /** The typed amount and message, as the inputs' change handlers store them. */
    method EnterValues(amount: string, message: string)
      modifies this`bidAmount, this`bidMessage
      ensures bidAmount == amount && bidMessage == message
    {
      bidAmount := amount;
      bidMessage := message;
    }
  }
}
