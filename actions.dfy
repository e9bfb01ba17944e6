/**
 * The server actions on the `bids` and `requests` tables: storing a validated
 * request, and accepting a bid in four ordered writes, each of which may fail,
 * with an early return and no rollback.
 */
module Actions {
  import opened Common
  import opened Validations

  /** A row of `bids`; the amount and the notes are never touched here. */
  datatype Bid = Bid(requestId: string, ownerId: string, amount: real, status: string)

  /** A row of `requests`: the schema's fields and what the actions write. */
  datatype Request = Request(
    input: CreateRequestInput, shipperId: string, status: string, acceptedOwnerId: Option<string>)

  /** The contents of both tables, keyed by row id. */
  datatype Tables = Tables(bids: map<string, Bid>, requests: map<string, Request>)

  /** The `{ success, data?, error? }` objects the actions return. */
  datatype Outcome<+T> = Succeeded(data: T) | FailedWith(error: string)

  const InvalidData := "Ошибка валидации данных"
  const CreateFailed := "Не удалось создать заявку"
  const AcceptFailed := "Не удалось принять ставку"
  const RejectFailed := "Не удалось отклонить другие ставки"
  const LookupFailed := "Не удалось получить информацию о ставке"
  const CloseFailed := "Не удалось обновить заявку"
  const GenericFailure := "Произошла ошибка"

  const PlaceholderShipper := "current-user-id"

  /** The backend's reply to each of the four calls of `acceptBid`. */
  datatype AcceptReplies = AcceptReplies(accept: Reply, reject: Reply, lookup: Reply, close: Reply)

  // ----- The writes, as the backend applies them -----

  /** `update({status}).eq('id', id)`: the row with that id, if any, gets the status. */
  function SetBidStatus(bids: map<string, Bid>, id: string, status: string): (r: map<string, Bid>)
    ensures r.Keys == bids.Keys
    ensures id in bids ==> r[id] == bids[id].(status := status)
    ensures forall k :: k in bids && k != id ==> r[k] == bids[k]
  {
    if id in bids then bids[id := bids[id].(status := status)] else bids
  }

  /** `update({status: 'rejected'}).eq('request_id', requestId).neq('id', bidId)`. */
  function RejectSiblings(bids: map<string, Bid>, requestId: string, bidId: string): (r: map<string, Bid>)
    ensures r.Keys == bids.Keys
    ensures forall k :: k in bids ==>
              r[k] == if bids[k].requestId == requestId && k != bidId then bids[k].(status := "rejected") else bids[k]
  {
    map k | k in bids :: if bids[k].requestId == requestId && k != bidId then bids[k].(status := "rejected") else bids[k]
  }

  /** `update({status: 'closed', accepted_owner_id}).eq('id', requestId)`. */
  function CloseRequest(requests: map<string, Request>, requestId: string, owner: string): (r: map<string, Request>)
    ensures r.Keys == requests.Keys
    ensures requestId in requests ==>
              r[requestId] == requests[requestId].(status := "closed", acceptedOwnerId := Some(owner))
    ensures forall k :: k in requests && k != requestId ==> r[k] == requests[k]
  {
    if requestId in requests
    then requests[requestId := requests[requestId].(status := "closed", acceptedOwnerId := Some(owner))]
    else requests
  }

  /** The message of a call that returned an error, or of the catch block when it threw. */
  function StepFailure(reply: Reply, message: string): string {
    if reply == Threw then GenericFailure else message
  }

  /**
   * The cascade of `acceptBid`: the tables it leaves and the result it returns.
   * A call that failed or threw applied no write; earlier writes stay.
   */
  function Cascade(t: Tables, bidId: string, requestId: string, rep: AcceptReplies): (Tables, Outcome<()>) {
    if rep.accept != Done then (t, FailedWith(StepFailure(rep.accept, AcceptFailed)))
    else
      var b1 := SetBidStatus(t.bids, bidId, "accepted");
      if rep.reject != Done then (Tables(b1, t.requests), FailedWith(StepFailure(rep.reject, RejectFailed)))
      else
        var b2 := RejectSiblings(b1, requestId, bidId);
        // `.single()` reports an error when no row has the id.
        if rep.lookup != Done || bidId !in b2 then
          (Tables(b2, t.requests), FailedWith(if rep.lookup == Threw then GenericFailure else LookupFailed))
        else
          var owner := b2[bidId].ownerId;
          if rep.close != Done then (Tables(b2, t.requests), FailedWith(StepFailure(rep.close, CloseFailed)))
          else (Tables(b2, CloseRequest(t.requests, requestId, owner)), Succeeded(()))
  }

  // ----- What the cascade promises -----

  /** A failed first write changes nothing. */
  lemma FirstWriteFailureChangesNothing(t: Tables, bidId: string, requestId: string, rep: AcceptReplies)
    requires rep.accept != Done
    ensures Cascade(t, bidId, requestId, rep).0 == t
    ensures Cascade(t, bidId, requestId, rep).1 ==
              FailedWith(if rep.accept == Failed then AcceptFailed else GenericFailure)
  {
  }

  /** The effect of a successful cascade on the accepted bid, its siblings and the request. */
  lemma SuccessEffects(t: Tables, bidId: string, requestId: string, rep: AcceptReplies)
    requires Cascade(t, bidId, requestId, rep).1.Succeeded?
    ensures rep == AcceptReplies(Done, Done, Done, Done)
    ensures bidId in t.bids
    ensures var t' := Cascade(t, bidId, requestId, rep).0;
            && t'.bids[bidId] == t.bids[bidId].(status := "accepted")
            && (forall k :: k in t.bids && k != bidId && t.bids[k].requestId == requestId ==>
                  t'.bids[k] == t.bids[k].(status := "rejected"))
            && (requestId in t.requests ==>
                  t'.requests[requestId] ==
                    t.requests[requestId].(status := "closed", acceptedOwnerId := Some(t.bids[bidId].ownerId)))
  {
    var b1 := SetBidStatus(t.bids, bidId, "accepted");
    var b2 := RejectSiblings(b1, requestId, bidId);
    assert bidId in b2;
    assert b2[bidId].ownerId == t.bids[bidId].ownerId;
  }

  /**
   * Whatever the replies, no row appears or disappears, the bids of other
   * requests (apart from `bidId`) and the other requests keep their contents,
   * and only the status (and the accepted owner) of a touched row changes.
   */
  lemma CascadeFrame(t: Tables, bidId: string, requestId: string, rep: AcceptReplies)
    ensures var t' := Cascade(t, bidId, requestId, rep).0;
            && t'.bids.Keys == t.bids.Keys && t'.requests.Keys == t.requests.Keys
            && (forall k :: k in t.bids && k != bidId && t.bids[k].requestId != requestId ==>
                  t'.bids[k] == t.bids[k])
            && (forall k :: k in t.requests && k != requestId ==> t'.requests[k] == t.requests[k])
            && (forall k :: k in t.bids ==> t'.bids[k] == t.bids[k].(status := t'.bids[k].status))
            && (forall k :: k in t.requests ==>
                  t'.requests[k] ==
                    t.requests[k].(status := t'.requests[k].status, acceptedOwnerId := t'.requests[k].acceptedOwnerId))
  {
  }

  /**
   * A failure after the first write undoes none of the earlier writes: the bid
   * stays accepted, the sibling rejection stays once it was made, the requests
   * are untouched, and the result carries the message of the step that failed.
   */
  lemma LaterFailureKeepsAcceptance(t: Tables, bidId: string, requestId: string, rep: AcceptReplies)
    requires rep.accept == Done && bidId in t.bids
    requires Cascade(t, bidId, requestId, rep).1.FailedWith?
    ensures Cascade(t, bidId, requestId, rep).0.bids[bidId].status == "accepted"
    ensures Cascade(t, bidId, requestId, rep).0.requests == t.requests
    ensures rep.reject != Done ==>
              && Cascade(t, bidId, requestId, rep).0.bids == SetBidStatus(t.bids, bidId, "accepted")
              && Cascade(t, bidId, requestId, rep).1 ==
                   FailedWith(if rep.reject == Failed then RejectFailed else GenericFailure)
    ensures rep.reject == Done ==>
              Cascade(t, bidId, requestId, rep).0.bids ==
                RejectSiblings(SetBidStatus(t.bids, bidId, "accepted"), requestId, bidId)
    ensures rep.reject == Done && rep.lookup != Done ==>
              Cascade(t, bidId, requestId, rep).1 ==
                FailedWith(if rep.lookup == Failed then LookupFailed else GenericFailure)
    ensures rep.reject == Done && rep.lookup == Done ==>
              && rep.close != Done
              && Cascade(t, bidId, requestId, rep).1 ==
                   FailedWith(if rep.close == Failed then CloseFailed else GenericFailure)
  {
    var b2 := RejectSiblings(SetBidStatus(t.bids, bidId, "accepted"), requestId, bidId);
    assert bidId in b2;
  }

  /**
   * When the bid is unknown the siblings are still rejected before the lookup
   * fails, so the request is left with every bid rejected and none accepted.
   */
  lemma UnknownBidRejectsAll(t: Tables, bidId: string, requestId: string, rep: AcceptReplies)
    requires bidId !in t.bids && rep.accept == Done && rep.reject == Done && rep.lookup == Done
    ensures Cascade(t, bidId, requestId, rep).1 == FailedWith(LookupFailed)
    ensures var t' := Cascade(t, bidId, requestId, rep).0;
            forall k :: k in t.bids && t.bids[k].requestId == requestId ==> t'.bids[k].status == "rejected"
  {
  }

  /** The bids of a request that carry the accepted status. */
  function AcceptedOf(bids: map<string, Bid>, requestId: string): set<string> {
    set k | k in bids && bids[k].requestId == requestId && bids[k].status == "accepted"
  }

  /** After a success, a bid of the request itself is the only accepted bid of that request. */
  lemma ExactlyOneAccepted(t: Tables, bidId: string, requestId: string, rep: AcceptReplies)
    requires bidId in t.bids && t.bids[bidId].requestId == requestId
    requires Cascade(t, bidId, requestId, rep).1.Succeeded?
    ensures AcceptedOf(Cascade(t, bidId, requestId, rep).0.bids, requestId) == {bidId}
  {
    SuccessEffects(t, bidId, requestId, rep);
    CascadeFrame(t, bidId, requestId, rep);
  }

  /**
   * No check ties `bidId` to `requestId`: with a bid of another request, a
   * success closes the request with that bid's owner and leaves none of its own
   * bids accepted.
   */
  lemma ForeignBidLeavesNoneAccepted(t: Tables, bidId: string, requestId: string, rep: AcceptReplies)
    requires bidId in t.bids && t.bids[bidId].requestId != requestId
    requires Cascade(t, bidId, requestId, rep).1.Succeeded?
    ensures AcceptedOf(Cascade(t, bidId, requestId, rep).0.bids, requestId) == {}
  {
    SuccessEffects(t, bidId, requestId, rep);
    CascadeFrame(t, bidId, requestId, rep);
  }

  /** An unknown request is not an error: the bids change and success is reported. */
  lemma UnknownRequestStillSucceeds(t: Tables, bidId: string, requestId: string)
    requires bidId in t.bids && requestId !in t.requests
    ensures Cascade(t, bidId, requestId, AcceptReplies(Done, Done, Done, Done)).1.Succeeded?
    ensures Cascade(t, bidId, requestId, AcceptReplies(Done, Done, Done, Done)).0.requests == t.requests
  {
    var b1 := SetBidStatus(t.bids, bidId, "accepted");
    assert bidId in RejectSiblings(b1, requestId, bidId);
  }

  /** The row `createRequest` stores for a validated input. */
  function NewRequest(input: CreateRequestInput): (row: Request)
    ensures row.input == input && row.status == "active" && row.shipperId == PlaceholderShipper
    ensures row.acceptedOwnerId == None
  {
    Request(input, PlaceholderShipper, "active", None)
  }

  class Backend {
    var bids: map<string, Bid>
    var requests: map<string, Request>

    function Contents(): Tables
      reads this
    {
      Tables(bids, requests)
    }

    constructor (initial: Tables)
      ensures Contents() == initial
    {
      bids, requests := initial.bids, initial.requests;
    }

    /**
     * `createRequest`: parse, then insert with the placeholder shipper and the
     * status 'active'. `newId` is the key the database assigns; an insert whose
     * key is taken fails like any other insert error.
     */
    method CreateRequest(raw: RawRequest, newId: string, insert: Reply) returns (r: Outcome<Request>)
      modifies this`requests
      ensures Parse(raw).Rejected? ==> r == FailedWith(InvalidData) && requests == old(requests)
      ensures Parse(raw).Accepted? && insert == Done && newId !in old(requests) ==>
                && r == Succeeded(NewRequest(Parse(raw).input))
                && requests == old(requests)[newId := NewRequest(Parse(raw).input)]
      ensures Parse(raw).Accepted? && (insert != Done || newId in old(requests)) ==>
                r == FailedWith(if insert == Threw then InvalidData else CreateFailed) && requests == old(requests)
    {
      var parsed := Parse(raw);
      if parsed.Rejected? {
        return FailedWith(InvalidData);
      }
      if insert == Threw {
        // The catch block reports every exception as a validation error.
        return FailedWith(InvalidData);
      }
      if insert == Failed || newId in requests {
        return FailedWith(CreateFailed);
      }
      var row := Request(parsed.input, PlaceholderShipper, "active", None);
      requests := requests[newId := row];
      r := Succeeded(row);
    }

    /** `acceptBid`: the four writes in order, returning at the first failure. */
    method AcceptBid(bidId: string, requestId: string, rep: AcceptReplies) returns (r: Outcome<()>)
      modifies this
      ensures (Contents(), r) == Cascade(old(Contents()), bidId, requestId, rep)
    {
      if rep.accept != Done {
        return FailedWith(if rep.accept == Threw then GenericFailure else AcceptFailed);
      }
      if bidId in bids {
        bids := bids[bidId := bids[bidId].(status := "accepted")];
      }
      if rep.reject != Done {
        return FailedWith(if rep.reject == Threw then GenericFailure else RejectFailed);
      }
      bids := map k | k in bids :: if bids[k].requestId == requestId && k != bidId then bids[k].(status := "rejected") else bids[k];
      if rep.lookup != Done || bidId !in bids {
        return FailedWith(if rep.lookup == Threw then GenericFailure else LookupFailed);
      }
      var owner := bids[bidId].ownerId;
      if rep.close != Done {
        return FailedWith(if rep.close == Threw then GenericFailure else CloseFailed);
      }
      if requestId in requests {
        requests := requests[requestId := requests[requestId].(status := "closed", acceptedOwnerId := Some(owner))];
      }
      r := Succeeded(());
    }
  }
}
