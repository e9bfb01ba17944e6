/**
 * The shipper dashboard: its in-memory list of requests, the submit handler
 * that prepends a new request, and the status badge of each row.
 */
module ShipperPage {
  import opened Common

  const PlaceholderShipper := "current-user-id"
  const Created := "Заявка успешно создана"
  const ActiveLabel := "Активна"
  const ClosedLabel := "Закрыта"

  /** A bid as the list shows it. */
  datatype ListedBid = ListedBid(id: string, price: real, status: string, createdAt: string)

  /**
   * The entries of the submitted form. The two numeric entries are given as the
   * result of `Number(...)`, with `None` standing for NaN.
   */
  datatype Submitted = Submitted(
    routeFrom: string, routeTo: string, cargoDescription: string, wagonType: string,
    wagonCount: Option<real>, loadingDate: string, targetPrice: Option<real>)

  /** A request as the dashboard keeps it. */
  datatype ListedRequest = ListedRequest(
    id: string, shipperId: string, form: Submitted, status: string,
    acceptedOwnerId: Option<string>, createdAt: string, bids: seq<ListedBid>)

  datatype AlertKind = Success | Error
  datatype Alert = Alert(kind: AlertKind, message: string)

  /**
   * The request `handleSubmit` builds: the form's entries, the placeholder
   * shipper, status 'active', no accepted owner and no bids yet. The id and the
   * creation time come from the clock and are parameters.
   */
  function NewRequest(form: Submitted, id: string, createdAt: string): (r: ListedRequest)
    ensures r.form == form && r.id == id && r.createdAt == createdAt
    ensures r.shipperId == PlaceholderShipper
    ensures r.status == "active" && r.acceptedOwnerId == None && r.bids == []
  {
    ListedRequest(id, PlaceholderShipper, form, "active", None, createdAt, [])
  }

  /** `getStatusBadge`: a label for the two statuses the page knows, nothing for any other. */
  function Badge(status: string): (badge: Option<string>)
    ensures badge.Some? <==> status == "active" || status == "closed"
    ensures badge == Some(ActiveLabel) <==> status == "active"
    ensures badge == Some(ClosedLabel) <==> status == "closed"
  {
    if status == "active" then Some(ActiveLabel)
    else if status == "closed" then Some(ClosedLabel)
    else None
  }

  /** A freshly created request is listed as active with no bids. */
  lemma NewRequestListedActive(form: Submitted, id: string, createdAt: string)
    ensures Badge(NewRequest(form, id, createdAt).status) == Some(ActiveLabel)
    ensures |NewRequest(form, id, createdAt).bids| == 0
  {
  }

  /** The two sample requests the page starts with. */
  function Samples(): (s: seq<ListedRequest>)
    ensures |s| == 2 && Badge(s[0].status) == Some(ActiveLabel) && Badge(s[1].status) == Some(ClosedLabel)
  {
    [ ListedRequest("1", PlaceholderShipper,
        Submitted("Москва", "Санкт-Петербург", "Стальные трубы", "полувагон", Some(5.0), "2024-01-15", Some(50000.0)),
        "active", None, "2024-01-01T00:00:00Z",
        [ListedBid("1", 48000.0, "pending", "2024-01-02T00:00:00Z"),
         ListedBid("2", 52000.0, "pending", "2024-01-03T00:00:00Z")]),
      ListedRequest("2", PlaceholderShipper,
        Submitted("Казань", "Екатеринбург", "Строительные материалы", "крытый", Some(3.0), "2024-01-20", Some(75000.0)),
        "closed", Some("owner-123"), "2023-12-15T00:00:00Z",
        [ListedBid("3", 75000.0, "accepted", "2023-12-16T00:00:00Z")]) ]
  }

  class Dashboard {
    var requests: seq<ListedRequest>
    var showForm: bool
    var loading: bool
    var alert: Option<Alert>

    constructor ()
      ensures requests == Samples() && !showForm && !loading && alert == None
    {
      requests, showForm, loading, alert := Samples(), false, false, None;
    }

    /** The toggle of the "create request" button. */
    method ToggleForm()
      modifies this`showForm
      ensures showForm == !old(showForm)
    {
      showForm := !showForm;
    }

    /**
     * `handleSubmit`: the new request goes first and the previous list follows
     * in its order; the form is hidden and the success alert set; loading ends
     * false.
     */
    method HandleSubmit(form: Submitted, id: string, createdAt: string)
      modifies this
      ensures requests == [NewRequest(form, id, createdAt)] + old(requests)
      ensures |requests| == |old(requests)| + 1 && requests[1..] == old(requests)
      ensures !showForm && alert == Some(Alert(Success, Created)) && !loading
    {
      loading := true;
      alert := None;
      var created := NewRequest(form, id, createdAt);
      requests := [created] + requests;
      showForm := false;
      alert := Some(Alert(Success, Created));
      loading := false;
    }
  }
}
