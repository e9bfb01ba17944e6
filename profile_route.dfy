/**
 * The profile endpoint the browser calls after registration: a check that the
 * four required fields are truthy, an insert into `profiles`, and the status
 * code and body of each outcome.
 */
module ProfileRoute {
  import opened Common
  import opened LibSchema
  import LibAuth
  import Forms

  /** The fields read from the JSON body; `None` is a key that is absent or null. */
  datatype Body = Body(
    userId: Option<string>, email: Option<string>, fullName: Option<string>, role: Option<string>,
    companyName: Option<string>, phone: Option<string>)

  predicate RequiredPresent(b: Body) {
    Filled(b.userId) && Filled(b.email) && Filled(b.fullName) && Filled(b.role)
  }

  const MissingFields := "Отсутствуют обязательные поля"

  /** The JSON response: its status and, for a failure, the `error` text (`{ success: true }` otherwise). */
  datatype Response = Response(status: int, error: Option<string>) {
    /** `response.ok`: a status in the 200 range. */
    predicate Ok() {
      200 <= status < 300
    }
  }

  /** The response together with the row the request inserted, if any. */
  datatype Handled = Handled(response: Response, inserted: Option<Profile>)

  /** The row inserted for a body that passed the check; company and phone go through as given. */
  function RowOf(b: Body): (p: Profile)
    requires RequiredPresent(b)
    ensures p.id == b.userId.value && p.email == b.email.value && p.fullName == b.fullName && p.role == b.role.value
    ensures p.companyName == b.companyName && p.phone == b.phone
  {
    Profile(b.userId.value, b.email.value, b.fullName, b.role.value, b.companyName, b.phone)
  }

  /**
   * `POST`, with the parsed body (`None` when the body is not JSON) and the
   * reply of the insert as parameters.
   */
  function Post(body: Option<Body>, insert: Reply): (h: Handled)
    ensures h.inserted.Some? <==> body.Some? && RequiredPresent(body.value) && insert == Done
    ensures h.inserted.Some? ==> h.inserted.value == RowOf(body.value)
    ensures h.response.Ok() <==> h.inserted.Some?
    ensures h.response.Ok() ==> h.response == Response(200, None)
    ensures body.Some? && !RequiredPresent(body.value) ==> h.response == Response(400, Some(MissingFields))
    ensures body.Some? && RequiredPresent(body.value) && insert == Failed ==>
              h.response == Response(500, Some(LibAuth.ProfileCreateFailed))
    ensures (body.None? || (RequiredPresent(body.value) && insert == Threw)) ==>
              h.response == Response(500, Some(Forms.UnexpectedError))
  {
    if body.None? then Handled(Response(500, Some(Forms.UnexpectedError)), None)
    else if !RequiredPresent(body.value) then Handled(Response(400, Some(MissingFields)), None)
    else
      match insert
      case Done => Handled(Response(200, None), Some(RowOf(body.value)))
      case Failed => Handled(Response(500, Some(LibAuth.ProfileCreateFailed)), None)
      case Threw => Handled(Response(500, Some(Forms.UnexpectedError)), None)
  }
}
