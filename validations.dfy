/**
 * The schema a new transport request must satisfy before it is stored: four
 * non-empty strings, a wagon type from a fixed list, at least one wagon and a
 * target price that is not negative.
 */
module Validations {
  import opened Common

  /** A field of the incoming object as the schema sees it. */
  datatype Value =
    | Str(s: string)
    | Num(n: real)      // a number other than NaN
    | NotANumber
    | Absent            // undefined or missing
    | OtherType         // null, boolean, object, ...

  /** The incoming object, one value per key of the schema. */
  datatype RawRequest = RawRequest(
    routeFrom: Value, routeTo: Value, cargoDescription: Value, wagonType: Value,
    wagonCount: Value, loadingDate: Value, targetPrice: Value)

  /** The parsed input (`CreateRequestInput`). */
  datatype CreateRequestInput = CreateRequestInput(
    routeFrom: string, routeTo: string, cargoDescription: string, wagonType: string,
    wagonCount: real, loadingDate: string, targetPrice: real)

  const WagonTypes: seq<string> := ["крытый", "полувагон", "платформа", "цистерна", "хоппер"]

  const RouteFromRequired := "Откуда обязательно"
  const RouteToRequired := "Куда обязательно"
  const CargoRequired := "Описание груза обязательно"
  const WagonCountTooSmall := "Количество вагонов должно быть больше 0"
  const LoadingDateRequired := "Дата погрузки обязательна"
  const TargetPriceTooSmall := "Целевая цена должна быть положительной"

  /** One reported problem, under the key it concerns; the library's own texts for type errors are not modelled. */
  datatype Issue =
    | TooSmall(path: string, message: string)
    | InvalidType(path: string)
    | InvalidEnumValue(path: string)

  /** `z.string().min(1, message)`: a string of at least one UTF-16 unit. */
  function StringIssues(path: string, v: Value, message: string): (r: seq<Issue>)
    ensures r == [] <==> v.Str? && v.s != ""
    ensures |r| <= 1
  {
    match v
    case Str(s) =>
      JsLengthZeroIffEmpty(s);
      if JsLength(s) >= 1 then [] else [TooSmall(path, message)]
    case _ => [InvalidType(path)]
  }

  /** `z.number().min(least, message)`: a number, not NaN, at least `least`. */
  function NumberIssues(path: string, v: Value, least: real, message: string): (r: seq<Issue>)
    ensures r == [] <==> v.Num? && v.n >= least
    ensures |r| <= 1
  {
    match v
    case Num(n) => if n >= least then [] else [TooSmall(path, message)]
    case _ => [InvalidType(path)]
  }

  /** `z.enum([...])`: exactly one of the listed strings. */
  function EnumIssues(path: string, v: Value, options: seq<string>): (r: seq<Issue>)
    ensures r == [] <==> v.Str? && v.s in options
    ensures |r| <= 1
  {
    match v
    case Str(s) => if s in options then [] else [InvalidEnumValue(path)]
    case _ => [InvalidType(path)]
  }

  /** The problems of every field, in the order of the schema's keys. */
  function Issues(raw: RawRequest): seq<Issue> {
    StringIssues("route_from", raw.routeFrom, RouteFromRequired)
    + StringIssues("route_to", raw.routeTo, RouteToRequired)
    + StringIssues("cargo_description", raw.cargoDescription, CargoRequired)
    + EnumIssues("wagon_type", raw.wagonType, WagonTypes)
    + NumberIssues("wagon_count", raw.wagonCount, 1.0, WagonCountTooSmall)
    + StringIssues("loading_date", raw.loadingDate, LoadingDateRequired)
    + NumberIssues("target_price", raw.targetPrice, 0.0, TargetPriceTooSmall)
  }

  /** The seven field rules, each stated on its own. */
  predicate FieldsValid(raw: RawRequest) {
    && raw.routeFrom.Str? && raw.routeFrom.s != ""
    && raw.routeTo.Str? && raw.routeTo.s != ""
    && raw.cargoDescription.Str? && raw.cargoDescription.s != ""
    && raw.wagonType.Str? && raw.wagonType.s in WagonTypes
    && raw.wagonCount.Num? && raw.wagonCount.n >= 1.0
    && raw.loadingDate.Str? && raw.loadingDate.s != ""
    && raw.targetPrice.Num? && raw.targetPrice.n >= 0.0
  }

  datatype Parsed = Accepted(input: CreateRequestInput) | Rejected(issues: seq<Issue>)

  /** `createRequestSchema.parse`: the typed input, or every problem found. */
  function Parse(raw: RawRequest): (r: Parsed)
    ensures r.Accepted? <==> FieldsValid(raw)
    ensures r.Rejected? ==> r.issues != [] && |r.issues| <= 7
    ensures r.Accepted? ==>
              && Str(r.input.routeFrom) == raw.routeFrom && Str(r.input.routeTo) == raw.routeTo
              && Str(r.input.cargoDescription) == raw.cargoDescription
              && Str(r.input.wagonType) == raw.wagonType && Num(r.input.wagonCount) == raw.wagonCount
              && Str(r.input.loadingDate) == raw.loadingDate && Num(r.input.targetPrice) == raw.targetPrice
  {
    var issues := Issues(raw);
    if issues == [] then
      Accepted(CreateRequestInput(
        raw.routeFrom.s, raw.routeTo.s, raw.cargoDescription.s, raw.wagonType.s,
        raw.wagonCount.n, raw.loadingDate.s, raw.targetPrice.n))
    else Rejected(issues)
  }

  /** The rules only ask for a character: a route of spaces passes, a zero price passes. */
  lemma BlankRouteAndZeroPricePass(raw: RawRequest)
    requires FieldsValid(raw)
    ensures Parse(raw.(routeFrom := Str(" "), targetPrice := Num(0.0))).Accepted?
  {
  }

  /** The first reported problem belongs to the first key that breaks its rule. */
  lemma FirstIssueIsRouteFrom(raw: RawRequest)
    requires raw.routeFrom == Str("")
    ensures Parse(raw).Rejected? && Parse(raw).issues[0] == TooSmall("route_from", RouteFromRequired)
  {
  }
}
