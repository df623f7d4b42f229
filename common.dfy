/** Values shared by the subscription-expiry screens: optional fields, the
    backend's response envelope, badge colours and the report filter object. */
module Common {

  datatype Option<+T> = None | Some(value: T) {
    function GetOr(default: T): T {
      match this
      case Some(v) => v
      case None => default
    }
  }

  /** A days-remaining field as it reaches the client: missing (`undefined`),
      explicitly `null`, or an integer computed by the backend. */
  datatype Days = Undefined | Null | Known(n: int)

  /** `Math.min` on integers. */
  function Min(a: int, b: int): int {
    if a <= b then a else b
  }

  /** The Bootstrap badge colours the screens use. */
  datatype Colour = Secondary | Danger | Warning | Info | Success | Dark

  /** The `success` field of a response: absent, or a boolean, number or string. */
  datatype Flag = Absent | Bool(b: bool) | Num(x: int) | Str(s: string)

  /** JavaScript truthiness of a `success` field. */
  predicate Truthy(f: Flag) {
    match f
    case Absent => false
    case Bool(b) => b
    case Num(x) => x != 0
    case Str(s) => s != ""
  }

  /** JavaScript truthiness of an optional string (the empty string is falsy). */
  predicate HasText(s: Option<string>) {
    s.Some? && s.value != ""
  }

  /** JavaScript truthiness of an optional count (zero is falsy). */
  predicate HasCount(n: Option<nat>) {
    n.Some? && n.value != 0
  }

  /** The expiry status codes the backend understands. */
  const EXPIRED := "EXPIRED"
  const EXPIRING_7 := "EXPIRING_7"
  const EXPIRING_15 := "EXPIRING_15"
  const EXPIRING_30 := "EXPIRING_30"

  /** One subscription row; all other descriptive fields are opaque payload. */
  datatype Subscription = Subscription(id: string, matriId: string, daysRemaining: Days)

  /** The pagination object of a response; every field may be missing. */
  datatype Pagination = Pagination(
    totalCount: Option<nat>,
    total: Option<nat>,
    page: Option<int>,
    limit: Option<int>,
    pages: Option<nat>)

  /** The pre-aggregated summary object a report response may carry. */
  datatype Summary = Summary(expired: nat, expiring7: nat, expiring15: nat, expiring30: nat)

  datatype Meta = Meta(code: Option<int>, message: Option<string>)

  /** A decoded report response with every field optional. */
  datatype Response = Response(
    meta: Option<Meta>,
    success: Flag,
    data: Option<seq<Subscription>>,
    pagination: Option<Pagination>,
    summary: Option<Summary>,
    message: Option<string>)

  /** What an awaited request produced: it threw, or it resolved to a
      response (`None` when it resolved to nothing). */
  datatype Fetch = Threw | Returned(response: Option<Response>)

  /** `response.meta?.code === 200` */
  predicate MetaOk(r: Response) {
    r.meta.Some? && r.meta.value.code == Some(200)
  }

  /** One value of the filter object sent to the report endpoint. */
  datatype FilterValue = Missing | Text(s: string) | Ids(ids: seq<string>)

  /** The keys the filter panel can submit: from, to, expiryStatus, plans,
      country, state, city, search. */
  datatype FilterKey = From | To | ExpiryStatus | Plans | Country | State | City | Search

  type FilterObject = map<FilterKey, FilterValue>
}
