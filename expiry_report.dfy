/** The subscription-expiry report screen: its badges, its normalisation of
    the report response, its pagination arithmetic and the state its
    handlers keep. */
module ExpiryReport {
  import opened Common
  import SubscriptionService
  import ExpiryFilters

  // ---------------------------------------------------------------- badges

  /** A text badge: `DaysText(None)` is what `{null} days` renders. */
  datatype Caption = ExpiredText | DaysText(days: Option<int>)

  datatype Badge = Badge(colour: Colour, caption: Caption)

  /** The "Days" badge for an integer: five buckets that partition the
      integers. Unlike the dashboard, 0 is an ordinary "0 days". */
  function DaysBadge(d: int): (b: Badge)
    ensures b.colour == Dark <==> d < 0
    ensures b.colour == Danger <==> 0 <= d <= 7
    ensures b.colour == Warning <==> 8 <= d <= 15
    ensures b.colour == Info <==> 16 <= d <= 30
    ensures b.colour == Success <==> 30 < d
    ensures b.caption == (if d < 0 then ExpiredText else DaysText(Some(d)))
  {
    if d < 0 then Badge(Dark, ExpiredText)
    else if d <= 7 then Badge(Danger, DaysText(Some(d)))
    else if d <= 15 then Badge(Warning, DaysText(Some(d)))
    else if d <= 30 then Badge(Info, DaysText(Some(d)))
    else Badge(Success, DaysText(Some(d)))
  }

  datatype Cell = NotAvailable | BadgeCell(badge: Badge)

  /** The "Days" cell: 'N/A' only when the field is undefined. A `null`
      value reaches the badge chain, where `null < 0` is false and
      `null <= 7` is true, so it shows as a danger badge. */
  function DaysCell(d: Days): (c: Cell)
    ensures c.NotAvailable? <==> d.Undefined?
    ensures d.Null? ==> c == BadgeCell(Badge(Danger, DaysText(None)))
    ensures d.Known? ==> c == BadgeCell(DaysBadge(d.n))
  {
    match d
    case Undefined => NotAvailable
    case Null => BadgeCell(Badge(Danger, DaysText(None)))
    case Known(n) => BadgeCell(DaysBadge(n))
  }

  datatype StatusDisplay = StatusDisplay(colour: Colour, text: string)

  /** The "status" badge: the four known codes have fixed displays; any
      other status is shown as itself on a secondary badge. */
  function StatusBadge(status: string): (s: StatusDisplay)
    ensures status == EXPIRING_7 ==> s == StatusDisplay(Danger, "7 Days")
    ensures status == EXPIRING_15 ==> s == StatusDisplay(Warning, "15 Days")
    ensures status == EXPIRING_30 ==> s == StatusDisplay(Info, "30 Days")
    ensures status == EXPIRED ==> s == StatusDisplay(Dark, "Expired")
    ensures status !in {EXPIRING_7, EXPIRING_15, EXPIRING_30, EXPIRED} ==> s == StatusDisplay(Secondary, status)
  {
    var statusMap := map[
      EXPIRING_7 := StatusDisplay(Danger, "7 Days"),
      EXPIRING_15 := StatusDisplay(Warning, "15 Days"),
      EXPIRING_30 := StatusDisplay(Info, "30 Days"),
      EXPIRED := StatusDisplay(Dark, "Expired")];
    if status in statusMap then statusMap[status] else StatusDisplay(Secondary, status)
  }

  /** The status whose day range (as the status filter describes it) holds
      `d`; `None` beyond 30 days. */
  function StatusOfDays(d: int): Option<string> {
    if d < 0 then Some(EXPIRED)
    else if d <= 7 then Some(EXPIRING_7)
    else if d <= 15 then Some(EXPIRING_15)
    else if d <= 30 then Some(EXPIRING_30)
    else None
  }

  /** The two badges agree: a row with `d` days left has the colour of the
      status whose range holds `d`, and the rows past 30 days, which have no
      status, are the green ones. */
  lemma DaysBadgeMatchesStatus(d: int)
    ensures StatusOfDays(d).Some? ==> DaysBadge(d).colour == StatusBadge(StatusOfDays(d).value).colour
    ensures StatusOfDays(d).None? <==> DaysBadge(d).colour == Success
  {
    if d < 0 {
      assert StatusBadge(EXPIRED).colour == Dark;
    } else if d <= 7 {
      assert StatusBadge(EXPIRING_7).colour == Danger;
    } else if d <= 15 {
      assert StatusBadge(EXPIRING_15).colour == Warning;
    } else if d <= 30 {
      assert StatusBadge(EXPIRING_30).colour == Info;
    }
  }

  /** The status filter's options carry the colours of the status badges
      of the codes they select. */
  lemma StatusOptionsAgree()
    ensures forall o :: o in ExpiryFilters.STATUS_OPTIONS ==> StatusBadge(o.value).colour == o.colour
  {
    assert StatusBadge(EXPIRING_7).colour == Danger;
    assert StatusBadge(EXPIRING_15).colour == Warning;
    assert StatusBadge(EXPIRING_30).colour == Info;
    assert StatusBadge(EXPIRED).colour == Dark;
  }

  // --------------------------------------------------------- normalisation

  /** The response normalised: rows, pagination and summary, or an error
      message for the screen. */
  datatype Outcome =
    | Loaded(data: seq<Subscription>, pagination: Option<Pagination>, summary: Option<Summary>)
    | Failed(message: string)

  const NO_RESPONSE := "No response received from server"
  const FETCH_ERROR := "An error occurred while fetching the report"
  const UNEXPECTED_FORMAT := "Unexpected response format"

  /** `success === true || success === 'true'` */
  predicate SuccessFlag(r: Response) {
    r.success == Bool(true) || r.success == Str("true")
  }

  /** The three shapes recognised as a successful report, in the order they
      are tried. */
  predicate Recognised(r: Response) {
    MetaOk(r) || SuccessFlag(r) || r.data.Some?
  }

  /** `meta.message || message || 'Unexpected response format'` */
  function FallbackMessage(r: Response): (m: string)
    ensures m != ""
    ensures HasText(r.meta.GetOr(Meta(None, None)).message) ==> m == r.meta.value.message.value
    ensures !HasText(r.meta.GetOr(Meta(None, None)).message) && HasText(r.message) ==> m == r.message.value
    ensures !HasText(r.meta.GetOr(Meta(None, None)).message) && !HasText(r.message) ==> m == UNEXPECTED_FORMAT
  {
    if r.meta.Some? && HasText(r.meta.value.message) then r.meta.value.message.value
    else if HasText(r.message) then r.message.value
    else UNEXPECTED_FORMAT
  }

  function LoadedFrom(r: Response): Outcome {
    Loaded(r.data.GetOr([]), r.pagination, r.summary)
  }

  /** What `fetchReport` makes of the awaited response. All three success
      branches load the same thing, so recognising any shape gives the rows
      (default empty), the pagination (default none) and the summary. */
  function Normalise(f: Fetch): (o: Outcome)
    ensures o.Loaded? <==> f.Returned? && f.response.Some? && Recognised(f.response.value)
    ensures o.Loaded? ==> o.data == f.response.value.data.GetOr([])
    ensures o.Loaded? ==> o.pagination == f.response.value.pagination
    ensures o.Loaded? ==> o.summary == f.response.value.summary
    ensures f.Threw? ==> o == Failed(FETCH_ERROR)
    ensures f == Returned(None) ==> o == Failed(NO_RESPONSE)
    ensures f.Returned? && f.response.Some? && !Recognised(f.response.value)
            ==> o == Failed(FallbackMessage(f.response.value))
  {
    match f
    case Threw => Failed(FETCH_ERROR)
    case Returned(None) => Failed(NO_RESPONSE)
    case Returned(Some(r)) =>
      if MetaOk(r) then LoadedFrom(r)
      else if SuccessFlag(r) then LoadedFrom(r)
      else if r.data.Some? then LoadedFrom(r)
      else Failed(FallbackMessage(r))
  }

  /** The report accepts every response the dashboard service accepts, and
      more: `data` alone suffices here, and only `true`/'true' counts as a
      success flag. */
  lemma NormaliseVersusService(r: Response)
    ensures MetaOk(r) ==> Normalise(Returned(Some(r))).Loaded? && SubscriptionService.ServiceAccepts(Returned(Some(r)))
    ensures SuccessFlag(r) ==> SubscriptionService.ServiceAccepts(Returned(Some(r)))
    ensures r.data.Some? ==> Normalise(Returned(Some(r))).Loaded?
  {
  }

  // ------------------------------------------------------------ pagination

  /** `Math.ceil(totalCount / limit)` */
  function PageCount(totalCount: nat, limit: int): (n: nat)
    requires limit >= 1
    ensures n * limit >= totalCount
    ensures n > 0 ==> (n - 1) * limit < totalCount
    ensures n == 0 <==> totalCount == 0
  {
    var n := (totalCount + limit - 1) / limit;
    assert n * limit <= totalCount + limit - 1 < n * limit + limit;
    n
  }

  datatype PagerView = PagerView(
    first: int, last: int, totalCount: nat,
    prevDisabled: bool, buttons: seq<int>, nextDisabled: bool)

  /** The pagination bar under the report table. It is shown only when
      there are more rows than one page holds; it numbers at most the first
      ten pages; Next is disabled exactly on the last page. */
  function ReportPager(p: Option<Pagination>, limit: int, currentPage: int): (r: Option<PagerView>)
    requires limit >= 1
    ensures r.Some? <==> p.Some? && p.value.totalCount.Some? && p.value.totalCount.value > limit
    ensures r.Some? ==> r.value.totalCount == p.value.totalCount.value
    ensures r.Some? ==> |r.value.buttons| == Min(PageCount(r.value.totalCount, limit), 10) >= 2
    ensures r.Some? ==> forall i :: 0 <= i < |r.value.buttons| ==> r.value.buttons[i] == i + 1
    ensures r.Some? ==> (r.value.prevDisabled <==> currentPage == 1)
    ensures r.Some? ==> (r.value.nextDisabled <==> currentPage == PageCount(r.value.totalCount, limit))
    ensures r.Some? ==> r.value.first == (currentPage - 1) * limit + 1
    ensures r.Some? ==> r.value.last == Min(currentPage * limit, r.value.totalCount)
  {
    if p.Some? && p.value.totalCount.Some? && p.value.totalCount.value > limit then
      var total := p.value.totalCount.value;
      var pages := PageCount(total, limit);
      assert pages >= 2 by {
        MulCancel(pages, 1, limit);
      }
      Some(PagerView(
        (currentPage - 1) * limit + 1,
        Min(currentPage * limit, total),
        total,
        currentPage == 1,
        seq(Min(pages, 10), i => i + 1),
        currentPage == pages))
    else
      None
  }

  /** On an existing page the range is a non-empty run of rows that exist:
      it starts right after the previous pages and holds at most `limit`
      rows. Past the last page the range is empty (first > last), because
      the first row is not capped. */
  lemma ReportRangeBounds(p: Pagination, limit: int, currentPage: int)
    requires limit >= 1 && p.totalCount.Some? && p.totalCount.value > limit
    ensures var v := ReportPager(Some(p), limit, currentPage).value;
      1 <= currentPage <= PageCount(p.totalCount.value, limit) ==>
        1 <= v.first <= v.last <= v.totalCount && v.last - v.first < limit
    ensures var v := ReportPager(Some(p), limit, currentPage).value;
      currentPage > PageCount(p.totalCount.value, limit) ==> v.first > v.last
  {
    var total := p.totalCount.value;
    var n := PageCount(total, limit);
    var offset := (currentPage - 1) * limit;
    assert currentPage * limit == offset + limit;
    if 1 <= currentPage <= n {
      MulMonotone(0, currentPage - 1, limit);
      MulMonotone(currentPage - 1, n - 1, limit);
    } else if currentPage > n {
      MulMonotone(n, currentPage - 1, limit);
    }
  }

  lemma MulCancel(x: int, y: int, k: int)
    requires k > 0 && x * k > y * k
    ensures x > y
  {
  }

  lemma MulMonotone(x: int, y: int, k: int)
    requires x <= y && k >= 0
    ensures x * k <= y * k
  {
  }

  /** The value shown by the rows-per-page selector. */
  datatype SelectorValue = ShowAll | ShowRows(rows: int)

  function SelectorFor(limit: int): (v: SelectorValue)
    ensures v == ShowAll <==> limit > 1000
    ensures v.ShowRows? ==> v.rows == limit
  {
    if limit > 1000 then ShowAll else ShowRows(limit)
  }

  /** The limit used for 'all': `pagination?.totalCount || 10000`. */
  function AllRowsLimit(p: Option<Pagination>): (n: int)
    ensures n >= 1
    ensures p.Some? && HasCount(p.value.totalCount) ==> n == p.value.totalCount.value
    ensures !(p.Some? && HasCount(p.value.totalCount)) ==> n == 10000
  {
    if p.Some? && HasCount(p.value.totalCount) then p.value.totalCount.value else 10000
  }

  /** Choosing 'all' shows 'all' in the selector only when the limit it
      resolves to exceeds 1000: without a count it always does, while a
      count of at most 1000 becomes a plain number. */
  lemma AllRowsSelector(p: Option<Pagination>)
    ensures !(p.Some? && HasCount(p.value.totalCount)) ==> SelectorFor(AllRowsLimit(p)) == ShowAll
    ensures p.Some? && HasCount(p.value.totalCount) && p.value.totalCount.value <= 1000
            ==> SelectorFor(AllRowsLimit(p)) == ShowRows(p.value.totalCount.value)
  {
  }

  // ----------------------------------------------------------------- state

  /** The body posted for one report fetch: the filters plus page and limit. */
  datatype ReportRequest = ReportRequest(filters: FilterObject, page: int, limit: int)

  /** A rows-per-page choice: 'all' or a number. */
  datatype LimitChoice = AllRows | Rows(n: int)

  /** The report's state fields. The exporting flag and the modal's
      visibility are not modelled. */
  class ReportView {
    var subscriptions: seq<Subscription>
    var loading: bool
    var error: Option<string>
    var filters: FilterObject
    var currentPage: int
    var limit: int
    var pagination: Option<Pagination>
    var summary: Option<Summary>

    ghost predicate Valid()
      reads this
    {
      limit >= 1
    }

    constructor ()
      ensures Valid()
      ensures subscriptions == [] && !loading && error == None && filters == map[]
      ensures currentPage == 1 && limit == 10 && pagination == None && summary == None
    {
      subscriptions := [];
      loading := false;
      error := None;
      filters := map[];
      currentPage := 1;
      limit := 10;
      pagination := None;
      summary := None;
    }

    /** The pagination bar as the page renders it: the rows table, and the
        bar inside it, is shown only when nothing is loading, there is no
        error and there are rows. */
    function PagerBar(): (r: Option<PagerView>)
      requires Valid()
      reads this
      ensures r.Some? <==>
        !loading && !HasText(error) && subscriptions != [] && ReportPager(pagination, limit, currentPage).Some?
      ensures r.Some? ==> r == ReportPager(pagination, limit, currentPage)
    {
      if !loading && !HasText(error) && subscriptions != [] then ReportPager(pagination, limit, currentPage)
      else None
    }

    /** The Export to Excel button is enabled exactly when nothing is
        loading and there are rows. */
    predicate ExportEnabled(): (enabled: bool)
      reads this
      ensures enabled <==> !loading && |subscriptions| > 0
    {
      !loading && subscriptions != []
    }

    /** The synchronous start of `fetchReport`: loading starts, the error is
        cleared and the request is sent; no pagination bar is shown. */
    method BeginFetch(currentFilters: FilterObject, page: int, pageLimit: int) returns (req: ReportRequest)
      requires Valid()
      modifies this`error, this`loading
      ensures Valid()
      ensures loading && error == None
      ensures req == ReportRequest(currentFilters, page, pageLimit)
      ensures PagerBar().None? && !ExportEnabled()
    {
      loading := true;
      error := None;
      req := ReportRequest(currentFilters, page, pageLimit);
    }

    /** The end of `fetchReport`, given what the request produced. Loading
        ends. A loaded response replaces rows and pagination and replaces
        the summary only when it carries one; a failure sets the error,
        keeps the rest and hides the pagination bar. */
    method ReceiveFetch(f: Fetch)
      requires Valid()
      modifies this`subscriptions, this`pagination, this`summary, this`error, this`loading
      ensures Valid() && !loading
      ensures Normalise(f).Loaded? ==>
        subscriptions == Normalise(f).data && pagination == Normalise(f).pagination
        && summary == (if Normalise(f).summary.Some? then Normalise(f).summary else old(summary))
        && error == old(error)
      ensures Normalise(f).Failed? ==>
        error == Some(Normalise(f).message) && subscriptions == old(subscriptions)
        && pagination == old(pagination) && summary == old(summary)
      ensures Normalise(f).Failed? ==> PagerBar().None?
    {
      loading := false;
      var outcome := Normalise(f);
      match outcome
      case Loaded(data, p, s) =>
        subscriptions := data;
        pagination := p;
        if s.Some? {
          summary := s;
        }
      case Failed(message) =>
        error := Some(message);
    }

    /** A new filter object: back to page 1, fetched with the current limit. */
    method HandleFilterChange(newFilters: FilterObject) returns (req: ReportRequest)
      requires Valid()
      modifies this`filters, this`currentPage, this`error, this`loading
      ensures Valid()
      ensures filters == newFilters && currentPage == 1 && loading && error == None
      ensures req == ReportRequest(newFilters, 1, limit)
    {
      filters := newFilters;
      currentPage := 1;
      req := BeginFetch(newFilters, 1, limit);
    }

    /** Clearing empties the filters, rows and summary and returns to page
        1; limit and pagination stay and nothing is fetched. With no rows
        the pagination bar disappears although the pagination is kept. */
    method HandleClearFilters()
      requires Valid()
      modifies this`filters, this`currentPage, this`subscriptions, this`summary
      ensures Valid()
      ensures filters == map[] && currentPage == 1 && subscriptions == [] && summary == None
      ensures PagerBar().None? && !ExportEnabled()
    {
      filters := map[];
      currentPage := 1;
      subscriptions := [];
      summary := None;
    }

    /** Going to a page fetches it with the current filters and limit. */
    method HandlePageChange(page: int) returns (req: ReportRequest)
      requires Valid()
      modifies this`currentPage, this`error, this`loading
      ensures Valid()
      ensures currentPage == page && loading && error == None
      ensures req == ReportRequest(filters, page, limit)
    {
      currentPage := page;
      req := BeginFetch(filters, page, limit);
    }

    /** A new rows-per-page choice: 'all' becomes the total count (10000
        without one); either way back to page 1, fetched with the new limit. */
    method HandleLimitChange(choice: LimitChoice) returns (req: ReportRequest)
      requires Valid()
      requires choice.Rows? ==> choice.n >= 1
      modifies this`limit, this`currentPage, this`error, this`loading
      ensures Valid()
      ensures limit == (if choice.AllRows? then AllRowsLimit(pagination) else choice.n)
      ensures currentPage == 1 && loading && error == None
      ensures req == ReportRequest(filters, 1, limit)
    {
      if choice.AllRows? {
        var allLimit := AllRowsLimit(pagination);
        limit := allLimit;
        currentPage := 1;
        req := BeginFetch(filters, 1, allLimit);
      } else {
        var newLimit := choice.n;
        limit := newLimit;
        currentPage := 1;
        req := BeginFetch(filters, 1, newLimit);
      }
    }

    /** The export body for the chosen columns: the current filters and the
        columns unchanged. */
    method HandleExport(selectedColumns: seq<string>) returns (payload: SubscriptionService.ExportPayload)
      ensures payload.filter == filters && payload.exportArr == selectedColumns
    {
      payload := SubscriptionService.ExportPayloadOf(filters, selectedColumns);
    }
  }
}
