/** The subscription service with its HTTP calls removed: the queries it
    builds and the way it shapes the responses it receives. */
module SubscriptionService {
  import opened Common

  /** The body posted to the expiry-report endpoint by the dashboard. */
  datatype StatusQuery = StatusQuery(page: int, limit: int, expiryStatus: seq<string>)

  /** The status codes the dashboard asks for when it shows the next `days`
      days; any period other than 7, 15 or 30 falls back to 30. */
  function StatusesFor(days: int): (s: seq<string>)
    ensures days == 7 ==> s == [EXPIRED, EXPIRING_7]
    ensures days == 15 ==> s == [EXPIRING_15]
    ensures days != 7 && days != 15 ==> s == [EXPIRING_30]
  {
    var statusMap := map[7 := [EXPIRED, EXPIRING_7], 15 := [EXPIRING_15], 30 := [EXPIRING_30]];
    if days in statusMap then statusMap[days] else statusMap[30]
  }

  /** The periods are exclusive: two different periods never ask for a
      common status. */
  lemma StatusesForDisjoint(d1: int, d2: int)
    requires d1 in {7, 15, 30} && d2 in {7, 15, 30} && d1 != d2
    ensures forall s :: s in StatusesFor(d1) ==> s !in StatusesFor(d2)
  {
  }

  /** The three count-only queries of the dashboard statistics. */
  function StatQueries(): (qs: seq<StatusQuery>)
    ensures |qs| == 3
    ensures forall i :: 0 <= i < 3 ==> qs[i].page == 1 && qs[i].limit == 1
    ensures qs[0].expiryStatus == StatusesFor(7)
    ensures qs[1].expiryStatus == StatusesFor(15)
    ensures qs[2].expiryStatus == StatusesFor(30)
    ensures forall i, j, s :: 0 <= i < j < 3 && s in qs[i].expiryStatus ==> s !in qs[j].expiryStatus
  {
    [StatusQuery(1, 1, [EXPIRED, EXPIRING_7]),
     StatusQuery(1, 1, [EXPIRING_15]),
     StatusQuery(1, 1, [EXPIRING_30])]
  }

  /** `r?.pagination?.totalCount || r?.pagination?.total || 0`: the first
      non-zero count present, else zero. */
  function CountOf(r: Option<Response>): (n: nat)
    ensures n != 0 ==> r.Some? && r.value.pagination.Some?
    ensures r.Some? && r.value.pagination.Some? && HasCount(r.value.pagination.value.totalCount)
            ==> n == r.value.pagination.value.totalCount.value
    ensures r.Some? && r.value.pagination.Some? && !HasCount(r.value.pagination.value.totalCount)
            ==> n == r.value.pagination.value.total.GetOr(0)
  {
    if r.Some? && r.value.pagination.Some? then
      var p := r.value.pagination.value;
      if HasCount(p.totalCount) then p.totalCount.value
      else if HasCount(p.total) then p.total.value
      else 0
    else
      0
  }

  datatype ExpiryStats =
    | StatsOk(expiring7Days: nat, expiring15Days: nat, expiring30Days: nat)
    | StatsFailed

  /** The dashboard statistics from the three responses; a request that
      throws fails the whole call. */
  function ExpiryStatsOf(f7: Fetch, f15: Fetch, f30: Fetch): (s: ExpiryStats)
    ensures s.StatsFailed? <==> f7.Threw? || f15.Threw? || f30.Threw?
    ensures s.StatsOk? ==> s.expiring7Days == CountOf(f7.response)
    ensures s.StatsOk? ==> s.expiring15Days == CountOf(f15.response)
    ensures s.StatsOk? ==> s.expiring30Days == CountOf(f30.response)
  {
    if f7.Threw? || f15.Threw? || f30.Threw? then StatsFailed
    else StatsOk(CountOf(f7.response), CountOf(f15.response), CountOf(f30.response))
  }

  /** The query the dashboard widget sends for the next `days` days. */
  function ExpiringSoonQuery(days: int, page: int, limit: int): (q: StatusQuery)
    ensures q.page == page && q.limit == limit && q.expiryStatus == StatusesFor(days)
  {
    StatusQuery(page, limit, StatusesFor(days))
  }

  datatype ServiceResult = ServiceResult(success: bool, data: seq<Subscription>, pagination: Option<Pagination>)

  /** The pagination reported when a successful response carries none: no
      rows and no pages, echoing the page and limit asked for. */
  function DefaultPagination(page: int, limit: int): (p: Pagination)
    ensures p.total == Some(0) && p.pages == Some(0) && p.totalCount == None
    ensures p.page == Some(page) && p.limit == Some(limit)
  {
    Pagination(None, Some(0), Some(page), Some(limit), Some(0))
  }

  /** `response && (response.meta?.code === 200 || response.success)` */
  predicate ServiceAccepts(f: Fetch) {
    f.Returned? && f.response.Some? && (MetaOk(f.response.value) || Truthy(f.response.value.success))
  }

  /** The result of `getExpiringSoon` for the response it received. */
  function ExpiringSoonResult(f: Fetch, page: int, limit: int): (r: ServiceResult)
    ensures r.success <==> ServiceAccepts(f)
    ensures !r.success ==> r == ServiceResult(false, [], None)
    ensures r.success ==> r.data == f.response.value.data.GetOr([])
    ensures r.success && f.response.value.pagination.Some? ==> r.pagination == f.response.value.pagination
    ensures r.success && f.response.value.pagination.None? ==> r.pagination == Some(DefaultPagination(page, limit))
  {
    if ServiceAccepts(f) then
      var resp := f.response.value;
      ServiceResult(
        true,
        resp.data.GetOr([]),
        if resp.pagination.Some? then resp.pagination else Some(DefaultPagination(page, limit)))
    else
      ServiceResult(false, [], None)
  }

  /** A successful result always carries a pagination object. */
  lemma SuccessHasPagination(f: Fetch, page: int, limit: int)
    ensures ExpiringSoonResult(f, page, limit).success <==> ExpiringSoonResult(f, page, limit).pagination.Some?
  {
  }

  /** The body posted to the export endpoint. */
  datatype ExportPayload = ExportPayload(filter: FilterObject, exportArr: seq<string>)

  /** The export body carries the filter and the chosen columns unchanged. */
  function ExportPayloadOf(filter: FilterObject, columns: seq<string>): (p: ExportPayload)
    ensures p.filter == filter && p.exportArr == columns
  {
    ExportPayload(filter, columns)
  }
}
