/** The dashboard's table of expiring subscriptions: the days-remaining badge
    and the pagination controls under the table. */
module DashboardTable {
  import opened Common

  datatype Label = NoData | ExpiredAgo(ago: nat) | ExpiresToday | DaysLeft(days: int)

  datatype Badge = Badge(colour: Colour, caption: Label)

  /** The badge shown in the "Days Remaining" column. Every integer falls in
      exactly one bucket: the colour is a function of the range the value is
      in, and the label is determined by the sign. */
  function DaysBadge(d: Days): (b: Badge)
    ensures !d.Known? <==> b == Badge(Secondary, NoData)
    ensures d.Known? ==> (b.colour == Danger <==> d.n <= 7)
    ensures d.Known? ==> (b.colour == Warning <==> 8 <= d.n <= 15)
    ensures d.Known? ==> (b.colour == Info <==> 16 <= d.n <= 30)
    ensures d.Known? ==> (b.colour == Success <==> 30 < d.n)
    ensures d.Known? ==> (b.caption.ExpiredAgo? <==> d.n < 0)
    ensures d.Known? && d.n < 0 ==> b.caption.ago == -d.n
    ensures d.Known? ==> (b.caption == ExpiresToday <==> d.n == 0)
    ensures d.Known? ==> (b.caption == DaysLeft(d.n) <==> 0 < d.n)
  {
    match d
    case Undefined => Badge(Secondary, NoData)
    case Null => Badge(Secondary, NoData)
    case Known(n) =>
      if n < 0 then Badge(Danger, ExpiredAgo(-n))
      else if n == 0 then Badge(Danger, ExpiresToday)
      else if n <= 7 then Badge(Danger, DaysLeft(n))
      else if n <= 15 then Badge(Warning, DaysLeft(n))
      else if n <= 30 then Badge(Info, DaysLeft(n))
      else Badge(Success, DaysLeft(n))
  }

  /** The page number of the button at position `index` of the window. */
  function PageNumber(index: int, page: int, pages: int): int {
    if pages <= 5 then index + 1
    else if page <= 3 then index + 1
    else if page >= pages - 2 then pages - 4 + index
    else page - 2 + index
  }

  /** The number of the first button of the window. */
  function WindowStart(page: int, pages: int): (s: int)
    requires pages > 1
    ensures 1 <= s && s + Min(pages, 5) - 1 <= pages
    ensures 1 <= page <= pages ==> s <= page < s + Min(pages, 5)
  {
    if pages <= 5 then 1
    else if page <= 3 then 1
    else if page >= pages - 2 then pages - 4
    else page - 2
  }

  /** The numbered page buttons: `min(pages, 5)` consecutive pages, all of
      them existing pages, and the current one among them. */
  function PageWindow(page: int, pages: int): (w: seq<int>)
    requires pages > 1
    ensures |w| == Min(pages, 5)
    ensures forall i :: 0 <= i < |w| ==> w[i] == WindowStart(page, pages) + i
    ensures forall i :: 0 <= i < |w| ==> 1 <= w[i] <= pages
    ensures forall i :: 0 < i < |w| ==> w[i] == w[i - 1] + 1
    ensures 1 <= page <= pages ==> page in w
  {
    var w := seq(Min(pages, 5), i => PageNumber(i, page, pages));
    assert 1 <= page <= pages ==> w[page - WindowStart(page, pages)] == page;
    w
  }

  /** The three shapes of the window. */
  lemma PageWindowBranches(page: int, pages: int)
    requires pages > 1
    ensures pages <= 5 ==> PageWindow(page, pages) == Pages(1, pages)
    ensures pages > 5 && page <= 3 ==> PageWindow(page, pages) == Pages(1, 5)
    ensures pages > 5 && 3 < page && page >= pages - 2 ==> PageWindow(page, pages) == Pages(pages - 4, pages)
    ensures pages > 5 && 3 < page < pages - 2 ==> PageWindow(page, pages) == Pages(page - 2, page + 2)
  {
    var w := PageWindow(page, pages);
    if pages <= 5 {
      PagesIndex(1, pages);
    } else if page <= 3 {
      PagesIndex(1, 5);
    } else if page >= pages - 2 {
      PagesIndex(pages - 4, pages);
    } else {
      PagesIndex(page - 2, page + 2);
    }
  }

  /** The pages `lo..hi`, ascending. */
  function Pages(lo: int, hi: int): seq<int>
    decreases hi - lo
  {
    if hi < lo then [] else [lo] + Pages(lo + 1, hi)
  }

  lemma {:induction false} PagesIndex(lo: int, hi: int)
    ensures |Pages(lo, hi)| == if hi < lo then 0 else hi - lo + 1
    ensures forall i :: 0 <= i < |Pages(lo, hi)| ==> Pages(lo, hi)[i] == lo + i
    decreases hi - lo
  {
    if lo <= hi {
      PagesIndex(lo + 1, hi);
    }
  }

  /** The "Showing X to Y of Z entries" text. */
  datatype Range = Range(first: int, last: int, total: nat)

  function ShowingRange(page: int, limit: int, total: nat): (r: Range)
    requires page >= 1 && limit >= 1
    ensures r.total == total
    ensures 0 <= r.first <= r.last <= total
    ensures r.first == 0 <==> total == 0
    ensures (page - 1) * limit < total ==>
      r.first == (page - 1) * limit + 1 && r.last - r.first + 1 == Min(limit, total - (page - 1) * limit)
    ensures (page - 1) * limit >= total ==> r.first == r.last == total
  {
    var offset := (page - 1) * limit;
    assert page * limit == offset + limit;
    assert offset >= 0;
    Range(Min(offset + 1, total), Min(page * limit, total), total)
  }

  /** A number as JavaScript computes it from fields that may be missing:
      any arithmetic on `undefined` gives NaN. */
  datatype Num = NaN | Int(n: int)

  /** "Showing X to Y of Z entries" from the pagination object, whose
      fields may be missing. */
  datatype Shown = Shown(first: Num, last: Num, total: Option<nat>)

  /** The two `Math.min` expressions: NaN as soon as the page, the limit or
      the total is missing, and the range of `ShowingRange` otherwise. */
  function Showing(p: Pagination): (r: Shown)
    ensures r.total == p.total
    ensures p.page.None? || p.limit.None? || p.total.None? ==> r.first == NaN && r.last == NaN
    ensures p.page.Some? && p.limit.Some? && p.total.Some? && p.page.value >= 1 && p.limit.value >= 1 ==>
      r.first == Int(ShowingRange(p.page.value, p.limit.value, p.total.value).first)
      && r.last == Int(ShowingRange(p.page.value, p.limit.value, p.total.value).last)
  {
    if p.page.Some? && p.limit.Some? && p.total.Some? then
      var page, limit, total := p.page.value, p.limit.value, p.total.value;
      Shown(Int(Min((page - 1) * limit + 1, total)), Int(Min(page * limit, total)), p.total)
    else
      Shown(NaN, NaN, p.total)
  }

  /** The numbered buttons when the current page may be missing. A missing
      page fails every comparison, so with more than five pages every
      button number is NaN. */
  function WindowOf(page: Option<int>, pages: int): (w: seq<Num>)
    requires pages > 1
    ensures |w| == Min(pages, 5)
    ensures page.Some? ==> forall i :: 0 <= i < |w| ==> w[i] == Int(PageWindow(page.value, pages)[i])
    ensures page.None? && pages <= 5 ==> forall i :: 0 <= i < |w| ==> w[i] == Int(i + 1)
    ensures page.None? && pages > 5 ==> forall i :: 0 <= i < |w| ==> w[i] == NaN
  {
    if page.Some? then
      var pw := PageWindow(page.value, pages);
      seq(|pw|, i requires 0 <= i < |pw| => Int(pw[i]))
    else if pages <= 5 then
      seq(pages, i => Int(i + 1))
    else
      seq(5, _ => NaN)
  }

  datatype Pager = Pager(range: Shown, prevDisabled: bool, window: seq<Num>, nextDisabled: bool)

  /** The controls under the table. The table returns early while loading,
      on an error and with no rows; after that the controls exist exactly
      when the pagination has a `pages` field above 1 (a missing one fails
      the test). Previous is disabled exactly on page 1 and Next exactly on
      the last page; a missing page disables neither. */
  function TablePager(loading: bool, error: Option<string>, rows: seq<Subscription>, p: Option<Pagination>): (r: Option<Pager>)
    ensures r.Some? <==>
      !loading && !HasText(error) && rows != [] && p.Some? && p.value.pages.Some? && p.value.pages.value > 1
    ensures r.Some? ==> (r.value.prevDisabled <==> p.value.page == Some(1))
    ensures r.Some? ==> (r.value.nextDisabled <==> p.value.page == Some(p.value.pages.value as int))
    ensures r.Some? ==> r.value.range == Showing(p.value)
    ensures r.Some? ==> r.value.window == WindowOf(p.value.page, p.value.pages.value)
  {
    if !loading && !HasText(error) && rows != [] && p.Some? && p.value.pages.Some? && p.value.pages.value > 1 then
      var info := p.value;
      var pages := info.pages.value;
      Some(Pager(
        Showing(info),
        info.page == Some(1),
        WindowOf(info.page, pages),
        info.page == Some(pages as int)))
    else
      None
  }

  /** The pages the controls can ask for: a window button, or
      Previous/Next when enabled. */
  ghost predicate Requestable(pager: Pager, page: int, target: int) {
    Int(target) in pager.window
    || (!pager.prevDisabled && target == page - 1)
    || (!pager.nextDisabled && target == page + 1)
  }

  /** When the current page exists, every page the controls can request
      exists too. */
  lemma RequestablePagesExist(rows: seq<Subscription>, p: Pagination, target: int)
    requires rows != [] && p.page.Some? && p.pages.Some? && 1 <= p.page.value <= p.pages.value && p.pages.value > 1
    requires Requestable(TablePager(false, None, rows, Some(p)).value, p.page.value, target)
    ensures 1 <= target <= p.pages.value
  {
    var w := TablePager(false, None, rows, Some(p)).value.window;
    if Int(target) in w {
      var i :| 0 <= i < |w| && w[i] == Int(target);
      assert PageWindow(p.page.value, p.pages.value)[i] == target;
    }
  }
}
