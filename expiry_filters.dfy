/** The filter panel of the expiry report: the cascading Country, State and
    City selection, the lookups that feed the option lists, and the filter
    object and active-filter chips built on submit. */
module ExpiryFilters {
  import opened Common

  /** One selected option of a multi-select: its id and its display text. */
  datatype Choice = Choice(value: string, text: string)

  /** `values.map(ele => ele.value)` */
  function Values(cs: seq<Choice>): (vs: seq<string>)
    ensures |vs| == |cs|
    ensures forall i :: 0 <= i < |cs| ==> vs[i] == cs[i].value
  {
    seq(|cs|, i requires 0 <= i < |cs| => cs[i].value)
  }

  /** The options of the "Expiry Status" select, with their colours. */
  datatype StatusOption = StatusOption(value: string, text: string, colour: Colour)

  const STATUS_OPTIONS := [
    StatusOption(EXPIRING_7, "7 Days (0-7 days)", Danger),
    StatusOption(EXPIRING_15, "15 Days (8-15 days)", Warning),
    StatusOption(EXPIRING_30, "30 Days (16-30 days)", Info),
    StatusOption(EXPIRED, "Expired", Dark)]

  // --------------------------------------------------------------- lookups

  /** A record returned by a plan or location lookup. */
  datatype LookupItem = LookupItem(id: string, name: string, planId: Option<string>)

  datatype LookupResponse = LookupResponse(code: int, data: seq<LookupItem>)

  /** The backend-side constraint of a lookup. */
  datatype LookupFilter = ActivePlans(status: int) | Unconstrained | InCountries(countries: seq<string>) | InStates(states: seq<string>)

  /** The body posted to a lookup endpoint. */
  datatype LookupQuery = LookupQuery(skip: int, limit: int, filter: LookupFilter, search: Option<string>)

  const FREE_PLAN := "PLAN0"

  /** The search text is sent only when non-empty. */
  function SearchOf(input: string): (s: Option<string>)
    ensures s.None? <==> input == ""
    ensures s.Some? ==> s.value == input
  {
    if input != "" then Some(input) else None
  }

  /** States are looked up only within selected countries: with none
      selected there is no query at all. */
  function StatesQuery(countryIds: seq<string>, input: string): (q: Option<LookupQuery>)
    ensures q.None? <==> countryIds == []
    ensures q.Some? ==> q.value.filter == InCountries(countryIds) && q.value.search == SearchOf(input)
  {
    if |countryIds| == 0 then None else Some(LookupQuery(0, 100, InCountries(countryIds), SearchOf(input)))
  }

  /** Cities are looked up only within selected states. */
  function CitiesQuery(stateIds: seq<string>, input: string): (q: Option<LookupQuery>)
    ensures q.None? <==> stateIds == []
    ensures q.Some? ==> q.value.filter == InStates(stateIds) && q.value.search == SearchOf(input)
  {
    if |stateIds| == 0 then None else Some(LookupQuery(0, 100, InStates(stateIds), SearchOf(input)))
  }

  /** `data.map(ele => ({value: ele._id, label: ele.name}))` */
  function ToChoices(items: seq<LookupItem>): (cs: seq<Choice>)
    ensures |cs| == |items|
    ensures forall i :: 0 <= i < |items| ==> cs[i] == Choice(items[i].id, items[i].name)
  {
    seq(|items|, i requires 0 <= i < |items| => Choice(items[i].id, items[i].name))
  }

  predicate Accepted(resp: Option<LookupResponse>) {
    resp.Some? && resp.value.code == 200
  }

  /** The plan options: every plan except the free one, in order. */
  function PlanChoices(items: seq<LookupItem>): (cs: seq<Choice>)
    ensures |cs| <= |items|
    ensures forall c :: c in cs <==> exists it :: it in items && it.planId != Some(FREE_PLAN) && c == Choice(it.id, it.name)
  {
    if items == [] then []
    else
      var rest := PlanChoices(items[1..]);
      assert forall it :: it in items[1..] ==> it in items;
      assert forall it :: it in items ==> it == items[0] || it in items[1..];
      if items[0].planId != Some(FREE_PLAN) then [Choice(items[0].id, items[0].name)] + rest else rest
  }

  /** The plan filter keeps the order: it distributes over concatenation. */
  lemma {:induction false} PlanChoicesAppend(a: seq<LookupItem>, b: seq<LookupItem>)
    ensures PlanChoices(a + b) == PlanChoices(a) + PlanChoices(b)
  {
    if a == [] {
      assert a + b == b;
    } else {
      assert (a + b)[1..] == a[1..] + b;
      PlanChoicesAppend(a[1..], b);
    }
  }

  /** One lookup: the query sent, if any, and the options returned. */
  datatype Lookup = Lookup(query: Option<LookupQuery>, options: seq<Choice>)

  /** `loadPlans`: always a query for active plans (status 10), and the
      non-free plans of an accepted response. */
  function LoadPlans(input: string, resp: Option<LookupResponse>): (l: Lookup)
    ensures l.query.Some? && l.query.value.filter == ActivePlans(10) && l.query.value.search == SearchOf(input)
    ensures !Accepted(resp) ==> l.options == []
    ensures Accepted(resp) ==> l.options == PlanChoices(resp.value.data)
  {
    Lookup(Some(LookupQuery(0, 100, ActivePlans(10), SearchOf(input))),
      if Accepted(resp) then PlanChoices(resp.value.data) else [])
  }

  /** `loadCountry`: always an unconstrained query, and every record of an
      accepted response as an option, in order. */
  function LoadCountries(input: string, resp: Option<LookupResponse>): (l: Lookup)
    ensures l.query.Some? && l.query.value.filter == Unconstrained && l.query.value.search == SearchOf(input)
    ensures !Accepted(resp) ==> l.options == []
    ensures Accepted(resp) ==> |l.options| == |resp.value.data|
    ensures Accepted(resp) ==>
      forall i :: 0 <= i < |l.options| ==> l.options[i] == Choice(resp.value.data[i].id, resp.value.data[i].name)
  {
    Lookup(Some(LookupQuery(0, 100, Unconstrained, SearchOf(input))),
      if Accepted(resp) then ToChoices(resp.value.data) else [])
  }

  /** `loadStates`: no query and no options without a selected country. */
  function LoadStates(countryIds: seq<string>, input: string, resp: Option<LookupResponse>): (l: Lookup)
    ensures countryIds == [] ==> l == Lookup(None, [])
    ensures countryIds != [] ==> l.query == StatesQuery(countryIds, input)
    ensures countryIds != [] ==> l.options == (if Accepted(resp) then ToChoices(resp.value.data) else [])
  {
    var q := StatesQuery(countryIds, input);
    if q.None? then Lookup(None, [])
    else Lookup(q, if Accepted(resp) then ToChoices(resp.value.data) else [])
  }

  /** `loadCity`: no query and no options without a selected state. */
  function LoadCities(stateIds: seq<string>, input: string, resp: Option<LookupResponse>): (l: Lookup)
    ensures stateIds == [] ==> l == Lookup(None, [])
    ensures stateIds != [] ==> l.query == CitiesQuery(stateIds, input)
    ensures stateIds != [] ==> l.options == (if Accepted(resp) then ToChoices(resp.value.data) else [])
  {
    var q := CitiesQuery(stateIds, input);
    if q.None? then Lookup(None, [])
    else Lookup(q, if Accepted(resp) then ToChoices(resp.value.data) else [])
  }

  // ------------------------------------------------------- submitted filter

  /** Everything the panel holds when it is submitted. */
  datatype Draft = Draft(
    fromDate: string, toDate: string,
    status: seq<Choice>, plans: seq<Choice>,
    country: seq<Choice>, state: seq<Choice>, city: seq<Choice>,
    search: string)

  const FILTER_KEYS := [From, To, ExpiryStatus, Plans, Country, State, City, Search]

  lemma AllKeysListed()
    ensures forall k: FilterKey :: k in FILTER_KEYS
  {
    forall k: FilterKey
      ensures k in FILTER_KEYS
    {
      match k
      case From => assert FILTER_KEYS[0] == k;
      case To => assert FILTER_KEYS[1] == k;
      case ExpiryStatus => assert FILTER_KEYS[2] == k;
      case Plans => assert FILTER_KEYS[3] == k;
      case Country => assert FILTER_KEYS[4] == k;
      case State => assert FILTER_KEYS[5] == k;
      case City => assert FILTER_KEYS[6] == k;
      case Search => assert FILTER_KEYS[7] == k;
    }
  }

  /** `s || undefined` */
  function TextOrMissing(s: string): FilterValue {
    if s != "" then Text(s) else Missing
  }

  /** The filter object before the clean-up: all eight keys. */
  function RawFilters(d: Draft): (m: FilterObject)
  {
    map[
      From := TextOrMissing(d.fromDate),
      To := TextOrMissing(d.toDate),
      ExpiryStatus := Ids(Values(d.status)),
      Plans := Ids(Values(d.plans)),
      Country := Ids(Values(d.country)),
      State := Ids(Values(d.state)),
      City := Ids(Values(d.city)),
      Search := TextOrMissing(d.search)]
  }

  lemma RawFiltersKeys(d: Draft)
    ensures forall k :: k in RawFilters(d)
  {
    forall k: FilterKey
      ensures k in RawFilters(d)
    {
      match k
      case From =>
      case To =>
      case ExpiryStatus =>
      case Plans =>
      case Country =>
      case State =>
      case City =>
      case Search =>
    }
  }

  /** The values the clean-up deletes: undefined ones and empty arrays. */
  predicate Dropped(v: FilterValue) {
    v.Missing? || (v.Ids? && v.ids == [])
  }

  function Pruned(m: FilterObject): FilterObject {
    map k | k in m && !Dropped(m[k]) :: m[k]
  }

  /** The filter object handed to the report. */
  function SubmittedFilters(d: Draft): FilterObject {
    Pruned(RawFilters(d))
  }

  /** The submitted object holds no undefined value and no empty array, only
      the eight known keys, and each key exactly when its input is set. */
  lemma SubmittedFiltersShape(d: Draft)
    ensures var f := SubmittedFilters(d); forall k :: k in f ==> !Dropped(f[k])
    ensures var f := SubmittedFilters(d);
      (From in f <==> d.fromDate != "") && (From in f ==> f[From] == Text(d.fromDate))
    ensures var f := SubmittedFilters(d);
      (To in f <==> d.toDate != "") && (To in f ==> f[To] == Text(d.toDate))
    ensures var f := SubmittedFilters(d);
      (Search in f <==> d.search != "") && (Search in f ==> f[Search] == Text(d.search))
    ensures var f := SubmittedFilters(d);
      (ExpiryStatus in f <==> d.status != []) && (ExpiryStatus in f ==> f[ExpiryStatus] == Ids(Values(d.status)))
    ensures var f := SubmittedFilters(d);
      (Plans in f <==> d.plans != []) && (Plans in f ==> f[Plans] == Ids(Values(d.plans)))
    ensures var f := SubmittedFilters(d);
      (Country in f <==> d.country != []) && (Country in f ==> f[Country] == Ids(Values(d.country)))
    ensures var f := SubmittedFilters(d);
      (State in f <==> d.state != []) && (State in f ==> f[State] == Ids(Values(d.state)))
    ensures var f := SubmittedFilters(d);
      (City in f <==> d.city != []) && (City in f ==> f[City] == Ids(Values(d.city)))
  {
  }

  // ----------------------------------------------------------------- chips

  datatype ChipValue = Given(s: string) | CountSelected(count: nat)

  /** The labels a chip can carry; the panel has no State or City chip. */
  datatype ChipName = FromDateChip | ToDateChip | StatusChip | PlansChip | CountryChip | SearchChip

  /** The displayed label of a chip; see `ChipLabelsDistinct`. */
  function ChipLabel(n: ChipName): string {
    match n
    case FromDateChip => "From Date"
    case ToDateChip => "To Date"
    case StatusChip => "Status"
    case PlansChip => "Plans"
    case CountryChip => "Country"
    case SearchChip => "Search"
  }

  /** No two kinds of chip share a label, so a label names its input. */
  lemma ChipLabelsDistinct(n: ChipName, m: ChipName)
    ensures ChipLabel(n) == ChipLabel(m) <==> n == m
  {
    if n != m {
      assert ChipLabel(n)[0] != ChipLabel(m)[0] || |ChipLabel(n)| != |ChipLabel(m)| || ChipLabel(n)[1] != ChipLabel(m)[1];
    }
  }

  /** One "Active Filters" chip: its kind, shown as `ChipLabel(name)`, and
      its value. */
  datatype Chip = Chip(name: ChipName, value: ChipValue)

  /** The position of a chip in the display order. */
  function ChipRank(n: ChipName): nat {
    match n
    case FromDateChip => 0
    case ToDateChip => 1
    case StatusChip => 2
    case PlansChip => 3
    case CountryChip => 4
    case SearchChip => 5
  }

  /** A chip shown when its input is set. */
  function ChipIf(shown: bool, c: Chip): seq<Chip> {
    if shown then [c] else []
  }

  /** The chips of `onSubmit`, pushed one input at a time. */
  function ActiveChips(d: Draft): seq<Chip> {
    ChipIf(d.fromDate != "", Chip(FromDateChip, Given(d.fromDate)))
    + ChipIf(d.toDate != "", Chip(ToDateChip, Given(d.toDate)))
    + ChipIf(d.status != [], Chip(StatusChip, CountSelected(|d.status|)))
    + ChipIf(d.plans != [], Chip(PlansChip, CountSelected(|d.plans|)))
    + ChipIf(d.country != [], Chip(CountryChip, CountSelected(|d.country|)))
    + ChipIf(d.search != "", Chip(SearchChip, Given(d.search)))
  }

  /** Each chip ranks strictly below the next one. */
  ghost predicate Increasing(s: seq<Chip>) {
    forall i :: 0 < i < |s| ==> ChipRank(s[i - 1].name) < ChipRank(s[i].name)
  }

  /** Every chip ranks below `hi`. */
  ghost predicate RanksBelow(s: seq<Chip>, hi: int) {
    forall i :: 0 <= i < |s| ==> ChipRank(s[i].name) < hi
  }

  /** Pushing a chip that ranks above everything already pushed keeps the
      ranks increasing. */
  lemma PushRanked(s: seq<Chip>, shown: bool, c: Chip)
    requires Increasing(s) && RanksBelow(s, ChipRank(c.name))
    ensures Increasing(s + ChipIf(shown, c))
    ensures RanksBelow(s + ChipIf(shown, c), ChipRank(c.name) + 1)
  {
    var t := s + ChipIf(shown, c);
    forall i | 0 < i < |t|
      ensures ChipRank(t[i - 1].name) < ChipRank(t[i].name)
    {
      assert t[i - 1] == s[i - 1];
      if i < |s| { assert t[i] == s[i]; }
    }
    forall i | 0 <= i < |t|
      ensures ChipRank(t[i].name) < ChipRank(c.name) + 1
    {
      if i < |s| { assert t[i] == s[i]; }
    }
  }

  /** Increasing neighbours give increasing pairs. */
  lemma {:induction false} IncreasingPairwise(s: seq<Chip>)
    requires Increasing(s)
    ensures forall i, j :: 0 <= i < j < |s| ==> ChipRank(s[i].name) < ChipRank(s[j].name)
    decreases |s|
  {
    if |s| > 1 {
      var t := s[..|s| - 1];
      assert Increasing(t) by {
        forall i | 0 < i < |t| ensures ChipRank(t[i - 1].name) < ChipRank(t[i].name) {
          assert t[i - 1] == s[i - 1] && t[i] == s[i];
        }
      }
      IncreasingPairwise(t);
      forall i, j | 0 <= i < j < |s|
        ensures ChipRank(s[i].name) < ChipRank(s[j].name)
      {
        if j < |s| - 1 {
          assert s[i] == t[i] && s[j] == t[j];
        } else if i < j - 1 {
          assert s[i] == t[i] && s[j - 1] == t[j - 1];
        }
      }
    }
  }

  /** The first `n` chips of `cs` whose flag is set, pushed in order. */
  function Pushed(shown: seq<bool>, cs: seq<Chip>, n: nat): seq<Chip>
    requires n <= |shown| == |cs|
  {
    if n == 0 then [] else Pushed(shown, cs, n - 1) + ChipIf(shown[n - 1], cs[n - 1])
  }

  /** Chips pushed in rank order have increasing ranks, all below `n`. */
  lemma {:induction false} PushedIncreasing(shown: seq<bool>, cs: seq<Chip>, n: nat)
    requires n <= |shown| == |cs|
    requires forall i :: 0 <= i < |cs| ==> ChipRank(cs[i].name) == i
    ensures Increasing(Pushed(shown, cs, n))
    ensures RanksBelow(Pushed(shown, cs, n), n)
  {
    if n > 0 {
      PushedIncreasing(shown, cs, n - 1);
      PushRanked(Pushed(shown, cs, n - 1), shown[n - 1], cs[n - 1]);
    }
  }

  /** Every chip the panel can show, in the order `onSubmit` pushes them. */
  function AllChips(d: Draft): (cs: seq<Chip>)
    ensures |cs| == 6
    ensures forall i :: 0 <= i < 6 ==> ChipRank(cs[i].name) == i
  {
    [Chip(FromDateChip, Given(d.fromDate)),
     Chip(ToDateChip, Given(d.toDate)),
     Chip(StatusChip, CountSelected(|d.status|)),
     Chip(PlansChip, CountSelected(|d.plans|)),
     Chip(CountryChip, CountSelected(|d.country|)),
     Chip(SearchChip, Given(d.search))]
  }

  /** Which of those chips are shown. */
  function ShownFlags(d: Draft): (f: seq<bool>)
    ensures |f| == 6
  {
    [d.fromDate != "", d.toDate != "", d.status != [], d.plans != [], d.country != [], d.search != ""]
  }

  /** The pushed chips are the shown ones among all chips. */
  lemma ActiveChipsPushed(d: Draft)
    ensures ActiveChips(d) == Pushed(ShownFlags(d), AllChips(d), 6)
  {
    var f := ShownFlags(d);
    var cs := AllChips(d);
    assert Pushed(f, cs, 1) == ChipIf(d.fromDate != "", Chip(FromDateChip, Given(d.fromDate)));
    assert Pushed(f, cs, 2) == Pushed(f, cs, 1) + ChipIf(d.toDate != "", Chip(ToDateChip, Given(d.toDate)));
    assert Pushed(f, cs, 3) == Pushed(f, cs, 2) + ChipIf(d.status != [], Chip(StatusChip, CountSelected(|d.status|)));
    assert Pushed(f, cs, 4) == Pushed(f, cs, 3) + ChipIf(d.plans != [], Chip(PlansChip, CountSelected(|d.plans|)));
    assert Pushed(f, cs, 5) == Pushed(f, cs, 4) + ChipIf(d.country != [], Chip(CountryChip, CountSelected(|d.country|)));
    assert Pushed(f, cs, 6) == Pushed(f, cs, 5) + ChipIf(d.search != "", Chip(SearchChip, Given(d.search)));
  }

  /** The chips come in the fixed order From Date, To Date, Status, Plans,
      Country, Search, at most one of each. */
  lemma ActiveChipsOrdered(d: Draft)
    ensures var a := ActiveChips(d);
      forall i, j :: 0 <= i < j < |a| ==> ChipRank(a[i].name) < ChipRank(a[j].name)
  {
    ActiveChipsPushed(d);
    PushedIncreasing(ShownFlags(d), AllChips(d), 6);
    IncreasingPairwise(ActiveChips(d));
  }

  /** Each chip appears exactly when its input is set. */
  lemma ActiveChipsPresent(d: Draft)
    ensures Chip(FromDateChip, Given(d.fromDate)) in ActiveChips(d) <==> d.fromDate != ""
    ensures Chip(ToDateChip, Given(d.toDate)) in ActiveChips(d) <==> d.toDate != ""
    ensures Chip(StatusChip, CountSelected(|d.status|)) in ActiveChips(d) <==> d.status != []
    ensures Chip(PlansChip, CountSelected(|d.plans|)) in ActiveChips(d) <==> d.plans != []
    ensures Chip(CountryChip, CountSelected(|d.country|)) in ActiveChips(d) <==> d.country != []
    ensures Chip(SearchChip, Given(d.search)) in ActiveChips(d) <==> d.search != ""
  {
  }

  // ----------------------------------------------------------------- panel

  /** The panel's state fields; `search` is the form field that the form
      library resets. */
  class FilterPanel {
    var fromDate: string
    var toDate: string
    var selectedPlans: seq<Choice>
    var selectedStatus: seq<Choice>
    var selectedCountry: seq<Choice>
    var selectedState: seq<Choice>
    var selectedCity: seq<Choice>
    var countryIds: seq<string>
    var stateIds: seq<string>
    var activeFilters: seq<Chip>
    var search: string

    /** The id lists mirror the selections, and a level is selected only
        below a selected parent. */
    ghost predicate Valid()
      reads this
    {
      && countryIds == Values(selectedCountry)
      && stateIds == Values(selectedState)
      && (selectedState != [] ==> countryIds != [])
      && (selectedCity != [] ==> stateIds != [])
    }

    function Current(): Draft
      reads this
    {
      Draft(fromDate, toDate, selectedStatus, selectedPlans, selectedCountry, selectedState, selectedCity, search)
    }

    constructor ()
      ensures Valid()
      ensures Current() == Draft("", "", [], [], [], [], [], "")
      ensures countryIds == [] && stateIds == [] && activeFilters == []
    {
      fromDate, toDate := "", "";
      selectedPlans, selectedStatus := [], [];
      selectedCountry, selectedState, selectedCity := [], [], [];
      countryIds, stateIds := [], [];
      activeFilters := [];
      search := "";
    }

    /** A new country selection clears State and City; an empty one also
        clears the country selection. */
    method HandleCountryChange(values: seq<Choice>)
      requires Valid()
      modifies this`selectedCountry, this`countryIds, this`selectedState, this`stateIds, this`selectedCity
      ensures Valid()
      ensures selectedCountry == values && countryIds == Values(values)
      ensures selectedState == [] && stateIds == [] && selectedCity == []
    {
      if |values| > 0 {
        var countryArrIds := Values(values);
        countryIds := countryArrIds;
        selectedCountry := values;
        selectedState := [];
        selectedCity := [];
        stateIds := [];
      } else {
        selectedCountry := [];
        countryIds := [];
        selectedState := [];
        selectedCity := [];
        stateIds := [];
      }
    }

    /** A new state selection clears City. The State input is disabled
        while no country is selected. */
    method HandleStateChange(values: seq<Choice>)
      requires Valid() && countryIds != []
      modifies this`selectedState, this`stateIds, this`selectedCity
      ensures Valid()
      ensures selectedState == values && stateIds == Values(values) && selectedCity == []
    {
      if |values| > 0 {
        var stateArrIds := Values(values);
        stateIds := stateArrIds;
        selectedState := values;
        selectedCity := [];
      } else {
        stateIds := [];
        selectedState := [];
        selectedCity := [];
      }
    }

    /** A city selection changes nothing else. The City input is disabled
        while no state is selected. */
    method HandleCityChange(values: seq<Choice>)
      requires Valid() && stateIds != []
      modifies this`selectedCity
      ensures Valid()
      ensures selectedCity == values
    {
      if |values| > 0 {
        selectedCity := values;
      } else {
        selectedCity := [];
      }
    }

    method SetFromDate(date: string)
      requires Valid()
      modifies this`fromDate
      ensures Valid() && fromDate == date
    {
      fromDate := date;
    }

    /** The To Date input is disabled until a From Date is set. */
    method SetToDate(date: string)
      requires Valid() && fromDate != ""
      modifies this`toDate
      ensures Valid() && toDate == date
    {
      toDate := date;
    }

    method SetStatus(values: seq<Choice>)
      requires Valid()
      modifies this`selectedStatus
      ensures Valid() && selectedStatus == values
    {
      selectedStatus := values;
    }

    method SetPlans(values: seq<Choice>)
      requires Valid()
      modifies this`selectedPlans
      ensures Valid() && selectedPlans == values
    {
      selectedPlans := values;
    }

    method SetSearch(text: string)
      requires Valid()
      modifies this`search
      ensures Valid() && search == text
    {
      search := text;
    }

    /** The filter object of `onSubmit`: all eight keys, then every
        undefined value and empty array deleted key by key. */
    method BuildFilters() returns (filters: FilterObject)
      ensures filters == SubmittedFilters(Current())
    {
      var raw := RawFilters(Current());
      filters := raw;
      var keys := FILTER_KEYS;
      var i := 0;
      while i < |keys|
        invariant 0 <= i <= |keys|
        invariant forall k :: k in filters <==> k in raw && !(k in keys[..i] && Dropped(raw[k]))
        invariant forall k :: k in filters ==> filters[k] == raw[k]
      {
        var key := keys[i];
        if key in filters && Dropped(filters[key]) {
          filters := filters - {key};
        }
        i := i + 1;
      }
      assert keys[..i] == keys;
      AllKeysListed();
      RawFiltersKeys(Current());
    }

    /** Submitting builds the filter object and shows the chips of the
        inputs that are set. */
    method OnSubmit() returns (filters: FilterObject)
      modifies this`activeFilters
      ensures filters == SubmittedFilters(Current())
      ensures activeFilters == ActiveChips(Current())
    {
      filters := BuildFilters();
      var active: seq<Chip> := [];
      if fromDate != "" { active := active + [Chip(FromDateChip, Given(fromDate))]; }
      ghost var expected := ChipIf(fromDate != "", Chip(FromDateChip, Given(fromDate)));
      assert active == expected;
      if toDate != "" { active := active + [Chip(ToDateChip, Given(toDate))]; }
      expected := expected + ChipIf(toDate != "", Chip(ToDateChip, Given(toDate)));
      assert active == expected;
      if |selectedStatus| > 0 { active := active + [Chip(StatusChip, CountSelected(|selectedStatus|))]; }
      expected := expected + ChipIf(selectedStatus != [], Chip(StatusChip, CountSelected(|selectedStatus|)));
      assert active == expected;
      if |selectedPlans| > 0 { active := active + [Chip(PlansChip, CountSelected(|selectedPlans|))]; }
      expected := expected + ChipIf(selectedPlans != [], Chip(PlansChip, CountSelected(|selectedPlans|)));
      assert active == expected;
      if |selectedCountry| > 0 { active := active + [Chip(CountryChip, CountSelected(|selectedCountry|))]; }
      expected := expected + ChipIf(selectedCountry != [], Chip(CountryChip, CountSelected(|selectedCountry|)));
      assert active == expected;
      if search != "" { active := active + [Chip(SearchChip, Given(search))]; }
      expected := expected + ChipIf(search != "", Chip(SearchChip, Given(search)));
      assert active == expected;
      activeFilters := active;
    }

    /** Clearing empties every input, the id lists and the chips. */
    method HandleClearFilters()
      modifies this
      ensures Valid()
      ensures Current() == Draft("", "", [], [], [], [], [], "")
      ensures countryIds == [] && stateIds == [] && activeFilters == []
    {
      fromDate := "";
      toDate := "";
      selectedPlans := [];
      selectedStatus := [];
      selectedCountry := [];
      selectedState := [];
      selectedCity := [];
      countryIds := [];
      stateIds := [];
      activeFilters := [];
      search := "";
    }
  }
}
