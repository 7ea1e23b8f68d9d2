/** The experience list of frontend/src/pages/ListingsPage.js: the five
    filters and the pagination state, the request parameters built from
    them, the handlers that change them, what a response does to them, and
    the page navigation. Starting a fetch when the page or the filters
    change is React's effect; here the fetch is a method called with the
    response. */
module ListingsPage {
  import opened Wrappers
  import Catalog

  datatype FilterKey = Location | Type | PriceMin | PriceMax | Guests

  /** The filters in the order the state object lists them. */
  const FilterOrder: seq<FilterKey> := [Location, Type, PriceMin, PriceMax, Guests]

  lemma FilterOrderComplete(k: FilterKey)
    ensures k in FilterOrder
  {
  }

  datatype Filters = Filters(location: string, kind: string, priceMin: string, priceMax: string, guests: string)
  {
    function Get(k: FilterKey): string
    {
      match k
      case Location => location
      case Type => kind
      case PriceMin => priceMin
      case PriceMax => priceMax
      case Guests => guests
    }

    /** `{ ...prev, [name]: value }`. */
    function Set(k: FilterKey, v: string): (f: Filters)
      ensures f.Get(k) == v
      ensures forall k' | k' != k :: f.Get(k') == Get(k')
    {
      match k
      case Location => this.(location := v)
      case Type => this.(kind := v)
      case PriceMin => this.(priceMin := v)
      case PriceMax => this.(priceMax := v)
      case Guests => this.(guests := v)
    }
  }

  const NoFilters := Filters("", "", "", "", "")

  datatype ParamKey = Page | Limit | Filter(key: FilterKey)
  datatype ParamValue = Number(n: int) | Text(s: string)
  datatype Param = Param(key: ParamKey, value: ParamValue)

  /** `Object.entries(filters).filter(([_, value]) => value !== '')` over
      the given keys. */
  function SetFilters(f: Filters, keys: seq<FilterKey>): (r: seq<Param>)
    ensures |r| <= |keys|
    ensures forall p | p in r :: p.key.Filter? && p.key.key in keys
                                && p.value == Text(f.Get(p.key.key)) && f.Get(p.key.key) != ""
    ensures forall k | k in keys && f.Get(k) != "" :: Param(Filter(k), Text(f.Get(k))) in r
  {
    if keys == [] then []
    else
      var rest := SetFilters(f, keys[1..]);
      assert forall k | k in keys[1..] :: k in keys;
      if f.Get(keys[0]) == "" then rest
      else [Param(Filter(keys[0]), Text(f.Get(keys[0])))] + rest
  }

  /** The request parameters: the page, the page size, and the filters
      that are set. */
  function RequestParams(current: int, pageSize: int, f: Filters): (r: seq<Param>)
    ensures |r| >= 2 && r[0] == Param(Page, Number(current)) && r[1] == Param(Limit, Number(pageSize))
  {
    [Param(Page, Number(current)), Param(Limit, Number(pageSize))] + SetFilters(f, FilterOrder)
  }

  /** A filter is sent exactly when it is not empty, and with its value. */
  lemma ParamsCarryExactlySetFilters(current: int, pageSize: int, f: Filters, k: FilterKey, v: string)
    ensures Param(Filter(k), Text(v)) in RequestParams(current, pageSize, f)
        <==> v == f.Get(k) && v != ""
  {
    var r := RequestParams(current, pageSize, f);
    assert r[2..] == SetFilters(f, FilterOrder);
    if Param(Filter(k), Text(v)) in r {
      var i :| 0 <= i < |r| && r[i] == Param(Filter(k), Text(v));
      assert i >= 2;
      assert r[i] in r[2..];
    }
    FilterOrderComplete(k);
  }

  /** With no filters set, only the page and page size are sent. */
  lemma ClearedParams(current: int, pageSize: int)
    ensures RequestParams(current, pageSize, NoFilters) == [Param(Page, Number(current)), Param(Limit, Number(pageSize))]
  {
    assert SetFilters(NoFilters, FilterOrder) == [];
  }

  /** The body of a list response: an object that may carry `experiences`
      and `pagination.total`, or a bare array. */
  datatype ListingsBody =
    | Wrapped(experiences: Option<seq<Catalog.Experience>>, paginationTotal: Option<int>)
    | Bare(items: seq<Catalog.Experience>)

  /** `response.data.experiences || response.data`: a list, or `None` when
      the object itself (not a list) would be stored. */
  function ExperiencesOf(body: ListingsBody): (r: Option<seq<Catalog.Experience>>)
    ensures body.Bare? ==> r == Some(body.items)
    ensures body.Wrapped? ==> r == body.experiences
  {
    match body
    case Bare(items) => Some(items)
    case Wrapped(e, _) => e
  }

  /** `response.data.pagination?.total || response.data.length`; an object
      has no length, so a wrapped body without a total leaves `undefined`. */
  function TotalOf(body: ListingsBody): (r: Option<int>)
    ensures body.Bare? ==> r == Some(|body.items|)
    ensures body.Wrapped? && TruthyNumber(body.paginationTotal) ==> r == body.paginationTotal
    ensures body.Wrapped? && !TruthyNumber(body.paginationTotal) ==> r.None?
  {
    match body
    case Bare(items) => Some(|items|)
    case Wrapped(_, t) => if TruthyNumber(t) then t else None
  }

  /** The same list sent bare or wrapped is stored the same way, but the
      totals agree only when the wrapper's total is the list's length and
      not 0: a wrapped empty list stores no total where a bare one stores
      0. */
  lemma BodyShapesAgree(xs: seq<Catalog.Experience>, t: Option<int>)
    ensures ExperiencesOf(Bare(xs)) == ExperiencesOf(Wrapped(Some(xs), t)) == Some(xs)
    ensures TotalOf(Bare(xs)) == TotalOf(Wrapped(Some(xs), t)) <==> t == Some(|xs|) && |xs| != 0
  {
  }

  /** A wrapped body draws the pagination bar exactly when it carries a
      total above 1, and then with that many buttons; a wrapped body
      without `experiences` stores no list at all. */
  lemma WrappedTotalNavigation(e: Option<seq<Catalog.Experience>>, t: Option<int>, current: int)
    ensures NavigationOf(current, TotalOf(Wrapped(e, t))).Some? <==> t.Some? && t.value > 1
    ensures t.Some? && t.value > 1 ==>
              |NavigationOf(current, TotalOf(Wrapped(e, t))).value.buttons| == t.value
    ensures e.None? ==> ExperiencesOf(Wrapped(e, t)).None?
  {
  }

  // ---------------------------------------------------------------------
  // Page navigation

  /** The pagination bar, drawn only when `total > 1`. */
  datatype Navigation = Navigation(prevDisabled: bool, buttons: seq<int>, highlighted: int, nextDisabled: bool)

  function NavigationOf(current: int, total: Option<int>): (r: Option<Navigation>)
    ensures r.Some? <==> total.Some? && total.value > 1
    ensures r.Some? ==>
      && (r.value.prevDisabled <==> current == 1)
      && (r.value.nextDisabled <==> current == total.value)
      && |r.value.buttons| == total.value
      && (forall i | 0 <= i < total.value :: r.value.buttons[i] == i + 1)
      && r.value.highlighted == current
  {
    if total.None? || total.value <= 1 then None
    else
      Some(Navigation(current == 1, seq(total.value, i => i + 1), current, current == total.value))
  }

  /** From a page within range, the enabled Previous and Next buttons and
      every numbered button lead to a page within range. */
  lemma NavigationStaysInRange(current: int, total: int)
    requires total > 1 && 1 <= current <= total
    ensures var nav := NavigationOf(current, Some(total)).value;
      && (!nav.prevDisabled ==> 1 <= current - 1 <= total)
      && (!nav.nextDisabled ==> 1 <= current + 1 <= total)
      && (forall b | b in nav.buttons :: 1 <= b <= total)
  {
  }

  /** Next then Previous comes back to the same page. */
  lemma NextThenPrevious(current: int, total: int)
    requires total > 1 && 1 <= current < total
    ensures !NavigationOf(current, Some(total)).value.nextDisabled
    ensures !NavigationOf(current + 1, Some(total)).value.prevDisabled
  {
  }

  // ---------------------------------------------------------------------
  // Component state

  const LoadFailed := "Failed to load experiences"

  class Listings {
    var experiences: Option<seq<Catalog.Experience>>
    var loading: bool
    var error: string
    var filters: Filters
    var current: int
    var pageSize: int
    var total: Option<int>

    constructor ()
      ensures experiences == Some([]) && loading && error == ""
      ensures filters == NoFilters && current == 1 && pageSize == 20 && total == Some(0)
    {
      experiences := Some([]);
      loading := true;
      error := "";
      filters := NoFilters;
      current := 1;
      pageSize := 20;
      total := Some(0);
    }

    /** `fetchExperiences`: send the parameters, then store the list and
        the total, or the error; loading ends either way. */
    method Fetch(response: Option<ListingsBody>) returns (params: seq<Param>)
      modifies this
      ensures params == RequestParams(old(current), old(pageSize), old(filters))
      ensures !loading && filters == old(filters) && current == old(current) && pageSize == old(pageSize)
      ensures response.None? ==> error == LoadFailed && experiences == old(experiences) && total == old(total)
      ensures response.Some? ==>
        error == "" && experiences == ExperiencesOf(response.value) && total == TotalOf(response.value)
    {
      loading := true;
      error := "";
      params := RequestParams(current, pageSize, filters);
      if response.None? {
        error := LoadFailed;
      } else {
        experiences := ExperiencesOf(response.value);
        total := TotalOf(response.value);
      }
      loading := false;
    }

    /** `handleFilterChange`: set that one filter and go back to page 1. */
    method HandleFilterChange(k: FilterKey, v: string)
      modifies this
      ensures filters == old(filters).Set(k, v) && filters.Get(k) == v
      ensures forall k' | k' != k :: filters.Get(k') == old(filters).Get(k')
      ensures current == 1 && pageSize == old(pageSize) && total == old(total)
      ensures experiences == old(experiences) && error == old(error) && loading == old(loading)
    {
      filters := filters.Set(k, v);
      current := 1;
    }

    /** `handleSearch`: ask for page 1 and fetch. The fetch reads the
        pagination of the render the handler belongs to, so the request
        still carries the page shown before; only afterwards is the page
        1. */
    method HandleSearch(response: Option<ListingsBody>) returns (params: seq<Param>)
      modifies this
      ensures params == RequestParams(old(current), old(pageSize), old(filters))
      ensures current == 1 && filters == old(filters) && pageSize == old(pageSize)
      ensures response.None? ==> error == LoadFailed && experiences == old(experiences) && total == old(total)
      ensures response.Some? ==>
        error == "" && experiences == ExperiencesOf(response.value) && total == TotalOf(response.value)
    {
      params := Fetch(response);
      current := 1;
    }

    /** `handlePageChange`: exactly the given page, nothing else. */
    method HandlePageChange(page: int)
      modifies this
      ensures current == page
      ensures filters == old(filters) && pageSize == old(pageSize) && total == old(total)
      ensures experiences == old(experiences) && error == old(error) && loading == old(loading)
    {
      current := page;
    }

    /** `clearFilters`: every filter empty and page 1. */
    method ClearFilters()
      modifies this
      ensures filters == NoFilters && current == 1
      ensures pageSize == old(pageSize) && total == old(total)
      ensures experiences == old(experiences) && error == old(error) && loading == old(loading)
    {
      filters := NoFilters;
      current := 1;
    }
  }

  /** A bare array's length is taken as the number of pages: three
      experiences draw a bar of three page buttons. */
  lemma BareListLengthIsPageCount(items: seq<Catalog.Experience>)
    requires |items| > 1
    ensures NavigationOf(1, TotalOf(Bare(items))).Some?
    ensures |NavigationOf(1, TotalOf(Bare(items))).value.buttons| == |items|
  {
  }
}
