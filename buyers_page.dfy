/** The server-rendered `/buyers` page: it derives the page number, the
    filter and the sort from the URL and asks the store for one page of ten. */
module BuyersPage {
  import opened Strings
  import opened Domain
  import opened Listing

  /** The URL parameters the page reads; each is absent or the raw string. */
  datatype PageParams = PageParams(
    page: Option<string>,
    search: Option<string>,
    city: Option<string>,
    propertyType: Option<string>,
    status: Option<string>,
    timeline: Option<string>,
    sortBy: Option<string>,
    sortOrder: Option<string>)

  const PageSize := 10

  /** `Number(param) || 1`: `Number(undefined)` is NaN, and NaN and 0 are
      falsy, so both fall back to 1. */
  function PageNumber(param: Option<string>, toNumber: string -> JsNumber): real {
    var n := if param.Some? then toNumber(param.value) else NotANumber;
    if n.Finite? && n.value != 0.0 then n.value else 1.0
  }

  /** An absent, zero or non-numeric page is page 1; any other number is
      taken as it is, so the page is never 0. */
  lemma PageNumberDefaults(param: Option<string>, toNumber: string -> JsNumber)
    ensures PageNumber(param, toNumber) != 0.0
    ensures param.None? ==> PageNumber(param, toNumber) == 1.0
    ensures param.Some? ==>
      (PageNumber(param, toNumber) == 1.0 <==>
        toNumber(param.value) in {NotANumber, Finite(0.0), Finite(1.0)})
    ensures param.Some? && toNumber(param.value).Finite? && toNumber(param.value).value != 0.0 ==>
      PageNumber(param, toNumber) == toNumber(param.value).value
  {
  }

  /** What the page renders: a redirect to sign-in, or the page request it
      makes and the pagination it shows. */
  datatype PageResult =
    | RedirectToSignIn
    | PageRequest(where: Where, sortBy: string, sortOrder: string, skip: real, take: int, pagination: Pagination)

  /** `BuyersPage`. `signedIn` is whether a session exists; `count` stands
      for `buyer.count({ where })`. */
  method LoadBuyersPage(signedIn: bool, params: PageParams, toNumber: string -> JsNumber, count: Where -> nat)
    returns (r: PageResult)
    ensures !signedIn <==> r.RedirectToSignIn?
    ensures r.PageRequest? ==>
      var page := PageNumber(params.page, toNumber);
      && WhereFor(r.where, params.search, params.city, params.propertyType, params.status, params.timeline, false)
      && r.take == PageSize && r.skip == Skip(page, PageSize)
      && r.sortBy == SortColumn(params.sortBy)
      && r.sortOrder == (if IsSet(params.sortOrder) then params.sortOrder.value else "desc")
      && r.pagination == Paginate(page, PageSize, count(r.where))
  {
    if !signedIn {
      return RedirectToSignIn;
    }
    var page := PageNumber(params.page, toNumber);
    var skip := (page - 1.0) * PageSize as real;
    var sortBy := SortColumn(params.sortBy);
    var sortOrder := if IsSet(params.sortOrder) then params.sortOrder.value else "desc";
    var where := BuildWhere(FilterOf(params.search), params.city, params.propertyType, params.status,
      params.timeline, false);
    var totalCount := count(where);
    r := PageRequest(where, sortBy, sortOrder, skip, PageSize, Paginate(page, PageSize, totalCount));
  }

  /** Without a page parameter the page starts at the first record, and the
      first page has no previous page. */
  lemma FirstPageByDefault(params: PageParams, toNumber: string -> JsNumber, totalCount: nat)
    requires params.page.None?
    ensures Skip(PageNumber(params.page, toNumber), PageSize) == 0.0
    ensures !Paginate(PageNumber(params.page, toNumber), PageSize, totalCount).hasPrevPage
    ensures Paginate(PageNumber(params.page, toNumber), PageSize, totalCount).hasNextPage <==> totalCount > PageSize
  {
    HasNextPageIff(1, PageSize, totalCount);
  }

  /** On a whole page number `p`, the page request skips the `10 * (p - 1)`
      records of the earlier pages, and there is a next page exactly when
      records remain after it. */
  lemma WholePageWindow(p: nat, totalCount: nat)
    requires p >= 1
    ensures Skip(p as real, PageSize) == (PageSize * (p - 1)) as real
    ensures Paginate(p as real, PageSize, totalCount).hasNextPage <==> p * PageSize < totalCount
    ensures Paginate(p as real, PageSize, totalCount).hasPrevPage <==> p >= 2
  {
    HasNextPageIff(p, PageSize, totalCount);
  }
}
