/** What the list endpoints, the export and the list page share: the filter
    object they build from the query and the pagination arithmetic. */
module Listing {
  import opened Strings

  /** `{ [field]: { contains, mode? } }`; `insensitive` is `mode: "insensitive"`. */
  datatype FieldFilter = FieldFilter(field: string, contains: string, insensitive: bool)

  /** The `where` object: an `OR` of text filters and the equality filters. */
  datatype Where = Where(
    or: seq<FieldFilter>,
    city: Option<string>,
    propertyType: Option<string>,
    status: Option<string>,
    timeline: Option<string>)

  /** `w` is the filter for the given values: a non-empty search gives the
      `OR` over fullName, email and phone (case-insensitive when asked), and
      each equality filter is present, with its value, exactly when the value
      is set. */
  predicate WhereFor(w: Where, search: Option<string>, city: Option<string>, propertyType: Option<string>,
                     status: Option<string>, timeline: Option<string>, insensitive: bool)
  {
    && (IsSet(search) <==> w.or != [])
    && (IsSet(search) ==> w.or == [FieldFilter("fullName", search.value, insensitive),
      FieldFilter("email", search.value, insensitive), FieldFilter("phone", search.value, insensitive)])
    && w.city == FilterOf(city) && w.propertyType == FilterOf(propertyType)
    && w.status == FilterOf(status) && w.timeline == FilterOf(timeline)
  }

  /** The name of an enum value, for the `where` object. */
  function NameOf<T>(x: Option<T>, name: T -> string): Option<string> {
    if x.Some? then Some(name(x.value)) else None
  }

  /** Builds `where` by conditional assignment, starting from `{}`. */
  method BuildWhere(search: Option<string>, city: Option<string>, propertyType: Option<string>,
                    status: Option<string>, timeline: Option<string>, insensitive: bool)
    returns (w: Where)
    ensures WhereFor(w, search, city, propertyType, status, timeline, insensitive)
  {
    w := Where([], None, None, None, None);
    if IsSet(search) {
      var s := search.value;
      w := w.(or := [FieldFilter("fullName", s, insensitive), FieldFilter("email", s, insensitive),
        FieldFilter("phone", s, insensitive)]);
    }
    if IsSet(city) { w := w.(city := city); }
    if IsSet(propertyType) { w := w.(propertyType := propertyType); }
    if IsSet(status) { w := w.(status := status); }
    if IsSet(timeline) { w := w.(timeline := timeline); }
  }

  /** `Math.ceil(a / b)` for a count and a positive page size: the fewest
      pages of `b` that hold `a` items. */
  function CeilDiv(a: nat, b: nat): (r: nat)
    requires b > 0
    ensures r * b >= a
    ensures r == 0 || (r - 1) * b < a
  {
    (a + b - 1) / b
  }

  /** The column a list is ordered by: the `sortBy` parameter when set,
      "updatedAt" otherwise. */
  function SortColumn(sortBy: Option<string>): string {
    if IsSet(sortBy) then sortBy.value else "updatedAt"
  }

  /** The pagination metadata of a list response. */
  datatype Pagination = Pagination(page: real, limit: int, totalCount: nat, totalPages: nat,
    hasNextPage: bool, hasPrevPage: bool)

  function Paginate(page: real, limit: nat, totalCount: nat): (r: Pagination)
    requires limit > 0
    ensures r.page == page && r.limit == limit && r.totalCount == totalCount
    ensures r.totalPages * limit >= totalCount && (r.totalPages == 0 || (r.totalPages - 1) * limit < totalCount)
    ensures r.hasNextPage <==> page < r.totalPages as real
    ensures r.hasPrevPage <==> page > 1.0
  {
    var totalPages := CeilDiv(totalCount, limit);
    Pagination(page, limit, totalCount, totalPages, page < totalPages as real, page > 1.0)
  }

  /** `(page - 1) * limit`: the number of records before the page. */
  function Skip(page: real, limit: int): real {
    (page - 1.0) * limit as real
  }

  /** For a whole page number, "there is a next page" means exactly that
      records remain after this page. */
  lemma HasNextPageIff(page: nat, limit: nat, totalCount: nat)
    requires limit > 0
    ensures Paginate(page as real, limit, totalCount).hasNextPage <==> page * limit < totalCount
  {
    var t := CeilDiv(totalCount, limit);
    if page < t {
      assert page <= t - 1;
      MulMono(page, t - 1, limit);
    } else {
      MulMono(t, page, limit);
    }
  }

  lemma MulMono(a: nat, b: nat, c: nat)
    requires a <= b
    ensures a * c <= b * c
  {
  }

  /** Every record, counted from 0, lies on exactly one page between 1 and
      `totalPages`: the page whose window `skip .. skip + limit` holds it. */
  lemma EveryRecordOnAPage(k: nat, limit: nat, totalCount: nat)
    requires limit > 0 && k < totalCount
    ensures var p := k / limit + 1;
      && 1 <= p <= Paginate(p as real, limit, totalCount).totalPages
      && Skip(p as real, limit) <= k as real < Skip(p as real, limit) + limit as real
  {
    var p := k / limit + 1;
    var t := CeilDiv(totalCount, limit);
    assert (p - 1) * limit <= k;
    if p > t {
      MulMono(t, p - 1, limit);
    }
    assert Skip(p as real, limit) == ((p - 1) * limit) as real;
  }
}
