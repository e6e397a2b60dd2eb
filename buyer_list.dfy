/** The client-side buyer list: the filter inputs it keeps, the query it
    navigates to when a filter or the page changes, the pager's window of
    page numbers, the "Showing X to Y" range and the table's cell texts. */
module BuyerList {
  import opened Strings
  import opened Listing
  import opened SearchParams

  // ------------------------------------------------------ query updates

  /** One entry of the object given to `updateQueryParams`: a key and its
      new value, where `None` is `undefined`. */
  datatype Update = Update(key: string, value: Option<string>)

  /** One step of the `forEach`: delete the key for `undefined`, set it otherwise. */
  function ApplyUpdate(ps: Pairs, u: Update): Pairs {
    if u.value.None? then Delete(ps, u.key) else Set(ps, u.key, u.value.value)
  }

  /** The parameters after the updates, applied in entry order. */
  function ApplyUpdates(ps: Pairs, us: seq<Update>): Pairs
    decreases |us|
  {
    if |us| == 0 then ps else ApplyUpdate(ApplyUpdates(ps, us[..|us| - 1]), us[|us| - 1])
  }

  /** The value the last entry for `key` carries, when some entry has that key. */
  function LastUpdate(us: seq<Update>, key: string): Option<Option<string>>
    decreases |us|
  {
    if |us| == 0 then None
    else if us[|us| - 1].key == key then Some(us[|us| - 1].value)
    else LastUpdate(us[..|us| - 1], key)
  }

  /** `"page" in params`: some entry names the page, even with `undefined`. */
  predicate SuppliesPage(us: seq<Update>) {
    LastUpdate(us, "page").Some?
  }

  /** The query `updateQueryParams` navigates to: the updates applied, then
      the page reset to "1" unless an entry named it. */
  function UpdatedQuery(ps: Pairs, us: seq<Update>): Pairs {
    var applied := ApplyUpdates(ps, us);
    if SuppliesPage(us) then applied else Set(applied, "page", "1")
  }

  /** The values `key` has after the updates: none for a deleted key, the one
      new value for a set key, the old values for a key no entry names. */
  function ValuesAfter(ps: Pairs, us: seq<Update>, key: string): seq<string> {
    match LastUpdate(us, key)
    case None => ValuesOf(ps, key)
    case Some(None) => []
    case Some(Some(v)) => [v]
  }

  lemma {:induction false} ApplyUpdatesValues(ps: Pairs, us: seq<Update>, key: string)
    ensures ValuesOf(ApplyUpdates(ps, us), key) == ValuesAfter(ps, us, key)
    decreases |us|
  {
    if |us| > 0 {
      var init := us[..|us| - 1];
      var u := us[|us| - 1];
      ApplyUpdatesValues(ps, init, key);
      var before := ApplyUpdates(ps, init);
      if u.value.None? {
        DeleteValues(before, u.key, key);
      } else {
        SetValues(before, u.key, u.value.value, key);
      }
    }
  }

  /** `updateQueryParams` deletes the keys given `undefined`, sets the
      others to their value, leaves every key it is not given as it was, and
      resets the page to "1" unless it is given the page. */
  lemma UpdatedQueryValues(ps: Pairs, us: seq<Update>, key: string)
    ensures ValuesOf(UpdatedQuery(ps, us), key) ==
      if key == "page" && !SuppliesPage(us) then ["1"] else ValuesAfter(ps, us, key)
  {
    ApplyUpdatesValues(ps, us, key);
    if !SuppliesPage(us) {
      SetValues(ApplyUpdates(ps, us), "page", "1", key);
    }
  }

  /** `updateQueryParams`: copies the current parameters and updates the
      copy entry by entry. */
  method UpdateQueryParams(searchParams: Pairs, params: seq<Update>) returns (q: Pairs)
    ensures q == UpdatedQuery(searchParams, params)
  {
    var current := searchParams;
    var i := 0;
    while i < |params|
      invariant 0 <= i <= |params|
      invariant current == ApplyUpdates(searchParams, params[..i])
    {
      assert params[..i + 1][..i] == params[..i];
      current := ApplyUpdate(current, params[i]);
      i := i + 1;
    }
    assert params[..i] == params;
    if !SuppliesPage(params) {
      current := Set(current, "page", "1");
    }
    q := current;
  }

  // ------------------------------------------------------------ pager

  /** `changePage`'s guard: the page exists. */
  predicate PageInRange(page: int, totalPages: int) {
    !(page < 1 || page > totalPages)
  }

  function Min(a: int, b: int): int { if a <= b then a else b }
  function Max(a: int, b: int): int { if a >= b then a else b }

  /** The page buttons: `min(5, totalPages)` numbers, the i-th being
      `page - 2 + i` clamped to `[1, totalPages]`. */
  function PageWindow(page: int, totalPages: nat): (r: seq<int>) {
    seq(Min(5, totalPages), i => Min(Max(page - 2 + i, 1), totalPages))
  }

  /** The window has `min(5, totalPages)` buttons and each leads to an
      existing page, so `changePage` follows every one of them. */
  lemma PageWindowInRange(page: int, totalPages: nat)
    ensures |PageWindow(page, totalPages)| == Min(5, totalPages)
    ensures forall i :: 0 <= i < |PageWindow(page, totalPages)| ==>
      1 <= PageWindow(page, totalPages)[i] <= totalPages && PageInRange(PageWindow(page, totalPages)[i], totalPages)
  {
    var w := PageWindow(page, totalPages);
    assert |w| == Min(5, totalPages);
    forall i | 0 <= i < |w|
      ensures 1 <= w[i] <= totalPages
    {
      assert w[i] == Min(Max(page - 2 + i, 1), totalPages);
    }
  }

  /** Away from both ends the window is the current page with two pages on
      either side. */
  lemma PageWindowCentred(page: int, totalPages: nat)
    requires 3 <= page <= totalPages - 2
    ensures PageWindow(page, totalPages) == [page - 2, page - 1, page, page + 1, page + 2]
  {
    var w := PageWindow(page, totalPages);
    assert |w| == 5;
    forall i | 0 <= i < 5
      ensures w[i] == page - 2 + i
    {
      assert w[i] == Min(Max(page - 2 + i, 1), totalPages);
    }
  }

  /** Near the end the clamping repeats numbers and can leave the current
      page out: on page 2 of 2 both buttons read 1. */
  lemma PageWindowLastOfTwo()
    ensures PageWindow(2, 2) == [1, 1]
    ensures 2 !in PageWindow(2, 2)
  {
    var w := PageWindow(2, 2);
    assert |w| == 2;
    assert w[0] == Min(Max(0, 1), 2);
    assert w[1] == Min(Max(1, 1), 2);
  }

  /** The first number shown by "Showing X to Y of N". */
  function ShowingFrom(page: int, limit: int): int {
    (page - 1) * limit + 1
  }

  /** The last number shown by "Showing X to Y of N". */
  function ShowingTo(page: int, limit: int, totalCount: int): int {
    Min(page * limit, totalCount)
  }

  /** On an existing page the range is the page's records: it starts after
      the records skipped, ends within the total, and spans `limit` records
      or the rest of them on the last page. */
  lemma ShowingRange(page: int, limit: nat, totalCount: nat)
    requires limit > 0 && 1 <= page <= CeilDiv(totalCount, limit)
    ensures ShowingFrom(page, limit) - 1 == (page - 1) * limit
    ensures 1 <= ShowingFrom(page, limit) <= ShowingTo(page, limit, totalCount) <= totalCount
    ensures ShowingTo(page, limit, totalCount) - ShowingFrom(page, limit) + 1 ==
      Min(limit, totalCount - (page - 1) * limit)
  {
    var t := CeilDiv(totalCount, limit);
    MulMono(page - 1, t - 1, limit);
    assert page * limit == (page - 1) * limit + limit;
  }

  // ------------------------------------------------------ table cells

  const AtMostSign := "\U{2264} "
  const AtLeastSign := "\U{2265} "

  /** `formatBudgetRange`, with `fmt` standing for the rupee formatter. */
  function FormatBudgetRange(min: Option<int>, max: Option<int>, fmt: int -> string): string {
    if min.None? && max.None? then "-"
    else if min.None? then AtMostSign + fmt(max.value)
    else if max.None? then AtLeastSign + fmt(min.value)
    else fmt(min.value) + " - " + fmt(max.value)
  }

  /** The range reads "-" exactly when neither budget is set, and otherwise
      shows every budget that is set. */
  lemma FormatBudgetRangeShows(min: Option<int>, max: Option<int>, fmt: int -> string)
    ensures FormatBudgetRange(min, max, fmt) == "-" <==> min.None? && max.None?
    ensures min.None? && max.Some? ==> FormatBudgetRange(min, max, fmt) == AtMostSign + fmt(max.value)
    ensures min.Some? && max.None? ==> FormatBudgetRange(min, max, fmt) == AtLeastSign + fmt(min.value)
    ensures min.Some? ==> Contains(FormatBudgetRange(min, max, fmt), fmt(min.value))
    ensures max.Some? ==> Contains(FormatBudgetRange(min, max, fmt), fmt(max.value))
  {
    var r := FormatBudgetRange(min, max, fmt);
    if min.Some? && max.Some? {
      var a := fmt(min.value);
      var b := fmt(max.value);
      assert r == a + " - " + b;
      assert r[..|a|] == a;
      assert OccursAt(r, a, 0);
      assert r[|a| + 3..] == b;
      assert OccursAt(r, b, |a| + 3);
    } else if min.Some? {
      assert r[2..] == fmt(min.value);
      assert OccursAt(r, fmt(min.value), 2);
    } else if max.Some? {
      assert r[2..] == fmt(max.value);
      assert OccursAt(r, fmt(max.value), 2);
    }
  }

  /** The tag chips: `tags.split(',').filter(Boolean)` when tags are set. */
  function DisplayedTags(tags: Option<string>): seq<string> {
    if tags.Some? && |tags.value| > 0 then NonEmpty(Split(tags.value, ',')) else []
  }

  /** Every chip is a non-empty comma-free segment, and a tag string with no
      empty segment is shown whole: its chips join back to it. */
  lemma DisplayedTagsSegments(tags: Option<string>)
    ensures forall i :: 0 <= i < |DisplayedTags(tags)| ==>
      DisplayedTags(tags)[i] != "" && ',' !in DisplayedTags(tags)[i]
    ensures tags.Some? && tags.value != "" && "" !in Split(tags.value, ',') ==>
      Join(DisplayedTags(tags), ',') == tags.value
  {
    if tags.Some? && |tags.value| > 0 {
      var parts := Split(tags.value, ',');
      forall i | 0 <= i < |DisplayedTags(tags)|
        ensures ',' !in DisplayedTags(tags)[i]
      {
        assert DisplayedTags(tags)[i] in parts;
      }
      if "" !in parts {
        NonEmptyKeepsAll(parts);
        JoinSplit(tags.value, ',');
      }
    }
  }

  // ------------------------------------------------------- component

  /** The `BuyerList` component's filter inputs over the URL it was
      rendered for. */
  class BuyerListView {
    const searchParams: Pairs
    const pagination: Pagination
    var searchTerm: string
    var city: string
    var propertyType: string
    var status: string
    var timeline: string

    /** `searchParams.get(key) || ""`. */
    static function Initial(ps: Pairs, key: string): string {
      var v := GetParam(ps, key);
      if v.Some? then v.value else ""
    }

    /** Each input starts with its parameter, or empty. */
    constructor (searchParams: Pairs, pagination: Pagination)
      ensures this.searchParams == searchParams && this.pagination == pagination
      ensures searchTerm == Initial(searchParams, "search") && city == Initial(searchParams, "city")
      ensures propertyType == Initial(searchParams, "propertyType") && status == Initial(searchParams, "status")
      ensures timeline == Initial(searchParams, "timeline")
    {
      this.searchParams := searchParams;
      this.pagination := pagination;
      searchTerm := Initial(searchParams, "search");
      city := Initial(searchParams, "city");
      propertyType := Initial(searchParams, "propertyType");
      status := Initial(searchParams, "status");
      timeline := Initial(searchParams, "timeline");
    }

    /** `value || undefined`. */
    static function OrUndefined(value: string): Option<string> {
      if value == "" then None else Some(value)
    }

    /** `handleSearch`: the input takes the value, and the query searches
      for it, or drops the search when it is empty. */
    method HandleSearch(value: string) returns (q: Pairs)
      modifies this`searchTerm
      ensures searchTerm == value
      ensures q == UpdatedQuery(searchParams, [Update("search", OrUndefined(value))])
    {
      searchTerm := value;
      q := UpdateQueryParams(searchParams, [Update("search", OrUndefined(value))]);
    }

    /** `handleFilterChange`: the named filter's input takes the value (an
      unknown name changes no input), and the query sets or drops it. */
    method HandleFilterChange(filter: string, value: string) returns (q: Pairs)
      modifies this`city, this`propertyType, this`status, this`timeline
      ensures city == (if filter == "city" then value else old(city))
      ensures propertyType == (if filter == "propertyType" then value else old(propertyType))
      ensures status == (if filter == "status" then value else old(status))
      ensures timeline == (if filter == "timeline" then value else old(timeline))
      ensures q == UpdatedQuery(searchParams, [Update(filter, OrUndefined(value))])
    {
      match filter {
        case "city" => city := value;
        case "propertyType" => propertyType := value;
        case "status" => status := value;
        case "timeline" => timeline := value;
        case _ =>
      }
      q := UpdateQueryParams(searchParams, [Update(filter, OrUndefined(value))]);
    }

    /** `changePage`: no navigation to a page that does not exist; otherwise
      the query with the new page and every other parameter kept. */
    method ChangePage(page: int) returns (nav: Option<Pairs>)
      ensures nav.None? <==> !PageInRange(page, pagination.totalPages)
      ensures nav.Some? ==> nav.value == UpdatedQuery(searchParams, [Update("page", Some(IntToString(page)))])
    {
      if page < 1 || page > pagination.totalPages {
        return None;
      }
      var q := UpdateQueryParams(searchParams, [Update("page", Some(IntToString(page)))]);
      nav := Some(q);
    }
  }

  /** A page change sets the page to its number and keeps every other
      parameter's values. */
  lemma ChangePageQuery(ps: Pairs, page: int, key: string)
    ensures ValuesOf(UpdatedQuery(ps, [Update("page", Some(IntToString(page)))]), key) ==
      if key == "page" then [IntToString(page)] else ValuesOf(ps, key)
  {
    var us := [Update("page", Some(IntToString(page)))];
    assert us[..0] == [];
    assert LastUpdate(us, "page") == Some(Some(IntToString(page)));
    assert LastUpdate(us, key) == if key == "page" then Some(Some(IntToString(page))) else None;
    UpdatedQueryValues(ps, us, key);
  }

  /** A filter change resets the page to "1" unless the filter is the page. */
  lemma FilterChangeResetsPage(ps: Pairs, filter: string, value: Option<string>)
    requires filter != "page"
    ensures ValuesOf(UpdatedQuery(ps, [Update(filter, value)]), "page") == ["1"]
  {
    var us := [Update(filter, value)];
    assert us[..0] == [];
    assert LastUpdate(us, "page") == None;
    UpdatedQueryValues(ps, us, "page");
  }
}
