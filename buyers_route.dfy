/** `/api/buyers`: the paginated, filtered list (GET) and the creation of
    one buyer (POST), guarded by the per-user rate limiter. */
module BuyersRoute {
  import opened Strings
  import opened Domain
  import opened Validation
  import opened RateLimit
  import opened Store
  import opened Listing
  import opened SearchParams

  // ------------------------------------------------------------- GET

  /** The object the list handler gives the query schema: `page` and `limit`
      through `Number` when the parameter is set and 1 and 10 otherwise,
      each filter when set, sort "updatedAt" and "desc" unless given. */
  function ListQueryInput(ps: Pairs, toNumber: string -> JsNumber): QueryInput {
    var page := GetParam(ps, "page");
    var limit := GetParam(ps, "limit");
    var sortOrder := GetParam(ps, "sortOrder");
    QueryInput(
      Some(if IsSet(page) then toNumber(page.value) else Finite(1.0)),
      Some(if IsSet(limit) then toNumber(limit.value) else Finite(10.0)),
      FilterOf(GetParam(ps, "search")),
      FilterOf(GetParam(ps, "city")),
      FilterOf(GetParam(ps, "propertyType")),
      FilterOf(GetParam(ps, "status")),
      FilterOf(GetParam(ps, "timeline")),
      Some(SortColumn(GetParam(ps, "sortBy"))),
      Some(if IsSet(sortOrder) then sortOrder.value else "desc"))
  }

  /** A numeric parameter the schema takes: unset, or a positive whole number. */
  predicate NumberParamOk(x: Option<string>, toNumber: string -> JsNumber) {
    !IsSet(x) || (toNumber(x.value).Finite? && IsPositiveInt(toNumber(x.value).value))
  }

  /** An enum parameter the schema takes: unset, or one of the names. */
  predicate EnumParamOk(x: Option<string>, names: seq<string>) {
    !IsSet(x) || x.value in names
  }

  /** The query parameters the list handler accepts without failing. */
  predicate ListParamsOk(ps: Pairs, toNumber: string -> JsNumber) {
    && NumberParamOk(GetParam(ps, "page"), toNumber)
    && NumberParamOk(GetParam(ps, "limit"), toNumber)
    && EnumParamOk(GetParam(ps, "city"), CityNames)
    && EnumParamOk(GetParam(ps, "propertyType"), PropertyTypeNames)
    && EnumParamOk(GetParam(ps, "status"), StatusNames)
    && EnumParamOk(GetParam(ps, "timeline"), TimelineNames)
    && EnumParamOk(GetParam(ps, "sortOrder"), ["asc", "desc"])
  }

  /** The schema accepts the handler's object exactly when the parameters
      are acceptable; unset page and limit become 1 and 10. */
  lemma ListQueryAccepts(ps: Pairs, toNumber: string -> JsNumber)
    ensures ParseQuery(ListQueryInput(ps, toNumber)).Valid? <==> ListParamsOk(ps, toNumber)
    ensures ParseQuery(ListQueryInput(ps, toNumber)).Valid? ==>
      var q := ParseQuery(ListQueryInput(ps, toNumber)).value;
      && q.page >= 1 && q.limit >= 1
      && (!IsSet(GetParam(ps, "page")) ==> q.page == 1)
      && (!IsSet(GetParam(ps, "limit")) ==> q.limit == 10)
      && q.search == FilterOf(GetParam(ps, "search"))
      && q.sortOrder == (if GetParam(ps, "sortOrder") == Some("asc") then Asc else Desc)
  {
    var input := ListQueryInput(ps, toNumber);
    ParseQueryAccepts(input);
    assert IsPositiveInt(1.0) && IsPositiveInt(10.0);
  }

  /** A GET response: 401, 500 (a rejected query, or a sort column the
      database refuses), or the page request and its pagination metadata. */
  datatype ListResponse =
    | ListUnauthorized
    | ListFailed
    | Listed(where: Where, sortBy: string, sortOrder: SortOrder, skip: int, take: int, pagination: Pagination)

  /** `GET /api/buyers`. `count` stands for `buyer.count({ where })`;
      `orderable` says which columns `orderBy: { [sortBy]: ... }` accepts, the
      others making `findMany` throw. */
  method ListBuyers(caller: Caller, ps: Pairs, toNumber: string -> JsNumber, count: Where -> nat,
                    orderable: string -> bool)
    returns (r: ListResponse)
    ensures caller.Anonymous? <==> r.ListUnauthorized?
    ensures r.ListFailed? <==>
      caller.SignedIn? && !(ListParamsOk(ps, toNumber) && orderable(SortColumn(GetParam(ps, "sortBy"))))
    ensures r.Listed? ==> ParseQuery(ListQueryInput(ps, toNumber)).Valid?
    ensures r.Listed? ==>
      var q := ParseQuery(ListQueryInput(ps, toNumber)).value;
      && q.limit >= 1
      && r.skip == (q.page - 1) * q.limit && r.take == q.limit
      && r.sortBy == q.sortBy == SortColumn(GetParam(ps, "sortBy")) && orderable(r.sortBy)
      && r.sortOrder == q.sortOrder
      && WhereFor(r.where, q.search, NameOf(q.city, CityName), NameOf(q.propertyType, PropertyTypeName),
           NameOf(q.status, StatusName), NameOf(q.timeline, TimelineName), true)
      && r.pagination == Paginate(q.page as real, q.limit, count(r.where))
  {
    if caller.Anonymous? {
      return ListUnauthorized;
    }
    ListQueryAccepts(ps, toNumber);
    var parsed := ParseQuery(ListQueryInput(ps, toNumber));
    if parsed.Invalid? {
      return ListFailed;
    }
    var q := parsed.value;
    ParseQueryAccepts(ListQueryInput(ps, toNumber));
    if !orderable(q.sortBy) {
      return ListFailed;
    }
    var skip := (q.page - 1) * q.limit;
    var where := BuildWhere(q.search, NameOf(q.city, CityName), NameOf(q.propertyType, PropertyTypeName),
      NameOf(q.status, StatusName), NameOf(q.timeline, TimelineName), true);
    var totalCount := count(where);
    r := Listed(where, q.sortBy, q.sortOrder, skip, q.limit, Paginate(q.page as real, q.limit, totalCount));
  }

  // ------------------------------------------------------------ POST

  /** The body as `request.json()` delivers it: unreadable, a JSON value
      other than an object, or an object with its fields. */
  datatype RequestBody = Malformed | NonObject(value: Value) | JsonObject(fields: Body)

  /** A POST response: 401, 429, 400 with the formatted issues, 201 with the
      stored buyer, or 500. */
  datatype CreateResponse =
    | CreateUnauthorized
    | TooManyRequests
    | ValidationFailed(error: seq<FieldErrors>)
    | Created(buyer: Buyer)
    | CreateFailed

  function CreateStatus(r: CreateResponse): int {
    match r
    case CreateUnauthorized => 401
    case TooManyRequests => 429
    case ValidationFailed(_) => 400
    case Created(_) => 201
    case CreateFailed => 500
  }

  /** `|| null` on a number: 0 becomes null. */
  function NonZero(x: Option<int>): Option<int> {
    if x.Some? && x.value != 0 then x else None
  }

  /** The `data` of `buyer.create` for a validated payload: the fields with
      their `|| null`, `|| "New"` and `|| ""` fallbacks, owned by `owner`.
      The id is the store's to assign. */
  function NewBuyer(v: FormValues, owner: string): Buyer {
    Buyer(0, v.fullName, FilterOf(v.email), v.phone, v.city, v.propertyType, v.bhk, v.purpose,
      NonZero(v.budgetMin), NonZero(v.budgetMax), v.timeline, v.source, v.status, FilterOf(v.notes),
      v.tags, owner)
  }

  /** What is stored for an accepted body: a missing or null email, BHK,
      budget or notes is stored as null (an empty email or notes too), an
      omitted status as New, omitted tags as "", and the budgets that are
      kept are positive and ordered. */
  lemma CreateDefaults(body: Body, f: Formats, owner: string)
    requires ParseBuyerForm(body, f).Valid?
    ensures var b := NewBuyer(ParseBuyerForm(body, f).value, owner);
      && b.ownerId == owner
      && Get(body, "fullName") == Some(Str(b.fullName)) && Get(body, "phone") == Some(Str(b.phone))
      && (b.email.None? <==> (Get(body, "email").None? || Get(body, "email") == Some(Null) || Get(body, "email") == Some(Str(""))))
      && (b.email.Some? ==> Get(body, "email") == Some(Str(b.email.value)))
      && (b.bhk.None? <==> (Get(body, "bhk").None? || Get(body, "bhk") == Some(Null)))
      && (b.notes.None? <==> (Get(body, "notes").None? || Get(body, "notes") == Some(Null) || Get(body, "notes") == Some(Str(""))))
      && (b.notes.Some? ==> Get(body, "notes") == Some(Str(b.notes.value)))
      && (b.budgetMin.None? <==> BudgetOf(Get(body, "budgetMin")).None?)
      && (b.budgetMax.None? <==> BudgetOf(Get(body, "budgetMax")).None?)
      && (b.budgetMin.Some? ==> b.budgetMin.value > 0)
      && (b.budgetMax.Some? ==> b.budgetMax.value > 0)
      && (b.budgetMin.Some? && b.budgetMax.Some? ==> b.budgetMin.value <= b.budgetMax.value)
      && ("status" !in body ==> b.status == New)
      && ("tags" !in body ==> b.tags == "")
  {
    var v := ParseBuyerForm(body, f).value;
    FormOutput(body, f);
    StoredFromValues(v, owner);
  }

  /** The fallbacks on a validated payload only turn an empty email or notes
      and a zero budget into null. */
  lemma StoredFromValues(v: FormValues, owner: string)
    ensures var b := NewBuyer(v, owner);
      && b.fullName == v.fullName && b.phone == v.phone && b.bhk == v.bhk && b.ownerId == owner
      && b.status == v.status && b.tags == v.tags
      && (b.email.None? <==> v.email.None? || v.email == Some(""))
      && (b.email.Some? ==> b.email == v.email)
      && (b.notes.None? <==> v.notes.None? || v.notes == Some(""))
      && (b.notes.Some? ==> b.notes == v.notes)
      && (v.budgetMin.Some? && v.budgetMin.value > 0 ==> b.budgetMin == v.budgetMin)
      && (v.budgetMax.Some? && v.budgetMax.value > 0 ==> b.budgetMax == v.budgetMax)
      && (v.budgetMin.None? ==> b.budgetMin.None?)
      && (v.budgetMax.None? ==> b.budgetMax.None?)
  {
  }

  /** Which of the POST handler's two writes the database refuses, if any.
      The two writes run one after the other, outside a transaction. Why a
      write is refused (a column limit, a lost connection) is outside this
      model. */
  datatype WriteFailure = NoFailure | BuyerRejected | HistoryRejected

  /** What the POST handler does with an admitted caller's body, from the
      store's `nextId`, buyers and history before to those after: 500 for an
      unreadable body, 400 with the formatted issues for a non-object or a
      rejected object, both leaving the store alone; for an accepted body,
      the buyer with its fallbacks under the next id and one "created"
      history entry carrying the validated payload, 201. A refused
      `buyer.create` gives 500 with nothing stored; a refused
      `buyerHistory.create` gives 500 with the buyer already stored. */
  predicate Handled(body: RequestBody, f: Formats, uid: string, fail: WriteFailure, r: CreateResponse, nextId: nat,
                    buyers0: seq<Buyer>, history0: seq<HistoryEntry>, buyers: seq<Buyer>, history: seq<HistoryEntry>)
  {
    && (body.Malformed? ==> r == CreateFailed && buyers == buyers0 && history == history0)
    && (body.NonObject? ==>
          && r == ValidationFailed(FormatIssues([Issue("", TypeMessage("object", Some(body.value)))]))
          && buyers == buyers0 && history == history0)
    && (body.JsonObject? && ParseBuyerForm(body.fields, f).Invalid? ==>
          && r == ValidationFailed(FormatIssues(ParseBuyerForm(body.fields, f).issues))
          && buyers == buyers0 && history == history0)
    && (body.JsonObject? && ParseBuyerForm(body.fields, f).Valid? ==>
          var v := ParseBuyerForm(body.fields, f).value;
          var stored := NewBuyer(v, uid).(id := nextId);
          && (fail.NoFailure? ==>
                && r == Created(stored)
                && buyers == buyers0 + [stored]
                && history == history0 + [HistoryEntry(nextId, uid, "created", None, FormFields(v))])
          && (fail.BuyerRejected? ==> r == CreateFailed && buyers == buyers0 && history == history0)
          && (fail.HistoryRejected? ==> r == CreateFailed && buyers == buyers0 + [stored] && history == history0))
  }

  /** Stores a validated payload, then its "created" history entry, each
      write refused as `fail` says. */
  method StoreValidated(db: Database, v: FormValues, uid: string, fail: WriteFailure) returns (r: CreateResponse)
    requires db.Valid()
    modifies db
    ensures db.Valid()
    ensures fail.NoFailure? <==> r.Created?
    ensures !r.Created? ==> r == CreateFailed
    ensures fail.BuyerRejected? ==> unchanged(db)
    ensures !fail.BuyerRejected? ==> db.buyers == old(db.buyers) + [NewBuyer(v, uid).(id := old(db.nextId))]
    ensures fail.NoFailure? ==>
      && r.buyer == NewBuyer(v, uid).(id := old(db.nextId))
      && db.history == old(db.history) + [HistoryEntry(r.buyer.id, uid, "created", None, FormFields(v))]
    ensures fail.HistoryRejected? ==> db.history == old(db.history)
  {
    if fail.BuyerRejected? {
      return CreateFailed;
    }
    var buyer := db.CreateBuyer(NewBuyer(v, uid));
    if fail.HistoryRejected? {
      return CreateFailed;
    }
    db.CreateHistory(HistoryEntry(buyer.id, uid, "created", None, FormFields(v)));
    r := Created(buyer);
  }

  /** The part of the POST handler after the rate limit. */
  method CreateFromBody(db: Database, body: RequestBody, f: Formats, uid: string, fail: WriteFailure)
    returns (r: CreateResponse)
    requires db.Valid()
    modifies db
    ensures db.Valid()
    ensures Handled(body, f, uid, fail, r, old(db.nextId), old(db.buyers), old(db.history), db.buyers, db.history)
    ensures r.ValidationFailed? || body.Malformed? ==> unchanged(db)
  {
    match body
    case Malformed =>
      r := CreateFailed;
    case NonObject(value) =>
      r := ValidationFailed(FormatIssues([Issue("", TypeMessage("object", Some(value)))]));
    case JsonObject(fields) =>
      var parsed := ParseBuyerForm(fields, f);
      if parsed.Invalid? {
        r := ValidationFailed(FormatIssues(parsed.issues));
      } else {
        r := StoreValidated(db, parsed.value, uid, fail);
      }
  }

  /** `POST /api/buyers` at time `now`: 401 without a user id, then the rate
      limit (429) before the body is read, then 500 for an unreadable body,
      400 with the formatted issues for a rejected one, and otherwise one
      buyer and one "created" history entry, 201, unless the database
      refuses a write (500). */
  method CreateBuyer(caller: Caller, limiter: RateLimiter, db: Database, body: RequestBody, f: Formats, now: int,
                     fail: WriteFailure)
    returns (r: CreateResponse)
    requires limiter.Valid() && db.Valid()
    modifies limiter, db
    ensures limiter.Valid() && db.Valid()
    ensures !HasUserId(caller) ==>
      r == CreateUnauthorized && limiter.tokenBucket == old(limiter.tokenBucket) && unchanged(db)
    ensures HasUserId(caller) ==>
      var uid := caller.userId.value;
      var ok := Step(old(limiter.tokenBucket), uid, now).0;
      && limiter.tokenBucket == Step(old(limiter.tokenBucket), uid, now).1
      && (!ok ==> r == TooManyRequests && unchanged(db))
      && (ok ==> Handled(body, f, uid, fail, r, old(db.nextId), old(db.buyers), old(db.history), db.buyers, db.history))
  {
    if !HasUserId(caller) {
      return CreateUnauthorized;
    }
    var uid := caller.userId.value;
    var ok := limiter.Check(uid, now);
    if !ok {
      return TooManyRequests;
    }
    r := CreateFromBody(db, body, f, uid, fail);
  }
}
