/** `/api/buyers/csv`: bulk import of a parsed CSV file (POST) and export of
    the filtered buyers as CSV text (GET). */
module CsvRoute {
  import opened Strings
  import opened Domain
  import opened Validation
  import opened Store
  import opened Listing
  import opened SearchParams

  // ---------------------------------------------------------- import

  /** The most data rows one file may hold. */
  const MaxRows: nat := 200

  /** The uploaded file after CSV parsing: no `file` field, a file the parser
      reported errors for, or its data rows keyed by the header line. */
  datatype Upload = NoFile | Unparsable | Rows(rows: seq<Row>)

  /** One validation result: the 1-based row number and either the
      validated values or the formatted issues. */
  datatype RowResult = ValidRow(row: nat, data: CsvRowValues) | InvalidRow(row: nat, errors: seq<FieldErrors>)

  /** The result for one row: valid rows carry values the enum casts of
      the import can rely on. */
  function ValidateRow(r: Row, n: nat, f: Formats): (res: RowResult)
    ensures res.row == n
  {
    match ParseCsvRow(r, f)
    case Valid(v) => ValidRow(n, v)
    case Invalid(issues) => InvalidRow(n, FormatIssues(issues))
  }

  /** `data.map((row, index) => ...)`: one result per row, the i-th for
      the i-th row, numbered i + 1. */
  function ValidateRows(rows: seq<Row>, f: Formats): (r: seq<RowResult>)
    ensures |r| == |rows|
  {
    seq(|rows|, i requires 0 <= i < |rows| => ValidateRow(rows[i], i + 1, f))
  }

  /** A result is valid exactly when the CSV-row schema accepts the row, and
      then carries the validated values; otherwise it carries the formatted
      issues. */
  lemma ValidateRowMeaning(r: Row, n: nat, f: Formats)
    ensures ValidateRow(r, n, f).ValidRow? <==> ParseCsvRow(r, f).Valid?
    ensures ValidateRow(r, n, f).ValidRow? ==> ValidateRow(r, n, f).data == ParseCsvRow(r, f).value
    ensures ValidateRow(r, n, f).InvalidRow? ==> ValidateRow(r, n, f).errors == FormatIssues(ParseCsvRow(r, f).issues)
  {
  }

  /** `validationResults.filter(result => !result.valid)`. */
  function InvalidRows(rs: seq<RowResult>): seq<RowResult> {
    if |rs| == 0 then []
    else (if rs[0].InvalidRow? then [rs[0]] else []) + InvalidRows(rs[1..])
  }

  /** The filter keeps exactly the invalid results, in order. */
  lemma {:induction false} InvalidRowsMembers(rs: seq<RowResult>)
    ensures forall x :: x in InvalidRows(rs) <==> x in rs && x.InvalidRow?
    ensures |InvalidRows(rs)| <= |rs|
  {
    if |rs| > 0 {
      InvalidRowsMembers(rs[1..]);
      assert rs == [rs[0]] + rs[1..];
    }
  }

  /** The 1-based numbers of the listed rows. */
  function RowNumbers(rs: seq<RowResult>): (r: seq<nat>)
    ensures |r| == |rs|
  {
    seq(|rs|, i requires 0 <= i < |rs| => rs[i].row)
  }

  /** The rejection is empty exactly when every result is valid. */
  lemma InvalidRowsEmpty(rs: seq<RowResult>)
    ensures InvalidRows(rs) == [] <==> forall i :: 0 <= i < |rs| ==> rs[i].ValidRow?
  {
    InvalidRowsMembers(rs);
    var inv := InvalidRows(rs);
    if inv != [] {
      assert inv[0] in rs;
    } else {
      forall i | 0 <= i < |rs| ensures rs[i].ValidRow? {
        assert rs[i] !in inv;
      }
    }
  }

  /** The results of a file are numbered 1, 2, ... in row order. */
  lemma ValidateRowsNumbered(rows: seq<Row>, f: Formats)
    ensures forall i :: 0 <= i < |rows| ==> ValidateRows(rows, f)[i].row == i + 1
  {
  }

  /** With results numbered 1, 2, ..., the rejection lists the number of
      every invalid result and of no valid one. */
  lemma InvalidRowsListsEvery(rs: seq<RowResult>)
    requires forall i :: 0 <= i < |rs| ==> rs[i].row == i + 1
    ensures forall n :: n in RowNumbers(InvalidRows(rs)) <==> 1 <= n <= |rs| && rs[n - 1].InvalidRow?
  {
    InvalidRowsMembers(rs);
    var inv := InvalidRows(rs);
    forall n ensures n in RowNumbers(inv) <==> 1 <= n <= |rs| && rs[n - 1].InvalidRow? {
      if n in RowNumbers(inv) {
        var k :| 0 <= k < |inv| && RowNumbers(inv)[k] == n;
        assert inv[k] in rs;
      }
      if 1 <= n <= |rs| && rs[n - 1].InvalidRow? {
        assert rs[n - 1] in inv;
        var k :| 0 <= k < |inv| && inv[k] == rs[n - 1];
        assert RowNumbers(inv)[k] == n;
      }
    }
  }

  /** `validationResults.map(result => result.data)` once all are valid. */
  function DataOf(rs: seq<RowResult>): (r: seq<CsvRowValues>)
    requires forall i :: 0 <= i < |rs| ==> rs[i].ValidRow?
    ensures |r| == |rs|
    ensures forall i :: 0 <= i < |rs| ==> r[i] == rs[i].data
  {
    seq(|rs|, i requires 0 <= i < |rs| && rs[i].ValidRow? => rs[i].data)
  }

  // ------------------------------------------------- per-row mapping

  /** `cell as City`: the city the cell names. A cell naming no city, which
      validation rules out, is left to `Other`; the same holds for the
      casts below. */
  function AsCity(s: string): City {
    match s
    case "Chandigarh" => Chandigarh
    case "Mohali" => Mohali
    case "Zirakpur" => Zirakpur
    case "Panchkula" => Panchkula
    case _ => City.Other
  }

  function AsPropertyType(s: string): PropertyType {
    match s
    case "Apartment" => Apartment
    case "Villa" => Villa
    case "Plot" => Plot
    case "Office" => Office
    case _ => Retail
  }

  function AsPurpose(s: string): Purpose {
    if s == "Buy" then Buy else Rent
  }

  function AsSource(s: string): Source {
    match s
    case "Website" => Website
    case "Referral" => Referral
    case "WalkIn" => WalkIn
    case "Call" => Call
    case _ => Source.Other
  }

  function AsStatus(s: string): Status {
    match s
    case "New" => New
    case "Qualified" => Qualified
    case "Contacted" => Contacted
    case "Visited" => Visited
    case "Negotiation" => Negotiation
    case "Converted" => Converted
    case _ => Dropped
  }

  /** `row.status || "New"`. */
  function StatusCell(v: CsvRowValues): string {
    if v.status != "" then v.status else "New"
  }

  /** The casts a validated row relies on: each enumeration cell names a
      value of its enum once `Walk-in` is mapped. */
  predicate Castable(v: CsvRowValues) {
    && v.city in CityNames && v.propertyType in PropertyTypeNames && v.purpose in PurposeNames
    && MapSource(v.source) in SourceNames && StatusCell(v) in StatusNames
  }

  /** A row the CSV-row schema accepted can be cast. */
  lemma AcceptedRowCastable(r: Row, f: Formats)
    requires ParseCsvRow(r, f).Valid?
    ensures Castable(ParseCsvRow(r, f).value)
  {
    ParseCsvRowAccepts(r, f);
    CsvRowOutput(r, f);
    MapSourceCells(ParseCsvRow(r, f).value.source);
  }

  /** The members every object inherits from `Object.prototype`. Indexing
      the mapping object with one of these names finds a function (for
      `__proto__`, the prototype object itself): a truthy value that is not
      a BHK. */
  const InheritedNames: seq<string> := ["constructor", "toString", "toLocaleString", "valueOf",
    "hasOwnProperty", "isPrototypeOf", "propertyIsEnumerable", "__proto__",
    "__defineGetter__", "__defineSetter__", "__lookupGetter__", "__lookupSetter__"]

  /** What `bhkMapping[cell]` finds: one of the five own keys' values, an
      inherited member, or `undefined`. */
  datatype BhkLookup = Mapped(bhk: Bhk) | InheritedMember | Undefined

  /** The BHK mapping of a set cell. */
  function BhkMapping(s: string): BhkLookup {
    if s == "Studio" then Mapped(Studio)
    else if s == "1" then Mapped(One)
    else if s == "2" then Mapped(Two)
    else if s == "3" then Mapped(Three)
    else if s == "4" then Mapped(Four)
    else if s in InheritedNames then InheritedMember
    else Undefined
  }

  /** "Studio" and "1" to "4" map to a BHK; the names of inherited members
      find a non-BHK value; any other text, the enum's own names "One" to
      "Four" included, finds nothing. */
  lemma BhkMappingCells(s: string)
    ensures BhkMapping(s).Mapped? <==> s in ["Studio", "1", "2", "3", "4"]
    ensures BhkMapping(s).InheritedMember? <==> s in InheritedNames
    ensures BhkMapping(s).Undefined? <==> s !in ["Studio", "1", "2", "3", "4"] && s !in InheritedNames
    ensures s == "Studio" ==> BhkMapping(s) == Mapped(Studio)
    ensures s == "1" ==> BhkMapping(s) == Mapped(One)
    ensures s == "2" ==> BhkMapping(s) == Mapped(Two)
    ensures s == "3" ==> BhkMapping(s) == Mapped(Three)
    ensures s == "4" ==> BhkMapping(s) == Mapped(Four)
    ensures BhkMapping(s) != Mapped(One) || s == "1"
  {
  }

  /** `buyer.create` rejects a row whose BHK lookup found an inherited
      member: the value is not one of the enum's names. */
  predicate Storable(v: CsvRowValues) {
    !(IsSet(v.bhk) && BhkMapping(v.bhk.value).InheritedMember?)
  }

  /** The BHK stored for a storable row: null unless the cell is set and
      one of the five keys. */
  function MapBhk(bhk: Option<string>): Option<Bhk> {
    if IsSet(bhk) && BhkMapping(bhk.value).Mapped? then Some(BhkMapping(bhk.value).bhk) else None
  }

  /** The timeline stored for a row. */
  function MapTimeline(s: string): Timeline {
    if s == "0-3m" then ZeroToThreeMonths
    else if s == "3-6m" then ThreeToSixMonths
    else if s == ">6m" then MoreThanSixMonths
    else Exploring
  }

  /** The three short spellings map to their enum value, anything else to
      Exploring. */
  lemma MapTimelineCells(s: string)
    ensures MapTimeline(s) == Exploring <==> s !in ["0-3m", "3-6m", ">6m"]
    ensures s == "0-3m" ==> MapTimeline(s) == ZeroToThreeMonths
    ensures s == "3-6m" ==> MapTimeline(s) == ThreeToSixMonths
    ensures s == ">6m" ==> MapTimeline(s) == MoreThanSixMonths
  {
  }

  /** The source name stored for a row. */
  function MapSource(s: string): string {
    if s == "Walk-in" then "WalkIn" else s
  }

  /** "Walk-in" becomes "WalkIn", every other cell is kept, and every
      spelling the CSV-row schema accepts becomes a source name. */
  lemma MapSourceCells(s: string)
    ensures s in CsvSourceNames ==> MapSource(s) in SourceNames
    ensures s == "Walk-in" ==> MapSource(s) == "WalkIn"
    ensures s != "Walk-in" ==> MapSource(s) == s
  {
  }

  /** `|| null` on a `parseInt` result: NaN and 0 become null. */
  function BudgetOrNull(x: Option<JsInt>): Option<int> {
    if JsTruthy(x) then Some(x.value.value) else None
  }

  /** The buyer `tx.buyer.create` stores for one validated row under `id`. */
  function RowToBuyer(v: CsvRowValues, owner: string, id: nat): Buyer
  {
    Buyer(id, v.fullName, FilterOf(v.email), v.phone, AsCity(v.city),
      AsPropertyType(v.propertyType), MapBhk(v.bhk), AsPurpose(v.purpose),
      BudgetOrNull(v.budgetMin), BudgetOrNull(v.budgetMax), MapTimeline(v.timeline),
      AsSource(MapSource(v.source)), AsStatus(StatusCell(v)),
      FilterOf(v.notes), v.tags, owner)
  }

  /** Each enumeration of the stored buyer is the enum value its cell names
      (the source after mapping `Walk-in`, the status after defaulting to
      "New"), so the casts of a row the schema accepted are exact. */
  lemma RowToBuyerCasts(v: CsvRowValues, owner: string, id: nat)
    requires Castable(v)
    ensures var b := RowToBuyer(v, owner, id);
      && CityName(b.city) == v.city && PropertyTypeName(b.propertyType) == v.propertyType
      && PurposeName(b.purpose) == v.purpose && SourceName(b.source) == MapSource(v.source)
      && StatusName(b.status) == StatusCell(v)
  {
    CityCast(v.city);
    PropertyTypeCast(v.propertyType);
    PurposeCast(v.purpose);
    SourceCast(MapSource(v.source));
    StatusCast(StatusCell(v));
  }

  /** Each cast reads back as the name it was given. */
  lemma CityCast(s: string)
    requires s in CityNames
    ensures CityName(AsCity(s)) == s
  {
  }

  lemma PropertyTypeCast(s: string)
    requires s in PropertyTypeNames
    ensures PropertyTypeName(AsPropertyType(s)) == s
  {
  }

  lemma PurposeCast(s: string)
    requires s in PurposeNames
    ensures PurposeName(AsPurpose(s)) == s
  {
  }

  lemma SourceCast(s: string)
    requires s in SourceNames
    ensures SourceName(AsSource(s)) == s
  {
  }

  lemma StatusCast(s: string)
    requires s in StatusNames
    ensures StatusName(AsStatus(s)) == s
  {
  }

  /** The history entry written for a row's buyer. */
  function ImportEntry(id: nat, v: CsvRowValues, owner: string): HistoryEntry {
    HistoryEntry(id, owner, "created", Some("csv_import"), CsvFields(v))
  }

  /** One iteration of the transaction's loop: the row's BHK, timeline and
      source mapped, then its buyer and its history entry created. `ok` is
      false when `buyer.create` throws, which stores nothing. */
  method InsertRow(db: Database, row: CsvRowValues, uid: string) returns (ok: bool)
    requires db.Valid()
    modifies db
    ensures db.Valid()
    ensures ok <==> Storable(row)
    ensures !ok ==> unchanged(db)
    ensures ok ==> db.nextId == old(db.nextId) + 1
    ensures ok ==> db.buyers == old(db.buyers) + [RowToBuyer(row, uid, old(db.nextId))]
    ensures ok ==> db.history == old(db.history) + [ImportEntry(old(db.nextId), row, uid)]
  {
    var bhkValue: Option<Bhk> := None;
    if IsSet(row.bhk) {
      var found := BhkMapping(row.bhk.value);
      if found.InheritedMember? {
        return false;
      }
      if found.Mapped? {
        bhkValue := Some(found.bhk);
      }
    }
    var timelineValue: Timeline;
    if row.timeline == "0-3m" {
      timelineValue := ZeroToThreeMonths;
    } else if row.timeline == "3-6m" {
      timelineValue := ThreeToSixMonths;
    } else if row.timeline == ">6m" {
      timelineValue := MoreThanSixMonths;
    } else {
      timelineValue := Exploring;
    }
    var sourceValue := row.source;
    if sourceValue == "Walk-in" {
      sourceValue := "WalkIn";
    }
    assert sourceValue == MapSource(row.source);
    var buyer := db.CreateBuyer(Buyer(0, row.fullName, FilterOf(row.email), row.phone, AsCity(row.city),
      AsPropertyType(row.propertyType), bhkValue, AsPurpose(row.purpose),
      BudgetOrNull(row.budgetMin), BudgetOrNull(row.budgetMax), timelineValue,
      AsSource(sourceValue), AsStatus(StatusCell(row)),
      FilterOf(row.notes), row.tags, uid));
    db.CreateHistory(HistoryEntry(buyer.id, uid, "created", Some("csv_import"), CsvFields(row)));
    ok := true;
  }

  /** The buyers the import stores for the first `n` rows, in row order,
      under consecutive ids from `first`. */
  function ImportedPrefix(data: seq<CsvRowValues>, uid: string, first: nat, n: nat): (r: seq<Buyer>)
    requires n <= |data|
    ensures |r| == n
    decreases n
  {
    if n == 0 then [] else ImportedPrefix(data, uid, first, n - 1) + [RowToBuyer(data[n - 1], uid, first + n - 1)]
  }

  lemma ImportedPrefixStep(b0: seq<Buyer>, data: seq<CsvRowValues>, uid: string, first: nat, n: nat)
    requires n < |data|
    ensures b0 + ImportedPrefix(data, uid, first, n) + [RowToBuyer(data[n], uid, first + n)]
         == b0 + ImportedPrefix(data, uid, first, n + 1)
  {
  }

  /** The buyers the import stores for all rows. */
  function ImportedBuyers(data: seq<CsvRowValues>, uid: string, first: nat): (r: seq<Buyer>)
    ensures |r| == |data|
  {
    ImportedPrefix(data, uid, first, |data|)
  }

  lemma {:induction false} ImportedPrefixAt(data: seq<CsvRowValues>, uid: string, first: nat, n: nat)
    requires n <= |data|
    ensures forall j :: 0 <= j < n ==>
      ImportedPrefix(data, uid, first, n)[j] == RowToBuyer(data[j], uid, first + j)
    decreases n
  {
    if n > 0 {
      ImportedPrefixAt(data, uid, first, n - 1);
    }
  }

  /** The `j`-th stored buyer is row `j`'s buyer under id `first + j`. */
  lemma ImportedBuyersAt(data: seq<CsvRowValues>, uid: string, first: nat)
    ensures forall j :: 0 <= j < |data| ==>
      ImportedBuyers(data, uid, first)[j] == RowToBuyer(data[j], uid, first + j)
  {
    ImportedPrefixAt(data, uid, first, |data|);
  }

  /** The history entries written for the first `n` rows. */
  function ImportEntriesPrefix(data: seq<CsvRowValues>, uid: string, first: nat, n: nat): (r: seq<HistoryEntry>)
    requires n <= |data|
    ensures |r| == n
    decreases n
  {
    if n == 0 then [] else ImportEntriesPrefix(data, uid, first, n - 1) + [ImportEntry(first + n - 1, data[n - 1], uid)]
  }

  lemma ImportEntriesPrefixStep(h0: seq<HistoryEntry>, data: seq<CsvRowValues>, uid: string, first: nat, n: nat)
    requires n < |data|
    ensures h0 + ImportEntriesPrefix(data, uid, first, n) + [ImportEntry(first + n, data[n], uid)]
         == h0 + ImportEntriesPrefix(data, uid, first, n + 1)
  {
  }

  /** The history entries written alongside, one per row. */
  function ImportEntries(data: seq<CsvRowValues>, uid: string, first: nat): (r: seq<HistoryEntry>)
    ensures |r| == |data|
  {
    ImportEntriesPrefix(data, uid, first, |data|)
  }

  lemma {:induction false} ImportEntriesPrefixAt(data: seq<CsvRowValues>, uid: string, first: nat, n: nat)
    requires n <= |data|
    ensures forall j :: 0 <= j < n ==>
      ImportEntriesPrefix(data, uid, first, n)[j] == ImportEntry(first + j, data[j], uid)
    decreases n
  {
    if n > 0 {
      ImportEntriesPrefixAt(data, uid, first, n - 1);
    }
  }

  /** The `j`-th entry records row `j` under id `first + j`. */
  lemma ImportEntriesAt(data: seq<CsvRowValues>, uid: string, first: nat)
    ensures forall j :: 0 <= j < |data| ==>
      ImportEntries(data, uid, first)[j] == ImportEntry(first + j, data[j], uid)
  {
    ImportEntriesPrefixAt(data, uid, first, |data|);
  }

  /** The first `n` rows pass `buyer.create`. */
  predicate StorablePrefix(data: seq<CsvRowValues>, n: nat)
    requires n <= |data|
  {
    forall i :: 0 <= i < n ==> Storable(data[i])
  }

  /** Every row passes `buyer.create`. */
  predicate AllStorable(data: seq<CsvRowValues>) {
    StorablePrefix(data, |data|)
  }

  /** The storable prefix grows by a storable row and stops at a rejected
      one. */
  lemma StorablePrefixStep(data: seq<CsvRowValues>, n: nat)
    requires n < |data| && StorablePrefix(data, n)
    ensures Storable(data[n]) ==> StorablePrefix(data, n + 1)
    ensures !Storable(data[n]) ==> !AllStorable(data)
  {
  }

  /** Every valid result's row passes `buyer.create`. */
  predicate ResultsStorable(rs: seq<RowResult>) {
    forall i :: 0 <= i < |rs| && rs[i].ValidRow? ==> Storable(rs[i].data)
  }

  /** The transaction's callback: one buyer and one history entry per row,
      in order, until a row `buyer.create` rejects throws out of the loop,
      which `ok` false reports. */
  method InsertEach(db: Database, data: seq<CsvRowValues>, uid: string) returns (ok: bool, count: nat)
    requires db.Valid()
    modifies db
    ensures db.Valid()
    ensures ok <==> AllStorable(data)
    ensures ok ==> count == |data| && db.nextId == old(db.nextId) + |data|
    ensures ok ==> db.buyers == old(db.buyers) + ImportedBuyers(data, uid, old(db.nextId))
    ensures ok ==> db.history == old(db.history) + ImportEntries(data, uid, old(db.nextId))
  {
    ghost var n0 := db.nextId;
    ghost var b0 := db.buyers;
    ghost var h0 := db.history;
    ok, count := true, 0;
    while count < |data|
      invariant count <= |data|
      invariant StorablePrefix(data, count)
      invariant db.Valid()
      invariant db.nextId == n0 + count
      invariant db.buyers == b0 + ImportedPrefix(data, uid, n0, count)
      invariant db.history == h0 + ImportEntriesPrefix(data, uid, n0, count)
    {
      ok := InsertRow(db, data[count], uid);
      StorablePrefixStep(data, count);
      if !ok {
        return;
      }
      ImportedPrefixStep(b0, data, uid, n0, count);
      ImportEntriesPrefixStep(h0, data, uid, n0, count);
      count := count + 1;
    }
  }

  /** `prisma.$transaction` around the callback: every row's buyer and
      entry stored in order, or, when a row throws, the rollback leaves the
      store as it was. */
  method InsertRows(db: Database, data: seq<CsvRowValues>, uid: string) returns (ok: bool, count: nat)
    requires db.Valid()
    modifies db
    ensures db.Valid()
    ensures ok <==> AllStorable(data)
    ensures !ok ==> db.buyers == old(db.buyers) && db.history == old(db.history) && db.nextId == old(db.nextId)
    ensures ok ==> count == |data| && db.nextId == old(db.nextId) + |data|
    ensures ok ==> db.buyers == old(db.buyers) + ImportedBuyers(data, uid, old(db.nextId))
    ensures ok ==> db.history == old(db.history) + ImportEntries(data, uid, old(db.nextId))
  {
    var n0 := db.nextId;
    var b0 := db.buyers;
    var h0 := db.history;
    assert IdsBelow(b0, n0);
    ok, count := InsertEach(db, data, uid);
    if !ok {
      db.Rollback(b0, h0, n0);
      count := 0;
    }
  }

  /** A POST response: 401; 400 for a missing file, a file the parser
      rejected, more than `MaxRows` rows, or invalid rows (listed); the
      success message with the count; or 500 when the transaction threw. */
  datatype ImportResponse =
    | ImportUnauthorized
    | FileRequired
    | InvalidFormat
    | TooManyRows
    | InvalidData(invalidRows: seq<RowResult>)
    | Imported(message: string, count: nat)
    | ImportFailed

  function ImportStatus(r: ImportResponse): int {
    match r
    case ImportUnauthorized => 401
    case Imported(_, _) => 200
    case ImportFailed => 500
    case _ => 400
  }

  function ImportedMessage(n: nat): string {
    "Successfully imported " + NatToString(n) + " buyers"
  }

  /** `POST /api/buyers/csv`: 401, then the file checks, then the row cap
      (exactly `MaxRows` rows pass), then validation of every row; any
      invalid row rejects the whole file and nothing is stored; otherwise
      every row is stored with its history entry, unless a row's BHK cell
      names an inherited member, which fails the transaction with 500 and
      stores nothing. */
  method ImportCsv(caller: Caller, db: Database, upload: Upload, f: Formats) returns (r: ImportResponse)
    requires db.Valid()
    modifies db
    ensures db.Valid()
    ensures !HasUserId(caller) ==> r == ImportUnauthorized
    ensures HasUserId(caller) && upload.NoFile? ==> r == FileRequired
    ensures HasUserId(caller) && upload.Unparsable? ==> r == InvalidFormat
    ensures HasUserId(caller) && upload.Rows? && |upload.rows| > MaxRows ==> r == TooManyRows
    ensures HasUserId(caller) && upload.Rows? && |upload.rows| <= MaxRows ==>
      var results := ValidateRows(upload.rows, f);
      && (InvalidRows(results) != [] ==> r == InvalidData(InvalidRows(results)))
      && (InvalidRows(results) == [] && ResultsStorable(results) ==>
            r == Imported(ImportedMessage(|upload.rows|), |upload.rows|))
      && (InvalidRows(results) == [] && !ResultsStorable(results) ==> r == ImportFailed)
    ensures !r.Imported? ==> db.buyers == old(db.buyers) && db.history == old(db.history) && db.nextId == old(db.nextId)
    ensures r.Imported? ==>
      var results := ValidateRows(upload.rows, f);
      && (forall i :: 0 <= i < |results| ==> results[i].ValidRow?)
      && db.buyers == old(db.buyers) + ImportedBuyers(DataOf(results), caller.userId.value, old(db.nextId))
      && db.history == old(db.history) + ImportEntries(DataOf(results), caller.userId.value, old(db.nextId))
  {
    if !HasUserId(caller) {
      return ImportUnauthorized;
    }
    var uid := caller.userId.value;
    if upload.NoFile? {
      return FileRequired;
    }
    if upload.Unparsable? {
      return InvalidFormat;
    }
    var rows := upload.rows;
    if |rows| > MaxRows {
      return TooManyRows;
    }
    var results := ValidateRows(rows, f);
    var invalid := InvalidRows(results);
    if invalid != [] {
      return InvalidData(invalid);
    }
    InvalidRowsEmpty(results);
    var data := DataOf(results);
    assert AllStorable(data) <==> ResultsStorable(results);
    var ok, count := InsertRows(db, data, uid);
    if !ok {
      return ImportFailed;
    }
    r := Imported(ImportedMessage(count), count);
  }

  // ---------------------------------------------------------- export

  /** The export columns, in the order of the flattened record. */
  const ExportColumns: seq<string> := ["fullName", "email", "phone", "city", "propertyType", "bhk", "purpose",
    "budgetMin", "budgetMax", "timeline", "source", "notes", "tags", "status"]

  function OrEmpty(x: Option<string>): string {
    if x.Some? then x.value else ""
  }

  /** `n?.toString() || ""`. */
  function NumberCell(x: Option<int>): string {
    if x.Some? then IntToString(x.value) else ""
  }

  /** A buyer flattened for export: nulls become "", enums their names,
      numbers their decimal text. */
  function ExportRow(b: Buyer): seq<string> {
    [b.fullName, OrEmpty(b.email), b.phone, CityName(b.city), PropertyTypeName(b.propertyType),
     if b.bhk.Some? then BhkName(b.bhk.value) else "", PurposeName(b.purpose),
     NumberCell(b.budgetMin), NumberCell(b.budgetMax), TimelineName(b.timeline), SourceName(b.source),
     OrEmpty(b.notes), b.tags, StatusName(b.status)]
  }

  /** The flattened record has one cell per column; a null email, BHK,
      budget or notes is exported as "", a present one as its text. */
  lemma ExportRowCells(b: Buyer)
    ensures |ExportRow(b)| == |ExportColumns| == 14
    ensures ExportRow(b)[0] == b.fullName && ExportRow(b)[2] == b.phone && ExportRow(b)[12] == b.tags
    ensures b.email.None? ==> ExportRow(b)[1] == ""
    ensures b.email.Some? ==> ExportRow(b)[1] == b.email.value
    ensures b.bhk.None? <==> ExportRow(b)[5] == ""
    ensures b.budgetMin.None? <==> ExportRow(b)[7] == ""
    ensures b.budgetMax.None? <==> ExportRow(b)[8] == ""
    ensures b.notes.None? ==> ExportRow(b)[11] == ""
    ensures b.notes.Some? ==> ExportRow(b)[11] == b.notes.value
    ensures ExportRow(b)[9] in TimelineNames && ExportRow(b)[13] in StatusNames
  {
    if b.bhk.Some? {
      assert BhkName(b.bhk.value) in BhkNames;
    }
  }

  /** An exported budget that is a safe integer reads back, through
      `parseInt`, as the stored number. */
  lemma ExportBudgetsReadBack(b: Buyer)
    requires b.budgetMin.Some? ==> -MaxSafeInteger <= b.budgetMin.value <= MaxSafeInteger
    requires b.budgetMax.Some? ==> -MaxSafeInteger <= b.budgetMax.value <= MaxSafeInteger
    ensures b.budgetMin.Some? ==> ParseInt(ExportRow(b)[7]) == IntVal(b.budgetMin.value)
    ensures b.budgetMax.Some? ==> ParseInt(ExportRow(b)[8]) == IntVal(b.budgetMax.value)
  {
    var row := ExportRow(b);
    assert row[7] == NumberCell(b.budgetMin) && row[8] == NumberCell(b.budgetMax);
    if b.budgetMin.Some? {
      ParseIntToString(b.budgetMin.value);
    }
    if b.budgetMax.Some? {
      ParseIntToString(b.budgetMax.value);
    }
  }

  /** `replace(/"/g, '""')`: every double quote doubled. */
  function DoubleQuotes(s: string): string {
    if |s| == 0 then ""
    else (if s[0] == '"' then "\"\"" else [s[0]]) + DoubleQuotes(s[1..])
  }

  /** A cell: the value between double quotes, inner quotes doubled. */
  function Quote(s: string): string {
    "\"" + DoubleQuotes(s) + "\""
  }

  /** The reading of an escaped field body that section 2 of RFC 4180
      prescribes: each `""` stands for one `"`. */
  function CollapseQuotes(t: string): string {
    if |t| == 0 then ""
    else if |t| >= 2 && t[0] == '"' && t[1] == '"' then "\"" + CollapseQuotes(t[2..])
    else [t[0]] + CollapseQuotes(t[1..])
  }

  /** A field body in which double quotes only occur in adjacent pairs. */
  predicate EscapedBody(t: string)
    decreases |t|
  {
    if |t| == 0 then true
    else if t[0] == '"' then |t| >= 2 && t[1] == '"' && EscapedBody(t[2..])
    else EscapedBody(t[1..])
  }

  lemma {:induction false} DoubleQuotesRoundTrip(s: string)
    ensures EscapedBody(DoubleQuotes(s))
    ensures CollapseQuotes(DoubleQuotes(s)) == s
  {
    if |s| > 0 {
      DoubleQuotesRoundTrip(s[1..]);
      var rest := DoubleQuotes(s[1..]);
      if s[0] == '"' {
        assert DoubleQuotes(s) == "\"\"" + rest;
        assert (("\"\"" + rest)[2..]) == rest;
      } else {
        assert DoubleQuotes(s) == [s[0]] + rest;
        assert ([s[0]] + rest)[1..] == rest;
      }
      assert s == [s[0]] + s[1..];
    }
  }

  /** A quoted cell is a well-formed escaped field: it is enclosed in double
      quotes, inner quotes come in pairs, and stripping the enclosing quotes
      and collapsing the pairs gives back the value. */
  lemma QuoteRoundTrip(s: string)
    ensures var q := Quote(s);
      && |q| >= 2 && q[0] == '"' && q[|q| - 1] == '"'
      && EscapedBody(q[1..|q| - 1])
      && CollapseQuotes(q[1..|q| - 1]) == s
  {
    DoubleQuotesRoundTrip(s);
    var q := Quote(s);
    assert q[1..|q| - 1] == DoubleQuotes(s);
  }

  /** Doubling quotes adds no character other than `"`. */
  lemma {:induction false} DoubleQuotesKeepsOut(s: string, c: char)
    requires c != '"' && c !in s
    ensures c !in DoubleQuotes(s)
  {
    if |s| > 0 {
      DoubleQuotesKeepsOut(s[1..], c);
    }
  }

  lemma {:induction false} JoinKeepsOut(parts: seq<string>, d: char, c: char)
    requires c != d && forall i :: 0 <= i < |parts| ==> c !in parts[i]
    ensures c !in Join(parts, d)
  {
    if |parts| > 1 {
      JoinKeepsOut(parts[1..], d, c);
    }
  }

  /** The column names hold no line break, so neither does the header. */
  lemma HeaderSingleLine()
    ensures '\n' !in Join(ExportColumns, ',')
  {
    forall i | 0 <= i < |ExportColumns| ensures '\n' !in ExportColumns[i] {
    }
    JoinKeepsOut(ExportColumns, ',', '\n');
  }

  /** One data line: the quoted cells joined by ",". */
  function ExportLine(b: Buyer): string {
    var cells := ExportRow(b);
    Join(seq(|cells|, i requires 0 <= i < |cells| => Quote(cells[i])), ',')
  }

  /** The header: the column names, unquoted, or "" when there are no rows. */
  function ExportHeader(bs: seq<Buyer>): string {
    if |bs| == 0 then "" else Join(ExportColumns, ',')
  }

  /** The lines of the export: the header, then one line per buyer. */
  function ExportParts(bs: seq<Buyer>): seq<string> {
    [ExportHeader(bs)] + ExportBody(bs)
  }

  function ExportBody(bs: seq<Buyer>): (r: seq<string>)
    ensures |r| == |bs|
  {
    seq(|bs|, i requires 0 <= i < |bs| => ExportLine(bs[i]))
  }

  /** The CSV text: the header line, then one line per buyer, joined by "\n". */
  function ExportContent(bs: seq<Buyer>): string {
    Join(ExportParts(bs), '\n')
  }

  /** No text field of the buyer holds a line break. */
  predicate SingleLine(b: Buyer) {
    && '\n' !in b.fullName && '\n' !in b.phone && '\n' !in b.tags
    && (b.email.Some? ==> '\n' !in b.email.value) && (b.notes.Some? ==> '\n' !in b.notes.value)
  }

  lemma NumberCellSingleLine(x: Option<int>)
    ensures '\n' !in NumberCell(x)
  {
    if x.Some? && x.value < 0 {
      assert NumberCell(x) == "-" + NatToString(-x.value);
    }
  }

  /** Enum names hold no line break. */
  lemma EnumCellsSingleLine(b: Buyer)
    ensures '\n' !in CityName(b.city) && '\n' !in PropertyTypeName(b.propertyType)
    ensures b.bhk.Some? ==> '\n' !in BhkName(b.bhk.value)
    ensures '\n' !in PurposeName(b.purpose) && '\n' !in TimelineName(b.timeline)
    ensures '\n' !in SourceName(b.source) && '\n' !in StatusName(b.status)
  {
    CityNameSingleLine(b.city);
    PropertyTypeNameSingleLine(b.propertyType);
    if b.bhk.Some? {
      BhkNameSingleLine(b.bhk.value);
    }
    TimelineNameSingleLine(b.timeline);
    SourceNameSingleLine(b.source);
    StatusNameSingleLine(b.status);
  }

  lemma CityNameSingleLine(c: City)
    ensures '\n' !in CityName(c)
  {
  }

  lemma PropertyTypeNameSingleLine(p: PropertyType)
    ensures '\n' !in PropertyTypeName(p)
  {
  }

  lemma BhkNameSingleLine(x: Bhk)
    ensures '\n' !in BhkName(x)
  {
  }

  lemma TimelineNameSingleLine(t: Timeline)
    ensures '\n' !in TimelineName(t)
  {
  }

  lemma SourceNameSingleLine(s: Source)
    ensures '\n' !in SourceName(s)
  {
  }

  lemma StatusNameSingleLine(s: Status)
    ensures '\n' !in StatusName(s)
  {
  }

  lemma CellsSingleLine(b: Buyer)
    requires SingleLine(b)
    ensures forall i :: 0 <= i < |ExportRow(b)| ==> '\n' !in ExportRow(b)[i]
  {
    EnumCellsSingleLine(b);
    NumberCellSingleLine(b.budgetMin);
    NumberCellSingleLine(b.budgetMax);
  }

  lemma LineSingle(b: Buyer)
    requires SingleLine(b)
    ensures '\n' !in ExportLine(b)
  {
    var cells := ExportRow(b);
    CellsSingleLine(b);
    var quoted := seq(|cells|, i requires 0 <= i < |cells| => Quote(cells[i]));
    forall i | 0 <= i < |cells| ensures '\n' !in quoted[i] {
      DoubleQuotesKeepsOut(cells[i], '\n');
    }
    JoinKeepsOut(quoted, ',', '\n');
  }

  lemma BodySingleLine(bs: seq<Buyer>)
    requires forall i :: 0 <= i < |bs| ==> SingleLine(bs[i])
    ensures forall i :: 0 <= i < |ExportBody(bs)| ==> '\n' !in ExportBody(bs)[i]
  {
    forall i | 0 <= i < |bs| ensures '\n' !in ExportBody(bs)[i] {
      LineSingle(bs[i]);
    }
  }

  lemma PartsSingleLine(bs: seq<Buyer>)
    requires forall i :: 0 <= i < |bs| ==> SingleLine(bs[i])
    ensures forall i :: 0 <= i < |ExportParts(bs)| ==> '\n' !in ExportParts(bs)[i]
  {
    BodySingleLine(bs);
    if |bs| > 0 {
      HeaderSingleLine();
    }
    var parts := ExportParts(bs);
    var body := ExportBody(bs);
    forall i | 0 <= i < |parts| ensures '\n' !in parts[i] {
      if i > 0 {
        assert parts[i] == body[i - 1];
      }
    }
  }

  /** When no buyer's text holds a line break, splitting the export on "\n"
      gives the header and then exactly one line per buyer, in order; with
      no buyers the export is empty. */
  lemma ExportLines(bs: seq<Buyer>)
    requires forall i :: 0 <= i < |bs| ==> SingleLine(bs[i])
    ensures |bs| == 0 ==> ExportContent(bs) == ""
    ensures var lines := Split(ExportContent(bs), '\n');
      && |lines| == |bs| + 1
      && lines[0] == ExportHeader(bs)
      && forall i :: 0 <= i < |bs| ==> lines[i + 1] == ExportLine(bs[i])
  {
    PartsSingleLine(bs);
    SplitJoin(ExportParts(bs), '\n');
    assert ExportParts(bs) == [ExportHeader(bs)] + ExportBody(bs);
  }

  /** Export then import is not a round trip: an exported BHK of Two is the
      cell "Two", which the import maps to null. */
  lemma ExportedBhkLost(b: Buyer)
    requires b.bhk == Some(Two)
    ensures MapBhk(Some(ExportRow(b)[5])) == None
  {
  }

  /** A BHK cell naming an inherited member, `toString` say, passes the CSV
      schema's BHK rule, yet the row cannot be stored. */
  lemma InheritedBhkCell(v: CsvRowValues)
    requires IsSet(v.bhk) && v.bhk.value in InheritedNames
    ensures CsvBhkRefinement(v.propertyType, v.bhk) == []
    ensures !Storable(v)
  {
  }

  /** The object the export hands to the query schema: no page or limit,
      each filter when set, sort "updatedAt" and "desc" unless given. */
  function ExportQueryInput(ps: Pairs): QueryInput {
    var sortOrder := GetParam(ps, "sortOrder");
    QueryInput(None, None,
      FilterOf(GetParam(ps, "search")),
      FilterOf(GetParam(ps, "city")),
      FilterOf(GetParam(ps, "propertyType")),
      FilterOf(GetParam(ps, "status")),
      FilterOf(GetParam(ps, "timeline")),
      Some(SortColumn(GetParam(ps, "sortBy"))),
      Some(if IsSet(sortOrder) then sortOrder.value else "desc"))
  }

  /** A GET response: 401, 500 (a rejected query, or a sort column the
      database refuses), or the CSV text. */
  datatype ExportResponse = ExportUnauthorized | ExportFailed | Exported(csv: string)

  /** `GET /api/buyers/csv`. `fetch` stands for `buyer.findMany` with the
      filter and the requested order, and `orderable` says which columns its
      `orderBy` accepts, the others making it throw. The text filters are
      case-sensitive here. */
  method ExportCsv(caller: Caller, ps: Pairs, fetch: (Where, string, SortOrder) -> seq<Buyer>,
                   orderable: string -> bool)
    returns (r: ExportResponse)
    ensures !HasUserId(caller) <==> r.ExportUnauthorized?
    ensures r.ExportFailed? <==>
      && HasUserId(caller)
      && (ParseQuery(ExportQueryInput(ps)).Invalid? || !orderable(SortColumn(GetParam(ps, "sortBy"))))
    ensures r.Exported? ==>
      var q := ParseQuery(ExportQueryInput(ps)).value;
      exists w ::
        && WhereFor(w, q.search, NameOf(q.city, CityName), NameOf(q.propertyType, PropertyTypeName),
             NameOf(q.status, StatusName), NameOf(q.timeline, TimelineName), false)
        && r.csv == ExportContent(fetch(w, q.sortBy, q.sortOrder))
  {
    if !HasUserId(caller) {
      return ExportUnauthorized;
    }
    var parsed := ParseQuery(ExportQueryInput(ps));
    if parsed.Invalid? {
      return ExportFailed;
    }
    var q := parsed.value;
    ParseQueryAccepts(ExportQueryInput(ps));
    if !orderable(q.sortBy) {
      return ExportFailed;
    }
    var where := BuildWhere(q.search, NameOf(q.city, CityName), NameOf(q.propertyType, PropertyTypeName),
      NameOf(q.status, StatusName), NameOf(q.timeline, TimelineName), false);
    var buyers := fetch(where, q.sortBy, q.sortOrder);
    r := Exported(ExportContent(buyers));
  }
}
