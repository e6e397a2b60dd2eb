/** The schema module: the buyer form schema with its two refinements and the
    tag normalisation, the CSV-row schema with its alternate spellings, and
    the list-query schema with its defaults.

    Zod's evaluation order is kept: the fields are checked in declaration
    order and every issue is collected; a wrong JSON type, a missing required
    field or a bad enum value aborts the object, so the refinements do not
    run; a failed length, integer, positivity, format or string-refine check
    only marks it dirty, and the refinements still run, each independently.
    The record is accepted when no issue at all was collected. */
module Validation {
  import opened Strings
  import opened Domain

  /** Zod's built-in `email()` and `uuid()` format checks, left abstract. */
  datatype Formats = Formats(isEmail: string -> bool, isUuid: string -> bool)

  /** One field after its schema ran: the value the refinements see and the
      issues raised, or an abort. */
  datatype Checked<T> = Checked(value: T, issues: seq<Issue>) | Aborted(issues: seq<Issue>)

  /** The outcome of `schema.parse`: the output, or a ZodError with its issues. */
  datatype Parsed<T> = Valid(value: T) | Invalid(issues: seq<Issue>)

  /** A JSON object body: its keys, undefined when missing. */
  type Body = map<string, Value>

  function Get(b: Body, key: string): Option<Value> {
    if key in b then Some(b[key]) else None
  }

  // ---------------------------------------------------------- messages

  const BhkRequiredMessage := "BHK is required for Apartment and Villa property types"
  const BudgetOrderMessage := "Maximum budget must be greater than or equal to minimum budget"

  function AtLeast(n: nat): string { "String must contain at least " + NatToString(n) + " character(s)" }
  function AtMost(n: nat): string { "String must contain at most " + NatToString(n) + " character(s)" }

  /** Zod's `invalid_type` message: "Required" for a missing value. */
  function TypeMessage(expected: string, v: Option<Value>): string {
    if v.None? then "Required" else "Expected " + expected + ", received " + TypeName(v.value)
  }

  /** `'A' | 'B' | ...`, how zod lists the options of an enum. */
  function Options(names: seq<string>): string {
    if |names| == 0 then ""
    else if |names| == 1 then "'" + names[0] + "'"
    else "'" + names[0] + "' | " + Options(names[1..])
  }

  // ------------------------------------------------------ field checks

  /** A field that passed its schema with no issue at all. */
  predicate Clean<T>(c: Checked<T>) {
    c.Checked? && c.issues == []
  }

  /** `z.string()`, possibly `.optional()` / `.nullable()`: `Some(s)` for a
      string, `None` for an allowed undefined or null. */
  function Text(path: string, v: Option<Value>, optional: bool, nullable: bool): (r: Checked<Option<string>>)
    ensures r.Checked? <==> (v.None? && optional) || (v == Some(Null) && nullable) || (v.Some? && v.value.Str?)
    ensures r.Checked? ==> r.issues == [] && (r.value.Some? <==> v.Some? && v.value.Str?)
    ensures r.Checked? && r.value.Some? ==> v == Some(Str(r.value.value))
    ensures r.Aborted? ==> r.issues == [Issue(path, TypeMessage("string", v))]
  {
    match v
    case None => if optional then Checked(None, []) else Aborted([Issue(path, TypeMessage("string", v))])
    case Some(Str(s)) => Checked(Some(s), [])
    case Some(Null) => if nullable then Checked(None, []) else Aborted([Issue(path, TypeMessage("string", v))])
    case Some(_) => Aborted([Issue(path, TypeMessage("string", v))])
  }

  /** `.min(lo).max(hi)` on a string, with the messages given. zod compares
      JavaScript's `length`, in UTF-16 code units. */
  function Length(path: string, s: string, lo: nat, loMsg: string, hi: nat, hiMsg: string): (r: seq<Issue>)
    ensures r == [] <==> lo <= JsLength(s) <= hi
    ensures forall i :: 0 <= i < |r| ==> r[i].path == path
  {
    (if JsLength(s) < lo then [Issue(path, loMsg)] else []) + (if JsLength(s) > hi then [Issue(path, hiMsg)] else [])
  }

  /** The value is a string whose JavaScript length lies in `lo..hi`. */
  predicate LengthIn(v: Option<Value>, lo: nat, hi: nat) {
    v.Some? && v.value.Str? && lo <= JsLength(v.value.s) <= hi
  }

  /** A required string with length bounds. */
  function BoundedText(path: string, v: Option<Value>, lo: nat, loMsg: string, hi: nat, hiMsg: string): (r: Checked<string>)
    ensures r.Checked? <==> v.Some? && v.value.Str?
    ensures r.Checked? ==> v == Some(Str(r.value))
    ensures Clean(r) <==> LengthIn(v, lo, hi)
    ensures forall i :: 0 <= i < |r.issues| ==> r.issues[i].path == path
  {
    match Text(path, v, false, false)
    case Aborted(e) => Aborted(e)
    case Checked(s, _) => Checked(s.value, Length(path, s.value, lo, loMsg, hi, hiMsg))
  }

  /** A single character above U+FFFF is two code units long, so as a name
      it meets `.min(2)`; 600 of them exceed `.max(1000)`. */
  lemma AstralTextLengths()
    ensures LengthIn(Some(Str("\U{1F600}")), 2, 80)
    ensures !OptionalMax(Some(Str(seq(600, _ => '\U{1F600}'))), 1000)
  {
    AstralLength();
    AstralRun(600);
  }

  /** A run of `n` characters above U+FFFF is `2 * n` code units long. */
  lemma {:induction false} AstralRun(n: nat)
    ensures JsLength(seq(n, _ => '\U{1F600}')) == 2 * n
  {
    if n > 0 {
      var run := seq(n, _ => '\U{1F600}');
      assert run[1..] == seq(n - 1, _ => '\U{1F600}');
      AstralRun(n - 1);
    }
  }

  /** The value is absent (or null, where allowed) or a string `ok` accepts. */
  predicate OptionalFormat(v: Option<Value>, nullable: bool, ok: string -> bool) {
    v.None? || (nullable && v == Some(Null)) || (v.value.Str? && ok(v.value.s))
  }

  /** An optional string with a format check (`.uuid()`, `.email()`). */
  function FormatText(path: string, v: Option<Value>, nullable: bool, ok: string -> bool, message: string): (r: Checked<Option<string>>)
    ensures r.Checked? ==> (r.value.Some? <==> v.Some? && v.value.Str?)
    ensures r.Checked? && r.value.Some? ==> v == Some(Str(r.value.value))
    ensures Clean(r) <==> OptionalFormat(v, nullable, ok)
    ensures forall i :: 0 <= i < |r.issues| ==> r.issues[i].path == path
  {
    match Text(path, v, true, nullable)
    case Aborted(e) => Aborted(e)
    case Checked(s, _) => Checked(s, if s.Some? && !ok(s.value) then [Issue(path, message)] else [])
  }

  /** The value is absent, null or a string of at most `max` UTF-16 code
      units. */
  predicate OptionalMax(v: Option<Value>, max: nat) {
    v.None? || v == Some(Null) || (v.value.Str? && JsLength(v.value.s) <= max)
  }

  /** An optional, nullable string with `.max(max)`. */
  function LimitedText(path: string, v: Option<Value>, max: nat, message: string): (r: Checked<Option<string>>)
    ensures r.Checked? ==> (r.value.Some? <==> v.Some? && v.value.Str?)
    ensures r.Checked? && r.value.Some? ==> v == Some(Str(r.value.value))
    ensures Clean(r) <==> OptionalMax(v, max)
    ensures forall i :: 0 <= i < |r.issues| ==> r.issues[i].path == path
  {
    match Text(path, v, true, true)
    case Aborted(e) => Aborted(e)
    case Checked(s, _) => Checked(s, if s.Some? && JsLength(s.value) > max then [Issue(path, message)] else [])
  }

  /** The value is a string among `names`. */
  predicate StrIn(v: Option<Value>, names: seq<string>) {
    v.Some? && v.value.Str? && v.value.s in names
  }

  /** A required enum: `names` are the accepted spellings and `of` reads one. */
  function Enum<T>(path: string, v: Option<Value>, names: seq<string>, of: string -> Option<T>): (r: Checked<T>)
    requires forall s :: of(s).Some? <==> s in names
    ensures r.Checked? <==> StrIn(v, names)
    ensures r.Checked? ==> r.issues == [] && of(v.value.s) == Some(r.value)
    ensures r.Aborted? ==> |r.issues| == 1 && r.issues[0].path == path
  {
    match v
    case Some(Str(s)) =>
      (match of(s)
       case Some(e) => Checked(e, [])
       case None => Aborted([Issue(path, "Invalid enum value. Expected " + Options(names) + ", received '" + s + "'")]))
    case _ => Aborted([Issue(path, TypeMessage(Options(names), v))])
  }

  /** `z.string().refine(val => names.includes(val), {message})`: any string
      passes the type, a string outside `names` only makes the record dirty. */
  function OneOf(path: string, v: Option<Value>, names: seq<string>, message: string): (r: Checked<string>)
    ensures r.Checked? <==> v.Some? && v.value.Str?
    ensures r.Checked? ==> v == Some(Str(r.value))
    ensures Clean(r) <==> StrIn(v, names)
    ensures forall i :: 0 <= i < |r.issues| ==> r.issues[i].path == path
  {
    match Text(path, v, false, false)
    case Aborted(e) => Aborted(e)
    case Checked(s, _) => Checked(s.value, if s.value in names then [] else [Issue(path, message)])
  }

  predicate IsPositiveInt(n: real) {
    n.Floor as real == n && n > 0.0
  }

  /** The value is absent, null or a positive whole number. */
  predicate OptionalBudget(v: Option<Value>) {
    v.None? || v == Some(Null) || (v.value.Num? && IsPositiveInt(v.value.n))
  }

  /** `z.number().int().positive().optional().nullable()`: the number the
      refinements see, or `None` for undefined or null. */
  function Budget(path: string, v: Option<Value>): (r: Checked<Option<real>>)
    ensures r.Checked? <==> v.None? || v == Some(Null) || v.value.Num?
    ensures r.Checked? ==> (r.value.Some? <==> v.Some? && v.value.Num?)
    ensures r.Checked? && r.value.Some? ==> v == Some(Num(r.value.value))
    ensures Clean(r) <==> OptionalBudget(v)
    ensures forall i :: 0 <= i < |r.issues| ==> r.issues[i].path == path
  {
    match v
    case None => Checked(None, [])
    case Some(Null) => Checked(None, [])
    case Some(Num(n)) =>
      Checked(Some(n),
        (if n.Floor as real == n then [] else [Issue(path, "Expected integer, received float")])
        + (if n > 0.0 then [] else [Issue(path, "Number must be greater than 0")]))
    case Some(_) => Aborted([Issue(path, TypeMessage("number", v))])
  }

  // ------------------------------------------------------------- tags

  /** The form schema's `tags` transform: split on ",", drop empty pieces,
      trim each remaining piece, join with ",". A missing or empty value
      gives "". Empty pieces are dropped BEFORE trimming, so a
      whitespace-only piece survives as an empty piece. */
  function NormalizeTags(val: string): string {
    if val == "" then "" else Join(TrimAll(NonEmpty(Split(val, ','))), ',')
  }

  /** The tags contract: "" for empty input and for input with no
      non-empty comma piece (",,," say); otherwise the pieces of the output
      are exactly the raw non-empty comma pieces, each trimmed, in order and
      with duplicates kept, and none has surrounding whitespace. */
  lemma NormalizeTagsPieces(val: string)
    ensures val == "" ==> NormalizeTags(val) == ""
    ensures var pieces := TrimAll(NonEmpty(Split(val, ',')));
      val != "" && |pieces| > 0 ==> Split(NormalizeTags(val), ',') == pieces
    ensures val != "" && |TrimAll(NonEmpty(Split(val, ',')))| == 0 ==> NormalizeTags(val) == ""
    ensures forall p :: p in Split(NormalizeTags(val), ',') ==>
      p == [] || (!IsJsWhitespace(p[0]) && !IsJsWhitespace(p[|p| - 1]))
  {
    var pieces := TrimAll(NonEmpty(Split(val, ',')));
    NormalizedSplit(val, pieces);
    TrimmedPieces(NonEmpty(Split(val, ',')), pieces, Split(NormalizeTags(val), ','));
  }

  /** Every piece of a trimmed list, or of [""], is free of surrounding
      whitespace. */
  lemma TrimmedPieces(raw: seq<string>, pieces: seq<string>, out: seq<string>)
    requires pieces == TrimAll(raw)
    requires out == pieces || out == [""]
    ensures forall p :: p in out ==> p == [] || (!IsJsWhitespace(p[0]) && !IsJsWhitespace(p[|p| - 1]))
  {
    forall i | 0 <= i < |out|
      ensures out[i] == [] || (!IsJsWhitespace(out[i][0]) && !IsJsWhitespace(out[i][|out[i]| - 1]))
    {
      if out == pieces {
        assert out[i] == Trim(raw[i]);
      }
    }
  }

  /** The comma pieces of the normalised tags: the trimmed pieces, or the
      single empty piece of "". */
  lemma NormalizedSplit(val: string, pieces: seq<string>)
    requires pieces == TrimAll(NonEmpty(Split(val, ',')))
    ensures val == "" || |pieces| == 0 ==> NormalizeTags(val) == "" && Split(NormalizeTags(val), ',') == [""]
    ensures val != "" && |pieces| > 0 ==> Split(NormalizeTags(val), ',') == pieces
  {
    if val != "" && |pieces| > 0 {
      TagPiecesCommaFree(val, pieces);
      SplitJoin(pieces, ',');
    } else {
      assert NormalizeTags(val) == "";
      assert Split("", ',') == [""];
    }
  }

  /** Trimming the comma pieces cannot bring a comma back. */
  lemma TagPiecesCommaFree(val: string, pieces: seq<string>)
    requires pieces == TrimAll(NonEmpty(Split(val, ',')))
    ensures forall i :: 0 <= i < |pieces| ==> ',' !in pieces[i]
  {
    forall i | 0 <= i < |pieces| ensures ',' !in pieces[i] {
      var raw := NonEmpty(Split(val, ','))[i];
      assert raw in Split(val, ',');
      assert pieces[i] == Trim(raw);
      if ',' in pieces[i] { TrimSubset(raw, ','); }
    }
  }

  /** Unlike what one might expect of a normalisation, the transform is not
      idempotent: a whitespace-only piece becomes an empty piece the first
      time and is dropped the second time. */
  lemma NormalizeTagsNotIdempotent()
    ensures NormalizeTags("a, ,b") == "a,,b"
    ensures NormalizeTags(NormalizeTags("a, ,b")) == "a,b"
  {
    NormalizeFirstPass();
    NormalizeSecondPass();
  }

  lemma NormalizeFirstPass()
    ensures NormalizeTags("a, ,b") == "a,,b"
  {
    SplitAroundMiddle(" ");
    assert "a, ,b" == "a" + [','] + " " + [','] + "b";
    NonEmptyFirst();
    TrimFirst();
    JoinFirst();
  }

  lemma NonEmptyFirst()
    ensures NonEmpty(["a", " ", "b"]) == ["a", " ", "b"]
  {
    NonEmptyKeepsAll(["a", " ", "b"]);
  }

  lemma JoinFirst()
    ensures Join(["a", "", "b"], ',') == "a,,b"
  {
    assert Join(["b"], ',') == "b";
    assert Join(["", "b"], ',') == ",b";
  }

  /** `"a,<mid>,b".split(",")` for a separator-free middle piece. */
  lemma SplitAroundMiddle(mid: string)
    requires ',' !in mid
    ensures Split("a" + [','] + mid + [','] + "b", ',') == ["a", mid, "b"]
  {
    SplitNoSeparator("b", ',');
    SplitPrefix(mid, "b", ',');
    SplitPrefix("a", mid + [','] + "b", ',');
    assert "a" + [','] + mid + [','] + "b" == "a" + [','] + (mid + [','] + "b");
  }

  lemma TrimFirst()
    ensures TrimAll(["a", " ", "b"]) == ["a", "", "b"]
  {
    var r := TrimAll(["a", " ", "b"]);
    assert r[0] == Trim("a") && r[1] == Trim(" ") && r[2] == Trim("b");
    TrimLiterals();
  }

  lemma NormalizeSecondPass()
    ensures NormalizeTags("a,,b") == "a,b"
  {
    SplitAroundMiddle("");
    assert "a,,b" == "a" + [','] + "" + [','] + "b";
    assert NonEmpty(["a", "", "b"]) == ["a", "b"];
    TrimSecond();
    assert Join(["a", "b"], ',') == "a,b";
  }

  lemma TrimSecond()
    ensures TrimAll(["a", "b"]) == ["a", "b"]
  {
    var r := TrimAll(["a", "b"]);
    assert r[0] == Trim("a") && r[1] == Trim("b");
    TrimLiterals();
  }

  lemma TrimLiterals()
    ensures Trim(" ") == "" && Trim("a") == "a" && Trim("b") == "b"
  {
    assert TrimStart(" ") == TrimStart("");
    assert !IsJsWhitespace('a') && !IsJsWhitespace('b');
    assert TrimStart("a") == "a" && TrimEnd("a") == "a";
    assert TrimStart("b") == "b" && TrimEnd("b") == "b";
  }

  // ------------------------------------------------------ form schema

  /** The tags field: `.optional().default("")` then the transform. */
  function Tags(v: Option<Value>): (r: Checked<string>)
    ensures r.Checked? ==> r.issues == []
    ensures Clean(r) <==> v.None? || v.value.Str?
    ensures v.None? ==> r == Checked("", [])
    ensures r.Checked? && v.Some? ==> r.value == NormalizeTags(v.value.s)
  {
    match v
    case None => Checked("", [])
    case Some(Str(s)) => Checked(NormalizeTags(s), [])
    case Some(_) => Aborted([Issue("tags", TypeMessage("string", v))])
  }

  /** `StatusEnum.optional().default("New")`. */
  function StatusField(v: Option<Value>): (r: Checked<Status>)
    ensures Clean(r) <==> v.None? || StrIn(v, StatusNames)
    ensures v.None? ==> r == Checked(New, [])
    ensures r.Checked? && v.Some? ==> v.value.Str? && StatusName(r.value) == v.value.s
  {
    if v.None? then Checked(New, []) else Enum("status", v, StatusNames, StatusOf)
  }

  /** `BHKEnum.optional().nullable()`. */
  function OptionalBhk(v: Option<Value>): (r: Checked<Option<Bhk>>)
    ensures Clean(r) <==> v.None? || v == Some(Null) || StrIn(v, BhkNames)
    ensures r.Checked? ==> r.issues == [] && (r.value.Some? <==> v.Some? && v.value.Str?)
    ensures r.Checked? && r.value.Some? ==> BhkName(r.value.value) == v.value.s
  {
    if v.None? || v == Some(Null) then Checked(None, [])
    else match Enum("bhk", v, BhkNames, BhkOf)
      case Checked(b, _) => Checked(Some(b), [])
      case Aborted(e) => Aborted(e)
  }

  /** `z.date().optional()`: a JSON body can never carry a Date, so any
      value present is rejected. */
  function UpdatedAt(v: Option<Value>): (r: Checked<()>)
    ensures Clean(r) <==> v.None?
  {
    if v.None? then Checked((), []) else Aborted([Issue("updatedAt", TypeMessage("date", v))])
  }

  /** The validated form payload (`BuyerFormValues`). Budgets are positive
      integers here; null and undefined are both `None`. */
  datatype FormValues = FormValues(
    id: Option<string>,
    fullName: string,
    email: Option<string>,
    phone: string,
    city: City,
    propertyType: PropertyType,
    bhk: Option<Bhk>,
    purpose: Purpose,
    budgetMin: Option<int>,
    budgetMax: Option<int>,
    timeline: Timeline,
    source: Source,
    notes: Option<string>,
    tags: string,
    status: Status)

  /** Every field of the form schema after its own check, in declaration order. */
  datatype FormChecks = FormChecks(
    id: Checked<Option<string>>,
    fullName: Checked<string>,
    email: Checked<Option<string>>,
    phone: Checked<string>,
    city: Checked<City>,
    propertyType: Checked<PropertyType>,
    bhk: Checked<Option<Bhk>>,
    purpose: Checked<Purpose>,
    budgetMin: Checked<Option<real>>,
    budgetMax: Checked<Option<real>>,
    timeline: Checked<Timeline>,
    source: Checked<Source>,
    notes: Checked<Option<string>>,
    tags: Checked<string>,
    status: Checked<Status>,
    updatedAt: Checked<()>)

  function CheckForm(body: Body, f: Formats): FormChecks {
    FormChecks(
      FormatText("id", Get(body, "id"), false, f.isUuid, "Invalid uuid"),
      BoundedText("fullName", Get(body, "fullName"), 2, "Name must be at least 2 characters", 80, AtMost(80)),
      FormatText("email", Get(body, "email"), true, f.isEmail, "Invalid email address"),
      BoundedText("phone", Get(body, "phone"), 10, "Phone must be at least 10 digits", 15, AtMost(15)),
      Enum("city", Get(body, "city"), CityNames, CityOf),
      Enum("propertyType", Get(body, "propertyType"), PropertyTypeNames, PropertyTypeOf),
      OptionalBhk(Get(body, "bhk")),
      Enum("purpose", Get(body, "purpose"), PurposeNames, PurposeOf),
      Budget("budgetMin", Get(body, "budgetMin")),
      Budget("budgetMax", Get(body, "budgetMax")),
      Enum("timeline", Get(body, "timeline"), TimelineNames, TimelineOf),
      Enum("source", Get(body, "source"), SourceNames, SourceOf),
      LimitedText("notes", Get(body, "notes"), 1000, "Notes cannot exceed 1000 characters"),
      Tags(Get(body, "tags")),
      StatusField(Get(body, "status")),
      UpdatedAt(Get(body, "updatedAt")))
  }

  predicate FormAborted(c: FormChecks) {
    c.id.Aborted? || c.fullName.Aborted? || c.email.Aborted? || c.phone.Aborted? || c.city.Aborted?
    || c.propertyType.Aborted? || c.bhk.Aborted? || c.purpose.Aborted? || c.budgetMin.Aborted?
    || c.budgetMax.Aborted? || c.timeline.Aborted? || c.source.Aborted? || c.notes.Aborted?
    || c.tags.Aborted? || c.status.Aborted? || c.updatedAt.Aborted?
  }

  /** The issues of all fields, in declaration order. */
  function FormFieldIssues(c: FormChecks): seq<Issue> {
    c.id.issues + c.fullName.issues + c.email.issues + c.phone.issues + c.city.issues
    + c.propertyType.issues + c.bhk.issues + c.purpose.issues + c.budgetMin.issues + c.budgetMax.issues
    + c.timeline.issues + c.source.issues + c.notes.issues + c.tags.issues + c.status.issues
    + c.updatedAt.issues
  }

  /** The form's first refinement: Apartment and Villa need a BHK. Other
      property types never trigger it (a BHK given for them is kept). */
  function BhkRefinement(p: PropertyType, bhk: Option<Bhk>): (r: seq<Issue>)
    ensures r == [] <==> !IsResidential(p) || bhk.Some?
    ensures r != [] ==> r == [Issue("bhk", BhkRequiredMessage)]
  {
    if IsResidential(p) && bhk.None? then [Issue("bhk", BhkRequiredMessage)] else []
  }

  /** JavaScript truthiness of a number or null. */
  predicate Truthy(x: Option<real>) {
    x.Some? && x.value != 0.0
  }

  /** The form's second refinement: when both budgets are truthy (present
      and non-zero) the maximum must not be below the minimum. */
  function BudgetRefinement(lo: Option<real>, hi: Option<real>): (r: seq<Issue>)
    ensures r == [] <==> !(Truthy(lo) && Truthy(hi)) || hi.value >= lo.value
    ensures r != [] ==> r == [Issue("budgetMax", BudgetOrderMessage)]
  {
    if Truthy(lo) && Truthy(hi) && hi.value < lo.value then [Issue("budgetMax", BudgetOrderMessage)] else []
  }

  function ToInt(x: Option<real>): Option<int> {
    if x.Some? then Some(x.value.Floor) else None
  }

  /** The issues `buyerFormSchema.parse(body)` reports: those of the fields,
      then, unless a field aborted, those of the two refinements. */
  function FormIssues(c: FormChecks): seq<Issue> {
    if FormAborted(c) then FormFieldIssues(c)
    else
      FormFieldIssues(c) + BhkRefinement(c.propertyType.value, c.bhk.value)
      + BudgetRefinement(c.budgetMin.value, c.budgetMax.value)
  }

  /** `buyerFormSchema.parse(body)`. */
  function ParseBuyerForm(body: Body, f: Formats): Parsed<FormValues> {
    var c := CheckForm(body, f);
    var issues := FormIssues(c);
    if FormAborted(c) || issues != [] then Invalid(issues)
    else Valid(FormValues(c.id.value, c.fullName.value, c.email.value, c.phone.value, c.city.value,
      c.propertyType.value, c.bhk.value, c.purpose.value, ToInt(c.budgetMin.value), ToInt(c.budgetMax.value),
      c.timeline.value, c.source.value, c.notes.value, c.tags.value, c.status.value))
  }

  // ------------------------------------------------ form: reference rules

  /** The number a budget field holds, if any. */
  function BudgetOf(v: Option<Value>): Option<real> {
    if v.Some? && v.value.Num? then Some(v.value.n) else None
  }

  predicate BudgetsOrdered(lo: Option<real>, hi: Option<real>) {
    lo.Some? && hi.Some? ==> hi.value >= lo.value
  }

  /** The field rules of the form, one per key. */
  predicate FormFieldsAcceptable(body: Body, f: Formats) {
    && OptionalFormat(Get(body, "id"), false, f.isUuid)
    && LengthIn(Get(body, "fullName"), 2, 80)
    && OptionalFormat(Get(body, "email"), true, f.isEmail)
    && LengthIn(Get(body, "phone"), 10, 15)
    && StrIn(Get(body, "city"), CityNames)
    && StrIn(Get(body, "propertyType"), PropertyTypeNames)
    && (Get(body, "bhk").None? || Get(body, "bhk") == Some(Null) || StrIn(Get(body, "bhk"), BhkNames))
    && StrIn(Get(body, "purpose"), PurposeNames)
    && OptionalBudget(Get(body, "budgetMin"))
    && OptionalBudget(Get(body, "budgetMax"))
    && StrIn(Get(body, "timeline"), TimelineNames)
    && StrIn(Get(body, "source"), SourceNames)
    && OptionalMax(Get(body, "notes"), 1000)
    && (Get(body, "tags").None? || Get(body, "tags").value.Str?)
    && (Get(body, "status").None? || StrIn(Get(body, "status"), StatusNames))
    && "updatedAt" !in body
  }

  /** The form rules stated field by field, then the two cross-field rules:
      what a body must satisfy for the form schema to accept it. */
  predicate FormAcceptable(body: Body, f: Formats) {
    && FormFieldsAcceptable(body, f)
    // BHK is required for Apartment and Villa
    && (StrIn(Get(body, "propertyType"), ["Apartment", "Villa"]) ==> StrIn(Get(body, "bhk"), BhkNames))
    // budgetMax >= budgetMin when both are given
    && BudgetsOrdered(BudgetOf(Get(body, "budgetMin")), BudgetOf(Get(body, "budgetMax")))
  }

  /** All fields are clean exactly when the field rules hold. */
  lemma FormFieldsClean(body: Body, f: Formats)
    ensures var c := CheckForm(body, f);
      !FormAborted(c) && FormFieldIssues(c) == [] <==> FormFieldsAcceptable(body, f)
  {
    var c := CheckForm(body, f);
    assert !FormAborted(c) && FormFieldIssues(c) == [] <==>
      Clean(c.id) && Clean(c.fullName) && Clean(c.email) && Clean(c.phone) && Clean(c.city)
      && Clean(c.propertyType) && Clean(c.bhk) && Clean(c.purpose) && Clean(c.budgetMin)
      && Clean(c.budgetMax) && Clean(c.timeline) && Clean(c.source) && Clean(c.notes)
      && Clean(c.tags) && Clean(c.status) && Clean(c.updatedAt);
  }

  /** The form schema accepts a body exactly when the body follows the
      field rules and both cross-field rules. */
  lemma ParseBuyerFormAccepts(body: Body, f: Formats)
    ensures ParseBuyerForm(body, f).Valid? <==> FormAcceptable(body, f)
  {
    var c := CheckForm(body, f);
    FormFieldsClean(body, f);
    if FormFieldsAcceptable(body, f) {
      var pt := Get(body, "propertyType");
      assert IsResidential(c.propertyType.value) <==> StrIn(pt, ["Apartment", "Villa"]);
      assert c.bhk.value.Some? <==> StrIn(Get(body, "bhk"), BhkNames);
      assert Truthy(c.budgetMin.value) <==> BudgetOf(Get(body, "budgetMin")).Some?;
      assert Truthy(c.budgetMax.value) <==> BudgetOf(Get(body, "budgetMax")).Some?;
    }
  }

  /** Apartment or Villa without a BHK is rejected; when no field aborted
      the object, the rejection carries the BHK message on path `bhk`. */
  lemma FormRequiresBhk(body: Body, f: Formats)
    requires StrIn(Get(body, "propertyType"), ["Apartment", "Villa"])
    requires Get(body, "bhk").None? || Get(body, "bhk") == Some(Null)
    ensures ParseBuyerForm(body, f).Invalid?
    ensures !FormAborted(CheckForm(body, f)) ==>
      Issue("bhk", BhkRequiredMessage) in ParseBuyerForm(body, f).issues
  {
    ParseBuyerFormAccepts(body, f);
    var c := CheckForm(body, f);
    if !FormAborted(c) {
      assert IsResidential(c.propertyType.value);
      assert BhkRefinement(c.propertyType.value, c.bhk.value) == [Issue("bhk", BhkRequiredMessage)];
      assert FormIssues(c)[|FormIssues(c)| - 1 - |BudgetRefinement(c.budgetMin.value, c.budgetMax.value)|]
        == Issue("bhk", BhkRequiredMessage);
    }
  }

  /** Two budgets with the maximum below the minimum are rejected; when no
      field aborted and both are non-zero, the rejection carries the budget
      message on path `budgetMax`. */
  lemma FormRequiresOrderedBudgets(body: Body, f: Formats)
    requires Get(body, "budgetMin").Some? && Get(body, "budgetMin").value.Num?
    requires Get(body, "budgetMax").Some? && Get(body, "budgetMax").value.Num?
    requires Get(body, "budgetMax").value.n < Get(body, "budgetMin").value.n
    ensures ParseBuyerForm(body, f).Invalid?
    ensures (!FormAborted(CheckForm(body, f)) && Get(body, "budgetMin").value.n != 0.0
      && Get(body, "budgetMax").value.n != 0.0) ==>
      ParseBuyerForm(body, f).issues[|ParseBuyerForm(body, f).issues| - 1] == Issue("budgetMax", BudgetOrderMessage)
  {
    ParseBuyerFormAccepts(body, f);
  }

  /** What an accepted body turns into: required strings and enums as given,
      absent or null optional values as `None`, status "New" when omitted,
      tags "" when omitted and normalised otherwise, budgets as the positive
      whole numbers given. */
  lemma FormOutput(body: Body, f: Formats)
    requires ParseBuyerForm(body, f).Valid?
    ensures var r := ParseBuyerForm(body, f).value;
      && Get(body, "fullName") == Some(Str(r.fullName)) && 2 <= JsLength(r.fullName) <= 80
      && Get(body, "phone") == Some(Str(r.phone)) && 10 <= JsLength(r.phone) <= 15
      && Get(body, "city") == Some(Str(CityName(r.city)))
      && Get(body, "propertyType") == Some(Str(PropertyTypeName(r.propertyType)))
      && Get(body, "purpose") == Some(Str(PurposeName(r.purpose)))
      && Get(body, "timeline") == Some(Str(TimelineName(r.timeline)))
      && Get(body, "source") == Some(Str(SourceName(r.source)))
      && (r.email.None? <==> Get(body, "email").None? || Get(body, "email") == Some(Null))
      && (r.email.Some? ==> Get(body, "email") == Some(Str(r.email.value)) && f.isEmail(r.email.value))
      && (r.notes.None? <==> Get(body, "notes").None? || Get(body, "notes") == Some(Null))
      && (r.bhk.None? <==> Get(body, "bhk").None? || Get(body, "bhk") == Some(Null))
      && (r.bhk.Some? ==> Get(body, "bhk") == Some(Str(BhkName(r.bhk.value))))
      && (IsResidential(r.propertyType) ==> r.bhk.Some?)
      && ("status" !in body ==> r.status == New)
      && ("status" in body ==> body["status"] == Str(StatusName(r.status)))
      && ("tags" !in body ==> r.tags == "")
      && ("tags" in body ==> body["tags"] == Str(body["tags"].s) && r.tags == NormalizeTags(body["tags"].s))
      && (r.budgetMin.Some? <==> BudgetOf(Get(body, "budgetMin")).Some?)
      && (r.budgetMin.Some? ==> r.budgetMin.value > 0 && r.budgetMin.value as real == BudgetOf(Get(body, "budgetMin")).value)
      && (r.budgetMax.Some? <==> BudgetOf(Get(body, "budgetMax")).Some?)
      && (r.budgetMax.Some? ==> r.budgetMax.value > 0 && r.budgetMax.value as real == BudgetOf(Get(body, "budgetMax")).value)
      && (r.budgetMin.Some? && r.budgetMax.Some? ==> r.budgetMin.value <= r.budgetMax.value)
  {
    ParseBuyerFormAccepts(body, f);
    FormFieldsClean(body, f);
    var c := CheckForm(body, f);
    assert !FormAborted(c);
  }

  // -------------------------------------------------- CSV-row schema

  /** The spellings the CSV-row schema accepts for timeline and source. */
  const CsvTimelineNames: seq<string> := ["0-3m", "3-6m", ">6m", "Exploring"]
  const CsvSourceNames: seq<string> := ["Website", "Referral", "WalkIn", "Call", "Other", "Walk-in"]

  /** One parsed CSV line: header name to cell text. */
  type Row = map<string, string>

  function RowBody(row: Row): Body {
    map k | k in row :: Str(row[k])
  }

  /** A validated CSV row (`BuyerCsvRow`): enumerations are still the text
      of the cell, budgets are the result of `parseInt`. */
  datatype CsvRowValues = CsvRowValues(
    fullName: string,
    email: Option<string>,
    phone: string,
    city: string,
    propertyType: string,
    bhk: Option<string>,
    purpose: string,
    budgetMin: Option<JsInt>,
    budgetMax: Option<JsInt>,
    timeline: string,
    source: string,
    notes: Option<string>,
    tags: string,
    status: string)

  /** `z.string().optional().nullable().transform(val => val ? parseInt(val, 10) : null)`:
      an absent or empty cell gives `None`; any other text gives what
      `parseInt` makes of it, NaN included. */
  function CsvBudget(path: string, v: Option<Value>): (r: Checked<Option<JsInt>>)
    ensures r.Checked? ==> r.issues == []
    ensures r.Checked? <==> v.None? || v == Some(Null) || v.value.Str?
    ensures r.Checked? ==> (r.value.None? <==> v.None? || v == Some(Null) || v == Some(Str("")))
    ensures r.Checked? && r.value.Some? ==> r.value.value == ParseInt(v.value.s)
  {
    match Text(path, v, true, true)
    case Aborted(e) => Aborted(e)
    case Checked(s, _) => Checked(if s.Some? && s.value != "" then Some(ParseInt(s.value)) else None, [])
  }

  /** The CSV `tags` field: `z.string().optional().default("")`, not normalised. */
  function CsvTags(v: Option<Value>): (r: Checked<string>)
    ensures Clean(r) <==> v.None? || v.value.Str?
    ensures r.Checked? ==> r.issues == [] && (v.None? ==> r.value == "") && (v.Some? ==> v == Some(Str(r.value)))
  {
    match Text("tags", v, true, false)
    case Aborted(e) => Aborted(e)
    case Checked(s, _) => Checked(if s.Some? then s.value else "", [])
  }

  /** The CSV `status` field: the default "New" goes through the same refine,
      so only a present cell can fail it. */
  function CsvStatus(v: Option<Value>): (r: Checked<string>)
    ensures Clean(r) <==> v.None? || StrIn(v, StatusNames)
    ensures v.None? ==> r == Checked("New", [])
    ensures r.Checked? && v.Some? ==> v == Some(Str(r.value))
  {
    if v.None? then Checked("New", []) else OneOf("status", v, StatusNames, "Invalid status value")
  }

  /** Every field of the CSV-row schema after its own check, in declaration order. */
  datatype CsvChecks = CsvChecks(
    fullName: Checked<string>,
    email: Checked<Option<string>>,
    phone: Checked<string>,
    city: Checked<string>,
    propertyType: Checked<string>,
    bhk: Checked<Option<string>>,
    purpose: Checked<string>,
    budgetMin: Checked<Option<JsInt>>,
    budgetMax: Checked<Option<JsInt>>,
    timeline: Checked<string>,
    source: Checked<string>,
    notes: Checked<Option<string>>,
    tags: Checked<string>,
    status: Checked<string>)

  function CheckCsvRow(body: Body, f: Formats): CsvChecks {
    CsvChecks(
      BoundedText("fullName", Get(body, "fullName"), 2, AtLeast(2), 80, AtMost(80)),
      FormatText("email", Get(body, "email"), true, f.isEmail, "Invalid email"),
      BoundedText("phone", Get(body, "phone"), 10, AtLeast(10), 15, AtMost(15)),
      OneOf("city", Get(body, "city"), CityNames, "Invalid city value"),
      OneOf("propertyType", Get(body, "propertyType"), PropertyTypeNames, "Invalid property type"),
      Text("bhk", Get(body, "bhk"), true, true),
      OneOf("purpose", Get(body, "purpose"), PurposeNames, "Invalid purpose value"),
      CsvBudget("budgetMin", Get(body, "budgetMin")),
      CsvBudget("budgetMax", Get(body, "budgetMax")),
      OneOf("timeline", Get(body, "timeline"), CsvTimelineNames, "Invalid timeline value"),
      OneOf("source", Get(body, "source"), CsvSourceNames, "Invalid source value"),
      LimitedText("notes", Get(body, "notes"), 1000, AtMost(1000)),
      CsvTags(Get(body, "tags")),
      CsvStatus(Get(body, "status")))
  }

  predicate CsvAborted(c: CsvChecks) {
    c.fullName.Aborted? || c.email.Aborted? || c.phone.Aborted? || c.city.Aborted?
    || c.propertyType.Aborted? || c.bhk.Aborted? || c.purpose.Aborted? || c.budgetMin.Aborted?
    || c.budgetMax.Aborted? || c.timeline.Aborted? || c.source.Aborted? || c.notes.Aborted?
    || c.tags.Aborted? || c.status.Aborted?
  }

  function CsvFieldIssues(c: CsvChecks): seq<Issue> {
    c.fullName.issues + c.email.issues + c.phone.issues + c.city.issues + c.propertyType.issues
    + c.bhk.issues + c.purpose.issues + c.budgetMin.issues + c.budgetMax.issues + c.timeline.issues
    + c.source.issues + c.notes.issues + c.tags.issues + c.status.issues
  }

  /** JavaScript truthiness of a `parseInt` result or null: NaN and 0 are falsy. */
  predicate JsTruthy(x: Option<JsInt>) {
    x.Some? && x.value.IntVal? && x.value.value != 0
  }

  /** The CSV row's first refinement: budgets are compared only when both
      are truthy, so a NaN or zero budget never triggers it. */
  function CsvBudgetRefinement(lo: Option<JsInt>, hi: Option<JsInt>): (r: seq<Issue>)
    ensures r == [] <==> !(JsTruthy(lo) && JsTruthy(hi)) || hi.value.value >= lo.value.value
    ensures r != [] ==> r == [Issue("budgetMax", BudgetOrderMessage)]
    ensures lo == Some(JsInt.NaN) || hi == Some(JsInt.NaN) ==> r == []
  {
    if JsTruthy(lo) && JsTruthy(hi) && hi.value.value < lo.value.value
    then [Issue("budgetMax", BudgetOrderMessage)] else []
  }

  /** The CSV row's second refinement: Apartment and Villa need a non-empty BHK cell. */
  function CsvBhkRefinement(propertyType: string, bhk: Option<string>): (r: seq<Issue>)
    ensures r == [] <==> propertyType !in ["Apartment", "Villa"] || (bhk.Some? && bhk.value != "")
    ensures r != [] ==> r == [Issue("bhk", BhkRequiredMessage)]
  {
    if propertyType in ["Apartment", "Villa"] && (bhk.None? || bhk.value == "")
    then [Issue("bhk", BhkRequiredMessage)] else []
  }

  function CsvIssues(c: CsvChecks): seq<Issue> {
    if CsvAborted(c) then CsvFieldIssues(c)
    else
      CsvFieldIssues(c) + CsvBudgetRefinement(c.budgetMin.value, c.budgetMax.value)
      + CsvBhkRefinement(c.propertyType.value, c.bhk.value)
  }

  /** `buyerCsvRowSchema.parse(row)`. */
  function ParseCsvRow(row: Row, f: Formats): Parsed<CsvRowValues> {
    var c := CheckCsvRow(RowBody(row), f);
    var issues := CsvIssues(c);
    if CsvAborted(c) || issues != [] then Invalid(issues)
    else Valid(CsvRowValues(c.fullName.value, c.email.value, c.phone.value, c.city.value,
      c.propertyType.value, c.bhk.value, c.purpose.value, c.budgetMin.value, c.budgetMax.value,
      c.timeline.value, c.source.value, c.notes.value, c.tags.value, c.status.value))
  }

  // ------------------------------------------- CSV row: reference rules

  /** What a budget cell holds after the transform. */
  function BudgetCell(row: Row, key: string): Option<JsInt> {
    if key in row && row[key] != "" then Some(ParseInt(row[key])) else None
  }

  predicate CellLength(row: Row, key: string, lo: nat, hi: nat) {
    key in row && lo <= JsLength(row[key]) <= hi
  }

  predicate CellIn(row: Row, key: string, names: seq<string>) {
    key in row && row[key] in names
  }

  /** The rules of the CSV-row schema, stated on the cells. */
  predicate CsvRowAcceptable(row: Row, f: Formats) {
    && CellLength(row, "fullName", 2, 80)
    && ("email" in row ==> f.isEmail(row["email"]))
    && CellLength(row, "phone", 10, 15)
    && CellIn(row, "city", CityNames)
    && CellIn(row, "propertyType", PropertyTypeNames)
    && CellIn(row, "purpose", PurposeNames)
    && CellIn(row, "timeline", CsvTimelineNames)
    && CellIn(row, "source", CsvSourceNames)
    && ("notes" in row ==> JsLength(row["notes"]) <= 1000)
    && ("status" in row ==> row["status"] in StatusNames)
    && (row["propertyType"] in ["Apartment", "Villa"] ==> "bhk" in row && row["bhk"] != "")
    && (JsTruthy(BudgetCell(row, "budgetMin")) && JsTruthy(BudgetCell(row, "budgetMax"))
        ==> BudgetCell(row, "budgetMax").value.value >= BudgetCell(row, "budgetMin").value.value)
  }

  /** Every field is clean exactly when the cell rules hold. */
  lemma CsvFieldsClean(row: Row, f: Formats)
    ensures var c := CheckCsvRow(RowBody(row), f);
      !CsvAborted(c) && CsvFieldIssues(c) == [] <==>
      && CellLength(row, "fullName", 2, 80)
      && ("email" in row ==> f.isEmail(row["email"]))
      && CellLength(row, "phone", 10, 15)
      && CellIn(row, "city", CityNames)
      && CellIn(row, "propertyType", PropertyTypeNames)
      && CellIn(row, "purpose", PurposeNames)
      && CellIn(row, "timeline", CsvTimelineNames)
      && CellIn(row, "source", CsvSourceNames)
      && ("notes" in row ==> JsLength(row["notes"]) <= 1000)
      && ("status" in row ==> row["status"] in StatusNames)
  {
    var c := CheckCsvRow(RowBody(row), f);
    assert !CsvAborted(c) && CsvFieldIssues(c) == [] <==>
      Clean(c.fullName) && Clean(c.email) && Clean(c.phone) && Clean(c.city) && Clean(c.propertyType)
      && Clean(c.bhk) && Clean(c.purpose) && Clean(c.budgetMin) && Clean(c.budgetMax) && Clean(c.timeline)
      && Clean(c.source) && Clean(c.notes) && Clean(c.tags) && Clean(c.status);
  }

  /** The CSV-row schema accepts a row exactly when its cells follow the rules. */
  lemma ParseCsvRowAccepts(row: Row, f: Formats)
    ensures ParseCsvRow(row, f).Valid? <==> CsvRowAcceptable(row, f)
  {
    CsvFieldsClean(row, f);
    var c := CheckCsvRow(RowBody(row), f);
    if !CsvAborted(c) {
      assert c.budgetMin.value == BudgetCell(row, "budgetMin");
      assert c.budgetMax.value == BudgetCell(row, "budgetMax");
      assert c.bhk.value.Some? <==> "bhk" in row;
      assert c.bhk.value.Some? ==> c.bhk.value.value == row["bhk"];
    }
  }

  /** What an accepted row turns into: the cells themselves, status "New"
      when the column is absent, tags "" when absent, and budgets `None`
      exactly for an absent or empty cell. */
  lemma CsvRowOutput(row: Row, f: Formats)
    requires ParseCsvRow(row, f).Valid?
    ensures var r := ParseCsvRow(row, f).value;
      && r.fullName == row["fullName"] && r.phone == row["phone"]
      && r.city == row["city"] && r.propertyType == row["propertyType"] && r.purpose == row["purpose"]
      && r.timeline == row["timeline"] && r.timeline in CsvTimelineNames
      && r.source == row["source"] && r.source in CsvSourceNames
      && r.status == (if "status" in row then row["status"] else "New") && r.status in StatusNames
      && r.tags == (if "tags" in row then row["tags"] else "")
      && r.bhk == (if "bhk" in row then Some(row["bhk"]) else None)
      && (r.propertyType in ["Apartment", "Villa"] ==> r.bhk.Some? && r.bhk.value != "")
      && r.budgetMin == BudgetCell(row, "budgetMin") && r.budgetMax == BudgetCell(row, "budgetMax")
      && (r.budgetMin.None? <==> "budgetMin" !in row || row["budgetMin"] == "")
      && (r.budgetMax.None? <==> "budgetMax" !in row || row["budgetMax"] == "")
  {
    ParseCsvRowAccepts(row, f);
    CsvFieldsClean(row, f);
    var c := CheckCsvRow(RowBody(row), f);
    assert !CsvAborted(c);
  }

  /** Canonical timeline names, which the form and the export use, are
      rejected by the CSV-row schema, except "Exploring". */
  lemma CsvRejectsCanonicalTimeline(row: Row, f: Formats)
    requires "timeline" in row && row["timeline"] in ["ZeroToThreeMonths", "ThreeToSixMonths", "MoreThanSixMonths"]
    ensures ParseCsvRow(row, f).Invalid?
  {
    ParseCsvRowAccepts(row, f);
  }

  // ------------------------------------------------------ query schema

  datatype SortOrder = Asc | Desc

  /** The object a route hands to `buyerQuerySchema.parse`: numbers already
      converted by `Number`, strings as read, `None` for undefined. */
  datatype QueryInput = QueryInput(
    page: Option<JsNumber>,
    limit: Option<JsNumber>,
    search: Option<string>,
    city: Option<string>,
    propertyType: Option<string>,
    status: Option<string>,
    timeline: Option<string>,
    sortBy: Option<string>,
    sortOrder: Option<string>)

  datatype Query = Query(
    page: int,
    limit: int,
    search: Option<string>,
    city: Option<City>,
    propertyType: Option<PropertyType>,
    status: Option<Status>,
    timeline: Option<Timeline>,
    sortBy: string,
    sortOrder: SortOrder)

  /** `z.coerce.number().int().positive().optional().default(d)`. */
  function PositiveIntParam(path: string, x: Option<JsNumber>, d: int): (r: Checked<int>)
    ensures Clean(r) <==> x.None? || (x.value.Finite? && IsPositiveInt(x.value.value))
    ensures x.None? ==> r == Checked(d, [])
    ensures r.Checked? && x.Some? ==> x.value == Finite(r.value as real) || r.issues != []
  {
    match x
    case None => Checked(d, [])
    case Some(NotANumber) => Aborted([Issue(path, "Expected number, received nan")])
    case Some(Finite(n)) =>
      Checked(n.Floor,
        (if n.Floor as real == n then [] else [Issue(path, "Expected integer, received float")])
        + (if n > 0.0 then [] else [Issue(path, "Number must be greater than 0")]))
  }

  /** An optional enum filter. */
  function OptionalEnum<T>(path: string, x: Option<string>, names: seq<string>, of: string -> Option<T>): (r: Checked<Option<T>>)
    requires forall s :: of(s).Some? <==> s in names
    ensures Clean(r) <==> x.None? || x.value in names
    ensures r.Checked? ==> (r.value.Some? <==> x.Some?) && (x.Some? ==> of(x.value) == r.value)
  {
    if x.None? then Checked(None, [])
    else match Enum(path, Some(Str(x.value)), names, of)
      case Checked(e, _) => Checked(Some(e), [])
      case Aborted(e) => Aborted(e)
  }

  function SortOrderOf(s: string): (r: Option<SortOrder>)
    ensures r.Some? <==> s in ["asc", "desc"]
  {
    if s == "asc" then Some(Asc) else if s == "desc" then Some(Desc) else None
  }

  /** `buyerQuerySchema.parse(input)`. */
  function ParseQuery(q: QueryInput): Parsed<Query> {
    var page := PositiveIntParam("page", q.page, 1);
    var limit := PositiveIntParam("limit", q.limit, 10);
    var city := OptionalEnum("city", q.city, CityNames, CityOf);
    var propertyType := OptionalEnum("propertyType", q.propertyType, PropertyTypeNames, PropertyTypeOf);
    var status := OptionalEnum("status", q.status, StatusNames, StatusOf);
    var timeline := OptionalEnum("timeline", q.timeline, TimelineNames, TimelineOf);
    var sortOrder := if q.sortOrder.None? then Checked(Desc, []) else Enum("sortOrder", Some(Str(q.sortOrder.value)), ["asc", "desc"], SortOrderOf);
    var issues := page.issues + limit.issues + city.issues + propertyType.issues + status.issues
      + timeline.issues + sortOrder.issues;
    if issues != [] || page.Aborted? || limit.Aborted? || city.Aborted? || propertyType.Aborted?
      || status.Aborted? || timeline.Aborted? || sortOrder.Aborted?
    then Invalid(issues)
    else Valid(Query(page.value, limit.value, q.search, city.value, propertyType.value, status.value,
      timeline.value, if q.sortBy.Some? then q.sortBy.value else "updatedAt", sortOrder.value))
  }

  /** The query rules: positive whole page and limit when given, filters
      among their enum names, sort order "asc" or "desc". */
  predicate QueryAcceptable(q: QueryInput) {
    && (q.page.None? || (q.page.value.Finite? && IsPositiveInt(q.page.value.value)))
    && (q.limit.None? || (q.limit.value.Finite? && IsPositiveInt(q.limit.value.value)))
    && (q.city.None? || q.city.value in CityNames)
    && (q.propertyType.None? || q.propertyType.value in PropertyTypeNames)
    && (q.status.None? || q.status.value in StatusNames)
    && (q.timeline.None? || q.timeline.value in TimelineNames)
    && (q.sortOrder.None? || q.sortOrder.value in ["asc", "desc"])
  }

  /** The query schema accepts exactly the inputs that follow the rules, and
      fills in page 1, limit 10, sort by "updatedAt" descending by default. */
  lemma ParseQueryAccepts(q: QueryInput)
    ensures ParseQuery(q).Valid? <==> QueryAcceptable(q)
    ensures ParseQuery(q).Valid? ==> var r := ParseQuery(q).value;
      && r.page >= 1 && r.limit >= 1
      && (q.page.None? ==> r.page == 1) && (q.page.Some? ==> q.page.value == Finite(r.page as real))
      && (q.limit.None? ==> r.limit == 10) && (q.limit.Some? ==> q.limit.value == Finite(r.limit as real))
      && r.sortBy == (if q.sortBy.Some? then q.sortBy.value else "updatedAt")
      && r.sortOrder == (if q.sortOrder == Some("asc") then Asc else Desc)
      && r.search == q.search
      && (r.city.Some? <==> q.city.Some?) && (r.city.Some? ==> CityName(r.city.value) == q.city.value)
  {
  }

  // ------------------------------------------------ ZodError.format()

  /** One entry of a formatted ZodError, as `Object.entries` lists it: a
      field name (or "_errors" for issues without a path) and its messages. */
  datatype FieldErrors = FieldErrors(key: string, messages: seq<string>)

  const TopLevelKey := "_errors"

  /** The key an issue is filed under. */
  function KeyOf(i: Issue): string {
    if i.path == "" then TopLevelKey else i.path
  }

  /** The position of `key` among the entries, if present. */
  function IndexOf(entries: seq<FieldErrors>, key: string): (r: Option<nat>)
    ensures r.Some? ==> r.value < |entries| && entries[r.value].key == key
    ensures r.None? ==> forall j :: 0 <= j < |entries| ==> entries[j].key != key
  {
    if |entries| == 0 then None
    else if entries[|entries| - 1].key == key then Some(|entries| - 1)
    else IndexOf(entries[..|entries| - 1], key)
  }

  /** Files one issue: its message is appended to its key's entry, which is
      created at the end the first time the key is seen. */
  function AddIssue(entries: seq<FieldErrors>, i: Issue): seq<FieldErrors> {
    match IndexOf(entries, KeyOf(i))
    case Some(j) => entries[j := entries[j].(messages := entries[j].messages + [i.message])]
    case None => entries + [FieldErrors(KeyOf(i), [i.message])]
  }

  function FormatFrom(entries: seq<FieldErrors>, issues: seq<Issue>): seq<FieldErrors>
    decreases |issues|
  {
    if |issues| == 0 then entries
    else FormatFrom(AddIssue(entries, issues[0]), issues[1..])
  }

  /** `error.format()`: "_errors" first, then one entry per field in the
      order the fields first appear among the issues. */
  function FormatIssues(issues: seq<Issue>): seq<FieldErrors> {
    FormatFrom([FieldErrors(TopLevelKey, [])], issues)
  }

  /** The messages filed under `key`, in issue order. */
  function MessagesFor(issues: seq<Issue>, key: string): seq<string>
    decreases |issues|
  {
    if |issues| == 0 then []
    else if KeyOf(issues[|issues| - 1]) == key then MessagesFor(issues[..|issues| - 1], key) + [issues[|issues| - 1].message]
    else MessagesFor(issues[..|issues| - 1], key)
  }

  /** The messages of `key` in a list of entries, [] when absent. */
  function MessagesOf(entries: seq<FieldErrors>, key: string): seq<string> {
    match IndexOf(entries, key)
    case Some(j) => entries[j].messages
    case None => []
  }

  predicate DistinctKeys(entries: seq<FieldErrors>) {
    forall j, k :: 0 <= j < k < |entries| ==> entries[j].key != entries[k].key
  }

  lemma AddIssueMessages(entries: seq<FieldErrors>, i: Issue, key: string)
    requires DistinctKeys(entries)
    ensures DistinctKeys(AddIssue(entries, i))
    ensures MessagesOf(AddIssue(entries, i), key) ==
      MessagesOf(entries, key) + (if KeyOf(i) == key then [i.message] else [])
  {
    var r := AddIssue(entries, i);
    match IndexOf(entries, KeyOf(i))
    case Some(j) =>
      assert forall k :: 0 <= k < |r| ==> r[k].key == entries[k].key;
      IndexOfSameKeys(entries, r, key);
    case None =>
      IndexOfPrefix(entries, FieldErrors(KeyOf(i), [i.message]), key);
  }

  lemma {:induction false} IndexOfSameKeys(a: seq<FieldErrors>, b: seq<FieldErrors>, key: string)
    requires |a| == |b| && forall k :: 0 <= k < |a| ==> a[k].key == b[k].key
    ensures IndexOf(a, key) == IndexOf(b, key)
  {
    if |a| > 0 && a[|a| - 1].key != key {
      IndexOfSameKeys(a[..|a| - 1], b[..|b| - 1], key);
    }
  }

  lemma IndexOfPrefix(a: seq<FieldErrors>, e: FieldErrors, key: string)
    requires IndexOf(a, e.key).None?
    ensures IndexOf(a + [e], key) == if e.key == key then Some(|a|) else IndexOf(a, key)
  {
    if e.key != key {
      assert (a + [e])[..|a|] == a;
    }
  }

  /** Formatting files every message under its issue's key, in issue order,
      and lists each key once. */
  lemma {:induction false} FormatFromMessages(entries: seq<FieldErrors>, issues: seq<Issue>, key: string)
    requires DistinctKeys(entries)
    ensures DistinctKeys(FormatFrom(entries, issues))
    ensures MessagesOf(FormatFrom(entries, issues), key) == MessagesOf(entries, key) + MessagesFor(issues, key)
    decreases |issues|
  {
    if |issues| > 0 {
      AddIssueMessages(entries, issues[0], key);
      FormatFromMessages(AddIssue(entries, issues[0]), issues[1..], key);
      MessagesForCons(issues, key);
    }
  }

  lemma {:induction false} MessagesForCons(issues: seq<Issue>, key: string)
    requires |issues| > 0
    ensures MessagesFor(issues, key) ==
      (if KeyOf(issues[0]) == key then [issues[0].message] else []) + MessagesFor(issues[1..], key)
    decreases |issues|
  {
    if |issues| > 1 {
      var init := issues[..|issues| - 1];
      MessagesForCons(init, key);
      assert init[1..] == issues[1..][..|issues[1..]| - 1];
      assert init[0] == issues[0];
    }
  }

  /** `error.format()` lists each key once and files under every key exactly
      the messages of the issues with that key, in issue order. */
  lemma FormatIssuesMessages(issues: seq<Issue>, key: string)
    ensures DistinctKeys(FormatIssues(issues))
    ensures MessagesOf(FormatIssues(issues), key) == MessagesFor(issues, key)
  {
    FormatFromMessages([FieldErrors(TopLevelKey, [])], issues, key);
  }
}
