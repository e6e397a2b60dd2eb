/** The shared error-to-response mapping of the API: a zod validation error,
    a known Prisma request error, or any other object with a string message
    becomes a JSON response `{ error, details }` with an HTTP status. */
module ApiError {
  import opened Strings
  import opened Domain
  import opened Validation

  /** What a handler may throw, as far as the mapping can tell apart. */
  datatype Thrown =
    | ZodFailure(issues: seq<Issue>)
      /** A Prisma known request error: its code and `meta.target`, when present. */
    | PrismaKnown(code: string, target: Option<seq<string>>)
      /** Any other non-null object whose `message` is a string. */
    | WithMessage(message: string)
      /** Anything else: a primitive, null, or an object without a string message. */
    | Opaque

  datatype Details = Formatted(fields: seq<FieldErrors>) | Text(text: string)

  datatype ErrorResponse = ErrorResponse(status: int, error: string, details: Details)

  /** `parts.join(sep)` for a separator of any length. */
  function JoinWith(parts: seq<string>, sep: string): string {
    if |parts| == 0 then ""
    else if |parts| == 1 then parts[0]
    else parts[0] + sep + JoinWith(parts[1..], sep)
  }

  /** The sentence of a duplicate-key error: the target columns joined by
      ", ", or "field" when Prisma gives no target. */
  function DuplicateDetails(target: Option<seq<string>>): string {
    "A record with this " + (if target.Some? then JoinWith(target.value, ", ") else "field") + " already exists."
  }

  const NotFound := ErrorResponse(404, "Not found", Text("The requested resource does not exist."))

  const ServerError :=
    ErrorResponse(500, "Internal server error", Text("Something went wrong. Please try again later."))

  /** `handleApiError`. A Prisma error with another code, like any value
      that is not an object with a string message, gives the generic 500. */
  function HandleApiError(e: Thrown): ErrorResponse {
    match e
    case ZodFailure(issues) =>
      ErrorResponse(400, "Validation error", Formatted(FormatIssues(issues)))
    case PrismaKnown(code, target) =>
      if code == "P2002" then ErrorResponse(409, "Duplicate entry", Text(DuplicateDetails(target)))
      else if code == "P2025" then NotFound
      else if code == "P2003" then
        ErrorResponse(400, "Foreign key constraint failed", Text("Referenced record does not exist."))
      else ServerError
    case WithMessage(m) =>
      if Contains(m, "Unauthorized") then
        ErrorResponse(401, "Unauthorized", Text("You are not authorized to perform this action."))
      else if Contains(m, "Forbidden") then
        ErrorResponse(403, "Forbidden", Text("You don't have permission to access this resource."))
      else if Contains(m, "Not Found") then NotFound
      else ServerError
    case Opaque => ServerError
  }

  /** Every error maps to one of six statuses. */
  lemma HandleApiErrorStatuses(e: Thrown)
    ensures HandleApiError(e).status in {400, 401, 403, 404, 409, 500}
  {
  }

  /** A 400 comes from a validation error or a failed foreign key, and only
      a validation error carries the formatted issues. */
  lemma BadRequestCauses(e: Thrown)
    ensures HandleApiError(e).status == 400 <==> e.ZodFailure? || (e.PrismaKnown? && e.code == "P2003")
    ensures HandleApiError(e).details.Formatted? <==> e.ZodFailure?
  {
  }

  /** The details of a validation error list each field once, with exactly
      that field's messages in issue order. */
  lemma ValidationDetails(issues: seq<Issue>, key: string)
    ensures var r := HandleApiError(ZodFailure(issues));
      && r.status == 400 && r.details.Formatted?
      && DistinctKeys(r.details.fields)
      && MessagesOf(r.details.fields, key) == MessagesFor(issues, key)
  {
    FormatIssuesMessages(issues, key);
  }

  /** Among message errors "Unauthorized" wins over "Forbidden", which wins
      over "Not Found"; a message with none of them is a server error. */
  lemma MessagePrecedence(m: string)
    ensures HandleApiError(WithMessage(m)).status == 401 <==> Contains(m, "Unauthorized")
    ensures HandleApiError(WithMessage(m)).status == 403 <==> !Contains(m, "Unauthorized") && Contains(m, "Forbidden")
    ensures HandleApiError(WithMessage(m)).status == 404 <==>
      !Contains(m, "Unauthorized") && !Contains(m, "Forbidden") && Contains(m, "Not Found")
    ensures HandleApiError(WithMessage(m)).status == 500 <==>
      !Contains(m, "Unauthorized") && !Contains(m, "Forbidden") && !Contains(m, "Not Found")
  {
  }

  /** Only the three handled Prisma codes escape the generic 500. */
  lemma PrismaStatuses(code: string, target: Option<seq<string>>)
    ensures HandleApiError(PrismaKnown(code, target)).status ==
      if code == "P2002" then 409 else if code == "P2025" then 404 else if code == "P2003" then 400 else 500
  {
  }

  /** A missing record reads the same whether Prisma or a message reports it. */
  lemma NotFoundAgrees(target: Option<seq<string>>, m: string)
    requires !Contains(m, "Unauthorized") && !Contains(m, "Forbidden") && Contains(m, "Not Found")
    ensures HandleApiError(PrismaKnown("P2025", target)) == HandleApiError(WithMessage(m))
  {
  }

  /** Every part occurs in the joined string. */
  lemma {:induction false} JoinWithContains(parts: seq<string>, sep: string, i: nat)
    requires i < |parts|
    ensures Contains(JoinWith(parts, sep), parts[i])
    decreases |parts|
  {
    var s := JoinWith(parts, sep);
    if |parts| == 1 {
      assert OccursAt(s, parts[0], 0);
    } else if i == 0 {
      assert s[..|parts[0]|] == parts[0];
      assert OccursAt(s, parts[0], 0);
    } else {
      JoinWithContains(parts[1..], sep, i - 1);
      var rest := JoinWith(parts[1..], sep);
      var k :| 0 <= k <= |rest| - |parts[i]| && OccursAt(rest, parts[i], k);
      var off := |parts[0]| + |sep|;
      assert s == parts[0] + sep + rest;
      assert s[off + k..off + k + |parts[i]|] == rest[k..k + |parts[i]|];
      assert OccursAt(s, parts[i], off + k);
    }
  }

  /** A duplicate-key error names every target column in its details. */
  lemma DuplicateNamesTargets(target: seq<string>, i: nat)
    requires i < |target|
    ensures var r := HandleApiError(PrismaKnown("P2002", Some(target)));
      r.status == 409 && r.details.Text? && Contains(r.details.text, target[i])
  {
    var joined := JoinWith(target, ", ");
    JoinWithContains(target, ", ", i);
    var k :| 0 <= k <= |joined| - |target[i]| && OccursAt(joined, target[i], k);
    var prefix := "A record with this ";
    var d := DuplicateDetails(Some(target));
    assert d == prefix + joined + " already exists.";
    assert d[|prefix| + k..|prefix| + k + |target[i]|] == joined[k..k + |target[i]|];
    assert OccursAt(d, target[i], |prefix| + k);
  }
}
