# Buyer-Lead-Intake in Dafny

A model of the buyer-lead intake application: a Next.js app in which
signed-in agents record property buyers, list and filter them, import them in
bulk from CSV files and export them back to CSV. The model covers the logic
that decides what is accepted, stored, shown and sent. It leaves out the
rendering, the database engine and the network.

One module per source file, plus three shared modules:

| module | file | models |
|---|---|---|
| `Strings` | `strings.dfy` | the JavaScript string operations the code relies on: `trim`, `split`, `join`, `filter(Boolean)`, `parseInt`, number to text |
| `Domain` | `domain.dfy` | the enums of the Prisma schema, JSON values, the buyer record, the caller's session |
| `Validation` | `validation.dfy` | `src/lib/validation.ts`: the zod form, CSV-row and query schemas with zod's issue order and `error.format()` |
| `RateLimit` | `rate_limit.dfy` | the per-user token bucket of `src/app/api/buyers/route.ts` |
| `Store` | `store.dfy` | the database as the routes use it: buyers appended under fresh ids, history entries appended |
| `Listing` | `listing.dfy` | the `where` object and the pagination metadata shared by the list route and the list page |
| `SearchParams` | `search_params.dfy` | `URLSearchParams` as a list of pairs: `get`, `set`, `delete` |
| `BuyersRoute` | `buyers_route.dfy` | `GET` and `POST /api/buyers` |
| `CsvRoute` | `csv_route.dfy` | `POST` (import) and `GET` (export) `/api/buyers/csv` |
| `ApiError` | `api_error.dfy` | `handleApiError` in `src/lib/api-error.ts` |
| `BuyersPage` | `buyers_page.dfy` | the server side of `src/app/buyers/page.tsx` |
| `BuyerList` | `buyer_list.dfy` | `src/components/buyers/buyer-list.tsx`: query updates, paging, the table cells |
| `BuyerForm` | `buyer_form.dfy` | `src/components/forms/buyer-form.tsx`: the tag editor and the submit request |
| `CsvImport` | `csv_import.dfy` | `src/components/buyers/csv-import.tsx`: the upload form and its error table |

Imperative code is modelled as such:
- The rate limiter is a class whose `Check` updates its map of buckets.
- The store is a class whose create methods append to its sequences and whose rollback restores them.
- The CSV import inserts its rows in a loop with invariants, inside a transaction that rolls back when a row throws.
- `updateQueryParams` applies its updates in a loop.
- The list view, the tag editor and the import form are classes whose methods update their state fields.

Each method is proved against a function on values. The lemmas beside those functions state what the source promises.

Inputs the model cannot compute are parameters:
- The clock is `now`, in milliseconds.
- `Number(...)` on a query string is `toNumber`, which yields `NotANumber` or a finite real.
- Zod's email and uuid checks are the predicates of `Formats`.
- `Intl.NumberFormat` is `fmt`.
- `prisma.buyer.count` and `findMany` are `count` and `fetch`.
- The columns Prisma's `orderBy` accepts are `orderable`; any other column makes the query throw.
- Which of the POST handler's two writes the database refuses, if any, is `fail`.
- The signed-in user is a `Caller`.

### Where the code differs from what its design suggests

The model follows the code in each case below, and lemmas state the behaviour.
- The tags transform drops empty segments before trimming them. It is therefore not idempotent: `"a, ,b"` becomes `"a,,b"`, and a second pass gives `"a,b"` (`Validation.NormalizeTagsNotIdempotent`).
- The first check of a new user creates a full bucket without spending a token. With no time passing, a new user therefore gets 11 admissions, not 10 (`RateLimit.FreshKeyBurst`).
- The CSV schema accepts only the short timeline spellings `0-3m`, `3-6m`, `>6m` and `Exploring`. It rejects the canonical names the export writes (`Validation.CsvRejectsCanonicalTimeline`).
- The import maps only `Studio` and `1`–`4` to a BHK, so an exported `Two` is stored as null (`CsvRoute.ExportedBhkLost`). Export followed by import is not a round trip.
- A CSV budget that `parseInt` reads as NaN passes the budget-order rule, because NaN is falsy (`Validation.CsvBudgetRefinement`).
- The form schema does not reject a BHK for a non-residential property type (`Validation.BhkRefinement`).
- The import looks the BHK cell up in a plain object literal, so a cell naming an `Object.prototype` member such as `toString` passes validation, finds a function instead of a BHK, and fails the whole import with 500 (`CsvRoute.InheritedBhkCell`, `CsvRoute.ImportCsv`).
- `sortBy` is any string. A column Prisma does not know passes validation and then fails the list and the export with 500 (`BuyersRoute.ListBuyers`, `CsvRoute.ExportCsv`).
- The POST handler writes the buyer and then its history entry without a transaction. A refused history write answers 500 with the buyer already stored (`BuyersRoute.StoreValidated`).
- The pager's window of page numbers can repeat entries and can miss the current page. On page 2 of 2 it shows `[1, 1]` (`BuyerList.PageWindowLastOfTwo`).

## Model

| member | source | states |
|---|---|---|
| Strings.Trim | src/components/forms/buyer-form.tsx:108-109 | the trimmed text neither starts nor ends with JavaScript whitespace |
| Strings.TrimEmptyIff | src/components/forms/buyer-form.tsx:108 | `trim()` gives "" exactly when every character is whitespace |
| Strings.Split | src/lib/validation.ts:56 | `split(",")` gives at least one segment and no segment holds the separator |
| Strings.JoinSplit | src/lib/validation.ts:56 | joining the segments of a split gives the text back |
| Strings.SplitJoin | src/components/forms/buyer-form.tsx:18 | splitting a join of separator-free parts gives the parts back |
| Strings.NonEmpty | src/lib/validation.ts:56 | `filter(Boolean)` keeps exactly the non-empty strings, each from the input |
| Strings.RemoveAll | src/components/forms/buyer-form.tsx:115 | the filter keeps exactly the elements other than the removed one |
| Strings.RemoveAllAppend | src/components/forms/buyer-form.tsx:115 | the filter distributes over concatenation, so order is kept |
| Strings.RemoveAllNoDuplicates | src/components/forms/buyer-form.tsx:115 | filtering a duplicate-free list leaves it duplicate-free |
| Strings.JsLength | src/lib/validation.ts:44-46 | JavaScript's `length` lies between the number of characters and twice that |
| Strings.JsLengthBmp | src/lib/validation.ts:44-46 | the `length` equals the number of characters exactly when none lies above U+FFFF |
| Strings.JsLengthAppend | src/lib/validation.ts:44-46 | the `length` of a concatenation is the sum of the lengths |
| Strings.AstralLength | src/lib/validation.ts:44 | one character above U+FFFF has `length` 2 |
| Strings.ParseInt | src/lib/validation.ts:104-105 | `parseInt` is NaN exactly when no digit follows the leading whitespace and sign |
| Strings.ParseIntToString | src/app/api/buyers/csv/route.ts:344-345 | for a safe integer (magnitude at most 2^53 - 1), `parseInt` reads its decimal text back as that integer |
| Domain.CityOf | src/lib/validation.ts:4 | a text names a city exactly when it is one of the five names, and names it back |
| Domain.PropertyTypeOf | src/lib/validation.ts:7 | the same for the five property types |
| Domain.BhkOf | src/lib/validation.ts:10 | the same for the five BHK values |
| Domain.PurposeOf | src/lib/validation.ts:13 | the same for Buy and Rent |
| Domain.TimelineOf | src/lib/validation.ts:16 | the same for the four timelines |
| Domain.SourceOf | src/lib/validation.ts:19 | the same for the five sources |
| Domain.StatusOf | src/lib/validation.ts:22 | the same for the seven statuses |
| Validation.Text | src/lib/validation.ts:45 | a string field passes exactly for a string, or for an undefined or null it allows; a wrong type gives one type issue on its path |
| Validation.Length | src/lib/validation.ts:44-46 | `min`/`max` report nothing exactly when the JavaScript length, in UTF-16 code units, lies in the bounds |
| Validation.BoundedText | src/lib/validation.ts:44-46 | full name (2..80) and phone (10..15): clean exactly for a string whose JavaScript length is within the bounds |
| Validation.FormatText | src/lib/validation.ts:45 | the email is clean exactly when absent, null or a string of email format |
| Validation.LimitedText | src/lib/validation.ts:55 | notes are clean exactly when absent, null or at most 1000 UTF-16 code units long |
| Validation.AstralTextLengths | src/lib/validation.ts:44-55 | a one-character name above U+FFFF meets `.min(2)`, and 600 such characters exceed `.max(1000)` |
| Validation.AstralRun | src/lib/validation.ts:55 | n characters above U+FFFF are 2n code units long |
| Validation.Enum | src/lib/validation.ts:47-54 | an enum field passes exactly for one of its names and yields that enum value |
| Validation.OneOf | src/lib/validation.ts:94-103 | a CSV enumeration cell is clean exactly when it is one of the listed texts |
| Validation.Budget | src/lib/validation.ts:51-52 | a budget is clean exactly when absent, null or a positive whole number |
| Validation.Tags | src/lib/validation.ts:56 | tags default to "" when absent and are otherwise normalised |
| Validation.NormalizeTagsPieces | src/lib/validation.ts:56 | "" stays "", and input without a non-empty comma piece (",,,") becomes ""; otherwise the output's segments are the non-empty input segments trimmed, in order, duplicates kept, none padded with whitespace |
| Validation.NormalizeTagsNotIdempotent | src/lib/validation.ts:56 | `"a, ,b"` normalises to `"a,,b"`, and that normalises to `"a,b"` |
| Validation.StatusField | src/lib/validation.ts:57 | the status defaults to New when omitted and is otherwise one of the seven names |
| Validation.OptionalBhk | src/lib/validation.ts:49 | a BHK is clean exactly when absent, null or one of the five names |
| Validation.UpdatedAt | src/lib/validation.ts:58 | `updatedAt` is clean only when absent, since JSON carries no date |
| Validation.BhkRefinement | src/lib/validation.ts:60-72 | the rule fails, with its message on `bhk`, exactly for Apartment or Villa without a BHK |
| Validation.BudgetRefinement | src/lib/validation.ts:73-85 | the rule fails, on `budgetMax`, exactly when both budgets are truthy and the maximum is below the minimum |
| Validation.FormFieldsClean | src/lib/validation.ts:42-59 | the form's fields pass with no issue exactly when each field's condition holds |
| Validation.ParseBuyerFormAccepts | src/lib/validation.ts:42-85 | the form schema accepts a body exactly when the fields are clean and both refinements hold |
| Validation.FormRequiresBhk | src/lib/validation.ts:60-72 | Apartment or Villa without a BHK is rejected, with the BHK issue when no field aborted |
| Validation.FormRequiresOrderedBudgets | src/lib/validation.ts:73-85 | a maximum below the minimum is rejected, with the last issue on `budgetMax` |
| Validation.FormOutput | src/lib/validation.ts:42-85 | an accepted form's values are the body's fields; the defaults are status New and tags ""; budgets are positive and ordered; residential types carry a BHK |
| Validation.CsvBudget | src/lib/validation.ts:104-105 | a CSV budget cell becomes null when absent, null or empty, and `parseInt` of the cell otherwise |
| Validation.CsvTags | src/lib/validation.ts:122 | CSV tags default to "" and are otherwise kept as given |
| Validation.CsvStatus | src/lib/validation.ts:123-125 | a CSV status defaults to "New" and must otherwise be one of the seven names |
| Validation.CsvBudgetRefinement | src/lib/validation.ts:127-143 | the rule fails exactly when both budgets are truthy and out of order; a NaN budget always passes |
| Validation.CsvBhkRefinement | src/lib/validation.ts:144-156 | the rule fails exactly for Apartment or Villa whose BHK cell is absent, null or empty |
| Validation.CsvFieldsClean | src/lib/validation.ts:90-126 | a row's cells pass with no issue exactly when each cell's condition holds, including the short timeline spellings and `Walk-in` |
| Validation.ParseCsvRowAccepts | src/lib/validation.ts:90-156 | the CSV-row schema accepts a row exactly when the cells are clean and both refinements hold |
| Validation.CsvRowOutput | src/lib/validation.ts:90-156 | an accepted row's values are its cells, status defaulting to "New", tags to "", empty budgets to null |
| Validation.CsvRejectsCanonicalTimeline | src/lib/validation.ts:106-117 | a row whose timeline is a canonical enum name other than Exploring is rejected |
| Validation.PositiveIntParam | src/lib/validation.ts:162-163 | page and limit pass exactly when absent or a positive whole number, with their defaults when absent |
| Validation.OptionalEnum | src/lib/validation.ts:165-168 | a filter passes exactly when absent or one of its enum's names, and yields that value |
| Validation.SortOrderOf | src/lib/validation.ts:170 | a sort order is exactly "asc" or "desc" |
| Validation.ParseQueryAccepts | src/lib/validation.ts:161-171 | the query schema accepts exactly acceptable inputs, with page 1, limit 10, sort "updatedAt" and "desc" as defaults |
| Validation.FormatFromMessages | src/lib/api-error.ts:15 | adding issues to a formatted error appends each issue's message under its field, keys staying distinct |
| Validation.FormatIssuesMessages | src/app/api/buyers/route.ts:249 | `error.format()` lists under each field exactly the messages of that field's issues, in order |
| RateLimit.Refill | src/app/api/buyers/route.ts:25-31 | with no whole second elapsed the bucket is unchanged; otherwise it gains the elapsed seconds, capped at 10, and `lastRefill` becomes now |
| RateLimit.FirstCheckIsFree | src/app/api/buyers/route.ts:17-22 | an unseen user is let through and gets a full bucket stamped now |
| RateLimit.StepSpendsOneToken | src/app/api/buyers/route.ts:33-39 | a known user is let through exactly when the refilled bucket has a token, spending one; a denial changes nothing |
| RateLimit.StepKeepsOthers | src/app/api/buyers/route.ts:13-40 | a check touches only its own user's bucket and keeps every bucket within 0..10 |
| RateLimit.Burst | src/app/api/buyers/route.ts:13-40 | n checks at one instant give n verdicts |
| RateLimit.BurstFromBucket | src/app/api/buyers/route.ts:33-39 | a bucket holding t tokens lets exactly the next t checks at that instant through |
| RateLimit.FreshKeyBurst | src/app/api/buyers/route.ts:17-39 | with no time passing a new user gets exactly 11 admissions, then only denials |
| RateLimit.RateLimiter.constructor | src/app/api/buyers/route.ts:9 | the limiter starts with no buckets |
| RateLimit.RateLimiter.Check | src/app/api/buyers/route.ts:13-40 | the verdict and the new buckets are those of one step on the old buckets, and buckets stay within 0..10 |
| Store.IdsBelowMeaning | src/app/api/buyers/route.ts:199-221 | the store invariant means the ids are strictly increasing and below the next id |
| Store.Database.constructor | src/app/api/buyers/route.ts:199 | the store starts empty and valid |
| Store.Database.CreateBuyer | src/app/api/buyers/route.ts:199-221 | the buyer is appended under a fresh id, different from every stored id; the history is unchanged |
| Store.Database.CreateHistory | src/app/api/buyers/route.ts:224-241 | the entry is appended to the history |
| Store.Database.Rollback | src/app/api/buyers/csv/route.ts:132 | a rolled-back transaction restores the buyers, the history and the next id it began with |
| Listing.BuildWhere | src/app/api/buyers/route.ts:73-88 | a truthy search gives the OR over full name, email and phone; each filter is present exactly when set, with its value |
| Listing.CeilDiv | src/app/api/buyers/route.ts:125 | `Math.ceil(totalCount / limit)` is the least r with r * limit >= totalCount |
| Listing.Paginate | src/app/api/buyers/route.ts:125-136 | total pages is that ceiling; there is a next page exactly when page < totalPages and a previous page exactly when page > 1 |
| Listing.HasNextPageIff | src/app/api/buyers/route.ts:134 | for a whole page there is a next page exactly when page * limit < totalCount |
| Listing.EveryRecordOnAPage | src/app/api/buyers/route.ts:70 | every record k lies in the window of page k / limit + 1, which is a valid page |
| SearchParams.GetParam | src/app/api/buyers/route.ts:51-63 | `get` yields the first value of the key, or null when there is none |
| SearchParams.DeleteValues | src/components/buyers/buyer-list.tsx:104-105 | `delete` removes every value of the key and keeps the other keys' values |
| SearchParams.SetValues | src/components/buyers/buyer-list.tsx:106-107 | `set` leaves the key with exactly the new value and keeps the other keys' values |
| BuyersRoute.ListQueryAccepts | src/app/api/buyers/route.ts:54-64 | the schema accepts the handler's object exactly when the parameters are acceptable; unset page and limit become 1 and 10 |
| BuyersRoute.ListBuyers | src/app/api/buyers/route.ts:43-141 | 401 exactly without a session; 500 exactly for rejected parameters or a sort column the database refuses; otherwise skip = (page - 1) * limit, take = limit, the insensitive `where`, and the pagination metadata of the count |
| BuyersRoute.CreateDefaults | src/app/api/buyers/route.ts:199-214 | a missing or null email, BHK, budget or notes is stored as null; status falls back to New and tags to "" |
| BuyersRoute.StoredFromValues | src/app/api/buyers/route.ts:201-214 | the `\|\| null` fallbacks only turn an empty email or notes and a zero budget into null |
| BuyersRoute.StoreValidated | src/app/api/buyers/route.ts:198-252 | 201 with one buyer under the next id and one "created" history entry carrying the validated payload; a refused `buyer.create` gives 500 with nothing stored; a refused `buyerHistory.create` gives 500 with the buyer stored and no entry |
| BuyersRoute.CreateFromBody | src/app/api/buyers/route.ts:194-252 | 500 for an unreadable body and 400 with the formatted issues for a rejected one, both with the store unchanged; an accepted body is stored as StoreValidated states, the two writes not being atomic |
| BuyersRoute.CreateBuyer | src/app/api/buyers/route.ts:144-253 | 401 without a user id; then the rate limit (429) before the body is read; then the body's handling, including a refused write |
| CsvRoute.ValidateRow | src/app/api/buyers/csv/route.ts:95-113 | a result carries the row number it was given |
| CsvRoute.ValidateRows | src/app/api/buyers/csv/route.ts:95-113 | one result per row |
| CsvRoute.ValidateRowMeaning | src/app/api/buyers/csv/route.ts:96-105 | a result is valid exactly when the schema accepts the row, carrying its values, and otherwise carries the formatted issues |
| CsvRoute.ValidateRowsNumbered | src/app/api/buyers/csv/route.ts:95-113 | the i-th result is numbered i + 1 |
| CsvRoute.InvalidRowsMembers | src/app/api/buyers/csv/route.ts:116 | the filter keeps exactly the invalid results |
| CsvRoute.InvalidRowsEmpty | src/app/api/buyers/csv/route.ts:116-118 | no invalid result is listed exactly when every result is valid |
| CsvRoute.InvalidRowsListsEvery | src/app/api/buyers/csv/route.ts:116-125 | the response lists row n exactly when row n is invalid |
| CsvRoute.DataOf | src/app/api/buyers/csv/route.ts:129 | the valid rows' data, one per result, in order |
| CsvRoute.AcceptedRowCastable | src/app/api/buyers/csv/route.ts:165-173 | every enum cell of an accepted row names a value of its enum once `Walk-in` is mapped |
| CsvRoute.BhkMappingCells | src/app/api/buyers/csv/route.ts:137-147 | "Studio" and "1".."4" map to Studio and One..Four; the names of `Object.prototype` members (`toString`, `constructor`, `__proto__`, ...) find an inherited, non-BHK value; anything else, "Two" included, finds nothing and maps to null |
| CsvRoute.MapTimelineCells | src/app/api/buyers/csv/route.ts:150-154 | the three short spellings map to their timelines and anything else to Exploring |
| CsvRoute.MapSourceCells | src/app/api/buyers/csv/route.ts:157-158 | "Walk-in" becomes WalkIn, other sources are kept, and accepted cells become source names |
| CsvRoute.RowToBuyerCasts | src/app/api/buyers/csv/route.ts:160-182 | each enum of the stored buyer is the one its cell names |
| CsvRoute.CityCast | src/app/api/buyers/csv/route.ts:165 | the city cast reads back as its cell |
| CsvRoute.PropertyTypeCast | src/app/api/buyers/csv/route.ts:166 | the property-type cast reads back as its cell |
| CsvRoute.PurposeCast | src/app/api/buyers/csv/route.ts:168 | the purpose cast reads back as its cell |
| CsvRoute.SourceCast | src/app/api/buyers/csv/route.ts:172 | the source cast reads back as its mapped cell |
| CsvRoute.StatusCast | src/app/api/buyers/csv/route.ts:173 | the status cast reads back as its cell, or "New" |
| CsvRoute.InsertRow | src/app/api/buyers/csv/route.ts:135-205 | one loop iteration fails, storing nothing, exactly when the BHK cell names an inherited member; otherwise it appends the row's buyer under the next id and one "created" history entry from "csv_import" |
| CsvRoute.StorablePrefixStep | src/app/api/buyers/csv/route.ts:135-207 | the rows stored so far grow by a storable row, and a row `buyer.create` rejects means the file is not storable |
| CsvRoute.InsertEach | src/app/api/buyers/csv/route.ts:132-209 | the loop completes exactly when every row is storable, and then has stored every row's buyer and entry in order, the count being the number of rows |
| CsvRoute.InsertRows | src/app/api/buyers/csv/route.ts:132-209 | the transaction succeeds exactly when every row is storable; then every row's buyer and entry are stored in order; otherwise the store is left exactly as it was |
| CsvRoute.ImportedBuyersAt | src/app/api/buyers/csv/route.ts:160-182 | the j-th stored buyer is row j's, owned by the importer, under the j-th new id |
| CsvRoute.ImportEntriesAt | src/app/api/buyers/csv/route.ts:185-203 | the j-th history entry records row j's creation by the importer |
| CsvRoute.ImportCsv | src/app/api/buyers/csv/route.ts:20-219 | 401; then 400 for no file, a parse error or more than 200 rows (200 pass); then any invalid row gives 400 listing them all with nothing stored; then 500 with nothing stored when a row's BHK cell names an inherited member; otherwise every row is stored and the count returned |
| CsvRoute.ExportRowCells | src/app/api/buyers/csv/route.ts:336-351 | 14 cells in column order; a null email, BHK, budget or notes is ""; enums are their names |
| CsvRoute.ExportBudgetsReadBack | src/app/api/buyers/csv/route.ts:344-345 | an exported budget that is a safe integer reads back through `parseInt` as the stored number |
| CsvRoute.InheritedBhkCell | src/app/api/buyers/csv/route.ts:144-146 | a BHK cell naming an inherited member passes the CSV schema's BHK rule but makes the row unstorable |
| CsvRoute.DoubleQuotesRoundTrip | src/app/api/buyers/csv/route.ts:358 | doubling quotes leaves only paired quotes, and collapsing the pairs gives the value back |
| CsvRoute.QuoteRoundTrip | src/app/api/buyers/csv/route.ts:358 | a cell is enclosed in quotes, and stripping them and collapsing `""` recovers the value |
| CsvRoute.HeaderSingleLine | src/app/api/buyers/csv/route.ts:355 | the header holds no line break |
| CsvRoute.ExportLines | src/app/api/buyers/csv/route.ts:354-361 | with single-line fields the text is the header, then one line per buyer in order, joined by "\n"; no buyers gives "" |
| CsvRoute.ExportedBhkLost | src/app/api/buyers/csv/route.ts:342 | an exported BHK of Two is imported as null |
| CsvRoute.ExportCsv | src/app/api/buyers/csv/route.ts:223-374 | 401 exactly without a user id; 500 exactly for rejected parameters or a sort column the database refuses; otherwise the CSV of the buyers fetched with the case-sensitive `where` and the requested order |
| ApiError.HandleApiErrorStatuses | src/lib/api-error.ts:7-88 | every error gets exactly one status, from {400, 401, 403, 404, 409, 500} |
| ApiError.BadRequestCauses | src/lib/api-error.ts:10-46 | 400 exactly for a ZodError or Prisma P2003; formatted details exactly for a ZodError |
| ApiError.ValidationDetails | src/lib/api-error.ts:10-18 | a ZodError gives 400 with the formatted issues, each field listing its messages |
| ApiError.PrismaStatuses | src/lib/api-error.ts:19-47 | P2002 gives 409, P2025 404, P2003 400, any other code 500 |
| ApiError.DuplicateNamesTargets | src/lib/api-error.ts:21-29 | the 409 message names every duplicated target |
| ApiError.JoinWithContains | src/lib/api-error.ts:26 | `join(", ")` contains every part |
| ApiError.MessagePrecedence | src/lib/api-error.ts:47-87 | "Unauthorized" gives 401 before "Forbidden" gives 403, which comes before "Not Found" for 404; otherwise 500 |
| ApiError.NotFoundAgrees | src/lib/api-error.ts:30-77 | P2025 and a "Not Found" message get the same response |
| BuyersPage.PageNumberDefaults | src/app/buyers/page.tsx:35 | an absent, zero or non-numeric page becomes 1, and any other number is kept |
| BuyersPage.LoadBuyersPage | src/app/buyers/page.tsx:24-114 | redirect exactly without a session; otherwise limit 10, skip (page - 1) * 10, the case-sensitive `where`, the sort defaults and the pagination of the count |
| BuyersPage.FirstPageByDefault | src/app/buyers/page.tsx:35-37 | without a page parameter skip is 0, there is no previous page, and there is a next page exactly when there are more than 10 buyers |
| BuyersPage.WholePageWindow | src/app/buyers/page.tsx:105-114 | page p skips 10 * (p - 1); a next page exists exactly when 10 * p < totalCount, a previous one exactly when p >= 2 |
| BuyerList.ApplyUpdatesValues | src/components/buyers/buyer-list.tsx:103-109 | after the updates each key has the value of its last update, none if that deleted it, or its old values if untouched |
| BuyerList.UpdatedQueryValues | src/components/buyers/buyer-list.tsx:99-114 | as above, and page becomes "1" unless an update supplies it |
| BuyerList.UpdateQueryParams | src/components/buyers/buyer-list.tsx:99-117 | the loop's query is the updated query |
| BuyerList.PageWindowInRange | src/components/buyers/buyer-list.tsx:452-457 | the window has min(5, totalPages) entries, each a page changePage accepts |
| BuyerList.PageWindowCentred | src/components/buyers/buyer-list.tsx:452-457 | away from both ends the window is the two pages either side of the current page |
| BuyerList.PageWindowLastOfTwo | src/components/buyers/buyer-list.tsx:452-466 | on page 2 of 2 the window is [1, 1] and misses the current page |
| BuyerList.ShowingRange | src/components/buyers/buyer-list.tsx:424-426 | on a valid page "Showing X to Y" has 1 <= X <= Y <= totalCount and covers min(limit, remaining) records |
| BuyerList.FormatBudgetRangeShows | src/components/buyers/buyer-list.tsx:144-149 | "-" exactly when both are null; "≤ max" or "≥ min" when one is; each present budget appears |
| BuyerList.DisplayedTagsSegments | src/components/buyers/buyer-list.tsx:354 | displayed tags are non-empty and comma-free, and join back to tags without empty segments |
| BuyerList.BuyerListView.constructor | src/components/buyers/buyer-list.tsx:53-59 | the search and filter fields start from the query's values, or "" |
| BuyerList.BuyerListView.HandleSearch | src/components/buyers/buyer-list.tsx:64-74 | the search term is set and the query gets the search, deleted when empty |
| BuyerList.BuyerListView.HandleFilterChange | src/components/buyers/buyer-list.tsx:77-96 | only the named filter's field changes, and the query gets that filter, deleted when empty |
| BuyerList.BuyerListView.ChangePage | src/components/buyers/buyer-list.tsx:121-124 | nothing happens exactly for a page outside 1..totalPages; otherwise the query gets that page |
| BuyerList.ChangePageQuery | src/components/buyers/buyer-list.tsx:121-124 | a page change sets page and keeps every other parameter |
| BuyerList.FilterChangeResetsPage | src/components/buyers/buyer-list.tsx:95-114 | any other change sets page back to "1" |
| BuyerForm.TagAddEffect | src/components/forms/buyer-form.tsx:107-112 | the trimmed input is appended and the input cleared exactly when it is non-blank and not yet listed |
| BuyerForm.TagAddKeepsTagsDistinct | src/components/forms/buyer-form.tsx:108-109 | a duplicate-free list of non-blank tags stays so |
| BuyerForm.TagRemoveKeepsOthers | src/components/forms/buyer-form.tsx:114-116 | every copy of the tag leaves, the others keep their order, and no duplicate appears |
| BuyerForm.TagKeyDownKeys | src/components/forms/buyer-form.tsx:118-123 | only Enter and "," add; other keys change nothing |
| BuyerForm.TagEditor.constructor | src/components/forms/buyer-form.tsx:18-19 | the editor opens with the record's non-empty tag segments and an empty input |
| BuyerForm.TagEditor.SetTagInput | src/components/forms/buyer-form.tsx:450 | only the input changes |
| BuyerForm.TagEditor.HandleTagAdd | src/components/forms/buyer-form.tsx:107-112 | the new state is the add of the old state |
| BuyerForm.TagEditor.HandleTagRemove | src/components/forms/buyer-form.tsx:114-116 | the new state is the removal from the old state |
| BuyerForm.TagEditor.HandleTagKeyDown | src/components/forms/buyer-form.tsx:118-123 | the new state is the key's effect on the old state |
| BuyerForm.SubmitPayloadFields | src/components/forms/buyer-form.tsx:55-63 | tags are the joined list; an empty budget becomes null; other fields pass unchanged |
| BuyerForm.SubmittedTagsReopen | src/components/forms/buyer-form.tsx:18-56 | non-empty comma-free tags that are joined on submit open the editor again as the same list |
| BuyerForm.SubmitRequestRoute | src/components/forms/buyer-form.tsx:65-95 | PUT to the record's path with its `updatedAt` exactly for an edit with an id; otherwise POST of the payload |
| BuyerForm.ShowBhkMatchesSchema | src/components/forms/buyer-form.tsx:47-48 | the BHK field shows exactly for the types whose schema rule demands a BHK |
| CsvImport.FoundErrorsMessageCount | src/components/buyers/csv-import.tsx:62 | the number in "Found errors in N rows." reads back as N for every array length |
| CsvImport.CsvImportForm.constructor | src/components/buyers/csv-import.tsx:12-16 | no file, no messages, no errors, not uploading |
| CsvImport.CsvImportForm.HandleFileChange | src/components/buyers/csv-import.tsx:20-34 | no file: nothing changes; a non-CSV name: only the error is set; a CSV file: it is kept and every message cleared |
| CsvImport.CsvImportForm.HandleSubmit | src/components/buyers/csv-import.tsx:36-88 | without a file only the error is set and nothing is sent; otherwise the success count, the listed invalid rows with their count, or the failure message |
| CsvImport.FieldRowsMembers | src/components/buyers/csv-import.tsx:174-191 | one row's lines are exactly its messages under fields other than `_errors` |
| CsvImport.ErrorTableMembers | src/components/buyers/csv-import.tsx:172-192 | the table lists exactly the (row, field, message) triples of the rejected rows, never `_errors` |
| CsvImport.ErrorTableAppend | src/components/buyers/csv-import.tsx:172 | lines of earlier rows come first |

## Left out

- Prisma's query semantics (`contains`, `mode: "insensitive"`, `orderBy`, `count`) are not modelled. The routes' `where` objects are modelled, and the results are the `count` and `fetch` parameters. Which columns `orderBy` accepts is the parameter `orderable`, because the Prisma schema is not part of this model.
- `$transaction` is modelled as all-or-nothing: a row that throws rolls the store back to where the transaction began (`Store.Database.Rollback`). Isolation from concurrent requests is not modelled.
- Authentication (`getServerSession`, `src/auth.ts`) is not modelled, and neither is the demo-user lookup and creation. The caller's user id is an input. The POST route connects the owner by the session's id and the history author by the resolved id; the two differ only in the demo fallback, and the model uses the resolved id for both.
- papaparse, `request.formData()`, `file.text()` and `request.json()` are outside the model. The parsed rows and the parsed body are inputs, and an unreadable body or file is a constructor of the input.
- Zod's email and uuid formats are predicates passed in, not modelled.
- Which database writes are refused, and why (a column's range, a lost connection), is an input: the POST handler takes a `WriteFailure`.
- `Number()` on a query string is the parameter `toNumber`. Infinite values are not modelled.
- `Intl.NumberFormat` and `Intl.DateTimeFormat` are not modelled. The budget formatter is the parameter `fmt`.
- `Date.now()` is the parameter `now`.
- `Promise.all`, the search debounce, the redirect timers and `console` logging are not modelled. They decide timing, not values.
- JSX, CSS classes, router navigation and `window.open` are not modelled. A navigation is modelled as the query it would push.
- `URLSearchParams.toString` percent-encoding is not modelled. Queries are lists of pairs.
- The update endpoint `src/app/api/buyers/[id]/route.ts` is not part of this model. Only the client's PUT request to it is modelled.
- `TimelineDisplay` and `BHKDisplay` are labels for rendering and are not modelled.
- RateLimit.RateLimiter.Check: each bucket is a map value replaced on update, not an object mutated in place. No two users share a bucket, so the observable states agree.
- BuyersPage.LoadBuyersPage: the page number is a real, as `Number()` gives it. Prisma's rejection of a negative or fractional `skip`, or of a sort column or order it does not know, makes the page throw; the model describes the request only.
- BuyerList.BuyerListView.ChangePage: pages are whole numbers. The fractional page a hand-written URL can produce is not modelled.
- CsvRoute.ExportCsv: the case-sensitive `where` is stated up to Prisma's evaluation of it. The export's own transformation of the buyers returned is stated in full.
- CsvRoute.ExportCsv: database failures other than a refused sort column (a lost connection, say) also answer 500 and are not modelled, so "500 exactly when" holds up to them.
- BuyersRoute.ListBuyers: database failures other than a refused sort column also answer 500 and are not modelled, so "500 exactly when" holds up to them.
- CsvRoute.ImportCsv: the only `buyer.create` rejection modelled is a BHK cell naming an inherited member. Other rejections, such as a budget beyond the integer column's range or a lost connection, also answer 500 with nothing stored and are not modelled.
- Strings.ParseInt: the digits are read as an exact, unbounded integer. JavaScript rounds a value beyond 2^53 to the nearest double, which is not modelled.
- Validation.CsvBudget: inherits the exact reading of `Strings.ParseInt`; budgets are assumed to be safe integers.
- CsvRoute.NumberCell: writes an exact decimal. JavaScript writes a number from 1e21 on with an exponent (`"1e+21"`), which is not modelled.
- Strings.ParseIntToString: stated for safe integers only, because beyond them JavaScript's `toString` and `parseInt` do not invert each other.
- CsvRoute.ExportBudgetsReadBack: stated for safe-integer budgets only, for the same reason.
