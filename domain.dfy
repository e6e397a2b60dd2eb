/** The buyer-lead domain: the enumerations of the schema module, the JSON
    values requests carry, validation issues and the stored buyer record. */
module Domain {
  import opened Strings

  // ------------------------------------------------------------ enums

  datatype City = Chandigarh | Mohali | Zirakpur | Panchkula | Other
  datatype PropertyType = Apartment | Villa | Plot | Office | Retail
  datatype Bhk = Studio | One | Two | Three | Four
  datatype Purpose = Buy | Rent
  datatype Timeline = ZeroToThreeMonths | ThreeToSixMonths | MoreThanSixMonths | Exploring
  datatype Source = Website | Referral | WalkIn | Call | Other
  datatype Status = New | Qualified | Contacted | Visited | Negotiation | Converted | Dropped

  const CityNames: seq<string> := ["Chandigarh", "Mohali", "Zirakpur", "Panchkula", "Other"]
  const PropertyTypeNames: seq<string> := ["Apartment", "Villa", "Plot", "Office", "Retail"]
  const BhkNames: seq<string> := ["Studio", "One", "Two", "Three", "Four"]
  const PurposeNames: seq<string> := ["Buy", "Rent"]
  const TimelineNames: seq<string> := ["ZeroToThreeMonths", "ThreeToSixMonths", "MoreThanSixMonths", "Exploring"]
  const SourceNames: seq<string> := ["Website", "Referral", "WalkIn", "Call", "Other"]
  const StatusNames: seq<string> := ["New", "Qualified", "Contacted", "Visited", "Negotiation", "Converted", "Dropped"]

  function CityName(c: City): (r: string)
    ensures r in CityNames
  {
    match c
    case Chandigarh => "Chandigarh"
    case Mohali => "Mohali"
    case Zirakpur => "Zirakpur"
    case Panchkula => "Panchkula"
    case Other => "Other"
  }

  /** Enum membership for a city: exactly the five names are accepted, and
      each reads back as the value it names. */
  function CityOf(s: string): (r: Option<City>)
    ensures r.Some? <==> s in CityNames
    ensures r.Some? ==> CityName(r.value) == s
  {
    if s == "Chandigarh" then Some(Chandigarh)
    else if s == "Mohali" then Some(Mohali)
    else if s == "Zirakpur" then Some(Zirakpur)
    else if s == "Panchkula" then Some(Panchkula)
    else if s == "Other" then Some(City.Other)
    else None
  }

  function PropertyTypeName(p: PropertyType): (r: string)
    ensures r in PropertyTypeNames
  {
    match p
    case Apartment => "Apartment"
    case Villa => "Villa"
    case Plot => "Plot"
    case Office => "Office"
    case Retail => "Retail"
  }

  function PropertyTypeOf(s: string): (r: Option<PropertyType>)
    ensures r.Some? <==> s in PropertyTypeNames
    ensures r.Some? ==> PropertyTypeName(r.value) == s
  {
    if s == "Apartment" then Some(Apartment)
    else if s == "Villa" then Some(Villa)
    else if s == "Plot" then Some(Plot)
    else if s == "Office" then Some(Office)
    else if s == "Retail" then Some(Retail)
    else None
  }

  /** Apartment and Villa are the residential types, the ones that need a BHK. */
  predicate IsResidential(p: PropertyType) {
    p == Apartment || p == Villa
  }

  function BhkName(b: Bhk): (r: string)
    ensures r in BhkNames
  {
    match b
    case Studio => "Studio"
    case One => "One"
    case Two => "Two"
    case Three => "Three"
    case Four => "Four"
  }

  function BhkOf(s: string): (r: Option<Bhk>)
    ensures r.Some? <==> s in BhkNames
    ensures r.Some? ==> BhkName(r.value) == s
  {
    if s == "Studio" then Some(Studio)
    else if s == "One" then Some(One)
    else if s == "Two" then Some(Two)
    else if s == "Three" then Some(Three)
    else if s == "Four" then Some(Four)
    else None
  }

  function PurposeName(p: Purpose): (r: string)
    ensures r in PurposeNames
  {
    match p
    case Buy => "Buy"
    case Rent => "Rent"
  }

  function PurposeOf(s: string): (r: Option<Purpose>)
    ensures r.Some? <==> s in PurposeNames
    ensures r.Some? ==> PurposeName(r.value) == s
  {
    if s == "Buy" then Some(Buy)
    else if s == "Rent" then Some(Rent)
    else None
  }

  function TimelineName(t: Timeline): (r: string)
    ensures r in TimelineNames
  {
    match t
    case ZeroToThreeMonths => "ZeroToThreeMonths"
    case ThreeToSixMonths => "ThreeToSixMonths"
    case MoreThanSixMonths => "MoreThanSixMonths"
    case Exploring => "Exploring"
  }

  function TimelineOf(s: string): (r: Option<Timeline>)
    ensures r.Some? <==> s in TimelineNames
    ensures r.Some? ==> TimelineName(r.value) == s
  {
    if s == "ZeroToThreeMonths" then Some(ZeroToThreeMonths)
    else if s == "ThreeToSixMonths" then Some(ThreeToSixMonths)
    else if s == "MoreThanSixMonths" then Some(MoreThanSixMonths)
    else if s == "Exploring" then Some(Exploring)
    else None
  }

  function SourceName(src: Source): (r: string)
    ensures r in SourceNames
  {
    match src
    case Website => "Website"
    case Referral => "Referral"
    case WalkIn => "WalkIn"
    case Call => "Call"
    case Other => "Other"
  }

  function SourceOf(s: string): (r: Option<Source>)
    ensures r.Some? <==> s in SourceNames
    ensures r.Some? ==> SourceName(r.value) == s
  {
    if s == "Website" then Some(Website)
    else if s == "Referral" then Some(Referral)
    else if s == "WalkIn" then Some(WalkIn)
    else if s == "Call" then Some(Call)
    else if s == "Other" then Some(Source.Other)
    else None
  }

  function StatusName(st: Status): (r: string)
    ensures r in StatusNames
  {
    match st
    case New => "New"
    case Qualified => "Qualified"
    case Contacted => "Contacted"
    case Visited => "Visited"
    case Negotiation => "Negotiation"
    case Converted => "Converted"
    case Dropped => "Dropped"
  }

  function StatusOf(s: string): (r: Option<Status>)
    ensures r.Some? <==> s in StatusNames
    ensures r.Some? ==> StatusName(r.value) == s
  {
    if s == "New" then Some(New)
    else if s == "Qualified" then Some(Qualified)
    else if s == "Contacted" then Some(Contacted)
    else if s == "Visited" then Some(Visited)
    else if s == "Negotiation" then Some(Negotiation)
    else if s == "Converted" then Some(Converted)
    else if s == "Dropped" then Some(Dropped)
    else None
  }

  // ----------------------------------------------------- request values

  /** A JSON value as a request body or a form carries it. Arrays and nested
      objects are never valid for any buyer field, so they are kept opaque. */
  datatype Value = Str(s: string) | Num(n: real) | Bool(b: bool) | Null | Arr | Obj

  /** A JavaScript number as `Number(text)` produces it: NaN, or a finite value. */
  datatype JsNumber = NotANumber | Finite(value: real)

  /** What zod reports as the "received" type of a value. */
  function TypeName(v: Value): string {
    match v
    case Str(_) => "string"
    case Num(_) => "number"
    case Bool(_) => "boolean"
    case Null => "null"
    case Arr => "array"
    case Obj => "object"
  }

  /** One validation issue: the field it is attached to ("" for the whole
      record) and its message. */
  datatype Issue = Issue(path: string, message: string)

  // ------------------------------------------------------------ caller

  /** The caller as a route sees it: no session (or a session without a
      user), or a signed-in user whose id, after the demo-account lookup,
      may still be missing or empty. */
  datatype Caller = Anonymous | SignedIn(userId: Option<string>)

  /** `!session || !session.user || !userId` is false: the route goes on
      with a non-empty user id. */
  predicate HasUserId(c: Caller) {
    c.SignedIn? && c.userId.Some? && c.userId.value != ""
  }

  // ------------------------------------------------------------ records

  /** A stored buyer lead. `budgetMin`/`budgetMax` are integers (never 0:
      both creation paths store a falsy budget as null). */
  datatype Buyer = Buyer(
    id: nat,
    fullName: string,
    email: Option<string>,
    phone: string,
    city: City,
    propertyType: PropertyType,
    bhk: Option<Bhk>,
    purpose: Purpose,
    budgetMin: Option<int>,
    budgetMax: Option<int>,
    timeline: Timeline,
    source: Source,
    status: Status,
    notes: Option<string>,
    tags: string,
    ownerId: string)
}
