/** The buyer form: the tag editor it keeps beside the form fields, the
    request it sends on submit, and when it shows the BHK field. */
module BuyerForm {
  import opened Strings
  import opened Domain
  import opened Validation
  import BuyerList

  // ------------------------------------------------------- tag editor

  /** The tag list and the text in the tag input. */
  datatype TagState = TagState(tags: seq<string>, input: string)

  /** `handleTagAdd`: a non-blank input not yet in the list is appended,
      trimmed, and the input is cleared; anything else changes nothing. */
  function TagAdd(s: TagState): TagState {
    var t := Trim(s.input);
    if t != "" && t !in s.tags then TagState(s.tags + [t], "") else s
  }

  /** `handleTagRemove`: every copy of the tag leaves the list. */
  function TagRemove(s: TagState, tag: string): TagState {
    s.(tags := RemoveAll(s.tags, tag))
  }

  /** `handleTagKeyDown`: Enter and "," add the input; other keys do nothing. */
  function TagKeyDown(s: TagState, key: string): TagState {
    if key == "Enter" || key == "," then TagAdd(s) else s
  }

  /** The list a tag string opens with: its non-empty comma segments. */
  function InitialTags(tags: Option<string>): seq<string> {
    BuyerList.DisplayedTags(tags)
  }

  /** An add grows the list by exactly the trimmed input when that is
      neither blank nor already listed, and otherwise changes nothing. */
  lemma TagAddEffect(s: TagState)
    ensures var t := Trim(s.input);
      && (t != "" && t !in s.tags <==> TagAdd(s).tags == s.tags + [t])
      && (t != "" && t !in s.tags <==> TagAdd(s).input == "" && TagAdd(s) != s)
  {
    var t := Trim(s.input);
    if t != "" && t !in s.tags {
      assert TagAdd(s).tags[|s.tags|] == t;
    } else {
      assert |TagAdd(s).tags| != |s.tags + [t]|;
    }
  }

  /** Adding never lists a blank tag or a tag twice, so a duplicate-free list
      of non-blank tags stays so. */
  lemma TagAddKeepsTagsDistinct(s: TagState)
    requires NoDuplicates(s.tags) && forall i :: 0 <= i < |s.tags| ==> s.tags[i] != ""
    ensures NoDuplicates(TagAdd(s).tags)
    ensures forall i :: 0 <= i < |TagAdd(s).tags| ==> TagAdd(s).tags[i] != ""
  {
    var t := Trim(s.input);
    if t != "" && t !in s.tags {
      var r := s.tags + [t];
      forall i, j | 0 <= i < j < |r| ensures r[i] != r[j] {
        if j == |s.tags| { assert r[i] in s.tags; }
      }
    }
  }

  /** Removing keeps the other tags in order and the list duplicate-free. */
  lemma TagRemoveKeepsOthers(s: TagState, tag: string, front: seq<string>, back: seq<string>)
    requires s.tags == front + back
    ensures TagRemove(s, tag).tags == RemoveAll(front, tag) + RemoveAll(back, tag)
    ensures tag !in TagRemove(s, tag).tags && TagRemove(s, tag).input == s.input
    ensures NoDuplicates(s.tags) ==> NoDuplicates(TagRemove(s, tag).tags)
  {
    RemoveAllAppend(front, back, tag);
    if NoDuplicates(s.tags) {
      RemoveAllNoDuplicates(s.tags, tag);
    }
  }

  /** Only Enter and "," add; every other key leaves the editor as it was. */
  lemma TagKeyDownKeys(s: TagState, key: string)
    ensures key != "Enter" && key != "," ==> TagKeyDown(s, key) == s
    ensures key == "Enter" || key == "," ==> TagKeyDown(s, key) == TagAdd(s)
  {
  }

  /** The editor state of one form. */
  class TagEditor {
    var tags: seq<string>
    var tagInput: string

    /** The editor opens with the record's tags and an empty input. */
    constructor (initial: Option<string>)
      ensures tags == InitialTags(initial) && tagInput == ""
    {
      tags := InitialTags(initial);
      tagInput := "";
    }

    /** The input's `onChange`. */
    method SetTagInput(value: string)
      modifies this
      ensures tags == old(tags) && tagInput == value
    {
      tagInput := value;
    }

    method HandleTagAdd()
      modifies this
      ensures TagState(tags, tagInput) == TagAdd(old(TagState(tags, tagInput)))
    {
      var t := Trim(tagInput);
      if t != "" && t !in tags {
        tags := tags + [t];
        tagInput := "";
      }
    }

    method HandleTagRemove(tag: string)
      modifies this
      ensures TagState(tags, tagInput) == TagRemove(old(TagState(tags, tagInput)), tag)
    {
      tags := RemoveAll(tags, tag);
    }

    method HandleTagKeyDown(key: string)
      modifies this
      ensures TagState(tags, tagInput) == TagKeyDown(old(TagState(tags, tagInput)), key)
    {
      if key == "Enter" || key == "," {
        HandleTagAdd();
      }
    }
  }

  // ----------------------------------------------------------- submit

  /** `v !== "" ? v : null` on a field that may be missing: an empty string
      becomes null, and a missing field stays missing. */
  function EmptyToNull(data: Body, key: string): Body {
    if key in data && data[key] == Str("") then data[key := Null] else data
  }

  /** The body `onSubmit` sends: the form's values with `tags` replaced by
      the editor's list joined with "," and empty budgets nulled. */
  function SubmitPayload(data: Body, tags: seq<string>): Body {
    EmptyToNull(EmptyToNull(data["tags" := Str(Join(tags, ','))], "budgetMin"), "budgetMax")
  }

  /** The payload's tags are the joined list, an empty budget is null, and
      every other field is sent as the form holds it. */
  lemma SubmitPayloadFields(data: Body, tags: seq<string>, key: string)
    ensures var p := SubmitPayload(data, tags);
      && p.Keys == data.Keys + {"tags"}
      && p["tags"] == Str(Join(tags, ','))
      && (key in {"budgetMin", "budgetMax"} && key in data ==>
           p[key] == if data[key] == Str("") then Null else data[key])
      && (key in data && key !in {"tags", "budgetMin", "budgetMax"} ==> p[key] == data[key])
  {
  }

  /** The tags a record is saved with open the editor again as the same list
      when they are non-empty and comma-free. */
  lemma SubmittedTagsReopen(tags: seq<string>)
    requires |tags| >= 1 && forall i :: 0 <= i < |tags| ==> tags[i] != "" && ',' !in tags[i]
    ensures InitialTags(Some(Join(tags, ','))) == tags
  {
    SplitJoin(tags, ',');
    assert Join(tags, ',') != "" by {
      if |tags| == 1 { } else { assert |Join(tags, ',')| >= 1; }
    }
    NonEmptyKeepsAll(tags);
  }

  /** The request a submit sends: an update of an existing record or a
      creation. */
  datatype SubmitRequest = Put(path: string, body: Body) | Post(path: string, body: Body)

  /** `onSubmit`'s request. An edit with a truthy id goes to the record's
      own path with the `updatedAt` it was loaded with (a missing one is
      dropped by `JSON.stringify`); everything else creates. */
  function SubmitRequestFor(isEditing: bool, id: Option<string>, updatedAt: Option<Value>,
                            data: Body, tags: seq<string>): (r: SubmitRequest)
  {
    var payload := SubmitPayload(data, tags);
    if isEditing && IsSet(id) then
      Put("/api/buyers/" + id.value, if updatedAt.Some? then payload["updatedAt" := updatedAt.value] else payload - {"updatedAt"})
    else Post("/api/buyers", payload)
  }

  /** An edit of a record with an id updates that record and carries its
      `updatedAt`; any other submit posts the payload unchanged. */
  lemma SubmitRequestRoute(isEditing: bool, id: Option<string>, updatedAt: Option<Value>, data: Body, tags: seq<string>)
    ensures var r := SubmitRequestFor(isEditing, id, updatedAt, data, tags);
      && (r.Put? <==> isEditing && IsSet(id))
      && (r.Put? ==> r.path == "/api/buyers/" + id.value)
      && (r.Put? ==> (updatedAt.Some? <==> "updatedAt" in r.body))
      && (r.Put? && updatedAt.Some? ==> r.body["updatedAt"] == updatedAt.value)
      && (r.Post? ==> r.path == "/api/buyers" && r.body == SubmitPayload(data, tags))
  {
  }

  // ------------------------------------------------------------ BHK

  /** `isResidential` on the watched property type. */
  predicate ShowBhk(propertyType: Option<string>) {
    propertyType == Some("Apartment") || propertyType == Some("Villa")
  }

  /** The form shows the BHK field for exactly the property types whose
      schema rule demands a BHK. */
  lemma ShowBhkMatchesSchema(p: PropertyType)
    ensures ShowBhk(Some(PropertyTypeName(p))) <==> BhkRefinement(p, None) != []
  {
  }
}
