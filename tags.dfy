/**
 * Tags and data taggers. A Tag is a unique, lower-case name; a
 * TagRelation ties one Tag to one tagged object, at most once per object
 * and tag. A DataTagger reads one field of an alert's data and tags the
 * alert with the Tag of that name, creating the Tag when it is told to.
 */
module Tags {
  import opened Base
  import opened Text

  /** The object a TagRelation points at: its content type and id. */
  datatype TaggedObject = TaggedObject(contentType: string, objectId: nat)

  datatype TagRelation = TagRelation(obj: TaggedObject, tag: string, taggedBy: Option<nat>)

  /** Tag names are unique and lower-case. */
  ghost predicate TagsValid(tags: seq<string>)
  {
    (forall i, j :: 0 <= i < j < |tags| ==> tags[i] != tags[j])
    && (forall i :: 0 <= i < |tags| ==> IsLower(tags[i]))
  }

  /** A relation for this object and tag already exists. */
  predicate HasRelation(relations: seq<TagRelation>, obj: TaggedObject, tag: string)
  {
    exists i :: 0 <= i < |relations| && relations[i].obj == obj && relations[i].tag == tag
  }

  /** `unique_together = ('content_type', 'object_id', 'tag')`. */
  ghost predicate RelationsValid(relations: seq<TagRelation>)
  {
    forall i, j :: 0 <= i < j < |relations| ==>
      !(relations[i].obj == relations[j].obj && relations[i].tag == relations[j].tag)
  }

  /** `TagRelation.objects.create(...)`: the new relation list, or `None` when the unique constraint refuses it. */
  function CreateRelation(relations: seq<TagRelation>, r: TagRelation): (out: Option<seq<TagRelation>>)
    ensures out.None? <==> HasRelation(relations, r.obj, r.tag)
    ensures out.Some? ==> out.value == relations + [r]
    ensures out.Some? && RelationsValid(relations) ==> RelationsValid(out.value)
  {
    if HasRelation(relations, r.obj, r.tag) then None else Some(relations + [r])
  }

  /** `Tag.objects.create(name=...)`: the new tag list, or `None` when the name is taken. */
  function CreateTag(tags: seq<string>, name: string): (out: Option<seq<string>>)
    ensures out.None? <==> name in tags
    ensures out.Some? ==> out.value == tags + [name]
    ensures out.Some? && TagsValid(tags) && IsLower(name) ==> TagsValid(out.value)
  {
    if name in tags then None else Some(tags + [name])
  }

  datatype DataTagger = DataTagger(fieldName: string, exactMatch: bool, createTags: bool)

  datatype Validation = Passes | ValidationError(message: string)

  const CreateTagsNeedsExactMatch := "The \"create tags\" feature is only avialable for exact matches."

  /** `DataTagger.clean()`: creating tags is only allowed with exact matching. */
  function Clean(t: DataTagger): (r: Validation)
    ensures r.ValidationError? <==> t.createTags && !t.exactMatch
    ensures r.ValidationError? ==> r.message == CreateTagsNeedsExactMatch
  {
    if t.createTags && !t.exactMatch then ValidationError(CreateTagsNeedsExactMatch) else Passes
  }

  /** `DataTagger._get_value(alert)`: the field's value, lower-cased, when it is a string. */
  function GetValue(t: DataTagger, data: Doc, lookup: DictLookup): (r: Option<string>)
    ensures r.Some? <==> lookup(t.fieldName, data).Some? && lookup(t.fieldName, data).value.JStr?
    ensures r.Some? ==> r.value == Lower(lookup(t.fieldName, data).value.s) && IsLower(r.value)
  {
    match lookup(t.fieldName, data)
    case Some(JStr(s)) => LowerIsLower(s); Some(Lower(s))
    case _ => None
  }

  /** What `DataTagger.process` did. */
  datatype TagOutcome =
    | NoValue                 // the field is missing, not a string, or empty
    | NoTag                   // no Tag of that name, and none is created
    | Tagged(tag: string)     // a relation to `tag` was created
    | DuplicateRelation       // the relation exists: `create` raises IntegrityError
    | PartialMatch            // `_tag_partial_match`, not part of this model

  /** The Tag and TagRelation tables. */
  class TagStore {
    var tags: seq<string>
    var relations: seq<TagRelation>

    ghost predicate Valid()
      reads this
    {
      TagsValid(tags) && RelationsValid(relations)
      && forall i :: 0 <= i < |relations| ==> relations[i].tag in tags
    }

    constructor ()
      ensures tags == [] && relations == [] && Valid()
    {
      tags := [];
      relations := [];
    }

    /** `DataTagger._get_tag(tag_name)`: the existing Tag, else a new one when `create`, else none. */
    method GetTag(name: string, create: bool) returns (t: Option<string>)
      requires Valid() && IsLower(name)
      modifies this
      ensures Valid() && relations == old(relations)
      ensures name in old(tags) ==> t == Some(name) && tags == old(tags)
      ensures name !in old(tags) && create ==> t == Some(name) && tags == old(tags) + [name]
      ensures name !in old(tags) && !create ==> t == None && tags == old(tags)
    {
      if name in tags {
        t := Some(name);
      } else if create {
        var created := CreateTag(tags, name);
        tags := created.value;
        t := Some(name);
      } else {
        t := None;
      }
    }

    /** `Tag.assign_tag(obj)`: a new relation, refused when it already exists. */
    method AssignTag(tag: string, obj: TaggedObject) returns (ok: bool)
      requires Valid() && tag in tags
      modifies this
      ensures Valid() && tags == old(tags)
      ensures ok <==> !HasRelation(old(relations), obj, tag)
      ensures ok ==> relations == old(relations) + [TagRelation(obj, tag, None)]
      ensures !ok ==> relations == old(relations)
    {
      var created := CreateRelation(relations, TagRelation(obj, tag, None));
      ok := created.Some?;
      if ok {
        relations := created.value;
      }
    }

    /** `DataTagger._tag_exact_match(alert, value)`. */
    method TagExactMatch(t: DataTagger, obj: TaggedObject, value: string) returns (r: TagOutcome)
      requires Valid() && IsLower(value)
      modifies this
      ensures Valid()
      ensures value !in old(tags) && !t.createTags ==> r == NoTag && tags == old(tags) && relations == old(relations)
      ensures (value in old(tags) || t.createTags) && HasRelation(old(relations), obj, value) ==>
        r == DuplicateRelation && relations == old(relations)
      ensures (value in old(tags) || t.createTags) && !HasRelation(old(relations), obj, value) ==>
        r == Tagged(value) && relations == old(relations) + [TagRelation(obj, value, None)]
      ensures tags == old(tags) + (if value !in old(tags) && t.createTags then [value] else [])
    {
      var tag := GetTag(value, t.createTags);
      if tag.Some? {
        var ok := AssignTag(tag.value, obj);
        r := if ok then Tagged(value) else DuplicateRelation;
      } else {
        r := NoTag;
      }
    }

    /** `DataTagger.process(alert)`. */
    method Process(t: DataTagger, obj: TaggedObject, data: Doc, lookup: DictLookup) returns (r: TagOutcome)
      requires Valid()
      modifies this
      ensures Valid()
      ensures r == ProcessOutcome(t, obj, data, lookup, old(tags), old(relations))
      ensures r.NoValue? || r.NoTag? || r.PartialMatch? ==> tags == old(tags) && relations == old(relations)
      ensures r.Tagged? ==> relations == old(relations) + [TagRelation(obj, r.tag, None)] && r.tag in tags
      ensures r.DuplicateRelation? ==> tags == old(tags) && relations == old(relations)
      ensures tags == old(tags) + (if r.Tagged? && r.tag !in old(tags) then [r.tag] else [])
    {
      var value := GetValue(t, data, lookup);
      if value.Some? && value.value != "" {
        if t.exactMatch {
          r := TagExactMatch(t, obj, value.value);
        } else {
          r := PartialMatch;
        }
      } else {
        r := NoValue;
      }
    }
  }

  /** What `process` does to the alert, as a function of the tables before the call. */
  function ProcessOutcome(t: DataTagger, obj: TaggedObject, data: Doc, lookup: DictLookup,
                          tags: seq<string>, relations: seq<TagRelation>): TagOutcome
  {
    match GetValue(t, data, lookup)
    case None => NoValue
    case Some(v) =>
      if v == "" then NoValue
      else if !t.exactMatch then PartialMatch
      else if v !in tags && !t.createTags then NoTag
      else if HasRelation(relations, obj, v) then DuplicateRelation
      else Tagged(v)
  }

  /**
   * An alert is tagged exactly when its field holds a non-empty string,
   * the tagger matches exactly, the lower-cased value names a Tag or the
   * tagger creates tags, and the alert does not carry that Tag yet; the
   * tag is then the lower-cased value.
   */
  lemma ProcessTagsIff(t: DataTagger, obj: TaggedObject, data: Doc, lookup: DictLookup,
                       tags: seq<string>, relations: seq<TagRelation>)
    ensures var r := ProcessOutcome(t, obj, data, lookup, tags, relations);
      var v := lookup(t.fieldName, data);
      r.Tagged? <==>
        (v.Some? && v.value.JStr? && v.value.s != "" && t.exactMatch
         && (Lower(v.value.s) in tags || t.createTags) && !HasRelation(relations, obj, Lower(v.value.s)))
    ensures var r := ProcessOutcome(t, obj, data, lookup, tags, relations);
      r.Tagged? ==> r.tag == Lower(lookup(t.fieldName, data).value.s)
  {
    var v := lookup(t.fieldName, data);
    if v.Some? && v.value.JStr? {
      assert |Lower(v.value.s)| == |v.value.s|;
    }
  }

  /** With `clean` passing, a tagger that does not match exactly never creates a Tag. */
  lemma CleanTaggerCreatesOnlyOnExactMatch(t: DataTagger, obj: TaggedObject, data: Doc, lookup: DictLookup,
                                           tags: seq<string>, relations: seq<TagRelation>)
    requires Clean(t) == Passes
    requires GetValue(t, data, lookup).Some? && GetValue(t, data, lookup).value !in tags
    ensures ProcessOutcome(t, obj, data, lookup, tags, relations).Tagged? ==> t.exactMatch && t.createTags
  {
  }
}
