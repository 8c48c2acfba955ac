/**
 * Typed list fields (`ListFieldDb`, `UrlDb`) of the entity beans and the two private helpers
 * the beans use on them: the lookup of the first entry of a type and the append.
 */
module ListFields {
  import opened Wrappers
  import opened JavaStrings

  /** A typed entry such as a url or an image; `linkText` is only set for urls. */
  class ListField {
    var fieldType: Option<string>
    var value: string
    var linkText: Option<string>

    /** `new ListFieldDb(type, value)`. */
    constructor (fieldType: Option<string>, value: string)
      ensures this.fieldType == fieldType && this.value == value && linkText.None?
    {
      this.fieldType := fieldType;
      this.value := value;
      this.linkText := None;
    }

    /** `new UrlDb(value, linkText, type)`. */
    constructor Url(value: string, linkText: Option<string>, fieldType: Option<string>)
      ensures this.fieldType == fieldType && this.value == value && this.linkText == linkText
    {
      this.fieldType := fieldType;
      this.value := value;
      this.linkText := linkText;
    }
  }

  /** Whether the entry `list[i]` has the type `t`, compared ignoring case. */
  predicate HasType(t: string, list: seq<ListField>, i: int)
    requires 0 <= i < |list|
    reads list[i]
  {
    EqualsIgnoreCase(t, list[i].fieldType)
  }

  /** The position of the first entry of type `t` at or after `from`. */
  function FirstOfTypeFrom(t: string, list: seq<ListField>, from: nat): (k: Option<nat>)
    requires from <= |list|
    reads list
    ensures k.Some? ==> from <= k.value < |list| && HasType(t, list, k.value)
    ensures k.Some? ==> forall j :: from <= j < k.value ==> !HasType(t, list, j)
    ensures k.None? ==> forall j :: from <= j < |list| ==> !HasType(t, list, j)
    decreases |list| - from
  {
    if from == |list| then None
    else if HasType(t, list, from) then Some(from)
    else FirstOfTypeFrom(t, list, from + 1)
  }

  /** The position of the first entry of type `t` in a list that may be absent (`null`). */
  function FirstOfType(t: string, list: Option<seq<ListField>>): (k: Option<nat>)
    reads if list.Some? then list.value else []
    ensures k.Some? ==> list.Some? && k.value < |list.value| && HasType(t, list.value, k.value)
    ensures k.Some? ==> forall j :: 0 <= j < k.value ==> !HasType(t, list.value, j)
    ensures k.None? ==> list.None? || forall j :: 0 <= j < |list.value| ==> !HasType(t, list.value, j)
  {
    if list.None? then None else FirstOfTypeFrom(t, list.value, 0)
  }

  /** `getListFieldWithType(type, list)`: the first entry of that type, or `null` (`None`). */
  method GetListFieldWithType(t: string, list: Option<seq<ListField>>) returns (r: Option<ListField>)
    ensures FirstOfType(t, list).None? ==> r.None?
    ensures FirstOfType(t, list).Some? ==> r == Some(list.value[FirstOfType(t, list).value])
  {
    if list.Some? {
      var i := 0;
      while i < |list.value|
        invariant 0 <= i <= |list.value|
        invariant forall j :: 0 <= j < i ==> !HasType(t, list.value, j)
      {
        if EqualsIgnoreCase(t, list.value[i].fieldType) {
          assert HasType(t, list.value, i);
          FirstOfTypeUnique(t, list.value, i);
          return Some(list.value[i]);
        }
        i := i + 1;
      }
    }
    return None;
  }

  /** The first match is the only entry of the type with no earlier match. */
  lemma FirstOfTypeUnique(t: string, list: seq<ListField>, i: nat)
    requires i < |list| && HasType(t, list, i)
    requires forall j :: 0 <= j < i ==> !HasType(t, list, j)
    ensures FirstOfType(t, Some(list)) == Some(i)
  {}

  /** `addListField(field, list)`: the list (a new one when `null`) with `field` at its end. */
  function AddListField(field: ListField, list: Option<seq<ListField>>): (r: seq<ListField>)
    ensures |r| == |list.GetOr([])| + 1
    ensures r[..|r| - 1] == list.GetOr([]) && r[|r| - 1] == field
  {
    list.GetOr([]) + [field]
  }

  /** Adding never creates a match before the end: the first match of an extended list is the
      old first match when there is one. */
  lemma AddKeepsFirstMatch(t: string, field: ListField, list: Option<seq<ListField>>)
    requires FirstOfType(t, list).Some?
    ensures FirstOfType(t, Some(AddListField(field, list))) == FirstOfType(t, list)
  {
    var r := AddListField(field, list);
    var k := FirstOfType(t, list).value;
    assert r[k] == list.value[k];
    forall j | 0 <= j < k ensures !HasType(t, r, j) {
      assert r[j] == list.value[j];
      assert !HasType(t, list.value, j);
    }
    FirstOfTypeUnique(t, r, k);
  }

  /**
   * The upsert `setProfileUrl` and `setThumbnailUrl` both perform: the first entry of type `t`
   * takes the value `v` in place; without one, a new entry made by `make` is appended.
   */
  method SetTypedValue(t: string, v: string, list: Option<seq<ListField>>, isUrl: bool)
    returns (newList: seq<ListField>, entry: ListField)
    modifies if list.Some? then list.value else []
    ensures match old(FirstOfType(t, list))
      case Some(k) =>
        newList == list.value && entry == list.value[k] && entry.value == v
        && entry.fieldType == old(entry.fieldType) && entry.linkText == old(entry.linkText)
      case None =>
        newList == AddListField(entry, list) && fresh(entry)
        && entry.fieldType == Some(t) && entry.value == v && entry.linkText.None?
    ensures forall f :: f in list.GetOr([]) && f != entry ==>
      f.value == old(f.value) && f.fieldType == old(f.fieldType) && f.linkText == old(f.linkText)
  {
    var found := GetListFieldWithType(t, list);
    if found.Some? {
      found.value.value := v;
      return list.value, found.value;
    }
    if isUrl {
      entry := new ListField.Url(v, None, Some(t));
    } else {
      entry := new ListField(Some(t), v);
    }
    newList := AddListField(entry, list);
  }
}
