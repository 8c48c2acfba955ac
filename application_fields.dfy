/** `Application.Field`: the JSON field names of an application and their lookup tables. */
module ApplicationFields {
  import opened Wrappers
  import FieldIndex

  datatype Field =
    | AppData | AppType | AppUrl | Author | AuthorEmail | ParentId | ParentType | Description
    | DisplayName | Height | Id | Ims | Name | ScreenshotUrl | Tags | ThumbnailUrl | UtcOffset

  /** `toString()`: the JSON name the constant stands for. */
  function ToString(f: Field): string {
    match f
    case AppData => "appData"
    case AppType => "appType"
    case AppUrl => "appUrl"
    case Author => "author"
    case AuthorEmail => "authorEmail"
    case ParentId => "parentId"
    case ParentType => "parentType"
    case Description => "description"
    case DisplayName => "displayName"
    case Height => "height"
    case Id => "id"
    case Ims => "ims"
    case Name => "name"
    case ScreenshotUrl => "screenshotUrl"
    case Tags => "tags"
    case ThumbnailUrl => "thumbnailUrl"
    case UtcOffset => "utcOffset"
  }

  /** `EnumSet.allOf(Field.class)`, in declaration order. */
  const Values: seq<Field> :=
    [AppData, AppType, AppUrl, Author, AuthorEmail, ParentId, ParentType, Description,
     DisplayName, Height, Id, Ims, Name, ScreenshotUrl, Tags, ThumbnailUrl, UtcOffset]

  lemma ValuesComplete(f: Field)
    ensures f in Values
  {}

  /** Distinct constants have distinct JSON names. */
  lemma ToStringInjective(f: Field, g: Field)
    ensures ToString(f) == ToString(g) ==> f == g
  {}

  /** The names are pairwise distinct, so `uniqueIndex` does not throw. */
  lemma LookupBuilds()
    ensures FieldIndex.DistinctKeys(Values, ToString)
  {
    forall i, j | 0 <= i < j < |Values|
      ensures ToString(Values[i]) != ToString(Values[j])
    {
      ToStringInjective(Values[i], Values[j]);
    }
  }

  /** `LOOKUP`: JSON name to constant. */
  function Lookup(): (m: map<string, Field>)
    ensures |m| == |Values|
    ensures forall f :: ToString(f) in m && m[ToString(f)] == f
    ensures forall s :: s in m <==> exists f :: ToString(f) == s
  {
    LookupBuilds();
    FieldIndex.UniqueIndexSpec(Values, ToString);
    var m := FieldIndex.UniqueIndex(Values, ToString).value;
    assert forall f :: ToString(f) in m && m[ToString(f)] == f by {
      forall f ensures ToString(f) in m && m[ToString(f)] == f {
        ValuesComplete(f);
        var i :| 0 <= i < |Values| && Values[i] == f;
      }
    }
    m
  }

  /** `ALL_FIELDS`: the key set of `LOOKUP`. */
  function AllFields(): set<string> {
    Lookup().Keys
  }

  /** `DEFAULT_FIELDS`. */
  function DefaultFields(): set<string> {
    {ToString(Id), ToString(Name), ToString(AppUrl), ToString(ParentId),
     ToString(ParentType), ToString(ThumbnailUrl)}
  }

  /** `getField(jsonString)`: `null` (here `None`) for an unknown name. */
  function GetField(jsonString: string): Option<Field> {
    if jsonString in Lookup() then Some(Lookup()[jsonString]) else None
  }

  /** `fromUrlString(urlString)`: the same lookup in `LOOKUP`. */
  function FromUrlString(urlString: string): Option<Field> {
    if urlString in Lookup() then Some(Lookup()[urlString]) else None
  }

  /** Every constant is recovered from its JSON name. */
  lemma FromUrlStringOfToString(f: Field)
    ensures FromUrlString(ToString(f)) == Some(f)
    ensures GetField(ToString(f)) == Some(f)
  {}

  /** A name is known exactly when it is some constant's name; both lookups agree. */
  lemma LookupOfUnknown(s: string)
    ensures FromUrlString(s) == GetField(s)
    ensures FromUrlString(s).None? <==> forall f :: ToString(f) != s
    ensures FromUrlString(s).Some? ==> ToString(FromUrlString(s).value) == s
  {}

  /** `ALL_FIELDS` has one name per constant. */
  lemma AllFieldsSize()
    ensures |AllFields()| == 17
  {}

  lemma DefaultFieldsContents()
    ensures DefaultFields() == {"id", "name", "appUrl", "parentId", "parentType", "thumbnailUrl"}
  {}

  /** Every default field is a field. */
  lemma DefaultFieldsKnown()
    ensures DefaultFields() <= AllFields()
  {
    var m := Lookup();
    assert ToString(Id) in m && ToString(Name) in m && ToString(AppUrl) in m;
    assert ToString(ParentId) in m && ToString(ParentType) in m && ToString(ThumbnailUrl) in m;
  }

  lemma DefaultFieldsSize()
    ensures |DefaultFields()| == 6
  {
    var d := [Id, Name, AppUrl, ParentId, ParentType, ThumbnailUrl];
    assert DefaultFields() == {ToString(d[0]), ToString(d[1]), ToString(d[2]), ToString(d[3]),
                               ToString(d[4]), ToString(d[5])};
  }
}
