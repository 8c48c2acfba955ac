/**
 * The `DocumentDb` entity bean: its derived profile url, thumbnail url and parent type.
 */
module DocumentBean {
  import opened Wrappers
  import opened JavaStrings

  const PathUrl: string := "path_url"
  const DefaultThumbnail: string := "path_url/asset_thumb.png"

  class DocumentDb {
    /** The generated primary key (a Java `long`). */
    var objectId: int
    var parentType: Option<string>
    var picture: Option<string>
    var thumbnailUrl: Option<string>
    var updated: Option<int>

    /** A bean as JPA creates it before loading. */
    constructor ()
      ensures objectId == 0 && parentType.None? && picture.None?
      ensures thumbnailUrl.None? && updated.None?
    {
      objectId := 0;
      parentType := None;
      picture := None;
      thumbnailUrl := None;
      updated := None;
    }

    /** `getProfileUrl()`: `path_url` followed by the decimal object id. */
    function ProfileUrl(): (r: string)
      reads this
      ensures StartsWith(r, PathUrl) && IsNumeral(r[|PathUrl|..])
      ensures ParseInt(r[|PathUrl|..]) == objectId
    {
      ParseIntOfIntToString(objectId);
      var r := PathUrl + IntToString(objectId);
      assert r[|PathUrl|..] == IntToString(objectId);
      r
    }

    /** `setProfileUrl(profileUrl)` does nothing. */
    method SetProfileUrl(profileUrl: string)
      ensures ProfileUrl() == old(ProfileUrl()) && ThumbnailUrl() == old(ThumbnailUrl())
    {
    }

    /** `getThumbnailUrl()`: the default image without a picture, otherwise the picture's
        thumbnail under the document's id. */
    function ThumbnailUrl(): (r: string)
      reads this
      ensures picture.None? || picture.value == "" ==> r == DefaultThumbnail
      ensures picture.Some? && picture.value != "" ==>
        r == "path_url/picture/" + IntToString(objectId) + "/thumb/" + picture.value
    {
      var pic := picture;
      if pic.None? || pic.value == "" then DefaultThumbnail
      else "path_url/picture/" + IntToString(objectId) + "/thumb/" + pic.value
    }

    /** `setThumbnailUrl(thumbnailUrl)`: stored into a field `getThumbnailUrl` never reads. */
    method SetThumbnailUrl(url: Option<string>)
      modifies this`thumbnailUrl
      ensures thumbnailUrl == url
      ensures ThumbnailUrl() == old(ThumbnailUrl()) && ProfileUrl() == old(ProfileUrl())
    {
      thumbnailUrl := url;
    }

    /** `getParentType()`: `@person` for a `User` parent, `@space` for any other;
        `None` stands for the `NullPointerException` of an unset parent type. */
    function ParentType(): (r: Option<string>)
      reads this
      ensures r.None? <==> parentType.None?
      ensures parentType == Some("User") ==> r == Some("@person")
      ensures parentType.Some? && parentType.value != "User" ==> r == Some("@space")
    {
      if parentType.None? then None
      else if parentType.value == "User" then Some("@person")
      else Some("@space")
    }

    /** `getUpdated()`: a copy of the stored time, `null` for `null`. */
    function GetUpdated(): (r: Option<int>)
      reads this
      ensures r.None? <==> updated.None?
      ensures r.Some? ==> r.value == updated.value
    {
      if updated.None? then None else Some(updated.value)
    }

    /** `setUpdated(updated)`: stores a copy, so the time read back is the one given. */
    method SetUpdated(d: Option<int>)
      modifies this`updated
      ensures GetUpdated() == d
      ensures objectId == old(objectId) && picture == old(picture) && parentType == old(parentType)
    {
      if d.None? {
        updated := None;
      } else {
        updated := Some(d.value);
      }
    }
  }

  /** Distinct documents have distinct profile urls. */
  lemma ProfileUrlInjective(a: DocumentDb, b: DocumentDb)
    requires a.ProfileUrl() == b.ProfileUrl()
    ensures a.objectId == b.objectId
  {
  }

  /** A document's own picture never yields the default thumbnail. */
  lemma PictureThumbnailNotDefault(d: DocumentDb)
    requires d.picture.Some? && d.picture.value != ""
    ensures d.ThumbnailUrl() != DefaultThumbnail
  {
    var r := d.ThumbnailUrl();
    assert r[9] == 'p';
    assert DefaultThumbnail[9] == 'a';
  }
}
