/**
 * The `SpaceDb` entity bean: the fields it derives (profile url, thumbnail url, parent type)
 * and the setters that store them into its typed url and image lists.
 */
module SpaceBean {
  import opened Wrappers
  import opened JavaStrings
  import opened ListFields

  /** No trailing `/`. */
  const MoodleUrl: string := "http://iamac71.epfl.ch/moodle"
  const WidgetspaceModule: string := "widgetspace"
  const NoWidgetspaceMessage: string := "Cant find widgetspace unique id"
  const ThumbnailConstant: string :=
    MoodleUrl + "/theme/image.php?theme=standard&amp;image=icon&amp;rev=178&amp;component=widgetspace"
  /** `Url.PROFILE_URL_TYPE` and `Person.THUMBNAIL_PHOTO_TYPE`. */
  const ProfileUrlType: string := "profile"
  const ThumbnailPhotoType: string := "thumbnail"

  /** A row of Moodle's course-module table (`MoodleCourseModuleDb`) with the name of its module. */
  datatype CourseModule = CourseModule(id: string, courseId: string, instanceId: string, moduleName: string)

  /** Whether a course module is the widgetspace instance `id` of course `parentId`. */
  predicate IsWidgetspaceOf(mc: CourseModule, parentId: Option<string>, id: Option<string>) {
    Some(mc.courseId) == parentId && Some(mc.instanceId) == id && mc.moduleName == WidgetspaceModule
  }

  /** The profile url for the module search's outcome. */
  function ProfileUrlOf(found: Option<CourseModule>): string {
    if found.Some? then MoodleUrl + "/mod/widgetspace/view.php?id=" + found.value.id
    else NoWidgetspaceMessage
  }

  class SpaceDb {
    var parentId: Option<string>
    var id: Option<string>
    var parentType: Option<string>
    var picture: Option<string>
    var courseModules: seq<CourseModule>
    var urls: Option<seq<ListField>>
    var images: Option<seq<ListField>>
    var updated: Option<int>

    /** A bean as JPA creates it before loading: every field `null`, no course modules. */
    constructor ()
      ensures parentId.None? && id.None? && parentType.None? && picture.None?
      ensures courseModules == [] && urls.None? && images.None? && updated.None?
    {
      parentId := None;
      id := None;
      parentType := None;
      picture := None;
      courseModules := [];
      urls := None;
      images := None;
      updated := None;
    }

    /** `getProfileUrl()`: the first course module that is this widgetspace gives the url;
        without one, the fixed message. */
    method GetProfileUrl() returns (url: string)
      ensures forall i :: 0 <= i < |courseModules| && IsWidgetspaceOf(courseModules[i], parentId, id) ==>
        exists j :: 0 <= j <= i && IsWidgetspaceOf(courseModules[j], parentId, id) &&
          url == ProfileUrlOf(Some(courseModules[j])) &&
          forall k :: 0 <= k < j ==> !IsWidgetspaceOf(courseModules[k], parentId, id)
      ensures (forall i :: 0 <= i < |courseModules| ==> !IsWidgetspaceOf(courseModules[i], parentId, id)) ==>
        url == NoWidgetspaceMessage
    {
      var i := 0;
      while i < |courseModules|
        invariant 0 <= i <= |courseModules|
        invariant forall k :: 0 <= k < i ==> !IsWidgetspaceOf(courseModules[k], parentId, id)
      {
        var mc := courseModules[i];
        if mc.courseId == parentId.GetOr("") && parentId.Some?
           && mc.instanceId == id.GetOr("") && id.Some?
           && mc.moduleName == WidgetspaceModule {
          return MoodleUrl + "/mod/widgetspace/view.php?id=" + mc.id;
        }
        i := i + 1;
      }
      return NoWidgetspaceMessage;
    }

    /** `getThumbnailUrl()`: the same constant on both branches, whatever `picture` holds. */
    function ThumbnailUrl(): (r: string)
      reads this
      ensures StartsWith(r, MoodleUrl)
      ensures r == ThumbnailConstant
    {
      var pic := picture;
      if pic.None? || pic.value == "" then ThumbnailConstant else ThumbnailConstant
    }

    /** `getParentType()`: always `@space`; the stored parent type is never read. */
    function ParentType(): (r: string)
      reads this
      ensures r == "@space"
    {
      "@space"
    }

    /** `setParentType(parentType)`: it is stored, but the parent type read back stays `@space`. */
    method SetParentType(t: Option<string>)
      modifies this`parentType
      ensures parentType == t && ParentType() == "@space"
      ensures urls == old(urls) && images == old(images) && picture == old(picture)
    {
      parentType := t;
    }

    /** `getUpdated()`: a copy of the stored time, `null` for `null`. */
    function GetUpdated(): (r: Option<int>)
      reads this
      ensures r.None? <==> updated.None?
      ensures r.Some? ==> r.value == updated.value
    {
      if updated.None? then None else Some(updated.value)
    }

    /** `setUpdated(updated)`: stores a copy, so the time read back is the one given. */
    method SetUpdated(d: Option<int>)
      modifies this`updated
      ensures GetUpdated() == d
      ensures urls == old(urls) && images == old(images) && parentType == old(parentType)
    {
      if d.None? {
        updated := None;
      } else {
        updated := Some(d.value);
      }
    }

    /** The entries of the url list, for framing. */
    function UrlEntries(): seq<ListField>
      reads this
    {
      urls.GetOr([])
    }

    function ImageEntries(): seq<ListField>
      reads this
    {
      images.GetOr([])
    }

    /**
     * `setProfileUrl(profileUrl)`: the first url of type `profile` takes the new value in
     * place, the list keeping its length; without one, a new `profile` url is appended.
     */
    method SetProfileUrl(profileUrl: string)
      modifies this`urls, UrlEntries()
      ensures old(FirstOfType(ProfileUrlType, urls)).Some? ==>
        var f := old(UrlEntries())[old(FirstOfType(ProfileUrlType, urls)).value];
        urls == old(urls) && f.value == profileUrl
        && f.fieldType == old(f.fieldType) && f.linkText == old(f.linkText)
      ensures old(FirstOfType(ProfileUrlType, urls)).None? ==>
        urls.Some? && |urls.value| == |old(UrlEntries())| + 1 && urls.value[..|urls.value| - 1] == old(UrlEntries())
        && urls.value[|urls.value| - 1].fieldType == Some(ProfileUrlType)
        && urls.value[|urls.value| - 1].value == profileUrl
        && urls.value[|urls.value| - 1].linkText.None? && fresh(urls.value[|urls.value| - 1])
      ensures forall f ::
        (f in old(UrlEntries()) &&
         (old(FirstOfType(ProfileUrlType, urls)).None? || f != old(UrlEntries())[old(FirstOfType(ProfileUrlType, urls)).value])) ==>
        f.value == old(f.value) && f.fieldType == old(f.fieldType) && f.linkText == old(f.linkText)
      ensures images == old(images) && courseModules == old(courseModules) && updated == old(updated)
      ensures GetUpdated() == old(GetUpdated()) && ThumbnailUrl() == old(ThumbnailUrl())
    {
      var newList, entry := SetTypedValue(ProfileUrlType, profileUrl, urls, true);
      urls := Some(newList);
    }

    /**
     * `setThumbnailUrl(thumbnailUrl)`: the same upsert on `images` with type `thumbnail`.
     * The thumbnail url read back does not change: `getThumbnailUrl` ignores the images.
     */
    method SetThumbnailUrl(thumbnailUrl: string)
      modifies this`images, ImageEntries()
      ensures old(FirstOfType(ThumbnailPhotoType, images)).Some? ==>
        var f := old(ImageEntries())[old(FirstOfType(ThumbnailPhotoType, images)).value];
        images == old(images) && f.value == thumbnailUrl
        && f.fieldType == old(f.fieldType) && f.linkText == old(f.linkText)
      ensures old(FirstOfType(ThumbnailPhotoType, images)).None? ==>
        images.Some? && |images.value| == |old(ImageEntries())| + 1 && images.value[..|images.value| - 1] == old(ImageEntries())
        && images.value[|images.value| - 1].fieldType == Some(ThumbnailPhotoType)
        && images.value[|images.value| - 1].value == thumbnailUrl
        && images.value[|images.value| - 1].linkText.None? && fresh(images.value[|images.value| - 1])
      ensures forall f ::
        (f in old(ImageEntries()) &&
         (old(FirstOfType(ThumbnailPhotoType, images)).None? || f != old(ImageEntries())[old(FirstOfType(ThumbnailPhotoType, images)).value])) ==>
        f.value == old(f.value) && f.fieldType == old(f.fieldType) && f.linkText == old(f.linkText)
      ensures urls == old(urls) && courseModules == old(courseModules) && updated == old(updated)
      ensures ThumbnailUrl() == old(ThumbnailUrl())
    {
      var newList, entry := SetTypedValue(ThumbnailPhotoType, thumbnailUrl, images, false);
      images := Some(newList);
    }
  }
}
