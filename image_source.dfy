/**
 * helpers/imageUtils.ts: turns whatever a listing stores as an image into something the image
 * component can show: a bundled asset, or a `{uri}` source.
 */
module ImageSource {
  import opened JsText
  import ServiceFeed

  const HttpPrefix := "http"
  const DefaultImageKey := "service_default_image"

  /** The argument of getImageSource, by its JavaScript type. */
  datatype ImageValue =
    | ObjectValue(handle: nat)   // an object, such as a `require()`d asset or a `{uri}` record
    | NullValue                  // `null`, whose typeof is also "object"
    | Text(s: string)
    | Scalar                     // undefined, a number or a boolean

  /** The returned source. */
  datatype Source =
    | AsGiven(value: ImageValue)   // the argument itself
    | UriOf(uri: ImageValue)       // `{uri: argument}`
    | BundledDefault               // the bundled default service image

  /** `getImageSource`. */
  function GetImageSource(v: ImageValue): (r: Source)
    ensures r.AsGiven? <==> v.ObjectValue? || v.NullValue?
    ensures r.AsGiven? ==> r.value == v
    ensures r == BundledDefault <==> v.Text? && !StartsWith(v.s, HttpPrefix) && Includes(v.s, DefaultImageKey)
    ensures r.UriOf? ==> r.uri == v
  {
    if v.ObjectValue? || v.NullValue? then AsGiven(v)
    else if v.Text? && StartsWith(v.s, HttpPrefix) then UriOf(v)
    else if v.Text? && Includes(v.s, DefaultImageKey) then BundledDefault
    else UriOf(v)
  }

  /** A remote address is always loaded remotely, even one that names the default image. */
  lemma RemoteWinsOverDefault(url: string)
    requires StartsWith(url, HttpPrefix)
    ensures GetImageSource(Text(url)) == UriOf(Text(url))
  {
  }

  /** The placeholder path the home feed puts on listings without photos resolves to the bundled asset. */
  lemma FeedPlaceholderIsBundled()
    ensures GetImageSource(Text(ServiceFeed.DefaultServiceImage)) == BundledDefault
  {
    var folder, ext := "@/assets/images/", ".png";
    var path := folder + DefaultImageKey + ext;
    assert path == ServiceFeed.DefaultServiceImage;
    assert path[|folder|..|folder| + |DefaultImageKey|] == DefaultImageKey;
    OccursAtIncludes(path, DefaultImageKey, |folder|);
    assert path[0] == '@';
  }
}
