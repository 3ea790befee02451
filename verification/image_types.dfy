/** The table of accepted image MIME types and their file extensions. */
module ImageTypes {
  import opened Media

  /** The eight accepted MIME types, in declaration order. */
  const SupportedImageFormats: seq<string> := [
    "image/jpeg", "image/png", "image/webp", "image/gif",
    "image/avif", "image/svg+xml", "image/x-icon", "image/bmp"
  ]

  /** MIME type to file extension. */
  const ImageExtensions: map<string, string> := map[
    "image/jpeg" := "jpg", "image/png" := "png", "image/webp" := "webp",
    "image/gif" := "gif", "image/avif" := "avif", "image/svg+xml" := "svg",
    "image/x-icon" := "ico", "image/bmp" := "bmp"
  ]

  /** One entry of the extension list shown to the user. */
  datatype DisplayEntry = DisplayEntry(name: string, checked: bool)

  const ImageExtensionsDisplay: seq<DisplayEntry> := [
    DisplayEntry("jpg", true), DisplayEntry("png", true),
    DisplayEntry("webp", true), DisplayEntry("gif", true),
    DisplayEntry("avif", true), DisplayEntry("svg", true),
    DisplayEntry("ico", true), DisplayEntry("bmp", true)
  ]

  /** Exact, case-sensitive membership of the file's MIME type in the table. */
  predicate IsImageFile(f: File)
  {
    f.mimeType in SupportedImageFormats
  }

  /** `IsImageFile` accepts exactly the eight listed MIME strings and nothing else. */
  lemma IsImageFileExactly(f: File)
    ensures IsImageFile(f) <==>
      f.mimeType == "image/jpeg" || f.mimeType == "image/png" ||
      f.mimeType == "image/webp" || f.mimeType == "image/gif" ||
      f.mimeType == "image/avif" || f.mimeType == "image/svg+xml" ||
      f.mimeType == "image/x-icon" || f.mimeType == "image/bmp"
  {
  }

  /** The match is exact: near misses and other capitalisations are rejected. */
  lemma NearMissesRejected(d: Wrappers.Option<Size>)
    ensures !IsImageFile(File("image/jpg", d))
    ensures !IsImageFile(File("IMAGE/PNG", d))
    ensures !IsImageFile(File("image/svg", d))
    ensures !IsImageFile(File("", d))
  {
  }

  /** The extension map has an entry for every supported type and no other key. */
  lemma ExtensionKeysAreSupportedFormats()
    ensures forall m :: m in ImageExtensions <==> m in SupportedImageFormats
  {
  }

  /** The display list names are the extensions of the supported types, in order, all checked. */
  lemma DisplayFollowsExtensions()
    ensures |ImageExtensionsDisplay| == |SupportedImageFormats|
    ensures forall i :: 0 <= i < |SupportedImageFormats| ==>
      SupportedImageFormats[i] in ImageExtensions &&
      ImageExtensionsDisplay[i].name == ImageExtensions[SupportedImageFormats[i]] &&
      ImageExtensionsDisplay[i].checked
  {
  }

  /** A few mappings that are not simply the MIME subtype. */
  lemma IrregularExtensions()
    ensures ImageExtensions["image/jpeg"] == "jpg"
    ensures ImageExtensions["image/svg+xml"] == "svg"
    ensures ImageExtensions["image/x-icon"] == "ico"
  {
  }
}
