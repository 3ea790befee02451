/**
 * The browser values the core reads: pixel sizes of decoded images, and the
 * `File` objects a user selects or pastes.
 */
module Media {
  import opened Wrappers

  /** Width and height of a decoded raster, in pixels. */
  datatype Size = Size(width: nat, height: nat)

  /**
   * A user-supplied file. `mimeType` is the browser-reported `File.type`;
   * `decoded` is what the platform image decoder yields for the file's bytes,
   * `None` when decoding fails.
   */
  datatype File = File(mimeType: string, decoded: Option<Size>)
}
