/**
 * The state logic of the splicing tool screen: choosing a layout, adding and
 * removing images, and building the export request.
 */
module SplicingTool {
  import opened Wrappers
  import opened Media
  import opened ImageTypes
  import opened Geometry
  import opened Compositor

  datatype Layout = Single | Row | Grid

  /** The screen's state, without the busy flag and the notifications. */
  datatype ToolState = ToolState(
    layout: Layout,
    rows: nat,
    columns: nat,
    spacing: int,
    autoSize: bool,
    images: seq<File>)

  /** The state when the screen first opens: a 2×2 grid, no gaps, native sizes, no images. */
  const Initial: ToolState := ToolState(Grid, 2, 2, 0, true, [])

  /** The notification raised after a selection of files. */
  datatype Notice = InvalidFiles | ImagesAdded(count: nat)

  datatype Selection = Selection(state: ToolState, notice: Notice)

  /** The files that pass `IsImageFile`, in their original order. */
  function ImageFiles(files: seq<File>): (r: seq<File>)
    ensures |r| <= |files|
    ensures forall f :: f in r <==> f in files && IsImageFile(f)
    ensures (forall i :: 0 <= i < |files| ==> IsImageFile(files[i])) ==> r == files
  {
    if |files| == 0 then []
    else (if IsImageFile(files[0]) then [files[0]] else []) + ImageFiles(files[1..])
  }

  /** Filtering a concatenation filters each part, keeping their order. */
  lemma {:induction false} ImageFilesAppend(a: seq<File>, b: seq<File>)
    ensures ImageFiles(a + b) == ImageFiles(a) + ImageFiles(b)
  {
    if |a| == 0 {
      assert a + b == b;
    } else {
      assert (a + b)[1..] == a[1..] + b;
      ImageFilesAppend(a[1..], b);
    }
  }

  /** Filtering twice is filtering once. */
  lemma ImageFilesIdempotent(files: seq<File>)
    ensures ImageFiles(ImageFiles(files)) == ImageFiles(files)
  {
  }

  /** Choosing a layout; only the layout, rows and columns change. */
  function LayoutChange(s: ToolState, layout: Layout): (t: ToolState)
    ensures t.layout == layout
    ensures layout == Single ==> t.rows == 1 && t.columns == 1
    ensures layout == Row ==> t.rows == |s.images| && t.columns == 1
    ensures layout == Grid ==> t.rows == 2 && t.columns == 2
    ensures t.spacing == s.spacing && t.autoSize == s.autoSize && t.images == s.images
  {
    match layout
    case Single => s.(layout := Single, rows := 1, columns := 1)
    case Row => s.(layout := Row, rows := |s.images|, columns := 1)
    case Grid => s.(layout := Grid, rows := 2, columns := 2)
  }

  /**
   * Adding files: the image files among them are appended after the current
   * images; when there are none the state is left as it was.
   */
  function ImagesSelected(s: ToolState, files: seq<File>): (r: Selection)
    ensures r.state.images == s.images + ImageFiles(files)
    ensures r.state.images[..|s.images|] == s.images
    ensures r.state == s.(images := r.state.images)
    ensures |ImageFiles(files)| == 0 <==> r.notice == InvalidFiles
    ensures |ImageFiles(files)| == 0 ==> r.state == s
    ensures r.notice.ImagesAdded? ==> r.notice.count == |r.state.images| - |s.images|
  {
    var added := ImageFiles(files);
    if |added| == 0 then Selection(s, InvalidFiles)
    else Selection(s.(images := s.images + added), ImagesAdded(|added|))
  }

  /** Keeps every element whose position differs from `i`. */
  function DropIndex(xs: seq<File>, i: int): (r: seq<File>)
    ensures 0 <= i < |xs| ==> r == xs[..i] + xs[i + 1..]
    ensures !(0 <= i < |xs|) ==> r == xs
  {
    if |xs| == 0 then []
    else (if i == 0 then [] else [xs[0]]) + DropIndex(xs[1..], i - 1)
  }

  /** Removing the image at position `index`; any other index leaves the list alone. */
  function RemoveImage(s: ToolState, index: int): (t: ToolState)
    ensures t == s.(images := t.images)
    ensures 0 <= index < |s.images| ==>
      |t.images| == |s.images| - 1 &&
      multiset(t.images) + multiset{s.images[index]} == multiset(s.images) &&
      (forall j :: 0 <= j < index ==> t.images[j] == s.images[j]) &&
      (forall j :: index <= j < |t.images| ==> t.images[j] == s.images[j + 1])
    ensures !(0 <= index < |s.images|) ==> t == s
  {
    var kept := DropIndex(s.images, index);
    assert 0 <= index < |s.images| ==>
      s.images == s.images[..index] + [s.images[index]] + s.images[index + 1..];
    s.(images := kept)
  }

  /** The request built by the export action; none when there are no images. */
  function ExportConfig(s: ToolState): (r: Option<SplicedImageConfig>)
    ensures r.None? <==> |s.images| == 0
    ensures r.Some? ==>
      r.value.format == "png" && r.value.quality == 90 &&
      r.value.spacing == s.spacing && r.value.autoSize == s.autoSize &&
      (s.layout == Row ==> r.value.rows == |s.images| && r.value.columns == 1) &&
      (s.layout != Row ==> r.value.rows == s.rows && r.value.columns == s.columns)
  {
    if |s.images| == 0 then None
    else
      Some(SplicedImageConfig(
        if s.layout == Row then |s.images| else s.rows,
        if s.layout == Row then 1 else s.columns,
        s.spacing,
        "png",
        90,
        s.autoSize))
  }

  /** What pressing the export button leads to. */
  datatype Outcome =
    | NoImages                   // "no images" notice, nothing is composed
    | Created(result: Composite) // composed and handed to the download
    | Failed(error: ComposeError)

  function CreateSplicedImage(s: ToolState, platform: Platform): (o: Outcome)
    ensures o == NoImages <==> |s.images| == 0
    ensures o.Created? ==>
      o.result.requestedType == "image/png" && o.result.encoderQuality == 0.9
    ensures o.Failed? ==>
      o.error == DecodeError || !platform.contextAvailable || o.error == BlobFailed
  {
    match ExportConfig(s)
    case None => NoImages
    case Some(config) =>
      match Compose(s.images, config, platform)
      case Success(c) => Created(c)
      case Failure(e) => Failed(e)
  }

  // ---------------------------------------------------------------------------
  // Properties across transitions

  /** Every stored image passed the MIME check. */
  predicate AllSupported(s: ToolState)
  {
    forall i :: 0 <= i < |s.images| ==> IsImageFile(s.images[i])
  }

  /** The initial state and every transition keep only supported images in the list. */
  lemma TransitionsKeepImagesSupported(s: ToolState, layout: Layout, files: seq<File>, index: int)
    requires AllSupported(s)
    ensures AllSupported(Initial)
    ensures AllSupported(LayoutChange(s, layout))
    ensures AllSupported(ImagesSelected(s, files).state)
    ensures AllSupported(RemoveImage(s, index))
  {
  }

  /** In the row layout every image is drawn, one per row, whatever rows were stored. */
  lemma RowLayoutDrawsEveryImage(s: ToolState, platform: Platform)
    requires s.layout == Row
    requires CreateSplicedImage(s, platform).Created?
    ensures |CreateSplicedImage(s, platform).result.draws| == |s.images|
  {
  }

  /** In the single layout only the first image is drawn, on a canvas of its own size. */
  lemma SingleLayoutDrawsOnlyFirst(s: ToolState, platform: Platform)
    requires s.layout == Single && s.rows == 1 && s.columns == 1
    requires CreateSplicedImage(s, platform).Created?
    ensures |CreateSplicedImage(s, platform).result.draws| == 1
    ensures CreateSplicedImage(s, platform).result.draws[0].index == 0
  {
  }

  /** Choosing the single layout and exporting draws only the first image. */
  lemma ChooseSingleThenExport(s: ToolState, platform: Platform)
    requires CreateSplicedImage(LayoutChange(s, Single), platform).Created?
    ensures |CreateSplicedImage(LayoutChange(s, Single), platform).result.draws| == 1
  {
    SingleLayoutDrawsOnlyFirst(LayoutChange(s, Single), platform);
  }

  /** Adding files then removing the last added one restores the earlier list when one file was added. */
  lemma AddOneThenRemoveRestores(s: ToolState, f: File)
    requires IsImageFile(f)
    ensures RemoveImage(ImagesSelected(s, [f]).state, |s.images|) == s
  {
  }
}
