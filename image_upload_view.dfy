/** The image-upload component: the move buttons and their bounds guard, and the
    drop and file-picker forwarding. */
module ImageUploadView {
  import opened Wrappers
  import opened Text
  import opened Lists
  import ImageQueue

  datatype Direction = Up | Down

  /** `handleMoveImage`: the `(fromIndex, toIndex)` handed to `onReorderImage`, if
      the neighbour exists. */
  function MoveCall(index: int, direction: Direction, count: nat): (call: Option<(int, int)>)
    ensures direction == Up ==> (call.Some? <==> 0 <= index - 1 < count)
    ensures direction == Down ==> (call.Some? <==> 0 <= index + 1 < count)
    ensures call.Some? ==> call.value.0 == index
    ensures call.Some? && direction == Up ==> call.value.1 == index - 1
    ensures call.Some? && direction == Down ==> call.value.1 == index + 1
  {
    var newIndex := if direction == Up then index - 1 else index + 1;
    if newIndex >= 0 && newIndex < count then Some((index, newIndex)) else None
  }

  /** The first image cannot go up, the last cannot go down. */
  lemma MoveAtEdges(count: nat)
    requires count >= 1
    ensures MoveCall(0, Up, count).None?
    ensures MoveCall(count - 1, Down, count).None?
  {
  }

  /** The up control is shown for `index > 0`, the down control for
      `index < images.length - 1`. */
  function ShowsControl(index: int, direction: Direction, count: nat): (shown: bool) {
    if direction == Up then index > 0 else index < count - 1
  }

  /** For an image in the list, a control is shown exactly when its click reaches
      `onReorderImage`, and the indices it passes are in range. */
  lemma ControlsMatchGuard(index: nat, direction: Direction, count: nat)
    requires index < count
    ensures ShowsControl(index, direction, count) <==> MoveCall(index, direction, count).Some?
    ensures MoveCall(index, direction, count).Some? ==>
      0 <= MoveCall(index, direction, count).value.1 < count
  {
  }

  /** Moving an image one place and then pressing the opposite control on its new
      place gives back the list. */
  lemma MoveAndBack<T>(images: seq<T>, index: nat, direction: Direction)
    requires index < |images| && MoveCall(index, direction, |images|).Some?
    ensures
      var (from, to) := MoveCall(index, direction, |images|).value;
      var back := if direction == Up then Down else Up;
      MoveCall(to, back, |images|) == Some((to, from)) &&
      ImageQueue.Move(ImageQueue.Move(images, from, to), to, from) == images
  {
    var (from, to) := MoveCall(index, direction, |images|).value;
    ImageQueue.MoveBack(images, from, to);
  }

  predicate IsImageType(file: ImageQueue.ImageFile) {
    StartsWith(file.mimeType, "image/")
  }

  /** `handleDrop`: the dropped files whose type starts with "image/", in order;
      nothing is forwarded when none remain. */
  function DropCall(files: seq<ImageQueue.ImageFile>): (call: Option<seq<ImageQueue.ImageFile>>)
    ensures call.None? <==> forall i :: 0 <= i < |files| ==> !IsImageType(files[i])
    ensures call.Some? ==>
      SubsequenceOf(call.value, files) &&
      forall f :: f in call.value <==> f in files && IsImageType(f)
  {
    var images := Filter(files, IsImageType);
    if images == [] then
      assert forall i :: 0 <= i < |files| ==> !IsImageType(files[i]) by {
        forall i | 0 <= i < |files| ensures !IsImageType(files[i]) {
          assert files[i] in files;
        }
      }
      None
    else
      assert images[0] in images;
      Some(images)
  }

  /** Every type the queue accepts passes the drop filter, so the filter never
      drops a file the queue would have taken. */
  lemma AcceptedTypesAreImages(file: ImageQueue.ImageFile)
    requires ImageQueue.ValidateFile(file).None?
    ensures IsImageType(file)
  {
  }

  /** `handleFileSelect`: the picked files go through unfiltered, when there are
      any. */
  function PickCall(files: seq<ImageQueue.ImageFile>): (call: Option<seq<ImageQueue.ImageFile>>)
    ensures call.None? <==> files == []
    ensures call.Some? ==> call.value == files
  {
    if |files| > 0 then Some(files) else None
  }
}
