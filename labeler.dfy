/**
 * The labeler's editing state and the operations that change it: the label
 * list, the selected label, the annotation store of the open image and the
 * begin/update/commit cycle of a mouse drag.
 */
module DataLabeler {
  import opened Wrappers
  import opened Text
  import opened Labels
  import opened Annotations
  import opened Yolo
  import opened Navigation

  /** Size of the drawing canvas, in display pixels. */
  const CanvasWidth: real := 800.0
  const CanvasHeight: real := 600.0

  /**
   * The display scale of an image `width` x `height`: the largest zoom at which
   * it fits the canvas, never above 1 (images are shrunk, not enlarged).
   */
  function DisplayScale(width: nat, height: nat): (s: real)
    requires width > 0 && height > 0
    ensures 0.0 < s <= 1.0
    ensures s * (width as real) <= CanvasWidth && s * (height as real) <= CanvasHeight
    ensures s == 1.0 || s == CanvasWidth / (width as real) || s == CanvasHeight / (height as real)
  {
    var w, h := CanvasWidth / (width as real), CanvasHeight / (height as real);
    DivideBack(CanvasWidth, 0.0, width as real);
    DivideBack(CanvasHeight, 0.0, height as real);
    var m := if w <= h then w else h;
    if m <= 1.0 then m else 1.0
  }

  /** Why a drag did or did not start. */
  datatype StartOutcome = Started | NeedImage | NeedLabel

  /** How a drag ended. */
  datatype EndOutcome = NotDrawing | Rejected | Committed

  /** What one save writes: the YOLO lines, the JSON record and the lines of `classes.txt`. */
  datatype SaveOutput = SaveOutput(yolo: seq<YoloLine>, record: Record, classes: seq<string>)

  /** Save refused: no image is open or the store is empty. */
  datatype SaveError = NothingToSave

  class Labeler {
    var labels: seq<string>
    var currentLabel: string
    var rectangles: seq<Annotation>
    /** The canvas shape of the drag in progress, if any. */
    var currentRect: Option<Handle>
    var startX: real
    var startY: real
    /** Path of the open image; "" while none is open. */
    var imagePath: string
    var imageLoaded: bool
    var imageWidth: nat
    var imageHeight: nat
    var imageScale: real

    /** The object invariant: a duplicate-free label list and a usable open image. */
    ghost predicate Valid()
      reads this
    {
      NoDuplicates(labels)
      && 0.0 < imageScale <= 1.0
      && (imageLoaded <==> imagePath != "")
      && (imageLoaded ==> imageWidth > 0 && imageHeight > 0)
    }

    constructor ()
      ensures Valid()
      ensures labels == [] && currentLabel == "" && rectangles == [] && currentRect == None
      ensures imagePath == "" && !imageLoaded && imageScale == 1.0
    {
      labels, currentLabel, rectangles, currentRect := [], "", [], None;
      startX, startY := 0.0, 0.0;
      imagePath, imageLoaded, imageWidth, imageHeight, imageScale := "", false, 0, 0, 1.0;
    }

    /**
     * Add Label: the stripped entry text is appended when it is non-empty and
     * not yet listed; otherwise the list is unchanged.
     */
    method AddLabel(entry: string) returns (added: bool)
      requires Valid()
      modifies this`labels
      ensures Valid()
      ensures added <==> Strip(entry) != "" && Strip(entry) !in old(labels)
      ensures labels == if added then old(labels) + [Strip(entry)] else old(labels)
    {
      var name := Strip(entry);
      added := name != "" && name !in labels;
      if added {
        AppendNoDuplicates(labels, name);
        labels := labels + [name];
      }
    }

    /**
     * Remove Selected Label: deletes the label at the selected position and
     * keeps the order of the others. Annotations that use it keep its name.
     */
    method RemoveLabel(selection: Option<nat>)
      requires Valid()
      requires selection.Some? ==> selection.value < |labels|
      modifies this`labels
      ensures Valid()
      ensures labels == if selection.None? then old(labels) else RemoveAt(old(labels), selection.value)
    {
      if selection.Some? {
        RemoveAtNoDuplicates(labels, selection.value);
        labels := RemoveAt(labels, selection.value);
      }
    }

    /** Selecting a row of the label list makes that label the current one. */
    method SelectLabel(selection: Option<nat>)
      requires Valid()
      requires selection.Some? ==> selection.value < |labels|
      modifies this`currentLabel
      ensures Valid()
      ensures currentLabel == if selection.None? then old(currentLabel) else labels[selection.value]
    {
      if selection.Some? {
        currentLabel := labels[selection.value];
      }
    }

    /**
     * Mouse press at (x, y): a drag starts, with `shape` as its canvas
     * rectangle, only when an image is open and a label is selected.
     */
    method StartRectangle(x: real, y: real, shape: Handle) returns (o: StartOutcome)
      requires Valid()
      modifies this`startX, this`startY, this`currentRect
      ensures Valid()
      ensures o == if !imageLoaded then NeedImage else if currentLabel == "" then NeedLabel else Started
      ensures o == Started ==> startX == x && startY == y && currentRect == Some(shape)
      ensures o != Started ==> unchanged(this)
    {
      if !imageLoaded || currentLabel == "" {
        o := if !imageLoaded then NeedImage else NeedLabel;
        return;
      }
      startX, startY := x, y;
      currentRect := Some(shape);
      o := Started;
    }

    /**
     * Mouse motion at (x, y): the rubber-band rectangle to show, from the drag's
     * start point to the pointer, or nothing when no drag is in progress.
     */
    method DrawRectangle(x: real, y: real) returns (shown: Option<(real, real, real, real)>)
      ensures shown.Some? <==> currentRect.Some?
      ensures shown.Some? ==> shown.value == (startX, startY, x, y)
    {
      shown := if currentRect.Some? then Some((startX, startY, x, y)) else None;
    }

    /**
     * Mouse release at (x, y): with a drag in progress, a drag too short along
     * either axis is dropped; otherwise the descaled, sorted box is appended
     * with the current label and the drag's shape. Either way no drag remains.
     */
    method EndRectangle(x: real, y: real) returns (o: EndOutcome)
      requires Valid()
      modifies this`rectangles, this`currentRect
      ensures Valid()
      ensures old(currentRect).None? ==>
        o == NotDrawing && rectangles == old(rectangles) && currentRect == old(currentRect)
      ensures old(currentRect).Some? && TooSmall(startX, startY, x, y) ==>
        o == Rejected && rectangles == old(rectangles) && currentRect == None
      ensures old(currentRect).Some? && !TooSmall(startX, startY, x, y) ==>
        o == Committed && currentRect == None
        && rectangles == old(rectangles)
             + [Annotation(currentLabel, CommitBox(startX, startY, x, y, imageScale), old(currentRect).value)]
      ensures AllOrdered(old(rectangles)) ==> AllOrdered(rectangles)
    {
      if currentRect.None? {
        return NotDrawing;
      }
      if TooSmall(startX, startY, x, y) {
        currentRect := None;
        return Rejected;
      }
      var box := CommitBox(startX, startY, x, y, imageScale);
      rectangles := rectangles + [Annotation(currentLabel, box, currentRect.value)];
      currentRect := None;
      o := Committed;
    }

    /**
     * Right click on the shape `item`: removes the first annotation drawn as
     * that shape, keeping the order of the rest; nothing changes when none is.
     */
    method DeleteAnnotation(item: Handle) returns (deleted: bool)
      requires Valid()
      modifies this`rectangles
      ensures Valid()
      ensures deleted <==> exists k :: 0 <= k < |old(rectangles)| && old(rectangles)[k].handle == item
      ensures rectangles == match FirstWithHandle(old(rectangles), item)
                            case None => old(rectangles)
                            case Some(k) => RemoveAt(old(rectangles), k)
      ensures AllOrdered(old(rectangles)) ==> AllOrdered(rectangles)
    {
      var i := 0;
      while i < |rectangles|
        invariant 0 <= i <= |rectangles|
        invariant rectangles == old(rectangles)
        invariant forall k :: 0 <= k < i ==> rectangles[k].handle != item
      {
        if rectangles[i].handle == item {
          rectangles := RemoveAt(rectangles, i);
          return true;
        }
        i := i + 1;
      }
      return false;
    }

    /** Clear All Annotations: the store becomes empty. */
    method ClearAnnotations()
      requires Valid()
      modifies this`rectangles
      ensures Valid()
      ensures rectangles == []
    {
      rectangles := [];
    }

    /**
     * Reading the record of the open image (`None` when it has none): its
     * unseen labels are appended to the label list and its annotations, in file
     * order, to the store, each with the handle of its redrawn shape.
     */
    method LoadExisting(rec: Option<Record>, handles: seq<Handle>)
      requires Valid()
      requires rec.Some? ==> |handles| == |rec.value.annotations|
      modifies this`labels, this`rectangles
      ensures Valid()
      ensures imagePath == "" || rec.None? ==> labels == old(labels) && rectangles == old(rectangles)
      ensures imagePath != "" && rec.Some? ==>
        labels == MergeLabels(old(labels), rec.value.labels)
        && labels == old(labels) + Unseen(old(labels), rec.value.labels)
        && rectangles == old(rectangles) + Attach(rec.value.annotations, handles)
    {
      if imagePath == "" || rec.None? {
        return;
      }
      MergeSavedLabels(rec.value.labels);
      AppendSaved(rec.value.annotations, handles);
    }

    /** The label loop of a load: each saved label not yet listed is appended, in file order. */
    method MergeSavedLabels(saved: seq<string>)
      requires Valid()
      modifies this`labels
      ensures Valid()
      ensures labels == MergeLabels(old(labels), saved)
      ensures labels == old(labels) + Unseen(old(labels), saved)
    {
      MergeAppendsUnseen(labels, saved);
      var i := 0;
      while i < |saved|
        invariant 0 <= i <= |saved|
        invariant NoDuplicates(labels)
        invariant MergeLabels(labels, saved[i..]) == MergeLabels(old(labels), saved)
      {
        assert saved[i..][0] == saved[i] && saved[i..][1..] == saved[i + 1..];
        if saved[i] !in labels {
          AppendNoDuplicates(labels, saved[i]);
          labels := labels + [saved[i]];
        }
        i := i + 1;
      }
      assert saved[i..] == [];
    }

    /** The annotation loop of a load: each saved annotation is appended with its shape's handle. */
    method AppendSaved(anns: seq<SavedAnnotation>, handles: seq<Handle>)
      requires Valid() && |handles| == |anns|
      modifies this`rectangles
      ensures Valid()
      ensures rectangles == old(rectangles) + Attach(anns, handles)
    {
      var j := 0;
      assert anns[..0] == [];
      while j < |anns|
        invariant 0 <= j <= |anns|
        invariant rectangles == old(rectangles) + Attach(anns[..j], handles[..j])
      {
        assert anns[..j + 1][..j] == anns[..j] && handles[..j + 1][..j] == handles[..j];
        rectangles := rectangles + [Annotation(anns[j].name, anns[j].bbox, handles[j])];
        j := j + 1;
      }
      assert anns[..j] == anns && handles[..j] == handles;
    }

    /**
     * Opening an image of `width` x `height` at `path`: the store is emptied,
     * the display scale recomputed and the image's record, if any, loaded.
     */
    method LoadImage(path: string, width: nat, height: nat, rec: Option<Record>, handles: seq<Handle>)
      requires Valid()
      requires path != "" && width > 0 && height > 0
      requires rec.Some? ==> |handles| == |rec.value.annotations|
      modifies this`imagePath, this`imageLoaded, this`imageWidth, this`imageHeight, this`imageScale
      modifies this`labels, this`rectangles
      ensures Valid()
      ensures imagePath == path && imageLoaded && imageWidth == width && imageHeight == height
      ensures imageScale == DisplayScale(width, height)
      ensures rec.None? ==> labels == old(labels) && rectangles == []
      ensures rec.Some? ==>
        labels == MergeLabels(old(labels), rec.value.labels)
        && rectangles == Attach(rec.value.annotations, handles)
    {
      imagePath, imageLoaded, imageWidth, imageHeight := path, true, width, height;
      ClearAnnotations();
      imageScale := DisplayScale(width, height);
      LoadExisting(rec, handles);
    }

    /**
     * Next Image / Previous Image: decides the step from the open image in the
     * sorted `files`, and when a neighbouring file is found opens it from the
     * unlabeled folder. `width`, `height`, `rec` and `handles` are that file's
     * image size, its record and the handles of its redrawn shapes.
     */
    method StepImage(files: seq<string>, dir: Direction, width: nat, height: nat,
                     rec: Option<Record>, handles: seq<Handle>) returns (s: Step)
      requires Valid()
      requires width > 0 && height > 0
      requires rec.Some? ==> |handles| == |rec.value.annotations|
      modifies this`imagePath, this`imageLoaded, this`imageWidth, this`imageHeight, this`imageScale
      modifies this`labels, this`rectangles
      ensures Valid()
      ensures s == Navigate(old(imagePath), files, dir)
      ensures !s.Open? ==> unchanged(this)
      ensures s.Open? ==>
        imagePath == JoinPath(UnlabeledPath, s.file) && imageLoaded
        && imageWidth == width && imageHeight == height && imageScale == DisplayScale(width, height)
        && (rec.None? ==> labels == old(labels) && rectangles == [])
        && (rec.Some? ==> labels == MergeLabels(old(labels), rec.value.labels)
                          && rectangles == Attach(rec.value.annotations, handles))
    {
      s := Navigate(imagePath, files, dir);
      if s.Open? {
        LoadImage(JoinPath(UnlabeledPath, s.file), width, height, rec, handles);
      }
    }

    /**
     * Save Annotations: refused with no open image or an empty store; otherwise
     * the YOLO lines of the store, the record of the image (its path and size,
     * the label list and the store's entries without handles) and the label
     * list for `classes.txt`.
     */
    method Save() returns (r: Result<SaveOutput, SaveError>)
      requires Valid()
      ensures r.Failure? <==> imagePath == "" || rectangles == []
      ensures r.Success? ==> r.value == SaveOutput(
        YoloLines(labels, rectangles, imageWidth, imageHeight),
        Record(imagePath, imageWidth, imageHeight, labels, Saved(rectangles)),
        labels)
    {
      if imagePath == "" || rectangles == [] {
        return Failure(NothingToSave);
      }
      var lines: seq<YoloLine> := [];
      var i := 0;
      while i < |rectangles|
        invariant 0 <= i <= |rectangles|
        invariant lines == YoloLines(labels, rectangles[..i], imageWidth, imageHeight)
      {
        assert rectangles[..i + 1][..i] == rectangles[..i];
        var a := rectangles[i];
        lines := lines + [ToYolo(labels, a.name, a.bbox, imageWidth, imageHeight)];
        i := i + 1;
      }
      var anns: seq<SavedAnnotation> := [];
      var j := 0;
      while j < |rectangles|
        invariant 0 <= j <= |rectangles|
        invariant anns == Saved(rectangles[..j])
      {
        assert rectangles[..j + 1][..j] == rectangles[..j];
        anns := anns + [SavedAnnotation(rectangles[j].name, rectangles[j].bbox)];
        j := j + 1;
      }
      assert rectangles[..i] == rectangles;
      var record := Record(imagePath, imageWidth, imageHeight, labels, anns);
      return Success(SaveOutput(lines, record, labels));
    }
  }

  /**
   * Saving and reopening an image restores its annotations: the record of a
   * store, loaded again, gives entries with the same labels and boxes in the
   * same order (ordered boxes stay ordered), and its label list leaves the
   * session's duplicate-free list unchanged, or rebuilds it in a fresh session.
   */
  lemma SaveThenLoad(labels: seq<string>, store: seq<Annotation>, path: string,
                     width: nat, height: nat, handles: seq<Handle>)
    requires NoDuplicates(labels) && |handles| == |store|
    ensures var rec := Record(path, width, height, labels, Saved(store));
      MergeLabels(labels, rec.labels) == labels
      && MergeLabels([], rec.labels) == labels
      && Saved(Attach(rec.annotations, handles)) == Saved(store)
      && (AllOrdered(store) ==> AllSavedOrdered(rec.annotations))
      && (AllOrdered(store) ==> AllOrdered(Attach(rec.annotations, handles)))
  {
    MergeKnown(labels, labels);
    MergeIntoEmpty(labels);
    SavedAttach(Saved(store), handles);
  }

  /**
   * Save, then reopen the same image with the record just written: the store
   * again holds the same labels and boxes in the same order, the label list is
   * unchanged, and the image's size is the one saved.
   */
  method SaveThenReopen(l: Labeler, handles: seq<Handle>)
    requires l.Valid() && l.imagePath != "" && l.rectangles != [] && |handles| == |l.rectangles|
    modifies l
    ensures l.Valid()
    ensures Saved(l.rectangles) == old(Saved(l.rectangles)) && l.labels == old(l.labels)
    ensures l.imagePath == old(l.imagePath) && l.imageWidth == old(l.imageWidth) && l.imageHeight == old(l.imageHeight)
  {
    var r := l.Save();
    var rec := r.value.record;
    SaveThenLoad(l.labels, l.rectangles, rec.imagePath, rec.imageWidth, rec.imageHeight, handles);
    l.LoadImage(rec.imagePath, rec.imageWidth, rec.imageHeight, Some(rec), handles);
  }
}
