/**
 * The annotation store's values: bounding boxes in image pixels, annotations
 * carrying the canvas handle of their drawn shape, and the per-image record
 * that is written to and read back from `<image name>.json`.
 */
module Annotations {
  import opened Wrappers

  /**
   * Canvas shape id of a drawn box. The store keeps it only to find the box
   * again on a right click. Tk numbers shapes from 1, and the source's
   * `if self.current_rect:` reads 0 as "no drag", so 0 is excluded.
   */
  type Handle = h: nat | h > 0 witness 1

  /** Corners (x1, y1) and (x2, y2) in image-pixel coordinates. */
  datatype BBox = BBox(x1: real, y1: real, x2: real, y2: real) {
    /** The invariant of a box drawn by the user: strictly sorted corners. */
    predicate Ordered() {
      x1 < x2 && y1 < y2
    }
  }

  /** One entry of the store: `{'label', 'bbox', 'canvas_id'}`. */
  datatype Annotation = Annotation(name: string, bbox: BBox, handle: Handle)

  /** One entry of a saved record: `{'label', 'bbox'}`, without the handle. */
  datatype SavedAnnotation = SavedAnnotation(name: string, bbox: BBox)

  /** The per-image record: image path and size, the label list, the annotations. */
  datatype Record = Record(
    imagePath: string,
    imageWidth: nat,
    imageHeight: nat,
    labels: seq<string>,
    annotations: seq<SavedAnnotation>)

  /** Least extent, in display pixels along each axis, of a box the user may commit. */
  const MinExtent: real := 5.0

  function Abs(x: real): real {
    if x < 0.0 then -x else x
  }

  /** The rejection test of `end_rectangle`: a drag shorter than MinExtent along either axis. */
  predicate TooSmall(startX: real, startY: real, endX: real, endY: real)
    ensures !TooSmall(startX, startY, endX, endY) ==>
      startX != endX && startY != endY
      && (endX - startX >= MinExtent || startX - endX >= MinExtent)
      && (endY - startY >= MinExtent || startY - endY >= MinExtent)
  {
    Abs(endX - startX) < MinExtent || Abs(endY - startY) < MinExtent
  }

  /** Python's `sorted` on each axis: the box spanned by two corners, whatever the drag direction. */
  function SortedBox(px: real, py: real, qx: real, qy: real): (b: BBox)
    ensures multiset{b.x1, b.x2} == multiset{px, qx} && b.x1 <= b.x2
    ensures multiset{b.y1, b.y2} == multiset{py, qy} && b.y1 <= b.y2
    ensures px != qx && py != qy ==> b.Ordered()
  {
    BBox(
      if px <= qx then px else qx, if py <= qy then py else qy,
      if px <= qx then qx else px, if py <= qy then qy else py)
  }

  /**
   * The box committed for a drag from (startX, startY) to (endX, endY) on a
   * display shown at `scale`: both corners divided by the scale, then each
   * axis sorted ascending. A drag that passes the size test gives an ordered box.
   */
  function CommitBox(startX: real, startY: real, endX: real, endY: real, scale: real): (b: BBox)
    requires scale > 0.0
    ensures multiset{b.x1, b.x2} == multiset{startX / scale, endX / scale} && b.x1 <= b.x2
    ensures multiset{b.y1, b.y2} == multiset{startY / scale, endY / scale} && b.y1 <= b.y2
    ensures !TooSmall(startX, startY, endX, endY) ==> b.Ordered()
  {
    DivideKeepsOrder(startX, endX, scale);
    DivideKeepsOrder(endX, startX, scale);
    DivideKeepsOrder(startY, endY, scale);
    DivideKeepsOrder(endY, startY, scale);
    SortedBox(startX / scale, startY / scale, endX / scale, endY / scale)
  }

  /** Dividing by a positive scale keeps strict order. */
  lemma DivideKeepsOrder(a: real, b: real, scale: real)
    requires scale > 0.0
    ensures a < b <==> a / scale < b / scale
  {
    var d := b / scale - a / scale;
    assert d * scale == b - a;
  }

  /** The record's annotation list for a store: each entry without its handle, in store order. */
  function Saved(s: seq<Annotation>): (r: seq<SavedAnnotation>)
    ensures |r| == |s|
    ensures forall i :: 0 <= i < |s| ==> r[i].name == s[i].name && r[i].bbox == s[i].bbox
  {
    if s == [] then []
    else Saved(s[..|s| - 1]) + [SavedAnnotation(s[|s| - 1].name, s[|s| - 1].bbox)]
  }

  /** Store entries for saved annotations, in file order, paired with the handles of their redrawn shapes. */
  function Attach(saved: seq<SavedAnnotation>, handles: seq<Handle>): (r: seq<Annotation>)
    requires |handles| == |saved|
    ensures |r| == |saved|
    ensures forall i :: 0 <= i < |r| ==>
      r[i].name == saved[i].name && r[i].bbox == saved[i].bbox && r[i].handle == handles[i]
  {
    if saved == [] then []
    else
      var n := |saved| - 1;
      Attach(saved[..n], handles[..n]) + [Annotation(saved[n].name, saved[n].bbox, handles[n])]
  }

  /** Saving the entries that loading created gives back the loaded annotations. */
  lemma {:induction false} SavedAttach(saved: seq<SavedAnnotation>, handles: seq<Handle>)
    requires |handles| == |saved|
    ensures Saved(Attach(saved, handles)) == saved
  {
    if saved != [] {
      var n := |saved| - 1;
      var a := Attach(saved, handles);
      assert a[..n] == Attach(saved[..n], handles[..n]);
      SavedAttach(saved[..n], handles[..n]);
      assert saved == saved[..n] + [saved[n]];
    }
  }

  /** Saving distributes over appending, so a loaded store saves as old entries then loaded ones. */
  lemma {:induction false} SavedAppend(s: seq<Annotation>, t: seq<Annotation>)
    ensures Saved(s + t) == Saved(s) + Saved(t)
    decreases |t|
  {
    if t != [] {
      var n := |t| - 1;
      assert (s + t)[..|s + t| - 1] == s + t[..n];
      SavedAppend(s, t[..n]);
    }
  }

  predicate AllOrdered(s: seq<Annotation>) {
    forall i :: 0 <= i < |s| ==> s[i].bbox.Ordered()
  }

  predicate AllSavedOrdered(s: seq<SavedAnnotation>) {
    forall i :: 0 <= i < |s| ==> s[i].bbox.Ordered()
  }

  /** Position of the first store entry whose handle is `h`: the entry `delete_annotation` removes. */
  function FirstWithHandle(s: seq<Annotation>, h: Handle): (r: Option<nat>)
    ensures r.None? <==> forall i :: 0 <= i < |s| ==> s[i].handle != h
    ensures r.Some? ==> r.value < |s| && s[r.value].handle == h
    ensures r.Some? ==> forall i :: 0 <= i < r.value ==> s[i].handle != h
  {
    if s == [] then None
    else if s[0].handle == h then Some(0)
    else
      match FirstWithHandle(s[1..], h)
      case None => None
      case Some(k) => Some(k + 1)
  }
}
