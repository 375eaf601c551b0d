/**
 * The YOLO text line written for each stored box:
 * `class_id center_x center_y width height`, with the box normalised by the
 * image size.
 */
module Yolo {
  import opened Labels
  import opened Annotations

  datatype YoloLine = YoloLine(classId: nat, cx: real, cy: real, w: real, h: real)

  /** Real division distributes over a difference and is undone by multiplying back. */
  lemma DivideBack(a: real, b: real, d: real)
    requires d > 0.0
    ensures a / d - b / d == (a - b) / d && a / d + b / d == (a + b) / d
    ensures (a / d) * d == a
  {
  }

  /**
   * The line for one annotation of an image `width` x `height`: the class id of
   * its label, the box centre and the box extent, each normalised. The corners
   * are recovered from the line as `(cx -/+ w/2) * width` and
   * `(cy -/+ h/2) * height`, and an ordered box has positive width and height.
   */
  function ToYolo(labels: seq<string>, name: string, b: BBox, width: nat, height: nat): (y: YoloLine)
    requires width > 0 && height > 0
    ensures y.classId == ClassId(labels, name)
    ensures b.x1 == (y.cx - y.w / 2.0) * (width as real) && b.x2 == (y.cx + y.w / 2.0) * (width as real)
    ensures b.y1 == (y.cy - y.h / 2.0) * (height as real) && b.y2 == (y.cy + y.h / 2.0) * (height as real)
    ensures b.Ordered() ==> y.w > 0.0 && y.h > 0.0
  {
    var W, H := width as real, height as real;
    var y := YoloLine(ClassId(labels, name), (b.x1 + b.x2) / 2.0 / W, (b.y1 + b.y2) / 2.0 / H,
                      (b.x2 - b.x1) / W, (b.y2 - b.y1) / H);
    CornersBack(b.x1, b.x2, W);
    CornersBack(b.y1, b.y2, H);
    y
  }

  /** One axis of the round trip: centre and extent over `d` give back both ends. */
  lemma CornersBack(lo: real, hi: real, d: real)
    requires d > 0.0
    ensures lo == ((lo + hi) / 2.0 / d - (hi - lo) / d / 2.0) * d
    ensures hi == ((lo + hi) / 2.0 / d + (hi - lo) / d / 2.0) * d
    ensures lo < hi ==> (hi - lo) / d > 0.0
  {
    var c, e := (lo + hi) / 2.0 / d, (hi - lo) / d;
    assert c == ((lo + hi) / 2.0) / d;
    assert e / 2.0 == ((hi - lo) / 2.0) / d;
    DivideBack((lo + hi) / 2.0, (hi - lo) / 2.0, d);
    DivideBack(lo, 0.0, d);
    DivideBack(hi, 0.0, d);
    assert c - e / 2.0 == lo / d;
    assert c + e / 2.0 == hi / d;
  }

  /** The YOLO file of a store: one line per annotation, in store order. */
  function YoloLines(labels: seq<string>, s: seq<Annotation>, width: nat, height: nat): (r: seq<YoloLine>)
    requires width > 0 && height > 0
    ensures |r| == |s|
    ensures forall i :: 0 <= i < |s| ==> r[i] == ToYolo(labels, s[i].name, s[i].bbox, width, height)
  {
    if s == [] then []
    else
      var n := |s| - 1;
      YoloLines(labels, s[..n], width, height) + [ToYolo(labels, s[n].name, s[n].bbox, width, height)]
  }

  /**
   * A box inside the image normalises into the unit square: centre in [0, 1]
   * and extent in (0, 1], with no clamping needed.
   */
  lemma InsideImageIsNormalised(labels: seq<string>, name: string, b: BBox, width: nat, height: nat)
    requires width > 0 && height > 0 && b.Ordered()
    requires 0.0 <= b.x1 && b.x2 <= width as real && 0.0 <= b.y1 && b.y2 <= height as real
    ensures var y := ToYolo(labels, name, b, width, height);
      0.0 <= y.cx <= 1.0 && 0.0 <= y.cy <= 1.0 && 0.0 < y.w <= 1.0 && 0.0 < y.h <= 1.0
  {
    var y := ToYolo(labels, name, b, width, height);
    UnitAxis(b.x1, b.x2, width as real);
    UnitAxis(b.y1, b.y2, height as real);
  }

  lemma UnitAxis(lo: real, hi: real, d: real)
    requires d > 0.0 && 0.0 <= lo < hi <= d
    ensures 0.0 <= (lo + hi) / 2.0 / d <= 1.0 && 0.0 < (hi - lo) / d <= 1.0
  {
    DivideBack((lo + hi) / 2.0, d, d);
    DivideBack(hi - lo, d, d);
    assert (lo + hi) / 2.0 / d - d / d == ((lo + hi) / 2.0 - d) / d;
    assert (hi - lo) / d - d / d == (hi - lo - d) / d;
    DivideSign((lo + hi) / 2.0 - d, d);
    DivideSign(hi - lo - d, d);
    DivideSign((lo + hi) / 2.0, d);
    DivideSign(hi - lo, d);
  }

  lemma DivideSign(a: real, d: real)
    requires d > 0.0
    ensures a <= 0.0 ==> a / d <= 0.0
    ensures a >= 0.0 ==> a / d >= 0.0
    ensures a > 0.0 ==> a / d > 0.0
  {
    assert (a / d) * d == a;
  }

  /**
   * Two boxes on a 640 x 480 image labelled "cat" and "dog": the lines
   * `0 0.093750 0.250000 0.156250 0.416667` and
   * `1 0.625000 0.520833 0.312500 0.625000` once printed to six decimals.
   */
  lemma CatAndDogExample()
    ensures ToYolo(["cat", "dog"], "cat", BBox(10.0, 20.0, 110.0, 220.0), 640, 480)
      == YoloLine(0, 0.09375, 0.25, 0.15625, 5.0 / 12.0)
    ensures ToYolo(["cat", "dog"], "dog", BBox(300.0, 100.0, 500.0, 400.0), 640, 480)
      == YoloLine(1, 0.625, 25.0 / 48.0, 0.3125, 0.625)
  {
  }
}
