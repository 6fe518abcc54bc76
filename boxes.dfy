/** Oriented ground-truth boxes and the per-coordinate transforms applied to
    them: floor-division rescaling and the horizontal mirror. A box set is a
    sequence whose order is the row order of the `[N, 9]` array. */
module Boxes {
  import opened Geometry

  /** One row `[x1, y1, x2, y2, x3, y3, x4, y4, label]`: the four corners
      of a quadrilateral (not necessarily axis-aligned) and its class label (`category`). */
  datatype Box = Box(x1: int, y1: int, x2: int, y2: int,
                     x3: int, y3: int, x4: int, y4: int, category: int)

  /** The x-coordinates of the four corners, in corner order. */
  function Xs(b: Box): seq<int> { [b.x1, b.x2, b.x3, b.x4] }

  /** The y-coordinates of the four corners, in corner order. */
  function Ys(b: Box): seq<int> { [b.y1, b.y2, b.y3, b.y4] }

  /** The label column of a box set, in row order. */
  function Labels(bs: seq<Box>): (r: seq<int>)
    ensures |r| == |bs|
    ensures forall i :: 0 <= i < |bs| ==> r[i] == bs[i].category
  {
    if bs == [] then [] else [bs[0].category] + Labels(bs[1..])
  }

  /** Every corner of `b` lies in the closed rectangle `[0, w] x [0, h]`. */
  predicate InImage(b: Box, h: int, w: int) {
    && 0 <= b.x1 <= w && 0 <= b.x2 <= w && 0 <= b.x3 <= w && 0 <= b.x4 <= w
    && 0 <= b.y1 <= h && 0 <= b.y2 <= h && 0 <= b.y3 <= h && 0 <= b.y4 <= h
  }

  /** Every box of the set lies inside an `h` by `w` image. */
  predicate AllInImage(bs: seq<Box>, h: int, w: int) {
    forall i :: 0 <= i < |bs| ==> InImage(bs[i], h, w)
  }

  /** Applies `f` to every row, keeping the number and order of rows. */
  function MapBoxes(f: Box -> Box, bs: seq<Box>): (r: seq<Box>)
    ensures |r| == |bs|
    ensures forall i :: 0 <= i < |bs| ==> r[i] == f(bs[i])
  {
    if bs == [] then [] else [f(bs[0])] + MapBoxes(f, bs[1..])
  }

  /** A row transform that keeps every label keeps the label column. */
  lemma {:induction false} MapBoxesKeepsLabels(f: Box -> Box, bs: seq<Box>)
    requires forall b :: f(b).category == b.category
    ensures Labels(MapBoxes(f, bs)) == Labels(bs)
  {
    if bs != [] {
      MapBoxesKeepsLabels(f, bs[1..]);
      assert MapBoxes(f, bs) == [f(bs[0])] + MapBoxes(f, bs[1..]);
    }
  }

  /** Rescales one box from an `imgH` by `imgW` image to an `rh` by `rw`
      one: x-coordinates by `rw / imgW`, y-coordinates by `rh / imgH`, each
      with floor division; the label is carried over. */
  function ScaleBox(b: Box, rw: int, imgW: int, rh: int, imgH: int): (r: Box)
    requires imgW > 0 && imgH > 0
    ensures r.category == b.category
  {
    Box(ScaleCoord(b.x1, rw, imgW), ScaleCoord(b.y1, rh, imgH),
        ScaleCoord(b.x2, rw, imgW), ScaleCoord(b.y2, rh, imgH),
        ScaleCoord(b.x3, rw, imgW), ScaleCoord(b.y3, rh, imgH),
        ScaleCoord(b.x4, rw, imgW), ScaleCoord(b.y4, rh, imgH),
        b.category)
  }

  /** Rescales every box of the set (same count, same order). */
  function ScaleBoxes(bs: seq<Box>, rw: int, imgW: int, rh: int, imgH: int): (r: seq<Box>)
    requires imgW > 0 && imgH > 0
    ensures |r| == |bs|
    ensures forall i :: 0 <= i < |bs| ==> r[i] == ScaleBox(bs[i], rw, imgW, rh, imgH)
    ensures Labels(r) == Labels(bs)
  {
    var f := (b: Box) => ScaleBox(b, rw, imgW, rh, imgH);
    MapBoxesKeepsLabels(f, bs);
    MapBoxes(f, bs)
  }

  /** Each rescaled corner is within one pixel below the exact rescaled
      corner, on both axes. */
  lemma ScaleBoxWithinOnePixel(b: Box, rw: int, imgW: int, rh: int, imgH: int)
    requires imgW > 0 && imgH > 0
    ensures forall k :: 0 <= k < 4 ==>
      var x, x' := Xs(b)[k], Xs(ScaleBox(b, rw, imgW, rh, imgH))[k];
      x' * imgW <= x * rw < (x' + 1) * imgW
    ensures forall k :: 0 <= k < 4 ==>
      var y, y' := Ys(b)[k], Ys(ScaleBox(b, rw, imgW, rh, imgH))[k];
      y' * imgH <= y * rh < (y' + 1) * imgH
  {
  }

  /** A box inside the old image is, once rescaled, inside the new image. */
  lemma ScaleBoxInImage(b: Box, rw: int, imgW: int, rh: int, imgH: int)
    requires imgW > 0 && imgH > 0 && rw >= 0 && rh >= 0
    requires InImage(b, imgH, imgW)
    ensures InImage(ScaleBox(b, rw, imgW, rh, imgH), rh, rw)
  {
    ScaleCoordBounds(b.x1, rw, imgW);
    ScaleCoordBounds(b.x2, rw, imgW);
    ScaleCoordBounds(b.x3, rw, imgW);
    ScaleCoordBounds(b.x4, rw, imgW);
    ScaleCoordBounds(b.y1, rh, imgH);
    ScaleCoordBounds(b.y2, rh, imgH);
    ScaleCoordBounds(b.y3, rh, imgH);
    ScaleCoordBounds(b.y4, rh, imgH);
  }

  /** Rescaling keeps a whole box set inside the image. */
  lemma ScaleBoxesInImage(bs: seq<Box>, rw: int, imgW: int, rh: int, imgH: int)
    requires imgW > 0 && imgH > 0 && rw >= 0 && rh >= 0
    requires AllInImage(bs, imgH, imgW)
    ensures AllInImage(ScaleBoxes(bs, rw, imgW, rh, imgH), rh, rw)
  {
    forall i | 0 <= i < |bs|
      ensures InImage(ScaleBoxes(bs, rw, imgW, rh, imgH)[i], rh, rw)
    {
      ScaleBoxInImage(bs[i], rw, imgW, rh, imgH);
    }
  }

  /** Rescaling keeps the left-to-right and top-to-bottom order of any two
      corners of a box. */
  lemma ScaleBoxMonotone(b: Box, rw: int, imgW: int, rh: int, imgH: int, j: int, k: int)
    requires imgW > 0 && imgH > 0 && rw >= 0 && rh >= 0
    requires 0 <= j < 4 && 0 <= k < 4
    ensures Xs(b)[j] <= Xs(b)[k] ==>
      Xs(ScaleBox(b, rw, imgW, rh, imgH))[j] <= Xs(ScaleBox(b, rw, imgW, rh, imgH))[k]
    ensures Ys(b)[j] <= Ys(b)[k] ==>
      Ys(ScaleBox(b, rw, imgW, rh, imgH))[j] <= Ys(ScaleBox(b, rw, imgW, rh, imgH))[k]
  {
    if Xs(b)[j] <= Xs(b)[k] {
      ScaleCoordMonotone(Xs(b)[j], Xs(b)[k], rw, imgW);
    }
    if Ys(b)[j] <= Ys(b)[k] {
      ScaleCoordMonotone(Ys(b)[j], Ys(b)[k], rh, imgH);
    }
  }

  /** Rescaling onto an image of the same size changes no box. */
  lemma ScaleBoxesIdentity(bs: seq<Box>, w: int, h: int)
    requires w > 0 && h > 0
    ensures ScaleBoxes(bs, w, w, h, h) == bs
  {
    forall i | 0 <= i < |bs| ensures ScaleBoxes(bs, w, w, h, h)[i] == bs[i] {
      var b := bs[i];
      ScaleCoordIdentity(b.x1, w); ScaleCoordIdentity(b.x2, w);
      ScaleCoordIdentity(b.x3, w); ScaleCoordIdentity(b.x4, w);
      ScaleCoordIdentity(b.y1, h); ScaleCoordIdentity(b.y2, h);
      ScaleCoordIdentity(b.y3, h); ScaleCoordIdentity(b.y4, h);
    }
  }

  /** Mirrors one box about the vertical centre line of a `w`-wide image:
      each x becomes `w - x`, without clamping; the y-coordinates and the
      label are carried over. */
  function FlipBox(b: Box, w: int): (r: Box)
    ensures Ys(r) == Ys(b) && r.category == b.category
    ensures forall k :: 0 <= k < 4 ==> Xs(r)[k] + Xs(b)[k] == w
  {
    Box(w - b.x1, b.y1, w - b.x2, b.y2, w - b.x3, b.y3, w - b.x4, b.y4, b.category)
  }

  /** Mirrors every box of the set (same count, same order). */
  function FlipBoxes(bs: seq<Box>, w: int): (r: seq<Box>)
    ensures |r| == |bs|
    ensures forall i :: 0 <= i < |bs| ==> r[i] == FlipBox(bs[i], w)
    ensures Labels(r) == Labels(bs)
  {
    var f := (b: Box) => FlipBox(b, w);
    MapBoxesKeepsLabels(f, bs);
    MapBoxes(f, bs)
  }

  /** Mirroring twice about the same width gives back every box. */
  lemma FlipBoxesInvolution(bs: seq<Box>, w: int)
    ensures FlipBoxes(FlipBoxes(bs, w), w) == bs
  {
    var r := FlipBoxes(FlipBoxes(bs, w), w);
    assert forall i :: 0 <= i < |bs| ==> r[i] == FlipBox(FlipBox(bs[i], w), w);
  }

  /** Mirroring keeps a box set inside the image, although it does not clamp. */
  lemma FlipBoxesInImage(bs: seq<Box>, h: int, w: int)
    requires AllInImage(bs, h, w)
    ensures AllInImage(FlipBoxes(bs, w), h, w)
  {
  }
}
