/** The augmentation pipeline: short-side resize (training and inference
    variants), horizontal flip, random flip and aspect-ratio jittering.
    Each operation maps an image and its box set to a new image and box
    set, applying the same per-axis mapping to the image's size and to
    every box coordinate. The resizes take an image's shape, since the pixel
    values produced by bilinear resampling are not modelled; the flips take
    its pixel grid, whose column reversal is. */
module Preprocess {
  import opened Geometry
  import opened Boxes
  import opened Pixels

  /** The shape `[h, w, c]` of an image tensor. */
  datatype Image = Image(height: nat, width: nat, channels: nat)

  /** An image together with its ground-truth box set. */
  datatype Sample = Sample(image: Image, boxes: seq<Box>)

  /** An image with its pixels, used by the flips, whose pixel output is
      exact: `rows` holds the pixel rows top to bottom, each `width` pixels
      wide (a pixel `P` being the channel values at one position). */
  datatype Picture<P> = Picture(width: nat, rows: seq<seq<P>>) {
    /** Every row holds exactly `width` pixels. */
    predicate Valid() { HasWidth(rows, width) }
  }

  /** A flipped (or passed-through) picture with its box set. */
  datatype Flipped<P> = Flipped(picture: Picture<P>, boxes: seq<Box>)

  /** The result of the training short-side resize: the resized sample and
      the `(new_h, new_w)` it was resized to. */
  datatype Resized = Resized(image: Image, boxes: seq<Box>, newH: int, newW: int)

  /** Both spatial sizes are positive, so that coordinates can be rescaled. */
  predicate NonEmpty(img: Image) {
    img.height > 0 && img.width > 0
  }

  /** The `(new_h, new_w)` of the short-side resize. When the image is
      wider than tall, the height becomes `target` and the width follows the
      aspect ratio, capped at `limit`; otherwise (a square image included)
      the width becomes `target` and the height follows, capped. The two
      sizes are positive exactly when `target` and `limit` are. */
  function ShortSideDims(imgH: int, imgW: int, target: int, limit: int): (d: (int, int))
    requires imgH > 0 && imgW > 0
    ensures (d.0 > 0 && d.1 > 0) <==> (target > 0 && limit > 0)
  {
    if imgH < imgW then
      ScaleCoordGrows(target, imgW, imgH);
      (target, MaxLengthLimitation(ScaleCoord(target, imgW, imgH), limit))
    else
      ScaleCoordGrows(target, imgH, imgW);
      (MaxLengthLimitation(ScaleCoord(target, imgH, imgW), limit), target)
  }

  /** The shorter output side is `min(target, limit)`: the target length,
      unless the cap is smaller still. */
  lemma ShortSideDimsShortSide(imgH: int, imgW: int, target: int, limit: int)
    requires imgH > 0 && imgW > 0 && target >= 0
    ensures var d := ShortSideDims(imgH, imgW, target, limit);
      MaxLengthLimitation(d.0, d.1) == MaxLengthLimitation(target, limit)
  {
    if imgH < imgW {
      ScaleCoordGrows(target, imgW, imgH);
    } else {
      ScaleCoordGrows(target, imgH, imgW);
    }
  }

  /** The side that does not receive `target` never exceeds `limit`, and
      equals `limit` whenever the aspect-scaled length reaches the cap. */
  lemma ShortSideDimsCapped(imgH: int, imgW: int, target: int, limit: int)
    requires imgH > 0 && imgW > 0
    ensures var d := ShortSideDims(imgH, imgW, target, limit);
      if imgH < imgW then
        && d.0 == target && d.1 <= limit
        && (limit <= target * imgW / imgH ==> d.1 == limit)
      else
        && d.1 == target && d.0 <= limit
        && (limit <= target * imgH / imgW ==> d.0 == limit)
  {
  }

  /** When `target <= limit` the orientation survives: a landscape image
      stays at least as wide as tall, a portrait one at least as tall as
      wide, and a square one becomes `target` by `target`. */
  lemma ShortSideDimsOrientation(imgH: int, imgW: int, target: int, limit: int)
    requires imgH > 0 && imgW > 0 && 0 <= target <= limit
    ensures var d := ShortSideDims(imgH, imgW, target, limit);
      && (imgH < imgW ==> d.0 <= d.1)
      && (imgW < imgH ==> d.1 <= d.0)
      && (imgH == imgW ==> d == (target, target))
  {
    if imgH < imgW {
      ScaleCoordGrows(target, imgW, imgH);
    } else {
      ScaleCoordGrows(target, imgH, imgW);
      if imgH == imgW {
        ScaleCoordIdentity(target, imgW);
      }
    }
  }

  /** When the cap does not bite, the long side keeps the aspect ratio to
      within one pixel: `new_long` is `target * long / short` rounded down. */
  lemma ShortSideDimsAspect(imgH: int, imgW: int, target: int, limit: int)
    requires imgH > 0 && imgW > 0
    ensures var d := ShortSideDims(imgH, imgW, target, limit);
      && (imgH < imgW && target * imgW / imgH < limit ==>
            d.1 * imgH <= target * imgW < (d.1 + 1) * imgH)
      && (imgW <= imgH && target * imgH / imgW < limit ==>
            d.0 * imgW <= target * imgH < (d.0 + 1) * imgW)
  {
  }

  /** Short-side resize with its boxes: the image is resized to
      `(new_h, new_w)` and every box is rescaled by `new_w / w` in x and
      `new_h / h` in y; the sizes it reports are the ones it resized to. */
  function ShortSideResize(img: Image, boxes: seq<Box>, target: int, limit: int): (r: Resized)
    requires NonEmpty(img) && target > 0 && limit > 0
    ensures (r.newH, r.newW) == ShortSideDims(img.height, img.width, target, limit)
    ensures r.image == Image(r.newH, r.newW, img.channels) && NonEmpty(r.image)
    ensures r.boxes == ScaleBoxes(boxes, r.newW, img.width, r.newH, img.height)
    ensures |r.boxes| == |boxes| && Labels(r.boxes) == Labels(boxes)
  {
    var (newH, newW) := ShortSideDims(img.height, img.width, target, limit);
    Resized(Image(newH, newW, img.channels),
            ScaleBoxes(boxes, newW, img.width, newH, img.height),
            newH, newW)
  }

  /** Boxes inside the image before the short-side resize are inside the
      resized image afterwards. */
  lemma ShortSideResizeInImage(img: Image, boxes: seq<Box>, target: int, limit: int)
    requires NonEmpty(img) && target > 0 && limit > 0
    requires AllInImage(boxes, img.height, img.width)
    ensures var r := ShortSideResize(img, boxes, target, limit);
      AllInImage(r.boxes, r.image.height, r.image.width)
  {
    var r := ShortSideResize(img, boxes, target, limit);
    ScaleBoxesInImage(boxes, r.newW, img.width, r.newH, img.height);
  }

  /** The image-only short-side resize used for inference: unchanged when
      `isResize` is false, otherwise resized to the short-side sizes. */
  function ShortSideResizeForInference(img: Image, target: int, limit: int, isResize: bool): (r: Image)
    requires isResize ==> NonEmpty(img) && target > 0 && limit > 0
    ensures !isResize ==> r == img
    ensures isResize ==>
      (r.height, r.width) == ShortSideDims(img.height, img.width, target, limit)
      && r.channels == img.channels
  {
    if isResize then
      var (newH, newW) := ShortSideDims(img.height, img.width, target, limit);
      Image(newH, newW, img.channels)
    else
      img
  }

  /** The inference path resizes an image to exactly the shape the
      training path gives it, whatever boxes accompany it there. */
  lemma InferenceMatchesTraining(img: Image, boxes: seq<Box>, target: int, limit: int)
    requires NonEmpty(img) && target > 0 && limit > 0
    ensures ShortSideResizeForInference(img, target, limit, true)
         == ShortSideResize(img, boxes, target, limit).image
  {
  }

  /** Horizontal flip: the pixel columns are reversed, the size does not
      change, and every box is mirrored about the image's width. */
  function FlipLeftToRight<P>(pic: Picture<P>, boxes: seq<Box>): (r: Flipped<P>)
    ensures r.picture.width == pic.width && |r.picture.rows| == |pic.rows|
    ensures pic.Valid() ==> r.picture.Valid()
    ensures r.picture.rows == FlipColumns(pic.rows)
    ensures r.boxes == FlipBoxes(boxes, pic.width)
  {
    Flipped(Picture(pic.width, FlipColumns(pic.rows)), FlipBoxes(boxes, pic.width))
  }

  /** The random flip, with the single uniform draw passed in as `coin`
      (the draw fell below one half). Whatever the draw, the pixels and the
      boxes are either both flipped or both returned unchanged; the width,
      the box count and the labels are kept either way. */
  function RandomFlipLeftRight<P>(pic: Picture<P>, boxes: seq<Box>, coin: bool): (r: Flipped<P>)
    ensures || (r.picture.rows == FlipColumns(pic.rows) && r.boxes == FlipBoxes(boxes, pic.width))
            || (r.picture == pic && r.boxes == boxes)
    ensures r.picture.width == pic.width && |r.picture.rows| == |pic.rows|
    ensures |r.boxes| == |boxes| && Labels(r.boxes) == Labels(boxes)
  {
    if coin then FlipLeftToRight(pic, boxes) else Flipped(pic, boxes)
  }

  /** Flipping twice gives back the picture and the boxes, for either
      outcome of the draw. */
  lemma RandomFlipInvolution<P>(pic: Picture<P>, boxes: seq<Box>, coin: bool)
    ensures var r := RandomFlipLeftRight(pic, boxes, coin);
      RandomFlipLeftRight(r.picture, r.boxes, coin) == Flipped(pic, boxes)
  {
    if coin {
      FlipColumnsInvolution(pic.rows);
      FlipBoxesInvolution(boxes, pic.width);
    }
  }

  /** Either outcome of the random flip keeps a well-formed picture
      well-formed and boxes inside the picture inside it. */
  lemma RandomFlipPreserves<P>(pic: Picture<P>, boxes: seq<Box>, coin: bool)
    ensures var r := RandomFlipLeftRight(pic, boxes, coin);
      && (pic.Valid() ==> r.picture.Valid())
      && (AllInImage(boxes, |pic.rows|, pic.width) ==>
            AllInImage(r.boxes, |r.picture.rows|, r.picture.width))
  {
    if coin && AllInImage(boxes, |pic.rows|, pic.width) {
      FlipBoxesInImage(boxes, |pic.rows|, pic.width);
    }
  }

  /** Resize to an explicit `rw` by `rh`: the image becomes `rh` high and
      `rw` wide, and every box is rescaled by `rw / w` in x and `rh / h`
      in y. */
  function TfResizeImage(img: Image, boxes: seq<Box>, rw: int, rh: int): (r: Sample)
    requires NonEmpty(img) && rw > 0 && rh > 0
    ensures r.image == Image(rh, rw, img.channels)
    ensures r.boxes == ScaleBoxes(boxes, r.image.width, img.width, r.image.height, img.height)
    ensures |r.boxes| == |boxes| && Labels(r.boxes) == Labels(boxes)
  {
    Sample(Image(rh, rw, img.channels), ScaleBoxes(boxes, rw, img.width, rh, img.height))
  }

  /** Boxes inside the image before `TfResizeImage` are inside the resized
      image afterwards. */
  lemma TfResizeImageInImage(img: Image, boxes: seq<Box>, rw: int, rh: int)
    requires NonEmpty(img) && rw > 0 && rh > 0
    requires AllInImage(boxes, img.height, img.width)
    ensures var r := TfResizeImage(img, boxes, rw, rh);
      AllInImage(r.boxes, r.image.height, r.image.width)
  {
    ScaleBoxesInImage(boxes, rw, img.width, rh, img.height);
  }

  /** Aspect-ratio jittering, given the two jittered side lengths: a
      portrait image (narrower than tall) is resized to `shortSide` wide and
      `longSide` high, any other image (a square one included) to
      `longSide` wide and `shortSide` high. */
  function AspectRatioJittering(img: Image, boxes: seq<Box>, shortSide: int, longSide: int): (r: Sample)
    requires NonEmpty(img) && shortSide > 0 && longSide > 0
    ensures img.width < img.height ==> (r.image.width, r.image.height) == (shortSide, longSide)
    ensures img.height <= img.width ==> (r.image.width, r.image.height) == (longSide, shortSide)
    ensures r.image.channels == img.channels
    ensures r.boxes == ScaleBoxes(boxes, r.image.width, img.width, r.image.height, img.height)
  {
    if img.width < img.height then TfResizeImage(img, boxes, shortSide, longSide)
    else TfResizeImage(img, boxes, longSide, shortSide)
  }

  /** With `shortSide <= longSide`, jittering keeps the orientation (a
      portrait image stays at least as tall as wide, any other image at
      least as wide as tall), its sides are exactly the two jittered
      lengths, and boxes inside the image stay inside it. */
  lemma AspectRatioJitteringPreserves(img: Image, boxes: seq<Box>, shortSide: int, longSide: int)
    requires NonEmpty(img) && 0 < shortSide <= longSide
    ensures var r := AspectRatioJittering(img, boxes, shortSide, longSide);
      && (img.width < img.height ==> r.image.width <= r.image.height)
      && (img.height <= img.width ==> r.image.height <= r.image.width)
      && MaxLengthLimitation(r.image.height, r.image.width) == shortSide
      && r.image.height + r.image.width == shortSide + longSide
      && r.image.channels == img.channels
      && Labels(r.boxes) == Labels(boxes)
      && (AllInImage(boxes, img.height, img.width) ==>
            AllInImage(r.boxes, r.image.height, r.image.width))
  {
    if AllInImage(boxes, img.height, img.width) {
      if img.width < img.height {
        TfResizeImageInImage(img, boxes, shortSide, longSide);
      } else {
        TfResizeImageInImage(img, boxes, longSide, shortSide);
      }
    }
  }

  /** A 600 by 900 image with target 300 and cap 1200 becomes 300 by 450,
      and its box is halved on both axes. */
  lemma ShortSideResizeLandscapeExample()
    ensures ShortSideResize(Image(600, 900, 3), [Box(100, 100, 200, 100, 200, 200, 100, 200, 5)], 300, 1200)
         == Resized(Image(300, 450, 3), [Box(50, 50, 100, 50, 100, 100, 50, 100, 5)], 300, 450)
  {
  }

  /** A square 500 by 500 image with target 400 takes the width branch and
      becomes 400 by 400. */
  lemma ShortSideDimsSquareExample()
    ensures ShortSideDims(500, 500, 400, 1200) == (400, 400)
  {
  }

  /** Flipping in a 900-wide image maps x-coordinates 100, 200, 200, 100
      to 800, 700, 700, 800 and keeps the y-coordinates and label. */
  lemma FlipLeftToRightExample()
    ensures FlipLeftToRight<int>(Picture(900, []), [Box(100, 100, 200, 100, 200, 200, 100, 200, 5)]).boxes
         == [Box(800, 100, 700, 100, 700, 200, 800, 200, 5)]
    ensures FlipLeftToRight(Picture(3, [[1, 2, 3], [4, 5, 6]]), []).picture.rows
         == [[3, 2, 1], [6, 5, 4]]
  {
    var r := FlipLeftToRight<int>(Picture(3, [[1, 2, 3], [4, 5, 6]]), []).picture.rows;
    assert r[0] == [3, 2, 1] && r[1] == [6, 5, 4];
  }
}
