# Geometric preprocessing of a rotated-box detector, in Dafny

This project models the geometric preprocessing of the RetinaNet rotation
detector's data pipeline (`data/io/image_preprocess_multi_gpu.py`). The
pipeline keeps an image and its oriented ground-truth boxes consistent
under each transform. A box is a row `[x1, y1, x2, y2, x3, y3, x4, y4, label]`:
the four corners of a quadrilateral followed by its class. The transforms
are the long-side cap, the short-side resize (training and inference
variants), the horizontal flip and its random variant, and aspect-ratio
jittering through an explicit-size resize.

Modules:

- `Geometry` (geometry.dfy): the long-side cap `MaxLengthLimitation` and
  the floor-division rescaling `ScaleCoord` (`x * new // old`), with
  rescaling's bounds, monotonicity, end points and identity case.
- `Boxes` (boxes.dfy): the 9-field `Box` row; `category` holds the label,
  because `label` is a Dafny keyword. Box sets are sequences in row order.
  Rescaling and mirroring are applied row by row. The module proves that
  count, order and labels are kept, that boxes inside the image stay inside
  it, and that the flip is an involution.
- `Pixels` (pixels.dfy): the pixel side of the flip, as a column reversal
  of a grid of pixels.
- `Preprocess` (preprocess.dfy): the pipeline operations on an image and a
  box set. The resizes take the image's shape `(height, width, channels)`.
  The flips take a `Picture`: its pixel rows and its width.

Modelling choices:

- For the resizes an image is its shape. Bilinear resampling is a
  framework call on float data, so the model only captures the size it
  produces. For the flips the pixel result is exact, so there the image is
  its pixel grid. That makes it observable that one draw flips the pixels
  and the boxes together.
- Both random draws are parameters. For the flip, `coin` stands for "the
  uniform draw fell below 0.5". For jittering, the two integer side lengths
  are passed in.
- All arithmetic is on unbounded integers. Dafny's `/` with a positive
  divisor is floor division, so it equals the source's `//` on int32
  tensors, including negative dividends such as unclamped flipped
  coordinates. 32-bit overflow of `target * w` or `x * new_w` is not
  modelled.
- Image height and width must be positive, because every rescaling divides
  by them. The resize operations also need positive output sizes, because
  the resize kernel refuses anything else. For the short-side resize, that
  is exactly `target > 0 && limit > 0` (`ShortSideDims` proves the
  equivalence).
- The code has no input-validation errors (negative or zero sizes, a box
  array that is not N by 9). The model follows the code here: the `Box`
  type fixes the row length, and the sizes are preconditions.

## Model

| member | source | states |
|---|---|---|
| `Geometry.MaxLengthLimitation` | data/io/image_preprocess_multi_gpu.py:12-15 | the result is `length` when `length < limit` and `limit` otherwise, so it is the minimum of the two and never exceeds the cap |
| `Geometry.ScaleCoord` | data/io/image_preprocess_multi_gpu.py:38-39 | `x * newLen // oldLen` is the floor of the exact rescaled value: `r * old <= x * new < (r + 1) * old` |
| `Geometry.ScaleCoordUnique` | data/io/image_preprocess_multi_gpu.py:38-39 | that floor bound determines the rescaled coordinate uniquely |
| `Geometry.ScaleCoordBounds` | data/io/image_preprocess_multi_gpu.py:38-39 | a coordinate in `[0, old]` rescales into `[0, new]` |
| `Geometry.ScaleCoordMonotone` | data/io/image_preprocess_multi_gpu.py:38-39 | `x <= x'` implies that their rescaled values keep that order |
| `Geometry.ScaleCoordEnds` | data/io/image_preprocess_multi_gpu.py:108-116 | coordinate 0 maps to 0 and the old edge maps to the new edge |
| `Geometry.ScaleCoordIdentity` | data/io/image_preprocess_multi_gpu.py:108-116 | rescaling onto an axis of the same length changes nothing |
| `Geometry.ScaleCoordGrows` | data/io/image_preprocess_multi_gpu.py:29-30 | a non-negative length scaled by a ratio of at least one does not shrink, so `target * long // short >= target` |
| `Boxes.Labels` | data/io/image_preprocess_multi_gpu.py:36 | the label column has one entry per row, equal to that row's label |
| `Boxes.MapBoxes` | data/io/image_preprocess_multi_gpu.py:36-43 | a per-row transform gives one output row per input row, in the same order, each the transform of its input row |
| `Boxes.MapBoxesKeepsLabels` | data/io/image_preprocess_multi_gpu.py:43 | a per-row transform that keeps each label keeps the whole label column |
| `Boxes.ScaleBox` | data/io/image_preprocess_multi_gpu.py:108-117 | rescaling a box carries its label over unchanged |
| `Boxes.ScaleBoxes` | data/io/image_preprocess_multi_gpu.py:36-43 | rescaling a box set keeps its count, its order (row i comes from row i) and its label column |
| `Boxes.ScaleBoxWithinOnePixel` | data/io/image_preprocess_multi_gpu.py:108-116 | each rescaled corner is within one pixel below the exact `x * rw / w` and `y * rh / h` |
| `Boxes.ScaleBoxInImage` | data/io/image_preprocess_multi_gpu.py:108-116 | a box inside the old image is inside the new image once rescaled |
| `Boxes.ScaleBoxesInImage` | data/io/image_preprocess_multi_gpu.py:38-39 | every box of a set inside the old image is inside the new image once rescaled |
| `Boxes.ScaleBoxMonotone` | data/io/image_preprocess_multi_gpu.py:38-39 | rescaling keeps the left/right and top/bottom order of any two corners of a box |
| `Boxes.ScaleBoxesIdentity` | data/io/image_preprocess_multi_gpu.py:38-39 | rescaling onto an image of the same size changes no box |
| `Boxes.FlipBox` | data/io/image_preprocess_multi_gpu.py:69-75 | each new x-coordinate and its old one sum to `w` (a mirror about the centre line, unclamped); y-coordinates and label are unchanged |
| `Boxes.FlipBoxes` | data/io/image_preprocess_multi_gpu.py:69-75 | mirroring a box set keeps its count, order and label column; row i is the mirror of row i |
| `Boxes.FlipBoxesInvolution` | data/io/image_preprocess_multi_gpu.py:70-73 | mirroring twice with the same width gives back every box |
| `Boxes.FlipBoxesInImage` | data/io/image_preprocess_multi_gpu.py:70-73 | although unclamped, the mirror keeps boxes that lie in `[0, w] x [0, h]` inside that rectangle |
| `Pixels.Reverse` | data/io/image_preprocess_multi_gpu.py:67 | a reversed row has the same length, and entry j is the old entry `len - 1 - j` |
| `Pixels.ReverseInvolution` | data/io/image_preprocess_multi_gpu.py:67 | reversing a row twice gives it back |
| `Pixels.FlipColumns` | data/io/image_preprocess_multi_gpu.py:67 | the flipped image keeps its height and row widths, and pixel `(i, j)` comes from `(i, w - 1 - j)` |
| `Pixels.FlipColumnsInvolution` | data/io/image_preprocess_multi_gpu.py:67 | flipping the pixels twice gives back the image |
| `Preprocess.ShortSideDims` | data/io/image_preprocess_multi_gpu.py:26-31 | both new sizes are positive exactly when the target and the cap are |
| `Preprocess.ShortSideDimsShortSide` | data/io/image_preprocess_multi_gpu.py:26-31 | the shorter new side is `min(target, limit)` |
| `Preprocess.ShortSideDimsCapped` | data/io/image_preprocess_multi_gpu.py:27-31 | if `h < w` the height becomes the target and the width is at most the cap, and equals the cap when `target * w // h` reaches it; otherwise, the square case included, the width becomes the target and the height is at most the cap, and equals it when `target * h // w` reaches it |
| `Preprocess.ShortSideDimsOrientation` | data/io/image_preprocess_multi_gpu.py:27-31 | with `target <= limit`, a landscape image ends at least as wide as tall, a portrait one at least as tall as wide, and a square one `target` by `target` |
| `Preprocess.ShortSideDimsAspect` | data/io/image_preprocess_multi_gpu.py:29-30 | when the cap does not bite, the long side is `target * long / short` rounded down |
| `Preprocess.ShortSideResize` | data/io/image_preprocess_multi_gpu.py:18-43 | the reported `new_h, new_w` are the short-side sizes and exactly the size the image was resized to; boxes are rescaled by `new_w / w` and `new_h / h`, with count, order and labels kept |
| `Preprocess.ShortSideResizeInImage` | data/io/image_preprocess_multi_gpu.py:34-43 | boxes inside the image before the resize are inside the resized image |
| `Preprocess.ShortSideResizeForInference` | data/io/image_preprocess_multi_gpu.py:46-60 | without `is_resize` the image is returned unchanged; with it, the image gets the short-side sizes and keeps its channels |
| `Preprocess.InferenceMatchesTraining` | data/io/image_preprocess_multi_gpu.py:46-60 | the inference resize produces exactly the image shape that the training resize produces |
| `Preprocess.FlipLeftToRight` | data/io/image_preprocess_multi_gpu.py:63-75 | the pixel columns are reversed, the height and width are unchanged, and the boxes are mirrored about the image width |
| `Preprocess.RandomFlipLeftRight` | data/io/image_preprocess_multi_gpu.py:78-83 | the pixels and the boxes are either both flipped or both unchanged, never one without the other; width, height, box count and labels are kept |
| `Preprocess.RandomFlipInvolution` | data/io/image_preprocess_multi_gpu.py:78-83 | a second random flip with the same draw outcome gives back the original pixels and boxes |
| `Preprocess.RandomFlipPreserves` | data/io/image_preprocess_multi_gpu.py:78-83 | either outcome keeps a well-formed picture well-formed and boxes inside the image inside it |
| `Preprocess.TfResizeImage` | data/io/image_preprocess_multi_gpu.py:104-118 | the image becomes `rh` high and `rw` wide, and boxes are rescaled by the new width over the old in x and the new height over the old in y, with count, order and labels kept |
| `Preprocess.TfResizeImageInImage` | data/io/image_preprocess_multi_gpu.py:104-118 | boxes inside the image before the resize are inside the resized image |
| `Preprocess.AspectRatioJittering` | data/io/image_preprocess_multi_gpu.py:97-101 | `w < h` resizes to `(rw, rh) = (short, long)`; otherwise, the square case included, to `(long, short)`; channels are kept and boxes are rescaled by the new width and height over the old |
| `Preprocess.AspectRatioJitteringPreserves` | data/io/image_preprocess_multi_gpu.py:97-118 | with `short <= long`, a portrait image ends at least as tall as wide and any other at least as wide as tall; the new sides are exactly the two jittered lengths, channels and labels are kept, and boxes inside the image stay inside |
| `Preprocess.ShortSideResizeLandscapeExample` | data/io/image_preprocess_multi_gpu.py:26-43 | a 600x900 image with target 300 and cap 1200 becomes 300x450, and `[100,100,200,100,200,200,100,200,5]` becomes `[50,50,100,50,100,100,50,100,5]` |
| `Preprocess.ShortSideDimsSquareExample` | data/io/image_preprocess_multi_gpu.py:27-31 | a 500x500 image with target 400 takes the else branch and becomes 400x400 |
| `Preprocess.FlipLeftToRightExample` | data/io/image_preprocess_multi_gpu.py:70-75 | in a 900-wide image, x-coordinates 100, 200, 200, 100 become 800, 700, 700, 800; the pixel rows `[1,2,3]`, `[4,5,6]` become `[3,2,1]`, `[6,5,4]` |

## Left out

- Bilinear interpolation of pixel values (lines 34, 57, 106): a framework kernel on float data. Only the output shape is modelled.
- The flips take a `Picture` (pixel grid) and the resizes take an `Image` (shape). The model has no function that takes one to the other, so a chain of resize and flip is not composed end to end. Each operation is modelled on its own, as the source defines them.
- Random number generation (lines 79, 87): the flip outcome and the jittered side lengths are parameters.
- The float computation of the jittered sides (lines 87-95: uniform ratio in `[1.0, 1.5)`, `sqrt(h * w / ratio)`, truncation to int32): floating-point numerics. `AspectRatioJittering` takes the two integer sides. Positivity is required because the resize kernel needs it. `short <= long`, which holds since the ratio is at least 1, is a precondition of `AspectRatioJitteringPreserves` only.
- Tensor plumbing (`expand_dims`, `squeeze`, `unstack`, `stack`, `transpose`): shape bookkeeping with no effect beyond the per-coordinate formulas.
- Default arguments: `length_limitation=1200` (lines 18, 46) and `is_resize=True` (line 46). The model makes both required parameters. A caller relying on a default passes that value, so no behaviour is lost.
- Positive sizes: image height and width must be positive, because every rescaling divides by them (lines 29-30, 38-39, 108-116). A resize's output sizes must also be positive, because the resize kernel rejects any other size (lines 34, 57, 106). The model states both as preconditions instead of modelling the framework's runtime errors.
- 32-bit overflow of the int32 products `target * w` and `x * new_w`: the model uses unbounded integers.
- The configuration file `libs/configs/cfgs_res50_dota_v11.py`: hyperparameters, paths, printing and initializers, with no logic. Its sizes (800 and 800) are ordinary arguments here.
