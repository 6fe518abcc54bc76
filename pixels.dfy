/** The pixel side of the horizontal flip: an image as a grid of rows of
    pixels (a pixel being whatever one position holds, such as its channel
    values), mirrored by reversing the column order of every row. */
module Pixels {

  /** The entries of `s` in reverse order. */
  function Reverse<T>(s: seq<T>): (r: seq<T>)
    ensures |r| == |s|
    ensures forall j :: 0 <= j < |s| ==> r[j] == s[|s| - 1 - j]
  {
    if s == [] then [] else Reverse(s[1..]) + [s[0]]
  }

  /** Reversing twice gives back the original row. */
  lemma {:induction false} ReverseInvolution<T>(s: seq<T>)
    ensures Reverse(Reverse(s)) == s
  {
    var r := Reverse(Reverse(s));
    assert forall j :: 0 <= j < |s| ==> r[j] == s[j];
  }

  /** Every row of `img` holds exactly `w` pixels. */
  predicate HasWidth<P>(img: seq<seq<P>>, w: nat) {
    forall i :: 0 <= i < |img| ==> |img[i]| == w
  }

  /** Mirrors the image left to right: pixel `(i, j)` of a `w`-wide image
      moves to `(i, w - 1 - j)`; the height and width do not change. */
  function FlipColumns<P>(img: seq<seq<P>>): (r: seq<seq<P>>)
    ensures |r| == |img|
    ensures forall w: nat :: HasWidth(img, w) ==> HasWidth(r, w)
    ensures forall i, j :: 0 <= i < |img| && 0 <= j < |img[i]| ==>
      |r[i]| == |img[i]| && r[i][j] == img[i][|img[i]| - 1 - j]
  {
    seq(|img|, i requires 0 <= i < |img| => Reverse(img[i]))
  }

  /** Mirroring the pixels twice gives back the image. */
  lemma FlipColumnsInvolution<P>(img: seq<seq<P>>)
    ensures FlipColumns(FlipColumns(img)) == img
  {
    var r := FlipColumns(FlipColumns(img));
    forall i | 0 <= i < |img| ensures r[i] == img[i] {
      ReverseInvolution(img[i]);
    }
  }
}
