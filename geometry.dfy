/** Scalar helpers shared by every transform of the preprocessing pipeline:
    the long-side cap and the floor-division rescaling of one coordinate. */
module Geometry {

  /** The long-side cap: `length` when it is below `limit`, otherwise `limit`.
      The result is the smaller of the two and never exceeds the cap. */
  function MaxLengthLimitation(length: int, limit: int): (r: int)
    ensures r <= limit && r <= length
    ensures r == length || r == limit
    ensures length < limit ==> r == length
    ensures limit <= length ==> r == limit
  {
    if length < limit then length else limit
  }

  /** Rescales coordinate `x` from an axis of `oldLen` pixels to one of
      `newLen` pixels, as the integer expression `x * newLen // oldLen`.
      The result is the floor of the exact rescaled value: it lies within
      one pixel below `x * newLen / oldLen`. */
  function ScaleCoord(x: int, newLen: int, oldLen: int): (r: int)
    requires oldLen > 0
    ensures r * oldLen <= x * newLen < (r + 1) * oldLen
  {
    x * newLen / oldLen
  }

  /** Dividing both sides of `a * d < b * d` by a positive `d`. */
  lemma CancelFactor(a: int, b: int, d: int)
    requires d > 0 && a * d < b * d
    ensures a < b
  {
    assert (b - a) * d == b * d - a * d;
  }

  /** The floor characterisation of `ScaleCoord` determines it: any `q`
      with `q * oldLen <= x * newLen < (q + 1) * oldLen` is the result. */
  lemma ScaleCoordUnique(x: int, newLen: int, oldLen: int, q: int)
    requires oldLen > 0
    requires q * oldLen <= x * newLen < (q + 1) * oldLen
    ensures ScaleCoord(x, newLen, oldLen) == q
  {
    var r := ScaleCoord(x, newLen, oldLen);
    CancelFactor(q, r + 1, oldLen);
    CancelFactor(r, q + 1, oldLen);
  }

  /** A coordinate inside the old axis `[0, oldLen]` lands inside the new
      axis `[0, newLen]`. */
  lemma ScaleCoordBounds(x: int, newLen: int, oldLen: int)
    requires oldLen > 0 && newLen >= 0
    requires 0 <= x <= oldLen
    ensures 0 <= ScaleCoord(x, newLen, oldLen) <= newLen
  {
    var r := ScaleCoord(x, newLen, oldLen);
    assert 0 * oldLen <= x * newLen;
    assert x * newLen <= newLen * oldLen by {
      assert (oldLen - x) * newLen >= 0;
    }
    CancelFactor(-1, r, oldLen);
    CancelFactor(r, newLen + 1, oldLen);
  }

  /** Rescaling never reverses the order of two coordinates. */
  lemma ScaleCoordMonotone(x: int, x': int, newLen: int, oldLen: int)
    requires oldLen > 0 && newLen >= 0
    requires x <= x'
    ensures ScaleCoord(x, newLen, oldLen) <= ScaleCoord(x', newLen, oldLen)
  {
    var r, r' := ScaleCoord(x, newLen, oldLen), ScaleCoord(x', newLen, oldLen);
    assert x * newLen <= x' * newLen by {
      assert (x' - x) * newLen >= 0;
    }
    CancelFactor(r, r' + 1, oldLen);
  }

  /** The two ends of the old axis map to the two ends of the new one. */
  lemma ScaleCoordEnds(newLen: int, oldLen: int)
    requires oldLen > 0
    ensures ScaleCoord(0, newLen, oldLen) == 0
    ensures ScaleCoord(oldLen, newLen, oldLen) == newLen
  {
    ScaleCoordUnique(0, newLen, oldLen, 0);
    ScaleCoordUnique(oldLen, newLen, oldLen, newLen);
  }

  /** Rescaling onto an axis of the same length is the identity. */
  lemma ScaleCoordIdentity(x: int, len: int)
    requires len > 0
    ensures ScaleCoord(x, len, len) == x
  {
    ScaleCoordUnique(x, len, len, x);
  }

  /** Rescaling a non-negative value onto an axis at least as long never
      shrinks it. */
  lemma ScaleCoordGrows(x: int, newLen: int, oldLen: int)
    requires 0 < oldLen <= newLen
    ensures 0 <= x ==> ScaleCoord(x, newLen, oldLen) >= x
  {
    if 0 <= x {
      var r := ScaleCoord(x, newLen, oldLen);
      assert x * oldLen <= x * newLen by {
        assert x * (newLen - oldLen) >= 0;
      }
      CancelFactor(x, r + 1, oldLen);
    }
  }
}
