/** Facts about `Math.floor` on reals that the grid arithmetic relies on. */
module FloorFacts {

  /** Flooring an integer plus a fraction in [0, 1) gives back the integer. */
  lemma FloorOfIntPlusFraction(k: int, f: real)
    requires 0.0 <= f < 1.0
    ensures (k as real + f).Floor == k
  {
  }

  /** Multiplying by a positive box size and dividing by it again cancels. */
  lemma ScaleCancels(t: real, box: real)
    requires box > 0.0
    ensures (t * box) / box == t
  {
  }

  /** A multiple of a positive box size, divided by it, gives back the multiplier. */
  lemma DivOfMultiple(v: real, t: real, box: real)
    requires box > 0.0 && v == t * box
    ensures v / box == t
  {
    ScaleCancels(t, box);
  }

  /**
   * The floor of `v / box` is the index of the box-sized interval holding `v`:
   * `k * box <= v < (k + 1) * box`.
   */
  lemma FloorDivBounds(v: real, box: real)
    requires box > 0.0
    ensures (v / box).Floor as real * box <= v
    ensures v < ((v / box).Floor as real + 1.0) * box
  {
    var t := v / box;
    var k := t.Floor as real;
    assert k <= t < k + 1.0;
    assert t * box == v;
    MulMonotone(k, t, box);
    MulMonotoneStrict(t, k + 1.0, box);
    assert v < (k + 1.0) * box;
  }

  lemma MulMonotone(a: real, b: real, c: real)
    requires a <= b && c > 0.0
    ensures a * c <= b * c
  {
  }

  lemma MulMonotoneStrict(a: real, b: real, c: real)
    requires a < b && c > 0.0
    ensures a * c < b * c
  {
  }
}
