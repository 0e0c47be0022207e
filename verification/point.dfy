/** Points in pixel space: `Point.from`, the `x`/`y` getters, `add` and `slope`. */
module Points {
  import opened Wrappers

  /** An immutable pixel-space position; the y axis points down (screen convention). */
  datatype Point = Point(x: real, y: real)

  /** The position the input handler stores before any press: (-1, -1). */
  const Unset: Point := Point(-1.0, -1.0)

  /** `Point.from(x, y)`: the point whose getters give back `x` and `y`. */
  function From(x: real, y: real): (p: Point)
    ensures p.x == x && p.y == y
  {
    Point(x, y)
  }

  /** `p.add(dx, dy)`: the point displaced from `p` by `(dx, dy)`. */
  function Add(p: Point, dx: real, dy: real): (q: Point)
    ensures q.x - p.x == dx && q.y - p.y == dy
  {
    From(p.x + dx, p.y + dy)
  }

  /**
   * `Point.slope(p1, p2)`: rise over run. When the run is zero the source
   * divides by zero and yields an infinity or NaN, which no real represents;
   * the model answers `None` there.
   */
  function Slope(p1: Point, p2: Point): (r: Option<real>)
    ensures r.Some? <==> p1.x != p2.x
    ensures r.Some? ==> r.value * (p2.x - p1.x) == p2.y - p1.y
  {
    if p2.x - p1.x == 0.0 then None else Some((p2.y - p1.y) / (p2.x - p1.x))
  }

  /** Adding the zero displacement leaves a point where it is. */
  lemma AddZero(p: Point)
    ensures Add(p, 0.0, 0.0) == p
  {
  }

  /** Two displacements compose into their sum. */
  lemma AddCompose(p: Point, a: real, b: real, c: real, d: real)
    ensures Add(Add(p, a, b), c, d) == Add(p, a + c, b + d)
  {
  }

  /**
   * Slope does not depend on the order of its two points. For equal x
   * coordinates this holds only because `None` stands for +Infinity,
   * -Infinity and NaN alike.
   */
  lemma SlopeSymmetric(p1: Point, p2: Point)
    ensures Slope(p1, p2) == Slope(p2, p1)
  {
    if p1.x != p2.x {
      var m := Slope(p1, p2).value;
      var n := Slope(p2, p1).value;
      assert m * (p2.x - p1.x) == n * (p2.x - p1.x);
      MulCancel(m, n, p2.x - p1.x);
    }
  }

  /** Cancelling a non-zero factor from both sides of an equation. */
  lemma MulCancel(m: real, n: real, k: real)
    requires k != 0.0
    requires m * k == n * k
    ensures m == n
  {
    assert (m - n) * k == 0.0;
  }
}
