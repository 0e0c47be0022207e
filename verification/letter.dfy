/** A grid cell as the board lays it out: the `Letter` class without its drawing. */
module Letters {
  import Points

  /** The fill colour every new letter starts with. */
  const DefaultColor: string := "white"

  /**
   * A square cell: its text, top-left anchor, edge lengths and fill colour.
   * The source's constructor is private; every letter the model builds comes from `From`.
   */
  datatype Letter = Letter(letter: string, point: Points.Point, width: real, height: real, color: string)

  /** `Letter.from(letter, point, width)`: a white square cell anchored at `point`. */
  function From(letter: string, point: Points.Point, width: real): (l: Letter)
    ensures l.letter == letter && l.point == point && l.width == width
    ensures l.height == l.width
    ensures l.color == DefaultColor
  {
    Letter(letter, point, width, width, DefaultColor)
  }

  function TopLeft(l: Letter): Points.Point
  {
    l.point
  }

  function TopRight(l: Letter): Points.Point
  {
    Points.Add(l.point, l.width, 0.0)
  }

  function BottomLeft(l: Letter): Points.Point
  {
    Points.Add(l.point, 0.0, l.height)
  }

  function BottomRight(l: Letter): Points.Point
  {
    Points.Add(l.point, l.width, l.height)
  }

  function Center(l: Letter): Points.Point
  {
    Points.Add(l.point, l.width / 2.0, l.height / 2.0)
  }

  /**
   * The four corners form the cell's rectangle: the top edge is `width` long,
   * the left edge `height` long, and opposite corners share coordinates.
   */
  lemma Corners(l: Letter)
    ensures TopRight(l) == Points.Add(TopLeft(l), l.width, 0.0)
    ensures BottomLeft(l) == Points.Add(TopLeft(l), 0.0, l.height)
    ensures BottomRight(l) == Points.Add(TopLeft(l), l.width, l.height)
    ensures TopRight(l).x == BottomRight(l).x && BottomLeft(l).x == TopLeft(l).x
    ensures TopRight(l).y == TopLeft(l).y && BottomLeft(l).y == BottomRight(l).y
  {
  }

  /** The centre is the midpoint of the top-left and bottom-right corners. */
  lemma CenterIsMidpoint(l: Letter)
    ensures 2.0 * Center(l).x == TopLeft(l).x + BottomRight(l).x
    ensures 2.0 * Center(l).y == TopLeft(l).y + BottomRight(l).y
  {
  }

  /** A letter built by `From` with a positive width is a square whose centre lies strictly inside it. */
  lemma FromIsSquare(letter: string, point: Points.Point, width: real)
    requires width > 0.0
    ensures var l := From(letter, point, width);
      && BottomRight(l).x - TopLeft(l).x == BottomRight(l).y - TopLeft(l).y == width
      && TopLeft(l).x < Center(l).x < BottomRight(l).x
      && TopLeft(l).y < Center(l).y < BottomRight(l).y
  {
  }
}
