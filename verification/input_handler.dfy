/**
 * The pure parts of the input handler: quantising a pointer position to the
 * centre of its cell, snapping a drag's end point onto the start point's row
 * or column, and the move rule that publishes a new end point only when it
 * changes.
 */
module InputHandler {
  import opened Wrappers
  import Points
  import Board
  import FloorFacts
  import opened Directions

  /** The handler's gesture state: where the drag started, where it ends now, and whether a press is active. */
  datatype InputState = InputState(startPoint: Points.Point, endPoint: Points.Point, pressed: bool)

  /**
   * The state before any press: both points are the unset sentinel, so the
   * board reads no cell for it whatever the board and direction.
   */
  function Initial(): (s: InputState)
    ensures s.startPoint == s.endPoint == Points.Unset && !s.pressed
    ensures forall b: Board.Board, d: Dir :: Board.SelectedCells(b, s.startPoint, s.endPoint, d) == []
  {
    InputState(Points.Unset, Points.Unset, false)
  }

  /**
   * `getQuantizedPoint`: the centre of the cell holding `p`, in cells counted
   * from the grid's top-left corner with `floor`. The result is the centre of
   * the cell it translates to, that cell is the one `p` lies in, and the move
   * is at most half a cell on each axis.
   */
  function GetQuantizedPoint(b: Board.Board, p: Points.Point): (q: Points.Point)
    requires b.boxSize > 0.0
    ensures var (i, j) := Board.TranslatePointToIndices(b, q);
      && i == ((p.y - b.offsetY) / b.boxSize).Floor
      && j == ((p.x - b.offsetX) / b.boxSize).Floor
      && q == Board.CellCenter(b, i, j)
      && Board.CellTopLeft(b, i, j).x <= p.x < Board.CellTopLeft(b, i, j).x + b.boxSize
      && Board.CellTopLeft(b, i, j).y <= p.y < Board.CellTopLeft(b, i, j).y + b.boxSize
    ensures -b.boxSize / 2.0 < q.x - p.x <= b.boxSize / 2.0
    ensures -b.boxSize / 2.0 < q.y - p.y <= b.boxSize / 2.0
  {
    var boxSize := b.boxSize;
    var halfBoxOffsetX := boxSize / 2.0;
    var halfBoxOffsetY := boxSize / 2.0;
    var x := p.x - b.offsetX;
    var y := p.y - b.offsetY;
    var j := (x / boxSize).Floor;
    var i := (y / boxSize).Floor;
    FloorFacts.FloorDivBounds(x, boxSize);
    FloorFacts.FloorDivBounds(y, boxSize);
    var q := Points.From(j as real * boxSize + halfBoxOffsetX + b.offsetX, i as real * boxSize + halfBoxOffsetY + b.offsetY);
    assert q == Board.CellCenter(b, i, j);
    Board.CenterTranslatesToItsCell(b, i, j);
    q
  }

  /** Quantising a point that is already a cell centre leaves it where it is. */
  lemma {:induction false} QuantizeIsIdempotent(b: Board.Board, p: Points.Point)
    requires b.boxSize > 0.0
    ensures GetQuantizedPoint(b, GetQuantizedPoint(b, p)) == GetQuantizedPoint(b, p)
  {
    var q := GetQuantizedPoint(b, p);
    var (i, j) := Board.TranslatePointToIndices(b, q);
    CenterIsQuantized(b, i, j);
  }

  /** Every cell centre is a fixed point of quantisation. */
  lemma CenterIsQuantized(b: Board.Board, i: int, j: int)
    requires b.boxSize > 0.0
    ensures GetQuantizedPoint(b, Board.CellCenter(b, i, j)) == Board.CellCenter(b, i, j)
  {
    var c := Board.CellCenter(b, i, j);
    var box := b.boxSize;
    assert c.x - b.offsetX == (j as real + 0.5) * box;
    assert c.y - b.offsetY == (i as real + 0.5) * box;
    FloorFacts.DivOfMultiple(c.x - b.offsetX, j as real + 0.5, box);
    FloorFacts.DivOfMultiple(c.y - b.offsetY, i as real + 0.5, box);
    FloorFacts.FloorOfIntPlusFraction(j, 0.5);
    FloorFacts.FloorOfIntPlusFraction(i, 0.5);
    assert (c.x - b.offsetX) / box == j as real + 0.5;
    assert ((c.x - b.offsetX) / box).Floor == j;
    assert (c.y - b.offsetY) / box == i as real + 0.5;
    assert ((c.y - b.offsetY) / box).Floor == i;
  }

  /**
   * The horizontal and vertical branches of `getSnappedPoint`, with the
   * snapped direction of the drag supplied by the caller: an E or W drag is
   * pulled onto the start point's row (zero slope), an N or S drag onto its
   * column (undefined slope).
   */
  function GetSnappedPoint(start: Points.Point, end: Points.Point, d: Dir): (r: Points.Point)
    requires IsCardinal(d)
    ensures d == E || d == W ==> r.y == start.y && r.x == end.x
    ensures d == E || d == W ==> Points.Slope(start, r) == if r.x == start.x then None else Some(0.0)
    ensures d == N || d == S ==> r.x == start.x && r.y == end.y
    ensures d == N || d == S ==> Points.Slope(start, r) == None
  {
    var newX := if d == E || d == W then end.x else start.x;
    var newY := if d == E || d == W then start.y else end.y;
    assert (d == E || d == W) && newX != start.x ==> (newY - start.y) / (newX - start.x) == 0.0;
    Points.From(newX, newY)
  }

  /** Snapping an already snapped point again changes nothing. */
  lemma SnapIsIdempotent(start: Points.Point, end: Points.Point, d: Dir)
    requires IsCardinal(d)
    ensures GetSnappedPoint(start, GetSnappedPoint(start, end, d), d) == GetSnappedPoint(start, end, d)
  {
  }

  /**
   * A straight drag stays on the start cell's line: when the start point was
   * quantised at the press, the snapped and quantised end point of an E or W
   * drag lies in the start cell's row, and that of an N or S drag in its column.
   */
  lemma {:induction false} StraightDragStaysInLine(b: Board.Board, pressed: Points.Point, raw: Points.Point, d: Dir)
    requires b.boxSize > 0.0 && IsCardinal(d)
    ensures var start := GetQuantizedPoint(b, pressed);
      var end := GetQuantizedPoint(b, GetSnappedPoint(start, raw, d));
      var (i1, j1) := Board.TranslatePointToIndices(b, start);
      var (i2, j2) := Board.TranslatePointToIndices(b, end);
      (d == E || d == W ==> i2 == i1) && (d == N || d == S ==> j2 == j1)
  {
    var start := GetQuantizedPoint(b, pressed);
    var (i1, j1) := Board.TranslatePointToIndices(b, start);
    CenterIsQuantized(b, i1, j1);
  }

  /** What one pointer move does: the new state, and the end point published, if any. */
  datatype MoveOutcome = MoveOutcome(state: InputState, emitted: Option<Points.Point>)

  /**
   * The publishing rule of the move handler, for any quantised point and any
   * direction: the point becomes the new end point, and it is published only
   * if it differs in x or y from the current one.
   */
  function Publish(s: InputState, endPoint: Points.Point): (m: MoveOutcome)
    ensures m.state.startPoint == s.startPoint && m.state.pressed == s.pressed
    ensures m.state.endPoint == endPoint
    ensures m.emitted.Some? <==> endPoint != s.endPoint
    ensures m.emitted.Some? ==> m.emitted.value == endPoint
    ensures m.emitted.None? ==> m.state == s
  {
    if endPoint.x != s.endPoint.x || endPoint.y != s.endPoint.y then
      MoveOutcome(s.(endPoint := endPoint), Some(endPoint))
    else
      MoveOutcome(s, None)
  }

  /** Publishing the same point twice in a row: the second call publishes nothing and changes nothing. */
  lemma PublishIsIdempotent(s: InputState, p: Points.Point)
    ensures var once := Publish(s, p);
      var twice := Publish(once.state, p);
      twice.emitted.None? && twice.state == once.state
  {
  }

  /**
   * The move handler: snap the pointer position, quantise it, and hand the
   * result to `Publish`.
   */
  function OnMove(b: Board.Board, s: InputState, raw: Points.Point, d: Dir): (m: MoveOutcome)
    requires b.boxSize > 0.0 && IsCardinal(d)
    ensures m.state.startPoint == s.startPoint && m.state.pressed == s.pressed
    ensures m.state.endPoint == GetQuantizedPoint(b, GetSnappedPoint(s.startPoint, raw, d))
    ensures m.emitted.Some? <==> m.state.endPoint != s.endPoint
    ensures m.emitted.Some? ==> m.emitted.value == m.state.endPoint
    ensures m.emitted.None? ==> m.state == s
  {
    Publish(s, GetQuantizedPoint(b, GetSnappedPoint(s.startPoint, raw, d)))
  }

  /** Repeating a move publishes nothing the second time and leaves the state as the first move left it. */
  lemma RepeatedMoveIsSilent(b: Board.Board, s: InputState, raw: Points.Point, d: Dir)
    requires b.boxSize > 0.0 && IsCardinal(d)
    ensures var once := OnMove(b, s, raw, d);
      var twice := OnMove(b, once.state, raw, d);
      twice.emitted.None? && twice.state == once.state
  {
    PublishIsIdempotent(s, GetQuantizedPoint(b, GetSnappedPoint(s.startPoint, raw, d)));
  }

  /** After any move the end point is a cell centre, whatever the pointer position. */
  lemma MoveEndsOnCellCenter(b: Board.Board, s: InputState, raw: Points.Point, d: Dir)
    requires b.boxSize > 0.0 && IsCardinal(d)
    ensures var e := OnMove(b, s, raw, d).state.endPoint;
      var (i, j) := Board.TranslatePointToIndices(b, e);
      e == Board.CellCenter(b, i, j) && GetQuantizedPoint(b, e) == e
  {
    QuantizeIsIdempotent(b, GetSnappedPoint(s.startPoint, raw, d));
  }
}
