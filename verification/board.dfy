/**
 * The board service: the letter grid, its layout on the canvas, the mapping
 * from pixels to cells, the grid's bounding box, and reading the word a drag
 * traces (`getWord`).
 */
module Board {
  import Points
  import Letters
  import FloorFacts
  import opened Directions

  /** The grid of cell texts, indexed `[row][column]`. */
  type Grid = seq<seq<string>>

  /** A grid cell as `(row, column)`. */
  type Cell = (int, int)

  /**
   * The service's state: the cell texts, the laid-out letters, the centring
   * offsets, the common cell size and the grid dimensions.
   */
  datatype Board = Board(
    letterVals: Grid,
    letters: seq<seq<Letters.Letter>>,
    offsetX: real,
    offsetY: real,
    boxSize: real,
    rows: nat,
    cols: nat)

  /** The grid the constructor installs: eight rows of four letters. */
  function InitialLetterVals(): Grid
  {
    [
      ["A", "B", "C", "D"],
      ["E", "F", "G", "H"],
      ["I", "J", "K", "L"],
      ["M", "N", "O", "P"],
      ["M", "N", "O", "P"],
      ["Q", "R", "S", "T"],
      ["U", "Q", "R", "S"],
      ["V", "W", "X", "Y"]
    ]
  }

  /** Every one of the first `rows` rows holds at least `cols` cells. */
  predicate Covers(vals: Grid, rows: nat, cols: nat)
  {
    |vals| >= rows && forall i :: 0 <= i < rows ==> |vals[i]| >= cols
  }

  /** The top-left pixel of cell `(i, j)`. */
  function CellTopLeft(b: Board, i: int, j: int): Points.Point
  {
    Points.From(j as real * b.boxSize + b.offsetX, i as real * b.boxSize + b.offsetY)
  }

  /** The centre pixel of cell `(i, j)`. */
  function CellCenter(b: Board, i: int, j: int): Points.Point
  {
    Points.Add(CellTopLeft(b, i, j), b.boxSize / 2.0, b.boxSize / 2.0)
  }

  /**
   * `updateSizes`: the largest square cell for which the whole grid fits the
   * canvas, the grid centred in the leftover space, and every letter
   * re-anchored on its cell.
   */
  function UpdateSizes(b: Board, canvasWidth: real, canvasHeight: real): (r: Board)
    requires b.rows > 0 && b.cols > 0 && Covers(b.letterVals, b.rows, b.cols)
    ensures r.letterVals == b.letterVals && r.rows == b.rows && r.cols == b.cols
    // the grid fits the canvas, and no larger square cell would
    ensures r.boxSize * b.cols as real <= canvasWidth && r.boxSize * b.rows as real <= canvasHeight
    ensures r.boxSize * b.cols as real == canvasWidth || r.boxSize * b.rows as real == canvasHeight
    // the grid is centred, with no padding on at least one axis
    ensures 2.0 * r.offsetX + r.boxSize * b.cols as real == canvasWidth
    ensures 2.0 * r.offsetY + r.boxSize * b.rows as real == canvasHeight
    ensures r.offsetX >= 0.0 && r.offsetY >= 0.0 && (r.offsetX == 0.0 || r.offsetY == 0.0)
    // one row of `cols` letters per grid row
    ensures |r.letters| == b.rows
    ensures forall i :: 0 <= i < b.rows ==> |r.letters[i]| == b.cols
  {
    var box := CellSize(canvasWidth, canvasHeight, b.rows, b.cols);
    var offX := CentringOffset(canvasWidth, b.cols, box);
    var offY := CentringOffset(canvasHeight, b.rows, box);
    Board(b.letterVals, LayLetters(b.letterVals, b.rows, b.cols, offX, offY, box), offX, offY, box, b.rows, b.cols)
  }

  /**
   * After `updateSizes` the letter at `(i, j)` is `Letter.from` of the cell's
   * text, anchored on the cell's top-left corner, one cell wide.
   */
  lemma UpdateSizesAnchorsLetter(b: Board, canvasWidth: real, canvasHeight: real, i: int, j: int)
    requires b.rows > 0 && b.cols > 0 && Covers(b.letterVals, b.rows, b.cols)
    requires 0 <= i < b.rows && 0 <= j < b.cols
    ensures var r := UpdateSizes(b, canvasWidth, canvasHeight);
      && r.letters[i][j] == Letters.From(b.letterVals[i][j], CellTopLeft(r, i, j), r.boxSize)
      && r.letters[i][j].letter == b.letterVals[i][j]
      && r.letters[i][j].width == r.letters[i][j].height == r.boxSize
      && Letters.TopLeft(r.letters[i][j]) == CellTopLeft(r, i, j)
  {
    var r := UpdateSizes(b, canvasWidth, canvasHeight);
    assert r.letters[i] == LayRow(b.letterVals[i], i, b.cols, r.offsetX, r.offsetY, r.boxSize);
  }

  /** `Math.min(width / cols, height / rows)`: the largest square cell for which the grid fits. */
  function CellSize(canvasWidth: real, canvasHeight: real, rows: nat, cols: nat): (box: real)
    requires rows > 0 && cols > 0
    ensures box * cols as real <= canvasWidth && box * rows as real <= canvasHeight
    ensures box * cols as real == canvasWidth || box * rows as real == canvasHeight
  {
    var width := canvasWidth / cols as real;
    var height := canvasHeight / rows as real;
    assert width * cols as real == canvasWidth && height * rows as real == canvasHeight;
    if width <= height then
      FloorFacts.MulMonotone(width, height, rows as real);
      width
    else
      FloorFacts.MulMonotone(height, width, cols as real);
      height
  }

  /**
   * `((extent / count - boxSize) * count) / 2`: the padding on each side of a
   * row of `count` cells centred in `extent` pixels.
   */
  function CentringOffset(extent: real, count: nat, box: real): (offset: real)
    requires count > 0
    ensures 2.0 * offset + box * count as real == extent
    ensures offset >= 0.0 <==> box * count as real <= extent
  {
    var share := extent / count as real;
    assert share * count as real == extent;
    ((share - box) * count as real) / 2.0
  }

  /** The `Letter.from` calls of `updateSizes` for row `i`. */
  function LayRow(row: seq<string>, i: int, cols: nat, offX: real, offY: real, box: real): (letters: seq<Letters.Letter>)
    requires |row| >= cols
    ensures |letters| == cols
    ensures forall j :: 0 <= j < cols ==>
      letters[j] == Letters.From(row[j], Points.From(j as real * box + offX, i as real * box + offY), box)
  {
    seq(cols, j requires 0 <= j < cols =>
      Letters.From(row[j], Points.From(j as real * box + offX, i as real * box + offY), box))
  }

  /** The `Letter.from` calls of `updateSizes`, one per cell. */
  function LayLetters(vals: Grid, rows: nat, cols: nat, offX: real, offY: real, box: real): (letters: seq<seq<Letters.Letter>>)
    requires Covers(vals, rows, cols)
    ensures |letters| == rows
    ensures forall i :: 0 <= i < rows ==> letters[i] == LayRow(vals[i], i, cols, offX, offY, box)
  {
    seq(rows, i requires 0 <= i < rows => LayRow(vals[i], i, cols, offX, offY, box))
  }

  /** The constructor: the fixed 8 x 4 grid, laid out on a canvas of the given size. */
  function New(canvasWidth: real, canvasHeight: real): (b: Board)
    ensures b.letterVals == InitialLetterVals()
    ensures b.rows == |b.letterVals| == 8 && b.cols == |b.letterVals[0]| == 4
    // the largest square cell for which the 8 x 4 grid fits
    ensures b.boxSize * 4.0 <= canvasWidth && b.boxSize * 8.0 <= canvasHeight
    ensures b.boxSize * 4.0 == canvasWidth || b.boxSize * 8.0 == canvasHeight
    // centred, with no padding on at least one axis
    ensures 2.0 * b.offsetX + b.boxSize * 4.0 == canvasWidth
    ensures 2.0 * b.offsetY + b.boxSize * 8.0 == canvasHeight
    ensures b.offsetX >= 0.0 && b.offsetY >= 0.0 && (b.offsetX == 0.0 || b.offsetY == 0.0)
    ensures |b.letters| == b.rows
    ensures forall i :: 0 <= i < b.rows ==> |b.letters[i]| == 4
  {
    var vals := InitialLetterVals();
    UpdateSizes(Initial(vals), canvasWidth, canvasHeight)
  }

  /** The board before its first layout: the grid of values, no letters, zero sizes. */
  function Initial(vals: Grid): Board
    requires |vals| > 0
  {
    Board(vals, seq(|vals|, _ => []), 0.0, 0.0, 0.0, |vals|, |vals[0]|)
  }

  /**
   * The constructed board is the initial grid laid out: each letter carries the
   * grid's text in its cell, and is one cell wide and high.
   */
  lemma NewHoldsInitialGrid(canvasWidth: real, canvasHeight: real, i: int, j: int)
    requires 0 <= i < 8 && 0 <= j < 4
    ensures var b := New(canvasWidth, canvasHeight);
      && b.letters[i][j] == Letters.From(InitialLetterVals()[i][j], CellTopLeft(b, i, j), b.boxSize)
      && b.letters[i][j].letter == InitialLetterVals()[i][j]
  {
    var vals := InitialLetterVals();
    UpdateSizesAnchorsLetter(Initial(vals), canvasWidth, canvasHeight, i, j);
  }

  /**
   * `translatePointToIndices`: shift by the offsets and half a cell, divide
   * by the cell size and floor. The point lies between the centre of the cell
   * it names and the centre of the next cell on each axis.
   */
  function TranslatePointToIndices(b: Board, p: Points.Point): (ij: Cell)
    requires b.boxSize > 0.0
    ensures CellCenter(b, ij.0, ij.1).x <= p.x < CellCenter(b, ij.0, ij.1).x + b.boxSize
    ensures CellCenter(b, ij.0, ij.1).y <= p.y < CellCenter(b, ij.0, ij.1).y + b.boxSize
  {
    var offsetX := -b.boxSize / 2.0 - b.offsetX;
    var offsetY := -b.boxSize / 2.0 - b.offsetY;
    FloorFacts.FloorDivBounds(p.x + offsetX, b.boxSize);
    FloorFacts.FloorDivBounds(p.y + offsetY, b.boxSize);
    var j := ((p.x + offsetX) / b.boxSize).Floor;
    var i := ((p.y + offsetY) / b.boxSize).Floor;
    (i, j)
  }

  /** The centre of cell `(i, j)` translates back to `(i, j)`, for any integers. */
  lemma {:induction false} CenterTranslatesToItsCell(b: Board, i: int, j: int)
    requires b.boxSize > 0.0
    ensures TranslatePointToIndices(b, CellCenter(b, i, j)) == (i, j)
  {
    var c := CellCenter(b, i, j);
    FloorFacts.ScaleCancels(j as real, b.boxSize);
    FloorFacts.ScaleCancels(i as real, b.boxSize);
    assert (c.x + (-b.boxSize / 2.0 - b.offsetX)) / b.boxSize == j as real;
    assert (c.y + (-b.boxSize / 2.0 - b.offsetY)) / b.boxSize == i as real;
    FloorFacts.FloorOfIntPlusFraction(j, 0.0);
    FloorFacts.FloorOfIntPlusFraction(i, 0.0);
  }

  /**
   * After `updateSizes` with a non-empty canvas, the centre of the letter at
   * `(i, j)` is the centre of cell `(i, j)` and translates back to `(i, j)`.
   */
  lemma LetterCenterTranslatesToItsCell(b: Board, canvasWidth: real, canvasHeight: real, i: int, j: int)
    requires b.rows > 0 && b.cols > 0 && Covers(b.letterVals, b.rows, b.cols)
    requires canvasWidth > 0.0 && canvasHeight > 0.0
    requires 0 <= i < b.rows && 0 <= j < b.cols
    ensures var r := UpdateSizes(b, canvasWidth, canvasHeight);
      && r.boxSize > 0.0
      && Letters.Center(r.letters[i][j]) == CellCenter(r, i, j)
      && TranslatePointToIndices(r, Letters.Center(r.letters[i][j])) == (i, j)
  {
    var r := UpdateSizes(b, canvasWidth, canvasHeight);
    assert r.boxSize > 0.0 by {
      assert canvasWidth / b.cols as real > 0.0 && canvasHeight / b.rows as real > 0.0;
    }
    UpdateSizesAnchorsLetter(b, canvasWidth, canvasHeight, i, j);
    CenterTranslatesToItsCell(r, i, j);
  }

  /** Laying out twice on the same canvas gives the same board as laying out once. */
  lemma UpdateSizesIdempotent(b: Board, canvasWidth: real, canvasHeight: real)
    requires b.rows > 0 && b.cols > 0 && Covers(b.letterVals, b.rows, b.cols)
    ensures UpdateSizes(UpdateSizes(b, canvasWidth, canvasHeight), canvasWidth, canvasHeight)
         == UpdateSizes(b, canvasWidth, canvasHeight)
  {
  }

  function TopLeft(b: Board): Points.Point
  {
    Points.From(b.offsetX, b.offsetY)
  }

  function TopRight(b: Board): Points.Point
  {
    Points.From(b.offsetX + b.boxSize * b.cols as real, b.offsetY)
  }

  function BottomLeft(b: Board): Points.Point
  {
    Points.From(b.offsetX, b.offsetY + b.boxSize * b.rows as real)
  }

  function BottomRight(b: Board): Points.Point
  {
    Points.From(b.offsetX + b.boxSize * b.cols as real, b.offsetY + b.boxSize * b.rows as real)
  }

  /** The corner getters span a `boxSize * cols` by `boxSize * rows` rectangle. */
  lemma BoundingBox(b: Board)
    ensures BottomRight(b) == Points.Add(TopLeft(b), b.boxSize * b.cols as real, b.boxSize * b.rows as real)
    ensures TopRight(b).x == BottomRight(b).x && TopRight(b).y == TopLeft(b).y
    ensures BottomLeft(b).x == TopLeft(b).x && BottomLeft(b).y == BottomRight(b).y
  {
  }

  /** After `updateSizes` the bounding box lies inside the canvas and is centred on it. */
  lemma LayoutFitsCanvas(b: Board, canvasWidth: real, canvasHeight: real)
    requires b.rows > 0 && b.cols > 0 && Covers(b.letterVals, b.rows, b.cols)
    ensures var r := UpdateSizes(b, canvasWidth, canvasHeight);
      && 0.0 <= TopLeft(r).x && 0.0 <= TopLeft(r).y
      && BottomRight(r).x <= canvasWidth && BottomRight(r).y <= canvasHeight
      && TopLeft(r).x + BottomRight(r).x == canvasWidth
      && TopLeft(r).y + BottomRight(r).y == canvasHeight
  {
  }

  /**
   * After `updateSizes` the letters tile the bounding box: the first letter's
   * top-left corner is the box's and the last letter's bottom-right corner is
   * the box's.
   */
  lemma LettersSpanBoundingBox(b: Board, canvasWidth: real, canvasHeight: real)
    requires b.rows > 0 && b.cols > 0 && Covers(b.letterVals, b.rows, b.cols)
    ensures var r := UpdateSizes(b, canvasWidth, canvasHeight);
      && Letters.TopLeft(r.letters[0][0]) == TopLeft(r)
      && Letters.BottomRight(r.letters[b.rows - 1][b.cols - 1]) == BottomRight(r)
  {
    var r := UpdateSizes(b, canvasWidth, canvasHeight);
    UpdateSizesAnchorsLetter(b, canvasWidth, canvasHeight, 0, 0);
    UpdateSizesAnchorsLetter(b, canvasWidth, canvasHeight, b.rows - 1, b.cols - 1);
    LastCellEndsAtCorner(r, b.rows, b.cols);
  }

  /** Cell `(rows - 1, cols - 1)` ends at the bounding box's bottom-right corner. */
  lemma LastCellEndsAtCorner(b: Board, rows: nat, cols: nat)
    requires rows == b.rows > 0 && cols == b.cols > 0
    ensures Points.Add(CellTopLeft(b, rows - 1, cols - 1), b.boxSize, b.boxSize) == BottomRight(b)
  {
    NextCellStart(cols - 1, b.boxSize);
    NextCellStart(rows - 1, b.boxSize);
    assert (cols - 1 + 1) as real * b.boxSize == b.boxSize * cols as real;
    assert (rows - 1 + 1) as real * b.boxSize == b.boxSize * rows as real;
  }

  /**
   * After `updateSizes` each letter's right neighbour starts at its top-right
   * corner and its lower neighbour at its bottom-left corner: the cells abut
   * with no gap and no overlap.
   */
  lemma LettersAbut(b: Board, canvasWidth: real, canvasHeight: real, i: int, j: int)
    requires b.rows > 0 && b.cols > 0 && Covers(b.letterVals, b.rows, b.cols)
    requires 0 <= i < b.rows && 0 <= j < b.cols
    ensures var r := UpdateSizes(b, canvasWidth, canvasHeight);
      && (j + 1 < b.cols ==> Letters.TopLeft(r.letters[i][j + 1]) == Letters.TopRight(r.letters[i][j]))
      && (i + 1 < b.rows ==> Letters.TopLeft(r.letters[i + 1][j]) == Letters.BottomLeft(r.letters[i][j]))
  {
    var r := UpdateSizes(b, canvasWidth, canvasHeight);
    UpdateSizesAnchorsLetter(b, canvasWidth, canvasHeight, i, j);
    if j + 1 < b.cols {
      UpdateSizesAnchorsLetter(b, canvasWidth, canvasHeight, i, j + 1);
      CellStepRight(r, i, j);
    }
    if i + 1 < b.rows {
      UpdateSizesAnchorsLetter(b, canvasWidth, canvasHeight, i + 1, j);
      CellStepDown(r, i, j);
    }
  }

  lemma CellStepRight(b: Board, i: int, j: int)
    ensures CellTopLeft(b, i, j + 1) == Points.Add(CellTopLeft(b, i, j), b.boxSize, 0.0)
  {
    NextCellStart(j, b.boxSize);
  }

  lemma CellStepDown(b: Board, i: int, j: int)
    ensures CellTopLeft(b, i + 1, j) == Points.Add(CellTopLeft(b, i, j), 0.0, b.boxSize)
  {
    NextCellStart(i, b.boxSize);
  }

  /** The next cell starts one cell size further on. */
  lemma NextCellStart(k: int, box: real)
    ensures (k + 1) as real * box == k as real * box + box
  {
  }

  // ---------------------------------------------------------------------------
  // Reading the word a drag traces (`getWord`)
  // ---------------------------------------------------------------------------

  /** The cell exists in the grid: reading it neither throws nor yields `undefined`. */
  predicate InGrid(vals: Grid, c: Cell)
  {
    0 <= c.0 < |vals| && 0 <= c.1 < |vals[c.0]|
  }

  /** The cell `k` steps from `(i, j)` along `d`; rows grow southwards, columns eastwards. */
  function StepFrom(i: int, j: int, d: Dir, k: int): Cell
  {
    match d
    case E => (i, j + k)
    case W => (i, j - k)
    case S => (i + k, j)
    case N => (i - k, j)
    case NE => (i - k, j + k)
    case SW => (i + k, j - k)
    case NW => (i - k, j - k)
    case SE => (i + k, j + k)
  }

  /** The `n` consecutive cells from `(i, j)` along `d`. */
  function Walk(i: int, j: int, d: Dir, n: nat): seq<Cell>
  {
    seq(n, k => StepFrom(i, j, d, k))
  }

  function Abs(x: int): nat
  {
    if x < 0 then -x else x
  }

  /**
   * How many cells the `switch` case for `d` reads between `(i1, j1)` and
   * `(i2, j2)`: a straight case stops at the end cell's column (E, W) or row
   * (S, N) and reads nothing when that lies behind the start; a diagonal case
   * reads `|j2 - j1| + 1` cells whatever the rows.
   */
  function SpanLength(d: Dir, i1: int, j1: int, i2: int, j2: int): nat
  {
    match d
    case E => if j1 <= j2 then j2 - j1 + 1 else 0
    case W => if j2 <= j1 then j1 - j2 + 1 else 0
    case S => if i1 <= i2 then i2 - i1 + 1 else 0
    case N => if i2 <= i1 then i1 - i2 + 1 else 0
    case _ => Abs(j2 - j1) + 1
  }

  /**
   * The cells `getWord` reads, in order: none for the unset start point, the
   * one start cell when both points fall in it, otherwise the walk from the
   * start cell along the snapped direction.
   */
  function SelectedCells(b: Board, start: Points.Point, end: Points.Point, d: Dir): seq<Cell>
    requires start.x == -1.0 || b.boxSize > 0.0
  {
    if start.x == -1.0 then []
    else
      var (i1, j1) := TranslatePointToIndices(b, start);
      var (i2, j2) := TranslatePointToIndices(b, end);
      if i1 == i2 && j1 == j2 then [(i1, j1)]
      else Walk(i1, j1, d, SpanLength(d, i1, j1, i2, j2))
  }

  /** The texts of the given cells, in order. */
  function Read(vals: Grid, cells: seq<Cell>): seq<string>
    requires AllInGrid(vals, cells)
  {
    seq(|cells|, k requires 0 <= k < |cells| => vals[cells[k].0][cells[k].1])
  }

  /** `parts.join('')`. */
  function Join(parts: seq<string>): string
  {
    if |parts| == 0 then "" else Join(parts[..|parts| - 1]) + parts[|parts| - 1]
  }

  /** Every cell `getWord` would read exists; the source indexes `letterVals` unchecked. */
  predicate CanRead(b: Board, start: Points.Point, end: Points.Point, d: Dir)
  {
    && (start.x == -1.0 || b.boxSize > 0.0)
    && AllInGrid(b.letterVals, SelectedCells(b, start, end, d))
  }

  /**
   * `getWord(startPoint, endPoint)` with the snapped direction of the drag
   * supplied by the caller: the texts of the selected cells, joined.
   */
  method GetWord(b: Board, start: Points.Point, end: Points.Point, d: Dir) returns (word: string)
    requires CanRead(b, start, end, d)
    ensures word == Join(Read(b.letterVals, SelectedCells(b, start, end, d)))
  {
    if start.x == -1.0 {
      return "";
    }
    var (i1, j1) := TranslatePointToIndices(b, start);
    var (i2, j2) := TranslatePointToIndices(b, end);
    var vals := b.letterVals;
    if i1 == i2 && j1 == j2 {
      assert SelectedCells(b, start, end, d) == [(i1, j1)];
      assert InGrid(vals, SelectedCells(b, start, end, d)[0]);
      assert Join([vals[i1][j1]]) == Join([]) + vals[i1][j1];
      return vals[i1][j1];
    }
    assert SwitchCells(d, i1, j1, i2, j2) == SelectedCells(b, start, end, d);
    var res := ReadAlong(vals, d, i1, j1, i2, j2);
    word := Join(res);
  }

  /** The cells `getWord`'s `switch` case for `d` visits. */
  function SwitchCells(d: Dir, i1: int, j1: int, i2: int, j2: int): seq<Cell>
  {
    Walk(i1, j1, d, SpanLength(d, i1, j1, i2, j2))
  }

  /** Every cell of `cells` exists in the grid. */
  predicate AllInGrid(vals: Grid, cells: seq<Cell>)
  {
    forall k :: 0 <= k < |cells| ==> InGrid(vals, cells[k])
  }

  /** The `switch (direction)` of `getWord`. */
  method ReadAlong(vals: Grid, d: Dir, i1: int, j1: int, i2: int, j2: int) returns (res: seq<string>)
    requires AllInGrid(vals, SwitchCells(d, i1, j1, i2, j2))
    ensures res == Read(vals, SwitchCells(d, i1, j1, i2, j2))
  {
    match d {
      case E => res := ReadEast(vals, i1, j1, i2, j2);
      case W => res := ReadWest(vals, i1, j1, i2, j2);
      case S => res := ReadSouth(vals, i1, j1, i2, j2);
      case N => res := ReadNorth(vals, i1, j1, i2, j2);
      case _ => res := ReadDiagonal(vals, d, i1, j1, i2, j2);
    }
  }

  /** Case E: columns `j1` up to `j2` of row `i1`. */
  method ReadEast(vals: Grid, i1: int, j1: int, i2: int, j2: int) returns (res: seq<string>)
    requires AllInGrid(vals, SwitchCells(E, i1, j1, i2, j2))
    ensures res == Read(vals, SwitchCells(E, i1, j1, i2, j2))
  {
    ghost var cells := SwitchCells(E, i1, j1, i2, j2);
    res := [];
    var j := j1;
    while j <= j2
      invariant j1 <= j <= j1 + |cells|
      invariant res == Read(vals, cells)[..j - j1]
    {
      assert cells[j - j1] == (i1, j);
      res := res + [vals[i1][j]];
      j := j + 1;
    }
  }

  /** Case W: columns `j1` down to `j2` of row `i1`. */
  method ReadWest(vals: Grid, i1: int, j1: int, i2: int, j2: int) returns (res: seq<string>)
    requires AllInGrid(vals, SwitchCells(W, i1, j1, i2, j2))
    ensures res == Read(vals, SwitchCells(W, i1, j1, i2, j2))
  {
    ghost var cells := SwitchCells(W, i1, j1, i2, j2);
    res := [];
    var j := j1;
    while j >= j2
      invariant j1 - |cells| <= j <= j1
      invariant res == Read(vals, cells)[..j1 - j]
    {
      assert cells[j1 - j] == (i1, j);
      res := res + [vals[i1][j]];
      j := j - 1;
    }
  }

  /** Case S: rows `i1` down the grid to `i2` in column `j1`. */
  method ReadSouth(vals: Grid, i1: int, j1: int, i2: int, j2: int) returns (res: seq<string>)
    requires AllInGrid(vals, SwitchCells(S, i1, j1, i2, j2))
    ensures res == Read(vals, SwitchCells(S, i1, j1, i2, j2))
  {
    ghost var cells := SwitchCells(S, i1, j1, i2, j2);
    res := [];
    var i := i1;
    while i <= i2
      invariant i1 <= i <= i1 + |cells|
      invariant res == Read(vals, cells)[..i - i1]
    {
      assert cells[i - i1] == (i, j1);
      res := res + [vals[i][j1]];
      i := i + 1;
    }
  }

  /** Case N: rows `i1` up the grid to `i2` in column `j1`. */
  method ReadNorth(vals: Grid, i1: int, j1: int, i2: int, j2: int) returns (res: seq<string>)
    requires AllInGrid(vals, SwitchCells(N, i1, j1, i2, j2))
    ensures res == Read(vals, SwitchCells(N, i1, j1, i2, j2))
  {
    ghost var cells := SwitchCells(N, i1, j1, i2, j2);
    res := [];
    var i := i1;
    while i >= i2
      invariant i1 - |cells| <= i <= i1
      invariant res == Read(vals, cells)[..i1 - i]
    {
      assert cells[i1 - i] == (i, j1);
      res := res + [vals[i][j1]];
      i := i - 1;
    }
  }

  /** Cases NE, SW, NW and SE: `|j2 - j1| + 1` diagonal steps from `(i1, j1)`. */
  method ReadDiagonal(vals: Grid, d: Dir, i1: int, j1: int, i2: int, j2: int) returns (res: seq<string>)
    requires !IsCardinal(d)
    requires AllInGrid(vals, SwitchCells(d, i1, j1, i2, j2))
    ensures res == Read(vals, SwitchCells(d, i1, j1, i2, j2))
  {
    ghost var cells := SwitchCells(d, i1, j1, i2, j2);
    var diff := Abs(j2 - j1);
    res := [];
    for i := 0 to diff + 1
      invariant res == Read(vals, cells)[..i]
    {
      var (r, c) := match d
        case NE => (i1 - i, j1 + i)
        case SW => (i1 + i, j1 - i)
        case NW => (i1 - i, j1 - i)
        case _ => (i1 + i, j1 + i);
      assert cells[i] == (r, c);
      res := res + [vals[r][c]];
    }
  }

  /** The unit step of direction `d` as `(row change, column change)`. */
  function Delta(d: Dir): (int, int)
  {
    match d
    case E => (0, 1)
    case W => (0, -1)
    case S => (1, 0)
    case N => (-1, 0)
    case NE => (-1, 1)
    case SW => (1, -1)
    case NW => (-1, -1)
    case SE => (1, 1)
  }

  /** A walk starts at its first cell and advances by the direction's unit step. */
  lemma WalkAdvancesByDelta(i: int, j: int, d: Dir, n: nat)
    ensures n > 0 ==> Walk(i, j, d, n)[0] == (i, j)
    ensures forall k :: 0 <= k < n - 1 ==>
      Walk(i, j, d, n)[k + 1] == (Walk(i, j, d, n)[k].0 + Delta(d).0, Walk(i, j, d, n)[k].1 + Delta(d).1)
  {
  }

  /** With the unset start point `getWord` reads no cell and returns ''. */
  lemma UnsetStartReadsNothing(b: Board, end: Points.Point, d: Dir)
    ensures SelectedCells(b, Points.Unset, end, d) == []
    ensures Join(Read(b.letterVals, SelectedCells(b, Points.Unset, end, d))) == ""
  {
  }

  /** When both points fall in one cell, `getWord` returns that cell's text. */
  lemma SameCellReadsItsLetter(b: Board, start: Points.Point, end: Points.Point, d: Dir)
    requires start.x != -1.0 && b.boxSize > 0.0
    requires TranslatePointToIndices(b, start) == TranslatePointToIndices(b, end)
    requires InGrid(b.letterVals, TranslatePointToIndices(b, start))
    ensures var (i, j) := TranslatePointToIndices(b, start);
      && SelectedCells(b, start, end, d) == [(i, j)]
      && Join(Read(b.letterVals, SelectedCells(b, start, end, d))) == b.letterVals[i][j]
  {
    var (i, j) := TranslatePointToIndices(b, start);
    assert Join([b.letterVals[i][j]]) == Join([]) + b.letterVals[i][j];
  }

  /**
   * Case E reads row `i1` from column `j1` to `j2` when `j1 <= j2` and nothing
   * otherwise; the end cell's row plays no part.
   */
  lemma EastReadsRow(i1: int, j1: int, i2: int, j2: int, otherRow: int)
    ensures j1 <= j2 ==> |SwitchCells(E, i1, j1, i2, j2)| == j2 - j1 + 1
    ensures j1 <= j2 ==> forall k :: 0 <= k <= j2 - j1 ==> SwitchCells(E, i1, j1, i2, j2)[k] == (i1, j1 + k)
    ensures j2 < j1 ==> SwitchCells(E, i1, j1, i2, j2) == []
    ensures SwitchCells(E, i1, j1, i2, j2) == SwitchCells(E, i1, j1, otherRow, j2)
  {
  }

  /** Case W reads the cells case E would read from `j2` to `j1`, in reverse. */
  lemma WestReversesEast(i1: int, j1: int, i2: int, j2: int)
    ensures var west := SwitchCells(W, i1, j1, i2, j2);
      var east := SwitchCells(E, i1, j2, i2, j1);
      |west| == |east| && forall k :: 0 <= k < |west| ==> west[k] == east[|east| - 1 - k]
  {
  }

  /**
   * A diagonal case reads `|j2 - j1| + 1` cells from the start cell, and when
   * the end cell's column lies on the side the direction moves towards, the
   * last cell read is in that column.
   */
  lemma DiagonalReadsColumnSpan(d: Dir, i1: int, j1: int, i2: int, j2: int)
    requires !IsCardinal(d)
    ensures var cells := SwitchCells(d, i1, j1, i2, j2);
      && |cells| == Abs(j2 - j1) + 1
      && cells[0] == (i1, j1)
      && (Delta(d).1 * (j2 - j1) >= 0 ==> cells[|cells| - 1].1 == j2)
      && cells[|cells| - 1].0 == i1 + Delta(d).0 * Abs(j2 - j1)
  {
  }

  /** Joining one-character texts gives the string of those characters. */
  lemma {:induction false} JoinOfLetters(parts: seq<string>)
    requires forall k :: 0 <= k < |parts| ==> |parts[k]| == 1
    ensures |Join(parts)| == |parts|
    ensures forall k :: 0 <= k < |parts| ==> Join(parts)[k] == parts[k][0]
  {
    if |parts| > 0 {
      JoinOfLetters(parts[..|parts| - 1]);
    }
  }

  /**
   * Lookup undoes placement: if the `n` cells from `(i, j)` along `d` hold
   * the letters of `w`, a drag from the centre of the first of them to the
   * centre of the last selects exactly those cells, and `getWord` returns `w`.
   */
  lemma {:induction false} PlacedWordReadsBack(b: Board, i: int, j: int, d: Dir, w: string)
    requires b.boxSize > 0.0 && |w| > 0
    requires CellCenter(b, i, j).x != -1.0
    requires AllInGrid(b.letterVals, Walk(i, j, d, |w|))
    requires forall k :: 0 <= k < |w| ==> Read(b.letterVals, Walk(i, j, d, |w|))[k] == [w[k]]
    ensures var last := StepFrom(i, j, d, |w| - 1);
      && SelectedCells(b, CellCenter(b, i, j), CellCenter(b, last.0, last.1), d) == Walk(i, j, d, |w|)
      && Join(Read(b.letterVals, Walk(i, j, d, |w|))) == w
  {
    var last := StepFrom(i, j, d, |w| - 1);
    CenterTranslatesToItsCell(b, i, j);
    CenterTranslatesToItsCell(b, last.0, last.1);
    var cells := Walk(i, j, d, |w|);
    if |w| == 1 {
      assert cells == [(i, j)];
    } else {
      assert SpanLength(d, i, j, last.0, last.1) == |w|;
    }
    var parts := Read(b.letterVals, cells);
    JoinOfLetters(parts);
    assert Join(parts) == w;
  }
}
