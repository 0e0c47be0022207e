# Word-search grid geometry in Dafny

This project models the geometric core of a word-search puzzle game written in
TypeScript/Angular. The player drags across a grid of letters drawn on a canvas,
and the game turns the drag into the word it covers. The model covers:

- **Points and angles.** The `Point` value type (`from`, `add`, `slope`) and the
  `Angle` value type (degree/radian conversion and addition). Math.PI is left
  as an uninterpreted positive constant.
- **Direction snapping.** `Direction.calcSnappedAngle` maps a bearing in degrees
  to one of eight compass directions (E=0, SE=45, S=90, SW=135, W=180, NW=225,
  N=270, NE=315). Each bucket is closed at both ends. Buckets are tested in the
  order E, N, W, S, NE, NW, SW, SE. The `directions` list is also modelled.
- **Letters.** A `Letter` is a square cell with a text, a top-left anchor and a
  width. Its corners and centre are derived from these.
- **The board service.** This covers the fixed 8 x 4 grid that the constructor
  installs and `updateSizes`, which sizes the square cells, centres the grid and
  anchors each letter. It also covers `translatePointToIndices` (pixel to
  `(row, column)`), the four corner getters of the grid's bounding box, and
  `getWord`, which reads the cells between two points along a snapped direction.
- **The input handler's pure rules.** This covers `getQuantizedPoint` (snap a
  pixel to the centre of its cell), the horizontal and vertical branches of
  `getSnappedPoint`, the initial sentinel state, and the move rule. The move rule
  publishes a new end point only when it differs from the current one.

The snapped direction of a drag comes from `Point.angle` / `Angle.angle`. Those
are not part of this model, so `GetWord`, `GetSnappedPoint` and `OnMove` take the
direction as a parameter.

Numbers are Dafny `real`s. They are exact: there is no NaN, no infinity and no
rounding. `Math.floor` is `.Floor`. Grid indices are `int`s.

Modules follow the source files:

| module | file | models |
|---|---|---|
| `Points` | point.dfy | `src/app/game/models/point.model.ts` |
| `Angles` | angle.dfy | `src/app/game/models/angle.model.ts` |
| `Letters` | letter.dfy | `src/app/game/models/letter.model.ts` |
| `Directions` | directions.dfy | `src/app/game/models/directions.model.ts` |
| `Board` | board.dfy | `src/app/game/services/board.service.ts` |
| `InputHandler` | input_handler.dfy | `src/app/game/services/input-handler.service.ts` |
| `Wrappers`, `FloorFacts` | wrappers.dfy, floor_facts.dfy | shared `Option`/`Result` types; facts about `floor` on reals |

## Notes on the source's behaviour

- **Pixel to cell floors.** `translatePointToIndices` subtracts the offset and
  half a cell, divides by the cell size and floors. For a point that is not a
  cell centre, the result is the cell whose centre is at or before the point on
  each axis (`TranslatePointToIndices`). `getWord` only ever receives quantised
  cell centres, and each of those translates back to its own cell
  (`CenterTranslatesToItsCell`).
- **The degree view is not rounded.** `degreeAngle` is `radToDeg` of the stored
  radians, with no rounding.
- **Snapping is not periodic.** The E test also catches every bearing of 337.5
  or more, so 405 snaps to E while 45 snaps to SE (`SnapNotPeriodic`). Every
  real bearing snaps to some direction, not only those in [0, 360)
  (`SnapIsTotal`).
- **`getWord` does no bounds check.** It indexes `letterVals` directly. The
  game service hands every published pair of points to `getWord` with no
  bounds test (src/app/game/services/game.service.ts:19-20). The selector
  service's call to the board's `isInBoard`
  (src/app/game/services/selector.service.ts:38) only decides whether the
  selection line is drawn. The canvas is square
  (src/app/game/game.component.ts:96-97), so the 8 x 4 grid is padded by a
  quarter of the width on each side, and a press there gives a column outside
  0..3. The model leaves such drags out: `CanRead` requires every cell read to
  exist.

## Model

| member | source | states |
|---|---|---|
| `Points.From` | src/app/game/models/point.model.ts:5-15 | the `x` and `y` getters of `Point.from(x, y)` give back `x` and `y` |
| `Points.Add` | src/app/game/models/point.model.ts:21-23 | `add(dx, dy)` displaces the point by exactly `(dx, dy)` |
| `Points.AddZero` | src/app/game/models/point.model.ts:21-23 | adding `(0, 0)` returns the same point |
| `Points.AddCompose` | src/app/game/models/point.model.ts:21-23 | two `add`s equal one `add` of the summed displacement |
| `Points.Slope` | src/app/game/models/point.model.ts:29-31 | slope exists iff the x coordinates differ, and then slope times run equals rise |
| `Points.SlopeSymmetric` | src/app/game/models/point.model.ts:29-31 | `slope(p1, p2) == slope(p2, p1)` whenever the x coordinates differ; for equal x coordinates both sides are `None` |
| `Angles.DegToRad` | src/app/game/models/angle.model.ts:28-30 | converting degrees to radians is undone by `radToDeg` |
| `Angles.RadToDeg` | src/app/game/models/angle.model.ts:31-33 | `radToDeg` keeps the sign, and maps zero to zero and only zero |
| `Angles.DegreeAngle` | src/app/game/models/angle.model.ts:11-13 | the `degreeAngle` getter, `radToDeg` of the stored radians with no rounding; `FromDeg` and `AddDeg` state how it moves, and `DegRadRoundTrip` that it loses nothing |
| `Angles.ValueOf` | src/app/game/models/angle.model.ts:15-17 | `valueOf()` returns the stored radians (`FromRad`); `ValueOfOrdersByDegrees` shows it orders angles as their degree views do |
| `Angles.DegRadRoundTrip` | src/app/game/models/angle.model.ts:28-33 | `degToRad(radToDeg(r)) == r` |
| `Angles.FromDeg` | src/app/game/models/angle.model.ts:34-36 | `fromDeg(d).degreeAngle == d` |
| `Angles.FromRad` | src/app/game/models/angle.model.ts:37-39 | `fromRad(r).radianAngle == r`, and its `valueOf()` is `r` |
| `Angles.AddDeg` | src/app/game/models/angle.model.ts:21-23 | `addDeg(d)` increases the degree view by exactly `d` |
| `Angles.AddRad` | src/app/game/models/angle.model.ts:24-26 | `addRad(r)` increases the radian view by `r`, i.e. the degree view by `radToDeg(r)` |
| `Angles.ValueOfOrdersByDegrees` | src/app/game/models/angle.model.ts:15-17 | comparing angles through `valueOf()` (radians) orders them as their degree views do |
| `Letters.From` | src/app/game/models/letter.model.ts:4-16 | `Letter.from(c, p, w)` stores `c`, `p`, `w`, sets height to width, and starts out 'white' |
| `Letters.TopLeft` | src/app/game/models/letter.model.ts:36-38 | the anchor point; `Corners` relates it to the other three corners |
| `Letters.TopRight` | src/app/game/models/letter.model.ts:39-41 | the anchor moved `width` to the right; stated by `Corners` |
| `Letters.BottomLeft` | src/app/game/models/letter.model.ts:42-44 | the anchor moved `height` down; stated by `Corners` |
| `Letters.BottomRight` | src/app/game/models/letter.model.ts:45-47 | the anchor moved by `(width, height)`; stated by `Corners` |
| `Letters.Center` | src/app/game/models/letter.model.ts:48-50 | the anchor moved by half the width and half the height; `CenterIsMidpoint` shows it is the midpoint of the diagonal, and `FromIsSquare` that it lies strictly inside |
| `Letters.Corners` | src/app/game/models/letter.model.ts:36-47 | top-right is top-left + `(width, 0)`, bottom-left is top-left + `(0, height)`, bottom-right is top-left + `(width, height)` |
| `Letters.CenterIsMidpoint` | src/app/game/models/letter.model.ts:45-50 | the centre is the midpoint of the top-left and bottom-right corners |
| `Letters.FromIsSquare` | src/app/game/models/letter.model.ts:11-16 | a letter with positive width is a square with its centre strictly inside |
| `Directions.Degrees` | src/app/game/models/directions.model.ts:10-32 | each constant is a multiple of 45 in [0, 360) |
| `Directions.DegreesInjective` | src/app/game/models/directions.model.ts:10-32 | the eight constants are distinct |
| `Directions.SnapDegrees` | src/app/game/models/directions.model.ts:35-86 | `calcSnappedAngle`'s eight closed-bucket tests on a bearing, taken in source order, with the `throw` as `Failure`; characterised independently by `SnapIsNearestDirection`, and never failing by `SnapIsTotal` |
| `Directions.CalcSnappedAngle` | src/app/game/models/directions.model.ts:35-86 | snapping an angle never throws, and for a degree view in [0, 360) gives a direction less than half a bucket away, or exactly half a bucket away and cardinal |
| `Directions.SnapIsTotal` | src/app/game/models/directions.model.ts:35-85 | every real bearing matches a bucket, so the `throw` is unreachable |
| `Directions.CalcSnappedAngleIsTotal` | src/app/game/models/directions.model.ts:35-85 | `calcSnappedAngle` of every angle returns one of the eight constants |
| `Directions.SnapEastCatchesOutOfRange` | src/app/game/models/directions.model.ts:36-40 | any bearing ≥ 337.5 or ≤ 22.5 snaps to E, including negative ones and ones ≥ 360 |
| `Directions.SnapNotPeriodic` | src/app/game/models/directions.model.ts:36-82 | 45 snaps to SE but 405 snaps to E |
| `Directions.SnapBoundaries` | src/app/game/models/directions.model.ts:36-82 | each of the eight boundaries snaps to the cardinal direction that is tested first |
| `Directions.SnapSoutheast` | src/app/game/models/directions.model.ts:42-82 | everything strictly between 22.5 and 67.5 snaps to SE |
| `Directions.SnapFixesConstants` | src/app/game/models/directions.model.ts:10-82 | each direction's constant snaps to that direction |
| `Directions.SnapIsNearestDirection` | src/app/game/models/directions.model.ts:35-82 | on [0, 360) the result is `d` iff `d` is less than 22.5° away round the circle, or exactly 22.5° away and cardinal |
| `Directions.DirectionList` | src/app/game/models/directions.model.ts:87-97 | the `directions` list has 7 entries and holds exactly the directions other than N |
| `Directions.DirectionListContents` | src/app/game/models/directions.model.ts:87-97 | `directions` has 7 distinct members: every direction except N |
| `Board.UpdateSizes` | src/app/game/services/board.service.ts:53-74 | largest square cell that fits: the grid fits both axes and fills one exactly; grid centred with non-negative offsets, at least one of them 0; one letter per cell, `rows` rows of `cols` letters; the grid of values is unchanged |
| `Board.UpdateSizesAnchorsLetter` | src/app/game/services/board.service.ts:62-73 | after layout, letter `(i, j)` is `Letter.from` of `letterVals[i][j]`, one cell wide and high, anchored at `(j*box + offsetX, i*box + offsetY)` |
| `Board.CellSize` | src/app/game/services/board.service.ts:54-56 | `min(W/cols, H/rows)` fits both axes and fills at least one exactly |
| `Board.CentringOffset` | src/app/game/services/board.service.ts:58-59 | twice the offset plus the grid's extent equals the canvas extent; the offset is ≥ 0 iff the grid fits |
| `Board.New` | src/app/game/services/board.service.ts:20-43 | the constructor installs the fixed 8 x 4 grid, with `rows`/`cols` taken from it; the cell is the largest square for which 4 columns and 8 rows fit, filling one axis exactly; the grid is centred with non-negative offsets, one of them 0; 8 rows of 4 letters |
| `Board.NewHoldsInitialGrid` | src/app/game/services/board.service.ts:20-43 | on the constructed board, letter `(i, j)` is `Letter.from` of the initial grid's text at `(i, j)`, anchored at its cell and one cell wide |
| `Board.UpdateSizesIdempotent` | src/app/game/services/board.service.ts:53-74 | laying out twice on the same canvas gives the same board |
| `Board.LayoutFitsCanvas` | src/app/game/services/board.service.ts:53-59 | after layout the bounding box lies inside the canvas and is centred on it |
| `Board.LettersSpanBoundingBox` | src/app/game/services/board.service.ts:62-73 | the first letter starts at the box's top-left corner, and the last letter ends at its bottom-right corner |
| `Board.LettersAbut` | src/app/game/services/board.service.ts:62-73 | each letter's right and lower neighbours start at its top-right and bottom-left corners |
| `Board.TranslatePointToIndices` | src/app/game/services/board.service.ts:75-85 | the point lies between the centre of the named cell and the centre of the next cell, on both axes |
| `Board.CenterTranslatesToItsCell` | src/app/game/services/board.service.ts:75-85 | the centre of cell `(i, j)` translates exactly to `(i, j)` |
| `Board.LetterCenterTranslatesToItsCell` | src/app/game/services/board.service.ts:53-85 | after layout on a non-empty canvas, the centre of letter `(i, j)` translates back to `(i, j)` |
| `Board.TopLeft` | src/app/game/services/board.service.ts:179-181 | the grid's top-left corner is `(offsetX, offsetY)`; `LettersSpanBoundingBox` shows it is the first letter's top-left |
| `Board.TopRight` | src/app/game/services/board.service.ts:182-184 | the top-right corner; `BoundingBox` relates it to the other three |
| `Board.BottomLeft` | src/app/game/services/board.service.ts:185-187 | the bottom-left corner; `BoundingBox` relates it to the other three |
| `Board.BottomRight` | src/app/game/services/board.service.ts:188-193 | the bottom-right corner; `LettersSpanBoundingBox` shows it is the last letter's bottom-right, and `LayoutFitsCanvas` that it lies inside the canvas |
| `Board.BoundingBox` | src/app/game/services/board.service.ts:179-193 | bottom-right minus top-left is `(box*cols, box*rows)`; top-right and bottom-left share coordinates with both |
| `Board.GetWord` | src/app/game/services/board.service.ts:87-161 | the result is the join of the texts of the selected cells: none for the unset start, the one cell when both points share it, otherwise the switch case's cells |
| `Board.ReadAlong` | src/app/game/services/board.service.ts:98-158 | the `switch` pushes the texts of the walked cells, in order |
| `Board.ReadEast` | src/app/game/services/board.service.ts:100-104 | the E loop reads row `i1` from column `j1` to `j2` |
| `Board.ReadWest` | src/app/game/services/board.service.ts:106-110 | the W loop reads row `i1` from column `j1` down to `j2` |
| `Board.ReadSouth` | src/app/game/services/board.service.ts:113-117 | the S loop reads column `j1` from row `i1` to `i2` |
| `Board.ReadNorth` | src/app/game/services/board.service.ts:119-123 | the N loop reads column `j1` from row `i1` up to `i2` |
| `Board.ReadDiagonal` | src/app/game/services/board.service.ts:127-157 | the four diagonal loops read `abs(j2 - j1) + 1` cells stepping from `(i1, j1)` |
| `Board.WalkAdvancesByDelta` | src/app/game/services/board.service.ts:98-157 | the cells read start at `(i1, j1)` and move by the direction's unit step each time |
| `Board.UnsetStartReadsNothing` | src/app/game/services/board.service.ts:88 | with start x = -1, no cell is read and the word is '' |
| `Board.SameCellReadsItsLetter` | src/app/game/services/board.service.ts:89-96 | when both points translate to one cell, the word is that cell's text |
| `Board.EastReadsRow` | src/app/game/services/board.service.ts:100-104 | E reads `j2 - j1 + 1` cells `(i1, j1 + k)` when `j1 ≤ j2`, none otherwise, whatever `i2` is |
| `Board.WestReversesEast` | src/app/game/services/board.service.ts:100-110 | W reads the cells E would read from `j2` to `j1`, in reverse order |
| `Board.DiagonalReadsColumnSpan` | src/app/game/services/board.service.ts:127-157 | a diagonal reads `abs(j2 - j1) + 1` cells from `(i1, j1)`; it ends in column `j2` when that column lies in the direction's sense, and `abs(j2 - j1)` rows away |
| `Board.Join` | src/app/game/services/board.service.ts:160 | `res.join('')`: the texts concatenated in order; `JoinOfLetters` states it for one-character texts, and `GetWord`'s contract reads through it |
| `Board.JoinOfLetters` | src/app/game/services/board.service.ts:160 | joining one-character texts gives exactly those characters, in order |
| `Board.PlacedWordReadsBack` | src/app/game/services/board.service.ts:87-161 | if a word's letters lie on a walk, a drag from the first cell's centre to the last cell's centre selects that walk and reads the word |
| `InputHandler.Initial` | src/app/game/services/input-handler.service.ts:18-20 | before any press, start and end are (-1, -1), nothing is pressed, and no cell is selected |
| `InputHandler.GetQuantizedPoint` | src/app/game/services/input-handler.service.ts:96-115 | the result is the centre of the cell holding the input, with cell `(floor((y-offY)/box), floor((x-offX)/box))`; it moves each coordinate by a value in (-box/2, box/2] |
| `InputHandler.QuantizeIsIdempotent` | src/app/game/services/input-handler.service.ts:96-115 | quantising twice equals quantising once |
| `InputHandler.CenterIsQuantized` | src/app/game/services/input-handler.service.ts:96-115 | every cell centre is left in place by quantisation |
| `InputHandler.GetSnappedPoint` | src/app/game/services/input-handler.service.ts:64-78 | E/W keeps the input x and takes the start's y (zero slope); N/S keeps the input y and takes the start's x (vertical) |
| `InputHandler.SnapIsIdempotent` | src/app/game/services/input-handler.service.ts:64-78 | snapping a snapped point again changes nothing |
| `InputHandler.StraightDragStaysInLine` | src/app/game/services/input-handler.service.ts:64-115 | with a quantised start, a snapped and quantised E/W end lies in the start's row, and an N/S end in its column |
| `InputHandler.Publish` | src/app/game/services/input-handler.service.ts:35-40 | for any quantised point and any direction: it becomes the end point; it is published iff it differs in x or y from the current one, and otherwise the state is unchanged |
| `InputHandler.PublishIsIdempotent` | src/app/game/services/input-handler.service.ts:35-40 | publishing the same point twice in a row publishes nothing the second time and leaves the state unchanged |
| `InputHandler.OnMove` | src/app/game/services/input-handler.service.ts:31-41 | the end point becomes the latest quantised point; it is published iff it differs, and otherwise the state is unchanged |
| `InputHandler.RepeatedMoveIsSilent` | src/app/game/services/input-handler.service.ts:35-40 | repeating a move publishes nothing and changes nothing |
| `InputHandler.MoveEndsOnCellCenter` | src/app/game/services/input-handler.service.ts:31-41 | after a move the end point is a cell centre that quantisation leaves in place |

## Left out

- Event plumbing: Angular DI, RxJS subjects, renderer listeners, press and
  release handling, `getPointFromEvent` and `ngOnDestroy`
  (src/app/game/services/input-handler.service.ts:42-63, 116-198). These are UI
  wiring. Only the pure move rule is modelled.
- Drawing: `BoardService.draw`, `Letter.draw`, `calcLetterCenteredPoint`, the
  canvas service and `console.log`. These render through browser APIs.
- Trigonometry and square roots: `Angle.cos/sin/tan/atan2` and `Point.distance`.
  These are transcendental floating-point numerics with no exact real model.
- `Direction.randomDirection`: it uses `Math.random`. Only the list it draws
  from is modelled.
- `toString` of `Point` and `Angle`: these format text for display.
- `fillBoard`, word placement, `isInBoard`, `updateLettersAndSizes`,
  `Point.angle`, `Angle.angle` and `Direction.getDirection` are called but not
  defined in the files modelled, and are not part of this model. Where a
  snapped direction is needed, it is a parameter. `PlacedWordReadsBack` states
  the placement side only as a precondition on the grid's contents.
- Floating point: doubles are modelled as exact reals. Rounding is not
  modelled, and neither are NaN or infinities. A division by a zero cell size
  yields NaN in the source; the model requires a positive cell size instead.
- Math.PI: its value is left open. Only its positivity is used.
- Highlighting: the mutation of a letter's `color` happens in code that is not
  part of this model. Only the default colour is modelled.
- InputHandler.GetSnappedPoint: models only the E/W and N/S branches and
  requires a cardinal direction. The diagonal branch
  (src/app/game/services/input-handler.service.ts:80-92) projects with `cos`/`sin`
  of 45°, which IEEE doubles do not make equal.
- InputHandler.OnMove: requires a cardinal direction for the same reason, since
  it snaps through `GetSnappedPoint`. The de-duplication step it ends with,
  `Publish`, takes no direction and is stated for all eight.
- Board.GetWord: requires every cell it reads to lie in `letterVals`. Outside
  the grid, the source reads `undefined` or throws a TypeError.
- Board.UpdateSizes: requires each of the first `rows` rows of `letterVals` to
  hold at least `cols` texts. For a shorter row the source would create letters
  with an `undefined` text.
  It also builds `letters` afresh as `rows` rows of `cols` letters, where the
  source assigns `letters[i][j]` in place. On the boards the source constructs
  (`rows` empty rows, then this layout) the two agree. For other `letters` they
  do not. The TypeError the source throws when `letters` has fewer than `rows`
  rows is not modelled. Nor are rows or entries beyond `rows` x `cols`, which
  the source keeps and the model drops.
- Points.Slope: `None` stands for every result of a zero run. The source gives
  +Infinity, -Infinity or NaN there, depending on the sign of the rise. So the
  vertical case of `Points.SlopeSymmetric` holds in the model but not in the
  source: `slope((0,0),(0,1))` is +Infinity and the reverse is -Infinity.
