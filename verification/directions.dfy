/**
 * The eight compass directions of the word grid and the snapping of a
 * continuous bearing onto them (`Direction.calcSnappedAngle`).
 *
 *          N (270)
 *   W (180)       E (0)
 *          S (90)
 *
 * Degrees grow clockwise because the screen's y axis points down.
 */
module Directions {
  import opened Wrappers
  import Angles

  datatype Dir = E | SE | S | SW | W | NW | N | NE

  /** The numeric constant the source uses for each direction. */
  function Degrees(d: Dir): (deg: int)
    ensures 0 <= deg < 360 && deg % 45 == 0
  {
    match d
    case E => 0
    case SE => 45
    case S => 90
    case SW => 135
    case W => 180
    case NW => 225
    case N => 270
    case NE => 315
  }

  predicate IsCardinal(d: Dir)
  {
    d == E || d == S || d == W || d == N
  }

  /** Half a bucket: `45 / 2`. */
  const Half: real := 22.5

  /** The error `calcSnappedAngle` throws when no bucket matches. */
  datatype SnapError = InvalidAngle

  /**
   * `calcSnappedAngle` on the degree view of an angle. Each bucket is closed
   * on both ends and the buckets are tried in the order E, N, W, S, NE, NW,
   * SW, SE, so a bearing on a boundary goes to the cardinal direction.
   */
  function SnapDegrees(deg: real): Result<Dir, SnapError>
  {
    var ne := Degrees(NE) as real;
    var nw := Degrees(NW) as real;
    var sw := Degrees(SW) as real;
    var se := Degrees(SE) as real;
    if deg >= ne + Half || deg <= se - Half then Success(E)
    else if deg >= nw + Half && deg <= ne - Half then Success(N)
    else if deg >= sw + Half && deg <= nw - Half then Success(W)
    else if deg >= se + Half && deg <= sw - Half then Success(S)
    else if deg >= ne - Half && deg <= ne + Half then Success(NE)
    else if deg >= nw - Half && deg <= nw + Half then Success(NW)
    else if deg >= sw - Half && deg <= sw + Half then Success(SW)
    else if deg >= se - Half && deg <= se + Half then Success(SE)
    else Failure(InvalidAngle)
  }

  /**
   * `Direction.calcSnappedAngle(angle)`: it never throws, and on a bearing in
   * [0, 360) it picks a direction at most half a bucket away, a cardinal one
   * when exactly half a bucket away.
   */
  function CalcSnappedAngle(a: Angles.Angle): (r: Result<Dir, SnapError>)
    ensures r.Success?
    ensures var deg := Angles.DegreeAngle(a);
      0.0 <= deg < 360.0 ==>
        CircularDistance(deg, r.value) < Half || (CircularDistance(deg, r.value) == Half && IsCardinal(r.value))
  {
    var deg := Angles.DegreeAngle(a);
    SnapIsTotal(deg);
    if 0.0 <= deg < 360.0 then
      SnapIsNearestDirection(deg, SnapDegrees(deg).value);
      SnapDegrees(deg)
    else
      SnapDegrees(deg)
  }

  /** The `directions` list: every direction except N. */
  function DirectionList(): (r: seq<Dir>)
    ensures |r| == 7
    ensures forall d: Dir :: d in r <==> d != N
  {
    var r := [E, W, S, NE, NW, SW, SE];
    assert forall d: Dir :: d in r <==> d != N by {
      forall d: Dir ensures d in r <==> d != N {
        ListedUnlessNorth(d);
      }
    }
    r
  }

  /** Each direction but N is one of the seven the `directions` list names. */
  lemma ListedUnlessNorth(d: Dir)
    ensures d in [E, W, S, NE, NW, SW, SE] <==> d != N
  {
    match d
    case E => assert [E, W, S, NE, NW, SW, SE][0] == d;
    case W => assert [E, W, S, NE, NW, SW, SE][1] == d;
    case S => assert [E, W, S, NE, NW, SW, SE][2] == d;
    case NE => assert [E, W, S, NE, NW, SW, SE][3] == d;
    case NW => assert [E, W, S, NE, NW, SW, SE][4] == d;
    case SW => assert [E, W, S, NE, NW, SW, SE][5] == d;
    case SE => assert [E, W, S, NE, NW, SW, SE][6] == d;
    case N =>
  }

  /**
   * Angular distance between a bearing in [0, 360) and a direction, going
   * round the circle whichever way is shorter.
   */
  function CircularDistance(deg: real, d: Dir): (dist: real)
    requires 0.0 <= deg < 360.0
    ensures 0.0 <= dist <= 180.0
  {
    var diff := if deg >= Degrees(d) as real then deg - Degrees(d) as real else Degrees(d) as real - deg;
    if diff <= 180.0 then diff else 360.0 - diff
  }

  /** Every real bearing falls in some bucket: the `throw` is unreachable. */
  lemma SnapIsTotal(deg: real)
    ensures SnapDegrees(deg).Success?
  {
  }

  /** The snapped result of every angle is one of the eight constants. */
  lemma CalcSnappedAngleIsTotal(a: Angles.Angle)
    ensures CalcSnappedAngle(a).Success?
    ensures Degrees(CalcSnappedAngle(a).value) in {0, 45, 90, 135, 180, 225, 270, 315}
  {
    SnapIsTotal(Angles.DegreeAngle(a));
  }

  /**
   * The east test also catches every negative bearing and every bearing of
   * 337.5 or more, including those of 360 and beyond.
   */
  lemma SnapEastCatchesOutOfRange(deg: real)
    requires deg >= 337.5 || deg <= 22.5
    ensures SnapDegrees(deg) == Success(E)
  {
  }

  /** Snapping is not periodic outside [0, 360): 45 snaps to SE but 405 to E. */
  lemma SnapNotPeriodic()
    ensures SnapDegrees(45.0) == Success(SE)
    ensures SnapDegrees(45.0 + 360.0) == Success(E)
  {
  }

  /** On each of the eight bucket boundaries the earlier-tested cardinal direction wins. */
  lemma SnapBoundaries()
    ensures SnapDegrees(22.5) == Success(E)
    ensures SnapDegrees(67.5) == Success(S)
    ensures SnapDegrees(112.5) == Success(S)
    ensures SnapDegrees(157.5) == Success(W)
    ensures SnapDegrees(202.5) == Success(W)
    ensures SnapDegrees(247.5) == Success(N)
    ensures SnapDegrees(292.5) == Success(N)
    ensures SnapDegrees(337.5) == Success(E)
  {
  }

  /** Everything strictly between 22.5 and 67.5 snaps to SE. */
  lemma SnapSoutheast(deg: real)
    requires 22.5 < deg < 67.5
    ensures SnapDegrees(deg) == Success(SE)
  {
  }

  /** A direction's own constant, fed back in as a bearing, snaps to that direction. */
  lemma SnapFixesConstants(d: Dir)
    ensures SnapDegrees(Degrees(d) as real) == Success(d)
  {
  }

  /**
   * Reference characterisation of snapping on [0, 360): the result is the
   * direction within less than half a bucket of the bearing, or, on a
   * boundary between two buckets, the cardinal one of the two.
   */
  lemma SnapIsNearestDirection(deg: real, d: Dir)
    requires 0.0 <= deg < 360.0
    ensures SnapDegrees(deg) == Success(d) <==>
      CircularDistance(deg, d) < Half || (CircularDistance(deg, d) == Half && IsCardinal(d))
  {
  }

  /** The `directions` list has seven distinct members and holds every direction but N. */
  lemma DirectionListContents()
    ensures |DirectionList()| == 7
    ensures forall i, j :: 0 <= i < j < |DirectionList()| ==> DirectionList()[i] != DirectionList()[j]
    ensures forall d: Dir :: d in DirectionList() <==> d != N
  {
  }

  /** Different directions have different constants. */
  lemma DegreesInjective(d1: Dir, d2: Dir)
    ensures Degrees(d1) == Degrees(d2) <==> d1 == d2
  {
  }
}
