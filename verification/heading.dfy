/** Headings and the movement vector derived from them (the car's
    `calcMovementXY`).

    `calcMovementXY` converts the angle in degrees to radians and quantises
    `Math.cos` and `Math.sin` of it. Every angle the car can reach is a
    multiple of 45 degrees, so the trigonometry is modelled as a table over
    the eight compass octants, indexed by the angle modulo 360. */
module Heading {
  import opened Quantiser

  /** The eight headings, counter-clockwise from East (0 degrees). */
  datatype Octant = East | NorthEast | North | NorthWest | West | SouthWest | South | SouthEast

  /** The angles the car can hold: multiples of the 45-degree rotation step. */
  predicate OnCompass(angle: int) {
    angle % 45 == 0
  }

  /** The angle in [0, 360) that names each octant. */
  function Degrees(o: Octant): (d: int)
    ensures 0 <= d < 360 && OnCompass(d)
  {
    match o
    case East => 0
    case NorthEast => 45
    case North => 90
    case NorthWest => 135
    case West => 180
    case SouthWest => 225
    case South => 270
    case SouthEast => 315
  }

  /** A multiple of 45 stays a multiple of 45 modulo 360, because 360 is. */
  lemma {:induction false} ResidueOnCompass(angle: int)
    requires OnCompass(angle)
    ensures OnCompass(angle % 360)
    ensures (angle % 360) / 45 < 8
  {
    var q := angle / 360;
    var r := angle % 360;
    assert angle == 360 * q + r;
    assert r == angle - 45 * (8 * q);
    var k := angle / 45;
    assert angle == 45 * k;
    assert r == 45 * (k - 8 * q);
  }

  /** The octant of an on-compass angle; the angle is read modulo 360
      (Euclidean, so negative angles land in [0, 360) as cos/sin do). */
  function OctantOf(angle: int): (o: Octant)
    requires OnCompass(angle)
    ensures Degrees(o) == angle % 360
  {
    ResidueOnCompass(angle);
    var a := angle % 360;
    if a == 0 then East
    else if a == 45 then NorthEast
    else if a == 90 then North
    else if a == 135 then NorthWest
    else if a == 180 then West
    else if a == 225 then SouthWest
    else if a == 270 then South
    else SouthEast
  }

  /** Naming an octant by its degrees and reading it back is the identity. */
  lemma OctantOfDegrees(o: Octant)
    ensures OctantOf(Degrees(o)) == o
  {
  }

  /** The octant depends only on the angle modulo a full turn. */
  lemma {:induction false} OctantPeriodic(angle: int, turns: int)
    requires OnCompass(angle)
    ensures OnCompass(angle + 360 * turns)
    ensures OctantOf(angle + 360 * turns) == OctantOf(angle)
  {
    assert (angle + 360 * turns) % 360 == angle % 360;
    var o := OctantOf(angle);
    var p := OctantOf(angle + 360 * turns);
    assert Degrees(p) == Degrees(o);
    OctantOfDegrees(o);
    OctantOfDegrees(p);
  }

  /** sqrt(2)/2 rounded to 16 decimal places: the magnitude of the exact cos
      and sin of a diagonal heading. */
  const Diag: real := 0.7071067811865476

  /** The exact cosine of the octant's angle (diagonals rounded to `Diag`);
      it stands in for `Math.cos`, whose double result may differ slightly. */
  function Cos(o: Octant): (c: real)
    ensures -1.0 <= c <= 1.0
    ensures c == 0.0 <==> o == North || o == South
  {
    match o
    case East => 1.0
    case NorthEast => Diag
    case North => 0.0
    case NorthWest => -Diag
    case West => -1.0
    case SouthWest => -Diag
    case South => 0.0
    case SouthEast => Diag
  }

  /** The exact sine of the octant's angle (diagonals rounded to `Diag`);
      it stands in for `Math.sin`, whose double result may differ slightly. */
  function Sin(o: Octant): (s: real)
    ensures -1.0 <= s <= 1.0
    ensures s == 0.0 <==> o == East || o == West
  {
    match o
    case East => 0.0
    case NorthEast => Diag
    case North => 1.0
    case NorthWest => Diag
    case West => 0.0
    case SouthWest => -Diag
    case South => -1.0
    case SouthEast => -Diag
  }

  /** The table's cosine and sine lie on the unit circle, up to the rounding
      of `Diag`. */
  lemma TrigTableOnUnitCircle(o: Octant)
    ensures Abs(Cos(o) * Cos(o) + Sin(o) * Sin(o) - 1.0) < 0.000000000000001
  {
  }

  /** Every table entry is at least 0.2 away from both thresholds, so any
      value within 0.2 of an entry quantises exactly as the entry does. A
      double-precision cos or sin of a multiple of 45 degrees is far closer
      to the exact value than that, except for the huge unwrapped angles
      that are not modelled. */
  lemma TrigTableSafe(o: Octant, cosine: real, sine: real)
    requires Abs(cosine - Cos(o)) < 0.2 && Abs(sine - Sin(o)) < 0.2
    ensures Clamp(cosine) == Clamp(Cos(o)) && Clamp(sine) == Clamp(Sin(o))
  {
    assert Clearance(Cos(o)) >= 0.2 && Clearance(Sin(o)) >= 0.2;
    ClampStable(cosine, Cos(o));
    ClampStable(sine, Sin(o));
  }

  /** The exact, irrational cosine of 45 degrees quantises to 1 as well. This
      also follows from `TrigTableSafe`, since sqrt(1/2) is within 0.2 of
      `Diag`; this lemma shows it directly from the defining equation. */
  lemma HalfRootTwoQuantises(h: real)
    requires h > 0.0 && h * h == 0.5
    ensures Clamp(h) == 1 && Clamp(-h) == -1
  {
    if h <= 0.5 {
      SmallSquare(h);
      assert false;
    }
  }

  lemma SmallSquare(h: real)
    requires 0.0 < h <= 0.5
    ensures h * h <= 0.25
  {
    var d := 0.5 - h;
    assert d * h >= 0.0;
    assert h * h == 0.5 * h - d * h;
  }

  /** The unit step of each compass direction (x east, y north). */
  function Compass(o: Octant): (int, int) {
    match o
    case East => (1, 0)
    case NorthEast => (1, 1)
    case North => (0, 1)
    case NorthWest => (-1, 1)
    case West => (-1, 0)
    case SouthWest => (-1, -1)
    case South => (0, -1)
    case SouthEast => (1, -1)
  }

  /** The movement vector for `angle`: the quantised (cos, sin) pair, with
      the y component pointing up. */
  function MovementXY(angle: int): (v: (Delta, Delta))
    requires OnCompass(angle)
    ensures v == Compass(OctantOf(angle))
  {
    var o := OctantOf(angle);
    (Clamp(Cos(o)), Clamp(Sin(o)))
  }

  /** The car is never left without a direction: at least one component is
      non-zero, and both are exactly on the diagonals. */
  lemma MovementNeverStill(angle: int)
    requires OnCompass(angle)
    ensures MovementXY(angle) != (0, 0)
    ensures (MovementXY(angle).0 != 0 && MovementXY(angle).1 != 0) <==> angle % 90 == 45
  {
    QuarterResidue(angle);
  }

  /** Reading an angle modulo 90 agrees with reading its octant's degrees
      modulo 90, because a full turn is four quarter turns. */
  lemma {:induction false} QuarterResidue(angle: int)
    requires OnCompass(angle)
    ensures angle % 90 == Degrees(OctantOf(angle)) % 90
  {
    var q := angle / 360;
    var r := angle % 360;
    assert angle == 90 * (4 * q) + r;
    assert angle % 90 == r % 90;
  }

  /** The movement vector depends only on the angle modulo 360. */
  lemma MovementPeriodic(angle: int, turns: int)
    requires OnCompass(angle)
    ensures OnCompass(angle + 360 * turns)
    ensures MovementXY(angle + 360 * turns) == MovementXY(angle)
  {
    OctantPeriodic(angle, turns);
  }

  function Sign(n: int): (s: Delta)
    ensures s < 0 <==> n < 0
    ensures s > 0 <==> n > 0
  {
    if n < 0 then -1 else if n > 0 then 1 else 0
  }

  /** A compass step rotated a further 45 degrees counter-clockwise. */
  function RotateLeft(v: (int, int)): (int, int) {
    (Sign(v.0 - v.1), Sign(v.0 + v.1))
  }

  /** A compass step rotated 45 degrees clockwise. */
  function RotateRight(v: (int, int)): (int, int) {
    (Sign(v.0 + v.1), Sign(v.1 - v.0))
  }

  /** Adding 45 degrees turns the movement vector one octant counter-clockwise,
      and subtracting 45 turns it one octant clockwise. */
  lemma {:induction false} MovementRotates(angle: int)
    requires OnCompass(angle)
    ensures OnCompass(angle + 45) && OnCompass(angle - 45)
    ensures MovementXY(angle + 45) == RotateLeft(MovementXY(angle))
    ensures MovementXY(angle - 45) == RotateRight(MovementXY(angle))
  {
    var o := OctantOf(angle);
    var l := OctantOf(angle + 45);
    var r := OctantOf(angle - 45);
    assert Degrees(l) == (Degrees(o) + 45) % 360;
    assert Degrees(r) == (Degrees(o) + 315) % 360;
    OctantOfDegrees(l);
    OctantOfDegrees(r);
  }
}
