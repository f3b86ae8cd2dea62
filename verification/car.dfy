/** The car: an immutable record of its eight fields and one pure transition
    function per command of the `Car` class. */
module CarModel {
  import opened Quantiser
  import opened Heading

  /** Map and body dimensions, speed, heading in degrees and position. The
      angle is never wrapped; y grows downward on the screen. */
  datatype Car = Car(
    mapWidth: real, mapHeight: real,
    carWidth: real, carHeight: real,
    speed: int, angle: int,
    x: real, y: real)

  /** Speed change of one `forward` or `back`. */
  const Acceleration: int := 1

  /** Heading change, in degrees, of one `left` or `right`. */
  const Rotation: int := 45

  /** The dimensions are fixed at construction. */
  predicate SameDimensions(a: Car, b: Car) {
    a.mapWidth == b.mapWidth && a.mapHeight == b.mapHeight &&
    a.carWidth == b.carWidth && a.carHeight == b.carHeight
  }

  /** A fresh car: at rest, facing up, offset from the map's centre by half
      its body. */
  function NewCar(mapWidth: real, mapHeight: real, carWidth: real, carHeight: real): (c: Car)
    ensures c.mapWidth == mapWidth && c.mapHeight == mapHeight
    ensures c.carWidth == carWidth && c.carHeight == carHeight
    ensures c.speed == 0 && c.angle == 90 && OnCompass(c.angle)
    ensures c.x == mapWidth / 2.0 - carWidth / 2.0
    ensures c.y == mapHeight / 2.0 - carHeight / 2.0
  {
    Car(mapWidth, mapHeight, carWidth, carHeight, 0, 90,
        mapWidth / 2.0 - carWidth / 2.0, mapHeight / 2.0 - carHeight / 2.0)
  }

  /** A body whose top-left corner is the fresh car's position leaves equal
      margins on both sides of each axis, and a fresh car heads North. */
  lemma NewCarCentred(mapWidth: real, mapHeight: real, carWidth: real, carHeight: real)
    ensures var c := NewCar(mapWidth, mapHeight, carWidth, carHeight);
      c.x == mapWidth - (c.x + carWidth) &&
      c.y == mapHeight - (c.y + carHeight) &&
      OctantOf(c.angle) == North
  {
  }

  function Forward(c: Car): (r: Car)
    ensures r.speed == c.speed + Acceleration
    ensures r.(speed := c.speed) == c
  {
    c.(speed := c.speed + Acceleration)
  }

  function Back(c: Car): (r: Car)
    ensures r.speed == c.speed - Acceleration
    ensures r.(speed := c.speed) == c
  {
    c.(speed := c.speed - Acceleration)
  }

  /** Counter-clockwise by 45 degrees, without wrapping. */
  function Left(c: Car): (r: Car)
    ensures r.angle == c.angle + Rotation
    ensures r.(angle := c.angle) == c
    ensures OnCompass(r.angle) <==> OnCompass(c.angle)
  {
    c.(angle := c.angle + Rotation)
  }

  /** Clockwise by 45 degrees, without wrapping. */
  function Right(c: Car): (r: Car)
    ensures r.angle == c.angle - Rotation
    ensures r.(angle := c.angle) == c
    ensures OnCompass(r.angle) <==> OnCompass(c.angle)
  {
    c.(angle := c.angle - Rotation)
  }

  /** `forward` and `back` undo each other, in either order. */
  lemma ForwardBackInverse(c: Car)
    ensures Back(Forward(c)) == c
    ensures Forward(Back(c)) == c
  {
  }

  /** `left` and `right` undo each other, in either order. */
  lemma LeftRightInverse(c: Car)
    ensures Right(Left(c)) == c
    ensures Left(Right(c)) == c
  {
  }

  /** One tick: translate by speed times the movement vector; the screen y
      axis points down, so the vector's y component is subtracted. */
  function Move(c: Car): (r: Car)
    requires OnCompass(c.angle)
    ensures r.x == c.x + (c.speed * Compass(OctantOf(c.angle)).0) as real
    ensures r.y == c.y - (c.speed * Compass(OctantOf(c.angle)).1) as real
    ensures r.(x := c.x, y := c.y) == c
  {
    var (dx, dy) := MovementXY(c.angle);
    c.(x := c.x + (c.speed * dx) as real, y := c.y - (c.speed * dy) as real)
  }

  /** A car at rest does not move. */
  lemma MoveAtRest(c: Car)
    requires OnCompass(c.angle) && c.speed == 0
    ensures Move(c) == c
  {
  }

  /** Heading up (90 degrees modulo 360) with positive speed keeps x and
      strictly decreases y, which is screen-up. */
  lemma MoveUp(c: Car)
    requires OnCompass(c.angle) && c.angle % 360 == 90 && c.speed > 0
    ensures Move(c).x == c.x
    ensures Move(c).y < c.y
  {
    assert OctantOf(c.angle) == North;
  }

  /** On a diagonal heading each axis moves by the full speed: the step is
      not normalised by sqrt(2). */
  lemma MoveDiagonal(c: Car)
    requires OnCompass(c.angle) && c.angle % 90 == 45
    ensures Abs(Move(c).x - c.x) == Abs(c.speed as real)
    ensures Abs(Move(c).y - c.y) == Abs(c.speed as real)
  {
    MovementNeverStill(c.angle);
  }

  /** Eight `left` commands complete a full turn: the angle grows by 360 but
      the next tick moves the car exactly as it would have without them. */
  lemma FullTurnMovesAlike(c: Car)
    requires OnCompass(c.angle)
    ensures var t := Left(Left(Left(Left(Left(Left(Left(Left(c))))))));
      t.angle == c.angle + 360 && OnCompass(t.angle) &&
      Move(t) == Move(c).(angle := c.angle + 360)
  {
    MovementPeriodic(c.angle, 1);
  }
}
