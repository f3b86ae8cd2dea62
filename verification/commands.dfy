/** Sequences of commands issued to a car, and the invariants every reachable
    car satisfies. */
module Commands {
  import opened Heading
  import CarModel

  /** The public operations of the `Car` class that change its state. */
  datatype Command = Forward | Back | Left | Right | Move

  /** Apply one command. */
  function Step(c: CarModel.Car, cmd: Command): (r: CarModel.Car)
    requires OnCompass(c.angle)
    ensures OnCompass(r.angle)
    ensures CarModel.SameDimensions(r, c)
  {
    match cmd
    case Forward => CarModel.Forward(c)
    case Back => CarModel.Back(c)
    case Left => CarModel.Left(c)
    case Right => CarModel.Right(c)
    case Move => CarModel.Move(c)
  }

  /** How many times `k` occurs in `cmds`. */
  function Count(cmds: seq<Command>, k: Command): (n: nat)
    ensures n <= |cmds|
    ensures n == 0 <==> k !in cmds
  {
    if cmds == [] then 0
    else (if cmds[0] == k then 1 else 0) + Count(cmds[1..], k)
  }

  /** Apply `cmds` in order, first to last. Speed is the net number of
      `forward`s, the angle moves by 45 degrees per net `left`, the
      dimensions never change, and only `move` touches the position. */
  function Run(c: CarModel.Car, cmds: seq<Command>): (r: CarModel.Car)
    requires OnCompass(c.angle)
    ensures OnCompass(r.angle)
    ensures CarModel.SameDimensions(r, c)
    ensures r.speed == c.speed + Count(cmds, Forward) - Count(cmds, Back)
    ensures r.angle == c.angle + 45 * (Count(cmds, Left) - Count(cmds, Right))
    ensures Count(cmds, Move) == 0 ==> r.x == c.x && r.y == c.y
    decreases |cmds|
  {
    if cmds == [] then c
    else Run(Step(c, cmds[0]), cmds[1..])
  }

  /** Running two sequences one after the other is running their
      concatenation. */
  lemma {:induction false} RunAppend(c: CarModel.Car, a: seq<Command>, b: seq<Command>)
    requires OnCompass(c.angle)
    ensures Run(c, a + b) == Run(Run(c, a), b)
    decreases |a|
  {
    if a == [] {
      assert a + b == b;
    } else {
      assert (a + b)[0] == a[0];
      assert (a + b)[1..] == a[1..] + b;
      RunAppend(Step(c, a[0]), a[1..], b);
    }
  }

  /** Every car reachable from construction keeps its dimensions, has an
      angle on the compass, and therefore always has a non-zero movement
      vector. */
  lemma Reachable(mapWidth: real, mapHeight: real, carWidth: real, carHeight: real, cmds: seq<Command>)
    ensures var r := Run(CarModel.NewCar(mapWidth, mapHeight, carWidth, carHeight), cmds);
      r.angle % 45 == 0 &&
      r.mapWidth == mapWidth && r.mapHeight == mapHeight &&
      r.carWidth == carWidth && r.carHeight == carHeight &&
      MovementXY(r.angle) != (0, 0)
  {
    var r := Run(CarModel.NewCar(mapWidth, mapHeight, carWidth, carHeight), cmds);
    MovementNeverStill(r.angle);
  }

  /** Appending `forward` then `back` (or `left` then `right`) to any run
      leaves the car as it was. */
  lemma InversePairs(c: CarModel.Car, cmds: seq<Command>)
    requires OnCompass(c.angle)
    ensures Run(c, cmds + [Forward, Back]) == Run(c, cmds)
    ensures Run(c, cmds + [Back, Forward]) == Run(c, cmds)
    ensures Run(c, cmds + [Left, Right]) == Run(c, cmds)
    ensures Run(c, cmds + [Right, Left]) == Run(c, cmds)
  {
    var r := Run(c, cmds);
    RunAppend(c, cmds, [Forward, Back]);
    RunAppend(c, cmds, [Back, Forward]);
    RunAppend(c, cmds, [Left, Right]);
    RunAppend(c, cmds, [Right, Left]);
    assert [Forward, Back][1..] == [Back];
    assert [Back, Forward][1..] == [Forward];
    assert [Left, Right][1..] == [Right];
    assert [Right, Left][1..] == [Left];
    CarModel.ForwardBackInverse(r);
    CarModel.LeftRightInverse(r);
  }
}
