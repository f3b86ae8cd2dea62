/** The deadband quantiser that turns a trigonometric component into a
    movement step (the car's `clampMovement`). */
module Quantiser {

  /** One component of a movement vector: the `MovementDelta` union `-1 | 0 | 1` of `car.ts`. */
  type Delta = d: int | -1 <= d <= 1

  /** The strict deadband threshold: exactly +-0.5 still quantises to 0. */
  const Threshold: real := 0.5

  function Abs(v: real): (a: real)
    ensures a >= 0.0
    ensures a == v || a == -v
  {
    if v < 0.0 then -v else v
  }

  /** Quantise `value` to -1, 0 or 1; the comparisons are strict. */
  function Clamp(value: real): (d: Delta)
    ensures d == -1 <==> value < -Threshold
    ensures d == 1 <==> value > Threshold
    ensures d == 0 <==> -Threshold <= value <= Threshold
  {
    if value < -Threshold then -1
    else if value > Threshold then 1
    else 0
  }

  /** Both thresholds themselves fall inside the deadband. */
  lemma ClampAtThresholds()
    ensures Clamp(Threshold) == 0 && Clamp(-Threshold) == 0
  {
  }

  /** A larger input never quantises to a smaller step. */
  lemma ClampMonotone(v: real, w: real)
    requires v <= w
    ensures Clamp(v) <= Clamp(w)
  {
  }

  /** The quantiser is symmetric about zero. */
  lemma ClampOdd(v: real)
    ensures Clamp(-v) == -Clamp(v)
  {
  }

  /** How far `w` lies from the nearer of the two thresholds. */
  function Clearance(w: real): (m: real)
    ensures m >= 0.0
    ensures m <= Abs(w - Threshold) && m <= Abs(w + Threshold)
    ensures m == Abs(w - Threshold) || m == Abs(w + Threshold)
  {
    var a := Abs(w - Threshold);
    var b := Abs(w + Threshold);
    if a <= b then a else b
  }

  /** Any perturbation of `w` smaller than its clearance from the thresholds
      quantises to the same step as `w`. This is what makes a rounded
      trigonometric value as good as the exact one. */
  lemma ClampStable(v: real, w: real)
    requires Abs(v - w) < Clearance(w)
    ensures Clamp(v) == Clamp(w)
  {
  }
}
