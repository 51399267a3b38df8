/** Pointer acceleration: eleven piecewise-linear curves, one for each speed setting.

    All curves have their pieces over the same stretches of input speed, meet at the ends of them
    and get steeper from each to the next. */
module PointerCurves {
  import opened Options
  import opened RealArithmetic

  const MIN_SPEED := 1
  const MAX_SPEED := 11
  const DOUBLE_ZERO := 0.000001

  datatype AccelerateCurve = AccelerateCurve(slopes: seq<real>, diffNums: seq<real>)

  /** The upper ends of the three pieces, the same for every curve. */
  const SPEEDS := [8, 32, 128]

  const ACCELERATE_CURVES := [
    AccelerateCurve([0.16, 0.30, 0.56], [0.0, -1.12, -9.44]),
    AccelerateCurve([0.32, 0.60, 1.12], [0.0, -2.24, -18.88]),
    AccelerateCurve([0.48, 0.90, 1.68], [0.0, -3.36, -28.32]),
    AccelerateCurve([0.64, 1.20, 2.24], [0.0, -4.48, -37.76]),
    AccelerateCurve([0.80, 1.50, 2.80], [0.0, -5.60, -47.20]),
    AccelerateCurve([0.86, 1.95, 3.64], [0.0, -8.72, -62.80]),
    AccelerateCurve([0.92, 2.40, 4.48], [0.0, -11.84, -78.40]),
    AccelerateCurve([0.98, 2.85, 5.32], [0.0, -14.96, -94.00]),
    AccelerateCurve([1.04, 3.30, 6.16], [0.0, -18.08, -109.60]),
    AccelerateCurve([1.10, 3.75, 7.00], [0.0, -21.20, -125.20]),
    AccelerateCurve([1.16, 4.20, 7.84], [0.0, -24.32, -140.80])]

  /** The piece of the curve that `v` falls on. */
  function Piece(v: real): nat { if Abs(v) <= 8.0 then 0 else if Abs(v) <= 32.0 then 1 else 2 }

  /** The pieces meet at 8 and at 32, and each is steeper than the one before. */
  predicate WellShaped(c: AccelerateCurve) {
    && |c.slopes| == 3 && |c.diffNums| == 3
    && 0.0 < c.slopes[0] < c.slopes[1] < c.slopes[2]
    && c.diffNums[0] == 0.0
    && c.diffNums[1] == 8.0 * (c.slopes[0] - c.slopes[1])
    && c.diffNums[2] == c.diffNums[1] + 32.0 * (c.slopes[1] - c.slopes[2])
  }

  lemma AllWellShaped(k: int)
    requires 0 <= k < |ACCELERATE_CURVES|
    ensures WellShaped(ACCELERATE_CURVES[k])
  {
  }

  function Line(c: AccelerateCurve, i: nat, v: real): real
    requires WellShaped(c) && i < 3
  {
    c.slopes[i] * v + c.diffNums[i]
  }

  /** How far the pointer goes for an input speed. */
  function Displacement(c: AccelerateCurve, v: real): real
    requires WellShaped(c)
  {
    Line(c, Piece(v), v)
  }

  /** The curve of a speed setting. */
  function CurveOf(speed: int): (c: AccelerateCurve)
    requires MIN_SPEED <= speed <= MAX_SPEED
    ensures WellShaped(c)
  {
    AllWellShaped(speed - 1);
    ACCELERATE_CURVES[speed - 1]
  }

  /** The search for the piece; beyond the last one its line goes on. */
  method GainOn(curve: AccelerateCurve, vin: real) returns (gain: real)
    requires WellShaped(curve) && vin != 0.0
    ensures gain * vin == Displacement(curve, vin)
  {
    var num := Ceil(Abs(vin));
    for i := 0 to |SPEEDS|
      invariant i > 0 ==> Abs(vin) > 8.0
      invariant i > 1 ==> Abs(vin) > 32.0
    {
      CeilAtMost(Abs(vin), SPEEDS[i]);
      if num <= SPEEDS[i] {
        Quotient(Line(curve, i, vin), vin);
        return (curve.slopes[i] * vin + curve.diffNums[i]) / vin;
      }
    }
    Quotient(Line(curve, 2, vin), vin);
    return (curve.slopes[2] * vin + curve.diffNums[2]) / vin;
  }

  /** GetSpeedGain. */
  method GetSpeedGain(speed: int, vin: real) returns (gain: Option<real>)
    requires speed <= MAX_SPEED
    ensures gain.Some? <==> Abs(vin) >= DOUBLE_ZERO && speed >= MIN_SPEED
    ensures gain.Some? ==> gain.value * vin == Displacement(CurveOf(speed), vin)
  {
    if Abs(vin) < DOUBLE_ZERO || speed < 1 {
      return None;
    }
    var g := GainOn(CurveOf(speed), vin);
    return Some(g);
  }

  // ---------- displacement ----------

  /** `v` lies on piece `i`, both ends included. */
  predicate On(i: nat, v: real) { if i == 0 then 0.0 < v <= 8.0 else if i == 1 then 8.0 <= v <= 32.0 else 32.0 <= v }

  /** At a point where two pieces meet either line gives the displacement. */
  lemma OnLine(c: AccelerateCurve, i: nat, v: real)
    requires WellShaped(c) && i < 3 && On(i, v)
    ensures Displacement(c, v) == c.slopes[i] * v + c.diffNums[i] && c.diffNums[i] <= 0.0
  {
  }

  /** Along one piece the displacement grows at that piece's slope. */
  lemma AlongPiece(c: AccelerateCurve, i: nat, u: real, v: real)
    requires WellShaped(c) && i < 3 && On(i, u) && On(i, v) && u < v
    ensures 0.0 < Displacement(c, v) - Displacement(c, u) <= c.slopes[2] * v - c.slopes[2] * u
  {
    OnLine(c, i, u);
    OnLine(c, i, v);
    LineRise(c.slopes[i], c.slopes[2], c.diffNums[i], u, v, Displacement(c, u), Displacement(c, v));
  }

  lemma CurveIncreases(c: AccelerateCurve, u: real, v: real)
    requires WellShaped(c) && 0.0 < u < v
    ensures 0.0 < Displacement(c, v) - Displacement(c, u) <= c.slopes[2] * v - c.slopes[2] * u
    decreases if u < 8.0 then 1 else 0
  {
    if u < 8.0 < v {
      AlongPiece(c, 0, u, 8.0);
      CurveIncreases(c, 8.0, v);
    } else if u < 32.0 < v {
      AlongPiece(c, 1, u, 32.0);
      AlongPiece(c, 2, 32.0, v);
    } else {
      AlongPiece(c, if v <= 8.0 then 0 else if v <= 32.0 then 1 else 2, u, v);
    }
  }

  /** For every setting the displacement is strictly increasing in the input speed and never
      grows faster than the steepest slope, hence is continuous. */
  lemma DisplacementIncreases(speed: int, u: real, v: real)
    requires MIN_SPEED <= speed <= MAX_SPEED && 0.0 < u < v
    ensures var c := CurveOf(speed);
            0.0 < Displacement(c, v) - Displacement(c, u) <= c.slopes[2] * (v - u)
  {
    var c := CurveOf(speed);
    CurveIncreases(c, u, v);
    Distribute(c.slopes[2], v, u);
  }

  // ---------- gain ----------

  /** The gain, displacement per input speed. */
  function Gain(c: AccelerateCurve, v: real): real
    requires WellShaped(c) && v > 0.0
  {
    Displacement(c, v) / v
  }

  lemma GainOnPiece(c: AccelerateCurve, i: nat, u: real, v: real)
    requires WellShaped(c) && i < 3 && On(i, u) && On(i, v) && u <= v
    ensures Gain(c, u) <= Gain(c, v)
  {
    OnLine(c, i, u);
    OnLine(c, i, v);
    LineGain(c.slopes[i], c.diffNums[i], u, v, Displacement(c, u), Displacement(c, v));
  }

  lemma CurveGain(c: AccelerateCurve, u: real, v: real)
    requires WellShaped(c) && 0.0 < u <= v
    ensures Gain(c, u) <= Gain(c, v)
    decreases if u < 8.0 then 1 else 0
  {
    if u < 8.0 < v {
      GainOnPiece(c, 0, u, 8.0);
      CurveGain(c, 8.0, v);
    } else if u < 32.0 < v {
      GainOnPiece(c, 1, u, 32.0);
      GainOnPiece(c, 2, 32.0, v);
    } else {
      GainOnPiece(c, if v <= 8.0 then 0 else if v <= 32.0 then 1 else 2, u, v);
    }
  }

  /** On the first piece the gain is the slope. */
  lemma FirstGain(c: AccelerateCurve, u: real)
    requires WellShaped(c) && 0.0 < u <= 8.0
    ensures Gain(c, u) == c.slopes[0]
  {
    OnLine(c, 0, u);
    SlopeGain(Displacement(c, u), c.slopes[0], u);
  }

  /** For every setting the gain is positive and does not decrease with the input speed. */
  lemma GainNonDecreasing(speed: int, u: real, v: real)
    requires MIN_SPEED <= speed <= MAX_SPEED && 0.0 < u <= v
    ensures 0.0 < Gain(CurveOf(speed), u) <= Gain(CurveOf(speed), v)
  {
    var c := CurveOf(speed);
    var least := if u < 8.0 then u else 8.0;
    FirstGain(c, least);
    CurveGain(c, least, u);
    CurveGain(c, u, v);
  }

  /** Slopes grow from one curve to the other. */
  predicate Steeper(c: AccelerateCurve, d: AccelerateCurve)
    requires WellShaped(c) && WellShaped(d)
  {
    forall i | 0 <= i < 3 :: c.slopes[i] < d.slopes[i]
  }

  lemma {:induction false} SettingsSteeper(a: int, b: int)
    requires MIN_SPEED <= a < b <= MAX_SPEED
    ensures Steeper(CurveOf(a), CurveOf(b))
    decreases b - a
  {
    if a + 1 < b { SettingsSteeper(a + 1, b); }
  }

  /** The part of `v` between `from` and `to`. */
  function Between(v: real, from: real, to: real): (w: real)
    requires from <= to
    ensures w >= 0.0
  {
    if v <= from then 0.0 else if v <= to then v - from else to - from
  }

  /** The displacement as the sum of the stretches of speed, each at its own slope. */
  lemma BuiltUp(c: AccelerateCurve, v: real)
    requires WellShaped(c) && v > 0.0
    ensures Displacement(c, v) == c.slopes[0] * Between(v, 0.0, 8.0) + c.slopes[1] * Between(v, 8.0, 32.0)
                                  + c.slopes[2] * Between(v, 32.0, v + 32.0)
  {
    if v > 32.0 {
      Stretch(c.slopes[1], c.slopes[2], 32.0, v);
    } else if v > 8.0 {
      Stretch(c.slopes[0], c.slopes[1], 8.0, v);
    }
  }

  lemma SteeperGoesFurther(c: AccelerateCurve, d: AccelerateCurve, v: real)
    requires WellShaped(c) && WellShaped(d) && Steeper(c, d) && v > 0.0
    ensures Displacement(c, v) < Displacement(d, v)
  {
    BuiltUp(c, v);
    BuiltUp(d, v);
    var x, y, z := Between(v, 0.0, 8.0), Between(v, 8.0, 32.0), Between(v, 32.0, v + 32.0);
    WeightedSum(c.slopes[0], c.slopes[1], c.slopes[2], d.slopes[0], d.slopes[1], d.slopes[2], x, y, z);
  }

  /** A higher speed setting gives a larger gain at every input speed. */
  lemma GainGrowsWithSetting(a: int, b: int, v: real)
    requires MIN_SPEED <= a < b <= MAX_SPEED && v > 0.0
    ensures Gain(CurveOf(a), v) < Gain(CurveOf(b), v)
  {
    SettingsSteeper(a, b);
    SteeperGoesFurther(CurveOf(a), CurveOf(b), v);
    QuotientGrows(Displacement(CurveOf(a), v), Displacement(CurveOf(b), v), v);
  }

  /** What a setting adds to the slope: an even step up to the fifth, another from there on. */
  function Graded(speed: int, step: real, later: real): real {
    if speed <= 5 then step * speed as real else step * 5.0 + later * (speed - 5) as real
  }

  lemma SlopesByNumber(speed: int)
    requires MIN_SPEED <= speed <= MAX_SPEED
    ensures CurveOf(speed).slopes == [Graded(speed, 0.16, 0.06), Graded(speed, 0.30, 0.45), Graded(speed, 0.56, 0.84)]
  {
  }

  /** Every setting in numbers: how far the pointer goes for the speed up to 8, for that between
      8 and 32, and for that beyond. */
  lemma DisplacementByNumber(speed: int, v: real)
    requires MIN_SPEED <= speed <= MAX_SPEED && v > 0.0
    ensures var low, middle, high := Graded(speed, 0.16, 0.06), Graded(speed, 0.30, 0.45), Graded(speed, 0.56, 0.84);
            Displacement(CurveOf(speed), v) ==
            if v <= 8.0 then low * v
            else if v <= 32.0 then low * 8.0 + middle * (v - 8.0)
            else low * 8.0 + middle * 24.0 + high * (v - 32.0)
  {
    SlopesByNumber(speed);
    BuiltUp(CurveOf(speed), v);
  }

  // ---------- the pointer ----------

  function Clamped(x: real, limit: real): (r: real)
    requires limit >= 0.0
    ensures 0.0 <= r <= limit && (0.0 <= x <= limit ==> r == x)
  {
    if x < 0.0 then 0.0 else if x > limit then limit else x
  }

  class Mouse {
    var speed: int
    var absolutionX: real
    var absolutionY: real
    const screenWidth: nat
    const screenHeight: nat

    predicate Valid()
      reads this
    {
      MIN_SPEED <= speed <= MAX_SPEED
    }

    constructor (width: nat, height: nat, defaultSpeed: int)
      requires MIN_SPEED <= defaultSpeed <= MAX_SPEED
      ensures Valid()
    {
      speed := defaultSpeed;
      absolutionX, absolutionY := -1.0, -1.0;
      screenWidth, screenHeight := width, height;
    }

    /** SetPointerSpeed: whatever is asked for, the curve index stays in range. */
    method SetPointerSpeed(wanted: int)
      modifies this`speed
      ensures Valid()
      ensures MIN_SPEED <= wanted <= MAX_SPEED ==> speed == wanted
      ensures wanted < MIN_SPEED ==> speed == MIN_SPEED
      ensures wanted > MAX_SPEED ==> speed == MAX_SPEED
    {
      if wanted < MIN_SPEED {
        speed := MIN_SPEED;
      } else if wanted > MAX_SPEED {
        speed := MAX_SPEED;
      } else {
        speed := wanted;
      }
    }

    /** HandleMotionAccelerate: both coordinates move by the gain for the mean of the two
        distances and are kept on the screen. */
    method HandleMotionAccelerate(dx: real, dy: real) returns (gain: Option<real>)
      requires Valid()
      modifies this`absolutionX, this`absolutionY
      ensures gain.Some? <==> Mean(dx, dy) >= DOUBLE_ZERO
      ensures gain.None? ==> absolutionX == old(absolutionX) && absolutionY == old(absolutionY)
      ensures gain.Some? ==>
                && gain.value * Mean(dx, dy) == Displacement(CurveOf(speed), Mean(dx, dy))
                && absolutionX == Clamped(old(absolutionX) + dx * gain.value, screenWidth as real)
                && absolutionY == Clamped(old(absolutionY) + dy * gain.value, screenHeight as real)
    {
      gain := GetSpeedGain(speed, Mean(dx, dy));
      if gain.Some? {
        absolutionX := Clamped(absolutionX + dx * gain.value, screenWidth as real);
        absolutionY := Clamped(absolutionY + dy * gain.value, screenHeight as real);
      }
    }
  }

  function Mean(dx: real, dy: real): (v: real)
    ensures v >= 0.0 && 2.0 * v == Abs(dx) + Abs(dy)
  {
    (Abs(dx) + Abs(dy)) / 2.0
  }
}
