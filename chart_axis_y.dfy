/** The Y axis mapping between model values and screen locations.

    Screen y grows downward while model values grow upward, so the map is
    inverted: a scalar is placed at `firstScreen` minus its offset along the
    axis. The offset itself (`innerScreenLocForScalar`) belongs to the base
    axis, which is not part of this model; it is taken to be the linear map
    `(s - first) * length / modelLength`.

    Swift divides doubles without trapping: a zero divisor gives an infinity
    or NaN. Every division here returns `None` in that case ("not a finite
    number") and `Some` otherwise. */
module ChartAxisY {
  import opened ChartTypes

  /** The declared model range `first..last` and the current screen range
      `firstScreen..lastScreen`. */
  datatype AxisY = AxisY(first: real, last: real, firstScreen: real, lastScreen: real)

  /** Screen length of the axis; positive exactly when the start of the axis
      lies below its end on screen. */
  function Length(a: AxisY): (r: real)
    ensures r > 0.0 <==> a.firstScreen > a.lastScreen
    ensures a.lastScreen + r == a.firstScreen
  {
    a.firstScreen - a.lastScreen
  }

  /** Length of the declared model range. */
  function ModelLength(a: AxisY): (r: real)
    ensures a.first + r == a.last
  {
    a.last - a.first
  }

  /** `x * num / den`, evaluated left to right as the source writes it. */
  function Scale(x: real, num: real, den: real): real
    requires den != 0.0
  {
    x * num / den
  }

  /** The base axis's offset of `s` along the axis (assumed linear). */
  function InnerScreenLocForScalar(a: AxisY, s: real): (r: Option<real>)
    ensures r.Some? <==> ModelLength(a) != 0.0
  {
    if ModelLength(a) == 0.0 then None
    else Some(Scale(s - a.first, Length(a), ModelLength(a)))
  }

  /** Screen location of a model scalar: the inner offset measured upward
      from `firstScreen`. */
  function ScreenLocForScalar(a: AxisY, s: real): (r: Option<real>)
    ensures r.Some? <==> ModelLength(a) != 0.0
  {
    match InnerScreenLocForScalar(a, s)
    case None => None
    case Some(inner) => Some(a.firstScreen - inner)
  }

  /** Model scalar at a screen location. */
  function ScalarForScreenLoc(a: AxisY, loc: real): (r: Option<real>)
    ensures r.Some? <==> Length(a) != 0.0
  {
    if Length(a) == 0.0 then None
    else Some(Scale(-(loc - a.firstScreen), ModelLength(a), Length(a)) + a.first)
  }

  /** Zero scales to zero. */
  lemma ScaleZero(y: real, z: real)
    requires z != 0.0
    ensures Scale(0.0, y, z) == 0.0
  {
  }

  /** Scaling distributes over a difference. */
  lemma ScaleDifference(x: real, d: real, y: real, z: real)
    requires z != 0.0
    ensures Scale(x - d, y, z) == Scale(x, y, z) - d * y / z
  {
    assert (x - d) * y == x * y - d * y;
  }

  /** Scaling by `y / z` and then by `z / y` is the identity. */
  lemma ScaleCancel(x: real, y: real, z: real)
    requires y != 0.0 && z != 0.0
    ensures Scale(Scale(x, y, z), z, y) == x
  {
    assert x * y / z * z == x * y;
  }

  /** A positive scale factor preserves strict order. */
  lemma ScaleMonotonic(x1: real, x2: real, y: real, z: real)
    requires y > 0.0 && z > 0.0 && x1 < x2
    ensures Scale(x1, y, z) < Scale(x2, y, z)
  {
    assert x1 * y < x2 * y;
  }

  /** The start of the screen range maps back to the start of the model range. */
  lemma ScalarAtFirstScreen(a: AxisY)
    requires Length(a) != 0.0
    ensures ScalarForScreenLoc(a, a.firstScreen) == Some(a.first)
  {
    assert -(a.firstScreen - a.firstScreen) == 0.0;
    ScaleZero(ModelLength(a), Length(a));
  }

  /** The start of the model range maps to the start of the screen range. */
  lemma ScreenLocAtFirst(a: AxisY)
    requires ModelLength(a) != 0.0
    ensures ScreenLocForScalar(a, a.first) == Some(a.firstScreen)
  {
    assert a.first - a.first == 0.0;
    ScaleZero(Length(a), ModelLength(a));
  }

  /** The inverse map is affine and inverted: moving `d` down the screen
      changes the scalar by `-d * modelLength / length`. */
  lemma ScalarShift(a: AxisY, loc: real, d: real)
    requires Length(a) != 0.0
    ensures ScalarForScreenLoc(a, loc + d).Some? && ScalarForScreenLoc(a, loc).Some?
    ensures ScalarForScreenLoc(a, loc + d).value
            == ScalarForScreenLoc(a, loc).value - d * ModelLength(a) / Length(a)
  {
    var up := -(loc - a.firstScreen);
    assert -(loc + d - a.firstScreen) == up - d;
    ScaleDifference(up, d, ModelLength(a), Length(a));
  }

  /** Screen location then scalar gives back the scalar. */
  lemma RoundTripScalar(a: AxisY, s: real)
    requires Length(a) != 0.0 && ModelLength(a) != 0.0
    ensures ScreenLocForScalar(a, s).Some?
    ensures ScalarForScreenLoc(a, ScreenLocForScalar(a, s).value) == Some(s)
  {
    var l, m := Length(a), ModelLength(a);
    var inner := Scale(s - a.first, l, m);
    var loc := a.firstScreen - inner;
    assert ScreenLocForScalar(a, s).value == loc;
    assert -(loc - a.firstScreen) == inner;
    ScaleCancel(s - a.first, l, m);
    assert ScalarForScreenLoc(a, loc).value == s;
  }

  /** Scalar then screen location gives back the screen location. */
  lemma RoundTripScreenLoc(a: AxisY, loc: real)
    requires Length(a) != 0.0 && ModelLength(a) != 0.0
    ensures ScalarForScreenLoc(a, loc).Some?
    ensures ScreenLocForScalar(a, ScalarForScreenLoc(a, loc).value) == Some(loc)
  {
    var l, m := Length(a), ModelLength(a);
    var up := -(loc - a.firstScreen);
    var s := Scale(up, m, l) + a.first;
    assert ScalarForScreenLoc(a, loc).value == s;
    assert s - a.first == Scale(up, m, l);
    ScaleCancel(up, m, l);
    assert InnerScreenLocForScalar(a, s).value == up;
    assert ScreenLocForScalar(a, s).value == loc;
  }

  /** With both ranges oriented positively, a larger scalar lies higher on
      screen, that is at a smaller screen location. */
  lemma ScreenLocDecreasing(a: AxisY, s1: real, s2: real)
    requires Length(a) > 0.0 && ModelLength(a) > 0.0
    requires s1 < s2
    ensures ScreenLocForScalar(a, s1).Some? && ScreenLocForScalar(a, s2).Some?
    ensures ScreenLocForScalar(a, s2).value < ScreenLocForScalar(a, s1).value
  {
    ScaleMonotonic(s1 - a.first, s2 - a.first, Length(a), ModelLength(a));
  }
}
