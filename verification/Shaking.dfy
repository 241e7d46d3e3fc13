/** The shaking model: an intensity estimate from magnitude, depth and distance, and the radius beyond which it cannot
    reach a given intensity (internal/domain/shaking/model.go). Floats are reals, the elementary functions are
    parameters known only by their laws, and a magnitude or depth that is not finite counts as absent. */
module Shaking {
  import opened Wrappers

  // ----- Elementary functions -----

  datatype Elementary = Elementary(ln: real -> real, exp: real -> real, sqrt: real -> real) {
    ghost predicate LogIsMonotone(x: real, y: real) {
      0.0 < x <= y ==> ln(x) <= ln(y)
    }

    ghost predicate LogAdds(x: real, y: real) {
      0.0 < x && 0.0 < y ==> ln(x * y) == ln(x) + ln(y)
    }

    ghost predicate IsRoot(x: real) {
      0.0 <= x ==> 0.0 <= sqrt(x) && sqrt(x) * sqrt(x) == x
    }

    ghost predicate LogIsBelow(x: real) {
      0.0 < x ==> ln(x) <= x - 1.0
    }

    ghost predicate LogInvertsExp(x: real) {
      0.0 < exp(x) && ln(exp(x)) == x
    }

    /** All that the monotonicity of the estimate needs. */
    ghost predicate Lawful() {
      && (forall x, y :: LogIsMonotone(x, y))
      && (forall x, y :: LogAdds(x, y))
      && (forall x :: IsRoot(x))
    }

    /** What is needed besides for magnitudes of any size. */
    ghost predicate Exponential() {
      && (forall x :: LogIsBelow(x))
      && (forall x :: LogInvertsExp(x))
    }
  }

  function Product(x: real, y: real): (product: real)
    ensures 0.0 < x && 0.0 < y ==> 0.0 < product
  {
    x * y
  }

  function Square(x: real): (square: real)
    ensures 0.0 <= square && (0.0 < x ==> 0.0 < square)
  {
    Product(x, x)
  }

  function Max(x: real, y: real): real {
    if x < y then y else x
  }

  function Min(x: real, y: real): real {
    if x < y then x else y
  }

  // ----- The estimate -----

  const MINIMUM_SUPPORTED_MMI := 2.0
  const MAXIMUM_SEARCH_KM := 20000.0

  function Clamp(mmi: real): real {
    Max(1.0, Min(10.0, mmi))
  }

  /** The part of the near-source saturation that depends on the magnitude. */
  function Saturation(e: Elementary, magnitude: real): real {
    -0.209 + 2.042 * e.exp(magnitude - 5.0)
  }

  function Mean(e: Elementary, magnitude: real, hypocentral: real): real {
    var distance := Max(hypocentral, 0.001);
    2.085 + 1.428 * magnitude - 1.402 * e.ln(e.sqrt(Square(distance) + Square(Saturation(e, magnitude))))
    + if distance > 50.0 then 0.078 * e.ln(distance / 50.0) else 0.0
  }

  function Sigma(hypocentral: real): real {
    0.82 + 0.37 / (1.0 + Square(Max(hypocentral, 0.001) / 22.9))
  }

  function Hypot(e: Elementary, x: real, y: real): real {
    e.sqrt(Square(x) + Square(y))
  }

  function Upper(e: Elementary, magnitude: real, hypocentral: real): real {
    Mean(e, magnitude, hypocentral) + Sigma(hypocentral)
  }

  function DepthOf(depth: Option<real>): real {
    match depth
    case None => 10.0
    case Some(km) => Max(0.0, km)
  }

  datatype Estimate = Estimate(mean: real, sigma: real, lower: real, upper: real, epicentral: real, hypocentral: real)

  datatype EstimateError = MissingMagnitude

  function EstimateAt(e: Elementary, magnitude: Option<real>, depth: Option<real>, epicentral: real)
    : Result<Estimate, EstimateError>
  {
    match magnitude
    case None => Failure(MissingMagnitude)
    case Some(m) =>
      var distance := Max(0.0, epicentral);
      var hypocentral := Hypot(e, distance, DepthOf(depth));
      var mean, sigma := Mean(e, m, hypocentral), Sigma(hypocentral);
      Success(Estimate(Clamp(mean), sigma, Clamp(mean - sigma), Clamp(mean + sigma), distance, hypocentral))
  }

  /** What the search compares: mean plus sigma, not clamped, at an epicentral distance. */
  function UpperAt(e: Elementary, magnitude: real, depth: Option<real>, epicentral: real): real {
    Upper(e, magnitude, Hypot(e, epicentral, DepthOf(depth)))
  }

  // ----- The bound never increases with distance -----

  lemma Scaled(x: real, y: real, factor: real)
    requires x <= y && 0.0 <= factor
    ensures x * factor <= y * factor
  {
  }

  lemma ProductIsPositive(x: real, y: real)
    requires 0.0 < x && 0.0 < y
    ensures 0.0 < x * y
  {
  }

  lemma Quotient(x: real, y: real)
    requires 0.0 < y
    ensures x / y * y == x
    ensures 0.0 < x ==> 0.0 < x / y
    ensures 0.0 <= x ==> 0.0 <= x / y
  {
  }

  lemma SquareIsMonotone(x: real, y: real)
    requires 0.0 <= x <= y
    ensures Square(x) <= Square(y)
    ensures x < y ==> Square(x) < Square(y)
  {
    var gap := y - x;
    Scaled(0.0, gap, x);
    if x < y {
      ProductIsPositive(gap, y);
    }
    assert y * y == x * x + gap * x + gap * y;
  }

  lemma HypotIsMonotone(e: Elementary, x: real, y: real, leg: real)
    requires e.Lawful() && 0.0 <= x <= y
    ensures 0.0 <= Hypot(e, x, leg) <= Hypot(e, y, leg)
  {
    SquareIsMonotone(x, y);
    assert Square(leg) >= 0.0;
    assert e.IsRoot(Square(x) + Square(leg)) && e.IsRoot(Square(y) + Square(leg));
    if Hypot(e, y, leg) < Hypot(e, x, leg) {
      SquareIsMonotone(Hypot(e, y, leg), Hypot(e, x, leg));
    }
  }

  lemma SigmaDecreases(near: real, far: real)
    requires near <= far
    ensures Sigma(near) >= Sigma(far)
  {
    var x, y := Max(near, 0.001) / 22.9, Max(far, 0.001) / 22.9;
    SquareIsMonotone(x, y);
    var a, b := 1.0 + Square(x), 1.0 + Square(y);
    assert 0.37 / a - 0.37 / b == 0.37 * (b - a) / (a * b);
  }

  function Power(base: real, n: nat): (power: real)
    ensures base > 0.0 ==> power > 0.0
  {
    if n == 0 then 1.0 else base * Power(base, n - 1)
  }

  lemma BernoulliStep(t: real, k: real, power: real)
    requires t >= 0.0 && k >= 0.0 && power >= 1.0 + k * t
    ensures (1.0 + t) * power >= 1.0 + (k + 1.0) * t
  {
    var excess := power - (1.0 + k * t);
    Scaled(0.0, excess, 1.0 + t);
    Scaled(0.0, k, t);
    Scaled(0.0, k * t, t);
    assert (1.0 + t) * power == 1.0 + (k + 1.0) * t + k * t * t + excess * (1.0 + t);
  }

  /** Bernoulli's inequality. */
  lemma {:induction false} Bernoulli(t: real, n: nat)
    requires t >= 0.0
    ensures Power(1.0 + t, n) >= 1.0 + n as real * t
  {
    if n > 0 {
      Bernoulli(t, n - 1);
      var k, p := (n - 1) as real, Power(1.0 + t, n - 1);
      BernoulliStep(t, k, p);
      assert n as real == k + 1.0;
      assert Power(1.0+t, n) == (1.0 + t) * p;
      assert n as real * t == (k + 1.0) * t;
    }
  }

  lemma LogOfOne(e: Elementary)
    requires e.Lawful()
    ensures e.ln(1.0) == 0.0
  {
    assert e.LogAdds(1.0, 1.0);
  }

  lemma {:induction false} LogOfPower(e: Elementary, base: real, n: nat)
    requires e.Lawful() && base > 0.0
    ensures e.ln(Power(base, n)) == n as real * e.ln(base)
  {
    if n == 0 {
      LogOfOne(e);
    } else {
      LogOfPower(e, base, n - 1);
      assert e.LogAdds(base, Power(base, n - 1));
    }
  }

  lemma LogOfProduct(e: Elementary, x: real, y: real, product: real)
    requires e.Lawful() && 0.0 < x && 0.0 < y && product == x * y
    ensures e.ln(product) == e.ln(x) + e.ln(y)
  {
    assert e.LogAdds(x, y);
  }

  lemma LogOfQuotient(e: Elementary, x: real, y: real)
    requires e.Lawful() && 0.0 < x && 0.0 < y
    ensures e.ln(x / y) == e.ln(x) - e.ln(y)
  {
    Quotient(x, y);
    LogOfProduct(e, x / y, y, x);
  }

  lemma LogOfRoot(e: Elementary, x: real)
    requires e.Lawful() && 0.0 < x
    ensures e.sqrt(x) > 0.0 && 2.0 * e.ln(e.sqrt(x)) == e.ln(x)
  {
    assert e.IsRoot(x) && e.LogAdds(e.sqrt(x), e.sqrt(x));
  }

  lemma QuotientIsAtMost(x: real, y: real, bound: real)
    requires 0.0 < x && y <= bound * x
    ensures y / x <= bound
  {
    var q := y / x;
    assert q * x == y;
    if q > bound {
      ProductIsPositive(q - bound, x);
    }
  }

  lemma GrowthIsRelative(x: real, gain: real)
    requires 0.0 < x
    ensures (x + gain) / x == 1.0 + gain / x
  {
    assert x / x == 1.0;
    assert (x + gain) / x == x / x + gain / x;
  }

  /** Where the saturation is at most sixteen times the square distance, a relative growth of the square distance is at
      most the seventeenth power of that of the saturated one. */
  lemma SaturatedGrowth(e: Elementary, x: real, y: real, saturation: real)
    requires e.Lawful() && 0.0 < x <= y && 0.0 <= saturation <= 16.0 * x
    ensures e.ln(y) - e.ln(x) <= 17.0 * (e.ln(y + saturation) - e.ln(x + saturation))
  {
    var growth := (y + saturation) / (x + saturation);
    var t := (y - x) / (x + saturation);
    Quotient(y - x, x + saturation);
    GrowthIsRelative(x + saturation, y - x);
    Bernoulli(t, 17);
    Quotient(y, x);
    Scaled(x + saturation, 17.0 * x, t);
    QuotientIsAtMost(x, y, 1.0 + 17.0 * t);
    assert e.LogIsMonotone(y / x, Power(growth, 17));
    LogOfPower(e, growth, 17);
    LogOfQuotient(e, y, x);
    LogOfQuotient(e, y + saturation, x + saturation);
  }

  /** The logarithmic part of the mean, with the far term kept apart. */
  lemma LogarithmsDecrease(e: Elementary, near: real, far: real, saturation: real)
    requires e.Lawful() && 50.0 <= near <= far && 0.0 <= saturation <= 16.0 * Square(near)
    ensures 0.078 * (e.ln(far / 50.0) - e.ln(near / 50.0))
            <= 1.402 * (e.ln(e.sqrt(Square(far) + saturation)) - e.ln(e.sqrt(Square(near) + saturation)))
  {
    SquareIsMonotone(50.0, near);
    SquareIsMonotone(near, far);
    SaturatedGrowth(e, Square(near), Square(far), saturation);
    LogOfQuotient(e, far, 50.0);
    LogOfQuotient(e, near, 50.0);
    LogOfRoot(e, Square(far) + saturation);
    LogOfRoot(e, Square(near) + saturation);
    assert e.LogAdds(far, far) && e.LogAdds(near, near);
    assert e.LogIsMonotone(Square(near) + saturation, Square(far) + saturation);
  }

  /** Within 50 km there is no far term. */
  lemma RootDecreases(e: Elementary, near: real, far: real, saturation: real)
    requires e.Lawful() && 0.0 < near <= far && 0.0 <= saturation
    ensures e.ln(e.sqrt(Square(near) + saturation)) <= e.ln(e.sqrt(Square(far) + saturation))
  {
    SquareIsMonotone(near, far);
    LogOfRoot(e, Square(near) + saturation);
    LogOfRoot(e, Square(far) + saturation);
    assert e.LogIsMonotone(Square(near) + saturation, Square(far) + saturation);
  }

  /** Magnitudes up to about 9.58: the saturation stays within 200 km. */
  ghost predicate Physical(e: Elementary, magnitude: real) {
    -200.0 <= Saturation(e, magnitude) <= 200.0
  }

  lemma MeanDecreases(e: Elementary, magnitude: real, near: real, far: real)
    requires e.Lawful() && Physical(e, magnitude) && near <= far
    ensures Mean(e, magnitude, near) >= Mean(e, magnitude, far)
  {
    var x, y := Max(near, 0.001), Max(far, 0.001);
    var s := Saturation(e, magnitude);
    assert 0.0 <= Square(s) <= 40000.0 by {
      SquareIsMonotone(if s < 0.0 then -s else s, 200.0);
    }
    LogOfOne(e);
    SquareIsMonotone(50.0, if x < 50.0 then 50.0 else x);
    if y <= 50.0 {
      RootDecreases(e, x, y, Square(s));
    } else if x <= 50.0 {
      RootDecreases(e, x, 50.0, Square(s));
      LogarithmsDecrease(e, 50.0, y, Square(s));
    } else {
      LogarithmsDecrease(e, x, y, Square(s));
    }
  }

  /** Mean plus sigma never increases with distance, also across 50 km, where a rising term joins the mean. */
  lemma UpperDecreases(e: Elementary, magnitude: real, depth: Option<real>, near: real, far: real)
    requires e.Lawful() && Physical(e, magnitude) && 0.0 <= near <= far
    ensures UpperAt(e, magnitude, depth, near) >= UpperAt(e, magnitude, depth, far)
  {
    HypotIsMonotone(e, near, far, DepthOf(depth));
    MeanDecreases(e, magnitude, Hypot(e, near, DepthOf(depth)), Hypot(e, far, DepthOf(depth)));
    SigmaDecreases(Hypot(e, near, DepthOf(depth)), Hypot(e, far, DepthOf(depth)));
  }

  /** The bound is antitone at any magnitude from a quarter of the saturation on. */
  lemma FarUpperDecreases(e: Elementary, magnitude: real, near: real, far: real)
    requires e.Lawful() && 50.0 < near <= far && 0.0 < Saturation(e, magnitude) <= 4.0 * near
    ensures Upper(e, magnitude, near) >= Upper(e, magnitude, far)
  {
    SquareIsMonotone(Saturation(e, magnitude), 4.0 * near);
    assert Square(4.0 * near) == 16.0 * Square(near);
    LogarithmsDecrease(e, near, far, Square(Saturation(e, magnitude)));
    SigmaDecreases(near, far);
  }

  lemma LargeMagnitude(e: Elementary, magnitude: real)
    requires e.Lawful() && e.Exponential() && Saturation(e, magnitude) > 200.0
    ensures magnitude >= 5.0
  {
    assert e.LogInvertsExp(magnitude - 5.0);
    assert e.LogIsMonotone(1.0, e.exp(magnitude - 5.0));
    LogOfOne(e);
  }

  /** The saturated distance within a quarter of a large saturation. */
  lemma NearRootIsBounded(e: Elementary, magnitude: real, near: real)
    requires e.Lawful() && e.Exponential() && 0.0 < near && 4.0 * near <= Saturation(e, magnitude)
    ensures e.ln(e.sqrt(Square(near) + Square(Saturation(e, magnitude)))) <= magnitude - 3.876
  {
    var s, power := Saturation(e, magnitude), e.exp(magnitude - 5.0);
    assert e.LogInvertsExp(magnitude - 5.0) && s <= 2.042 * power;
    SquareIsMonotone(4.0 * near, s);
    assert Square(4.0 * near) == 16.0 * Square(near);
    assert Square(1.04 * s) == 1.0816 * Square(s);
    var root := e.sqrt(Square(near) + Square(s));
    assert e.IsRoot(Square(near) + Square(s));
    if 1.04 * s < root {
      SquareIsMonotone(1.04 * s, root);
    }
    LogOfRoot(e, Square(near) + Square(s));
    assert root <= 2.124 * power;
    assert e.LogIsMonotone(root, 2.124 * power);
    LogOfProduct(e, 2.124, power, 2.124 * power);
    assert e.LogIsBelow(2.124);
  }

  /** Near a large earthquake the bound is above every threshold. */
  lemma NearUpperIsHigh(e: Elementary, magnitude: real, near: real)
    requires e.Lawful() && e.Exponential() && Saturation(e, magnitude) > 200.0
    requires 4.0 * Max(near, 0.001) <= Saturation(e, magnitude)
    ensures Upper(e, magnitude, near) >= 7.0
  {
    var x := Max(near, 0.001);
    LargeMagnitude(e, magnitude);
    NearRootIsBounded(e, magnitude, x);
    if x > 50.0 {
      LogOfOne(e);
      assert x / 50.0 >= 1.0;
      assert e.LogIsMonotone(1.0, x / 50.0);
    }
    SigmaIsPositive(near);
  }

  lemma SigmaIsPositive(hypocentral: real)
    ensures Sigma(hypocentral) >= 0.82
  {
    Quotient(0.37, 1.0 + Square(Max(hypocentral, 0.001) / 22.9));
  }

  /** The distances that reach an intensity are those up to some distance: at physical magnitudes because the bound never
      rises, and at larger ones, for intensities up to seven, because it rises only where it is above. */
  lemma ReachIsDownward(e: Elementary, magnitude: real, depth: Option<real>, mmi: real, near: real, far: real)
    requires e.Lawful() && 0.0 <= near <= far && (Physical(e, magnitude) || (e.Exponential() && mmi <= 7.0))
    ensures UpperAt(e, magnitude, depth, far) >= mmi ==> UpperAt(e, magnitude, depth, near) >= mmi
  {
    if Physical(e, magnitude) {
      UpperDecreases(e, magnitude, depth, near, far);
    } else {
      assert e.LogInvertsExp(magnitude - 5.0);
      HypotIsMonotone(e, near, far, DepthOf(depth));
      var x, y := Hypot(e, near, DepthOf(depth)), Hypot(e, far, DepthOf(depth));
      if 4.0 * Max(x, 0.001) <= Saturation(e, magnitude) {
        NearUpperIsHigh(e, magnitude, x);
      } else {
        FarUpperDecreases(e, magnitude, x, y);
      }
    }
  }

  lemma LogOfFour(e: Elementary)
    requires e.Lawful() && e.Exponential()
    ensures e.ln(4.0) >= 1.0
  {
    LogOfOne(e);
    LogOfProduct(e, 2.0, 2.0, 4.0);
    LogOfProduct(e, 0.5, 2.0, 1.0);
    assert e.LogIsBelow(0.5);
  }

  lemma RootsOfLargeSaturation(e: Elementary, saturation: real)
    requires e.Lawful() && e.Exponential() && saturation >= 4000000.0
    ensures e.ln(e.sqrt(Square(400.0) + saturation)) - e.ln(e.sqrt(Square(100.0) + saturation)) <= 0.019
  {
    var near, far := Square(100.0) + saturation, Square(400.0) + saturation;
    LogOfRoot(e, near);
    LogOfRoot(e, far);
    LogOfQuotient(e, far, near);
    assert e.LogIsBelow(far / near);
    GrowthIsRelative(near, 150000.0);
    QuotientIsAtMost(near, 150000.0, 0.038);
  }

  /** At larger magnitudes the bound itself does rise: at magnitude 12 from 100 to 400 km. */
  lemma UpperRisesAtLargeMagnitudes(e: Elementary)
    requires e.Lawful() && e.Exponential() && e.exp(7.0) >= 1000.0
    ensures Upper(e, 12.0, 100.0) < Upper(e, 12.0, 400.0)
  {
    var s := Saturation(e, 12.0);
    SquareIsMonotone(2000.0, s);
    RootsOfLargeSaturation(e, Square(s));
    LogOfFour(e);
    LogOfProduct(e, 4.0, 2.0, 8.0);
    SigmaIsPositive(400.0);
    assert Sigma(100.0) <= 0.84;
  }

  // ----- The search radius -----

  function Halved(width: real, times: nat): (half: real)
    ensures width > 0.0 ==> 0.0 < half <= width
  {
    if times == 0 then width else Halved(width, times - 1) / 2.0
  }

  const PRECISION: real := Halved(MAXIMUM_SEARCH_KM, 64)

  /** The radius is nothing, everything, or so that the bound falls below `mmi` within the last PRECISION of it. */
  ghost predicate IsCandidateRadius(e: Elementary, magnitude: Option<real>, depth: Option<real>, mmi: real, radius: real) {
    match magnitude
    case None => radius == 0.0
    case Some(m) =>
      if UpperAt(e, m, depth, 0.0) < mmi then
        radius == 0.0
      else if UpperAt(e, m, depth, MAXIMUM_SEARCH_KM) >= mmi then
        radius == MAXIMUM_SEARCH_KM
      else
        0.0 <= radius - PRECISION && 0.0 < radius <= MAXIMUM_SEARCH_KM
        && UpperAt(e, m, depth, radius - PRECISION) >= mmi > UpperAt(e, m, depth, radius)
  }

  method CandidateRadius(e: Elementary, magnitude: Option<real>, depth: Option<real>, mmi: real) returns (radius: real)
    ensures IsCandidateRadius(e, magnitude, depth, mmi, radius)
  {
    if magnitude.None? {
      return 0.0;
    }
    var m := magnitude.value;
    if UpperAt(e, m, depth, 0.0) < mmi {
      return 0.0;
    }
    if UpperAt(e, m, depth, MAXIMUM_SEARCH_KM) >= mmi {
      return MAXIMUM_SEARCH_KM;
    }
    var low, high := 0.0, MAXIMUM_SEARCH_KM;
    for i := 0 to 64
      invariant 0.0 <= low < high <= MAXIMUM_SEARCH_KM
      invariant high - low == Halved(MAXIMUM_SEARCH_KM, i)
      invariant UpperAt(e, m, depth, low) >= mmi > UpperAt(e, m, depth, high)
    {
      var mid := (low + high) / 2.0;
      if UpperAt(e, m, depth, mid) >= mmi {
        low := mid;
      } else {
        high := mid;
      }
    }
    assert low == high - PRECISION;
    return high;
  }

  /** The radius separates the distances that reach `mmi` from those that do not: none beyond it does, up to the maximum,
      and all but the last PRECISION of it do. */
  lemma RadiusSeparates(e: Elementary, magnitude: real, depth: Option<real>, mmi: real, radius: real, distance: real)
    requires e.Lawful() && (Physical(e, magnitude) || (e.Exponential() && mmi <= 7.0))
    requires 0.0 <= distance <= MAXIMUM_SEARCH_KM
    requires IsCandidateRadius(e, Some(magnitude), depth, mmi, radius)
    ensures UpperAt(e, magnitude, depth, distance) >= mmi ==> 0.0 < radius && distance <= radius
    ensures 0.0 < radius && distance <= radius - PRECISION ==> UpperAt(e, magnitude, depth, distance) >= mmi
  {
    ReachIsDownward(e, magnitude, depth, mmi, 0.0, distance);
    ReachIsDownward(e, magnitude, depth, mmi, distance, MAXIMUM_SEARCH_KM);
    if distance > radius {
      assert 0.0 <= radius;
      ReachIsDownward(e, magnitude, depth, mmi, radius, distance);
    } else if 0.0 <= distance <= radius - PRECISION {
      ReachIsDownward(e, magnitude, depth, mmi, distance, radius - PRECISION);
    }
  }
}
