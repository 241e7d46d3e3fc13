/** The intensity estimate in another form: squares of distances and logarithms of squares, without roots and quotients
    (internal/domain/shaking/model.go). */
module ShakingLaws {
  import opened Wrappers
  import opened Shaking

  /** The depth that counts, in kilometres: 10 where it is not known, and none above the ground. */
  predicate IsDepth(depth: Option<real>, km: real) {
    km == if depth.None? then 10.0 else if depth.value < 0.0 then 0.0 else depth.value
  }

  /** The slant distance by Pythagoras. */
  predicate IsSlant(epicentral: real, km: real, hypocentral: real) {
    hypocentral >= 0.0 && Square(hypocentral) == Square(epicentral) + Square(km)
  }

  /** Twice the mean of Allen, Wald and Worden (2012) in the logarithm of the square of the saturated distance, with a term
      from 50 kilometres on; `x` is the slant distance, at least a metre. */
  predicate IsMean(e: Elementary, magnitude: real, x: real, mean: real) {
    var saturation := 2.042 * e.exp(magnitude - 5.0) - 0.209;
    2.0 * mean == 4.17 + 2.856 * magnitude - 1.402 * e.ln(Square(x) + Square(saturation))
                  + if x > 50.0 then 0.156 * (e.ln(x) - e.ln(50.0)) else 0.0
  }

  /** A distance of at least a metre. */
  function Metre(km: real): real {
    if km < 0.001 then 0.001 else km
  }

  /** From 1.19 at the source down to 0.82 far away, half-way at 22.9 kilometres. */
  predicate IsSpread(x: real, sigma: real) {
    Product(sigma - 0.82, 524.41 + Square(x)) == 0.37 * 524.41
  }

  /** The scale goes from I to X. */
  predicate IsOnScale(value: real, mmi: real) {
    mmi == if value < 1.0 then 1.0 else if value > 10.0 then 10.0 else value
  }

  lemma SpreadHolds(h: real)
    ensures IsSpread(Metre(h), Sigma(h))
  {
    var x := Metre(h);
    var share := x / 22.9;
    var part := 0.37 / (1.0 + Square(share));
    assert part * (1.0 + Square(share)) == 0.37;
    assert share * 22.9 == x;
    assert Square(x) == 524.41 * Square(share);
    assert Product(part, 524.41 + Square(x)) == 524.41 * (part * (1.0 + Square(share)));
  }

  lemma MeanHolds(e: Elementary, magnitude: real, h: real)
    requires e.Lawful()
    ensures IsMean(e, magnitude, Metre(h), Mean(e, magnitude, h))
  {
    var x := Metre(h);
    LogOfRoot(e, Square(x) + Square(Saturation(e, magnitude)));
    if x > 50.0 {
      LogOfQuotient(e, x, 50.0);
    }
  }

  lemma SlantHolds(e: Elementary, epicentral: real, depth: Option<real>, km: real)
    requires e.Lawful() && IsDepth(depth, km)
    ensures IsSlant(epicentral, km, Hypot(e, epicentral, DepthOf(depth)))
  {
    assert e.IsRoot(Square(epicentral) + Square(km));
  }

  /** What the estimate is, where there is a magnitude; without one there is none. */
  lemma EstimateFollows(e: Elementary, magnitude: real, depth: Option<real>, epicentral: real, km: real) returns (mean: real)
    requires e.Lawful() && IsDepth(depth, km)
    ensures EstimateAt(e, None, depth, epicentral) == Failure(MissingMagnitude)
    ensures EstimateAt(e, Some(magnitude), depth, epicentral).Success?
    ensures var estimate := EstimateAt(e, Some(magnitude), depth, epicentral).value;
            && estimate.epicentral == (if epicentral < 0.0 then 0.0 else epicentral)
            && IsSlant(estimate.epicentral, km, estimate.hypocentral)
            && IsSpread(Metre(estimate.hypocentral), estimate.sigma)
            && IsMean(e, magnitude, Metre(estimate.hypocentral), mean) && IsOnScale(mean, estimate.mean)
            && IsOnScale(mean - estimate.sigma, estimate.lower) && IsOnScale(mean + estimate.sigma, estimate.upper)
  {
    var h := EstimateAt(e, Some(magnitude), depth, epicentral).value.hypocentral;
    SlantHolds(e, if epicentral < 0.0 then 0.0 else epicentral, depth, km);
    SpreadHolds(h);
    MeanHolds(e, magnitude, h);
    mean := Mean(e, magnitude, h);
  }

  /** What the search for the radius compares: the mean and the spread, off the scale. */
  lemma BoundFollows(e: Elementary, magnitude: real, depth: Option<real>, epicentral: real, km: real)
    returns (h: real, mean: real, sigma: real)
    requires e.Lawful() && IsDepth(depth, km) && epicentral >= 0.0
    ensures IsSlant(epicentral, km, h) && IsMean(e, magnitude, Metre(h), mean) && IsSpread(Metre(h), sigma)
    ensures UpperAt(e, magnitude, depth, epicentral) == mean + sigma
  {
    h := Hypot(e, epicentral, DepthOf(depth));
    SlantHolds(e, epicentral, depth, km);
    SpreadHolds(h);
    MeanHolds(e, magnitude, h);
    mean, sigma := Mean(e, magnitude, h), Sigma(h);
  }
}
