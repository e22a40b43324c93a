/** The trailing-loss model of etc.py (`calc_trailing_losses`): the loss of
    sensitivity, in magnitudes, when a moving target's light is smeared over
    more pixels during an exposure. `dmag_trail` is the signal-to-noise loss,
    `dmag_detect` the loss of a detection made with a stellar filter; the
    detection loss is the larger one once x exceeds about 0.70 (the default
    x = 3.125 included), the trailing loss below that.

    Inputs are reals already in canonical units: velocity in deg/day, seeing
    in arcsec, exposure time in seconds. The decimal logarithm is a parameter;
    what is exact is the trailing parameter x and the rational arguments
    1 + a*x^2/(1 + b*x) handed to it. */
module TrailingLoss {
  import opened Wrappers

  const ATrail: real := 0.761
  const BTrail: real := 1.162
  const ADetect: real := 0.420
  const BDetect: real := 0.003

  /** The dimensionless trailing parameter x = velocity*exptime/seeing/24.
      None stands for the non-finite value a zero seeing produces. */
  function TrailingParameter(velocity: real, seeing: real, exptime: real): (x: Option<real>)
    ensures x.Some? <==> seeing != 0.0
    ensures x.Some? && (velocity == 0.0 || exptime == 0.0) ==> x.value == 0.0
    ensures x.Some? && velocity >= 0.0 && exptime >= 0.0 && seeing > 0.0 ==> x.value >= 0.0
  {
    if seeing == 0.0 then None else Some(velocity * exptime / seeing / 24.0)
  }

  /** The argument 1 + a*x^2/(1 + b*x) of one logarithm. None stands for the
      non-finite value a zero denominator produces. */
  function LogArgument(a: real, b: real, x: real): (r: Option<real>)
    ensures r.None? <==> b * x == -1.0
  {
    if 1.0 + b * x == 0.0 then None else Some(1.0 + a * (x * x) / (1.0 + b * x))
  }

  /** The pair (dmag_trail, dmag_detect); a component is None where floating
      point would give a non-finite value: zero seeing, a zero denominator,
      or a logarithm of an argument that is not positive (-inf or NaN). */
  datatype Losses = Losses(trail: Option<real>, detect: Option<real>)

  /** 1.25 * log10 of an argument, when the argument is finite and positive;
      `np.log10` gives -inf at 0 and NaN below it. */
  function Magnitudes(arg: Option<real>, log10: real -> real): (r: Option<real>)
    ensures r.Some? <==> arg.Some? && arg.value > 0.0
  {
    match arg
    case None => None
    case Some(v) => if v <= 0.0 then None else Some(1.25 * log10(v))
  }

  /** `calc_trailing_losses(velocity, seeing, exptime)`. */
  function TrailingLosses(velocity: real, seeing: real, exptime: real, log10: real -> real): (r: Losses)
    ensures seeing == 0.0 ==> r == Losses(None, None)
  {
    match TrailingParameter(velocity, seeing, exptime)
    case None => Losses(None, None)
    case Some(x) =>
      Losses(Magnitudes(LogArgument(ATrail, BTrail, x), log10),
             Magnitudes(LogArgument(ADetect, BDetect, x), log10))
  }

  /** For x >= 0 and non-negative coefficients the argument is finite and at least 1,
      and it is exactly 1 at x = 0. */
  lemma LogArgumentAtLeastOne(a: real, b: real, x: real)
    requires a >= 0.0 && b >= 0.0 && x >= 0.0
    ensures LogArgument(a, b, x).Some?
    ensures LogArgument(a, b, x).value >= 1.0
    ensures x == 0.0 ==> LogArgument(a, b, x).value == 1.0
  {
    var num := a * (x * x);
    assert num >= 0.0 by {
      assert x * x >= 0.0;
    }
    assert num / (1.0 + b * x) >= 0.0;
  }

  /** The argument is non-decreasing in x on x >= 0: for 0 <= x <= y,
      x^2*(1 + b*y) <= y^2*(1 + b*x), hence x^2/(1+b*x) <= y^2/(1+b*y). */
  lemma LogArgumentMonotone(a: real, b: real, x: real, y: real)
    requires a >= 0.0 && b >= 0.0
    requires 0.0 <= x <= y
    ensures LogArgument(a, b, x).Some? && LogArgument(a, b, y).Some?
    ensures LogArgument(a, b, x).value <= LogArgument(a, b, y).value
  {
    LogArgumentAtLeastOne(a, b, x);
    LogArgumentAtLeastOne(a, b, y);
    var dx := 1.0 + b * x;
    var dy := 1.0 + b * y;
    CrossMultiplied(b, x, y);
    QuotientMonotone(x * x, dx, y * y, dy);
    ScaleMonotone(a, x * x / dx, y * y / dy);
    ScaledQuotient(a, x * x, dx);
    ScaledQuotient(a, y * y, dy);
    assert LogArgument(a, b, x).value == 1.0 + a * (x * x) / dx;
    assert LogArgument(a, b, y).value == 1.0 + a * (y * y) / dy;
  }

  /** The cross-multiplied form of the comparison: for 0 <= x <= y and b >= 0,
      x^2*(1 + b*y) <= y^2*(1 + b*x). */
  lemma CrossMultiplied(b: real, x: real, y: real)
    requires b >= 0.0 && 0.0 <= x <= y
    ensures 1.0 + b * x >= 1.0 && 1.0 + b * y >= 1.0
    ensures x * x * (1.0 + b * y) <= y * y * (1.0 + b * x)
  {
    assert b * x >= 0.0;
    assert x * x <= y * y by {
      assert x * x <= x * y;
      assert x * y <= y * y;
    }
    var xy := x * y;
    assert xy >= 0.0;
    assert b * xy * x <= b * xy * y by {
      assert b * xy >= 0.0;
    }
    assert x * x * (1.0 + b * y) == x * x + b * xy * x;
    assert y * y * (1.0 + b * x) == y * y + b * xy * y;
  }

  /** (a*p)/q == a*(p/q). */
  lemma ScaledQuotient(a: real, p: real, q: real)
    requires q != 0.0
    ensures a * p / q == a * (p / q)
  {
    assert (p / q) * q == p;
    assert (a * (p / q)) * q == a * p;
  }

  /** Multiplying by a non-negative factor keeps the order. */
  lemma ScaleMonotone(a: real, p: real, q: real)
    requires a >= 0.0 && p <= q
    ensures a * p <= a * q
  {
    assert a * q - a * p == a * (q - p);
  }

  /** p/q <= r/s for positive denominators when p*s <= r*q. */
  lemma QuotientMonotone(p: real, q: real, r: real, s: real)
    requires q > 0.0 && s > 0.0
    requires p * s <= r * q
    ensures p / q <= r / s
  {
    assert p / q == (p * s) / (q * s);
    assert r / s == (r * q) / (q * s);
  }

  /** A stationary target (or a zero exposure) has x = 0, both arguments equal
      to 1, and so both losses equal 1.25*log10(1), which is 0. */
  lemma NoMotionNoLoss(velocity: real, seeing: real, exptime: real, log10: real -> real)
    requires seeing != 0.0
    requires velocity == 0.0 || exptime == 0.0
    requires log10(1.0) == 0.0
    ensures TrailingParameter(velocity, seeing, exptime) == Some(0.0)
    ensures LogArgument(ATrail, BTrail, 0.0) == Some(1.0)
    ensures LogArgument(ADetect, BDetect, 0.0) == Some(1.0)
    ensures TrailingLosses(velocity, seeing, exptime, log10) == Losses(Some(0.0), Some(0.0))
  {
  }

  /** For positive seeing and a non-negative exposure, both losses are finite
      and non-decreasing in the velocity on velocity >= 0, for any logarithm
      that is non-decreasing on the positive reals. */
  lemma LossesMonotoneInVelocity(v1: real, v2: real, seeing: real, exptime: real, log10: real -> real)
    requires seeing > 0.0 && exptime >= 0.0
    requires 0.0 <= v1 <= v2
    requires forall p, q :: 0.0 < p <= q ==> log10(p) <= log10(q)
    ensures TrailingLosses(v1, seeing, exptime, log10).trail.Some?
    ensures TrailingLosses(v1, seeing, exptime, log10).detect.Some?
    ensures TrailingLosses(v2, seeing, exptime, log10).trail.Some?
    ensures TrailingLosses(v2, seeing, exptime, log10).detect.Some?
    ensures TrailingLosses(v1, seeing, exptime, log10).trail.value
              <= TrailingLosses(v2, seeing, exptime, log10).trail.value
    ensures TrailingLosses(v1, seeing, exptime, log10).detect.value
              <= TrailingLosses(v2, seeing, exptime, log10).detect.value
  {
    var x1 := v1 * exptime / seeing / 24.0;
    var x2 := v2 * exptime / seeing / 24.0;
    assert 0.0 <= x1 <= x2 by {
      assert v1 * exptime <= v2 * exptime;
      assert v1 * exptime >= 0.0;
      QuotientMonotone(v1 * exptime, seeing, v2 * exptime, seeing);
    }
    LogArgumentMonotone(ATrail, BTrail, x1, x2);
    LogArgumentMonotone(ADetect, BDetect, x1, x2);
    LogArgumentAtLeastOne(ATrail, BTrail, x1);
    LogArgumentAtLeastOne(ADetect, BDetect, x1);
  }

  /** For positive seeing, a non-negative exposure and velocity, both losses
      are finite and non-negative, for a non-decreasing logarithm with
      log10(1) == 0. */
  lemma LossesNonNegative(velocity: real, seeing: real, exptime: real, log10: real -> real)
    requires seeing > 0.0 && exptime >= 0.0 && velocity >= 0.0
    requires log10(1.0) == 0.0
    requires forall p, q :: 0.0 < p <= q ==> log10(p) <= log10(q)
    ensures TrailingLosses(velocity, seeing, exptime, log10).trail.Some?
    ensures TrailingLosses(velocity, seeing, exptime, log10).detect.Some?
    ensures TrailingLosses(velocity, seeing, exptime, log10).trail.value >= 0.0
    ensures TrailingLosses(velocity, seeing, exptime, log10).detect.value >= 0.0
  {
    var x := TrailingParameter(velocity, seeing, exptime).value;
    LogArgumentAtLeastOne(ATrail, BTrail, x);
    LogArgumentAtLeastOne(ADetect, BDetect, x);
    assert log10(1.0) <= log10(LogArgument(ATrail, BTrail, x).value);
    assert log10(1.0) <= log10(LogArgument(ADetect, BDetect, x).value);
  }

  /** Which loss is larger: for x > 0 the detection argument is at least the
      trailing argument exactly when 0.485757*x >= 0.341, that is for x from
      about 0.702 on; the two cross where 0.42*(1 + 1.162*x) equals
      0.761*(1 + 0.003*x). */
  lemma DetectVersusTrail(x: real)
    requires x > 0.0
    ensures LogArgument(ADetect, BDetect, x).Some? && LogArgument(ATrail, BTrail, x).Some?
    ensures (LogArgument(ADetect, BDetect, x).value >= LogArgument(ATrail, BTrail, x).value)
              == (0.485757 * x >= 0.341)
  {
    LogArgumentAtLeastOne(ATrail, BTrail, x);
    LogArgumentAtLeastOne(ADetect, BDetect, x);
    CrossCompare(ATrail, 1.0 + BTrail * x, ADetect, 1.0 + BDetect * x, x);
    assert ADetect * (1.0 + BTrail * x) - ATrail * (1.0 + BDetect * x) == 0.485757 * x - 0.341;
  }

  /** Two terms a*x^2/d over positive denominators compare as a1*d2 and
      a2*d1, since x^2 > 0. */
  lemma CrossCompare(a1: real, d1: real, a2: real, d2: real, x: real)
    requires x > 0.0 && d1 > 0.0 && d2 > 0.0
    ensures (a1 * (x * x) / d1 <= a2 * (x * x) / d2) == (a1 * d2 <= a2 * d1)
  {
    QuotientCompare(a1 * (x * x), d1, a2 * (x * x), d2);
    var u := a1 * d2;
    var v := a2 * d1;
    assert a1 * (x * x) * d2 == x * (x * u);
    assert a2 * (x * x) * d1 == x * (x * v);
    PositiveFactorCompare(x, x * u, x * v);
    PositiveFactorCompare(x, u, v);
  }

  /** p/q <= r/s exactly when p*s <= r*q, for positive denominators. */
  lemma QuotientCompare(p: real, q: real, r: real, s: real)
    requires q > 0.0 && s > 0.0
    ensures (p / q <= r / s) == (p * s <= r * q)
  {
    assert p / q == (p * s) / (q * s);
    assert r / s == (r * q) / (q * s);
    assert q * s > 0.0;
  }

  /** A positive factor neither creates nor removes an order. */
  lemma PositiveFactorCompare(c: real, u: real, v: real)
    requires c > 0.0
    ensures (c * u <= c * v) == (u <= v)
  {
    assert c * v - c * u == c * (v - u);
  }

  /** The default inputs (2 deg/day, 0.8 arcsec, 30 s) give x = 3.125. */
  lemma DefaultTrailingParameter()
    ensures TrailingParameter(2.0, 0.8, 30.0) == Some(3.125)
  {
  }
}
