/** The depth/exposure-time conversion of etc.py: `get_exptime` gives the
    exposure time that reaches a 5-sigma depth m5, `get_m5` the depth an
    exposure time reaches, for a band, an airmass X and dark or twilight sky.

    The decimal logarithm and the power of ten are not evaluated: every
    operation takes them as parameters `log10` and `pow10`, and the lemmas
    state as requirements the few facts about them they rely on. What is
    exact here is everything around them: the table lookup, the twilight
    substitution and the affine expressions handed to `log10` and `pow10`. */
module Photometry {
  import opened Wrappers
  import opened FilterParams

  /** The exceptions the two conversions can raise. */
  datatype Error =
    | KeyError           // the filter is not a key of the table
    | ZeroDivisionError  // Tscale is 0.0 in `get_m5`

  /** The exponent handed to `10 **` in `get_exptime`, with the background
      correction dCm approximated as 0. */
  function ExptimeExponent(m5: real, b: Band, sky: Sky, airmass: real, log10: real -> real): real
    requires sky.fwhm != 0.0
  {
    var dCm := 0.0;
    (1.0 / 1.25) * (m5 - b.cm - dCm - 0.5 * (sky.mSky - 21.0)
                    - 2.5 * log10(0.7 / sky.fwhm) + b.kAtm * (airmass - 1.0))
  }

  /** `get_exptime(m5, filt, X, twilight)`: the exposure time, in seconds,
      that reaches depth `m5`; KeyError for a filter outside the table. */
  function GetExptime(m5: real, filt: string, airmass: real, twilight: bool,
                      log10: real -> real, pow10: real -> real): (r: Result<real, Error>)
    ensures r.Failure? <==> filt !in Params
    ensures r.Failure? ==> r.error == KeyError
  {
    match Lookup(filt)
    case None => Failure(KeyError)
    case Some(b) =>
      TableShape(filt);
      var sky := SelectSky(b, twilight);
      Success(30.0 * pow10(ExptimeExponent(m5, b, sky, airmass, log10)))
  }

  /** The exponent of the sky-brightness ratio in `get_m5`'s Tscale. It is
      always taken against the band's dark-sky brightness. */
  function SkyRatioExponent(b: Band, sky: Sky): real {
    -1.0 * 0.4 * (sky.mSky - b.mDarkSky)
  }

  /** Tscale: the exposure time relative to 30 s, scaled by the sky ratio. */
  function TScale(exptime: real, b: Band, sky: Sky, pow10: real -> real): real {
    exptime / 30.0 * pow10(SkyRatioExponent(b, sky))
  }

  /** The background-rate correction dCm of `get_m5`. */
  function BackgroundCorrection(dCmInf: real, tscale: real, log10: real -> real, pow10: real -> real): real
    requires tscale != 0.0
  {
    dCmInf - 1.25 * log10(1.0 + (pow10(0.8 * dCmInf) - 1.0) / tscale)
  }

  /** `get_m5(exptime, filt, X, twilight)`: the 5-sigma depth an exposure of
      `exptime` seconds reaches; KeyError for a filter outside the table and
      ZeroDivisionError when Tscale is zero. */
  function GetM5(exptime: real, filt: string, airmass: real, twilight: bool,
                 log10: real -> real, pow10: real -> real): (r: Result<real, Error>)
    ensures filt !in Params <==> r == Failure(KeyError)
  {
    match Lookup(filt)
    case None => Failure(KeyError)
    case Some(b) =>
      TableShape(filt);
      var sky := SelectSky(b, twilight);
      var tscale := TScale(exptime, b, sky, pow10);
      if tscale == 0.0 then Failure(ZeroDivisionError)
      else
        var dCm := BackgroundCorrection(b.dCmInf, tscale, log10, pow10);
        Success(b.cm + dCm + 0.5 * (sky.mSky - 21.0) + 2.5 * log10(0.7 / sky.fwhm)
                + 1.25 * log10(exptime / 30.0) - b.kAtm * (airmass - 1.0))
  }

  /** The exponent of `get_exptime` is affine in the depth and the airmass:
      raising m5 by d raises it by 0.8*d, raising the airmass by e raises
      it by 0.8*k_atm*e. Written out with dCm = 0 it is
      0.8*(m5 - Cm - 0.5*(m_sky - 21) - 2.5*Log10(0.7/fwhm) + k_atm*(X - 1)). */
  lemma ExptimeExponentAffine(m5: real, d: real, b: Band, sky: Sky, airmass: real, e: real,
                              log10: real -> real)
    requires sky.fwhm != 0.0
    ensures ExptimeExponent(m5 + d, b, sky, airmass + e, log10)
              == ExptimeExponent(m5, b, sky, airmass, log10) + 0.8 * d + 0.8 * b.kAtm * e
    ensures ExptimeExponent(m5, b, sky, airmass, log10)
              == 0.8 * (m5 - b.cm - 0.5 * (sky.mSky - 21.0) - 2.5 * log10(0.7 / sky.fwhm)
                        + b.kAtm * (airmass - 1.0))
  {
  }

  /** Asking for d magnitudes more depth multiplies the exposure time by
      10^(0.8*d), for any power function that turns sums into products. */
  lemma ExptimeScalesWithDepth(m5: real, d: real, filt: string, airmass: real, twilight: bool,
                               log10: real -> real, pow10: real -> real)
    requires filt in Params
    requires forall a, c :: pow10(a + c) == pow10(a) * pow10(c)
    ensures GetExptime(m5 + d, filt, airmass, twilight, log10, pow10).Success?
    ensures GetExptime(m5 + d, filt, airmass, twilight, log10, pow10).value
              == GetExptime(m5, filt, airmass, twilight, log10, pow10).value * pow10(0.8 * d)
  {
    TableShape(filt);
    var b := Params[filt];
    var sky := SelectSky(b, twilight);
    var x := ExptimeExponent(m5, b, sky, airmass, log10);
    ExptimeExponentAffine(m5, d, b, sky, airmass, 0.0, log10);
    assert ExptimeExponent(m5 + d, b, sky, airmass, log10) == x + 0.8 * d;
    assert pow10(x + 0.8 * d) == pow10(x) * pow10(0.8 * d);
  }

  /** `get_m5` undoes `get_exptime` up to exactly the background correction
      dCm that `get_exptime` approximates as 0: feeding the exposure time for
      depth m5 back in yields m5 + dCm, for every band, airmass and sky. */
  lemma DepthRoundTrip(m5: real, filt: string, airmass: real, twilight: bool,
                       log10: real -> real, pow10: real -> real)
    requires filt in Params
    requires forall a :: log10(pow10(a)) == a
    requires forall a :: pow10(a) > 0.0
    ensures GetExptime(m5, filt, airmass, twilight, log10, pow10).Success?
    ensures
      var t := GetExptime(m5, filt, airmass, twilight, log10, pow10).value;
      var b := Params[filt];
      var sky := SelectSky(b, twilight);
      var tscale := TScale(t, b, sky, pow10);
      tscale > 0.0
      && GetM5(t, filt, airmass, twilight, log10, pow10)
           == Success(m5 + BackgroundCorrection(b.dCmInf, tscale, log10, pow10))
  {
    TableShape(filt);
    var b := Params[filt];
    var sky := SelectSky(b, twilight);
    var x := ExptimeExponent(m5, b, sky, airmass, log10);
    var t := 30.0 * pow10(x);
    assert GetExptime(m5, filt, airmass, twilight, log10, pow10) == Success(t);
    assert t / 30.0 == pow10(x);
    assert log10(t / 30.0) == x;
    var p := pow10(SkyRatioExponent(b, sky));
    assert TScale(t, b, sky, pow10) == pow10(x) * p;
    assert pow10(x) * p > 0.0;
  }

  /** The other chain: `get_exptime` undoes `get_m5` up to the same
      background correction. Feeding the depth a positive exposure time t
      reaches back into `get_exptime` yields t*10^(0.8*dCm), for every band,
      airmass and sky. */
  lemma ExptimeRoundTrip(t: real, filt: string, airmass: real, twilight: bool,
                         log10: real -> real, pow10: real -> real)
    requires filt in Params && t > 0.0
    requires forall a :: pow10(a) > 0.0
    requires forall p :: p > 0.0 ==> pow10(log10(p)) == p
    requires forall a, c :: pow10(a + c) == pow10(a) * pow10(c)
    ensures GetM5(t, filt, airmass, twilight, log10, pow10).Success?
    ensures
      var m5 := GetM5(t, filt, airmass, twilight, log10, pow10).value;
      var b := Params[filt];
      var tscale := TScale(t, b, SelectSky(b, twilight), pow10);
      tscale > 0.0
      && GetExptime(m5, filt, airmass, twilight, log10, pow10)
           == Success(t * pow10(0.8 * BackgroundCorrection(b.dCmInf, tscale, log10, pow10)))
  {
    ShiftByLog(t / 30.0, log10, pow10);
    ExptimeRoundTripAt(t, filt, airmass, twilight, log10, pow10);
  }

  /** Shifting the exponent by log10(q) multiplies pow10 by q, for q > 0. */
  lemma ShiftByLog(q: real, log10: real -> real, pow10: real -> real)
    requires q > 0.0
    requires forall p :: p > 0.0 ==> pow10(log10(p)) == p
    requires forall a, c :: pow10(a + c) == pow10(a) * pow10(c)
    ensures forall a :: pow10(a + log10(q)) == pow10(a) * q
  {
  }

  /** The round trip for one t, given only the shift law at log10(t/30). */
  lemma ExptimeRoundTripAt(t: real, filt: string, airmass: real, twilight: bool,
                           log10: real -> real, pow10: real -> real)
    requires filt in Params && t > 0.0
    requires forall a :: pow10(a) > 0.0
    requires forall a :: pow10(a + log10(t / 30.0)) == pow10(a) * (t / 30.0)
    ensures GetM5(t, filt, airmass, twilight, log10, pow10).Success?
    ensures
      var m5 := GetM5(t, filt, airmass, twilight, log10, pow10).value;
      var b := Params[filt];
      var tscale := TScale(t, b, SelectSky(b, twilight), pow10);
      tscale > 0.0
      && GetExptime(m5, filt, airmass, twilight, log10, pow10)
           == Success(t * pow10(0.8 * BackgroundCorrection(b.dCmInf, tscale, log10, pow10)))
  {
    var dCm := DepthOfExptime(t, filt, airmass, twilight, log10, pow10);
    var m5 := GetM5(t, filt, airmass, twilight, log10, pow10).value;
    ExptimeOfExponent(m5, filt, airmass, twilight, log10, pow10);
    assert pow10(0.8 * dCm + log10(t / 30.0)) == pow10(0.8 * dCm) * (t / 30.0);
    ScaledBack(t, pow10(0.8 * dCm), t / 30.0);
  }

  /** `get_exptime` is 30 s times pow10 of its exponent. */
  lemma ExptimeOfExponent(m5: real, filt: string, airmass: real, twilight: bool,
                          log10: real -> real, pow10: real -> real)
    requires filt in Params
    ensures WellFormed(Params[filt])
    ensures GetExptime(m5, filt, airmass, twilight, log10, pow10)
              == Success(30.0 * pow10(ExptimeExponent(m5, Params[filt], SelectSky(Params[filt], twilight),
                                                      airmass, log10)))
  {
    TableShape(filt);
  }

  /** 30*(s*(t/30)) == t*s. */
  lemma ScaledBack(t: real, s: real, q: real)
    requires q == t / 30.0
    ensures 30.0 * (s * q) == t * s
  {
  }

  /** The depth a positive exposure time t reaches, seen from `get_exptime`:
      its exponent is 0.8*dCm + log10(t/30), with dCm the background
      correction of `get_m5`. */
  lemma DepthOfExptime(t: real, filt: string, airmass: real, twilight: bool,
                       log10: real -> real, pow10: real -> real) returns (dCm: real)
    requires filt in Params && t > 0.0
    requires forall a :: pow10(a) > 0.0
    ensures TScale(t, Params[filt], SelectSky(Params[filt], twilight), pow10) > 0.0
    ensures dCm == BackgroundCorrection(Params[filt].dCmInf,
                                        TScale(t, Params[filt], SelectSky(Params[filt], twilight), pow10),
                                        log10, pow10)
    ensures GetM5(t, filt, airmass, twilight, log10, pow10) == Success(GetM5(t, filt, airmass, twilight, log10, pow10).value)
    ensures WellFormed(Params[filt])
    ensures ExptimeExponent(GetM5(t, filt, airmass, twilight, log10, pow10).value,
                            Params[filt], SelectSky(Params[filt], twilight), airmass, log10)
              == 0.8 * dCm + log10(t / 30.0)
  {
    TableShape(filt);
    var b := Params[filt];
    var sky := SelectSky(b, twilight);
    var p := pow10(SkyRatioExponent(b, sky));
    var tscale := TScale(t, b, sky, pow10);
    assert tscale == (t / 30.0) * p;
    assert tscale > 0.0;
    dCm := BackgroundCorrection(b.dCmInf, tscale, log10, pow10);
  }

  /** One instance of pow10 turning sums into products. */
  lemma PowerOfSum(pow10: real -> real, a: real, c: real)
    requires forall a, c :: pow10(a + c) == pow10(a) * pow10(c)
    ensures pow10(a + c) == pow10(a) * pow10(c)
  {
  }

  /** With `twilight` set, a band without twilight constants computes with
      the sentinel -99.0 for sky and seeing, so `get_exptime` and `get_m5`
      take the logarithm of a negative number (not a number in floating
      point) instead of raising. */
  lemma TwilightSentinelLogArgument(filt: string)
    requires filt in Params && filt !in TwilightBands
    ensures WellFormed(Params[filt])
    ensures SelectSky(Params[filt], true) == Sky(Sentinel, Sentinel)
    ensures 0.7 / SelectSky(Params[filt], true).fwhm < 0.0
  {
    SelectSkyByBand(filt, true);
  }

  /** The sky-ratio exponent of Tscale compares against the dark sky: it is 0
      without twilight, so Tscale is exptime/30 for any pow10 with
      pow10(0) == 1, and it is positive with twilight, for the real twilight
      values and for the sentinel alike. */
  lemma SkyRatioAgainstDarkSky(exptime: real, filt: string, twilight: bool, pow10: real -> real)
    requires filt in Params
    requires pow10(0.0) == 1.0
    ensures WellFormed(Params[filt])
    ensures !twilight ==> SkyRatioExponent(Params[filt], SelectSky(Params[filt], twilight)) == 0.0
    ensures !twilight ==> TScale(exptime, Params[filt], SelectSky(Params[filt], twilight), pow10)
                            == exptime / 30.0
    ensures twilight ==> SkyRatioExponent(Params[filt], SelectSky(Params[filt], twilight)) > 0.0
  {
    SelectSkyByBand(filt, twilight);
  }

  /** `get_m5` fails with ZeroDivisionError exactly for a zero exposure time,
      for any power function with positive values. */
  lemma M5DivisionByZero(exptime: real, filt: string, airmass: real, twilight: bool,
                         log10: real -> real, pow10: real -> real)
    requires filt in Params
    requires forall a :: pow10(a) > 0.0
    ensures (GetM5(exptime, filt, airmass, twilight, log10, pow10) == Failure(ZeroDivisionError))
              <==> exptime == 0.0
  {
    TableShape(filt);
    var b := Params[filt];
    var sky := SelectSky(b, twilight);
    var p := pow10(SkyRatioExponent(b, sky));
    assert p > 0.0;
    assert TScale(exptime, b, sky, pow10) == (exptime / 30.0) * p;
    assert (exptime / 30.0) * p == 0.0 <==> exptime == 0.0;
  }

  /** Raising the airmass by e lowers the depth `get_m5` reaches by k_atm*e. */
  lemma M5AirmassShift(exptime: real, filt: string, airmass: real, e: real, twilight: bool,
                       log10: real -> real, pow10: real -> real)
    requires filt in Params
    ensures GetM5(exptime, filt, airmass + e, twilight, log10, pow10).Success?
              == GetM5(exptime, filt, airmass, twilight, log10, pow10).Success?
    ensures GetM5(exptime, filt, airmass, twilight, log10, pow10).Success? ==>
              GetM5(exptime, filt, airmass + e, twilight, log10, pow10).value
                == GetM5(exptime, filt, airmass, twilight, log10, pow10).value - Params[filt].kAtm * e
  {
  }
}
