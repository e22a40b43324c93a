/** The per-band photometric constants of the six survey filters u, g, r, i, z, y
    (the `params` table of etc.py) and the choice of sky brightness and seeing
    for dark-sky or twilight observing. */
module FilterParams {
  import opened Wrappers

  /** One band's constants. The twilight entries are optional: only some bands have them. */
  datatype Band = Band(
    cm: real,                   // system throughput constant Cm
    dCmInf: real,               // asymptotic readnoise correction dCm_inf
    zp: real,                   // zeropoint
    fwhm: real,                 // dark-sky seeing, arcsec
    fwhmTwilight: Option<real>, // twilight seeing, arcsec
    mDarkSky: real,             // dark-sky brightness, mag/arcsec^2
    mTwilight: Option<real>,    // median twilight-sky brightness, mag/arcsec^2
    kAtm: real                  // extinction coefficient, mag/airmass
  )

  const Params: map<string, Band> := map[
    "u" := Band(22.97, 0.54, 26.52, 0.92, None, 23.05, None, 0.47),
    "g" := Band(24.58, 0.09, 28.51, 0.87, None, 22.25, None, 0.21),
    "r" := Band(24.6, 0.04, 28.36, 0.83, Some(1.43), 21.2, Some(19.47), 0.13),
    "i" := Band(24.54, 0.03, 28.17, 0.80, Some(1.49), 20.46, Some(18.68), 0.10),
    "z" := Band(24.37, 0.02, 27.78, 0.78, Some(1.42), 19.61, Some(17.92), 0.07),
    "y" := Band(23.84, 0.02, 26.82, 0.76, None, 18.6, None, 0.17)
  ]

  /** The bands that have twilight-survey constants. */
  const TwilightBands: set<string> := {"r", "i", "z"}

  /** The value `dict.get` returns for a missing twilight constant. */
  const Sentinel: real := -99.0

  /** `params[filt]`: the band's constants, or None where Python raises KeyError. */
  function Lookup(filt: string): (r: Option<Band>)
    ensures r.Some? <==> filt in {"u", "g", "r", "i", "z", "y"}
    ensures r.Some? ==> r.value.fwhm > 0.0 && r.value.kAtm > 0.0
  {
    if filt in Params then Some(Params[filt]) else None
  }

  /** A band is well formed when every seeing value in it is positive. */
  predicate WellFormed(b: Band) {
    b.fwhm > 0.0 && (b.fwhmTwilight.Some? ==> b.fwhmTwilight.value > 0.0)
  }

  /** Every band in the table has dark-sky values; exactly r, i and z have
      both twilight values, and a twilight sky is brighter (a smaller
      magnitude) and its seeing broader than the dark-sky ones. */
  lemma TableShape(filt: string)
    requires filt in Params
    ensures WellFormed(Params[filt])
    ensures Params[filt].mTwilight.Some? <==> filt in TwilightBands
    ensures Params[filt].fwhmTwilight.Some? <==> filt in TwilightBands
    ensures filt in TwilightBands ==>
              Params[filt].mTwilight.value < Params[filt].mDarkSky
              && Params[filt].fwhmTwilight.value > Params[filt].fwhm
  {
  }

  /** The sky brightness and seeing an observation is computed with. */
  datatype Sky = Sky(mSky: real, fwhm: real)

  /** The selection both `get_exptime` and `get_m5` make: the dark-sky values,
      or with `twilight` set the twilight values, each falling back to the
      sentinel -99.0 when the band has none. */
  function SelectSky(b: Band, twilight: bool): (s: Sky)
    requires WellFormed(b)
    ensures s.fwhm != 0.0
    ensures s.mSky == b.mDarkSky || s.mSky == Sentinel || Some(s.mSky) == b.mTwilight
  {
    if twilight then Sky(b.mTwilight.GetOr(Sentinel), b.fwhmTwilight.GetOr(Sentinel))
    else Sky(b.mDarkSky, b.fwhm)
  }

  /** Selection over the table: without twilight the dark values are used;
      with twilight r, i and z use their twilight values and every other
      band gets the sentinel for both sky brightness and seeing. */
  lemma SelectSkyByBand(filt: string, twilight: bool)
    requires filt in Params
    ensures WellFormed(Params[filt])
    ensures !twilight ==>
              SelectSky(Params[filt], twilight) == Sky(Params[filt].mDarkSky, Params[filt].fwhm)
    ensures twilight && filt in TwilightBands ==>
              SelectSky(Params[filt], twilight)
                == Sky(Params[filt].mTwilight.value, Params[filt].fwhmTwilight.value)
    ensures twilight && filt !in TwilightBands ==>
              SelectSky(Params[filt], twilight) == Sky(Sentinel, Sentinel)
  {
    TableShape(filt);
  }
}
