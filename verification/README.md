# Rubin target-of-opportunity exposure-time calculator, modelled in Dafny

This project models the numerical core of the RubinToO2024 exposure-time
calculator (`etc.py`) and the colour-transformation lookup of
`models/sso_routines.py`:

- the `params` table of per-band photometric constants for the six survey
  filters u, g, r, i, z, y, and the dark-sky / twilight selection of sky
  brightness and seeing (`FilterParams`);
- `get_exptime` and `get_m5`, the conversion between a 5-sigma depth m5 and
  an exposure time for a band, an airmass X and dark or twilight sky
  (`Photometry`);
- `calc_trailing_losses`, the trailing parameter x and the two rational
  arguments of its logarithms (`TrailingLoss`);
- `calc_event_time_budget`, the hours needed to observe one event over
  `n_fields` fields, with readout, first-slew and filter-change overheads
  (`TimeBudget`);
- `transform_Vmag`, the V-band to Pan-STARRS1 passband colour transform
  (`SsoRoutines`).

All arithmetic is exact real arithmetic. The decimal logarithm and the power
of ten are never evaluated: operations take them as function parameters
`log10` and `pow10`, and each lemma states as a requirement the property of
them it relies on (log10 undoes pow10, pow10 is positive, log10 is
non-decreasing, log10(1) = 0, pow10 turns sums into products). What is
proved exactly is everything around them: the table lookups, the twilight
substitution and its -99.0 sentinel, the affine exponents and arguments, the
rational trailing-loss arguments and the closed form of the time budget.

Python exceptions are modelled as `Result.Failure`: KeyError for a filter
outside the table, ZeroDivisionError for `n_fields == 0` in the budget and
for a zero Tscale (a zero exposure time) in `get_m5`. Where numpy would
produce a non-finite float instead (zero seeing, a zero denominator in a
trailing-loss argument, or the logarithm of a trailing-loss argument that is
not positive), the model returns `None`.

Where the code and its documentation differ, the model follows the code:

- Only r, i and z have twilight constants; g falls back to the -99.0
  sentinel as well as u and y.
- `calc_event_time_budget` does not check that `filters` and `exptimes` have
  the same length. The ordinary branch ignores `filters` apart from its
  length, and counts readouts and filter changes with `len(exptimes)`; the
  six-filter branch pairs them with `zip`, which stops at the shorter list.
- In the six-filter branch the weighted visit is computed but never added to
  the totals, so the budget is the first slew alone (see Findings). The
  docstring also names u and z as the scaled bands; the code scales u and y.

## Model

| member | source | states |
|---|---|---|
| FilterParams.Lookup | etc.py:10-59 | `params[filt]` finds a band exactly for the keys u, g, r, i, z, y; every band has positive seeing and extinction |
| FilterParams.TableShape | etc.py:10-59 | every band is well formed; the twilight sky and twilight seeing entries exist exactly for r, i, z; there the twilight sky is brighter and the seeing broader than dark sky |
| FilterParams.SelectSky | etc.py:234-242 | the selected seeing is never zero, and the selected sky is the dark value, the band's twilight value or the -99.0 sentinel |
| FilterParams.SelectSkyByBand | etc.py:278-287 | without twilight m_sky = m_darksky and fwhm = fwhm; with twilight r, i, z use their twilight values and u, g, y get -99.0 for both |
| Photometry.GetExptime | etc.py:213-255 | `get_exptime` raises KeyError exactly for a filter outside the table |
| Photometry.GetM5 | etc.py:258-296 | `get_m5` raises KeyError exactly for a filter outside the table |
| Photometry.ExptimeExponentAffine | etc.py:245-253 | with dCm = 0 the exponent is 0.8*(m5 - Cm - 0.5*(m_sky-21) - 2.5*Log10(0.7/fwhm) + k_atm*(X-1)); raising m5 by d raises it by 0.8*d and raising X by e raises it by 0.8*k_atm*e |
| Photometry.ExptimeScalesWithDepth | etc.py:251-253 | d magnitudes more depth multiply the exposure time by pow10(0.8*d) |
| Photometry.DepthRoundTrip | etc.py:245-294 | feeding the exposure time for depth m5 back into `get_m5` returns m5 plus exactly the dCm that `get_exptime` approximates as 0, with a positive Tscale |
| Photometry.ExptimeRoundTrip | etc.py:245-294 | the other chain: feeding the depth a positive exposure time t reaches back into `get_exptime` returns t*10^(0.8*dCm), with dCm the background correction of `get_m5`, for any pow10 that undoes log10 and turns sums into products |
| Photometry.TwilightSentinelLogArgument | etc.py:240-244 | with twilight, a band without twilight constants computes with sky and seeing -99.0, so the log argument 0.7/fwhm is negative (not a number in floating point, no exception) |
| Photometry.SkyRatioAgainstDarkSky | etc.py:284-291 | the Tscale exponent -0.4*(m_sky - m_darksky) is 0 without twilight, so Tscale = exptime/30, and positive with twilight for real and sentinel values alike |
| Photometry.M5DivisionByZero | etc.py:291-292 | `get_m5` raises ZeroDivisionError exactly when the exposure time is 0 |
| Photometry.M5AirmassShift | etc.py:293-294 | raising the airmass by e lowers the depth by k_atm*e and does not change whether `get_m5` succeeds |
| TrailingLoss.TrailingParameter | etc.py:104 | x is finite exactly for non-zero seeing, is 0 for zero velocity or exposure, and is non-negative for non-negative inputs |
| TrailingLoss.LogArgument | etc.py:105-106 | the argument 1 + a*x^2/(1+b*x) is non-finite exactly when b*x = -1 |
| TrailingLoss.Magnitudes | etc.py:105-106 | 1.25*log10 of the argument is finite exactly when the argument is finite and positive (`np.log10` gives -inf at 0 and NaN below) |
| TrailingLoss.TrailingLosses | etc.py:100-107 | zero seeing makes both losses non-finite |
| TrailingLoss.LogArgumentAtLeastOne | etc.py:105-106 | for x >= 0 both arguments are finite and at least 1, and exactly 1 at x = 0 |
| TrailingLoss.LogArgumentMonotone | etc.py:105-106 | for 0 <= x <= y the argument at x is at most the argument at y |
| TrailingLoss.NoMotionNoLoss | etc.py:104-106 | zero velocity gives x = 0, both arguments 1 and, with log10(1) = 0, both losses 0 |
| TrailingLoss.LossesMonotoneInVelocity | etc.py:104-106 | for positive seeing and non-negative exposure both losses are finite and non-decreasing in velocity >= 0, for any non-decreasing logarithm |
| TrailingLoss.LossesNonNegative | etc.py:104-106 | for non-negative inputs and positive seeing both losses are finite and non-negative |
| TrailingLoss.DetectVersusTrail | etc.py:100-106 | for x > 0 the detection argument is at least the trailing argument exactly when 0.485757*x >= 0.341 (x from about 0.702 on); the arguments cross there, so the detection loss is not the larger one for small x |
| TrailingLoss.DefaultTrailingParameter | etc.py:62-104 | the default inputs 2 deg/day, 0.8 arcsec, 30 s give x = 3.125 |
| TimeBudget.CombineExposures | etc.py:166-174 | with one filter per exposure time the weighted visit is sum(exptimes) less 16/30 of the u exposures and 14/30 of the y exposures; it is the plain sum when neither u nor y is listed; for non-negative times it never exceeds the sum, and is at least 14/30 of it when zip keeps every exposure |
| TimeBudget.CombinedExposureSplit | etc.py:166-174 | with one filter per exposure time the weighted visit equals sum(exptimes) - 16/30*(u exposures) - 14/30*(y exposures) |
| TimeBudget.CombinedExposureBounds | etc.py:166-174 | for non-negative exposure times the weighted visit is at most sum(exptimes), and at least 14/30 of it when there are at least as many filters as exposure times |
| TimeBudget.CombinedExposureAnyOrder | etc.py:166-174 | for six distinct filters including u and y, in any order, the weighted visit is the sum less 16/30 of the u exposure and 14/30 of the y exposure |
| TimeBudget.CombinedExposureUgrizy | etc.py:166-174 | for filters u, g, r, i, z, y the weighted exposure is 14/30*e_u + e_g + e_r + e_i + e_z + 16/30*e_y |
| TimeBudget.EventTimeBudget | etc.py:196-204 | the budget raises ZeroDivisionError exactly when n_fields is 0 |
| TimeBudget.BudgetClosedForm | etc.py:176-204 | outside the six-filter case the budget is (sum(exptimes)*n + 7*len(exptimes)*n + 30/n + 120*len(exptimes)/n)/3600 hours |
| TimeBudget.BudgetIgnoresFilters | etc.py:158-179 | outside the six-filter case the budget does not depend on the filter names or their number, only on the exposure times |
| TimeBudget.BudgetDefaults | etc.py:109-204 | one field with ['griz'] and four 30 s exposures takes 658/3600 h; two fields take 551/3600 h |
| TimeBudget.SixFilterBudget | etc.py:158-204 | with six filters the budget is 30/n_fields/3600 h whatever the exposure times |
| TimeBudget.SumMonotone | etc.py:181 | raising exposure times never lowers their sum |
| TimeBudget.BudgetMonotoneInExposure | etc.py:181-204 | for n_fields > 0 the budget is non-decreasing when any exposure time increases |
| TimeBudget.PerFieldCostNonIncreasing | etc.py:194-204 | for 0 < n1 <= n2 the cost per field budget/n at n2 is at most that at n1 |
| TimeBudget.CorrectedEventTimeBudget | etc.py:158-186 | the corrected budget raises exactly for n_fields = 0 and equals the budget as written outside the six-filter case |
| TimeBudget.CorrectedSixFilterBudget | etc.py:158-174 | with six filters the corrected budget is (combined*n + 28*n + 30/n + 600/n)/3600 h |
| TimeBudget.CorrectedBudgetMonotoneInExposure | etc.py:158-204 | the corrected budget is non-decreasing in every exposure time for n_fields > 0, six filters included |
| TimeBudget.SixFilterDiscrepancy | etc.py:158-204 | one field, filters u, g, r, i, z, y and six 30 s exposures: 30/3600 h as written, 808/3600 h corrected |
| SsoRoutines.TableKeys | models/sso_routines.py:142-149 | the taxonomy lookup finds exactly the eight upper-case keys and the passband lookup exactly g, r, i, z, Y, w |
| SsoRoutines.TableEntries | models/sso_routines.py:142-149 | every taxonomy and passband is found under its own key, and no tabulated colour is 0 |
| SsoRoutines.TransformVmag | models/sso_routines.py:113-165 | `transform_Vmag` returns a value exactly when the upper-cased taxonomy and the passband (case as given) are keys of the table, so the truthiness tests never drop a tabulated pair, and then V minus the value is the tabulated colour |
| SsoRoutines.TaxonomyCaseInsensitive | models/sso_routines.py:153 | any spelling of the taxonomy gives the same result as its upper-case and its lower-case form |
| SsoRoutines.PassbandCaseSensitive | models/sso_routines.py:142-159 | passbands 'y' and 'u' always give None, while 'Y' gives a value exactly for a known taxonomy |
| SsoRoutines.TransformExamples | models/sso_routines.py:113-163 | 'Mean' or 'mean' with 'r' gives V - 0.230, 'neo' with 'Y' gives V - 0.314, and 'V' gives None |

## Left out

- Numeric evaluation of `10 **` and `np.log10`: they are parameters, so the reference exposure times of the tests (30.0954 s and so on) and the reference trailing losses (0.5197, 0.8806) are not reproduced.
- Floating-point behaviour: rounding, overflow, NaN and infinity. The NaN of the twilight u, g, y computations is shown only as a negative log argument; non-finite trailing values (zero seeing, a zero denominator, log10 of a non-positive argument) are `None`.
- The astropy `@u.quantity_input` unit check and `.to(...)` conversions of `calc_trailing_losses`: library behaviour; inputs are reals already in deg/day, arcsec and seconds, so the dimension error for unit-less inputs is not modelled.
- `print` diagnostics of the budget and `warnings.simplefilter` of the twilight path: side effects that do not affect any result.
- `overhead_slew_settle`: declared in the budget but never used.
- `zp`: carried in the table but used by no modelled operation.
- SsoRoutines.TransformVmag: `str.upper()` is modelled on ASCII letters only; Python's Unicode upper case also maps a few other characters onto table keys (the long s U+017F becomes 'S').
- TrailingLoss.TrailingLosses: `calc_trailing_losses` also accepts arrays and returns one pair of losses per element; the model covers one element (a scalar call) of such a vectorised call.
- `get_horizons_ephem` and `query_close_approachers`: network queries and astropy time conversion, outside the computational core.

## Findings

| source | as written | input that shows it | evidently intended | confidence | as-written member | corrected member |
|---|---|---|---|---|---|---|
| etc.py:158-174 | the six-filter branch computes the u/y-weighted `exptime_visit` and the visit overheads but never adds them to `exptime_total` or the overhead totals, so the budget is the first slew alone | n_fields = 1, filters u, g, r, i, z, y, six 30 s exposures: 30/3600 h | add the weighted visit, 4 readouts and 5 filter changes to the totals as the ordinary branch does: 808/3600 h | high; not executed | TimeBudget.SixFilterDiscrepancy | TimeBudget.CorrectedBudgetMonotoneInExposure |
