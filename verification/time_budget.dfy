/** The event time budget of etc.py (`calc_event_time_budget`): the hours
    needed to observe one target-of-opportunity event over `n_fields` fields
    with a list of filters and per-exposure times, including readout,
    first-slew and filter-change overheads.

    The model follows the code, including two behaviours its documentation
    does not describe: the overhead counts of the ordinary branch use the
    number of exposure times, not the number of filters, and the six-filter
    branch computes its visit (with u and y weighted by the nights each is
    mounted) but never adds it to the totals. */
module TimeBudget {
  import opened Wrappers

  /** Overheads, in seconds. */
  const OverheadBetweenExposures: real := 7.0
  const OverheadFirstSlew: real := 30.0
  const OverheadFilterChange: real := 120.0

  /** The fraction of nights on which the u filter is mounted; y takes the rest. */
  const UDaysRatio: real := 14.0 / 30.0

  /** The exception the budget can raise: division by a zero field count. */
  datatype Error = ZeroDivisionError

  /** `np.sum` of a list of exposure times. */
  function Sum(xs: seq<real>): real {
    if |xs| == 0 then 0.0 else xs[0] + Sum(xs[1..])
  }

  /** The weight of one exposure in the six-filter visit. */
  function NightWeight(filt: string): real {
    if filt == "u" then UDaysRatio
    else if filt == "y" then 1.0 - UDaysRatio
    else 1.0
  }

  /** The weighted exposure of the six-filter visit, over the pairs `zip`
      forms (it stops at the shorter list). */
  function CombinedExposure(filters: seq<string>, exptimes: seq<real>): real
    decreases |filters|
  {
    if |filters| == 0 || |exptimes| == 0 then 0.0
    else NightWeight(filters[0]) * exptimes[0] + CombinedExposure(filters[1..], exptimes[1..])
  }

  /** The exposure time paired by `zip` with the filter `name`. */
  function ExposureIn(filters: seq<string>, exptimes: seq<real>, name: string): real
    decreases |filters|
  {
    if |filters| == 0 || |exptimes| == 0 then 0.0
    else (if filters[0] == name then exptimes[0] else 0.0) + ExposureIn(filters[1..], exptimes[1..], name)
  }

  /** The `for filt, exptime in zip(filters, exptimes)` loop of the six-filter
      branch. With one filter per exposure time the visit is the plain sum
      less 16/30 of the u exposures and 14/30 of the y exposures, so for
      non-negative times it lies between 14/30 of the sum and the sum, and
      it is the plain sum when neither u nor y is among the filters. */
  method CombineExposures(filters: seq<string>, exptimes: seq<real>) returns (visit: real)
    ensures visit == CombinedExposure(filters, exptimes)
    ensures |filters| == |exptimes| ==>
              visit == Sum(exptimes) - 16.0 / 30.0 * ExposureIn(filters, exptimes, "u")
                                     - 14.0 / 30.0 * ExposureIn(filters, exptimes, "y")
    ensures |filters| == |exptimes| && "u" !in filters && "y" !in filters ==> visit == Sum(exptimes)
    ensures (forall i :: 0 <= i < |exptimes| ==> exptimes[i] >= 0.0) ==> visit <= Sum(exptimes)
    ensures (forall i :: 0 <= i < |exptimes| ==> exptimes[i] >= 0.0) && |filters| >= |exptimes| ==>
              14.0 / 30.0 * Sum(exptimes) <= visit
  {
    visit := 0.0;
    var k := 0;
    while k < |filters| && k < |exptimes|
      invariant 0 <= k <= |filters| && k <= |exptimes|
      invariant visit + CombinedExposure(filters[k..], exptimes[k..]) == CombinedExposure(filters, exptimes)
    {
      var filt := filters[k];
      var exptime := exptimes[k];
      if filt == "u" {
        visit := visit + exptime * UDaysRatio;
      } else if filt == "y" {
        visit := visit + exptime * (1.0 - UDaysRatio);
      } else {
        visit := visit + exptime;
      }
      assert filters[k..][1..] == filters[k + 1..];
      assert exptimes[k..][1..] == exptimes[k + 1..];
      k := k + 1;
    }
    if |filters| == |exptimes| {
      CombinedExposureSplit(filters, exptimes);
      if "u" !in filters && "y" !in filters {
        ExposureInAbsent(filters, exptimes, "u");
        ExposureInAbsent(filters, exptimes, "y");
      }
    }
    if forall i :: 0 <= i < |exptimes| ==> exptimes[i] >= 0.0 {
      CombinedExposureBounds(filters, exptimes);
    }
  }

  /** With one filter per exposure time, the weighted visit is the plain sum
      less the night fraction each of u and y is unmounted: 16/30 of the u
      exposures and 14/30 of the y exposures. */
  lemma {:induction false} CombinedExposureSplit(filters: seq<string>, exptimes: seq<real>)
    requires |filters| == |exptimes|
    ensures CombinedExposure(filters, exptimes)
              == Sum(exptimes) - 16.0 / 30.0 * ExposureIn(filters, exptimes, "u")
                               - 14.0 / 30.0 * ExposureIn(filters, exptimes, "y")
    decreases |filters|
  {
    if |filters| > 0 {
      CombinedExposureSplit(filters[1..], exptimes[1..]);
    }
  }

  /** A filter that is not in the list is paired with no exposure time. */
  lemma {:induction false} ExposureInAbsent(filters: seq<string>, exptimes: seq<real>, name: string)
    requires name !in filters
    ensures ExposureIn(filters, exptimes, name) == 0.0
    decreases |filters|
  {
    if |filters| > 0 && |exptimes| > 0 {
      assert filters[0] != name;
      assert name !in filters[1..];
      ExposureInAbsent(filters[1..], exptimes[1..], name);
    }
  }

  /** A filter that occurs once, at position i, is paired with exptimes[i]. */
  lemma {:induction false} ExposureInOnce(filters: seq<string>, exptimes: seq<real>, name: string, i: int)
    requires 0 <= i < |filters| && i < |exptimes|
    requires filters[i] == name
    requires forall j :: 0 <= j < |filters| && j != i ==> filters[j] != name
    ensures ExposureIn(filters, exptimes, name) == exptimes[i]
    decreases |filters|
  {
    if i == 0 {
      assert name !in filters[1..] by {
        forall j | 0 <= j < |filters[1..]|
          ensures filters[1..][j] != name
        {
          assert filters[1..][j] == filters[j + 1];
        }
      }
      ExposureInAbsent(filters[1..], exptimes[1..], name);
    } else {
      assert filters[0] != name;
      forall j | 0 <= j < |filters[1..]| && j != i - 1
        ensures filters[1..][j] != name
      {
        assert filters[1..][j] == filters[j + 1];
      }
      ExposureInOnce(filters[1..], exptimes[1..], name, i - 1);
    }
  }

  /** For non-negative exposure times every weight lies between 14/30 and 1,
      so the visit is at most the plain sum, and at least 14/30 of it when
      `zip` keeps every exposure time. */
  lemma {:induction false} CombinedExposureBounds(filters: seq<string>, exptimes: seq<real>)
    requires forall i :: 0 <= i < |exptimes| ==> exptimes[i] >= 0.0
    ensures CombinedExposure(filters, exptimes) <= Sum(exptimes)
    ensures |filters| >= |exptimes| ==> 14.0 / 30.0 * Sum(exptimes) <= CombinedExposure(filters, exptimes)
    decreases |exptimes|
  {
    if |exptimes| > 0 {
      var e := exptimes[0];
      assert e >= 0.0;
      assert forall i :: 0 <= i < |exptimes[1..]| ==> exptimes[1..][i] == exptimes[i + 1];
      if |filters| > 0 {
        CombinedExposureBounds(filters[1..], exptimes[1..]);
        var w := NightWeight(filters[0]);
        assert 14.0 / 30.0 <= w <= 1.0;
        assert 14.0 / 30.0 * e <= w * e <= e;
      } else {
        SumNonNegative(exptimes);
      }
    }
  }

  /** The sum of non-negative exposure times is non-negative. */
  lemma {:induction false} SumNonNegative(xs: seq<real>)
    requires forall i :: 0 <= i < |xs| ==> xs[i] >= 0.0
    ensures Sum(xs) >= 0.0
    decreases |xs|
  {
    if |xs| > 0 {
      assert forall i :: 0 <= i < |xs[1..]| ==> xs[1..][i] == xs[i + 1];
      SumNonNegative(xs[1..]);
    }
  }

  /** Six distinct filters including u and y, in any order: the visit weights
      the u exposure 14/30 and the y exposure 16/30 and sums the other four
      unweighted. */
  lemma CombinedExposureAnyOrder(filters: seq<string>, exptimes: seq<real>, iu: int, iy: int)
    requires |filters| == 6 && |exptimes| == 6
    requires forall j, k :: 0 <= j < k < 6 ==> filters[j] != filters[k]
    requires 0 <= iu < 6 && filters[iu] == "u"
    requires 0 <= iy < 6 && filters[iy] == "y"
    ensures CombinedExposure(filters, exptimes)
              == Sum(exptimes) - exptimes[iu] * 16.0 / 30.0 - exptimes[iy] * 14.0 / 30.0
  {
    CombinedExposureSplit(filters, exptimes);
    ExposureInOnce(filters, exptimes, "u", iu);
    ExposureInOnce(filters, exptimes, "y", iy);
  }

  /** What one visit costs, in seconds, before anything is totalled. */
  datatype Visit = Visit(exposure: real, betweenExposures: real, filterChange: real)

  /** The visit of either branch: with six filters, 4 readouts, 5 filter
      changes and the weighted exposure; otherwise one readout and one filter
      change per exposure time and the plain sum of the exposure times. */
  function VisitCost(filters: seq<string>, exptimes: seq<real>): Visit {
    if |filters| == 6 then
      Visit(CombinedExposure(filters, exptimes),
            OverheadBetweenExposures * 4.0,
            OverheadFilterChange * 5.0)
    else
      Visit(Sum(exptimes),
            OverheadBetweenExposures * (|exptimes| as real),
            OverheadFilterChange * (|exptimes| as real))
  }

  /** The running totals after the main calculation, in seconds. */
  datatype Totals = Totals(exposure: real, betweenExposures: real, filterChange: real, firstSlew: real)

  /** The totals: the first slew is always charged, but only the ordinary
      branch adds its visit; the six-filter branch leaves the other totals 0. */
  function EventTotals(filters: seq<string>, exptimes: seq<real>): Totals {
    var visit := VisitCost(filters, exptimes);
    if |filters| == 6 then Totals(0.0, 0.0, 0.0, OverheadFirstSlew)
    else Totals(visit.exposure, visit.betweenExposures, visit.filterChange, OverheadFirstSlew)
  }

  /** The totals converted to hours for `n` fields: exposure and readouts
      are charged once per field, first slew and filter changes are shared
      out over the fields. */
  function Hours(t: Totals, n: real): real
    requires n != 0.0
  {
    var overheads := t.betweenExposures * n / 60.0 / 60.0
                     + t.firstSlew / n / 60.0 / 60.0
                     + t.filterChange / n / 60.0 / 60.0;
    var exposureHours := t.exposure / 60.0 / 60.0;
    exposureHours * n + overheads
  }

  /** `calc_event_time_budget(n_fields, filters, exptimes)`, in hours; a zero
      field count raises ZeroDivisionError. */
  function EventTimeBudget(nFields: int, filters: seq<string>, exptimes: seq<real>): (r: Result<real, Error>)
    ensures r.Failure? <==> nFields == 0
  {
    if nFields == 0 then Failure(ZeroDivisionError)
    else Success(Hours(EventTotals(filters, exptimes), nFields as real))
  }

  /** The hours, gathered over the common denominator 3600. */
  lemma HoursForm(exposure: real, betweenExposures: real, filterChange: real, firstSlew: real, n: real)
    requires n != 0.0
    ensures Hours(Totals(exposure, betweenExposures, filterChange, firstSlew), n)
              == (exposure * n + betweenExposures * n + firstSlew / n + filterChange / n) / 3600.0
  {
    assert exposure / 60.0 / 60.0 * n == (exposure * n) / 3600.0;
    assert betweenExposures * n / 60.0 / 60.0 == (betweenExposures * n) / 3600.0;
  }

  /** The totals outside the six-filter case. */
  lemma OrdinaryTotals(filters: seq<string>, exptimes: seq<real>)
    requires |filters| != 6
    ensures EventTotals(filters, exptimes)
              == Totals(Sum(exptimes), 7.0 * (|exptimes| as real), 120.0 * (|exptimes| as real), 30.0)
  {
  }

  /** The budget outside the six-filter case written out for n fields,
      exposure times summing to `total` and `count` exposures:
      (total*n + 7*count*n + 30/n + 120*count/n) / 3600 hours. */
  function ClosedFormHours(n: real, total: real, count: real): real
    requires n != 0.0
  {
    (total * n + 7.0 * count * n + 30.0 / n + 120.0 * count / n) / 3600.0
  }

  /** Outside the six-filter case the budget is the closed form: exposure and
      readouts scale with the field count, first slew and filter changes are
      divided by it, and both overhead counts are the number of exposure
      times. */
  lemma BudgetClosedForm(nFields: int, filters: seq<string>, exptimes: seq<real>)
    requires nFields != 0 && |filters| != 6
    ensures EventTimeBudget(nFields, filters, exptimes)
              == Success(ClosedFormHours(nFields as real, Sum(exptimes), |exptimes| as real))
  {
    OrdinaryTotals(filters, exptimes);
    OrdinaryHours(nFields as real, Sum(exptimes), |exptimes| as real);
  }

  /** The hours of the ordinary totals are the closed form. */
  lemma OrdinaryHours(n: real, total: real, count: real)
    requires n != 0.0
    ensures Hours(Totals(total, 7.0 * count, 120.0 * count, 30.0), n) == ClosedFormHours(n, total, count)
  {
    HoursForm(total, 7.0 * count, 120.0 * count, 30.0, n);
  }

  /** The budget outside the six-filter case does not depend on the filter
      names or their number: the default `['griz']`, a single string, is
      charged as many readouts and filter changes as there are exposures. */
  lemma BudgetIgnoresFilters(nFields: int, filters: seq<string>, other: seq<string>, exptimes: seq<real>)
    requires |filters| != 6 && |other| != 6
    ensures EventTimeBudget(nFields, filters, exptimes) == EventTimeBudget(nFields, other, exptimes)
  {
  }

  /** The defaults: one field with `['griz']` and four 30 s exposures takes
      658 s, two fields take 551 s. */
  lemma BudgetDefaults()
    ensures EventTimeBudget(1, ["griz"], [30.0, 30.0, 30.0, 30.0]) == Success(658.0 / 3600.0)
    ensures EventTimeBudget(2, ["griz"], [30.0, 30.0, 30.0, 30.0]) == Success(551.0 / 3600.0)
  {
    var e := [30.0, 30.0, 30.0, 30.0];
    assert Sum(e) == 120.0 by {
      assert e[1..] == [30.0, 30.0, 30.0];
      assert e[1..][1..] == [30.0, 30.0];
      assert e[1..][1..][1..] == [30.0];
    }
    BudgetClosedForm(1, ["griz"], e);
    BudgetClosedForm(2, ["griz"], e);
  }

  /** With six filters the budget is the first slew alone, 30/n_fields s,
      whatever the exposure times: the weighted visit and its overheads are
      computed but never added to the totals. */
  lemma SixFilterBudget(nFields: int, filters: seq<string>, exptimes: seq<real>)
    requires nFields != 0 && |filters| == 6
    ensures EventTimeBudget(nFields, filters, exptimes) == Success(30.0 / (nFields as real) / 3600.0)
  {
    HoursForm(0.0, 0.0, 0.0, 30.0, nFields as real);
  }

  /** For six filters named u, g, r, i, z, y the visit weights u by 14/30 and
      y by 16/30 and sums the other four unweighted. */
  lemma CombinedExposureUgrizy(e: seq<real>)
    requires |e| == 6
    ensures CombinedExposure(["u", "g", "r", "i", "z", "y"], e)
              == e[0] * 14.0 / 30.0 + e[1] + e[2] + e[3] + e[4] + e[5] * 16.0 / 30.0
  {
    var f := ["u", "g", "r", "i", "z", "y"];
    assert f[1..] == ["g", "r", "i", "z", "y"];
    assert f[2..] == ["r", "i", "z", "y"];
    assert f[3..] == ["i", "z", "y"];
    assert f[4..] == ["z", "y"];
    assert f[5..] == ["y"];
    assert f[1..][1..] == f[2..] && e[1..][1..] == e[2..];
    assert f[2..][1..] == f[3..] && e[2..][1..] == e[3..];
    assert f[3..][1..] == f[4..] && e[3..][1..] == e[4..];
    assert f[4..][1..] == f[5..] && e[4..][1..] == e[5..];
    assert CombinedExposure(f[5..], e[5..]) == e[5] * 16.0 / 30.0 by {
      assert f[5..][1..] == [];
    }
  }

  /** Raising exposure times never lowers the sum. */
  lemma {:induction false} SumMonotone(xs: seq<real>, ys: seq<real>)
    requires |xs| == |ys|
    requires forall i :: 0 <= i < |xs| ==> xs[i] <= ys[i]
    ensures Sum(xs) <= Sum(ys)
    decreases |xs|
  {
    if |xs| > 0 {
      SumMonotone(xs[1..], ys[1..]);
    }
  }

  /** For a positive field count the budget is non-decreasing when any
      exposure time increases (in the six-filter case it does not move). */
  lemma BudgetMonotoneInExposure(nFields: int, filters: seq<string>, xs: seq<real>, ys: seq<real>)
    requires nFields > 0
    requires |xs| == |ys|
    requires forall i :: 0 <= i < |xs| ==> xs[i] <= ys[i]
    ensures EventTimeBudget(nFields, filters, xs).Success?
    ensures EventTimeBudget(nFields, filters, xs).value <= EventTimeBudget(nFields, filters, ys).value
  {
    if |filters| != 6 {
      SumMonotone(xs, ys);
      BudgetClosedForm(nFields, filters, xs);
      BudgetClosedForm(nFields, filters, ys);
      var n := nFields as real;
      assert Sum(xs) * n <= Sum(ys) * n;
    }
  }

  /** The cost per field, budget/n_fields, is non-increasing in the field
      count: per field it is (sum + 7*|exptimes|)/3600 plus the amortised
      (30 + 120*|exptimes|)/(3600*n_fields^2), and with six filters the
      amortised first slew alone. */
  lemma PerFieldCostNonIncreasing(n1: int, n2: int, filters: seq<string>, exptimes: seq<real>)
    requires 0 < n1 <= n2
    ensures EventTimeBudget(n1, filters, exptimes).Success?
    ensures EventTimeBudget(n2, filters, exptimes).value / (n2 as real)
              <= EventTimeBudget(n1, filters, exptimes).value / (n1 as real)
  {
    var a := n1 as real;
    var b := n2 as real;
    if |filters| == 6 {
      SixFilterBudget(n1, filters, exptimes);
      SixFilterBudget(n2, filters, exptimes);
      SlewPerField(a);
      SlewPerField(b);
      InverseSquareNonIncreasing(30.0, a, b);
    } else {
      var s := Sum(exptimes);
      var k := |exptimes| as real;
      BudgetClosedForm(n1, filters, exptimes);
      BudgetClosedForm(n2, filters, exptimes);
      ClosedFormPerField(a, s, k);
      ClosedFormPerField(b, s, k);
      InverseSquareNonIncreasing(30.0 + 120.0 * k, a, b);
    }
  }

  /** The six-filter budget per field: 30/n^2 s. */
  lemma SlewPerField(n: real)
    requires n != 0.0
    ensures 30.0 / n / 3600.0 / n == 30.0 / n / n / 3600.0
  {
  }

  /** The closed form per field: a part that does not depend on n plus
      (30 + 120*count)/n^2, over 3600. */
  lemma ClosedFormPerField(n: real, total: real, count: real)
    requires n != 0.0
    ensures ClosedFormHours(n, total, count) / n
              == (total + 7.0 * count) / 3600.0 + (30.0 + 120.0 * count) / n / n / 3600.0
  {
    var c := 30.0 + 120.0 * count;
    assert 30.0 / n + 120.0 * count / n == c / n;
    assert (total * n + 7.0 * count * n) / n == total + 7.0 * count;
  }

  /** c/n/n does not grow with n for c >= 0 and n > 0. */
  lemma InverseSquareNonIncreasing(c: real, a: real, b: real)
    requires c >= 0.0 && 0.0 < a <= b
    ensures c / b / b <= c / a / a
  {
    InverseNonIncreasing(c, a, b);
    InverseNonIncreasing(c / b, a, b);
    assert c / b / a <= c / a / a by {
      DivideMonotone(c / b, c / a, a);
    }
  }

  /** Dividing by a positive number keeps the order. */
  lemma DivideMonotone(x: real, y: real, d: real)
    requires x <= y && d > 0.0
    ensures x / d <= y / d
  {
  }

  /** c/q <= c/p, both non-negative, for c >= 0 and 0 < p <= q. */
  lemma InverseNonIncreasing(c: real, p: real, q: real)
    requires c >= 0.0 && 0.0 < p <= q
    ensures 0.0 <= c / q <= c / p
  {
    var u := c / q;
    var w := c / p;
    assert u * q == c;
    assert w * p == c;
    assert u >= 0.0;
    assert u * p <= u * q;
    assert u * p <= w * p;
  }

  /** The six-filter branch as its comments describe it: the weighted visit,
      its 4 readouts and its 5 filter changes are added to the totals the
      same way the ordinary branch adds its visit. */
  function CorrectedEventTotals(filters: seq<string>, exptimes: seq<real>): Totals {
    var visit := VisitCost(filters, exptimes);
    Totals(visit.exposure, visit.betweenExposures, visit.filterChange, OverheadFirstSlew)
  }

  /** The budget with the six-filter branch corrected; it agrees with
      `EventTimeBudget` everywhere else. */
  function CorrectedEventTimeBudget(nFields: int, filters: seq<string>, exptimes: seq<real>): (r: Result<real, Error>)
    ensures r.Failure? <==> nFields == 0
    ensures |filters| != 6 ==> r == EventTimeBudget(nFields, filters, exptimes)
  {
    if nFields == 0 then Failure(ZeroDivisionError)
    else Success(Hours(CorrectedEventTotals(filters, exptimes), nFields as real))
  }

  /** With six filters the corrected budget charges the weighted exposure and
      4 readouts per field, and the first slew and 5 filter changes shared
      over the fields:
      (combined*n + 28*n + 30/n + 600/n) / 3600. */
  lemma CorrectedSixFilterBudget(nFields: int, filters: seq<string>, exptimes: seq<real>)
    requires nFields != 0 && |filters| == 6
    ensures CorrectedEventTimeBudget(nFields, filters, exptimes)
              == Success(ClosedFormHours6(nFields as real, CombinedExposure(filters, exptimes)))
  {
    var n := nFields as real;
    assert CorrectedEventTotals(filters, exptimes)
             == Totals(CombinedExposure(filters, exptimes), 28.0, 600.0, 30.0);
    HoursForm(CombinedExposure(filters, exptimes), 28.0, 600.0, 30.0, n);
  }

  /** The corrected six-filter budget written out for n fields and a
      weighted exposure `combined`. */
  function ClosedFormHours6(n: real, combined: real): real
    requires n != 0.0
  {
    (combined * n + 28.0 * n + 30.0 / n + 600.0 / n) / 3600.0
  }

  /** Raising exposure times never lowers the weighted six-filter exposure:
      every weight is positive. */
  lemma {:induction false} CombinedExposureMonotone(filters: seq<string>, xs: seq<real>, ys: seq<real>)
    requires |xs| == |ys|
    requires forall i :: 0 <= i < |xs| ==> xs[i] <= ys[i]
    ensures CombinedExposure(filters, xs) <= CombinedExposure(filters, ys)
    decreases |filters|
  {
    if |filters| > 0 && |xs| > 0 {
      CombinedExposureMonotone(filters[1..], xs[1..], ys[1..]);
      var w := NightWeight(filters[0]);
      assert w > 0.0;
      assert w * xs[0] <= w * ys[0];
    }
  }

  /** The corrected budget is non-decreasing in every exposure time for a
      positive field count, in the six-filter case too, where the budget as
      written does not depend on the exposure times at all. */
  lemma CorrectedBudgetMonotoneInExposure(nFields: int, filters: seq<string>, xs: seq<real>, ys: seq<real>)
    requires nFields > 0
    requires |xs| == |ys|
    requires forall i :: 0 <= i < |xs| ==> xs[i] <= ys[i]
    ensures CorrectedEventTimeBudget(nFields, filters, xs).Success?
    ensures CorrectedEventTimeBudget(nFields, filters, xs).value
              <= CorrectedEventTimeBudget(nFields, filters, ys).value
  {
    if |filters| == 6 {
      CombinedExposureMonotone(filters, xs, ys);
      CorrectedSixFilterBudget(nFields, filters, xs);
      CorrectedSixFilterBudget(nFields, filters, ys);
      var n := nFields as real;
      assert CombinedExposure(filters, xs) * n <= CombinedExposure(filters, ys) * n;
    } else {
      BudgetMonotoneInExposure(nFields, filters, xs, ys);
    }
  }

  /** The discrepancy on one input: one field, filters u, g, r, i, z, y and
      six 30 s exposures. As written the budget is the 30 s first slew alone;
      corrected it is 808 s (150 s of weighted exposure, 28 s of readouts,
      30 s of slew and 600 s of filter changes). */
  lemma SixFilterDiscrepancy()
    ensures EventTimeBudget(1, ["u", "g", "r", "i", "z", "y"], [30.0, 30.0, 30.0, 30.0, 30.0, 30.0])
              == Success(30.0 / 3600.0)
    ensures CorrectedEventTimeBudget(1, ["u", "g", "r", "i", "z", "y"], [30.0, 30.0, 30.0, 30.0, 30.0, 30.0])
              == Success(808.0 / 3600.0)
  {
    var f := ["u", "g", "r", "i", "z", "y"];
    var e := [30.0, 30.0, 30.0, 30.0, 30.0, 30.0];
    SixFilterBudget(1, f, e);
    CombinedExposureUgrizy(e);
    assert CombinedExposure(f, e) == 150.0;
    CorrectedSixFilterBudget(1, f, e);
  }
}
