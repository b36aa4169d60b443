/** The integer side of the bin fits: the ordering test of three values,
    the split of a bin into thirds for the exponential start values, the
    guards and halves of the linear fit, and the time window cut out of a
    bin with a left-sided binary search of its time column.  The numerical
    fits themselves (log/exp closed form, least squares) are not part of
    this model. */
module Fitting {
  import opened Results
  import opened Bins

  datatype FitFault =
    | Unordered        // fit_exp_const_dx: the three y values are not monotone
    | NoSpacingCheck   // fit_exp_const_dx without spacing_override: `fleq` is not defined
    | LengthMismatch   // do_linear_fit: x and y of different lengths
    | TooFewPoints     // do_linear_fit: fewer than two points

  // ---------------------------------------------------------------------
  // Ordering
  // ---------------------------------------------------------------------

  /** is_ordered(j, k, l): -1 for strictly falling, 1 for strictly rising,
      0 otherwise. */
  function IsOrdered(j: real, k: real, l: real): (r: int)
    ensures r == 1 <==> j < k < l
    ensures r == -1 <==> j > k > l
    ensures r == 0 <==> !(j < k < l) && !(j > k > l)
  {
    if j > k > l then -1
    else if j < k < l then 1
    else 0
  }

  /** The guards of fit_exp_const_dx before its closed form: without the
      spacing override it calls an undefined helper; then the three y values
      must be strictly monotone.  On success, the direction. */
  function ExpFitGuard(y1: real, y2: real, y3: real, spacingOverride: bool): (r: Result<int, FitFault>)
    ensures !spacingOverride ==> r == Err(NoSpacingCheck)
    ensures spacingOverride ==> (r.Err? <==> IsOrdered(y1, y2, y3) == 0)
    ensures r.Err? && spacingOverride ==> r.fault == Unordered
    ensures r.Ok? ==> (r.value == 1 || r.value == -1) && r.value == IsOrdered(y1, y2, y3)
  {
    if !spacingOverride then Err(NoSpacingCheck)
    else if IsOrdered(y1, y2, y3) == 0 then Err(Unordered)
    else Ok(IsOrdered(y1, y2, y3))
  }

  /** The guard passes exactly for strictly monotone y values. */
  lemma ExpFitGuardMonotone(y1: real, y2: real, y3: real)
    ensures ExpFitGuard(y1, y2, y3, true).Ok? <==> (y1 < y2 < y3 || y1 > y2 > y3)
  {
  }

  // ---------------------------------------------------------------------
  // Thirds
  // ---------------------------------------------------------------------

  /** third_markers(n): the two cut points of a split into thirds. */
  function ThirdMarkers(n: nat): (m: (nat, nat))
    ensures m.0 <= m.1 <= n
  {
    var k := n / 3;
    var r := n % 3;
    if r == 0 then (k, k * 2)
    else if r == 1 then (k, k * 2 + 1)
    else (k + 1, 2 * k + 1)
  }

  /** The three pieces differ in size by at most one, and the outer two
      pieces are equal. */
  lemma ThirdsBalanced(n: nat)
    ensures var (m1, m2) := ThirdMarkers(n);
            var a, b, c := m1, m2 - m1, n - m2;
            n / 3 <= a <= n / 3 + 1 && n / 3 <= b <= n / 3 + 1 && n / 3 <= c <= n / 3 + 1
            && a == c && a + b + c == n
  {
  }

  /** split_thirds: the leading, middle and trailing thirds of a bin. */
  function SplitThirds<T>(xs: seq<T>): (p: (seq<T>, seq<T>, seq<T>))
    ensures p.0 + p.1 + p.2 == xs
    ensures |p.0| == ThirdMarkers(|xs|).0 && |p.0| + |p.1| == ThirdMarkers(|xs|).1
  {
    var (m1, m2) := ThirdMarkers(|xs|);
    assert xs == xs[..m1] + xs[m1..m2] + xs[m2..];
    (xs[..m1], xs[m1..m2], xs[m2..])
  }

  // ---------------------------------------------------------------------
  // Linear fit
  // ---------------------------------------------------------------------

  /** The halves do_linear_fit averages for its start values. */
  datatype Halves = Halves(x1: seq<real>, y1: seq<real>, x2: seq<real>, y2: seq<real>)

  /** The guards and the split of do_linear_fit: equal lengths and at least
      two points, then the halves [0, n//2) and [n//2, n). */
  function LinearFitHalves(xs: seq<real>, ys: seq<real>): (r: Result<Halves, FitFault>)
    ensures r.Err? <==> |xs| != |ys| || |xs| < 2
    ensures |xs| != |ys| ==> r == Err(LengthMismatch)
    ensures |xs| == |ys| < 2 ==> r == Err(TooFewPoints)
    ensures r.Ok? ==> r.value.x1 + r.value.x2 == xs && r.value.y1 + r.value.y2 == ys
    ensures r.Ok? ==> |r.value.x1| == |r.value.y1| == |xs| / 2 && |r.value.x2| == |r.value.y2| == |xs| - |xs| / 2
  {
    var n := |xs|;
    if n != |ys| then Err(LengthMismatch)
    else if n < 2 then Err(TooFewPoints)
    else
      assert xs == xs[..n / 2] + xs[n / 2..] && ys == ys[..n / 2] + ys[n / 2..];
      Ok(Halves(xs[..n / 2], ys[..n / 2], xs[n / 2..], ys[n / 2..]))
  }

  /** Both halves hold at least one point, and the second half is never
      shorter than the first. */
  lemma HalvesNonEmpty(xs: seq<real>, ys: seq<real>)
    requires LinearFitHalves(xs, ys).Ok?
    ensures var h := LinearFitHalves(xs, ys).value;
            0 < |h.x1| <= |h.x2| <= |h.x1| + 1
  {
  }

  // ---------------------------------------------------------------------
  // Time window
  // ---------------------------------------------------------------------

  predicate Sorted(ts: seq<real>)
  {
    forall i, j :: 0 <= i < j < |ts| ==> ts[i] <= ts[j]
  }

  /** numpy.searchsorted(ts, t) (side 'left') on a sorted column: the index
      before which t would be inserted, after every smaller entry. */
  function SearchLeft(ts: seq<real>, t: real): (i: nat)
    requires Sorted(ts)
    ensures i <= |ts|
    ensures forall j :: 0 <= j < i ==> ts[j] < t
    ensures forall j :: i <= j < |ts| ==> t <= ts[j]
  {
    if ts == [] || t <= ts[0] then 0 else 1 + SearchLeft(ts[1..], t)
  }

  /** A later time never gets an earlier insertion point. */
  lemma SearchLeftMonotone(ts: seq<real>, t1: real, t2: real)
    requires Sorted(ts)
    ensures t1 <= t2 ==> SearchLeft(ts, t1) <= SearchLeft(ts, t2)
  {
  }

  /** The time column of a bin. */
  function Times(bin: seq<Row>): (ts: seq<real>)
    ensures |ts| == |bin| && forall k :: 0 <= k < |bin| ==> ts[k] == bin[k].time
  {
    seq(|bin|, k requires 0 <= k < |bin| => bin[k].time)
  }

  /** The current column of a bin. */
  function Currents(bin: seq<Row>): (cs: seq<real>)
    ensures |cs| == |bin| && forall k :: 0 <= k < |bin| ==> cs[k] == bin[k].current
  {
    seq(|bin|, k requires 0 <= k < |bin| => bin[k].current)
  }

  /** get_time_interval: the insertion points of tstart and tstop. */
  function TimeInterval(bin: seq<Row>, tstart: real, tstop: real): (w: (nat, nat))
    requires Sorted(Times(bin))
    ensures w.0 <= |bin| && w.1 <= |bin|
    ensures tstart <= tstop ==> w.0 <= w.1
    ensures forall k :: 0 <= k < |bin| ==> (w.0 <= k <==> tstart <= bin[k].time)
    ensures forall k :: 0 <= k < |bin| ==> (k < w.1 <==> bin[k].time < tstop)
  {
    SearchLeftMonotone(Times(bin), tstart, tstop);
    (SearchLeft(Times(bin), tstart), SearchLeft(Times(bin), tstop))
  }

  /** Python's slice a[i:j] for 0 <= i, j <= |a|: empty when i >= j. */
  function Slice<T>(a: seq<T>, i: nat, j: nat): seq<T>
    requires i <= |a| && j <= |a|
  {
    if i <= j then a[i..j] else []
  }

  /** The fit input and the flag do_timed_linear_fit computes. */
  datatype TimedFit = TimedFit(halves: Halves, reachesEnd: bool)

  /** do_timed_linear_fit, up to the least-squares fit: the samples with
      tstart <= time < tstop, split for the linear fit of current against
      time, and whether the window runs to the end of the bin. */
  function TimedLinearFit(bin: seq<Row>, tstart: real, tstop: real): (r: Result<TimedFit, FitFault>)
    requires Sorted(Times(bin))
    ensures r.Ok? ==> (r.value.reachesEnd <==> (bin == [] || bin[|bin| - 1].time < tstop))
    ensures r.Err? ==> r.fault == TooFewPoints
    ensures r.Ok? ==>
              var w := Slice(bin, TimeInterval(bin, tstart, tstop).0, TimeInterval(bin, tstart, tstop).1);
              var h := r.value.halves;
              h.x1 + h.x2 == Times(w) && h.y1 + h.y2 == Currents(w)
              && |h.x1| == |h.y1| == |w| / 2
  {
    var (istart, istop) := TimeInterval(bin, tstart, tstop);
    var window := Slice(bin, istart, istop);
    var h := LinearFitHalves(Times(window), Currents(window));
    if h.Err? then Err(h.fault) else Ok(TimedFit(h.value, istop == |bin|))
  }

  /** The window of the timed fit is exactly the samples with
      tstart <= time < tstop, in order. */
  lemma TimedWindow(bin: seq<Row>, tstart: real, tstop: real, k: nat)
    requires Sorted(Times(bin)) && tstart <= tstop && k < |bin|
    ensures var (i, j) := TimeInterval(bin, tstart, tstop);
            (i <= k < j <==> tstart <= bin[k].time < tstop)
  {
  }

  /** The timed fit fails exactly when fewer than two samples fall in
      [tstart, tstop). */
  lemma TimedFitFails(bin: seq<Row>, tstart: real, tstop: real)
    requires Sorted(Times(bin))
    ensures var (i, j) := TimeInterval(bin, tstart, tstop);
            TimedLinearFit(bin, tstart, tstop).Err? <==> j < i + 2
  {
  }
}
