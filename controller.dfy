/** The chart data the main controller builds from a parsed GCIM file:
    one CDF chart per IM (`plot`), and a spectral-acceleration-against-period
    chart with one line per realization and a median line (`plotSA`). The
    objects are handed to the charting directive; drawing them is not part
    of this model. */
module Controller {
  import opened Types
  import opened Util
  import Parsing

  /** A line of a chart. `drawCircles` and `showLegend` are absent from most
      lines, hence optional. */
  datatype Line = Line(
    name: string,
    isDiscrete: bool,
    drawCircles: Option<bool>,
    showLegend: Option<bool>,
    data: seq<Point>,
    color: string)

  datatype Chart = Chart(xAxisLabel: string, yAxisLabel: string, lines: seq<Line>)

  /** What the controller cannot compute: a `TypeError` from reading a
      property of `undefined`. */
  datatype PlotError = TypeError

  // ---------------------------------------------------------------------
  // plot
  // ---------------------------------------------------------------------

  /** `$scope.plot(data)`: for each of the first `numIMi` IMs, a chart
      labelled with its name holding its target CDF (red) and the step CDF
      of its realizations (blue, with circles). */
  method Plot(data: Gcim) returns (charts: seq<Chart>)
    requires Count(data.numIMi) <= |data.ims|
    ensures |charts| == Count(data.numIMi)
    ensures forall i :: 0 <= i < |charts| ==>
      && charts[i].xAxisLabel == data.ims[i].name
      && charts[i].yAxisLabel == "Cumulative Probability, CDF"
      && |charts[i].lines| == 2
      && charts[i].lines[0] == Line("GCIM distribution", true, None, None, data.ims[i].gcimValues, "red")
      && charts[i].lines[1] == Line("Realizations", true, Some(true), None, data.ims[i].realizationCdf, "blue")
  {
    charts := [];
    var i := 0;
    while i < data.numIMi
      invariant 0 <= i <= Count(data.numIMi)
      invariant |charts| == i
      invariant forall k :: 0 <= k < i ==>
        && charts[k].xAxisLabel == data.ims[k].name
        && charts[k].yAxisLabel == "Cumulative Probability, CDF"
        && |charts[k].lines| == 2
        && charts[k].lines[0] == Line("GCIM distribution", true, None, None, data.ims[k].gcimValues, "red")
        && charts[k].lines[1] == Line("Realizations", true, Some(true), None, data.ims[k].realizationCdf, "blue")
    {
      var im := data.ims[i];
      var chart := Chart(im.name, "Cumulative Probability, CDF", [
        Line("GCIM distribution", true, None, None, im.gcimValues, "red"),
        Line("Realizations", true, Some(true), None, im.realizationCdf, "blue")]);
      charts := charts + [chart];
      i := i + 1;
    }
  }

  // ---------------------------------------------------------------------
  // median
  // ---------------------------------------------------------------------

  /** The controller's `median(sortedvalues)` over pairs: the first
      coordinate of the middle pair, or the mean of the two middle first
      coordinates. On an empty list it reads `sortedvalues[-1][0]` and throws,
      here `None`. */
  function Median(sortedvalues: seq<Point>): (r: Option<real>)
    ensures r.None? <==> |sortedvalues| == 0
  {
    var half := |sortedvalues| / 2;
    if |sortedvalues| % 2 == 1 then Some(sortedvalues[half].0)
    else if |sortedvalues| == 0 then None
    else Some((sortedvalues[half - 1].0 + sortedvalues[half].0) / 2.0)
  }

  /** The controller's median of pairs is the library's median of their
      first coordinates, so on pairs sorted by first coordinate it splits
      those coordinates in half. */
  lemma MedianOfFirsts(sortedvalues: seq<Point>)
    ensures Median(sortedvalues) == Util.Median(Firsts(sortedvalues))
    ensures SortedBy(sortedvalues, First) && |sortedvalues| > 0 ==>
      var m := Median(sortedvalues).value;
      && (forall i :: 0 <= i < (|sortedvalues| + 1) / 2 ==> sortedvalues[i].0 <= m)
      && (forall i :: |sortedvalues| / 2 <= i < |sortedvalues| ==> m <= sortedvalues[i].0)
  {
    var xs := Firsts(sortedvalues);
    if SortedBy(sortedvalues, First) && |sortedvalues| > 0 {
      assert Sorted(xs) by {
        forall i, j | 0 <= i < j < |xs| ensures xs[i] <= xs[j] {
          assert First(sortedvalues[i]) <= First(sortedvalues[j]);
        }
      }
      MedianSplits(xs);
    }
  }

  // ---------------------------------------------------------------------
  // plotSA
  // ---------------------------------------------------------------------

  /** `name.substr(0, 2) == 'SA'`. */
  predicate IsSa(name: string) {
    |name| >= 2 && name[0] == 'S' && name[1] == 'A'
  }

  /** `IsSa` is the test on the two-character prefix the parser also uses. */
  lemma IsSaPrefix(name: string)
    ensures IsSa(name) <==> Parsing.Prefix(name, 2) == "SA"
  {
    var p := Parsing.Prefix(name, 2);
    if p == "SA" {
      assert name[0] == p[0] && name[1] == p[1];
    }
  }

  /** Some IM of the file is a spectral acceleration. */
  ghost predicate HasSa(data: Gcim) {
    exists i :: 0 <= i < |data.ims| && IsSa(data.ims[i].name)
  }

  /** The spectral-acceleration IMs, in order. */
  function SaIms(ims: seq<IntensityMeasure>): (r: seq<IntensityMeasure>)
    ensures |r| <= |ims|
    ensures forall k :: 0 <= k < |r| ==> IsSa(r[k].name)
  {
    if |ims| == 0 then []
    else
      var last := ims[|ims| - 1];
      var front := SaIms(ims[..|ims| - 1]);
      assert forall i :: 0 <= i < |ims| - 1 ==> ims[..|ims| - 1][i] == ims[i];
      if IsSa(last.name) then front + [last] else front
  }

  /** The key the realizations are meant to be sorted by. */
  function First(p: Point): real { p.0 }

  /** The median the chart is meant to show for one SA IM: that of its
      realizations sorted by value, the list `IMi.sortedRealizations` was
      meant to hold. */
  function RealizationMedian(im: IntensityMeasure): (r: Option<real>)
    ensures r.None? <==> |im.realizations| == 0
  {
    Median(SortBy(im.realizations, First))
  }

  /** The realization median is a median of the realization values: at
      least the lower half of them and at most the upper half, once sorted. */
  lemma RealizationMedianSplits(im: IntensityMeasure)
    requires |im.realizations| > 0
    ensures var sorted := SortBy(im.realizations, First);
      var m := RealizationMedian(im).value;
      && |sorted| == |im.realizations|
      && multiset(sorted) == multiset(im.realizations)
      && (forall i :: 0 <= i < (|sorted| + 1) / 2 ==> sorted[i].0 <= m)
      && (forall i :: |sorted| / 2 <= i < |sorted| ==> m <= sorted[i].0)
  {
    MedianOfFirsts(SortBy(im.realizations, First));
  }

  /** `median(IMi.sortedRealizations)` as written: the property is never
      set, so `median` reads the length of `undefined` and throws. */
  function UnsetMedian(im: IntensityMeasure): Option<real> {
    None
  }

  /** `[period, median]` for every SA IM: the median line. */
  function SaMedians(sa: seq<IntensityMeasure>): (r: seq<Point>)
    requires forall k :: 0 <= k < |sa| ==> |sa[k].realizations| > 0
    ensures |r| == |sa|
    ensures forall k :: 0 <= k < |sa| ==>
      RealizationMedian(sa[k]).Some? && r[k] == (sa[k].period, RealizationMedian(sa[k]).value)
  {
    seq(|sa|, k requires 0 <= k < |sa| => (sa[k].period, RealizationMedian(sa[k]).value))
  }

  /** `[period, realizations[j][0]]` for every SA IM: realization line `j`. */
  function RealizationLineData(sa: seq<IntensityMeasure>, j: nat): (r: seq<Point>)
    requires forall k :: 0 <= k < |sa| ==> j < |sa[k].realizations|
    ensures |r| == |sa|
    ensures forall k :: 0 <= k < |sa| ==> r[k] == (sa[k].period, sa[k].realizations[j].0)
  {
    seq(|sa|, k requires 0 <= k < |sa| => (sa[k].period, sa[k].realizations[j].0))
  }

  /** Decimal digits of a natural number, as `'' + n` gives them. */
  function DecimalString(n: nat): (s: string)
    ensures |s| >= 1
    ensures forall i :: 0 <= i < |s| ==> '0' <= s[i] <= '9'
    ensures |s| > 1 ==> s[0] != '0'
  {
    var digit := ['0' + (n % 10) as char];
    if n < 10 then digit else DecimalString(n / 10) + digit
  }

  /** The number a string of decimal digits spells. */
  function DigitsValue(s: string): nat
    requires forall i :: 0 <= i < |s| ==> '0' <= s[i] <= '9'
  {
    if |s| == 0 then 0
    else DigitsValue(s[..|s| - 1]) * 10 + (s[|s| - 1] - '0') as nat
  }

  /** Reading the digits back gives the number: the label of line `j` is
      the decimal numeral of `j + 1`. */
  lemma {:induction false} DecimalStringValue(n: nat)
    ensures DigitsValue(DecimalString(n)) == n
  {
    var s := DecimalString(n);
    if n >= 10 {
      DecimalStringValue(n / 10);
      assert s[..|s| - 1] == DecimalString(n / 10);
    }
  }

  /** Filtering distributes over concatenation. */
  lemma {:induction false} SaImsAppend(a: seq<IntensityMeasure>, b: seq<IntensityMeasure>)
    ensures SaIms(a + b) == SaIms(a) + SaIms(b)
    decreases |b|
  {
    if |b| == 0 {
      assert a + b == a;
    } else {
      var front := b[..|b| - 1];
      assert (a + b)[..|a + b| - 1] == a + front;
      assert b[..|b| - 1] == front;
      SaImsAppend(a, front);
    }
  }

  /** There are no SA IMs exactly when no name starts with `SA`. */
  lemma {:induction false} SaImsEmpty(ims: seq<IntensityMeasure>)
    ensures SaIms(ims) == [] <==> forall i :: 0 <= i < |ims| ==> !IsSa(ims[i].name)
    decreases |ims|
  {
    if |ims| > 0 {
      var front := ims[..|ims| - 1];
      SaImsEmpty(front);
      assert forall i :: 0 <= i < |front| ==> front[i] == ims[i];
    }
  }

  /** Every SA IM of a parsed file has all the file's realizations. */
  lemma SaImsRealizations(data: Gcim)
    requires Consistent(data)
    ensures forall k :: 0 <= k < |SaIms(data.ims)| ==>
      |SaIms(data.ims)[k].realizations| == Count(data.numIMiRealizations)
  {
    SaImsMembers(data.ims);
  }

  lemma {:induction false} SaImsMembers(ims: seq<IntensityMeasure>)
    ensures forall k :: 0 <= k < |SaIms(ims)| ==> SaIms(ims)[k] in ims
    decreases |ims|
  {
    if |ims| > 0 {
      var front := ims[..|ims| - 1];
      SaImsMembers(front);
      assert forall x :: x in front ==> x in ims;
    }
  }

  /** The SA IMs of a prefix are a prefix of the SA IMs. */
  lemma SaImsPrefix(ims: seq<IntensityMeasure>, n: nat)
    requires n <= |ims|
    ensures |SaIms(ims[..n])| <= |SaIms(ims)|
    ensures SaIms(ims)[..|SaIms(ims[..n])|] == SaIms(ims[..n])
  {
    assert ims == ims[..n] + ims[n..];
    SaImsAppend(ims[..n], ims[n..]);
  }

  /** The chart `plotSA` builds for the SA IMs `sa` with `n` realization
      lines and the median line `medians`. */
  ghost predicate SaChart(chart: Chart, sa: seq<IntensityMeasure>, n: nat, medians: seq<Point>)
    requires forall k :: 0 <= k < |sa| ==> n <= |sa[k].realizations|
  {
    && chart.xAxisLabel == "Period, T (s)"
    && chart.yAxisLabel == "Spectral acceleration, SA (g)"
    && |chart.lines| == n + 1
    && (forall j :: 0 <= j < n ==>
          chart.lines[j] == Line("Realization " + DecimalString(j + 1), true, None, Some(false),
                                 RealizationLineData(sa, j), "blue"))
    && chart.lines[n] == Line("GCIM median", true, None, None, medians, "red")
  }

  /** One more IM extends the SA IMs by it exactly when it is an SA IM. */
  lemma SaImsStep(ims: seq<IntensityMeasure>, i: nat)
    requires i < |ims|
    ensures SaIms(ims[..i + 1]) == SaIms(ims[..i]) + (if IsSa(ims[i].name) then [ims[i]] else [])
  {
    assert ims[..i + 1][..i] == ims[..i];
  }

  /** One more SA IM adds one point to realization line `j`. */
  lemma LineDataStep(sa: seq<IntensityMeasure>, im: IntensityMeasure, j: nat)
    requires forall k :: 0 <= k < |sa| ==> j < |sa[k].realizations|
    requires j < |im.realizations|
    ensures RealizationLineData(sa + [im], j) == RealizationLineData(sa, j) + [(im.period, im.realizations[j].0)]
  {
    var grown := sa + [im];
    assert forall k :: 0 <= k < |sa| ==> grown[k] == sa[k];
  }

  /** The inner loop of `plotSA`: the point of `im` at its period pushed
      onto each of the `n` realization lines. */
  method AddPeriod(lines: seq<seq<Point>>, im: IntensityMeasure) returns (grown: seq<seq<Point>>)
    requires |lines| <= |im.realizations|
    ensures |grown| == |lines|
    ensures forall q :: 0 <= q < |lines| ==> grown[q] == lines[q] + [(im.period, im.realizations[q].0)]
  {
    grown := lines;
    for j := 0 to |lines|
      invariant |grown| == |lines|
      invariant forall q :: 0 <= q < j ==> grown[q] == lines[q] + [(im.period, im.realizations[q].0)]
      invariant forall q :: j <= q < |lines| ==> grown[q] == lines[q]
    {
      grown := grown[j := grown[j] + [(im.period, im.realizations[j].0)]];
    }
  }

  /** What the loop of `plotSA` has built after the SA IMs `sa`. */
  ghost predicate LinesSoFar(sa: seq<IntensityMeasure>, n: nat, medianOf: IntensityMeasure -> Option<real>,
                             realizationLines: seq<seq<Point>>, medianLine: seq<Point>)
  {
    && (forall k :: 0 <= k < |sa| ==> n <= |sa[k].realizations| && medianOf(sa[k]).Some?)
    && |realizationLines| == (if |sa| == 0 then 0 else n)
    && (forall j :: 0 <= j < |realizationLines| ==> realizationLines[j] == RealizationLineData(sa, j))
    && |medianLine| == |sa|
    && forall k :: 0 <= k < |sa| ==> medianLine[k] == (sa[k].period, medianOf(sa[k]).value)
  }

  /** The loop body of `plotSA` keeps `LinesSoFar` for one more SA IM. */
  lemma LinesSoFarStep(sa: seq<IntensityMeasure>, n: nat, medianOf: IntensityMeasure -> Option<real>,
                       realizationLines: seq<seq<Point>>, medianLine: seq<Point>,
                       im: IntensityMeasure, started: seq<seq<Point>>, grown: seq<seq<Point>>)
    requires LinesSoFar(sa, n, medianOf, realizationLines, medianLine)
    requires n <= |im.realizations| && medianOf(im).Some?
    requires |started| == n
    requires |sa| > 0 ==> started == realizationLines
    requires |sa| == 0 ==> forall q :: 0 <= q < n ==> started[q] == []
    requires |grown| == n
    requires forall q :: 0 <= q < n ==> grown[q] == started[q] + [(im.period, im.realizations[q].0)]
    ensures LinesSoFar(sa + [im], n, medianOf, grown, medianLine + [(im.period, medianOf(im).value)])
  {
    var sa' := sa + [im];
    assert forall k :: 0 <= k < |sa| ==> sa'[k] == sa[k];
    forall j | 0 <= j < n
      ensures grown[j] == RealizationLineData(sa', j)
    {
      LineDataStep(sa, im, j);
      if |sa| == 0 {
        assert RealizationLineData(sa, j) == [];
      }
    }
  }

  /** The initialisation of `plotSA`'s realization lines: `n` empty lines. */
  method EmptyLines(n: nat) returns (lines: seq<seq<Point>>)
    ensures |lines| == n
    ensures forall q :: 0 <= q < n ==> lines[q] == []
  {
    lines := [];
    for j := 0 to n
      invariant |lines| == j
      invariant forall q :: 0 <= q < j ==> lines[q] == []
    {
      lines := lines + [[]];
    }
  }

  /** An SA IM whose median fails is among the SA IMs of the whole list. */
  lemma FailureIsSeen(ims: seq<IntensityMeasure>, i: nat, medianOf: IntensityMeasure -> Option<real>)
    requires i < |ims| && IsSa(ims[i].name) && medianOf(ims[i]).None?
    ensures exists k :: 0 <= k < |SaIms(ims)| && medianOf(SaIms(ims)[k]).None?
  {
    SaImsStep(ims, i);
    SaImsPrefix(ims, i + 1);
    var k := |SaIms(ims[..i])|;
    assert SaIms(ims)[k] == SaIms(ims[..i + 1])[k] == ims[i];
  }

  /** The body of `plotSA`'s loop for one SA IM: start the `n` realization
      lines if none exist, push the IM's point onto each, then push its
      median; `None` where the median throws. */
  method AddSaIm(realizationLines: seq<seq<Point>>, medianLine: seq<Point>, im: IntensityMeasure, n: nat,
                 medianOf: IntensityMeasure -> Option<real>, ghost ims: seq<IntensityMeasure>, ghost i: nat)
    returns (r: Option<(seq<seq<Point>>, seq<Point>)>)
    requires i < |ims| && ims[i] == im && IsSa(im.name)
    requires LinesSoFar(SaIms(ims[..i]), n, medianOf, realizationLines, medianLine)
    requires n <= |im.realizations|
    ensures r.None? <==> medianOf(im).None?
    ensures r.Some? ==> LinesSoFar(SaIms(ims[..i + 1]), n, medianOf, r.value.0, r.value.1)
  {
    var started := realizationLines;
    if |started| == 0 {
      started := EmptyLines(n);
    }
    var grown := AddPeriod(started, im);
    var m := medianOf(im);
    if m.None? {
      return None;
    }
    SaImsStep(ims, i);
    LinesSoFarStep(SaIms(ims[..i]), n, medianOf, realizationLines, medianLine, im, started, grown);
    r := Some((grown, medianLine + [(im.period, m.value)]));
  }

  /** An IM that is not an SA IM leaves the lines as they are. */
  lemma SkipStep(ims: seq<IntensityMeasure>, i: nat, n: nat, medianOf: IntensityMeasure -> Option<real>,
                 realizationLines: seq<seq<Point>>, medianLine: seq<Point>)
    requires i < |ims| && !IsSa(ims[i].name)
    requires LinesSoFar(SaIms(ims[..i]), n, medianOf, realizationLines, medianLine)
    ensures LinesSoFar(SaIms(ims[..i + 1]), n, medianOf, realizationLines, medianLine)
  {
    SaImsStep(ims, i);
  }

  /** The loop of `plotSA` ends with the whole list seen. */
  lemma WholeList(ims: seq<IntensityMeasure>, n: nat, medianOf: IntensityMeasure -> Option<real>,
                  realizationLines: seq<seq<Point>>, medianLine: seq<Point>)
    requires LinesSoFar(SaIms(ims[..|ims|]), n, medianOf, realizationLines, medianLine)
    ensures LinesSoFar(SaIms(ims), n, medianOf, realizationLines, medianLine)
    ensures forall k :: 0 <= k < |SaIms(ims)| ==> medianOf(SaIms(ims)[k]).Some?
  {
    assert ims[..|ims|] == ims;
  }

  /** The loop of `plotSA` over the IMs, with the median line's point for an
      SA IM computed by `medianOf` (`None` where `median` throws). Returns the
      realization lines and the median line, or the error. */
  method CollectSaLines(data: Gcim, medianOf: IntensityMeasure -> Option<real>)
    returns (r: Result<(seq<seq<Point>>, seq<Point>), PlotError>)
    requires Consistent(data)
    ensures r.Err? ==> exists k :: 0 <= k < |SaIms(data.ims)| && medianOf(SaIms(data.ims)[k]).None?
    ensures r.Ok? ==> LinesSoFar(SaIms(data.ims), Count(data.numIMiRealizations), medianOf, r.value.0, r.value.1)
  {
    var nR := Count(data.numIMiRealizations);
    var realizationLines: seq<seq<Point>> := [];
    var medianLine: seq<Point> := [];
    var i := 0;
    while i < data.numIMi
      invariant 0 <= i <= Count(data.numIMi) == |data.ims|
      invariant LinesSoFar(SaIms(data.ims[..i]), nR, medianOf, realizationLines, medianLine)
    {
      var im := data.ims[i];
      if IsSa(im.name) {
        var step := AddSaIm(realizationLines, medianLine, im, nR, medianOf, data.ims, i);
        if step.None? {
          FailureIsSeen(data.ims, i, medianOf);
          return Err(TypeError);
        }
        realizationLines, medianLine := step.value.0, step.value.1;
      } else {
        SkipStep(data.ims, i, nR, medianOf, realizationLines, medianLine);
      }
      i := i + 1;
    }
    WholeList(data.ims, nR, medianOf, realizationLines, medianLine);
    r := Ok((realizationLines, medianLine));
  }

  /** The tail of `plotSA`: no chart unless a realization line was started,
      otherwise the realization lines in blue without legend and the median
      line in red. */
  method BuildSaChart(realizationLines: seq<seq<Point>>, medianLine: seq<Point>)
    returns (chart: Option<Chart>)
    ensures chart.None? <==> |realizationLines| == 0
    ensures chart.Some? ==>
      && chart.value.xAxisLabel == "Period, T (s)"
      && chart.value.yAxisLabel == "Spectral acceleration, SA (g)"
      && |chart.value.lines| == |realizationLines| + 1
      && (forall j :: 0 <= j < |realizationLines| ==>
            chart.value.lines[j] == Line("Realization " + DecimalString(j + 1), true, None, Some(false),
                                         realizationLines[j], "blue"))
      && chart.value.lines[|realizationLines|] == Line("GCIM median", true, None, None, medianLine, "red")
  {
    chart := None;
    if |realizationLines| > 0 {
      var lines: seq<Line> := [];
      for i := 0 to |realizationLines|
        invariant |lines| == i
        invariant forall j :: 0 <= j < i ==>
          lines[j] == Line("Realization " + DecimalString(j + 1), true, None, Some(false), realizationLines[j], "blue")
      {
        lines := lines + [Line("Realization " + DecimalString(i + 1), true, None, Some(false), realizationLines[i], "blue")];
      }
      lines := lines + [Line("GCIM median", true, None, None, medianLine, "red")];
      chart := Some(Chart("Period, T (s)", "Spectral acceleration, SA (g)", lines));
    }
  }

  /** `$scope.plotSA(data)` as written: the median line reads
      `IMi.sortedRealizations`, which nothing sets, so `median` reads the
      length of `undefined` as soon as there is one SA IM. */
  method PlotSAAsWritten(data: Gcim) returns (r: Result<Option<Chart>, PlotError>)
    requires Consistent(data)
    ensures r.Err? <==> HasSa(data)
    ensures r.Ok? ==> r.value.None?
  {
    SaImsEmpty(data.ims);
    var lines := CollectSaLines(data, UnsetMedian);
    if lines.Err? {
      return Err(lines.error);
    }
    assert |SaIms(data.ims)| > 0 ==> UnsetMedian(SaIms(data.ims)[0]).None?;
    var chart := BuildSaChart(lines.value.0, lines.value.1);
    r := Ok(chart);
  }

  /** `$scope.plotSA(data)` with the median taken of the realizations sorted
      by value: no chart without SA IMs; a `TypeError` when there are SA IMs
      but no realizations (the median of an empty list); otherwise one line
      per realization through its values at the SA periods, and the median
      line through the realization medians. */
  method PlotSA(data: Gcim) returns (r: Result<Option<Chart>, PlotError>)
    requires Consistent(data)
    ensures r == Ok(None) <==> SaIms(data.ims) == []
    ensures r.Err? <==> SaIms(data.ims) != [] && Count(data.numIMiRealizations) == 0
    ensures r.Ok? && r.value.Some? ==>
      && Count(data.numIMiRealizations) > 0
      && (forall k :: 0 <= k < |SaIms(data.ims)| ==>
            |SaIms(data.ims)[k].realizations| == Count(data.numIMiRealizations))
      && SaChart(r.value.value, SaIms(data.ims), Count(data.numIMiRealizations), SaMedians(SaIms(data.ims)))
  {
    ghost var sa := SaIms(data.ims);
    SaImsRealizations(data);
    var lines := CollectSaLines(data, RealizationMedian);
    if lines.Err? {
      ghost var k :| 0 <= k < |sa| && RealizationMedian(sa[k]).None?;
      assert |SortBy(sa[k].realizations, First)| == 0;
      return Err(lines.error);
    }
    if sa != [] {
      assert RealizationMedian(sa[0]).Some?;
    }
    var chart := BuildSaChart(lines.value.0, lines.value.1);
    r := Ok(chart);
    if chart.Some? {
      assert SaMedians(sa) == lines.value.1;
    }
  }
}
