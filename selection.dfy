/** `gmSelector.selectGroundMotions`, up to the point where the selection
    proper would start: Step 1 clamps the number of ground motions `Ngms`
    and of replicates `Nreplicates` to what the realizations allow, then every
    IM of the parsed GCIM data is annotated in place with the median and the
    lognormal sigma of its target CDF. */
module Selection {
  import opened Types
  import opened Util

  /** The default number of ground motions to select. */
  const DefaultNgms := 20

  /** The default number of replicates. */
  const DefaultReplicates := 5

  // ---------------------------------------------------------------------
  // Step 1: clamping Ngms
  // ---------------------------------------------------------------------

  /** How Step 1 ends: no realizations (logs an error, returns `null`), a
      `ReferenceError`, or on to the next step with this `Ngms`. */
  datatype Step1 = NoRealizations | ReferenceError | Proceed(ngms: int)

  /** Step 1 as written: the warning for `0 < n < 20` concatenates the
      undeclared identifier `numIMiRealizations` (the field is
      `GCIMdata.numIMiRealizations`), so that branch throws before
      `Ngms` is lowered; a negative count takes the same branch. */
  function Step1AsWritten(numIMiRealizations: int): (s: Step1)
    ensures s == NoRealizations <==> numIMiRealizations == 0
    ensures s == ReferenceError <==> numIMiRealizations != 0 && numIMiRealizations < DefaultNgms
    ensures s.Proceed? ==> s.ngms == DefaultNgms
  {
    if numIMiRealizations == 0 then NoRealizations
    else if numIMiRealizations < DefaultNgms then ReferenceError
    else Proceed(DefaultNgms)
  }

  /** Step 1 as its comment intends: `Ngms` becomes the number of
      realizations when there are fewer than 20. */
  function Step1Intended(numIMiRealizations: int): (s: Step1)
    ensures s == NoRealizations <==> numIMiRealizations == 0
    ensures s != ReferenceError
    ensures s.Proceed? ==> s.ngms == Min(DefaultNgms, numIMiRealizations)
  {
    if numIMiRealizations == 0 then NoRealizations
    else if numIMiRealizations < DefaultNgms then Proceed(numIMiRealizations)
    else Proceed(DefaultNgms)
  }

  /** With realizations present, the intended clamp never asks for more
      ground motions than there are realizations nor more than 20, and asks
      for at least one. */
  lemma Step1IntendedBounds(numIMiRealizations: int)
    requires numIMiRealizations > 0
    ensures var s := Step1Intended(numIMiRealizations);
      s.Proceed? && 1 <= s.ngms <= numIMiRealizations && s.ngms <= DefaultNgms
  {
  }

  /** The two versions agree exactly when the throwing branch is not taken:
      `numIMiRealizations = 5` shows the difference. */
  lemma Step1Discrepancy(numIMiRealizations: int)
    ensures Step1AsWritten(numIMiRealizations) != Step1Intended(numIMiRealizations)
            <==> numIMiRealizations != 0 && numIMiRealizations < DefaultNgms
    ensures Step1AsWritten(5) == ReferenceError && Step1Intended(5) == Proceed(5)
  {
  }

  /** `Nreplicates` after the check against `Ncomb`: never raised above 5. */
  function ClampReplicates(ncomb: real): (r: real)
    ensures r <= DefaultReplicates as real
    ensures r == ncomb || r == DefaultReplicates as real
    ensures ncomb < DefaultReplicates as real ==> r == ncomb
  {
    if ncomb < DefaultReplicates as real then ncomb else DefaultReplicates as real
  }

  /** With `0 < Ngms <= numIMiRealizations` there is at least one
      combination, so between one and five replicates. */
  lemma ReplicatesBounds(numIMiRealizations: nat, ngms: nat)
    requires ngms <= numIMiRealizations
    ensures 1.0 <= ClampReplicates(Choose(numIMiRealizations, ngms) as real) <= DefaultReplicates as real
  {
    ChooseAtLeastOne(numIMiRealizations, ngms);
  }

  // ---------------------------------------------------------------------
  // Median and sigma of a target CDF
  // ---------------------------------------------------------------------

  /** `$.map(GCIMvalues, val => [[val[1], val[0]]])`: the CDF with its axes
      exchanged, so that interpolating at a probability gives an IM value. */
  function SwapCoordinates(cdf: seq<Point>): (r: seq<Point>)
    ensures |r| == |cdf|
    ensures forall j :: 0 <= j < |cdf| ==> r[j] == (cdf[j].1, cdf[j].0)
  {
    seq(|cdf|, j requires 0 <= j < |cdf| => (cdf[j].1, cdf[j].0))
  }

  /** Exchanging the axes twice gives the CDF back. */
  lemma SwapCoordinatesInvolution(cdf: seq<Point>)
    ensures SwapCoordinates(SwapCoordinates(cdf)) == cdf
  {
    var back := SwapCoordinates(SwapCoordinates(cdf));
    forall j | 0 <= j < |cdf| ensures back[j] == cdf[j] {
    }
  }

  /** The IM value at which the target CDF reaches probability `p`. */
  function Quantile(cdf: seq<Point>, p: real): Option<real> {
    InterpArray(SwapCoordinates(cdf), p)
  }

  /** A quantile is `null` exactly when `p` lies outside the probabilities
      of the first and last rows; for the sigma this means the CDF must span
      `[0.16, 0.84]`. */
  lemma QuantileNone(cdf: seq<Point>, p: real)
    ensures Quantile(cdf, p).None? <==> |cdf| == 0 || p < cdf[0].1 || p > cdf[|cdf| - 1].1
  {
  }

  /** With strictly increasing probabilities, the quantile at the
      probability of row `k` is that row's IM value: the quantile inverts the
      CDF at its rows. */
  lemma QuantileAtRow(cdf: seq<Point>, k: nat)
    requires forall a, b :: 0 <= a < b < |cdf| ==> cdf[a].1 < cdf[b].1
    requires k < |cdf|
    ensures Quantile(cdf, cdf[k].1) == Some(cdf[k].0)
  {
    var swapped := SwapCoordinates(cdf);
    assert KeysStrictlyIncreasing(swapped) by {
      forall a, b | 0 <= a < b < |swapped| ensures swapped[a].0 < swapped[b].0 {
        assert swapped[a].0 == cdf[a].1 && swapped[b].0 == cdf[b].1;
      }
    }
    InterpArrayAtDistinctKey(swapped, k);
  }

  /** What the loop writes onto one IM: `median` is the 0.5 quantile and
      `sigma = 0.5 * Math.log(x84 / x16)`, with the logarithm of the ratio of
      the 0.84 and 0.16 quantiles passed in as `lnRatio`. */
  function Summarize(im: IntensityMeasure, lnRatio: (Option<real>, Option<real>) -> real): (r: IntensityMeasure)
    ensures r.(summary := im.summary) == im
    ensures r.summary.Summarized?
  {
    var median := Quantile(im.gcimValues, 0.5);
    var x84 := Quantile(im.gcimValues, 0.84);
    var x16 := Quantile(im.gcimValues, 0.16);
    im.(summary := Summarized(median, 0.5 * lnRatio(x84, x16)))
  }

  /** Summarizing changes only the summary. The median it records is
      `null` exactly when the CDF does not reach probability 0.5 within its
      rows. The sigma is half the log ratio of the 0.84 and 0.16 quantiles. */
  lemma SummarizeMedian(im: IntensityMeasure, lnRatio: (Option<real>, Option<real>) -> real)
    ensures var s := Summarize(im, lnRatio).summary;
      && s.Summarized?
      && s.median == Quantile(im.gcimValues, 0.5)
      && (s.median.None? <==> |im.gcimValues| == 0 || 0.5 < im.gcimValues[0].1
                              || 0.5 > im.gcimValues[|im.gcimValues| - 1].1)
      && s.sigma == 0.5 * lnRatio(Quantile(im.gcimValues, 0.84), Quantile(im.gcimValues, 0.16))
  {
    QuantileNone(im.gcimValues, 0.5);
  }

  // ---------------------------------------------------------------------
  // The GCIM data object and selectGroundMotions
  // ---------------------------------------------------------------------

  /** The `GCIMoutput` object the parser returns: the header fields stay as
      they are, the IMs are annotated in place. */
  class GcimData {
    const imjName: string
    const imjPeriod: real
    const iml: real
    const probLevel: real
    const numIMi: int
    const numz: int
    const numIMiRealizations: int
    var ims: seq<IntensityMeasure>

    constructor (g: Gcim)
      ensures Value() == g
    {
      imjName, imjPeriod, iml, probLevel := g.imjName, g.imjPeriod, g.iml, g.probLevel;
      numIMi, numz, numIMiRealizations := g.numIMi, g.numz, g.numIMiRealizations;
      ims := g.ims;
    }

    /** The object's fields as a `Gcim` value. */
    function Value(): (g: Gcim)
      reads this
      ensures g.ims == ims && g.numIMi == numIMi && g.numIMiRealizations == numIMiRealizations
    {
      Gcim(imjName, imjPeriod, iml, probLevel, numIMi, numz, numIMiRealizations, ims)
    }
  }

  /** How `selectGroundMotions` ends. `Annotated` carries the values
      `Ngms` and `Nreplicates` reached. `MissingIM` is the `TypeError` of
      reading `GCIMdata.IMi[i]` past the end when `numIMi` exceeds the IMs
      present (the parser never produces that). */
  datatype Outcome = Stopped | Threw | MissingIM | Annotated(ngms: int, nreplicates: real)

  /** The loop over the IMs: IM `i` gets its median and sigma, for
      `i < numIMi`; nothing else changes. */
  method SummarizeAll(data: GcimData, lnRatio: (Option<real>, Option<real>) -> real) returns (complete: bool)
    modifies data
    ensures complete <==> Count(data.numIMi) <= |old(data.ims)|
    ensures |data.ims| == |old(data.ims)|
    ensures forall j :: 0 <= j < |data.ims| ==>
      data.ims[j] == if j < Count(data.numIMi) then Summarize(old(data.ims)[j], lnRatio) else old(data.ims)[j]
  {
    var i := 0;
    while i < data.numIMi
      invariant 0 <= i <= Count(data.numIMi) && i <= |data.ims|
      invariant |data.ims| == |old(data.ims)|
      invariant forall j :: 0 <= j < |data.ims| ==>
        data.ims[j] == if j < i then Summarize(old(data.ims)[j], lnRatio) else old(data.ims)[j]
    {
      if i >= |data.ims| {
        return false;
      }
      data.ims := data.ims[i := Summarize(data.ims[i], lnRatio)];
      i := i + 1;
    }
    return true;
  }

  /** The part after Step 1: `Ncomb = binomial(numIMiRealizations, Ngms)`,
      `Nreplicates` lowered to it when smaller than 5, then the IM loop. */
  method AfterStep1(data: GcimData, ngms: int, lnRatio: (Option<real>, Option<real>) -> real)
    returns (o: Outcome)
    modifies data
    ensures o.Annotated? || o == MissingIM
    ensures o == MissingIM <==> Count(data.numIMi) > |old(data.ims)|
    ensures o.Annotated? ==> o.ngms == ngms
    ensures o.Annotated? && data.numIMiRealizations >= 0 && ngms >= 0 ==>
      o.nreplicates == ClampReplicates(Choose(data.numIMiRealizations, ngms) as real)
    ensures o.Annotated? && ngms <= 0 ==> o.nreplicates == 1.0
    ensures |data.ims| == |old(data.ims)|
    ensures forall j :: 0 <= j < |data.ims| ==>
      data.ims[j] == if j < Count(data.numIMi) then Summarize(old(data.ims)[j], lnRatio) else old(data.ims)[j]
  {
    var nreplicates := DefaultReplicates as real;
    var ncomb := Binomial(data.numIMiRealizations, ngms);
    if ncomb < nreplicates {
      nreplicates := ncomb;
    }
    assert nreplicates == ClampReplicates(ncomb);
    var complete := SummarizeAll(data, lnRatio);
    if !complete {
      return MissingIM;
    }
    o := Annotated(ngms, nreplicates);
  }

  /** `selectGroundMotions(GCIMdata)` with the Step 1 clamp corrected: no
      realizations stops with the data untouched; otherwise `Ngms =
      min(20, numIMiRealizations)`, `Nreplicates = min(5, C(numIMiRealizations,
      Ngms))`, and the first `numIMi` IMs are summarized in order. */
  method SelectGroundMotions(data: GcimData, lnRatio: (Option<real>, Option<real>) -> real) returns (o: Outcome)
    modifies data
    ensures o == Stopped <==> data.numIMiRealizations == 0
    ensures o != Threw
    ensures o == Stopped ==> data.ims == old(data.ims)
    ensures o == MissingIM <==> data.numIMiRealizations != 0 && Count(data.numIMi) > |old(data.ims)|
    ensures o.Annotated? ==> o.ngms == Min(DefaultNgms, data.numIMiRealizations)
    ensures o.Annotated? && data.numIMiRealizations > 0 ==>
      && 1 <= o.ngms <= data.numIMiRealizations
      && o.nreplicates == ClampReplicates(Choose(data.numIMiRealizations, o.ngms) as real)
      && 1.0 <= o.nreplicates <= DefaultReplicates as real
    ensures o != Stopped ==> |data.ims| == |old(data.ims)| && forall j :: 0 <= j < |data.ims| ==>
      data.ims[j] == if j < Count(data.numIMi) then Summarize(old(data.ims)[j], lnRatio) else old(data.ims)[j]
  {
    var step := Step1Intended(data.numIMiRealizations);
    if step == NoRealizations {
      return Stopped;
    }
    o := AfterStep1(data, step.ngms, lnRatio);
    if o.Annotated? && data.numIMiRealizations > 0 {
      ReplicatesBounds(data.numIMiRealizations, o.ngms);
    }
  }

  /** `selectGroundMotions(GCIMdata)` as written: identical, except that
      `0 < numIMiRealizations < 20` (or a negative count) throws in Step 1,
      before any IM is touched. */
  method SelectGroundMotionsAsWritten(data: GcimData, lnRatio: (Option<real>, Option<real>) -> real)
    returns (o: Outcome)
    modifies data
    ensures o == Stopped <==> data.numIMiRealizations == 0
    ensures o == Threw <==> data.numIMiRealizations != 0 && data.numIMiRealizations < DefaultNgms
    ensures o == Stopped || o == Threw ==> data.ims == old(data.ims)
    ensures o == MissingIM <==> data.numIMiRealizations >= DefaultNgms && Count(data.numIMi) > |old(data.ims)|
    ensures o.Annotated? ==> o.ngms == DefaultNgms
    ensures o.Annotated? ==> o.nreplicates == ClampReplicates(Choose(data.numIMiRealizations, DefaultNgms) as real)
    ensures o != Stopped && o != Threw ==> |data.ims| == |old(data.ims)| && forall j :: 0 <= j < |data.ims| ==>
      data.ims[j] == if j < Count(data.numIMi) then Summarize(old(data.ims)[j], lnRatio) else old(data.ims)[j]
  {
    var step := Step1AsWritten(data.numIMiRealizations);
    if step == NoRealizations {
      return Stopped;
    } else if step == ReferenceError {
      return Threw;
    }
    o := AfterStep1(data, step.ngms, lnRatio);
  }
}
