/** The data model shared by the numeric kernel, the input parser, the
    selection preamble and the chart shaping: the parsed GCIM target
    distribution (conditioning IM, per-IM target CDFs and simulated
    realizations) and the ground motions whose scaled IM values are scored. */
module Types {

  datatype Option<+T> = None | Some(value: T)

  datatype Result<+T, +E> = Ok(value: T) | Err(error: E)

  /** A JavaScript `[a, b]` pair of numbers; `.0` is the key. */
  type Point = (real, real)

  /** How often a JavaScript `for (i = 0; i < x; ++i)` loop runs. */
  function Count(x: int): (r: nat)
    ensures x >= 0 ==> r == x
    ensures x < 0 ==> r == 0
  {
    if x < 0 then 0 else x
  }

  function Min(a: int, b: int): int { if a <= b then a else b }

  function MinReal(a: real, b: real): real { if a <= b then a else b }

  function Abs(x: real): real { if x < 0.0 then -x else x }

  /** The first coordinates of a sequence of pairs (`$.map(pairs, v => v[0])`). */
  function Firsts(ps: seq<Point>): (r: seq<real>)
    ensures |r| == |ps|
    ensures forall i :: 0 <= i < |ps| ==> r[i] == ps[i].0
  {
    seq(|ps|, i requires 0 <= i < |ps| => ps[i].0)
  }

  /** The `median`/`sigma` fields the selection preamble writes onto an IM:
      absent until then. The median is `null` when interpolation fails. */
  datatype Summary = Unsummarized | Summarized(median: Option<real>, sigma: real)

  /** One intensity measure of the GCIM output, as built by the parser. */
  datatype IntensityMeasure = IntensityMeasure(
    name: string,
    period: real,                  // -1 unless the name starts with "SA"
    weighting: real,
    gcimValues: seq<Point>,        // the target CDF: (IM value, probability)
    realizations: seq<Point>,      // (value, lognormal sigma) per realization
    realizationCdf: seq<Point>,    // step CDF of the realization values
    summary: Summary)

  /** The parsed GCIM output file. */
  datatype Gcim = Gcim(
    imjName: string,
    imjPeriod: real,
    iml: real,
    probLevel: real,
    numIMi: int,
    numz: int,
    numIMiRealizations: int,
    ims: seq<IntensityMeasure>)

  /** The shape every parsed file has: the loops that filled `ims` ran
      `numIMi`, `numz` and `numIMiRealizations` times. */
  ghost predicate Consistent(g: Gcim) {
    && |g.ims| == Count(g.numIMi)
    && forall j :: 0 <= j < |g.ims| ==>
         && |g.ims[j].gcimValues| == Count(g.numz)
         && |g.ims[j].realizations| == Count(g.numIMiRealizations)
         && |g.ims[j].realizationCdf| == 2 * Count(g.numIMiRealizations)
  }

  /** A candidate ground motion: only its scaled IM values take part here. */
  datatype GroundMotion = GroundMotion(scaledIM: map<string, real>)
}
