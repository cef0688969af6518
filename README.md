# gm-selector: a Dafny model of the GCIM ground-motion selector core

gm-selector is a browser application. It reads the output file of an
OpenSHA GCIM (generalised conditional intensity measure) calculation:
- a conditioning IM;
- for each IM, a target CDF and a set of simulated realizations.

It selects recorded ground motions whose scaled IM values match those
distributions. This project models the application's core:

- `Util` (`selector_server/client/js/util.js`):
  - the lower-bound binary search, linear interpolation into a table of
    pairs, and the binomial coefficient;
  - the median of a sorted list, and a Fisher–Yates-style shuffle that
    samples `k` of `n` indices (as written it is not one; see Findings);
  - the step CDF of a sample;
  - the exact-table branch of Miller's Kolmogorov–Smirnov critical value;
  - the largest distance between the step CDF of the selected ground motions
    and a target CDF.
- `Parsing` (`inputReader.parse` in `parsing.js`): the line-oriented reader
  of the GCIM output file. It covers:
  - the header (conditioning IM, IML/probability lines, counts);
  - one block per IM with its target CDF;
  - the realization table;
  - the precomputed realization CDFs.
- `Selection` (`selectGroundMotions` in `selection.js`, up to "Step 3a"):
  - clamping `Ngms` and `Nreplicates`;
  - writing the median and the lognormal sigma of every target CDF in place
    onto the GCIM data object (a class `GcimData` whose `ims` field the
    method reassigns).
- `Controller` (`selector_server/client/js/controller.js`): the chart data
  for the charting directive:
  - one CDF chart per IM (`plot`);
  - a spectral-acceleration-against-period chart (`plotSA`), with a line per
    realization and a median line.
- `Types`: the shared data model: the parsed GCIM file (`Gcim`,
  `IntensityMeasure`, `Summary`), ground motions, `Option`/`Result`, and
  `Count`, the number of times a JavaScript `for (i = 0; i < x; ++i)` loop
  runs.

JavaScript numbers are modelled as `real`. Some calls are taken as
parameters, because the model cannot see inside them:
- `parseFloat`, `parseInt`, and the tokenizer `line.match(/\S+/g)`.
- `Math.random()`, as a sequence of draws in `[0, 1)`.
- `Math.log(x84 / x16)`, as `lnRatio`.
- Miller's asymptotic formula for `n > 20`, as `asymptotic`.

Each loop that changes state is a `method` proved against a specification
function:
- the binary search (`LowerBound`);
- the CDF builder (`StepCdf(Sort(values))`);
- the binomial loop (`Choose`);
- the table row builder (`TableRow`);
- the KS maximum (`MaxDiffUpTo`);
- the parser's blocks and realization rows (`BlockParsed`,
  `RealizationsParsed`);
- the selection loop (`Summarize`);
- the chart loops (`LinesSoFar`, `SaChart`).

The sampler, an in-place shuffle of an `array`, has no specification function.
Its contract states the properties outright:
- the number of indices returned;
- each index below `n`;
- the indices distinct;
- which index the first draw picks.

## Model

| member | source | states |
|---|---|---|
| Util.BinarySearch | selector_server/client/js/util.js:18-43 | returns -1 exactly when the list is empty or `x` is outside its first and last keys; otherwise the index `r` with `x <= data[r].0` and a smaller key just before it. On sorted keys every key before `r` is below `x`: the first element `>= x`. The loop computes `LowerBound`. |
| Util.LowerBoundSpec | selector_server/client/js/util.js:21-43 | the lower-bound recursion lands between a key below `x` and a key at or above `x`. No sortedness is needed for that; under sorted keys it is the first index at or above `x`. |
| Util.LowerBoundFrom | selector_server/client/js/util.js:27-42 | the loop as a recursion over `first` and `count`: the result stays within `[first, first + count]` |
| Util.LowerBound | selector_server/client/js/util.js:21-43 | -1 exactly when the list is empty or `x` is outside its keys; otherwise an index no greater than the length of the list |
| Util.BinarySearchOddList | selector_server/test/unit/utilSpec.js:9-20 | all nine expectations on the list of keys `0 .. 4`: each key at its own index, `0.5 -> 1`, `3.9 -> 4`, `-1` and `5` give -1 |
| Util.BinarySearchEvenList | selector_server/test/unit/utilSpec.js:21-32 | all nine expectations on the list of keys `0 .. 3`, including `1.999 -> 2` and `3.9 -> -1` |
| Util.BinarySearchDuplicates | selector_server/test/unit/utilSpec.js:33-42 | all seven expectations on `1, 1, 1, 3`: key 1 at the first of the run, `1.5`, `2`, `2.5` and `3` at index 3, `0` and `4` give -1 |
| Util.Interp | selector_server/client/js/util.js:45-47 | fraction 0 gives `a`, fraction 1 gives `b` |
| Util.InterpBetween | selector_server/client/js/util.js:45-47 | for a fraction in `[0, 1]` the result lies between `a` and `b` |
| Util.InterpArray | selector_server/client/js/util.js:49-61 | `null` exactly when the list is empty or `x` is outside its key range |
| Util.EqualKeysBranchUnreachable | selector_server/client/js/util.js:55-58 | the test `data[i][0] == data[i-1][0]` never holds inside the bounds: the search lands on index 0 or just after a strictly smaller key, for any order of keys. Only `i == 0` returns a value without interpolating. |
| Util.InterpArrayBracket | selector_server/client/js/util.js:54-60 | in range, the search index brackets `x`. The value is the first row's value at the first key; otherwise it lies between the values of the two bracketing rows. |
| Util.InterpArrayAtKey | selector_server/client/js/util.js:55-58 | on sorted keys, looking up an existing key returns the value of the first row with that key |
| Util.InterpArrayAtDistinctKey | selector_server/client/js/util.js:55-58 | on strictly increasing keys, looking up row `j`'s key returns row `j`'s value |
| Util.SortBy | selector_server/client/js/util.js:204-205 | the result is sorted by the key and is a permutation of the input |
| Util.Sort | selector_server/client/js/util.js:177 | the numeric `sort(function(a, b) { return a - b; })`: sorted and a permutation |
| Util.InsertBySorted | selector_server/client/js/util.js:205 | inserting into a sorted list keeps it sorted |
| Util.StepCdfUpToAt | selector_server/client/js/util.js:209-213 | after `m` iterations there are `2m` points, and point `p` is `(sorted[p/2], (p/2 + p%2)/n)` |
| Util.StepCdfShape | selector_server/client/js/util.js:207-213 | value `j` of the sorted sample yields the two points `(v, j/n)` and `(v, (j+1)/n)` |
| Util.StepCdfHeights | selector_server/client/js/util.js:207-213 | every height is in `[0, 1]`; the last is 1 for a non-empty sample |
| Util.StepCdfMonotone | selector_server/client/js/util.js:204-213 | for a sorted sample both coordinates are non-decreasing |
| Util.BuildCdf | selector_server/client/js/util.js:201-215 | computes `StepCdf(Sort(values))`. It has twice as many points, paired as above, is non-decreasing in both coordinates, and ends at height 1. |
| Util.ChooseStep | selector_server/client/js/util.js:76 | `C(n, k+1) * (k+1) == C(n, k) * (n-k)`, the identity the loop update relies on |
| Util.BinomialStep | selector_server/client/js/util.js:76 | one step `res * (N-k) / (k+1)` takes `C(n, k)` to `C(n, k+1)` exactly |
| Util.Binomial | selector_server/client/js/util.js:73-79 | 1 for `K <= 0`; the binomial coefficient `C(N, K)` for non-negative arguments, including 0 when `K > N` |
| Util.Median | selector_server/client/js/util.js:80-91 | `null` exactly for the empty list |
| Util.MedianSplits | selector_server/client/js/util.js:85-90 | for a sorted non-empty list the result is at least the lower half and at most the upper half |
| Util.SampleSize | selector_server/client/js/util.js:96-101 | `min(n, k)` indices are returned, or none when that is negative |
| Util.Pick | selector_server/client/js/util.js:103 | `floor(m * u)` for a draw `u` in `[0, 1)` is a valid index below `m` (0 when `m` is 0) |
| Util.Swap | selector_server/client/js/util.js:104-106 | exchanges two entries, keeps the rest, and keeps the array a permutation of `0 .. n-1` |
| Util.Sample | selector_server/client/js/util.js:95-109 | corrected shuffle: `min(n, k)` distinct indices below `n`; the first draw picks the last one among all `n` |
| Util.SampleAsWritten | selector_server/client/js/util.js:95-109 | the shuffle as written: still distinct indices below `n`, but the first draw picks among `0 .. n-2` only, so the last slot never keeps `n-1` |
| Util.LastIndexReachable | selector_server/client/js/util.js:103 | for `n >= 2` some draw makes the corrected pick return `n-1` |
| Util.TableRow | selector_server/client/js/util.js:130-154 | the row for sample size `n` pairs each `alpha1` column with Miller's exact value |
| Util.TableAtColumn | selector_server/client/js/util.js:130-155 | at a tabulated `alpha1` the critical value is the table entry itself |
| Util.TableWithinRow | selector_server/client/js/util.js:120-155 | every `alpha1` in `[0.005, 0.10]` yields a value between the row's smallest and largest entries |
| Util.TableDecreasesWithN | selector_server/client/js/util.js:131-155 | for a fixed `alpha1` the exact critical value does not grow with `n` |
| Util.TableExamples | selector_server/client/js/util.js:130-150 | `n = 10, alpha = 0.05` gives 0.40925; `n = 20, alpha = 0.20` gives 0.23156; `n = 1, alpha = 0.015` gives 0.9925, halfway between two columns |
| Util.BuildTableRow | selector_server/client/js/util.js:151-154 | the loop builds `TableRow(n)` |
| Util.KsCriticalValue | selector_server/client/js/util.js:110-166 | `null` exactly when `n < 1` or `alpha/2` is outside `[0.005, 0.10]`. For `n <= 20` it interpolates the exact row: within its extremes, and exact at the tabulated columns. For `n > 20` it is the asymptotic value capped at `1 - alpha/2`. |
| Util.ImValues | selector_server/client/js/util.js:169-172 | one scaled value per ground motion, in order |
| Util.ScaledValues | selector_server/client/js/util.js:169-172 | the loop collects `ImValues` |
| Util.MaxDiffUpToIsMaximum | selector_server/client/js/util.js:187-198 | `MaxDiffUpTo`, the running maximum `Math.max(maxDiff, diff)` from 0, bounds every distance seen and is 0 or one of them |
| Util.PointDiffUnit | selector_server/client/js/util.js:189-196 | `PointDiff`, the three cases of the distance of one step point (before the target, past it, interpolated), is in `[0, 1]` when all heights are |
| Util.MaxDiffUpToUnit | selector_server/client/js/util.js:187-198 | with heights in `[0, 1]` the distance is in `[0, 1]` |
| Util.MaxDistance | selector_server/client/js/util.js:187-198 | the loop computes the running maximum over all step points |
| Util.KsDistanceFacts | selector_server/client/js/util.js:175-198 | the distance over the step CDF of the values has the maximum properties above |
| Util.KsDiff | selector_server/client/js/util.js:167-200 | the KS distance between the ground motions' step CDF and the target. It is 0 for no ground motions, at least every pointwise distance and equal to one of them or 0, and at most 1 on unit heights; an empty target with ground motions is an error. |
| Parsing.Trim | selector_server/client/js/parsing.js:11 | the trimmed line is no longer than the line and starts and ends with a non-space character |
| Parsing.TrimIsSlice | selector_server/client/js/parsing.js:10-12 | removing leading and trailing whitespace keeps one slice of the line: only space outside it, no space at its ends |
| Parsing.TrimIdempotent | selector_server/client/js/parsing.js:10-12 | trimming twice is trimming once |
| Parsing.Split | selector_server/client/js/parsing.js:10 | `split('\n')` gives at least one piece and no piece holds a newline |
| Parsing.JoinSplit | selector_server/client/js/parsing.js:10 | joining the pieces with newlines gives back the text |
| Parsing.Lines | selector_server/client/js/parsing.js:10-12 | one trimmed line per piece of the split |
| Parsing.Substr | selector_server/client/js/parsing.js:20 | `substr(start)` is the suffix from `start`, or empty past the end |
| Parsing.SaPeriod | selector_server/client/js/parsing.js:74-77 | the period is `parseFloat(name.substr(4))` for a name starting with `SA`, else -1 |
| Parsing.ParseHeader | selector_server/client/js/parsing.js:14-53 | reads the header fields from lines 1..7, swapping IML and ProbLevel unless line 2 starts with `Prob`; the cursor ends at line 10 |
| Parsing.ParseBlock | selector_server/client/js/parsing.js:68-94 | succeeds exactly when the name line and the `numz` rows exist with two numbers each. It then yields the name, period, weighting 1 and the rows' pairs. The cursor advances by `numz + 4`. A missing line is reported past the end. |
| Parsing.ParseBlocks | selector_server/client/js/parsing.js:67-94 | succeeds exactly when every one of the `numIMi` blocks is readable; block `j` is parsed from its own lines |
| Parsing.AppendRealizationRow | selector_server/client/js/parsing.js:101-104 | IM `j` gains the pair of columns `2j+1, 2j+2` of the row; nothing else changes |
| Parsing.ParseRealizations | selector_server/client/js/parsing.js:96-105 | succeeds exactly when every realization row exists and is wide enough. Each IM's realizations are then the pairs read from its columns, their other fields unchanged. |
| Parsing.AddRealizationCdfs | selector_server/client/js/parsing.js:107-113 | every IM's `realizationCDF` is `build_cdf` of its realization values |
| Parsing.Assembled | selector_server/client/js/parsing.js:9-116 | the pieces make a parse of a well-formed file |
| Parsing.Parse | selector_server/client/js/parsing.js:9-117 | succeeds exactly on a well-formed file, i.e. every line read exists and every row is wide enough. The header, blocks, realizations and CDFs are then those of the file, and the shape matches the counts. On failure it names a missing line (past the end) or a short row (inside). |
| Selection.Step1AsWritten | selector_server/client/js/selection.js:20-29 | no realizations stops. A count that is nonzero and below 20 hits the undeclared identifier and throws. Otherwise `Ngms` stays 20. |
| Selection.Step1Intended | selector_server/client/js/selection.js:20-29 | no realizations stops; otherwise `Ngms` is `min(20, numIMiRealizations)` and nothing throws |
| Selection.Step1IntendedBounds | selector_server/client/js/selection.js:21-28 | with realizations, `1 <= Ngms <= min(20, numIMiRealizations)` |
| Selection.Step1Discrepancy | selector_server/client/js/selection.js:25-28 | the two differ exactly for counts that are nonzero and below 20 (e.g. 5) |
| Selection.ClampReplicates | selector_server/client/js/selection.js:33-38 | `Nreplicates` is `Ncomb` when that is below 5, else 5 |
| Selection.ReplicatesBounds | selector_server/client/js/selection.js:32-38 | with `Ngms <= numIMiRealizations`, `1 <= Nreplicates <= 5` |
| Selection.SwapCoordinates | selector_server/client/js/selection.js:44-46 | each `[x, p]` becomes `[p, x]` |
| Selection.SwapCoordinatesInvolution | selector_server/client/js/selection.js:44-46 | swapping twice restores the CDF |
| Selection.QuantileNone | selector_server/client/js/selection.js:44-49 | `Quantile(cdf, p)`, `interp_array` on the swapped CDF, is `null` exactly when `p` is outside the CDF's first and last probabilities |
| Selection.QuantileAtRow | selector_server/client/js/selection.js:44-49 | with strictly increasing probabilities, `Quantile` at a row's probability is that row's value |
| Selection.Summarize | selector_server/client/js/selection.js:42-53 | only the `median`/`sigma` fields change, and they are set |
| Selection.SummarizeMedian | selector_server/client/js/selection.js:47-53 | the median is the 0.5 quantile, `null` exactly when 0.5 is outside the CDF; the sigma is `0.5 * Math.log(x84 / x16)` of the 0.84 and 0.16 quantiles |
| Selection.GcimData.constructor | selector_server/client/js/parsing.js:56-65 | the object holds the given GCIM data |
| Selection.GcimData.Value | selector_server/client/js/parsing.js:56-65 | the object's value carries its current IMs and counts |
| Selection.SummarizeAll | selector_server/client/js/selection.js:41-54 | the first `numIMi` IMs are summarized in place, the rest unchanged; it runs to the end exactly when they all exist |
| Selection.AfterStep1 | selector_server/client/js/selection.js:30-54 | `Nreplicates` is the clamped `binomial(numIMiRealizations, Ngms)`, and every IM is summarized |
| Selection.SelectGroundMotions | selector_server/client/js/selection.js:14-57 | corrected Step 1: stops exactly without realizations and never throws. Otherwise `Ngms = min(20, n)`, `1 <= Nreplicates <= 5` and every IM is summarized. |
| Selection.SelectGroundMotionsAsWritten | selector_server/client/js/selection.js:14-57 | as written: throws exactly for counts that are nonzero and below 20, leaving the data untouched. Otherwise `Ngms = 20` and `Nreplicates` is the clamped `binomial(n, 20)`. The first `numIMi` IMs are summarized and the rest kept. A missing IM is reported exactly for counts of 20 or more with fewer than `numIMi` IMs. |
| Controller.Plot | selector_server/client/js/controller.js:19-45 | one chart per IM, labelled with its name, holding the red target CDF and the blue realization CDF with circles |
| Controller.Median | selector_server/client/js/controller.js:47-54 | the median of the first coordinates; `null` exactly for the empty list, where the JavaScript reads past the end and throws |
| Controller.MedianOfFirsts | selector_server/client/js/controller.js:47-54 | agrees with `util.median` on the first coordinates and splits a sorted list |
| Controller.IsSaPrefix | selector_server/client/js/controller.js:63 | `IsSa(name)` is `name.substr(0, 2) == 'SA'`, the two-character prefix |
| Controller.RealizationMedian | selector_server/client/js/controller.js:77 | the intended median of an IM's realizations sorted by value; `null` exactly when it has none |
| Controller.RealizationMedianSplits | selector_server/client/js/controller.js:47-54 | with realizations, the sorted list is a permutation of them and the median is at least its lower half and at most its upper half |
| Controller.SaIms | selector_server/client/js/controller.js:61-63 | the SA IMs, no more than there are IMs, all named `SA...` |
| Controller.SaImsEmpty | selector_server/client/js/controller.js:61-82 | there are no SA IMs exactly when no name starts with `SA` |
| Controller.SaImsAppend | selector_server/client/js/controller.js:61-63 | filtering distributes over concatenation |
| Controller.SaImsRealizations | selector_server/client/js/controller.js:73-74 | in a parsed file every SA IM has `numIMiRealizations` realizations |
| Controller.AddPeriod | selector_server/client/js/controller.js:71-75 | realization line `j` gains `[period, realizations[j][0]]` |
| Controller.EmptyLines | selector_server/client/js/controller.js:65-69 | one empty line per realization |
| Controller.AddSaIm | selector_server/client/js/controller.js:63-78 | one SA IM: fails exactly when its median does not exist; otherwise the lines so far grow by this IM's period points and its median |
| Controller.CollectSaLines | selector_server/client/js/controller.js:60-79 | fails only when some SA IM has no median. Otherwise line `j` holds `[period, value j]` for each SA IM in order, and the median line holds `[period, median]`. |
| Controller.DecimalString | selector_server/client/js/controller.js:90 | `'' + (i + 1)`: a non-empty string of decimal digits with no leading zero |
| Controller.DecimalStringValue | selector_server/client/js/controller.js:90 | reading the digits back gives the number |
| Controller.BuildSaChart | selector_server/client/js/controller.js:81-107 | `null` exactly without realization lines. Otherwise the period/SA axes, blue lines "Realization 1" .. "Realization n" without legend, then the red "GCIM median". |
| Controller.PlotSAAsWritten | selector_server/client/js/controller.js:57-108 | as written: throws exactly when the file has an SA IM, otherwise returns `null` |
| Controller.PlotSA | selector_server/client/js/controller.js:57-108 | corrected median: `null` exactly without SA IMs. It throws exactly with SA IMs but no realizations. Otherwise the chart of all realizations and the medians over period. |

## Left out

- `chart.js`, the charting directive and all drawing: the model stops at the chart data.
- `client/js/controller.js` and `handleFileSelect`: file reading, the network and the UI wiring are not part of this model.
- `console.log` output from `error` and `warning`, and `defaultFor`: not modelled.
- `parseFloat`, `parseInt` and `match(/\S+/g)` are parameters. For `parseInt`, `NaN` is not modelled: the counts are integers, and a negative count makes a loop run zero times.
- `NaN`, `undefined` arithmetic and `Math.max` on them: every number is a `real`.
- `Util.KsCriticalValue`: Miller's asymptotic formula for `n > 20` (powers, logarithms, square roots) is the parameter `asymptotic`; only the cap `min(value, 1 - alpha/2)` is modelled. `n` is an integer.
- `Util.Binomial`: the contract says nothing for a negative `N` with `K > 0`, where the source multiplies through negative factors.
- `Util.Sample`, `Util.SampleAsWritten`: `Math.random()` is a sequence of draws in `[0, 1)`. The contracts do not state uniformity, which is a claim about probabilities. A negative `k` returns nothing, as the source does. `n` is a `nat`, so the `RangeError` that `new Array(n)` throws for a negative `n` is not modelled.
- `Util.KsDiff`: requires every ground motion to have a scaled value for the IM; the source would push `undefined` and compare it. The error for an empty target with ground motions stands for the `TypeError` of reading `GCIMvalues[0][0]`.
- `Parsing.Parse`:
  - each row of a target CDF keeps its first two numbers (`$.map(data, parseFloat)` keeps all of them).
  - a row with fewer than two numbers, or a realization row narrower than `2*numIMi + 1` columns, is reported as `ShortRow`. The source stores `NaN` or a shorter row instead. It throws on an empty realization row (`null[2*j+1]` when there are IMs). What `$.map(null, parseFloat)` does for an empty CDF row depends on the jQuery version, which is not part of this model: some versions return `[]`, others throw.
- `Parsing.Trim`: the regular expression is modelled as a scan over JavaScript's whitespace characters.
- `Parsing.Substr`, `Parsing.ParseHeader`: strings are sequences of Unicode scalar values, while JavaScript's `substr` counts UTF-16 code units. A header line with characters outside the Basic Multilingual Plane would be cut at different offsets.
- The `type` variable of the header, which is never used.
- Selection from "Step 3a" on (replicates, bias assessment, the KS ranking).
- `Selection.SummarizeAll`: `Math.log(x84 / x16)` is the parameter `lnRatio`.
- `Selection.SelectGroundMotions`: the IMs are values in a sequence, so aliasing of IM objects shared elsewhere is not modelled. An `IMi[i]` missing for `i < numIMi` gives `MissingIM` here; the source throws there.
- `Controller.Plot`: requires at least `numIMi` IMs (true of every parsed file).
- `Controller.PlotSA`, `Controller.PlotSAAsWritten`: require the shape of a parsed file (`Consistent`), so every `realizations[j]` read exists.

## Findings

| source | as written | input that shows it | evidently intended | confidence | as-written member | corrected member |
|---|---|---|---|---|---|---|
| selector_server/client/js/util.js:103 | `index = Math.floor(i * Math.random())` picks among `0 .. i-1`, so element `i` never stays in place | `sample(n, 1)` for `n >= 2` never returns `n-1` | `Math.floor((i + 1) * Math.random())`, the Fisher–Yates draw among `0 .. i` | not executed | Util.SampleAsWritten | Util.Sample (with Util.LastIndexReachable) |
| selector_server/client/js/selection.js:26-27 | the warning message reads the undeclared variable `numIMiRealizations` | `GCIMdata.numIMiRealizations == 5` throws a `ReferenceError` | `GCIMdata.numIMiRealizations`, lowering `Ngms` to 5 | not executed | Selection.Step1AsWritten, Selection.SelectGroundMotionsAsWritten (Selection.Step1Discrepancy) | Selection.Step1Intended, Selection.SelectGroundMotions |
| selector_server/client/js/controller.js:77 | `median(IMi.sortedRealizations)` reads a property nothing sets, so `median` reads the length of `undefined` | any file with an IM named `SA(0.5)`: `plotSA` throws a `TypeError` | the median of the IM's realizations sorted by value | not executed | Controller.PlotSAAsWritten | Controller.PlotSA |
