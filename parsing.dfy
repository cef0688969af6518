/** `inputReader.parse`: reads the GCIM output file of OpenSHA into a `Gcim`.
    The text is split into lines, every line is trimmed, and a cursor walks
    a fixed layout: a header, one block per IM (`numz` target-CDF rows), and
    one row per realization holding a (value, sigma) pair per IM. */
module Parsing {
  import opened Types
  import opened Util

  // ---------------------------------------------------------------------
  // Lines: `inputText.split('\n')` and `str.replace(/^\s+|\s+$/g, '')`
  // ---------------------------------------------------------------------

  /** The characters the `\s` class of a JavaScript regular expression
      matches: the ASCII blanks, no-break space, the Unicode space
      separators, line and paragraph separator, and the byte order mark. */
  predicate IsJsSpace(c: char) {
    || c == ' ' || c == '\t' || c == '\n' || c == '\r'
    || c == '\U{000B}' || c == '\U{000C}' || c == '\U{00A0}' || c == '\U{1680}'
    || ('\U{2000}' <= c <= '\U{200A}')
    || c == '\U{2028}' || c == '\U{2029}' || c == '\U{202F}' || c == '\U{205F}'
    || c == '\U{3000}' || c == '\U{FEFF}'
  }

  ghost predicate AllSpace(s: string) {
    forall i :: 0 <= i < |s| ==> IsJsSpace(s[i])
  }

  /** The index of the first character at or after `i` that is not a
      space (`|s|` when there is none): where `^\s+` stops matching. */
  function SkipSpace(s: string, i: nat): (k: nat)
    requires i <= |s|
    ensures i <= k <= |s|
    ensures forall m :: i <= m < k ==> IsJsSpace(s[m])
    ensures k < |s| ==> !IsJsSpace(s[k])
    decreases |s| - i
  {
    if i < |s| && IsJsSpace(s[i]) then SkipSpace(s, i + 1) else i
  }

  /** The index just past the last character of `s[lo..j]` that is not a
      space (`lo` when there is none): where `\s+$` starts matching. */
  function SkipSpaceBack(s: string, lo: nat, j: nat): (k: nat)
    requires lo <= j <= |s|
    ensures lo <= k <= j
    ensures forall m :: k <= m < j ==> IsJsSpace(s[m])
    ensures k > lo ==> !IsJsSpace(s[k - 1])
    decreases j
  {
    if j > lo && IsJsSpace(s[j - 1]) then SkipSpaceBack(s, lo, j - 1) else j
  }

  /** `str.replace(/^\s+|\s+$/g, '')`. */
  function Trim(s: string): (r: string)
    ensures |r| <= |s|
    ensures |r| > 0 ==> !IsJsSpace(r[0]) && !IsJsSpace(r[|r| - 1])
  {
    var i := SkipSpace(s, 0);
    s[i..SkipSpaceBack(s, i, |s|)]
  }

  /** Trimming keeps exactly the middle of the line: a slice `s[i..j]` with
      only space outside it and no space at either of its ends. */
  lemma TrimIsSlice(s: string)
    ensures exists i, j ::
      && 0 <= i <= j <= |s| && Trim(s) == s[i..j]
      && AllSpace(s[..i]) && AllSpace(s[j..])
      && (|Trim(s)| > 0 ==> !IsJsSpace(Trim(s)[0]) && !IsJsSpace(Trim(s)[|Trim(s)| - 1]))
  {
    var i := SkipSpace(s, 0);
    var j := SkipSpaceBack(s, i, |s|);
    var r := s[i..j];
    assert AllSpace(s[..i]) by {
      forall m | 0 <= m < i ensures IsJsSpace(s[..i][m]) {
        assert s[..i][m] == s[m];
      }
    }
    assert AllSpace(s[j..]) by {
      forall m | 0 <= m < |s| - j ensures IsJsSpace(s[j..][m]) {
        assert s[j..][m] == s[j + m];
      }
    }
    if |r| > 0 {
      assert r[0] == s[i] && r[|r| - 1] == s[j - 1];
    }
  }

  /** Trimming a trimmed line changes nothing. */
  lemma TrimIdempotent(s: string)
    ensures Trim(Trim(s)) == Trim(s)
  {
    var r := Trim(s);
    TrimIsSlice(s);
    if |r| > 0 {
      assert SkipSpace(r, 0) == 0;
      assert SkipSpaceBack(r, 0, |r|) == |r|;
      assert r[0..|r|] == r;
    }
  }

  /** `s.split('\n')`: the pieces between line feeds, at least one. */
  function Split(s: string): (r: seq<string>)
    ensures |r| >= 1
    ensures forall i :: 0 <= i < |r| ==> '\n' !in r[i]
  {
    if |s| == 0 then [""]
    else
      var rest := Split(s[1..]);
      if s[0] == '\n' then [""] + rest
      else [[s[0]] + rest[0]] + rest[1..]
  }

  /** Puts the pieces back together with a line feed between neighbours. */
  function Join(parts: seq<string>): string
    requires |parts| >= 1
  {
    if |parts| == 1 then parts[0] else parts[0] + "\n" + Join(parts[1..])
  }

  /** Splitting loses nothing: joining the lines gives the text back. */
  lemma {:induction false} JoinSplit(s: string)
    ensures Join(Split(s)) == s
  {
    if |s| > 0 {
      var rest := Split(s[1..]);
      JoinSplit(s[1..]);
      if s[0] == '\n' {
        assert Split(s) == [""] + rest;
        assert Join(Split(s)) == "" + "\n" + Join(rest);
        assert s == [s[0]] + s[1..];
      } else {
        var head := [[s[0]] + rest[0]] + rest[1..];
        assert Split(s) == head;
        if |rest| == 1 {
          assert Join(head) == [s[0]] + rest[0];
        } else {
          assert head[1..] == rest[1..];
          assert Join(head) == [s[0]] + rest[0] + "\n" + Join(rest[1..]);
          assert Join(rest) == rest[0] + "\n" + Join(rest[1..]);
        }
        assert s == [s[0]] + s[1..];
      }
    }
  }

  /** The trimmed lines the parser reads. */
  function Lines(inputText: string): (lines: seq<string>)
    ensures |lines| == |Split(inputText)| && |lines| >= 1
    ensures forall k :: 0 <= k < |lines| ==> lines[k] == Trim(Split(inputText)[k])
  {
    var raw := Split(inputText);
    seq(|raw|, k requires 0 <= k < |raw| => Trim(raw[k]))
  }

  // ---------------------------------------------------------------------
  // Field extraction
  // ---------------------------------------------------------------------

  /** `s.substr(start)`: empty when `start` is past the end. */
  function Substr(s: string, start: nat): (r: string)
    ensures start <= |s| ==> r == s[start..]
    ensures start >= |s| ==> r == ""
  {
    if start <= |s| then s[start..] else ""
  }

  /** `s.substr(0, n)`. */
  function Prefix(s: string, n: nat): (r: string)
    ensures |r| == Min(n, |s|) && r == s[..|r|]
  {
    if n <= |s| then s[..n] else s
  }

  /** The period of an IM: `parseFloat(name.substr(4))` when the name starts
      with `SA` (as in `SA (1.0s)`), otherwise -1. */
  function SaPeriod(name: string, parseFloat: string -> real): (r: real)
    ensures |name| >= 2 && name[..2] == "SA" ==> r == parseFloat(Substr(name, 4))
    ensures !(|name| >= 2 && name[..2] == "SA") ==> r == -1.0
  {
    if Prefix(name, 2) == "SA" then parseFloat(Substr(name, 4)) else -1.0
  }

  /** One row of a target CDF: the first two numbers of the line. */
  function RowPair(data: seq<string>, parseFloat: string -> real): Point
    requires |data| >= 2
  {
    (parseFloat(data[0]), parseFloat(data[1]))
  }

  /** IM `j`'s (value, sigma) pair in one realization row. */
  function RealizationPair(data: seq<string>, j: nat, parseFloat: string -> real): Point
    requires 2 * j + 2 < |data|
  {
    (parseFloat(data[2 * j + 1]), parseFloat(data[2 * j + 2]))
  }

  // ---------------------------------------------------------------------
  // The layout the cursor walks
  // ---------------------------------------------------------------------

  // Lines 0 .. 9: a title, `IMj` (substr 17), the `Prob`/`IML` pair
  // (substr 7 each), a blank line, `numIMi` (substr 28), `numz`
  // (substr 33), `numIMiRealizations` (substr 29), two blank lines.
  const ImjLine := 1
  const FirstLevelLine := 2
  const SecondLevelLine := 3
  const NumImiLine := 5
  const NumZLine := 6
  const NumRealizationsLine := 7

  /** Block `j` is a dashed line, the name, `numz` rows and two blanks. */
  function BlockLength(numz: int): nat { Count(numz) + 4 }

  function NameLine(j: nat, numz: int): nat { 11 + j * BlockLength(numz) }

  function RowLine(j: nat, k: nat, numz: int): nat { 12 + j * BlockLength(numz) + k }

  /** The first realization row, after the blocks and two blank lines. */
  function RealizationBase(numIMi: int, numz: int): nat { 12 + Count(numIMi) * BlockLength(numz) }

  /** How a parse can fail: a line the cursor reads does not exist (reading
      `undefined.substr` or `undefined.match` throws), or a row has too few
      numbers for the columns read from it. */
  datatype ParseError = MissingLine(index: nat) | ShortRow(index: nat)

  /** The first `m` rows of block `j` exist and hold a pair each. */
  ghost predicate RowsReadable(lines: seq<string>, tokens: string -> seq<string>, numz: int, j: nat, m: nat) {
    forall k :: 0 <= k < m ==>
      RowLine(j, k, numz) < |lines| && |tokens(lines[RowLine(j, k, numz)])| >= 2
  }

  ghost predicate BlockReadable(lines: seq<string>, tokens: string -> seq<string>, numz: int, j: nat) {
    NameLine(j, numz) < |lines| && RowsReadable(lines, tokens, numz, j, Count(numz))
  }

  /** Realization row `i` exists and, when there are IMs, holds the
      `2 * numIMi + 1` columns read from it. */
  ghost predicate RealizationReadable(lines: seq<string>, tokens: string -> seq<string>, numIMi: int, numz: int, i: nat) {
    var l := RealizationBase(numIMi, numz) + i;
    l < |lines| && (Count(numIMi) > 0 ==> |tokens(lines[l])| >= 2 * Count(numIMi) + 1)
  }

  /** Every line the cursor reads exists and every row is long enough. */
  ghost predicate WellFormed(lines: seq<string>, parseInt: string -> int, tokens: string -> seq<string>) {
    && |lines| >= 8
    && var numIMi := parseInt(Substr(lines[NumImiLine], 28));
       var numz := parseInt(Substr(lines[NumZLine], 33));
       var numR := parseInt(Substr(lines[NumRealizationsLine], 29));
       && (forall j :: 0 <= j < Count(numIMi) ==> BlockReadable(lines, tokens, numz, j))
       && (forall i :: 0 <= i < Count(numR) ==> RealizationReadable(lines, tokens, numIMi, numz, i))
  }

  /** The header fields of `g` are those of lines 1 .. 7: the `IML` and
      `ProbLevel` lines trade places unless the first starts with `Prob`. */
  ghost predicate HeaderParsed(g: Gcim, lines: seq<string>, parseFloat: string -> real, parseInt: string -> int)
    requires |lines| >= 8
  {
    var first, second := lines[FirstLevelLine], lines[SecondLevelLine];
    && g.imjName == Substr(lines[ImjLine], 17)
    && g.imjPeriod == SaPeriod(g.imjName, parseFloat)
    && (Prefix(first, 4) == "Prob" ==>
          g.iml == parseFloat(Substr(second, 7)) && g.probLevel == parseFloat(Substr(first, 7)))
    && (Prefix(first, 4) != "Prob" ==>
          g.iml == parseFloat(Substr(first, 7)) && g.probLevel == parseFloat(Substr(second, 7)))
    && g.numIMi == parseInt(Substr(lines[NumImiLine], 28))
    && g.numz == parseInt(Substr(lines[NumZLine], 33))
    && g.numIMiRealizations == parseInt(Substr(lines[NumRealizationsLine], 29))
  }

  /** IM `j` was built from block `j`: its name line, weighting 1 and one
      target-CDF point per row. */
  ghost predicate BlockParsed(im: IntensityMeasure, lines: seq<string>, j: nat, numz: int,
                              parseFloat: string -> real, tokens: string -> seq<string>)
  {
    && BlockReadable(lines, tokens, numz, j)
    && im.name == Substr(lines[NameLine(j, numz)], 12)
    && im.period == SaPeriod(im.name, parseFloat)
    && im.weighting == 1.0
    && |im.gcimValues| == Count(numz)
    && forall k :: 0 <= k < |im.gcimValues| ==>
         im.gcimValues[k] == RowPair(tokens(lines[RowLine(j, k, numz)]), parseFloat)
  }

  /** The first `n` realizations of every IM come, in order, from the first
      `n` realization rows: IM `j` takes columns `2j+1` and `2j+2`. */
  ghost predicate RealizationsParsed(ims: seq<IntensityMeasure>, lines: seq<string>, numIMi: int, numz: int,
                                     n: nat, parseFloat: string -> real, tokens: string -> seq<string>)
  {
    && |ims| == Count(numIMi)
    && (forall j :: 0 <= j < |ims| ==> |ims[j].realizations| == n)
    && forall j, m :: 0 <= j < |ims| && 0 <= m < n ==>
         RealizationAt(ims[j].realizations, lines, numIMi, numz, j, m, parseFloat, tokens)
  }

  /** Realization `m` of IM `j` is the `j`-th pair of realization row `m`. */
  ghost predicate RealizationAt(rs: seq<Point>, lines: seq<string>, numIMi: int, numz: int, j: nat, m: nat,
                                parseFloat: string -> real, tokens: string -> seq<string>)
  {
    && m < |rs|
    && RealizationReadable(lines, tokens, numIMi, numz, m)
    && 2 * j + 2 < |tokens(lines[RealizationBase(numIMi, numz) + m])|
    && rs[m] == RealizationPair(tokens(lines[RealizationBase(numIMi, numz) + m]), j, parseFloat)
  }

  /** `BlockParsed` looks only at the name, period, weighting and target CDF. */
  lemma BlockParsedFrame(a: IntensityMeasure, b: IntensityMeasure, lines: seq<string>, j: nat, numz: int,
                         parseFloat: string -> real, tokens: string -> seq<string>)
    requires BlockParsed(a, lines, j, numz, parseFloat, tokens)
    requires a.name == b.name && a.period == b.period && a.weighting == b.weighting && a.gcimValues == b.gcimValues
    ensures BlockParsed(b, lines, j, numz, parseFloat, tokens)
  {
  }

  /** `RealizationsParsed` looks only at the realizations. */
  lemma RealizationsParsedFrame(a: seq<IntensityMeasure>, b: seq<IntensityMeasure>, lines: seq<string>,
                                numIMi: int, numz: int, n: nat, parseFloat: string -> real, tokens: string -> seq<string>)
    requires RealizationsParsed(a, lines, numIMi, numz, n, parseFloat, tokens)
    requires |a| == |b| && forall j :: 0 <= j < |a| ==> a[j].realizations == b[j].realizations
    ensures RealizationsParsed(b, lines, numIMi, numz, n, parseFloat, tokens)
  {
    forall j, m | 0 <= j < |b| && 0 <= m < n
      ensures RealizationAt(b[j].realizations, lines, numIMi, numz, j, m, parseFloat, tokens)
    {
      assert a[j].realizations == b[j].realizations;
    }
    assert forall j :: 0 <= j < |b| ==> |b[j].realizations| == n by {
      forall j | 0 <= j < |b| ensures |b[j].realizations| == n {
        assert a[j].realizations == b[j].realizations;
      }
    }
  }

  /** Appending the pairs of realization row `n` extends the parsed
      prefix by one row. */
  lemma RealizationsParsedStep(ims: seq<IntensityMeasure>, out: seq<IntensityMeasure>, data: seq<string>,
                               lines: seq<string>, numIMi: int, numz: int, n: nat,
                               parseFloat: string -> real, tokens: string -> seq<string>)
    requires RealizationsParsed(ims, lines, numIMi, numz, n, parseFloat, tokens)
    requires RealizationReadable(lines, tokens, numIMi, numz, n)
    requires data == tokens(lines[RealizationBase(numIMi, numz) + n])
    requires |out| == |ims|
    requires forall q :: 0 <= q < |ims| ==>
      out[q].realizations == ims[q].realizations + [RealizationPair(data, q, parseFloat)]
    ensures RealizationsParsed(out, lines, numIMi, numz, n + 1, parseFloat, tokens)
  {
    assert forall j :: 0 <= j < |out| ==> |out[j].realizations| == n + 1 by {
      forall j | 0 <= j < |out| ensures |out[j].realizations| == n + 1 {
        assert out[j].realizations == ims[j].realizations + [RealizationPair(data, j, parseFloat)];
      }
    }
    forall j, m | 0 <= j < |out| && 0 <= m < n + 1
      ensures RealizationAt(out[j].realizations, lines, numIMi, numz, j, m, parseFloat, tokens)
    {
      var rs := out[j].realizations;
      assert rs == ims[j].realizations + [RealizationPair(data, j, parseFloat)];
      assert |ims[j].realizations| == n;
      if m < n {
        assert RealizationAt(ims[j].realizations, lines, numIMi, numz, j, m, parseFloat, tokens);
        assert rs[m] == ims[j].realizations[m];
      } else {
        assert rs[m] == RealizationPair(data, j, parseFloat);
      }
    }
  }

  lemma BlockSteps(i: nat, numz: int)
    ensures NameLine(i, numz) == 10 + i * BlockLength(numz) + 1
    ensures 10 + (i + 1) * BlockLength(numz) == RowLine(i, Count(numz), numz) + 2
  {
  }

  /** One pass of the IM loop: the dashed line, the name line and `numz`
      rows of target CDF, then two blank lines. */
  method ParseBlock(lines: seq<string>, currentLine: nat, i: nat, numz: int,
                    parseFloat: string -> real, tokens: string -> seq<string>)
    returns (r: Result<IntensityMeasure, ParseError>, next: nat)
    requires currentLine == 10 + i * BlockLength(numz)
    ensures r.Ok? <==> BlockReadable(lines, tokens, numz, i)
    ensures r.Err? && r.error.MissingLine? ==> r.error.index >= |lines|
    ensures r.Err? && r.error.ShortRow? ==> r.error.index < |lines|
    ensures r.Ok? ==> && BlockParsed(r.value, lines, i, numz, parseFloat, tokens)
                      && r.value.realizations == [] && r.value.summary == Unsummarized
                      && next == currentLine + BlockLength(numz)
  {
    BlockSteps(i, numz);
    var cursor := currentLine + 1;
    if cursor >= |lines| {
      return Err(MissingLine(cursor)), cursor;
    }
    var name := Substr(lines[cursor], 12);
    cursor := cursor + 1;
    var period := SaPeriod(name, parseFloat);
    var gcimValues: seq<Point> := [];
    var z := 0;
    while z < numz
      invariant 0 <= z <= Count(numz)
      invariant cursor == RowLine(i, z, numz)
      invariant |gcimValues| == z
      invariant RowsReadable(lines, tokens, numz, i, z)
      invariant forall k :: 0 <= k < z ==> gcimValues[k] == RowPair(tokens(lines[RowLine(i, k, numz)]), parseFloat)
    {
      if cursor >= |lines| {
        assert !RowsReadable(lines, tokens, numz, i, Count(numz));
        return Err(MissingLine(cursor)), cursor;
      }
      var data := tokens(lines[cursor]);
      if |data| < 2 {
        assert !RowsReadable(lines, tokens, numz, i, Count(numz));
        return Err(ShortRow(cursor)), cursor;
      }
      gcimValues := gcimValues + [RowPair(data, parseFloat)];
      cursor := cursor + 1;
      z := z + 1;
    }
    next := cursor + 2;
    r := Ok(IntensityMeasure(name, period, 1.0, gcimValues, [], [], Unsummarized));
  }

  /** The IM loop: `numIMi` blocks from line 10 on, in order. */
  method ParseBlocks(lines: seq<string>, numIMi: int, numz: int,
                     parseFloat: string -> real, tokens: string -> seq<string>)
    returns (r: Result<seq<IntensityMeasure>, ParseError>, next: nat)
    ensures r.Ok? <==> forall j :: 0 <= j < Count(numIMi) ==> BlockReadable(lines, tokens, numz, j)
    ensures r.Err? && r.error.MissingLine? ==> r.error.index >= |lines|
    ensures r.Err? && r.error.ShortRow? ==> r.error.index < |lines|
    ensures r.Ok? ==> && |r.value| == Count(numIMi)
                      && next == 10 + Count(numIMi) * BlockLength(numz)
                      && forall j :: 0 <= j < |r.value| ==>
                           && BlockParsed(r.value[j], lines, j, numz, parseFloat, tokens)
                           && r.value[j].realizations == [] && r.value[j].summary == Unsummarized
  {
    var ims: seq<IntensityMeasure> := [];
    var currentLine := 10;
    var i := 0;
    while i < numIMi
      invariant 0 <= i <= Count(numIMi)
      invariant currentLine == 10 + i * BlockLength(numz)
      invariant |ims| == i
      invariant forall j :: 0 <= j < i ==> BlockReadable(lines, tokens, numz, j)
      invariant forall j :: 0 <= j < i ==> BlockParsed(ims[j], lines, j, numz, parseFloat, tokens)
      invariant forall j :: 0 <= j < i ==> ims[j].realizations == [] && ims[j].summary == Unsummarized
    {
      var block;
      block, currentLine := ParseBlock(lines, currentLine, i, numz, parseFloat, tokens);
      if block.Err? {
        return Err(block.error), currentLine;
      }
      var grown := ims + [block.value];
      assert forall j :: 0 <= j < i ==> grown[j] == ims[j];
      assert grown[i] == block.value;
      ims := grown;
      i := i + 1;
    }
    r, next := Ok(ims), currentLine;
  }

  /** The inner loop over one realization row: IM `j` gets the pair in
      columns `2j+1` and `2j+2` appended to its realizations. */
  method AppendRealizationRow(ims: seq<IntensityMeasure>, data: seq<string>, parseFloat: string -> real)
    returns (out: seq<IntensityMeasure>)
    requires |ims| > 0 ==> |data| >= 2 * |ims| + 1
    ensures |out| == |ims|
    ensures forall q :: 0 <= q < |ims| ==>
      out[q] == ims[q].(realizations := ims[q].realizations + [RealizationPair(data, q, parseFloat)])
  {
    out := ims;
    for j := 0 to |ims|
      invariant |out| == |ims|
      invariant forall q :: 0 <= q < j ==>
        out[q] == ims[q].(realizations := ims[q].realizations + [RealizationPair(data, q, parseFloat)])
      invariant forall q :: j <= q < |ims| ==> out[q] == ims[q]
    {
      out := out[j := out[j].(realizations := out[j].realizations + [RealizationPair(data, j, parseFloat)])];
    }
  }

  /** The realization loop: `numIMiRealizations` rows from the realization
      base on; nothing but the realizations of the IMs changes. */
  method ParseRealizations(lines: seq<string>, blocks: seq<IntensityMeasure>, numIMi: int, numz: int, numR: int,
                           parseFloat: string -> real, tokens: string -> seq<string>)
    returns (r: Result<seq<IntensityMeasure>, ParseError>, next: nat)
    requires |blocks| == Count(numIMi)
    requires forall j :: 0 <= j < |blocks| ==> blocks[j].realizations == []
    ensures r.Ok? <==> forall m :: 0 <= m < Count(numR) ==> RealizationReadable(lines, tokens, numIMi, numz, m)
    ensures r.Err? && r.error.MissingLine? ==> r.error.index >= |lines|
    ensures r.Err? && r.error.ShortRow? ==> r.error.index < |lines|
    ensures r.Ok? ==> && |r.value| == |blocks|
                      && next == RealizationBase(numIMi, numz) + Count(numR)
                      && (forall j :: 0 <= j < |blocks| ==>
                            r.value[j] == blocks[j].(realizations := r.value[j].realizations))
                      && RealizationsParsed(r.value, lines, numIMi, numz, Count(numR), parseFloat, tokens)
  {
    var ims := blocks;
    var currentLine := RealizationBase(numIMi, numz);
    var n := 0;
    while n < numR
      invariant 0 <= n <= Count(numR)
      invariant currentLine == RealizationBase(numIMi, numz) + n
      invariant |ims| == |blocks|
      invariant forall j :: 0 <= j < |ims| ==> ims[j] == blocks[j].(realizations := ims[j].realizations)
      invariant forall m :: 0 <= m < n ==> RealizationReadable(lines, tokens, numIMi, numz, m)
      invariant RealizationsParsed(ims, lines, numIMi, numz, n, parseFloat, tokens)
    {
      if currentLine >= |lines| {
        assert !RealizationReadable(lines, tokens, numIMi, numz, n);
        return Err(MissingLine(currentLine)), currentLine;
      }
      var data := tokens(lines[currentLine]);
      if |ims| > 0 && |data| < 2 * |ims| + 1 {
        assert !RealizationReadable(lines, tokens, numIMi, numz, n);
        return Err(ShortRow(currentLine)), currentLine;
      }
      currentLine := currentLine + 1;
      var appended := AppendRealizationRow(ims, data, parseFloat);
      RealizationsParsedStep(ims, appended, data, lines, numIMi, numz, n, parseFloat, tokens);
      ims := appended;
      n := n + 1;
    }
    r, next := Ok(ims), currentLine;
  }

  /** The last loop: `realizationCDF = build_cdf` of the realizations' first
      coordinates, for every IM; nothing else changes. */
  method AddRealizationCdfs(withRealizations: seq<IntensityMeasure>) returns (ims: seq<IntensityMeasure>)
    ensures |ims| == |withRealizations|
    ensures forall q :: 0 <= q < |ims| ==>
      ims[q] == withRealizations[q].(realizationCdf := StepCdf(Sort(Firsts(withRealizations[q].realizations))))
    ensures forall q :: 0 <= q < |ims| ==> |ims[q].realizationCdf| == 2 * |ims[q].realizations|
  {
    ims := withRealizations;
    for k := 0 to |ims|
      invariant |ims| == |withRealizations|
      invariant forall q :: 0 <= q < k ==>
        ims[q] == withRealizations[q].(realizationCdf := StepCdf(Sort(Firsts(withRealizations[q].realizations))))
      invariant forall q :: k <= q < |ims| ==> ims[q] == withRealizations[q]
      invariant forall q :: 0 <= q < k ==> |ims[q].realizationCdf| == 2 * |ims[q].realizations|
    {
      var cdf := BuildCdf(Firsts(ims[k].realizations));
      ims := ims[k := ims[k].(realizationCdf := cdf)];
    }
  }

  /** Lines 1 .. 9: the `GCIMoutput` object before any IM is added. */
  method ParseHeader(lines: seq<string>, parseFloat: string -> real, parseInt: string -> int)
    returns (header: Gcim, next: nat)
    requires |lines| >= 8
    ensures HeaderParsed(header, lines, parseFloat, parseInt)
    ensures header.ims == [] && next == 10
  {
    var currentLine := 1;
    var imjName := Substr(lines[currentLine], 17);
    currentLine := currentLine + 1;
    var imjPeriod := SaPeriod(imjName, parseFloat);
    var probImlName1 := lines[currentLine];
    var probImlName2 := lines[currentLine + 1];
    currentLine := currentLine + 2;
    var iml, probLevel;
    if Prefix(probImlName1, 4) == "Prob" {
      iml, probLevel := parseFloat(Substr(probImlName2, 7)), parseFloat(Substr(probImlName1, 7));
    } else {
      iml, probLevel := parseFloat(Substr(probImlName1, 7)), parseFloat(Substr(probImlName2, 7));
    }
    currentLine := currentLine + 1;
    var numIMi := parseInt(Substr(lines[currentLine], 28));
    var numz := parseInt(Substr(lines[currentLine + 1], 33));
    var numR := parseInt(Substr(lines[currentLine + 2], 29));
    currentLine := currentLine + 3 + 2;
    header := Gcim(imjName, imjPeriod, iml, probLevel, numIMi, numz, numR, []);
    next := currentLine;
  }

  /** Everything a successful parse promises about its result. */
  ghost predicate ParsedFrom(g: Gcim, lines: seq<string>, parseFloat: string -> real,
                             parseInt: string -> int, tokens: string -> seq<string>)
  {
    && |lines| >= 8
    && HeaderParsed(g, lines, parseFloat, parseInt)
    && Consistent(g)
    && (forall j :: 0 <= j < |g.ims| ==> BlockParsed(g.ims[j], lines, j, g.numz, parseFloat, tokens))
    && RealizationsParsed(g.ims, lines, g.numIMi, g.numz, Count(g.numIMiRealizations), parseFloat, tokens)
    && forall j :: 0 <= j < |g.ims| ==>
         && g.ims[j].realizationCdf == StepCdf(Sort(Firsts(g.ims[j].realizations)))
         && g.ims[j].summary == Unsummarized
  }

  /** The header, the blocks, the realization rows and the CDFs put
      together make a parse of a well-formed file. */
  lemma Assembled(header: Gcim, blocks: seq<IntensityMeasure>, withRealizations: seq<IntensityMeasure>,
                  ims: seq<IntensityMeasure>, lines: seq<string>,
                  parseFloat: string -> real, parseInt: string -> int, tokens: string -> seq<string>)
    requires |lines| >= 8 && HeaderParsed(header, lines, parseFloat, parseInt)
    requires |blocks| == Count(header.numIMi)
    requires forall j :: 0 <= j < Count(header.numIMi) ==> BlockReadable(lines, tokens, header.numz, j)
    requires forall j :: 0 <= j < |blocks| ==> BlockParsed(blocks[j], lines, j, header.numz, parseFloat, tokens)
    requires forall j :: 0 <= j < |blocks| ==> blocks[j].summary == Unsummarized
    requires forall m :: 0 <= m < Count(header.numIMiRealizations) ==>
      RealizationReadable(lines, tokens, header.numIMi, header.numz, m)
    requires |withRealizations| == |blocks|
    requires forall j :: 0 <= j < |blocks| ==>
      withRealizations[j] == blocks[j].(realizations := withRealizations[j].realizations)
    requires RealizationsParsed(withRealizations, lines, header.numIMi, header.numz,
                                Count(header.numIMiRealizations), parseFloat, tokens)
    requires |ims| == |withRealizations|
    requires forall q :: 0 <= q < |ims| ==>
      ims[q] == withRealizations[q].(realizationCdf := StepCdf(Sort(Firsts(withRealizations[q].realizations))))
    requires forall q :: 0 <= q < |ims| ==> |ims[q].realizationCdf| == 2 * |ims[q].realizations|
    ensures WellFormed(lines, parseInt, tokens)
    ensures ParsedFrom(header.(ims := ims), lines, parseFloat, parseInt, tokens)
  {
    var numz, numR := header.numz, header.numIMiRealizations;
    forall j | 0 <= j < |ims|
      ensures BlockParsed(ims[j], lines, j, numz, parseFloat, tokens)
      ensures ims[j].realizations == withRealizations[j].realizations
      ensures ims[j].summary == Unsummarized
      ensures ims[j].realizationCdf == StepCdf(Sort(Firsts(ims[j].realizations)))
      ensures |ims[j].gcimValues| == Count(numz)
      ensures |ims[j].realizations| == Count(numR)
      ensures |ims[j].realizationCdf| == 2 * Count(numR)
    {
      BlockParsedFrame(blocks[j], ims[j], lines, j, numz, parseFloat, tokens);
    }
    RealizationsParsedFrame(withRealizations, ims, lines, header.numIMi, numz, Count(numR), parseFloat, tokens);
    var g := header.(ims := ims);
    assert HeaderParsed(g, lines, parseFloat, parseInt);
    assert Consistent(g);
  }

  /** `inputReader.parse(inputText)`, with `parseFloat`, `parseInt` and the
      `/\S+/g` tokeniser (an empty sequence where `match` gives `null`)
      as parameters. `consumed` is the final value of the line cursor. */
  method Parse(inputText: string, parseFloat: string -> real, parseInt: string -> int, tokens: string -> seq<string>)
    returns (r: Result<Gcim, ParseError>, consumed: nat)
    ensures r.Ok? <==> WellFormed(Lines(inputText), parseInt, tokens)
    ensures r.Err? && r.error.MissingLine? ==> r.error.index >= |Lines(inputText)|
    ensures r.Err? && r.error.ShortRow? ==> r.error.index < |Lines(inputText)|
    ensures r.Ok? ==> ParsedFrom(r.value, Lines(inputText), parseFloat, parseInt, tokens)
    ensures r.Ok? ==> consumed == RealizationBase(r.value.numIMi, r.value.numz) + Count(r.value.numIMiRealizations)
  {
    var lines := Lines(inputText);
    if |lines| < 8 {
      // The header reads lines 1, 2, 3, 5, 6 and 7; line 4 is skipped.
      var missing := if |lines| == 4 then 5 else |lines|;
      return Err(MissingLine(missing)), missing;
    }
    var header, currentLine := ParseHeader(lines, parseFloat, parseInt);
    var blocks;
    blocks, currentLine := ParseBlocks(lines, header.numIMi, header.numz, parseFloat, tokens);
    if blocks.Err? {
      return Err(blocks.error), currentLine;
    }
    currentLine := currentLine + 2;
    var withRealizations;
    withRealizations, currentLine := ParseRealizations(lines, blocks.value, header.numIMi, header.numz,
                                                       header.numIMiRealizations, parseFloat, tokens);
    if withRealizations.Err? {
      return Err(withRealizations.error), currentLine;
    }
    var ims := AddRealizationCdfs(withRealizations.value);
    Assembled(header, blocks.value, withRealizations.value, ims, lines, parseFloat, parseInt, tokens);
    r, consumed := Ok(header.(ims := ims)), currentLine;
  }
}
