/** The window-sizing helpers of web/app/services/global_training.py:
    chunk lengths shrunk to fit the shortest series, the RNN training
    length, the shortest usable series, the validation ratio, and the
    length of the training part a split leaves. Ratios are exact reals;
    `int(x)` of a non-negative ratio product is `Floor`. */
module TrainingSizing {
  import opened Common

  /** `min_input` of `_resolve_chunk_lengths`. */
  const MinInput: int := 5

  function RMin(a: real, b: real): real { if a <= b then a else b }

  function RMax(a: real, b: real): real { if a >= b then a else b }

  datatype Chunks = Chunks(input: int, output: int)

  /** `_resolve_chunk_lengths`: the requested input and output chunk
      lengths, shrunk so that a series of `seriesLen` points holds one
      input window followed by one output window. */
  function ResolveChunkLengths(seriesLen: int, inputChunkLength: int, outputChunkLength: int): (c: Chunks)
    ensures c.output >= 1 && c.input >= 3
    ensures seriesLen >= 4 ==> c.input + c.output <= seriesLen
    ensures seriesLen >= 6 ==> c.input >= MinInput
    ensures c.input <= Max(MinInput, inputChunkLength) && c.output <= Max(1, outputChunkLength)
    ensures inputChunkLength >= MinInput && outputChunkLength >= 1
            && seriesLen >= inputChunkLength + outputChunkLength
            ==> c == Chunks(inputChunkLength, outputChunkLength)
  {
    var output0 := Max(1, outputChunkLength);
    var output := if seriesLen - output0 < MinInput then Max(1, seriesLen - MinInput) else output0;
    var input0 := Max(MinInput, Min(inputChunkLength, seriesLen - output));
    var input := if input0 + output > seriesLen then Max(3, seriesLen - output) else input0;
    Chunks(input, output)
  }

  /** `_resolve_training_length`: the requested training length capped by
      the series length, but never below the input chunk. */
  function ResolveTrainingLength(seriesLen: int, inputChunk: int, trainingLength: int): (t: int)
    ensures t >= inputChunk
    ensures Min(trainingLength, seriesLen) >= inputChunk ==> t == Min(trainingLength, seriesLen)
    ensures Min(trainingLength, seriesLen) < inputChunk ==> t == inputChunk
    ensures t <= Max(inputChunk, seriesLen) && t <= Max(inputChunk, trainingLength)
  {
    Max(inputChunk, Min(trainingLength, seriesLen))
  }

  /** `_min_required_length`: the shortest series a model of the family
      can be fitted or validated on, one lookback window plus at least one
      target point. */
  function MinRequiredLength(modelFamily: string, inputChunk: int, outputChunk: int, trainingLength: int): (m: int)
    ensures m >= inputChunk + 1 && m >= inputChunk + outputChunk
    ensures modelFamily == "RNNModel" ==>
              m >= trainingLength + 1 && m >= trainingLength + outputChunk
              && (m == inputChunk + Max(1, outputChunk) || m == trainingLength + Max(1, outputChunk))
    ensures modelFamily != "RNNModel" ==> m - Max(1, outputChunk) == inputChunk
  {
    if modelFamily == "RNNModel" then Max(inputChunk, trainingLength) + Max(1, outputChunk)
    else inputChunk + Max(1, outputChunk)
  }

  /** Two ratios over the same positive length whose numerators add up to
      that length add up to one. */
  lemma RatiosSumToOne(a: real, b: real, n: real)
    requires n > 0.0 && a + b == n
    ensures a / n + b / n == 1.0
  {
    assert a / n + b / n == (a + b) / n;
  }

  /** `a <= n * d` bounds the ratio `a / n` by `d`. */
  lemma RatioBelow(a: real, n: real, d: real)
    requires n > 0.0 && a <= n * d
    ensures a / n <= d
  {
    assert (n * d) / n == d;
  }

  /** `n * d <= b` bounds `d` by the ratio `b / n`. */
  lemma RatioAbove(b: real, n: real, d: real)
    requires n > 0.0 && n * d <= b
    ensures d <= b / n
  {
    assert (n * d) / n == d;
  }

  /** `_resolve_val_split`: the requested validation ratio, clamped to
      [0, 0.5], then moved into the range where both the validation part
      and the training part of the shortest series hold `minRequired`
      points; 0 when no such ratio exists. */
  function ResolveValSplit(desired: real, minSeriesLen: int, minRequired: int): (r: real)
    ensures 0.0 <= r <= 0.5
    ensures desired <= 0.0 || minSeriesLen <= 0 ==> r == 0.0
    ensures desired > 0.0 && minSeriesLen > 0 && minRequired <= 0 ==> r == RMin(0.5, desired)
    ensures minRequired > 0 && r > 0.0 ==>
              (minSeriesLen as real * r).Floor >= minRequired
              && minSeriesLen - (minSeriesLen as real * r).Floor >= minRequired
  {
    if desired <= 0.0 || minSeriesLen <= 0 then 0.0
    else
      var ratio := RMin(0.5, RMax(0.0, desired));
      if minRequired <= 0 then ratio
      else
        var n := minSeriesLen as real;
        var minRatio := minRequired as real / n;
        var maxRatio := (minSeriesLen - minRequired) as real / n;
        RatiosSumToOne(minRequired as real, (minSeriesLen - minRequired) as real, n);
        if minRatio > maxRatio || maxRatio <= 0.0 then 0.0
        else
          var r1 := if ratio < minRatio then minRatio else ratio;
          var r2 := if r1 > maxRatio then maxRatio else r1;
          var valLen := (n * r2).Floor;
          var trainLen := minSeriesLen - valLen;
          if valLen < minRequired || trainLen < minRequired then 0.0 else r2
  }

  /** A requested ratio whose validation and training parts of the
      shortest series both hold `minRequired` points is kept as it is. */
  lemma ResolveValSplitKeepsFeasible(desired: real, minSeriesLen: int, minRequired: int)
    requires desired <= 0.5 && minSeriesLen > 0 && minRequired > 0
    requires minRequired as real <= minSeriesLen as real * desired <= (minSeriesLen - minRequired) as real
    ensures ResolveValSplit(desired, minSeriesLen, minRequired) == desired
  {
    var n := minSeriesLen as real;
    RatioBelow(minRequired as real, n, desired);
    RatioAbove((minSeriesLen - minRequired) as real, n, desired);
    RatiosSumToOne(minRequired as real, (minSeriesLen - minRequired) as real, n);
    assert desired > 0.0;
    assert (n * desired).Floor >= minRequired;
  }

  /** A real between two integers has its floor between them. */
  lemma FloorBetween(x: real, lo: int, hi: int)
    requires lo as real <= x <= hi as real
    ensures lo <= x.Floor <= hi
  {
  }

  /** Keeping `1 - ratio` of `n` points, with `ratio` in [0, 0.5], keeps
      between half of them and all of them. */
  lemma KeptPartBounds(n: nat, ratio: real)
    requires 0.0 <= ratio <= 0.5
    ensures (n / 2) as real <= n as real * (1.0 - ratio) <= n as real
  {
    var x := n as real;
    var d := 0.5 - ratio;
    NonNegativeProduct(x, d);
    NonNegativeProduct(x, ratio);
    assert x * (1.0 - ratio) == x / 2.0 + x * d;
    assert x * (1.0 - ratio) == x - x * ratio;
    HalfBelow(n);
  }

  lemma NonNegativeProduct(a: real, b: real)
    requires a >= 0.0 && b >= 0.0
    ensures a * b >= 0.0
  {
  }

  /** Integer halving rounds down. */
  lemma HalfBelow(n: nat)
    ensures (n / 2) as real <= n as real / 2.0
  {
    var h := n / 2;
    assert 2 * h <= n;
    assert (2 * h) as real == 2.0 * h as real;
  }

  datatype SplitLengths = SplitLengths(trainLen: int, valLen: Option<int>)

  /** The lengths `_split_series` gives for a series of `seriesLen`
      points: `split_before(1 - ratio)` cuts at `int(len * (1 - ratio))`,
      and an empty validation part is `None`. */
  function SplitSeriesLengths(seriesLen: nat, valSplit: real): (s: SplitLengths)
    ensures valSplit <= 0.0 ==> s == SplitLengths(seriesLen, None)
    ensures 0 <= s.trainLen <= seriesLen
    ensures s.trainLen >= seriesLen / 2
    ensures s.valLen.None? <==> s.trainLen == seriesLen
    ensures s.valLen.Some? ==> s.valLen.value == seriesLen - s.trainLen > 0
    ensures valSplit > 0.0 ==>
              s.trainLen as real <= seriesLen as real * (1.0 - RMin(0.5, valSplit)) < s.trainLen as real + 1.0
  {
    if valSplit <= 0.0 then SplitLengths(seriesLen, None)
    else
      var ratio := RMin(0.5, RMax(0.0, valSplit));
      var cut := (seriesLen as real * (1.0 - ratio)).Floor;
      KeptPartBounds(seriesLen, ratio);
      FloorBetween(seriesLen as real * (1.0 - ratio), seriesLen / 2, seriesLen);
      SplitLengths(cut, if seriesLen - cut > 0 then Some(seriesLen - cut) else None)
  }

  /** Worked values of the chunk resolution: a long series keeps the
      requested chunks, short ones shrink them. */
  lemma ChunkExamples()
    ensures ResolveChunkLengths(400, 180, 30) == Chunks(180, 30)
    ensures ResolveChunkLengths(40, 180, 30) == Chunks(10, 30)
    ensures ResolveChunkLengths(6, 180, 1) == Chunks(5, 1)
    ensures ResolveChunkLengths(4, 180, 1) == Chunks(3, 1)
  {
  }
}
