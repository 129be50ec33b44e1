/** The deterministic part of `train_global_model` in
    web/app/services/global_training.py: which assets enter training, how
    the window sizes follow the shortest series, the loop that drops
    assets too short to train on until the sizing is stable, the date
    range recorded for the run, and the validation ratio recorded once the
    fit has run. The fit itself belongs to Darts and is represented only
    by its outcome. */
module GlobalTraining {
  import opened Common
  import opened Text
  import opened Series
  import opened Numerics
  import opened PriceFrame
  import opened TrainingSizing

  const NotEnoughData: string := "Not enough data to train a global model."

  const NoCryptoIds: string := "No crypto ids provided for training."

  /** What the intake loop keeps of one asset: its return series and the
      date of its last price. */
  datatype Payload = Payload(cryptoId: int, series: seq<ReturnPoint>, cutoffDate: Date)

  /** A return series has one point per calendar day. */
  ghost predicate Daily(series: seq<ReturnPoint>)
  {
    forall k :: 0 <= k < |series| ==> series[k].date == series[0].date + k
  }

  /** A payload as the intake builds it: at least 6 daily returns, and
      the cutoff is the date of the last one. */
  ghost predicate WellFormed(p: Payload)
  {
    |p.series| >= 6 && Daily(p.series) && p.cutoffDate == p.series[|p.series| - 1].date
  }

  /** The frame and return checks of one pass of the intake loop: `None`
      when the frame has fewer than 6 days or the return series fewer
      than 6 points. */
  function PayloadOf(cryptoId: int, rows: seq<PricePoint>, m: Primitives): (r: Option<Payload>)
    requires KeysUnique(rows, PointDate)
    ensures r.Some? ==> r.value.cryptoId == cryptoId && WellFormed(r.value)
    ensures r.Some? <==> rows != [] && |BuildPriceFrame(rows).value| >= 7
  {
    var frame := BuildPriceFrame(rows);
    if frame.None? || |frame.value| < 6 then None
    else
      var series := ReturnSeries(frame.value, m);
      if series.None? || |series.value| < 6 then None
      else Some(Payload(cryptoId, series.value, frame.value[|frame.value| - 1].date))
  }

  /** One pass of the intake loop: the asset's price series from
      `fetch_price_series`, then its frame and returns. */
  function AssetPayload(prices: seq<PriceRow>, cryptoId: int, trainingDays: int, today: Date, m: Primitives)
    : (r: Option<Payload>)
    requires UniqueCryptoDate(prices)
    ensures r.Some? ==> r.value.cryptoId == cryptoId && WellFormed(r.value)
  {
    var rows := FetchPriceSeries(prices, cryptoId, trainingDays, today);
    FetchPriceSeriesStrictlyAscending(prices, cryptoId, trainingDays, today);
    PayloadOf(cryptoId, rows, m)
  }

  /** The payloads the intake loop collects, in the order of `cryptoIds`. */
  function Intake(prices: seq<PriceRow>, cryptoIds: seq<int>, trainingDays: int, today: Date, m: Primitives)
    : (r: seq<Payload>)
    requires UniqueCryptoDate(prices)
    ensures forall p :: p in r ==> WellFormed(p) && p.cryptoId in cryptoIds
    ensures |r| <= |cryptoIds|
  {
    if cryptoIds == [] then []
    else
      var init := cryptoIds[..|cryptoIds| - 1];
      var last := AssetPayload(prices, cryptoIds[|cryptoIds| - 1], trainingDays, today, m);
      var rest := Intake(prices, init, trainingDays, today, m);
      assert forall p :: p in rest ==> p.cryptoId in cryptoIds by {
        forall p | p in rest ensures p.cryptoId in cryptoIds {
          var i :| 0 <= i < |init| && init[i] == p.cryptoId;
          assert cryptoIds[i] == init[i];
        }
      }
      rest + (if last.Some? then [last.value] else [])
  }

  /** Every payload of the intake is the one its own asset yields: the
      intake invents nothing. */
  lemma {:induction false} IntakeOnlyEligible(prices: seq<PriceRow>, cryptoIds: seq<int>, trainingDays: int,
                                              today: Date, m: Primitives, x: Payload)
    requires UniqueCryptoDate(prices)
    requires x in Intake(prices, cryptoIds, trainingDays, today, m)
    ensures AssetPayload(prices, x.cryptoId, trainingDays, today, m) == Some(x)
  {
    var init := cryptoIds[..|cryptoIds| - 1];
    var last := AssetPayload(prices, cryptoIds[|cryptoIds| - 1], trainingDays, today, m);
    var rest := Intake(prices, init, trainingDays, today, m);
    assert Intake(prices, cryptoIds, trainingDays, today, m) == rest + (if last.Some? then [last.value] else []);
    if x in rest {
      IntakeOnlyEligible(prices, init, trainingDays, today, m, x);
    } else {
      assert last.Some? && x == last.value;
    }
  }

  /** An element other than the last is in the sequence without it. */
  lemma InInit(s: seq<int>, x: int)
    requires x in s && x != s[|s| - 1]
    ensures x in s[..|s| - 1]
  {
    var i :| 0 <= i < |s| && s[i] == x;
    assert s[..|s| - 1][i] == x;
  }

  /** The intake of a prefix of the ids is part of the whole intake. */
  lemma IntakeExtends(prices: seq<PriceRow>, cryptoIds: seq<int>, trainingDays: int, today: Date,
                      m: Primitives, x: Payload)
    requires UniqueCryptoDate(prices) && cryptoIds != []
    requires x in Intake(prices, cryptoIds[..|cryptoIds| - 1], trainingDays, today, m)
    ensures x in Intake(prices, cryptoIds, trainingDays, today, m)
  {
  }

  /** The last id's payload, when there is one, closes the intake. */
  lemma IntakeTakesLast(prices: seq<PriceRow>, cryptoIds: seq<int>, trainingDays: int, today: Date, m: Primitives)
    requires UniqueCryptoDate(prices) && cryptoIds != []
    requires AssetPayload(prices, cryptoIds[|cryptoIds| - 1], trainingDays, today, m).Some?
    ensures AssetPayload(prices, cryptoIds[|cryptoIds| - 1], trainingDays, today, m).value
            in Intake(prices, cryptoIds, trainingDays, today, m)
  {
    var init := cryptoIds[..|cryptoIds| - 1];
    var last := AssetPayload(prices, cryptoIds[|cryptoIds| - 1], trainingDays, today, m);
    assert Intake(prices, cryptoIds, trainingDays, today, m) == Intake(prices, init, trainingDays, today, m) + [last.value];
  }

  /** Every asset that passes the checks is in the intake. */
  lemma {:induction false} IntakeKeepsEligible(prices: seq<PriceRow>, cryptoIds: seq<int>, trainingDays: int,
                                               today: Date, m: Primitives, id: int, x: Payload)
    requires UniqueCryptoDate(prices) && id in cryptoIds
    requires AssetPayload(prices, id, trainingDays, today, m) == Some(x)
    ensures x in Intake(prices, cryptoIds, trainingDays, today, m)
  {
    var init := cryptoIds[..|cryptoIds| - 1];
    if id == cryptoIds[|cryptoIds| - 1] {
      IntakeTakesLast(prices, cryptoIds, trainingDays, today, m);
    } else {
      InInit(cryptoIds, id);
      IntakeKeepsEligible(prices, init, trainingDays, today, m, id, x);
      IntakeExtends(prices, cryptoIds, trainingDays, today, m, x);
    }
  }

  /** The intake loop of `train_global_model`, with its two errors: no
      asset requested, and no asset with enough history. */
  method CollectPayloads(prices: seq<PriceRow>, cryptoIds: seq<int>, trainingDays: int, today: Date, m: Primitives)
    returns (r: Result<seq<Payload>>)
    requires UniqueCryptoDate(prices)
    ensures cryptoIds == [] ==> r == Err(NoCryptoIds)
    ensures cryptoIds != [] && Intake(prices, cryptoIds, trainingDays, today, m) == [] ==> r == Err(NotEnoughData)
    ensures cryptoIds != [] && Intake(prices, cryptoIds, trainingDays, today, m) != [] ==>
              r == Ok(Intake(prices, cryptoIds, trainingDays, today, m))
  {
    if cryptoIds == [] {
      return Err(NoCryptoIds);
    }
    var payloads: seq<Payload> := [];
    for i := 0 to |cryptoIds|
      invariant payloads == Intake(prices, cryptoIds[..i], trainingDays, today, m)
    {
      assert cryptoIds[..i + 1][..i] == cryptoIds[..i];
      var payload := AssetPayload(prices, cryptoIds[i], trainingDays, today, m);
      payloads := payloads + (if payload.Some? then [payload.value] else []);
    }
    assert cryptoIds[..|cryptoIds|] == cryptoIds;
    if payloads == [] {
      return Err(NotEnoughData);
    }
    return Ok(payloads);
  }

  /** The requested model: family, the base chunk and training lengths
      from the hyperparameters, and the requested validation ratio. */
  datatype Request = Request(modelFamily: string, baseInput: int, baseOutput: int, baseTraining: int, valSplit: real)

  /** The window sizes and validation ratio `_resolve_sizing` settles on. */
  datatype Sizing = Sizing(inputChunk: int, outputChunk: int, trainingLength: int, minRequired: int, valSplit: real)

  /** `output_for_chunks`: an `RNNModel` predicts one step at a time. */
  function OutputForChunks(req: Request): int
  {
    if req.modelFamily == "RNNModel" then 1 else req.baseOutput
  }

  /** The inner `_resolve_sizing` of `train_global_model`: chunks and
      training length for the shortest series, the validation ratio, and,
      when that ratio shortens the training part, the chunks and training
      length again for that shorter part. */
  function ResolveSizing(minLen: nat, req: Request): (s: Sizing)
    ensures s.outputChunk >= 1 && s.inputChunk >= 3 && 0.0 <= s.valSplit <= 0.5
    ensures s.minRequired == MinRequiredLength(req.modelFamily, s.inputChunk, s.outputChunk, s.trainingLength)
    ensures req.modelFamily == "RNNModel" ==> s.outputChunk == 1 && s.trainingLength >= s.inputChunk
    ensures req.modelFamily != "RNNModel" ==> s.trainingLength == req.baseTraining
  {
    var outFor := OutputForChunks(req);
    var c1 := ResolveChunkLengths(minLen, req.baseInput, outFor);
    var tl1 := if req.modelFamily == "RNNModel" then ResolveTrainingLength(minLen, c1.input, req.baseTraining)
               else req.baseTraining;
    var vs := ResolveValSplit(req.valSplit, minLen, MinRequiredLength(req.modelFamily, c1.input, c1.output, tl1));
    // `int(min_len * (1 - val_split))` when the ratio is positive, else `min_len`
    var minTrainLen := SplitSeriesLengths(minLen, vs).trainLen;
    var shorter := minTrainLen < minLen;
    var c2 := if shorter then ResolveChunkLengths(minTrainLen, c1.input, outFor) else c1;
    var tl2 := if shorter && req.modelFamily == "RNNModel" then ResolveTrainingLength(minTrainLen, c2.input, tl1)
               else tl1;
    Sizing(c2.input, c2.output, tl2, MinRequiredLength(req.modelFamily, c2.input, c2.output, tl2), vs)
  }

  /** The resolved chunks fit the training part the resolved ratio leaves
      of the shortest series, once that part has at least 4 points. */
  lemma ResolveSizingFits(minLen: nat, req: Request)
    ensures var s := ResolveSizing(minLen, req);
            SplitSeriesLengths(minLen, s.valSplit).trainLen >= 4 ==>
              s.inputChunk + s.outputChunk <= SplitSeriesLengths(minLen, s.valSplit).trainLen
  {
    var outFor := OutputForChunks(req);
    var c1 := ResolveChunkLengths(minLen, req.baseInput, outFor);
    var s := ResolveSizing(minLen, req);
    var minTrainLen := SplitSeriesLengths(minLen, s.valSplit).trainLen;
    if minTrainLen < minLen {
      assert Chunks(s.inputChunk, s.outputChunk) == ResolveChunkLengths(minTrainLen, c1.input, outFor);
    } else {
      assert Chunks(s.inputChunk, s.outputChunk) == c1;
    }
  }

  /** The length of the shortest return series. */
  function MinSeriesLen(payloads: seq<Payload>): (n: nat)
    requires payloads != []
    ensures forall p :: p in payloads ==> n <= |p.series|
    ensures exists p :: p in payloads && n == |p.series|
  {
    var last := payloads[|payloads| - 1];
    if |payloads| == 1 then |last.series|
    else
      var init := payloads[..|payloads| - 1];
      assert payloads == init + [last];
      var rest := MinSeriesLen(init);
      if rest <= |last.series| then rest else |last.series|
  }

  /** The asset keeps at least 5 training points under `valSplit`. */
  predicate TrainableAsset(p: Payload, valSplit: real)
  {
    SplitSeriesLengths(|p.series|, valSplit).trainLen >= 5
  }

  /** Every asset keeps at least 5 training points under `valSplit`. */
  predicate Trainable(payloads: seq<Payload>, valSplit: real)
  {
    forall k :: 0 <= k < |payloads| ==> TrainableAsset(payloads[k], valSplit)
  }

  /** `sub` is `s` with some elements left out, the rest in their order;
      `idx` gives their positions in `s`. */
  ghost predicate OrderedSelection(sub: seq<Payload>, s: seq<Payload>, idx: seq<int>)
  {
    |idx| == |sub|
    && (forall k :: 0 <= k < |idx| ==> 0 <= idx[k] < |s| && sub[k] == s[idx[k]])
    && (forall k, l :: 0 <= k < l < |idx| ==> idx[k] < idx[l])
  }

  /** One pass of the filtering loop: the assets that keep at least 5
      training points, in their order. */
  function KeepTrainable(payloads: seq<Payload>, valSplit: real): (kept: seq<Payload>)
    ensures Trainable(kept, valSplit) && |kept| <= |payloads|
    ensures forall p :: p in kept ==> p in payloads
    ensures forall p :: p in payloads && TrainableAsset(p, valSplit) ==> p in kept
  {
    if payloads == [] then []
    else
      var last := payloads[|payloads| - 1];
      var init := payloads[..|payloads| - 1];
      assert payloads == init + [last];
      KeepTrainable(init, valSplit) + (if TrainableAsset(last, valSplit) then [last] else [])
  }

  /** A pass that keeps as many assets as it was given keeps them all. */
  lemma {:induction false} KeepTrainableAll(payloads: seq<Payload>, valSplit: real)
    requires |KeepTrainable(payloads, valSplit)| == |payloads|
    ensures KeepTrainable(payloads, valSplit) == payloads
  {
    if payloads != [] {
      var init := payloads[..|payloads| - 1];
      assert |KeepTrainable(init, valSplit)| <= |init|;
      KeepTrainableAll(init, valSplit);
      assert payloads == init + [payloads[|payloads| - 1]];
    }
  }

  /** A pass keeps its assets in their order. */
  lemma {:induction false} KeepTrainableOrdered(payloads: seq<Payload>, valSplit: real) returns (idx: seq<int>)
    ensures OrderedSelection(KeepTrainable(payloads, valSplit), payloads, idx)
  {
    if payloads == [] {
      idx := [];
    } else {
      var init := payloads[..|payloads| - 1];
      var last := payloads[|payloads| - 1];
      var prev := KeepTrainableOrdered(init, valSplit);
      var take := TrainableAsset(last, valSplit);
      assert payloads == init + [last];
      assert KeepTrainable(payloads, valSplit) == KeepTrainable(init, valSplit) + (if take then [last] else []);
      SelectionSnoc(KeepTrainable(init, valSplit), init, prev, last, take);
      idx := prev + (if take then [|init|] else []);
    }
  }

  /** Appending an element to the source and, optionally, to the
      selection keeps it a selection. */
  lemma SelectionSnoc(sub: seq<Payload>, s: seq<Payload>, idx: seq<int>, x: Payload, take: bool)
    requires OrderedSelection(sub, s, idx)
    ensures OrderedSelection(sub + (if take then [x] else []), s + [x], idx + (if take then [|s|] else []))
  {
  }

  /** A selection from a selection is a selection. */
  lemma SelectionCompose(a: seq<Payload>, b: seq<Payload>, c: seq<Payload>, ab: seq<int>, bc: seq<int>)
    returns (ac: seq<int>)
    requires OrderedSelection(a, b, ab) && OrderedSelection(b, c, bc)
    ensures OrderedSelection(a, c, ac)
  {
    ac := seq(|ab|, k requires 0 <= k < |ab| => bc[ab[k]]);
  }

  /** A selection from `s` holds only elements of `s`. */
  lemma SelectionMembers(sub: seq<Payload>, s: seq<Payload>, idx: seq<int>)
    requires OrderedSelection(sub, s, idx)
    ensures forall p :: p in sub ==> p in s
  {
    forall p | p in sub ensures p in s {
      var k :| 0 <= k < |sub| && sub[k] == p;
      assert s[idx[k]] == p;
    }
  }

  /** A pass over assets that are all trainable keeps every one of them. */
  lemma {:induction false} TrainableKeepsAll(payloads: seq<Payload>, valSplit: real)
    requires Trainable(payloads, valSplit)
    ensures KeepTrainable(payloads, valSplit) == payloads
  {
    if payloads != [] {
      var init := payloads[..|payloads| - 1];
      var last := payloads[|payloads| - 1];
      assert forall k :: 0 <= k < |init| ==> init[k] == payloads[k];
      TrainableKeepsAll(init, valSplit);
      assert TrainableAsset(last, valSplit);
      assert KeepTrainable(payloads, valSplit) == KeepTrainable(init, valSplit) + [last];
      assert payloads == init + [last];
    }
  }

  /** Sizing for the shortest of a set of intake payloads leaves every one
      of them at least 5 training points: each has at least 6 returns, so
      the input chunk is at least 5 and the shortest usable series at least
      6, and a positive ratio is only chosen when the shortest series keeps
      that many training points. The first filtering pass therefore keeps
      every asset. */
  lemma IntakeAllTrainable(payloads: seq<Payload>, req: Request)
    requires payloads != [] && forall p :: p in payloads ==> WellFormed(p)
    ensures Trainable(payloads, ResolveSizing(MinSeriesLen(payloads), req).valSplit)
  {
    var minLen := MinSeriesLen(payloads);
    assert minLen >= 6 by {
      var p :| p in payloads && minLen == |p.series|;
    }
    var vs := ResolveSizing(minLen, req).valSplit;
    SizingLeavesSix(minLen, req);
    forall k | 0 <= k < |payloads| ensures TrainableAsset(payloads[k], vs) {
      assert payloads[k] in payloads;
      ShortestKeepsFive(|payloads[k].series|, minLen, vs);
    }
  }

  /** A positive ratio leaves at least 6 of `n` points for training. */
  predicate LeavesSix(n: int, vs: real)
  {
    vs > 0.0 ==> n - (n as real * vs).Floor >= 6
  }

  /** For a shortest series of at least 6 points, a positive resolved ratio
      leaves it at least 6 training points: the input chunk is at least 5,
      so the shortest usable series is at least 6. */
  lemma SizingLeavesSix(minLen: nat, req: Request)
    requires minLen >= 6
    ensures LeavesSix(minLen, ResolveSizing(minLen, req).valSplit)
  {
    var outFor := OutputForChunks(req);
    var c1 := ResolveChunkLengths(minLen, req.baseInput, outFor);
    var tl1 := if req.modelFamily == "RNNModel" then ResolveTrainingLength(minLen, c1.input, req.baseTraining)
               else req.baseTraining;
    var minReq := MinRequiredLength(req.modelFamily, c1.input, c1.output, tl1);
    assert ResolveSizing(minLen, req).valSplit == ResolveValSplit(req.valSplit, minLen, minReq);
    assert c1.input >= 5;
    ValSplitLeaves(req.valSplit, minLen, minReq);
  }

  /** The ratio `_resolve_val_split` picks for a shortest usable series of
      at least 6 points leaves at least 6 training points. */
  lemma ValSplitLeaves(desired: real, n: int, minReq: int)
    requires minReq >= 6
    ensures LeavesSix(n, ResolveValSplit(desired, n, minReq))
  {
  }

  /** A ratio that leaves the shortest series of `minLen` points at least
      6 training points leaves every longer series at least 5. */
  lemma ShortestKeepsFive(n: nat, minLen: nat, vs: real)
    requires 0.0 <= vs <= 0.5 && 6 <= minLen <= n && LeavesSix(minLen, vs)
    ensures SplitSeriesLengths(n, vs).trainLen >= 5
  {
    if vs > 0.0 {
      var f := (minLen as real * vs).Floor;
      assert minLen as real * vs < f as real + 1.0;
      assert minLen as real * (1.0 - vs) > 5.0;
      assert (n - minLen) as real * (1.0 - vs) >= 0.0;
      var x := n as real * (1.0 - vs);
      assert x == minLen as real * (1.0 - vs) + (n - minLen) as real * (1.0 - vs);
      assert x > 5.0;
      assert RMin(0.5, vs) == vs;
      var t := SplitSeriesLengths(n, vs).trainLen;
      assert x < t as real + 1.0;
    }
  }

  /** The inner loop of one filtering pass. */
  method KeepTrainableLoop(payloads: seq<Payload>, valSplit: real) returns (kept: seq<Payload>)
    ensures kept == KeepTrainable(payloads, valSplit)
  {
    kept := [];
    for i := 0 to |payloads|
      invariant kept == KeepTrainable(payloads[..i], valSplit)
    {
      assert payloads[..i + 1][..i] == payloads[..i];
      if TrainableAsset(payloads[i], valSplit) {
        kept := kept + [payloads[i]];
      }
    }
    assert payloads[..|payloads|] == payloads;
  }

  /** The `while True` loop of `train_global_model`: size for the shortest
      series, keep the assets whose training part has at least 5 points,
      and repeat until a pass keeps them all. Every pass that continues
      drops at least one asset; a pass that keeps none raises. */
  method FilterTrainable(payloads: seq<Payload>, req: Request) returns (r: Result<(seq<Payload>, Sizing)>)
    requires payloads != []
    ensures r.Err? ==> r.error == NotEnoughData
    ensures r.Ok? ==> r.value.0 != [] && Trainable(r.value.0, r.value.1.valSplit)
                      && r.value.1 == ResolveSizing(MinSeriesLen(r.value.0), req)
                      && (forall p :: p in r.value.0 ==> p in payloads)
                      && exists idx :: OrderedSelection(r.value.0, payloads, idx)
    ensures (forall p :: p in payloads ==> WellFormed(p)) ==>
              r == Ok((payloads, ResolveSizing(MinSeriesLen(payloads), req)))
  {
    var filtered := payloads;
    ghost var idx := seq(|payloads|, k => k);
    ghost var allWellFormed := forall p :: p in payloads ==> WellFormed(p);
    while true
      invariant filtered != [] && OrderedSelection(filtered, payloads, idx)
      invariant allWellFormed ==> filtered == payloads
      decreases |filtered|
    {
      var sizing := ResolveSizing(MinSeriesLen(filtered), req);
      var kept := KeepTrainableLoop(filtered, sizing.valSplit);
      if allWellFormed {
        IntakeAllTrainable(filtered, req);
        TrainableKeepsAll(filtered, sizing.valSplit);
      }
      if kept == [] {
        return Err(NotEnoughData);
      }
      if |kept| == |filtered| {
        KeepTrainableAll(filtered, sizing.valSplit);
        SelectionMembers(kept, payloads, idx);
        return Ok((kept, sizing));
      }
      ghost var keptIdx := KeepTrainableOrdered(filtered, sizing.valSplit);
      idx := SelectionCompose(kept, filtered, payloads, keptIdx, idx);
      filtered := kept;
    }
  }

  /** Where an asset's training part starts and ends. */
  function TrainStart(p: Payload, valSplit: real): Date
    requires SplitSeriesLengths(|p.series|, valSplit).trainLen >= 1
  {
    p.series[0].date
  }

  function TrainEnd(p: Payload, valSplit: real): Date
    requires SplitSeriesLengths(|p.series|, valSplit).trainLen >= 1
  {
    p.series[SplitSeriesLengths(|p.series|, valSplit).trainLen - 1].date
  }

  /** The asset ids in payload order. */
  function Ids(payloads: seq<Payload>): (ids: seq<int>)
    ensures |ids| == |payloads| && forall k :: 0 <= k < |payloads| ==> ids[k] == payloads[k].cryptoId
  {
    seq(|payloads|, k requires 0 <= k < |payloads| => payloads[k].cryptoId)
  }

  /** Ids drawn from `cryptoIds` stay within it. */
  lemma IdsWithin(payloads: seq<Payload>, cryptoIds: seq<int>)
    requires forall k :: 0 <= k < |payloads| ==> payloads[k].cryptoId in cryptoIds
    ensures forall id :: id in Ids(payloads) ==> id in cryptoIds
  {
    forall id | id in Ids(payloads) ensures id in cryptoIds {
      var k :| 0 <= k < |payloads| && Ids(payloads)[k] == id;
    }
  }

  /** What `train_global_model` records about the data of the run. */
  datatype Summary = Summary(usedIds: seq<int>, trainStart: Date, trainEnd: Date, cutoffDate: Date)

  /** The running minimum or maximum of the aggregation loop. */
  function RunningMin(acc: Option<Date>, d: Date): Date { if acc.None? then d else Min(acc.value, d) }

  function RunningMax(acc: Option<Date>, d: Date): Date { if acc.None? then d else Max(acc.value, d) }

  /** The aggregation loop of `train_global_model`: the used ids in order,
      the earliest training start, the latest training end and the latest
      last-price date over the kept assets. */
  method Aggregate(payloads: seq<Payload>, valSplit: real) returns (r: Result<Summary>)
    requires forall k :: 0 <= k < |payloads| ==> SplitSeriesLengths(|payloads[k].series|, valSplit).trainLen >= 1
    ensures payloads == [] ==> r == Err(NotEnoughData)
    ensures payloads != [] ==>
              r.Ok? && r.value.usedIds == Ids(payloads)
              && (forall k :: 0 <= k < |payloads| ==>
                    r.value.trainStart <= TrainStart(payloads[k], valSplit)
                    && TrainEnd(payloads[k], valSplit) <= r.value.trainEnd
                    && payloads[k].cutoffDate <= r.value.cutoffDate)
              && (exists k :: 0 <= k < |payloads| && r.value.trainStart == TrainStart(payloads[k], valSplit))
              && (exists k :: 0 <= k < |payloads| && r.value.trainEnd == TrainEnd(payloads[k], valSplit))
              && (exists k :: 0 <= k < |payloads| && r.value.cutoffDate == payloads[k].cutoffDate)
  {
    var usedIds: seq<int> := [];
    var start: Option<Date> := None;
    var end: Option<Date> := None;
    var cutoff: Option<Date> := None;
    for i := 0 to |payloads|
      invariant usedIds == Ids(payloads[..i])
      invariant start.None? <==> i == 0
      invariant end.None? <==> i == 0
      invariant cutoff.None? <==> i == 0
      invariant forall k :: 0 <= k < i ==>
                  start.value <= TrainStart(payloads[k], valSplit) && TrainEnd(payloads[k], valSplit) <= end.value
                  && payloads[k].cutoffDate <= cutoff.value
      invariant i > 0 ==> (exists k :: 0 <= k < i && start.value == TrainStart(payloads[k], valSplit))
                          && (exists k :: 0 <= k < i && end.value == TrainEnd(payloads[k], valSplit))
                          && (exists k :: 0 <= k < i && cutoff.value == payloads[k].cutoffDate)
    {
      var p := payloads[i];
      usedIds := usedIds + [p.cryptoId];
      start := Some(RunningMin(start, TrainStart(p, valSplit)));
      end := Some(RunningMax(end, TrainEnd(p, valSplit)));
      cutoff := Some(RunningMax(cutoff, p.cutoffDate));
    }
    assert payloads[..|payloads|] == payloads;
    if usedIds == [] {
      return Err(NotEnoughData);
    }
    return Ok(Summary(usedIds, start.value, end.value, cutoff.value));
  }

  /** Each asset's training part starts no later than it ends, and ends
      no later than its last price. */
  lemma TrainPartWithinSeries(p: Payload, valSplit: real)
    requires WellFormed(p) && SplitSeriesLengths(|p.series|, valSplit).trainLen >= 1
    ensures TrainStart(p, valSplit) <= TrainEnd(p, valSplit) <= p.cutoffDate
  {
  }

  /** The aggregated dates are ordered: the earliest training start is no
      later than the latest training end, which is no later than the latest
      cutoff. */
  lemma SummaryOrdered(payloads: seq<Payload>, valSplit: real, s: Summary)
    requires forall k :: 0 <= k < |payloads| ==>
               WellFormed(payloads[k]) && SplitSeriesLengths(|payloads[k].series|, valSplit).trainLen >= 1
    requires forall k :: 0 <= k < |payloads| ==>
               s.trainStart <= TrainStart(payloads[k], valSplit)
               && TrainEnd(payloads[k], valSplit) <= s.trainEnd
               && payloads[k].cutoffDate <= s.cutoffDate
    requires exists k :: 0 <= k < |payloads| && s.trainStart == TrainStart(payloads[k], valSplit)
    requires exists k :: 0 <= k < |payloads| && s.trainEnd == TrainEnd(payloads[k], valSplit)
    ensures s.trainStart <= s.trainEnd <= s.cutoffDate
  {
    var i0 :| 0 <= i0 < |payloads| && s.trainStart == TrainStart(payloads[i0], valSplit);
    TrainPartWithinSeries(payloads[i0], valSplit);
    var i1 :| 0 <= i1 < |payloads| && s.trainEnd == TrainEnd(payloads[i1], valSplit);
    TrainPartWithinSeries(payloads[i1], valSplit);
  }

  /** What `train_global_model` settles on before fitting. */
  datatype Plan = Plan(payloads: seq<Payload>, sizing: Sizing, summary: Summary)

  /** The plan's recorded facts: trainable assets sized for the shortest
      of them, the used ids in order and drawn from the request, and
      ordered dates. */
  ghost predicate PlanHolds(plan: Plan, cryptoIds: seq<int>, req: Request)
  {
    plan.payloads != [] && Trainable(plan.payloads, plan.sizing.valSplit)
    && plan.sizing == ResolveSizing(MinSeriesLen(plan.payloads), req)
    && plan.summary.usedIds == Ids(plan.payloads)
    && (forall id :: id in plan.summary.usedIds ==> id in cryptoIds)
    && plan.summary.trainStart <= plan.summary.trainEnd <= plan.summary.cutoffDate
  }

  /** The aggregation over the assets the filtering loop kept. */
  method AggregatePlan(kept: seq<Payload>, sizing: Sizing, cryptoIds: seq<int>, req: Request) returns (plan: Plan)
    requires kept != [] && Trainable(kept, sizing.valSplit) && sizing == ResolveSizing(MinSeriesLen(kept), req)
    requires forall p :: p in kept ==> WellFormed(p) && p.cryptoId in cryptoIds
    ensures PlanHolds(plan, cryptoIds, req) && plan.payloads == kept && plan.sizing == sizing
  {
    assert forall k :: 0 <= k < |kept| ==> kept[k] in kept;
    var summary := Aggregate(kept, sizing.valSplit);
    var s := summary.value;
    SummaryOrdered(kept, sizing.valSplit, s);
    IdsWithin(kept, cryptoIds);
    return Plan(kept, sizing, s);
  }

  /** The filtering loop and the aggregation over a non-empty intake.
      Intake payloads all survive the first filtering pass, so the
      filter's raise is not reached from here and every asset is planned. */
  method PlanFromIntake(intake: seq<Payload>, cryptoIds: seq<int>, req: Request) returns (r: Result<Plan>)
    requires intake != [] && forall p :: p in intake ==> WellFormed(p) && p.cryptoId in cryptoIds
    ensures r.Err? ==> r.error == NotEnoughData
    ensures r.Ok? ==> PlanHolds(r.value, cryptoIds, req)
    ensures r.Ok? && r.value.payloads == intake
  {
    var filtered := FilterTrainable(intake, req);
    var (kept, sizing) := filtered.value;
    assert kept == intake;
    var plan := AggregatePlan(kept, sizing, cryptoIds, req);
    return Ok(plan);
  }

  /** `train_global_model` up to the fit: intake, the filtering loop and
      the aggregation. The recorded dates are ordered: the earliest start
      is no later than the latest end, which is no later than the cutoff. */
  method PlanTraining(prices: seq<PriceRow>, cryptoIds: seq<int>, trainingDays: int, today: Date,
                      m: Primitives, req: Request) returns (r: Result<Plan>)
    requires UniqueCryptoDate(prices)
    ensures cryptoIds == [] ==> r == Err(NoCryptoIds)
    ensures r.Err? && cryptoIds != [] ==> r.error == NotEnoughData
    ensures r.Ok? ==> PlanHolds(r.value, cryptoIds, req)
    ensures cryptoIds != [] ==> (r.Err? <==> Intake(prices, cryptoIds, trainingDays, today, m) == [])
    ensures r.Ok? ==> r.value.payloads == Intake(prices, cryptoIds, trainingDays, today, m)
  {
    var collected := CollectPayloads(prices, cryptoIds, trainingDays, today, m);
    if collected.Err? {
      return Err(collected.error);
    }
    r := PlanFromIntake(collected.value, cryptoIds, req);
  }

  /** What one call of `model.fit` did: returned, or raised a `ValueError`
      with the given text. */
  datatype FitAttempt = Fitted | Rejected(message: string)

  /** The two Darts messages after which the fit is retried without a
      validation set. */
  predicate IsRetryMessage(message: string)
  {
    Contains(Lower(message), "dimensions of the series in the training set")
    || Contains(Lower(message), "validation time series dataset is too short")
  }

  /** The `use_val` gate: every asset has a validation part of at least
      `minRequired` points, validation covariates are complete whenever
      training covariates are, and the widths agree. */
  function UseValidation(valLens: seq<Option<int>>, minRequired: int, trainCovariatesComplete: bool,
                         valCovariatesComplete: bool, sameWidths: bool): (b: bool)
    ensures b <==> (forall k :: 0 <= k < |valLens| ==> valLens[k].Some? && valLens[k].value >= minRequired)
                   && (trainCovariatesComplete ==> valCovariatesComplete) && sameWidths
  {
    var allPresent := forall k :: 0 <= k < |valLens| ==> valLens[k].Some?;
    var useVal := allPresent && !(exists k :: 0 <= k < |valLens| && valLens[k].value < minRequired);
    var useVal' := useVal && !(trainCovariatesComplete && !valCovariatesComplete);
    useVal' && sameWidths
  }

  /** The fit and the `val_split` then recorded in the run's
      hyperparameters. With validation, a rejection carrying one of the
      retry messages leads to a second fit without it; any other rejection
      propagates. The ratio stays as resolved only when a fit with
      validation succeeded, and is 0 otherwise. */
  function RecordedValSplit(useVal: bool, valSplit: real, withVal: FitAttempt, withoutVal: FitAttempt): (r: Result<real>)
    ensures r.Ok? ==> r.value == valSplit || r.value == 0.0
    ensures r.Ok? && r.value != 0.0 ==> useVal && withVal == Fitted
    ensures useVal && withVal == Fitted ==> r == Ok(valSplit)
    ensures useVal && withVal.Rejected? && !IsRetryMessage(withVal.message) ==> r == Err(withVal.message)
    ensures (!useVal || (withVal.Rejected? && IsRetryMessage(withVal.message))) ==>
              r == (if withoutVal == Fitted then Ok(0.0) else Err(withoutVal.message))
  {
    if !useVal then (if withoutVal == Fitted then Ok(0.0) else Err(withoutVal.message))
    else if withVal == Fitted then Ok(valSplit)
    else if IsRetryMessage(withVal.message) then
      (if withoutVal == Fitted then Ok(0.0) else Err(withoutVal.message))
    else Err(withVal.message)
  }
}
