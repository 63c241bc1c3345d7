/** Brightness of a downsampled grey frame, its smoothing over time, and the light buckets. */
module AmbientLight {
  import opened OrderStatistics

  /** A rejected frame has negative brightness. */
  datatype Estimate = Estimate(brightness: real, confidence: real)

  /** Grey pixels after crop and resize; never empty. */
  type Frame = px: seq<int> | |px| > 0 && forall k :: 0 <= k < |px| ==> 0 <= px[k] <= 255
    witness [0]

  // ----- What the histogram loop computes, in terms of the sorted frame -----

  /** Sum of s[k] for k < count with lo <= k <= hi. */
  function RangeSum(s: seq<int>, lo: nat, hi: nat, count: nat): int
    requires count <= |s|
  {
    if count == 0 then 0
    else RangeSum(s, lo, hi, count - 1) + (if lo <= count - 1 <= hi then s[count - 1] else 0)
  }

  function RangeCount(lo: nat, hi: nat, count: nat): nat {
    if count == 0 then 0 else RangeCount(lo, hi, count - 1) + (if lo <= count - 1 <= hi then 1 else 0)
  }

  /** The percentile luminance: element `percentile * n / 100` of the sorted frame, or 0 past its end. */
  function PercentileValue(px: Frame, percentile: nat): int
  {
    SortedSorts(px);
    var target := percentile * |px| / 100;
    if target < |px| then Sorted(px)[target] else 0
  }

  /** The mean of sorted elements 10n/100 to 90n/100, both included. */
  function TrimmedMean(px: Frame): real
  {
    SortedSorts(px);
    var lo, hi := 10 * |px| / 100, 90 * |px| / 100;
    RangeSum(Sorted(px), lo, hi, |px|) as real / (hi - lo + 1) as real
  }

  function SaturationRatio(px: Frame): real
  {
    (|px| - CountLE(px, 249)) as real / |px| as real
  }

  predicate Rejected(px: Frame)
  {
    SaturationRatio(px) > 0.85
  }

  /** The brightest pixel is below 3. */
  predicate Dark(px: Frame) {
    CountLE(px, 2) == |px|
  }

  function Abs(x: real): real { if x < 0.0 then -x else x }

  function EstimateOf(px: Frame, percentile: nat): Estimate
  {
    if Rejected(px) then Estimate(-1.0, 0.1)
    else if Dark(px) then Estimate(0.0, 0.95)
    else
      var mean, p := TrimmedMean(px), PercentileValue(px, percentile) as real;
      var c := 1.0 - Abs(mean - p) / 255.0 * 1.5 - SaturationRatio(px) * 0.5;
      Estimate(0.7 * mean + 0.3 * p, if c > 0.1 then c else 0.1)
  }

  /** 256-bin histogram, as the image library delivers it. */
  function Bin(px: seq<int>, v: int): int { CountLE(px, v) - CountLE(px, v - 1) }

  lemma {:induction false} CountMonotone(px: seq<int>, u: int, v: int)
    requires u <= v
    ensures CountLE(px, u) <= CountLE(px, v)
  {
    if |px| > 0 {
      CountMonotone(px[..|px| - 1], u, v);
    }
  }

  lemma {:induction false} CountBounds(px: seq<int>)
    requires forall k :: 0 <= k < |px| ==> 0 <= px[k] <= 255
    ensures CountLE(px, -1) == 0 && CountLE(px, 255) == |px|
  {
    if |px| > 0 {
      CountBounds(px[..|px| - 1]);
    }
  }

  /** 10n/100 <= 90n/100 < n, and the trimmed range is never empty. */
  lemma {:induction false} TrimmedRange(n: nat, lo: nat, hi: nat)
    requires lo <= hi
    ensures RangeCount(lo, hi, n) == (if n <= lo then 0 else if n <= hi then n - lo else hi - lo + 1)
  {
    if n > 0 {
      TrimmedRange(n - 1, lo, hi);
    }
  }

  /** The positions that a bin's pixels take in the sorted frame. */
  lemma ElementOfBin(px: Frame, i: int, k: nat)
    requires CountLE(px, i - 1) <= k < CountLE(px, i)
    ensures |Sorted(px)| == |px| && Sorted(px)[k] == i
  {
    SortedSorts(px);
    OrderStatistic(Sorted(px), px, k, i);
    OrderStatistic(Sorted(px), px, k, i - 1);
  }

  /** The nested loop over bins and their counts, with its running totals. */
  method ScanBins(px: Frame, lo: nat, hi: nat, target: nat) returns (sum: int, count: nat, pValue: int, found: bool)
    ensures |Sorted(px)| == |px|
    ensures sum == RangeSum(Sorted(px), lo, hi, |px|) && count == RangeCount(lo, hi, |px|)
    ensures found <==> target < |px|
    ensures pValue == if found then Sorted(px)[target] else 0
  {
    var cumulative := 0;
    sum, count, pValue, found := 0, 0, 0, false;
    ghost var s := Sorted(px);
    SortedSorts(px);
    CountBounds(px);
    for i := 0 to 256
      invariant cumulative == CountLE(px, i - 1)
      invariant sum == RangeSum(s, lo, hi, cumulative) && count == RangeCount(lo, hi, cumulative)
      invariant found <==> cumulative > target
      invariant pValue == if found then s[target] else 0
    {
      CountMonotone(px, i - 1, i);
      var bin := Bin(px, i);
      for j := 0 to bin
        invariant cumulative == CountLE(px, i - 1) + j
        invariant sum == RangeSum(s, lo, hi, cumulative) && count == RangeCount(lo, hi, cumulative)
        invariant found <==> cumulative > target
        invariant pValue == if found then s[target] else 0
      {
        ElementOfBin(px, i, cumulative);
        if cumulative >= target && !found {
          pValue := i;
          found := true;
        }
        if lo <= cumulative <= hi {
          sum := sum + i;
          count := count + 1;
        }
        cumulative := cumulative + 1;
      }
    }
  }

  /** The percentile value and the trimmed mean of a frame. */
  method ScanHistogram(px: Frame, percentile: nat) returns (sum: int, count: nat, pValue: int, found: bool)
    ensures pValue == PercentileValue(px, percentile)
    ensures found <==> percentile < 100
    ensures count > 0 && sum as real / count as real == TrimmedMean(px)
  {
    var n := |px|;
    var lo, hi, target := 10 * n / 100, 90 * n / 100, percentile * n / 100;
    sum, count, pValue, found := ScanBins(px, lo, hi, target);
    TrimmedRange(n, lo, hi);
    PercentileInRange(n, percentile);
  }

  /** The percentile index is inside the frame exactly for percentiles below 100. */
  lemma PercentileInRange(n: nat, percentile: nat)
    requires n > 0
    ensures percentile * n / 100 < n <==> percentile < 100
  {
    if percentile < 100 {
      assert percentile * n <= 99 * n;
    } else {
      assert percentile * n >= 100 * n;
    }
  }

  // ----- Order -----

  ghost predicate Darker(a: Frame, b: Frame) {
    |a| == |b| && forall k :: 0 <= k < |a| ==> a[k] <= b[k]
  }

  lemma {:induction false} RangeSumOrder(s: seq<int>, t: seq<int>, lo: nat, hi: nat, count: nat)
    requires |s| == |t| && count <= |s| && forall k :: 0 <= k < |s| ==> s[k] <= t[k]
    ensures RangeSum(s, lo, hi, count) <= RangeSum(t, lo, hi, count)
  {
    if count > 0 {
      RangeSumOrder(s, t, lo, hi, count - 1);
    }
  }

  lemma {:induction false} RangeSumBounds(s: seq<int>, lo: nat, hi: nat, count: nat, least: int, most: int)
    requires count <= |s| && forall k :: 0 <= k < |s| ==> least <= s[k] <= most
    ensures least * RangeCount(lo, hi, count) <= RangeSum(s, lo, hi, count) <= most * RangeCount(lo, hi, count)
  {
    if count > 0 {
      RangeSumBounds(s, lo, hi, count - 1, least, most);
      Distribute(least, RangeCount(lo, hi, count - 1));
      Distribute(most, RangeCount(lo, hi, count - 1));
    }
  }

  lemma Distribute(x: int, n: nat)
    ensures x * (n + 1) == x * n + x
  {
  }

  lemma QuotientOrder(x: real, y: real, d: real)
    requires x <= y && d > 0.0
    ensures x / d <= y / d
  {
    assert y / d - x / d == (y - x) / d;
  }

  lemma TrimmedMeanOrder(a: Frame, b: Frame)
    requires Darker(a, b)
    ensures TrimmedMean(a) <= TrimmedMean(b)
  {
    var lo, hi := 10 * |a| / 100, 90 * |a| / 100;
    SortedPointwise(a, b);
    RangeSumOrder(Sorted(a), Sorted(b), lo, hi, |a|);
    QuotientOrder(RangeSum(Sorted(a), lo, hi, |a|) as real, RangeSum(Sorted(b), lo, hi, |b|) as real, (hi - lo + 1) as real);
  }

  lemma PercentileOrder(a: Frame, b: Frame, percentile: nat)
    requires Darker(a, b)
    ensures PercentileValue(a, percentile) <= PercentileValue(b, percentile)
  {
    SortedPointwise(a, b);
  }

  /** Darkening a frame can only lower its saturation, and keeps a dark frame dark. */
  lemma QualityOrder(a: Frame, b: Frame)
    requires Darker(a, b)
    ensures SaturationRatio(a) <= SaturationRatio(b) && (Dark(b) ==> Dark(a))
  {
    CountPointwise(a, b, 249);
    CountPointwise(a, b, 2);
    QuotientOrder((|a| - CountLE(a, 249)) as real, (|b| - CountLE(b, 249)) as real, |a| as real);
  }

  lemma QuotientOfProduct(x: int, d: nat)
    requires d > 0
    ensures (x * d) as real / d as real == x as real
  {
    assert (x * d) as real == x as real * d as real;
  }

  lemma TrimmedMeanInRange(px: Frame, least: int, most: int)
    requires forall k :: 0 <= k < |px| ==> least <= px[k] <= most
    ensures least as real <= TrimmedMean(px) <= most as real
  {
    var s, lo, hi := Sorted(px), 10 * |px| / 100, 90 * |px| / 100;
    SortedSorts(px);
    forall k | 0 <= k < |s| ensures least <= s[k] <= most {
      SortedElements(px, k);
    }
    RangeSumBounds(s, lo, hi, |px|, least, most);
    TrimmedRange(|px|, lo, hi);
    var sum, d := RangeSum(s, lo, hi, |px|), hi - lo + 1;
    QuotientOrder((least * d) as real, sum as real, d as real);
    QuotientOrder(sum as real, (most * d) as real, d as real);
    QuotientOfProduct(least, d);
    QuotientOfProduct(most, d);
  }

  lemma PercentileValueInRange(px: Frame, percentile: nat, least: int, most: int)
    requires forall k :: 0 <= k < |px| ==> least <= px[k] <= most
    ensures if percentile < 100 then least <= PercentileValue(px, percentile) <= most else PercentileValue(px, percentile) == 0
  {
    PercentileInRange(|px|, percentile);
    if percentile < 100 {
      SortedElements(px, percentile * |px| / 100);
    }
  }

  /** For percentiles below 100 the estimate lies between the extreme pixels. */
  lemma EstimateInRange(px: Frame, percentile: nat, least: int, most: int)
    requires percentile < 100 && forall k :: 0 <= k < |px| ==> least <= px[k] <= most
    requires !Rejected(px) && !Dark(px)
    ensures least as real <= EstimateOf(px, percentile).brightness <= most as real
  {
    TrimmedMeanInRange(px, least, most);
    PercentileValueInRange(px, percentile, least, most);
  }

  /** A rejected frame is the only one with negative brightness, and confidence stays within [0.1, 1]. */
  lemma EstimateSigns(px: Frame, percentile: nat)
    ensures EstimateOf(px, percentile).brightness < 0.0 <==> Rejected(px)
    ensures 0.1 <= EstimateOf(px, percentile).confidence <= 1.0
  {
    TrimmedMeanInRange(px, 0, 255);
    PercentileValueInRange(px, percentile, 0, 255);
    QuotientOrder(0.0, (|px| - CountLE(px, 249)) as real, |px| as real);
  }

  /**
   * Brightness is monotone: if B is pointwise at least as bright as A and is accepted, then A is accepted
   * and its estimate is no larger, dark frames included.
   */
  lemma BrightnessMonotone(a: Frame, b: Frame, percentile: nat)
    requires Darker(a, b) && !Rejected(b)
    ensures !Rejected(a)
    ensures 0.0 <= EstimateOf(a, percentile).brightness <= EstimateOf(b, percentile).brightness
  {
    QualityOrder(a, b);
    TrimmedMeanOrder(a, b);
    PercentileOrder(a, b, percentile);
    EstimateSigns(a, percentile);
    EstimateSigns(b, percentile);
  }

  // ----- The estimate in terms of the pixels -----

  /** The number of pixels of at least 250. */
  function Saturated(px: seq<int>): nat {
    if |px| == 0 then 0 else Saturated(px[..|px| - 1]) + (if px[|px| - 1] >= 250 then 1 else 0)
  }

  lemma {:induction false} SaturatedCounts(px: seq<int>)
    ensures Saturated(px) == |px| - CountLE(px, 249)
  {
    if |px| > 0 {
      SaturatedCounts(px[..|px| - 1]);
    }
  }

  lemma {:induction false} AllAtMost(px: seq<int>, v: int)
    ensures CountLE(px, v) <= |px| && (CountLE(px, v) == |px| <==> forall k :: 0 <= k < |px| ==> px[k] <= v)
  {
    if |px| > 0 {
      AllAtMost(px[..|px| - 1], v);
      assert px == px[..|px| - 1] + [px[|px| - 1]];
    }
  }

  lemma ShareAbove(count: nat, n: nat)
    requires n > 0
    ensures count as real / n as real > 0.85 <==> 100 * count > 85 * n
  {
    var q := count as real / n as real;
    assert q * n as real == count as real;
    if q > 0.85 {
      ShareTimes(q - 0.85, n as real);
    } else {
      ShareTimes(0.85 - q, n as real);
    }
  }

  lemma ShareTimes(x: real, n: real)
    requires x >= 0.0 && n > 0.0
    ensures x * n >= 0.0 && (x > 0.0 ==> x * n > 0.0)
  {
  }

  /** A frame is rejected when more than 85 percent of its pixels are at least 250, and dark when every pixel is below 3. */
  lemma QualityIff(px: Frame)
    ensures Rejected(px) <==> 100 * Saturated(px) > 85 * |px|
    ensures Dark(px) <==> forall k :: 0 <= k < |px| ==> px[k] < 3
  {
    SaturatedCounts(px);
    ShareAbove(Saturated(px), |px|);
    AllAtMost(px, 2);
  }

  /** The sum of n equal terms. */
  function Repeated(x: real, n: nat): real { if n == 0 then 0.0 else Repeated(x, n - 1) + x }

  lemma {:induction false} RepeatedIsProduct(x: real, n: nat)
    ensures Repeated(x, n) == x * n as real
  {
    if n > 0 {
      RepeatedIsProduct(x, n - 1);
    }
  }

  lemma RepeatedQuotient(sum: real, n: nat)
    requires n > 0
    ensures Repeated(sum / n as real, n) == sum
  {
    RepeatedIsProduct(sum / n as real, n);
  }

  /** `n` equal parts of `part` make up the whole. */
  predicate IsPart(part: real, n: nat, whole: int) { Repeated(part, n) == whole as real }

  /** The mean of the sorted pixels from position 10n/100 to 90n/100. */
  predicate IsTrimmedMean(s: seq<int>, mean: real) {
    var n := |s|;
    10 * n / 100 <= 90 * n / 100 && IsPart(mean, 90 * n / 100 - 10 * n / 100 + 1, RangeSum(s, 10 * n / 100, 90 * n / 100, n))
  }

  /** Position percentile * n / 100 of the sorted pixels, 0 from 100 on. */
  predicate IsPercentile(s: seq<int>, percentile: nat, p: int) {
    if percentile < 100 then percentile * |s| / 100 < |s| && p == s[percentile * |s| / 100] else p == 0
  }

  /** Full confidence less half the saturated share and 1.5 / 255 for each grey level between mean and percentile, but at least 0.1. */
  predicate IsConfidence(mean: real, p: int, share: real, c: real) {
    var apart := if mean < p as real then p as real - mean else mean - p as real;
    var full := 1.0 - apart * 1.5 / 255.0 - share / 2.0;
    c == if full > 0.1 then full else 0.1
  }

  lemma MeanOfRange(px: Frame, s: seq<int>)
    requires s == Sorted(px) && |s| == |px|
    ensures IsTrimmedMean(s, TrimmedMean(px))
  {
    var n := |px|;
    RepeatedQuotient(RangeSum(s, 10 * n / 100, 90 * n / 100, n) as real, 90 * n / 100 - 10 * n / 100 + 1);
  }

  lemma ShareOfSaturated(px: Frame)
    ensures IsPart(SaturationRatio(px), |px|, Saturated(px))
  {
    SaturatedCounts(px);
    RepeatedQuotient(Saturated(px) as real, |px|);
  }

  lemma PercentileOfSorted(px: Frame, s: seq<int>, percentile: nat)
    requires s == Sorted(px) && |s| == |px|
    ensures IsPercentile(s, percentile, PercentileValue(px, percentile))
  {
    PercentileInRange(|px|, percentile);
  }

  lemma AcceptedEstimate(px: Frame, percentile: nat)
    requires !Rejected(px) && !Dark(px)
    ensures var e, mean, p := EstimateOf(px, percentile), TrimmedMean(px), PercentileValue(px, percentile);
            e.brightness == 0.7 * mean + 0.3 * p as real && IsConfidence(mean, p, SaturationRatio(px), e.confidence)
  {
  }

  /**
   * What the estimate of a frame is: -1 and 0.1 when rejected, 0 and 0.95 when dark; otherwise seven tenths of the
   * trimmed mean and three tenths of the percentile, with a confidence that the saturated share and the distance of the
   * two lower.
   */
  lemma EstimateMeaning(px: Frame, percentile: nat) returns (mean: real, p: int, share: real)
    ensures IsTrimmedMean(Sorted(px), mean) && IsPercentile(Sorted(px), percentile, p) && IsPart(share, |px|, Saturated(px))
    ensures var e := EstimateOf(px, percentile);
            if 100 * Saturated(px) > 85 * |px| then e == Estimate(-1.0, 0.1)
            else if forall k :: 0 <= k < |px| ==> px[k] < 3 then e == Estimate(0.0, 0.95)
            else e.brightness == 0.7 * mean + 0.3 * p as real && IsConfidence(mean, p, share, e.confidence)
  {
    mean, p, share := TrimmedMean(px), PercentileValue(px, percentile), SaturationRatio(px);
    SortedSorts(px);
    QualityIff(px);
    MeanOfRange(px, Sorted(px));
    PercentileOfSorted(px, Sorted(px), percentile);
    ShareOfSaturated(px);
    if !Rejected(px) && !Dark(px) {
      AcceptedEstimate(px, percentile);
    }
  }

  /** An evenly lit frame is measured as what it is, with full confidence. */
  lemma EvenFrame(px: Frame, v: int, percentile: nat)
    requires percentile < 100 && 3 <= v < 250 && forall k :: 0 <= k < |px| ==> px[k] == v
    ensures EstimateOf(px, percentile) == Estimate(v as real, 1.0)
  {
    QualityIff(px);
    NoneSaturated(px);
    SaturatedCounts(px);
    TrimmedMeanInRange(px, v, v);
    PercentileValueInRange(px, percentile, v, v);
    assert px[0] == v;
  }

  lemma {:induction false} NoneSaturated(px: seq<int>)
    requires forall k :: 0 <= k < |px| ==> px[k] < 250
    ensures Saturated(px) == 0
  {
    if |px| > 0 {
      NoneSaturated(px[..|px| - 1]);
    }
  }

  // ----- Smoothing over a stream of frames -----

  function Blend(alpha: real, smoothed: real, brightness: real): real {
    if brightness < 0.0 then smoothed
    else if smoothed < 0.0 then brightness
    else alpha * brightness + (1.0 - alpha) * smoothed
  }

  /** The smoothed value after a stream of estimates; -1 before the first accepted one. */
  function Smoothed(es: seq<real>, alpha: real): real {
    if |es| == 0 then -1.0 else Blend(alpha, Smoothed(es[..|es| - 1], alpha), es[|es| - 1])
  }

  function Estimates(frames: seq<Frame>, percentile: nat): (es: seq<real>)
    ensures |es| == |frames|
    ensures forall i :: 0 <= i < |frames| ==> es[i] == EstimateOf(frames[i], percentile).brightness
  {
    if |frames| == 0 then []
    else Estimates(frames[..|frames| - 1], percentile) + [EstimateOf(frames[|frames| - 1], percentile).brightness]
  }

  datatype Bucket = Unknown | DarkRoom | Dim | Normal | Bright | DirectSunlight {
    function Rank(): nat {
      match this
      case Unknown => 0 case DarkRoom => 1 case Dim => 2 case Normal => 3 case Bright => 4 case DirectSunlight => 5
    }
  }

  function ClassifyLux(lux: real): Bucket {
    if lux < 10.0 then DarkRoom else if lux < 50.0 then Dim else if lux < 500.0 then Normal
    else if lux < 2000.0 then Bright else DirectSunlight
  }

  /** How many of the limits a lux value reaches. */
  function LimitsReached(lux: real, limits: seq<real>): nat {
    if |limits| == 0 then 0 else LimitsReached(lux, limits[1..]) + (if lux >= limits[0] then 1 else 0)
  }

  /** The bucket's rank is one more than the number of limits reached: 10, 50, 500 and 2000 lux. */
  lemma BucketRank(lux: real)
    ensures ClassifyLux(lux).Rank() == 1 + LimitsReached(lux, [10.0, 50.0, 500.0, 2000.0])
  {
    var l := [10.0, 50.0, 500.0, 2000.0];
    assert l[1..] == [50.0, 500.0, 2000.0] && l[1..][1..] == [500.0, 2000.0] && l[1..][1..][1..] == [2000.0];
    assert LimitsReached(lux, [2000.0]) == if lux >= 2000.0 then 1 else 0;
    assert LimitsReached(lux, [500.0, 2000.0]) == LimitsReached(lux, [2000.0]) + if lux >= 500.0 then 1 else 0;
    assert LimitsReached(lux, [50.0, 500.0, 2000.0]) == LimitsReached(lux, [500.0, 2000.0]) + if lux >= 50.0 then 1 else 0;
  }

  lemma SmoothedSnoc(frames: seq<Frame>, px: Frame, alpha: real, percentile: nat)
    ensures Smoothed(Estimates(frames + [px], percentile), alpha)
            == Blend(alpha, Smoothed(Estimates(frames, percentile), alpha), EstimateOf(px, percentile).brightness)
  {
    var es, e := Estimates(frames, percentile), EstimateOf(px, percentile).brightness;
    assert (frames + [px])[..|frames|] == frames;
    assert Estimates(frames + [px], percentile) == es + [e];
    assert (es + [e])[..|es|] == es;
  }

  lemma ProductSign(x: real, y: real)
    requires x >= 0.0 && y >= 0.0
    ensures x * y >= 0.0
  {
  }

  lemma ConvexBounds(alpha: real, x: real, y: real, lo: real, hi: real)
    requires 0.0 <= alpha <= 1.0 && lo <= x <= hi && lo <= y <= hi
    ensures lo <= alpha * x + (1.0 - alpha) * y <= hi
  {
    ProductSign(alpha, x - lo);
    ProductSign(1.0 - alpha, y - lo);
    ProductSign(alpha, hi - x);
    ProductSign(1.0 - alpha, hi - y);
  }

  lemma ConvexOrder(alpha: real, x: real, y: real, x': real, y': real)
    requires 0.0 <= alpha <= 1.0 && x <= x' && y <= y'
    ensures alpha * x + (1.0 - alpha) * y <= alpha * x' + (1.0 - alpha) * y'
  {
    ProductSign(alpha, x' - x);
    ProductSign(1.0 - alpha, y' - y);
  }

  predicate NoneAccepted(es: seq<real>) {
    |es| == 0 || (es[|es| - 1] < 0.0 && NoneAccepted(es[..|es| - 1]))
  }

  /** The smoothed value is unavailable until an estimate is accepted, then stays in the range of the accepted ones. */
  lemma {:induction false} SmoothedInHull(es: seq<real>, alpha: real, lo: real, hi: real)
    requires 0.0 <= alpha <= 1.0 && 0.0 <= lo
    requires forall i :: 0 <= i < |es| && es[i] >= 0.0 ==> lo <= es[i] <= hi
    ensures if NoneAccepted(es) then Smoothed(es, alpha) == -1.0 else lo <= Smoothed(es, alpha) <= hi
  {
    if |es| > 0 {
      SmoothedInHull(es[..|es| - 1], alpha, lo, hi);
      BlendInHull(alpha, Smoothed(es[..|es| - 1], alpha), es[|es| - 1], lo, hi);
    }
  }

  lemma BlendInHull(alpha: real, s: real, e: real, lo: real, hi: real)
    requires 0.0 <= alpha <= 1.0 && 0.0 <= lo
    ensures e >= 0.0 && lo <= e <= hi && (s < 0.0 || lo <= s <= hi) ==> lo <= Blend(alpha, s, e) <= hi
  {
    if e >= 0.0 && lo <= e <= hi && lo <= s <= hi {
      ConvexBounds(alpha, e, s, lo, hi);
    }
  }

  lemma BlendOrder(alpha: real, s: real, e: real, s': real, e': real)
    requires 0.0 <= alpha <= 1.0 && s <= s' && 0.0 <= e <= e' && (0.0 <= s || s' < 0.0)
    ensures 0.0 <= Blend(alpha, s, e) <= Blend(alpha, s', e')
  {
    if s >= 0.0 {
      ConvexOrder(alpha, e, s, e', s');
      ConvexOrder(alpha, 0.0, 0.0, e, s);
    }
  }

  /** Pointwise no brighter, or rejected in both streams. */
  predicate NoBrighter(e: real, d: real) { 0.0 <= e <= d || (e < 0.0 && d < 0.0) }

  lemma {:induction false} SmoothedOrder(es: seq<real>, ds: seq<real>, alpha: real)
    requires 0.0 <= alpha <= 1.0 && |es| == |ds| && forall i :: 0 <= i < |es| ==> NoBrighter(es[i], ds[i])
    ensures Smoothed(es, alpha) <= Smoothed(ds, alpha)
    ensures NoneAccepted(es) <==> NoneAccepted(ds)
    ensures if NoneAccepted(es) then Smoothed(es, alpha) == Smoothed(ds, alpha) == -1.0 else 0.0 <= Smoothed(es, alpha)
  {
    if |es| > 0 {
      var n := |es| - 1;
      SmoothedOrder(es[..n], ds[..n], alpha);
      if es[n] >= 0.0 {
        BlendOrder(alpha, Smoothed(es[..n], alpha), es[n], Smoothed(ds[..n], alpha), ds[n]);
      }
    }
  }

  // ----- The smoothed value in closed form -----

  /** The accepted estimates of a stream, in order. */
  function Accepted(es: seq<real>): seq<real> {
    if |es| == 0 then []
    else if es[|es| - 1] >= 0.0 then Accepted(es[..|es| - 1]) + [es[|es| - 1]]
    else Accepted(es[..|es| - 1])
  }

  function Pow(b: real, k: nat): real { if k == 0 then 1.0 else b * Pow(b, k - 1) }

  /** The sum of alpha * b^(n - i) * xs[i] for i = 1 to m, where n is the last index. */
  function Weighted(xs: seq<real>, alpha: real, b: real, m: nat): real
    requires m < |xs|
  {
    if m == 0 then 0.0 else Weighted(xs, alpha, b, m - 1) + alpha * Pow(b, |xs| - 1 - m) * xs[m]
  }

  lemma Reorder(a: real, b: real, p: real, x: real)
    ensures a * (b * p) * x == b * (a * p * x)
  {
  }

  lemma Distributed(b: real, x: real, y: real)
    ensures b * x + b * y == b * (x + y)
  {
  }

  /** One more term, when all powers have grown by one factor. */
  lemma OneMoreTerm(a: real, b: real, p: real, q: real, x: real, before: real, after: real)
    requires q == b * p && after == b * before
    ensures after + a * q * x == b * (before + a * p * x)
  {
    Reorder(a, b, p, x);
    Distributed(b, before, a * p * x);
  }

  lemma WeightedStep(xs: seq<real>, x: real, alpha: real, b: real, m: nat, before: real, p: real, now: real)
    requires 0 < m < |xs| && p == Pow(b, |xs| - 1 - m) && now == before + alpha * p * xs[m]
    requires Weighted(xs + [x], alpha, b, m - 1) == b * before
    ensures Weighted(xs + [x], alpha, b, m) == b * now
  {
    var q := Pow(b, |xs| - m);
    OneMoreTerm(alpha, b, p, q, xs[m], before, b * before);
    assert |xs + [x]| - 1 - m == |xs| - m && (xs + [x])[m] == xs[m];
  }

  lemma {:induction false} WeightedSnoc(xs: seq<real>, x: real, alpha: real, b: real, m: nat)
    requires m < |xs|
    ensures Weighted(xs + [x], alpha, b, m) == b * Weighted(xs, alpha, b, m)
  {
    if m > 0 {
      WeightedSnoc(xs, x, alpha, b, m - 1);
      WeightedStep(xs, x, alpha, b, m, Weighted(xs, alpha, b, m - 1), Pow(b, |xs| - 1 - m), Weighted(xs, alpha, b, m));
    }
  }

  /** b^n of the first estimate plus the weighted later ones. */
  function Exponential(xs: seq<real>, alpha: real, b: real): real
    requires |xs| > 0
  {
    Pow(b, |xs| - 1) * xs[0] + Weighted(xs, alpha, b, |xs| - 1)
  }

  lemma ExponentialSnoc(xs: seq<real>, x: real, alpha: real, b: real)
    requires |xs| > 0
    ensures Exponential(xs + [x], alpha, b) == alpha * x + b * Exponential(xs, alpha, b)
  {
    var n := |xs|;
    WeightedSnoc(xs, x, alpha, b, n - 1);
    assert Weighted(xs + [x], alpha, b, n) == Weighted(xs + [x], alpha, b, n - 1) + alpha * Pow(b, 0) * x;
    OneMoreTerm(1.0, b, Pow(b, n - 1), Pow(b, n), xs[0], Weighted(xs, alpha, b, n - 1), Weighted(xs + [x], alpha, b, n - 1));
  }

  lemma {:induction false} AcceptedNone(es: seq<real>)
    ensures NoneAccepted(es) <==> Accepted(es) == []
  {
    if |es| > 0 {
      AcceptedNone(es[..|es| - 1]);
    }
  }

  /**
   * The smoothed value of every stream is the exponentially weighted sum of its accepted estimates e0 to en:
   * (1 - alpha)^n * e0 plus alpha * (1 - alpha)^(n - i) * ei for i = 1 to n.
   */
  lemma {:induction false} SmoothedClosedForm(es: seq<real>, alpha: real)
    requires 0.0 <= alpha <= 1.0
    ensures var xs := Accepted(es); Smoothed(es, alpha) == if xs == [] then -1.0 else Exponential(xs, alpha, 1.0 - alpha)
  {
    if |es| > 0 {
      var front, e := es[..|es| - 1], es[|es| - 1];
      SmoothedClosedForm(front, alpha);
      SmoothedNotNegative(front, alpha);
      if e >= 0.0 && Accepted(front) != [] {
        ExponentialSnoc(Accepted(front), e, alpha, 1.0 - alpha);
      }
    }
  }

  lemma SmoothedNotNegative(es: seq<real>, alpha: real)
    requires 0.0 <= alpha <= 1.0
    ensures Accepted(es) != [] ==> Smoothed(es, alpha) >= 0.0
  {
    AcceptedNone(es);
    SmoothedOrder(es, es, alpha) by {
      forall i | 0 <= i < |es| ensures NoBrighter(es[i], es[i]) {
      }
    }
  }

  /** Frame by frame: A is no brighter than B, and rejected wherever B is. */
  ghost predicate DarkerStream(as_: seq<Frame>, bs: seq<Frame>) {
    |as_| == |bs| && forall i :: 0 <= i < |as_| ==> Darker(as_[i], bs[i]) && (Rejected(bs[i]) ==> Rejected(as_[i]))
  }

  lemma EstimatesNoBrighter(as_: seq<Frame>, bs: seq<Frame>, percentile: nat)
    requires DarkerStream(as_, bs)
    ensures forall i :: 0 <= i < |as_| ==> NoBrighter(Estimates(as_, percentile)[i], Estimates(bs, percentile)[i])
  {
    forall i | 0 <= i < |as_| ensures NoBrighter(Estimates(as_, percentile)[i], Estimates(bs, percentile)[i]) {
      EstimateSigns(as_[i], percentile);
      EstimateSigns(bs[i], percentile);
      if !Rejected(bs[i]) {
        BrightnessMonotone(as_[i], bs[i], percentile);
      }
    }
  }

  /** A pointwise brighter stream, rejected only where the darker one is, never has a smaller smoothed brightness. */
  lemma SmoothedMonotone(as_: seq<Frame>, bs: seq<Frame>, alpha: real, percentile: nat)
    requires 0.0 <= alpha <= 1.0 && DarkerStream(as_, bs)
    ensures Smoothed(Estimates(as_, percentile), alpha) <= Smoothed(Estimates(bs, percentile), alpha)
    ensures NoneAccepted(Estimates(as_, percentile)) <==> NoneAccepted(Estimates(bs, percentile))
  {
    EstimatesNoBrighter(as_, bs, percentile);
    SmoothedOrder(Estimates(as_, percentile), Estimates(bs, percentile), alpha);
  }

  lemma BucketOrder(model: real -> real, x: real, y: real)
    requires (forall u, v :: u <= v ==> model(u) <= model(v)) && x <= y
    ensures ClassifyLux(model(x)).Rank() <= ClassifyLux(model(y)).Rank()
  {
    assert model(x) <= model(y);
  }

  /** What the estimator publishes after a stream: nothing until a frame is accepted, then the model of the smoothed value. */
  function PublishedLux(frames: seq<Frame>, alpha: real, percentile: nat, model: real -> real): real {
    var es := Estimates(frames, percentile);
    if NoneAccepted(es) then -1.0 else model(Smoothed(es, alpha))
  }

  function PublishedBucket(frames: seq<Frame>, alpha: real, percentile: nat, model: real -> real): Bucket {
    if NoneAccepted(Estimates(frames, percentile)) then Unknown else ClassifyLux(PublishedLux(frames, alpha, percentile, model))
  }

  /** The confidence of the latest accepted frame, 0 before any. */
  function PublishedConfidence(frames: seq<Frame>, percentile: nat): real {
    if |frames| == 0 then 0.0
    else
      var front, last := frames[..|frames| - 1], frames[|frames| - 1];
      if Rejected(last) then PublishedConfidence(front, percentile) else EstimateOf(last, percentile).confidence
  }

  lemma NoneAcceptedSnoc(frames: seq<Frame>, px: Frame, percentile: nat)
    ensures NoneAccepted(Estimates(frames + [px], percentile)) <==> NoneAccepted(Estimates(frames, percentile)) && Rejected(px)
    ensures PublishedConfidence(frames + [px], percentile)
            == if Rejected(px) then PublishedConfidence(frames, percentile) else EstimateOf(px, percentile).confidence
  {
    var es, e := Estimates(frames, percentile), EstimateOf(px, percentile).brightness;
    EstimateSigns(px, percentile);
    assert (frames + [px])[..|frames|] == frames;
    assert Estimates(frames + [px], percentile) == es + [e];
    assert (es + [e])[..|es|] == es;
  }

  /** With a monotone light model the published bucket of a brighter stream is never a darker one. */
  lemma BucketMonotone(as_: seq<Frame>, bs: seq<Frame>, alpha: real, percentile: nat, model: real -> real)
    requires 0.0 <= alpha <= 1.0 && DarkerStream(as_, bs)
    requires forall x, y :: x <= y ==> model(x) <= model(y)
    ensures PublishedBucket(as_, alpha, percentile, model).Rank() <= PublishedBucket(bs, alpha, percentile, model).Rank()
  {
    SmoothedMonotone(as_, bs, alpha, percentile);
    BucketOrder(model, Smoothed(Estimates(as_, percentile), alpha), Smoothed(Estimates(bs, percentile), alpha));
  }

  /** A published reading is available exactly after a first accepted frame, if the model is not negative. */
  lemma AvailableIff(frames: seq<Frame>, alpha: real, percentile: nat, model: real -> real)
    requires 0.0 <= alpha <= 1.0 && forall x :: x >= 0.0 ==> model(x) >= 0.0
    ensures PublishedLux(frames, alpha, percentile, model) >= 0.0 <==> exists i :: 0 <= i < |frames| && !Rejected(frames[i])
  {
    var es := Estimates(frames, percentile);
    SmoothedOrder(es, es, alpha) by {
      forall i | 0 <= i < |es| ensures NoBrighter(es[i], es[i]) {
      }
    }
    AcceptedIff(frames, percentile);
  }

  lemma {:induction false} AcceptedIff(frames: seq<Frame>, percentile: nat)
    ensures NoneAccepted(Estimates(frames, percentile)) <==> forall i :: 0 <= i < |frames| ==> Rejected(frames[i])
  {
    if |frames| > 0 {
      var front, last := frames[..|frames| - 1], frames[|frames| - 1];
      AcceptedIff(front, percentile);
      assert frames == front + [last];
      NoneAcceptedSnoc(front, last, percentile);
      AllRejectedSnoc(front, last);
    }
  }

  lemma AllRejectedSnoc(frames: seq<Frame>, px: Frame)
    ensures (forall i :: 0 <= i < |frames + [px]| ==> Rejected((frames + [px])[i]))
            <==> Rejected(px) && forall i :: 0 <= i < |frames| ==> Rejected(frames[i])
  {
    var longer := frames + [px];
    assert longer[|frames|] == px && forall i :: 0 <= i < |frames| ==> longer[i] == frames[i];
  }

  /** The estimator's mutable state; `model` stands for a * brightness^b. */
  class Estimator {
    const alpha: real
    const percentile: nat
    const model: real -> real
    var smoothed: real
    var latestLux: real
    var latestConfidence: real
    var latestBucket: Bucket
    ghost var frames: seq<Frame>

    ghost predicate Valid()
      reads this
    {
      && smoothed == Smoothed(Estimates(frames, percentile), alpha)
      && latestLux == PublishedLux(frames, alpha, percentile, model)
      && latestBucket == PublishedBucket(frames, alpha, percentile, model)
      && latestConfidence == PublishedConfidence(frames, percentile)
    }

    constructor (alpha: real, percentile: nat, model: real -> real)
      ensures Valid() && frames == []
      ensures this.alpha == alpha && this.percentile == percentile && this.model == model
    {
      this.alpha, this.percentile, this.model := alpha, percentile, model;
      smoothed, latestLux, latestConfidence, latestBucket := -1.0, -1.0, 0.0, Unknown;
      frames := [];
    }

    method EstimateBrightness(px: Frame) returns (e: Estimate)
      ensures e == EstimateOf(px, percentile)
    {
      var n := |px|;
      CountBounds(px);
      var saturated := 0;
      for i := 250 to 256
        invariant saturated == CountLE(px, i - 1) - CountLE(px, 249)
      {
        saturated := saturated + Bin(px, i);
      }
      var ratio := saturated as real / n as real;
      if ratio > 0.85 {
        return Estimate(-1.0, 0.1);
      }
      if CountLE(px, 2) == n {
        return Estimate(0.0, 0.95);
      }
      var sum, count, pValue, found := ScanHistogram(px, percentile);
      var mean := if count > 0 then sum as real / count as real else pValue as real;
      var deviation := Abs(mean - pValue as real) / 255.0;
      var c := 1.0 - deviation * 1.5 - ratio * 0.5;
      e := Estimate(0.7 * mean + 0.3 * pValue as real, if c > 0.1 then c else 0.1);
    }

    /** Smoothing and publication of one estimate; a negative brightness changes nothing. */
    method Publish(brightness: real, confidence: real)
      modifies this`smoothed, this`latestLux, this`latestConfidence, this`latestBucket
      ensures smoothed == Blend(alpha, old(smoothed), brightness)
      ensures brightness >= 0.0 ==> smoothed == (if old(smoothed) < 0.0 then brightness else alpha * brightness + (1.0 - alpha) * old(smoothed))
      ensures brightness < 0.0 ==> latestLux == old(latestLux) && latestConfidence == old(latestConfidence)
                                   && latestBucket == old(latestBucket)
      ensures brightness >= 0.0 ==> latestLux == model(smoothed) && latestConfidence == confidence
                                    && latestBucket == ClassifyLux(latestLux)
    {
      if brightness >= 0.0 {
        if smoothed < 0.0 {
          smoothed := brightness;
        } else {
          smoothed := alpha * brightness + (1.0 - alpha) * smoothed;
        }
        latestLux := model(smoothed);
        latestConfidence := confidence;
        latestBucket := ClassifyLux(latestLux);
      }
    }

    /** One pass of the worker. */
    method ProcessFrame(px: Frame)
      requires Valid()
      modifies this
      ensures Valid() && frames == old(frames) + [px]
      ensures Rejected(px) ==> latestLux == old(latestLux) && latestConfidence == old(latestConfidence)
                               && latestBucket == old(latestBucket)
      ensures 0.0 <= alpha <= 1.0 ==>
                var xs := Accepted(Estimates(frames, percentile));
                smoothed == if xs == [] then -1.0 else Exponential(xs, alpha, 1.0 - alpha)
      ensures !Rejected(px) ==> latestLux == model(smoothed) && latestBucket == ClassifyLux(latestLux)
                                && latestConfidence == EstimateOf(px, percentile).confidence
    {
      var e := EstimateBrightness(px);
      EstimateSigns(px, percentile);
      SmoothedSnoc(frames, px, alpha, percentile);
      NoneAcceptedSnoc(frames, px, percentile);
      Publish(e.brightness, e.confidence);
      frames := frames + [px];
      if 0.0 <= alpha <= 1.0 {
        SmoothedClosedForm(Estimates(frames, percentile), alpha);
      }
    }

    /** The published reading; with a model that is not negative it is available exactly after a first accepted frame. */
    method LatestLux() returns (available: bool, lux: real, confidence: real, bucket: Bucket)
      requires Valid()
      ensures 0.0 <= alpha <= 1.0 && (forall x :: x >= 0.0 ==> model(x) >= 0.0) ==>
                (available <==> exists i :: 0 <= i < |frames| && !Rejected(frames[i]))
      ensures available <==> PublishedLux(frames, alpha, percentile, model) >= 0.0
      ensures available ==>
                && lux == PublishedLux(frames, alpha, percentile, model) && confidence == PublishedConfidence(frames, percentile)
                && bucket == PublishedBucket(frames, alpha, percentile, model)
    {
      available, lux, confidence, bucket := latestLux >= 0.0, latestLux, latestConfidence, latestBucket;
      ghost var goodModel := 0.0 <= alpha <= 1.0 && forall x :: x >= 0.0 ==> model(x) >= 0.0;
      if goodModel {
        AvailableIff(frames, alpha, percentile, model);
      }
    }
  }
}
