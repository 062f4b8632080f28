/**
 * The pure arithmetic behind the analyzer's per-frame features: sums over
 * sample windows, the peak, the decibel-to-[0,1] loudness mapping, the
 * frequency-band split and the one-pole smoothing filter. Samples are
 * modelled as reals; the engine's float behaviour is not.
 */
module Features {

  function Min(a: int, b: int): int { if a <= b then a else b }

  function Abs(x: real): (r: real)
    ensures r >= 0.0 && (r == x || r == -x)
  {
    if x < 0.0 then -x else x
  }

  function MaxReal(a: real, b: real): (r: real)
    ensures r >= a && r >= b && (r == a || r == b)
  {
    if a >= b then a else b
  }

  /** Clamps a value into [0, 1]. */
  function Clamp01(x: real): (r: real)
    ensures 0.0 <= r <= 1.0
    ensures 0.0 <= x <= 1.0 ==> r == x
  {
    if x < 0.0 then 0.0 else if x > 1.0 then 1.0 else x
  }

  // ---------------------------------------------------------------- sums

  /** The sum of a window, accumulated front to back. */
  function Sum(s: seq<real>): real
  {
    if |s| == 0 then 0.0 else Sum(s[..|s| - 1]) + s[|s| - 1]
  }

  /** The sum of squares of a window, accumulated front to back. */
  function SumSq(s: seq<real>): real
  {
    if |s| == 0 then 0.0 else SumSq(s[..|s| - 1]) + Square(s[|s| - 1])
  }

  function Square(x: real): real { x * x }

  lemma SquareNonNegative(x: real)
    ensures Square(x) >= 0.0
  {
    if x < 0.0 {
      assert Square(x) == (-x) * (-x);
    }
  }

  lemma {:induction false} SumAppend(a: seq<real>, b: seq<real>)
    ensures Sum(a + b) == Sum(a) + Sum(b)
    decreases |b|
  {
    if |b| == 0 {
      assert a + b == a;
    } else {
      assert (a + b)[..|a + b| - 1] == a + b[..|b| - 1];
      SumAppend(a, b[..|b| - 1]);
    }
  }

  lemma {:induction false} SumNonNegative(s: seq<real>)
    requires forall i :: 0 <= i < |s| ==> s[i] >= 0.0
    ensures Sum(s) >= 0.0
  {
    if |s| > 0 {
      SumNonNegative(s[..|s| - 1]);
    }
  }

  lemma {:induction false} SumSqNonNegative(s: seq<real>)
    ensures SumSq(s) >= 0.0
  {
    if |s| > 0 {
      SumSqNonNegative(s[..|s| - 1]);
      SquareNonNegative(s[|s| - 1]);
    }
  }

  /** The mean square of a non-empty window. */
  function MeanSquare(s: seq<real>): (r: real)
    requires |s| > 0
    ensures r >= 0.0
  {
    SumSqNonNegative(s);
    SumSq(s) / (|s| as real)
  }

  /** The largest magnitude in a window; 0 for an empty one. */
  function MaxAbs(s: seq<real>): (r: real)
    ensures r >= 0.0
    ensures forall i :: 0 <= i < |s| ==> Abs(s[i]) <= r
    ensures r == 0.0 || exists i :: 0 <= i < |s| && r == Abs(s[i])
  {
    if |s| == 0 then 0.0 else MaxReal(MaxAbs(s[..|s| - 1]), Abs(s[|s| - 1]))
  }

  /** A window of silence has peak 0. */
  lemma MaxAbsSilence(s: seq<real>)
    requires forall i :: 0 <= i < |s| ==> s[i] == 0.0
    ensures MaxAbs(s) == 0.0
  {
  }

  /**
   * The sum of s over [start, min(end, |s|)): the end is clamped to the
   * window and an empty or reversed range sums to 0.
   */
  function RangeSum(s: seq<real>, start: nat, end: int): real
  {
    var e := Min(end, |s|);
    if start < e then Sum(s[start..e]) else 0.0
  }

  lemma SumSplit(s: seq<real>, i: nat, j: nat, k: nat)
    requires i <= j <= k <= |s|
    ensures Sum(s[i..k]) == Sum(s[i..j]) + Sum(s[j..k])
  {
    assert s[i..k] == s[i..j] + s[j..k];
    SumAppend(s[i..j], s[j..k]);
  }

  /** A clamped range in terms of the clamped bounds. */
  lemma RangeSumClamped(s: seq<real>, start: nat, end: nat)
    requires start <= end
    ensures RangeSum(s, start, end) == Sum(s[Min(start, |s|)..Min(end, |s|)])
  {
    if start >= Min(end, |s|) {
      assert s[Min(start, |s|)..Min(end, |s|)] == [];
    }
  }

  /** Three consecutive clamped ranges that start at 0 and end at |s| cover s exactly once. */
  lemma BandPartition(s: seq<real>, a: nat, b: nat)
    requires a <= b
    ensures RangeSum(s, 0, a) + RangeSum(s, a, b) + RangeSum(s, b, |s|) == Sum(s)
  {
    var a', b' := Min(a, |s|), Min(b, |s|);
    RangeSumClamped(s, 0, a);
    RangeSumClamped(s, a, b);
    if b <= |s| {
      RangeSumClamped(s, b, |s|);
    }
    SumSplit(s, 0, a', b');
    SumSplit(s, 0, b', |s|);
    assert s[0..|s|] == s;
  }

  lemma RangeSumNonNegative(s: seq<real>, start: nat, end: int)
    requires forall i :: 0 <= i < |s| ==> s[i] >= 0.0
    ensures RangeSum(s, start, end) >= 0.0
  {
    var e := Min(end, |s|);
    if start < e {
      SumNonNegative(s[start..e]);
    }
  }

  // ------------------------------------------------------------ loudness

  /** The float type's smallest positive value, 2^-149, added before taking the logarithm. */
  const Epsilon: real := 1.0 / 713623846352979940529142984724747568191373312.0

  /** Where v lies between a and b, as a fraction clamped to [0, 1]; 0 when a == b. */
  function InverseLerp(a: real, b: real, v: real): real
  {
    if a != b then Clamp01((v - a) / (b - a)) else 0.0
  }

  /** The decibel range [-40, 0] mapped linearly onto [0, 1], clamped outside. */
  function NormalizeDb(db: real): (r: real)
    ensures 0.0 <= r <= 1.0
  {
    Clamp01(InverseLerp(-40.0, 0.0, db))
  }

  /** NormalizeDb in closed form: 0 at or below -40 dB, 1 at or above 0 dB, linear between. */
  lemma NormalizeDbShape(db: real)
    ensures db <= -40.0 ==> NormalizeDb(db) == 0.0
    ensures db >= 0.0 ==> NormalizeDb(db) == 1.0
    ensures -40.0 <= db <= 0.0 ==> NormalizeDb(db) * 40.0 == db + 40.0
  {
  }

  lemma NormalizeDbMonotone(x: real, y: real)
    requires x <= y
    ensures NormalizeDb(x) <= NormalizeDb(y)
  {
    assert (x + 40.0) / 40.0 <= (y + 40.0) / 40.0;
  }

  /** A loudness (an RMS or a peak) as 20 log10(loudness + Epsilon) decibels, mapped onto [0, 1]. */
  function NormalizeLoudness(loudness: real, log10: real -> real): (r: real)
    ensures 0.0 <= r <= 1.0
  {
    NormalizeDb(20.0 * log10(loudness + Epsilon))
  }

  /** With a monotone logarithm, louder input never maps lower. */
  lemma NormalizeLoudnessMonotone(x: real, y: real, log10: real -> real)
    requires forall a: real, b: real :: 0.0 < a <= b ==> log10(a) <= log10(b)
    requires 0.0 <= x <= y
    ensures NormalizeLoudness(x, log10) <= NormalizeLoudness(y, log10)
  {
    assert log10(x + Epsilon) <= log10(y + Epsilon);
    NormalizeDbMonotone(20.0 * log10(x + Epsilon), 20.0 * log10(y + Epsilon));
  }

  // --------------------------------------------------------------- bands

  /** The first spectrum bin past 300 Hz, for bins of freqPerBin Hz each. */
  function LowBin(freqPerBin: real): nat
    requires freqPerBin > 0.0
  {
    RatioNonNegative(300.0, freqPerBin);
    Ratio(300.0, freqPerBin).Floor
  }

  /** The first spectrum bin past 4000 Hz. */
  function MidBin(freqPerBin: real): nat
    requires freqPerBin > 0.0
  {
    RatioNonNegative(4000.0, freqPerBin);
    Ratio(4000.0, freqPerBin).Floor
  }

  /** The low band never ends after the mid band. */
  lemma BinsOrdered(freqPerBin: real)
    requires freqPerBin > 0.0
    ensures LowBin(freqPerBin) <= MidBin(freqPerBin)
  {
    RatioMonotone(300.0, 4000.0, freqPerBin);
  }

  /** Energies or shares of the low, mid and high bands. */
  datatype Bands = Bands(low: real, mid: real, high: real)

  /** The energy of the low (below lowBin), mid (below midBin) and high (the rest) bands. */
  function BandEnergies(spectrum: seq<real>, lowBin: nat, midBin: nat): Bands
  {
    Bands(RangeSum(spectrum, 0, lowBin), RangeSum(spectrum, lowBin, midBin), RangeSum(spectrum, midBin, |spectrum|))
  }

  /** The smoothing targets: all 0 below the silence threshold, otherwise each band's share of the total. */
  function BandTargets(e: Bands, silenceThreshold: real): (r: Bands)
    requires silenceThreshold > 0.0
  {
    var total := e.low + e.mid + e.high;
    if total < silenceThreshold then Bands(0.0, 0.0, 0.0)
    else Bands(Ratio(e.low, total), Ratio(e.mid, total), Ratio(e.high, total))
  }

  /** part / whole, for a positive whole. */
  function Ratio(part: real, whole: real): real
    requires whole > 0.0
  {
    part / whole
  }

  lemma RatioNonNegative(a: real, t: real)
    requires a >= 0.0 && t > 0.0
    ensures Ratio(a, t) >= 0.0
  {
    assert a / t * t == a;
  }

  lemma RatioPositive(a: real, t: real)
    requires a > 0.0 && t > 0.0
    ensures Ratio(a, t) > 0.0
  {
    assert a / t * t == a;
  }

  lemma RatioMonotone(a: real, b: real, t: real)
    requires a <= b && t > 0.0
    ensures Ratio(a, t) <= Ratio(b, t)
  {
    assert Ratio(b, t) - Ratio(a, t) == Ratio(b - a, t);
    RatioNonNegative(b - a, t);
  }

  /** Below the threshold the targets are silence; otherwise they are shares in [0, 1] summing to 1. */
  lemma BandTargetsShares(e: Bands, silenceThreshold: real)
    requires silenceThreshold > 0.0 && e.low >= 0.0 && e.mid >= 0.0 && e.high >= 0.0
    ensures var t := BandTargets(e, silenceThreshold);
      0.0 <= t.low <= 1.0 && 0.0 <= t.mid <= 1.0 && 0.0 <= t.high <= 1.0
    ensures e.low + e.mid + e.high < silenceThreshold ==> BandTargets(e, silenceThreshold) == Bands(0.0, 0.0, 0.0)
    ensures var t := BandTargets(e, silenceThreshold);
      e.low + e.mid + e.high >= silenceThreshold ==> t.low + t.mid + t.high == 1.0
  {
    var total := e.low + e.mid + e.high;
    if total >= silenceThreshold {
      RatioUnit(e.low, total);
      RatioUnit(e.mid, total);
      RatioUnit(e.high, total);
      RatiosSum(e.low, e.mid, e.high);
    }
  }

  /** The bands of a non-negative spectrum are non-negative and add up to the whole spectrum. */
  lemma BandEnergiesCover(spectrum: seq<real>, lowBin: nat, midBin: nat)
    requires lowBin <= midBin
    requires forall i :: 0 <= i < |spectrum| ==> spectrum[i] >= 0.0
    ensures var e := BandEnergies(spectrum, lowBin, midBin);
      e.low >= 0.0 && e.mid >= 0.0 && e.high >= 0.0 && e.low + e.mid + e.high == Sum(spectrum)
  {
    BandPartition(spectrum, lowBin, midBin);
    RangeSumNonNegative(spectrum, 0, lowBin);
    RangeSumNonNegative(spectrum, lowBin, midBin);
    RangeSumNonNegative(spectrum, midBin, |spectrum|);
  }

  /** The smoothing targets of one frame's spectrum. */
  function FrameTargets(spectrum: seq<real>, freqPerBin: real, silenceThreshold: real): Bands
    requires freqPerBin > 0.0 && silenceThreshold > 0.0
  {
    BandTargets(BandEnergies(spectrum, LowBin(freqPerBin), MidBin(freqPerBin)), silenceThreshold)
  }

  /**
   * For a non-negative spectrum the targets of a frame are all 0 when its
   * total energy is below the threshold, and otherwise shares in [0, 1]
   * that sum to 1.
   */
  lemma FrameTargetsShares(spectrum: seq<real>, freqPerBin: real, silenceThreshold: real)
    requires freqPerBin > 0.0 && silenceThreshold > 0.0
    requires forall i :: 0 <= i < |spectrum| ==> spectrum[i] >= 0.0
    ensures var t := FrameTargets(spectrum, freqPerBin, silenceThreshold);
      0.0 <= t.low <= 1.0 && 0.0 <= t.mid <= 1.0 && 0.0 <= t.high <= 1.0
    ensures Sum(spectrum) < silenceThreshold ==> FrameTargets(spectrum, freqPerBin, silenceThreshold) == Bands(0.0, 0.0, 0.0)
    ensures var t := FrameTargets(spectrum, freqPerBin, silenceThreshold);
      Sum(spectrum) >= silenceThreshold ==> t.low + t.mid + t.high == 1.0
  {
    BinsOrdered(freqPerBin);
    BandEnergiesCover(spectrum, LowBin(freqPerBin), MidBin(freqPerBin));
    BandTargetsShares(BandEnergies(spectrum, LowBin(freqPerBin), MidBin(freqPerBin)), silenceThreshold);
  }

  /** A part of a positive whole, divided by it, lies in [0, 1]. */
  lemma RatioUnit(a: real, t: real)
    requires 0.0 <= a <= t && t > 0.0
    ensures 0.0 <= Ratio(a, t) <= 1.0
  {
    assert a / t * t == a;
  }

  lemma RatiosSum(a: real, b: real, c: real)
    requires a >= 0.0 && b >= 0.0 && c >= 0.0 && a + b + c > 0.0
    ensures Ratio(a, a + b + c) + Ratio(b, a + b + c) + Ratio(c, a + b + c) == 1.0
  {
    var t := a + b + c;
    assert a / t + b / t + c / t == (a + b + c) / t;
  }

  // ----------------------------------------------------------- smoothing

  /** Linear interpolation from a to b by t clamped to [0, 1]. */
  function Lerp(a: real, b: real, t: real): real
  {
    a + Scale(b - a, Clamp01(t))
  }

  function Scale(d: real, c: real): real { d * c }

  /** Scaling by a factor in [0, 1] moves a value toward 0 without crossing it. */
  lemma ScaleUnit(d: real, c: real)
    requires 0.0 <= c <= 1.0
    ensures d >= 0.0 ==> 0.0 <= Scale(d, c) <= d
    ensures d <= 0.0 ==> d <= Scale(d, c) <= 0.0
  {
    if d == 0.0 {
      assert Scale(d, c) == 0.0 * c == 0.0;
    } else if d > 0.0 {
      assert d * c <= d * 1.0;
    } else {
      var e := -d;
      assert 0.0 <= e * c <= e * 1.0;
      assert e * c == -(d * c);
    }
  }

  /** The interpolation stays between its end points ... */
  lemma LerpBetween(a: real, b: real, t: real)
    ensures a <= b ==> a <= Lerp(a, b, t) <= b
    ensures b <= a ==> b <= Lerp(a, b, t) <= a
  {
    ScaleUnit(b - a, Clamp01(t));
  }

  /** ... and reaches them when t is clamped to 0 or 1. */
  lemma LerpEnds(a: real, b: real, t: real)
    ensures t <= 0.0 ==> Lerp(a, b, t) == a
    ensures t >= 1.0 ==> Lerp(a, b, t) == b
  {
  }

  /**
   * One step of the one-pole low-pass filter: a stored value of exactly 0
   * means "no history yet", so the new value is taken as is; otherwise the
   * stored value moves toward the new one by the smoothing factor.
   */
  function LowPass(current: real, last: real, smoothing: real): real
  {
    if last == 0.0 then current else Lerp(last, current, smoothing)
  }

  /** The filter bootstraps on an empty history and never overshoots: its output lies between the history and the input. */
  lemma LowPassBetween(current: real, last: real, smoothing: real)
    ensures last == 0.0 ==> LowPass(current, last, smoothing) == current
    ensures var r := LowPass(current, last, smoothing);
      (last <= current ==> last <= r <= current) && (current <= last ==> current <= r <= last)
  {
    LerpBetween(last, current, smoothing);
  }

  /** Inputs and history in [0, 1] give an output in [0, 1]. */
  lemma LowPassUnit(current: real, last: real, smoothing: real)
    requires 0.0 <= current <= 1.0 && 0.0 <= last <= 1.0
    ensures 0.0 <= LowPass(current, last, smoothing) <= 1.0
  {
    LowPassBetween(current, last, smoothing);
  }

  // -------------------------------------------------------- ring reading

  /** The remainder of the analyzer's language: truncated toward zero, with the dividend's sign. */
  function TruncRem(a: int, n: int): (r: int)
    requires n > 0
  {
    if a >= 0 then a % n else -((-a) % n)
  }

  /**
   * Where a window of len samples ending at the write position micPos
   * starts in a ring of the given number of samples.
   */
  function WindowStart(micPos: int, len: int, samples: int): int
    requires samples > 0
  {
    TruncRem(micPos - len + samples, samples)
  }

  /** For a position inside the ring and a window no longer than it, the start is in range and len samples later is micPos again. */
  lemma WindowStartInRing(micPos: int, len: nat, samples: int)
    requires 0 <= micPos < samples && len <= samples
    ensures 0 <= WindowStart(micPos, len, samples) < samples
    ensures (WindowStart(micPos, len, samples) + len) % samples == micPos
  {
    var d := micPos - len + samples;
    if d < samples {
      ModBelow(d, samples);
      ModOnce(micPos + samples, samples);
    } else {
      ModOnce(d, samples);
      ModBelow(micPos, samples);
    }
  }

  lemma ModBelow(d: int, n: int)
    requires 0 <= d < n
    ensures d % n == d
  {
  }

  lemma ModOnce(d: int, n: int)
    requires 0 < n <= d < 2 * n
    ensures d % n == d - n
  {
    ModBelow(d - n, n);
    assert d == (d - n) + n;
  }

  /** The window of len samples read from ring position start, wrapping past the end. */
  function RingWindow(ring: seq<real>, start: int, len: nat): (r: seq<real>)
    requires |ring| > 0
    ensures |r| == len
  {
    seq(len, i requires 0 <= i < len => ring[(start + i) % |ring|])
  }
}
