/**
 * The microphone analyzer component: its configuration, its buffers (null
 * until InitializeBuffers runs), the five smoothing accumulators, the
 * published feature snapshot, and the per-frame pipeline that reads the
 * latest window of the recording ring, runs the FFT and derives loudness
 * and band-energy features.
 */
module MicAudio {
  import opened Bits
  import opened FFTUtils
  import opened Features

  /** The five features published every frame. */
  datatype AudioMotionFeatures = AudioMotionFeatures(
    normalizedRms: real,
    normalizedPeak: real,
    lowBandEnergy: real,
    midBandEnergy: real,
    highBandEnergy: real)

  /** The five smoothing accumulators, one per feature. */
  datatype History = History(rms: real, peak: real, low: real, mid: real, high: real)

  /** The accumulator a filter step reads and updates. */
  datatype Channel = RmsChannel | PeakChannel | LowChannel | MidChannel | HighChannel

  /** The recording clip: absent, or the ring of samples the microphone writes into. */
  datatype Clip = NoClip | Ring(samples: seq<real>)

  predicate InUnit(x: real) { 0.0 <= x <= 1.0 }

  predicate HistoryInUnit(h: History)
  {
    InUnit(h.rms) && InUnit(h.peak) && InUnit(h.low) && InUnit(h.mid) && InUnit(h.high)
  }

  predicate FeaturesInUnit(f: AudioMotionFeatures)
  {
    InUnit(f.normalizedRms) && InUnit(f.normalizedPeak)
    && InUnit(f.lowBandEnergy) && InUnit(f.midBandEnergy) && InUnit(f.highBandEnergy)
  }

  /** Real samples as complex values with zero imaginary part. */
  /** Every entry of a float buffer is zero, as the runtime leaves a new array. */
  predicate Zeroed(a: array<real>)
    reads a
  {
    forall i :: 0 <= i < a.Length ==> a[i] == 0.0
  }

  /** Every entry of a complex buffer is the zero struct. */
  predicate ZeroedComplex(a: array<Complex>)
    reads a
  {
    forall i :: 0 <= i < a.Length ==> a[i] == Complex(0.0, 0.0)
  }

  function Embed(x: seq<real>): (r: seq<Complex>)
    ensures |r| == |x|
  {
    seq(|x|, i requires 0 <= i < |x| => Complex(x[i], 0.0))
  }

  /** The power of one FFT bin, re^2 + im^2. */
  function Power(c: Complex): (r: real)
    ensures r >= 0.0
  {
    SquareNonNegative(c.re);
    SquareNonNegative(c.im);
    Square(c.re) + Square(c.im)
  }

  /** The magnitude spectrum: the power of each of the first count bins, divided by n / 2. */
  function Magnitudes(t: seq<Complex>, count: nat, n: nat): (r: seq<real>)
    requires count <= |t| && n >= 1
    ensures |r| == count
    ensures forall i :: 0 <= i < count ==> r[i] >= 0.0
  {
    seq(count, i requires 0 <= i < count => Ratio(Power(t[i]), n as real / 2.0))
  }

  /** The accumulator a channel names. */
  function Get(h: History, ch: Channel): real
  {
    match ch
    case RmsChannel => h.rms
    case PeakChannel => h.peak
    case LowChannel => h.low
    case MidChannel => h.mid
    case HighChannel => h.high
  }

  /** The accumulators with the one a channel names replaced by v. */
  function Put(h: History, ch: Channel, v: real): History
  {
    match ch
    case RmsChannel => h.(rms := v)
    case PeakChannel => h.(peak := v)
    case LowChannel => h.(low := v)
    case MidChannel => h.(mid := v)
    case HighChannel => h.(high := v)
  }

  /** Storing into one accumulator changes that one and leaves the other four as they were. */
  lemma PutGet(h: History, ch: Channel, v: real, other: Channel)
    ensures Get(Put(h, ch, v), ch) == v
    ensures other != ch ==> Get(Put(h, ch, v), other) == Get(h, other)
  {
  }

  /** The root mean square of a non-empty window, with the engine's square root. */
  function Rms(window: seq<real>, sqrt: real -> real): real
    requires |window| > 0
  {
    sqrt(MeanSquare(window))
  }

  /** The spectrum of one frame of 2^k samples: the magnitudes of the first half of its forward transform. */
  function FrameSpectrum(x: seq<real>, twiddle: (int, bool) -> Complex, k: nat): (r: seq<real>)
    requires |x| == Pow2(k)
    ensures |r| == |x| / 2
    ensures forall i :: 0 <= i < |r| ==> r[i] >= 0.0
  {
    Magnitudes(Transform(Embed(x), false, twiddle, k), |x| / 2, |x|)
  }

  /** The accumulators after the loudness step on a non-empty window. */
  function LoudnessUpdate(h: History, window: seq<real>, smoothing: real, sqrt: real -> real, log10: real -> real): History
    requires |window| > 0
  {
    h.(rms := LowPass(NormalizeLoudness(Rms(window, sqrt), log10), h.rms, smoothing),
       peak := LowPass(NormalizeLoudness(MaxAbs(window), log10), h.peak, smoothing))
  }

  /** The accumulators after the band step: an empty spectrum leaves them as they are. */
  function BandUpdate(h: History, spectrum: seq<real>, freqPerBin: real, silenceThreshold: real, smoothing: real): History
    requires freqPerBin > 0.0 && silenceThreshold > 0.0
  {
    if |spectrum| == 0 then h
    else
      var t := FrameTargets(spectrum, freqPerBin, silenceThreshold);
      h.(low := LowPass(t.low, h.low, smoothing),
         mid := LowPass(t.mid, h.mid, smoothing),
         high := LowPass(t.high, h.high, smoothing))
  }

  /** The loudness step keeps every accumulator in [0, 1]. */
  lemma LoudnessUpdateInUnit(h: History, window: seq<real>, smoothing: real, sqrt: real -> real, log10: real -> real)
    requires |window| > 0 && HistoryInUnit(h)
    ensures HistoryInUnit(LoudnessUpdate(h, window, smoothing, sqrt, log10))
  {
    LowPassUnit(NormalizeLoudness(Rms(window, sqrt), log10), h.rms, smoothing);
    LowPassUnit(NormalizeLoudness(MaxAbs(window), log10), h.peak, smoothing);
  }

  /**
   * The band step keeps every accumulator in [0, 1]; in a silent frame
   * each band accumulator moves toward 0 and never grows.
   */
  lemma BandUpdateInUnit(h: History, spectrum: seq<real>, freqPerBin: real, silenceThreshold: real, smoothing: real)
    requires freqPerBin > 0.0 && silenceThreshold > 0.0 && HistoryInUnit(h)
    requires forall i :: 0 <= i < |spectrum| ==> spectrum[i] >= 0.0
    ensures HistoryInUnit(BandUpdate(h, spectrum, freqPerBin, silenceThreshold, smoothing))
    ensures var r := BandUpdate(h, spectrum, freqPerBin, silenceThreshold, smoothing);
      Sum(spectrum) < silenceThreshold ==> r.low <= h.low && r.mid <= h.mid && r.high <= h.high
  {
    if |spectrum| > 0 {
      var t := FrameTargets(spectrum, freqPerBin, silenceThreshold);
      FrameTargetsShares(spectrum, freqPerBin, silenceThreshold);
      LowPassBetween(t.low, h.low, smoothing);
      LowPassBetween(t.mid, h.mid, smoothing);
      LowPassBetween(t.high, h.high, smoothing);
    }
  }

  /** The snapshot with its loudness features taken from the accumulators. */
  function WithLoudness(f: AudioMotionFeatures, h: History): AudioMotionFeatures
  {
    f.(normalizedRms := h.rms, normalizedPeak := h.peak)
  }

  /** The snapshot with its band features taken from the accumulators. */
  function WithBands(f: AudioMotionFeatures, h: History): AudioMotionFeatures
  {
    f.(lowBandEnergy := h.low, midBandEnergy := h.mid, highBandEnergy := h.high)
  }

  /** The number of samples in an RMS window of rmsWindow seconds, rounded by the engine. */
  function RmsSampleCount(rmsWindow: real, sampleRate: int, roundToInt: real -> int): int
  {
    roundToInt(rmsWindow * sampleRate as real)
  }

  class MicAudioAnalyzer {
    // configuration
    var sampleRate: int
    var fftSize: int
    var rmsWindow: real
    var silenceThreshold: real
    var filterSmoothing: real

    // buffers, null until InitializeBuffers has run
    var timeData: array?<real>
    var fftTimeData: array?<real>
    var complexBuffer: array?<Complex>
    var spectrumData: array?<real>
    var freqPerBin: real
    /** fftSize == 2^log2Size once the buffers exist. */
    ghost var log2Size: nat

    var currentFeatures: AudioMotionFeatures

    // smoothing accumulators; 0 means "no history yet"
    var lastNormalizedRms: real
    var lastNormalizedPeak: real
    var lastLowBandEnergy: real
    var lastMidBandEnergy: real
    var lastHighBandEnergy: real

    predicate Initialized()
      reads this`timeData, this`fftTimeData, this`complexBuffer, this`spectrumData
    {
      timeData != null && fftTimeData != null && complexBuffer != null && spectrumData != null
    }

    function Accumulators(): History
      reads this`lastNormalizedRms, this`lastNormalizedPeak
      reads this`lastLowBandEnergy, this`lastMidBandEnergy, this`lastHighBandEnergy
    {
      History(lastNormalizedRms, lastNormalizedPeak, lastLowBandEnergy, lastMidBandEnergy, lastHighBandEnergy)
    }

    /** The settings the pipeline divides by or compares against are usable. */
    predicate ConfigOk()
      reads this`sampleRate, this`fftSize, this`silenceThreshold
    {
      sampleRate >= 1 && fftSize >= 1 && silenceThreshold > 0.0
    }

    /** The published features and the accumulators all lie in [0, 1]. */
    predicate Bounded()
      reads this`currentFeatures, this`lastNormalizedRms, this`lastNormalizedPeak
      reads this`lastLowBandEnergy, this`lastMidBandEnergy, this`lastHighBandEnergy
    {
      FeaturesInUnit(currentFeatures) && HistoryInUnit(Accumulators())
    }

    /**
     * The buffers are either all absent or all present, sized from a
     * power-of-two fftSize, pairwise distinct, with a non-negative spectrum.
     */
    ghost predicate BuffersOk()
      reads this`timeData, this`fftTimeData, this`complexBuffer, this`spectrumData
      reads this`fftSize, this`log2Size, this`freqPerBin, spectrumData
    {
      && ((timeData == null && fftTimeData == null && complexBuffer == null && spectrumData == null)
          || Initialized())
      && (Initialized() ==>
            && fftSize == Pow2(log2Size)
            && fftTimeData.Length == fftSize && complexBuffer.Length == fftSize
            && spectrumData.Length == fftSize / 2
            && freqPerBin > 0.0
            && timeData != fftTimeData && timeData != spectrumData && fftTimeData != spectrumData
            && forall i :: 0 <= i < spectrumData.Length ==> spectrumData[i] >= 0.0)
    }

    ghost predicate Valid()
      reads this, spectrumData
    {
      ConfigOk() && Bounded() && BuffersOk()
    }

    /** The component as the inspector creates it: default settings, no buffers, no history. */
    constructor()
      ensures Valid() && !Initialized()
      ensures sampleRate == 44100 && fftSize == 256 && rmsWindow == 0.1
      ensures silenceThreshold == 0.001 && filterSmoothing == 0.3
      ensures Accumulators() == History(0.0, 0.0, 0.0, 0.0, 0.0)
      ensures currentFeatures == AudioMotionFeatures(0.0, 0.0, 0.0, 0.0, 0.0)
    {
      sampleRate := 44100;
      fftSize := 256;
      rmsWindow := 0.1;
      silenceThreshold := 0.001;
      filterSmoothing := 0.3;
      timeData := null;
      fftTimeData := null;
      complexBuffer := null;
      spectrumData := null;
      freqPerBin := 0.0;
      log2Size := 0;
      currentFeatures := AudioMotionFeatures(0.0, 0.0, 0.0, 0.0, 0.0);
      lastNormalizedRms := 0.0;
      lastNormalizedPeak := 0.0;
      lastLowBandEnergy := 0.0;
      lastMidBandEnergy := 0.0;
      lastHighBandEnergy := 0.0;
    }

    /**
     * Allocates the buffers: an RMS window of rmsWindow seconds, and FFT,
     * complex and spectrum buffers for fftSize rounded up to a power of two;
     * then clears the smoothing history. A negative RMS sample count makes
     * the first allocation fail before anything is assigned (ok is false).
     * roundToInt is the engine's rounding.
     */
    method InitializeBuffers(roundToInt: real -> int) returns (ok: bool)
      requires Valid()
      modifies this`timeData, this`fftTimeData, this`complexBuffer, this`spectrumData
      modifies this`fftSize, this`log2Size, this`freqPerBin
      modifies this`lastNormalizedRms, this`lastNormalizedPeak
      modifies this`lastLowBandEnergy, this`lastMidBandEnergy, this`lastHighBandEnergy
      ensures Valid()
      ensures ok <==> RmsSampleCount(rmsWindow, sampleRate, roundToInt) >= 0
      ensures !ok ==> unchanged(this)
      ensures ok ==> Initialized() && fresh(timeData) && fresh(fftTimeData) && fresh(complexBuffer) && fresh(spectrumData)
      ensures ok ==> timeData.Length == RmsSampleCount(rmsWindow, sampleRate, roundToInt)
      ensures ok ==> fftSize == NextPowerOfTwo(old(fftSize))
      ensures ok ==> fftTimeData.Length == fftSize && complexBuffer.Length == fftSize && spectrumData.Length == fftSize / 2
      ensures ok ==> freqPerBin == Ratio(sampleRate as real, fftSize as real)
      ensures ok ==> Accumulators() == History(0.0, 0.0, 0.0, 0.0, 0.0)
      ensures ok ==> Zeroed(timeData) && Zeroed(fftTimeData) && ZeroedComplex(complexBuffer) && Zeroed(spectrumData)
    {
      var rmsSampleCount := RmsSampleCount(rmsWindow, sampleRate, roundToInt);
      if rmsSampleCount < 0 {
        return false;
      }
      AllocateBuffers(rmsSampleCount);
      ResetHistory();
      ok := true;
    }

    /** The allocation part of InitializeBuffers. */
    method AllocateBuffers(rmsSampleCount: nat)
      requires ConfigOk()
      modifies this`timeData, this`fftTimeData, this`complexBuffer, this`spectrumData
      modifies this`fftSize, this`log2Size, this`freqPerBin
      ensures ConfigOk() && BuffersOk() && Initialized()
      ensures fresh(timeData) && fresh(fftTimeData) && fresh(complexBuffer) && fresh(spectrumData)
      ensures timeData.Length == rmsSampleCount
      ensures fftSize == NextPowerOfTwo(old(fftSize))
      ensures freqPerBin == Ratio(sampleRate as real, fftSize as real)
      ensures Zeroed(timeData) && Zeroed(fftTimeData) && ZeroedComplex(complexBuffer) && Zeroed(spectrumData)
    {
      var k := Log2Ceil(fftSize);
      var size := NextPowerOfTwo(fftSize);
      var t := new real[rmsSampleCount](_ => 0.0);
      var f := new real[size](_ => 0.0);
      var c := new Complex[size](_ => Complex(0.0, 0.0));
      var sp := new real[size / 2](_ => 0.0);
      RatioPositive(sampleRate as real, size as real);
      timeData, fftTimeData, complexBuffer, spectrumData := t, f, c, sp;
      fftSize, log2Size, freqPerBin := size, k, Ratio(sampleRate as real, size as real);
    }

    /** Clears the five smoothing accumulators. */
    method ResetHistory()
      modifies this`lastNormalizedRms, this`lastNormalizedPeak
      modifies this`lastLowBandEnergy, this`lastMidBandEnergy, this`lastHighBandEnergy
      ensures Accumulators() == History(0.0, 0.0, 0.0, 0.0, 0.0)
    {
      lastNormalizedRms := 0.0;
      lastNormalizedPeak := 0.0;
      lastLowBandEnergy := 0.0;
      lastMidBandEnergy := 0.0;
      lastHighBandEnergy := 0.0;
    }

    /** Stores v in the accumulator ch names (the target of the filter's ref parameter). */
    method Store(ch: Channel, v: real)
      modifies this`lastNormalizedRms, this`lastNormalizedPeak
      modifies this`lastLowBandEnergy, this`lastMidBandEnergy, this`lastHighBandEnergy
      ensures Accumulators() == Put(old(Accumulators()), ch, v)
    {
      match ch
      case RmsChannel => lastNormalizedRms := v;
      case PeakChannel => lastNormalizedPeak := v;
      case LowChannel => lastLowBandEnergy := v;
      case MidChannel => lastMidBandEnergy := v;
      case HighChannel => lastHighBandEnergy := v;
    }

    /**
     * One step of the smoothing filter on the accumulator ch names: an
     * accumulator of 0 takes the input as is, otherwise it moves toward
     * the input by filterSmoothing. The new value is stored and returned.
     */
    method ApplyLowPassFilter(currentValue: real, ch: Channel) returns (filtered: real)
      modifies this`lastNormalizedRms, this`lastNormalizedPeak
      modifies this`lastLowBandEnergy, this`lastMidBandEnergy, this`lastHighBandEnergy
      ensures filtered == LowPass(currentValue, Get(old(Accumulators()), ch), filterSmoothing)
      ensures Accumulators() == Put(old(Accumulators()), ch, filtered)
    {
      var lastValue := Get(Accumulators(), ch);
      if lastValue == 0.0 {
        Store(ch, currentValue);
        return currentValue;
      }
      filtered := Lerp(lastValue, currentValue, filterSmoothing);
      Store(ch, filtered);
    }

    /** The root mean square of a non-empty window: the sum of squares is accumulated front to back. */
    static method CalculateRMS(data: array<real>, sqrt: real -> real) returns (rms: real)
      requires data.Length > 0
      ensures rms == Rms(data[..], sqrt)
    {
      var sum := 0.0;
      for i := 0 to data.Length
        invariant sum == SumSq(data[..i])
      {
        assert data[..i + 1][..i] == data[..i];
        sum := sum + Square(data[i]);
      }
      assert data[..data.Length] == data[..];
      rms := sqrt(sum / data.Length as real);
    }

    /** The largest magnitude in the window, starting from 0. */
    static method CalculatePeak(data: array<real>) returns (peak: real)
      ensures peak == MaxAbs(data[..])
    {
      peak := 0.0;
      for i := 0 to data.Length
        invariant peak == MaxAbs(data[..i])
      {
        assert data[..i + 1][..i] == data[..i];
        peak := MaxReal(peak, Abs(data[i]));
      }
      assert data[..data.Length] == data[..];
    }

    /** The sum of spectrum over [start, min(end, length)). */
    static method SumSpectrum(spectrum: array<real>, start: nat, end: int) returns (sum: real)
      ensures sum == RangeSum(spectrum[..], start, end)
    {
      ghost var s := spectrum[..];
      sum := 0.0;
      var e := Min(end, spectrum.Length);
      var i := start;
      while i < e
        invariant start <= i && (if start < e then i <= e else i == start)
        invariant sum == RangeSum(s, start, i)
      {
        assert s[start..i + 1][..i - start] == s[start..i];
        assert RangeSum(s, start, i + 1) == Sum(s[start..i + 1]) == RangeSum(s, start, i) + s[i];
        sum := sum + spectrum[i];
        i := i + 1;
      }
      if start < e {
        assert RangeSum(s, start, i) == Sum(s[start..e]) == RangeSum(s, start, end);
      }
    }

    /** The clip read: dest receives the ring's samples from offset on, wrapping past the end. */
    static method GetData(ring: seq<real>, dest: array<real>, offset: int)
      requires |ring| > 0
      modifies dest
      ensures dest[..] == RingWindow(ring, offset, dest.Length)
    {
      forall i | 0 <= i < dest.Length {
        dest[i] := ring[(offset + i) % |ring|];
      }
    }

    /**
     * Refreshes the buffers from the recording: with no clip or a negative
     * write position nothing changes; otherwise both windows end at the
     * write position and the spectrum is recomputed.
     */
    method UpdateAudioData(clip: Clip, micPos: int, twiddle: (int, bool) -> Complex)
      requires Valid()
      requires clip.Ring? && micPos >= 0 ==> Initialized() && micPos < |clip.samples|
      requires clip.Ring? && micPos >= 0 ==> timeData.Length <= |clip.samples| && fftSize <= |clip.samples|
      modifies timeData, fftTimeData, complexBuffer, spectrumData
      ensures Valid()
      ensures Initialized() && (clip == NoClip || micPos < 0) ==> unchanged(timeData, fftTimeData, complexBuffer, spectrumData)
      ensures clip.Ring? && micPos >= 0 ==>
        timeData[..] == RingWindow(clip.samples, WindowStart(micPos, timeData.Length, |clip.samples|), timeData.Length)
      ensures clip.Ring? && micPos >= 0 ==>
        fftTimeData[..] == RingWindow(clip.samples, WindowStart(micPos, fftSize, |clip.samples|), fftSize)
      ensures clip.Ring? && micPos >= 0 ==>
        complexBuffer[..] == Transform(Embed(fftTimeData[..]), false, twiddle, log2Size)
      ensures clip.Ring? && micPos >= 0 ==> spectrumData[..] == FrameSpectrum(fftTimeData[..], twiddle, log2Size)
    {
      if clip == NoClip {
        return;
      }
      if micPos < 0 {
        return;
      }
      var samples := |clip.samples|;
      var rmsStart := WindowStart(micPos, timeData.Length, samples);
      GetData(clip.samples, timeData, rmsStart);
      var fftStart := WindowStart(micPos, fftSize, samples);
      GetData(clip.samples, fftTimeData, fftStart);
      RunFFT(twiddle);
    }

    /**
     * The spectrum of the FFT window: the window as complex values, the
     * forward transform in the complex buffer, and the magnitudes of its
     * first half in the spectrum buffer.
     */
    method RunFFT(twiddle: (int, bool) -> Complex)
      requires Valid() && Initialized()
      modifies complexBuffer, spectrumData
      ensures Valid()
      ensures complexBuffer[..] == Transform(Embed(fftTimeData[..]), false, twiddle, log2Size)
      ensures spectrumData[..] == FrameSpectrum(fftTimeData[..], twiddle, log2Size)
    {
      EmbedInto(fftTimeData, complexBuffer);
      Compute(complexBuffer, false, twiddle, log2Size);
      MagnitudesInto(complexBuffer, spectrumData, fftSize);
    }

    /** The first loop of RunFFT: each sample becomes a complex value with zero imaginary part. */
    static method EmbedInto(src: array<real>, dst: array<Complex>)
      requires src.Length == dst.Length
      modifies dst
      ensures dst[..] == Embed(src[..])
    {
      for i := 0 to dst.Length
        invariant dst[..i] == Embed(src[..])[..i]
      {
        dst[i] := Complex(src[i], 0.0);
      }
      assert dst[..] == dst[..dst.Length];
    }

    /** The last loop of RunFFT: entry i of the spectrum is the power of bin i divided by n / 2. */
    static method MagnitudesInto(bins: array<Complex>, spectrum: array<real>, n: int)
      requires spectrum.Length <= bins.Length && n >= 1
      modifies spectrum
      ensures spectrum[..] == Magnitudes(bins[..], spectrum.Length, n)
    {
      for i := 0 to spectrum.Length
        invariant spectrum[..i] == Magnitudes(bins[..], spectrum.Length, n)[..i]
      {
        spectrum[i] := Ratio(Power(bins[i]), n as real / 2.0);
      }
      assert spectrum[..] == spectrum[..spectrum.Length];
    }

    /**
     * The per-frame features: with no RMS window nothing changes;
     * otherwise the loudness step updates the RMS and peak accumulators and
     * features, and then the band step updates the band ones.
     */
    method ComputeFeatures(sqrt: real -> real, log10: real -> real)
      requires Valid()
      modifies this`currentFeatures, this`lastNormalizedRms, this`lastNormalizedPeak
      modifies this`lastLowBandEnergy, this`lastMidBandEnergy, this`lastHighBandEnergy
      ensures Valid()
      ensures timeData == null || timeData.Length == 0 ==>
        Accumulators() == old(Accumulators()) && currentFeatures == old(currentFeatures)
      ensures timeData != null && timeData.Length > 0 ==>
        var h := LoudnessUpdate(old(Accumulators()), timeData[..], filterSmoothing, sqrt, log10);
        Accumulators() == BandUpdate(h, spectrumData[..], freqPerBin, silenceThreshold, filterSmoothing)
        && currentFeatures == if spectrumData.Length > 0 then WithBands(WithLoudness(old(currentFeatures), h), Accumulators())
                              else WithLoudness(old(currentFeatures), h)
    {
      if timeData == null || timeData.Length == 0 {
        return;
      }
      LoudnessStep(sqrt, log10);
      CalculateSpectrumEnergy();
    }

    /** The loudness half of ComputeFeatures: RMS and peak of the window, mapped to [0, 1] and filtered. */
    method LoudnessStep(sqrt: real -> real, log10: real -> real)
      requires Valid() && timeData != null && timeData.Length > 0
      modifies this`currentFeatures, this`lastNormalizedRms, this`lastNormalizedPeak
      modifies this`lastLowBandEnergy, this`lastMidBandEnergy, this`lastHighBandEnergy
      ensures Valid()
      ensures Accumulators() == LoudnessUpdate(old(Accumulators()), timeData[..], filterSmoothing, sqrt, log10)
      ensures currentFeatures == WithLoudness(old(currentFeatures), Accumulators())
    {
      var rms := CalculateRMS(timeData, sqrt);
      var peak := CalculatePeak(timeData);
      var rawRms := NormalizeLoudness(rms, log10);
      var rawPeak := NormalizeLoudness(peak, log10);
      LoudnessUpdateInUnit(Accumulators(), timeData[..], filterSmoothing, sqrt, log10);
      FilterLoudness(rawRms, rawPeak);
    }

    /** The two loudness filter steps of ComputeFeatures, each published in the snapshot. */
    method FilterLoudness(rawRms: real, rawPeak: real)
      modifies this`currentFeatures, this`lastNormalizedRms, this`lastNormalizedPeak
      modifies this`lastLowBandEnergy, this`lastMidBandEnergy, this`lastHighBandEnergy
      ensures Accumulators() == old(Accumulators()).(
        rms := LowPass(rawRms, old(lastNormalizedRms), filterSmoothing),
        peak := LowPass(rawPeak, old(lastNormalizedPeak), filterSmoothing))
      ensures currentFeatures == WithLoudness(old(currentFeatures), Accumulators())
    {
      var smoothRms := ApplyLowPassFilter(rawRms, RmsChannel);
      currentFeatures := currentFeatures.(normalizedRms := smoothRms);
      var smoothPeak := ApplyLowPassFilter(rawPeak, PeakChannel);
      currentFeatures := currentFeatures.(normalizedPeak := smoothPeak);
    }

    /**
     * The band step: with no spectrum nothing changes; a frame whose total
     * energy is below the silence threshold filters each band toward 0,
     * any other frame filters each band toward its share of the total.
     */
    method CalculateSpectrumEnergy()
      requires Valid()
      modifies this`currentFeatures, this`lastNormalizedRms, this`lastNormalizedPeak
      modifies this`lastLowBandEnergy, this`lastMidBandEnergy, this`lastHighBandEnergy
      ensures Valid()
      ensures spectrumData == null || spectrumData.Length == 0 ==>
        Accumulators() == old(Accumulators()) && currentFeatures == old(currentFeatures)
      ensures spectrumData != null && spectrumData.Length > 0 ==>
        Accumulators() == BandUpdate(old(Accumulators()), spectrumData[..], freqPerBin, silenceThreshold, filterSmoothing)
        && currentFeatures == WithBands(old(currentFeatures), Accumulators())
    {
      if spectrumData == null || spectrumData.Length == 0 {
        return;
      }
      var targets := SpectrumTargets(spectrumData, freqPerBin, silenceThreshold);
      BandUpdateInUnit(Accumulators(), spectrumData[..], freqPerBin, silenceThreshold, filterSmoothing);
      FilterBands(targets.low, targets.mid, targets.high);
    }

    /**
     * The band targets of CalculateSpectrumEnergy: the low band ends at
     * 300 Hz, the mid band at 4000 Hz; below the silence threshold every
     * target is 0, otherwise each is its band's share of the total.
     */
    static method SpectrumTargets(spectrum: array<real>, freqPerBin: real, silenceThreshold: real) returns (targets: Bands)
      requires freqPerBin > 0.0 && silenceThreshold > 0.0
      ensures targets == FrameTargets(spectrum[..], freqPerBin, silenceThreshold)
    {
      var lowBin := LowBin(freqPerBin);
      var midBin := MidBin(freqPerBin);
      var highBin := spectrum.Length;
      var lowEnergy := SumSpectrum(spectrum, 0, lowBin);
      var midEnergy := SumSpectrum(spectrum, lowBin, midBin);
      var highEnergy := SumSpectrum(spectrum, midBin, highBin);
      var totalEnergy := lowEnergy + midEnergy + highEnergy;
      if totalEnergy < silenceThreshold {
        return Bands(0.0, 0.0, 0.0);
      }
      var rawLow := Ratio(lowEnergy, totalEnergy);
      var rawMid := Ratio(midEnergy, totalEnergy);
      var rawHigh := Ratio(highEnergy, totalEnergy);
      targets := Bands(rawLow, rawMid, rawHigh);
    }

    /** The three band filter steps of CalculateSpectrumEnergy, each published in the snapshot. */
    method FilterBands(rawLow: real, rawMid: real, rawHigh: real)
      modifies this`currentFeatures, this`lastNormalizedRms, this`lastNormalizedPeak
      modifies this`lastLowBandEnergy, this`lastMidBandEnergy, this`lastHighBandEnergy
      ensures Accumulators() == old(Accumulators()).(
        low := LowPass(rawLow, old(lastLowBandEnergy), filterSmoothing),
        mid := LowPass(rawMid, old(lastMidBandEnergy), filterSmoothing),
        high := LowPass(rawHigh, old(lastHighBandEnergy), filterSmoothing))
      ensures currentFeatures == WithBands(old(currentFeatures), Accumulators())
    {
      var low := ApplyLowPassFilter(rawLow, LowChannel);
      var mid := ApplyLowPassFilter(rawMid, MidChannel);
      var high := ApplyLowPassFilter(rawHigh, HighChannel);
      currentFeatures := currentFeatures.(lowBandEnergy := low, midBandEnergy := mid, highBandEnergy := high);
    }
  }
}
