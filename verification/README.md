# Unity_MicAudioAnalyzer in Dafny

A verified model of the analysis core of the Unity microphone analyzer. Each
frame the component takes a window of recent samples from the recording ring.
It runs an in-place radix-2 FFT over part of that window and publishes five
features in `[0, 1]`:

- RMS loudness and peak loudness, mapped from the decibel range `[-40, 0]`;
- low, mid and high band energy, each the band's share of the spectrum's energy below 300 Hz, from 300 Hz to 4 kHz, and above.

A one-pole low-pass filter smooths every feature. A stored value of exactly 0
means "no history yet".

The project has four modules:

- `bits.dfy` (`Bits`): powers of two, `NextPowerOfTwo`, the block
  arithmetic of the butterfly stages, and the bit-reversal map `Rev` with its
  involution proof.
- `fft.dfy` (`FFTUtils`): the `Complex` value type and its operators, and
  `FFT.Compute` as imperative methods on an `array<Complex>`.
  - The phases are the bit-reversal loop with its running reversed counter,
    the butterfly loops, and the inverse scaling.
  - Each method is proved against a function on sequences (`BitReversed`,
    `StageFrom`, `StagesFrom`, `Normalized`, `Transform`).
  - The butterfly phase is proved for an arbitrary complex product and used
    with `Mul`.
  - The per-stage twiddle `wlen = (cos ang, sin ang)` is the value of a
    parameter `twiddle(length, invert)`.
- `features.dfy` (`Features`): the pure arithmetic of the pipeline, with
  samples as reals. It covers:
  - sums and sums of squares;
  - the peak;
  - clamped range sums and the band partition;
  - the decibel mapping;
  - the silence-or-share band targets;
  - `Lerp`, and the filter step `LowPass`;
  - the ring-buffer window start.
- `analyzer.dfy` (`MicAudio`): the component as a class.
  - It holds the configuration, the buffers (`null` until
    `InitializeBuffers` runs), the five `last*` accumulators and the
    `currentFeatures` snapshot.
    New arrays are zero-filled, as the runtime leaves them.
  - Each method of the component is a method proved against the functions
    above.
  - `Valid()` is kept by every method that requires it. It says the buffers are sized from a
    power-of-two `fftSize`, the spectrum is non-negative, and the features
    and accumulators lie in `[0, 1]`.

The engine's numeric library is passed in as parameters: `Mathf.Sqrt`,
`Mathf.Log10` and `Mathf.RoundToInt` (`sqrt`, `log10`, `roundToInt`).
`Mathf.Epsilon` is taken as the exact real `2^-149`, the smallest denormal
float (.NET's `float.Epsilon`). Where the engine flushes denormals to zero,
Unity's `Mathf.Epsilon` is instead the smallest normal float, about
`1.18e-38`. Nothing proved here depends on more than `Epsilon > 0`. `Mathf.Lerp`, `InverseLerp`,
`Clamp01`, `Max`, `Abs`, `Min` and `FloorToInt` are written out.

Two engine calls are modelled as values:

- `Microphone.GetPosition` is the `micPos` argument.
- The recording clip is the `Clip` value: absent, or a ring of samples.
  `AudioClip.GetData` is modelled by its wrap-around read (`GetData`).

C#'s `%` truncates toward zero. It is modelled by `TruncRem`.

A negative RMS sample count makes `new float[...]` throw before any field is
assigned. `InitializeBuffers` models this as `ok == false` with nothing
changed.

## Model

| member | source | states |
|---|---|---|
| FFTUtils.AddSubInverse | Script/MicAudioAnalyzer/FFT/FFTUtils.cs:15-16 | complex `+` and `-` are componentwise and subtracting `v` undoes adding `v` (and back) |
| FFTUtils.MulOne | Script/MicAudioAnalyzer/FFT/FFTUtils.cs:17-20 | the product `(ac - bd, ad + bc)` has `(1, 0)` as unit on both sides, so the first butterfly of a block (`w = (1, 0)`, line 53) uses the odd element untwisted |
| FFTUtils.ButterflySumDiff | Script/MicAudioAnalyzer/FFT/FFTUtils.cs:56-59 | a butterfly's outputs `(u + v, u - v)` sum to `2u` and differ by `2v` |
| FFTUtils.Swap | Script/MicAudioAnalyzer/FFT/FFTUtils.cs:74-79 | exactly positions `i` and `j` exchange values; every other position is unchanged; the contents are a permutation |
| FFTUtils.AdvanceReversed | Script/MicAudioAnalyzer/FFT/FFTUtils.cs:38-41 | when `j` is the k-bit reverse of `i - 1` and `i < n`, the bit-clearing loop terminates (its invariant keeps `bit` a positive power of two) and the final `j += bit` leaves `j` equal to the reverse of `i` |
| Bits.RevInvolution | Script/MicAudioAnalyzer/FFT/FFTUtils.cs:36-44 | bit reversal over `k` bits is its own inverse on `[0, 2^k)`, so the pairs `(i, rev(i))` partition the indices |
| Bits.RevBits | Script/MicAudioAnalyzer/FFT/FFTUtils.cs:36-44 | the arithmetic reverse `Rev` equals reading the k binary digits backwards |
| FFTUtils.BitReversedMoves | Script/MicAudioAnalyzer/FFT/FFTUtils.cs:36-44 | after the reordering the element from index `p` sits at `rev(p)`, and reordering twice restores the buffer |
| FFTUtils.SwapsReverse | Script/MicAudioAnalyzer/FFT/FFTUtils.cs:36-44 | swapping `i` with `rev(i)` only when `i < rev(i)`, for `i = 1 .. n-1`, yields exactly the bit-reversed reordering |
| FFTUtils.BitReversePermute | Script/MicAudioAnalyzer/FFT/FFTUtils.cs:36-44 | the bit-reversal loop leaves `data[p] == old(data)[rev(p)]` for every `p`, and the contents are a permutation of the old contents |
| FFTUtils.ButterflyPair | Script/MicAudioAnalyzer/FFT/FFTUtils.cs:56-59 | one butterfly writes `u + v` at the lower index and `u - v` at the upper one, with `v = x * w`, and nothing else |
| FFTUtils.ButterflyBlock | Script/MicAudioAnalyzer/FFT/FFTUtils.cs:53-61 | the inner loop over one block, with running twiddle `w = wlen^j`, equals the block's butterflies in loop order |
| FFTUtils.BlockIndex | Script/MicAudioAnalyzer/FFT/FFTUtils.cs:54-59 | within a block, positions `i+j` and `i+j+length/2` end with the butterfly of their original values and twiddle `wlen^j` |
| FFTUtils.BlockFrame | Script/MicAudioAnalyzer/FFT/FFTUtils.cs:51-61 | a block's butterflies leave every position outside the block unchanged |
| Bits.BlockUnique | Script/MicAudioAnalyzer/FFT/FFTUtils.cs:51 | the blocks `[i, i + length)` with `i` a multiple of `length` are disjoint |
| Bits.BlockOf | Script/MicAudioAnalyzer/FFT/FFTUtils.cs:51 | every index lies in some block |
| FFTUtils.StageSpec | Script/MicAudioAnalyzer/FFT/FFTUtils.cs:47-62 | for `n` a multiple of `length`, every position lies in a block inside `[0, n)`. After the stage, a position in the lower half holds the sum output of its pair, and one in the upper half the difference output |
| FFTUtils.StageAt | Script/MicAudioAnalyzer/FFT/FFTUtils.cs:51-62 | the stage loop sends `i+j` and `i+j+length/2` of every block to the butterfly of their old values |
| FFTUtils.ButterflyStage | Script/MicAudioAnalyzer/FFT/FFTUtils.cs:51-62 | the loop over blocks, with all indices in bounds, equals one whole stage |
| FFTUtils.ButterflyStages | Script/MicAudioAnalyzer/FFT/FFTUtils.cs:47-63 | the stages for `length = 2, 4, ..., n` run in order, each with `twiddle(length, invert)` |
| FFTUtils.Normalized | Script/MicAudioAnalyzer/FFT/FFTUtils.cs:66-70 | each scaled element times `n` gives back the original real and imaginary parts |
| FFTUtils.Normalize | Script/MicAudioAnalyzer/FFT/FFTUtils.cs:66-70 | the scaling loop divides every element's real and imaginary parts by `n` |
| FFTUtils.Compute | Script/MicAudioAnalyzer/FFT/FFTUtils.cs:31-71 | in place on a power-of-two buffer: the result is the bit-reversed input, put through all butterfly stages, divided by `n` exactly when `invert` holds; only `data` is written |
| FFTUtils.TransformSingle | Script/MicAudioAnalyzer/FFT/FFTUtils.cs:31-71 | a one-element buffer comes back unchanged in both directions |
| MicAudio.MicAudioAnalyzer.constructor | Assets/Script/MicAudioAnalyzer/MicAudioAnalyzer.cs:22-55 | the inspector defaults (44100 Hz, FFT size 256, 0.1 s window, threshold 0.001, smoothing 0.3), no buffers, all accumulators 0, and `currentFeatures` the all-zero snapshot |
| MicAudio.MicAudioAnalyzer.InitializeBuffers | Assets/Script/MicAudioAnalyzer/MicAudioAnalyzer.cs:153-174 | fails with nothing changed exactly when the rounded RMS sample count is negative; otherwise: fresh buffers; `fftSize` rounded up to a power of two; FFT and complex buffers of length `fftSize` and spectrum of `fftSize / 2`; `freqPerBin = sampleRate / fftSize`; all four buffers zero-filled; all five accumulators 0 |
| MicAudio.MicAudioAnalyzer.AllocateBuffers | Assets/Script/MicAudioAnalyzer/MicAudioAnalyzer.cs:156-166 | the RMS window has the given length, `fftSize` becomes `NextPowerOfTwo(fftSize)`, the buffer invariant holds and all four buffers are zero-filled |
| MicAudio.MicAudioAnalyzer.ResetHistory | Assets/Script/MicAudioAnalyzer/MicAudioAnalyzer.cs:169-173 | all five accumulators are 0 |
| Bits.NextPowerOfTwoLeast | Assets/Script/MicAudioAnalyzer/MicAudioAnalyzer.cs:160 | `NextPowerOfTwo(v)` is at least `v` and at most every power of two that is at least `v`; a power of two is left as is |
| Features.WindowStartInRing | Assets/Script/MicAudioAnalyzer/MicAudioAnalyzer.cs:187 | for `0 <= micPos < samples` and `len <= samples`, the read start lies in `[0, samples)` and `start + len` is `micPos` modulo `samples` |
| MicAudio.MicAudioAnalyzer.GetData | Assets/Script/MicAudioAnalyzer/MicAudioAnalyzer.cs:188 | the clip read fills the buffer with the ring's samples from the offset on, wrapping past the end |
| MicAudio.MicAudioAnalyzer.UpdateAudioData | Assets/Script/MicAudioAnalyzer/MicAudioAnalyzer.cs:178-196 | with no clip or a negative position the buffers are unchanged; otherwise both windows are read from the starts above, the complex buffer holds the forward transform of the new FFT window and the spectrum is that of this window |
| MicAudio.MicAudioAnalyzer.RunFFT | Assets/Script/MicAudioAnalyzer/MicAudioAnalyzer.cs:200-216 | the complex buffer holds the forward transform of the FFT window, and the spectrum holds the magnitudes of its first half; the invariant, including a non-negative spectrum, is kept |
| MicAudio.MicAudioAnalyzer.EmbedInto | Assets/Script/MicAudioAnalyzer/MicAudioAnalyzer.cs:203-204 | every sample becomes a complex value with imaginary part 0 |
| MicAudio.MicAudioAnalyzer.MagnitudesInto | Assets/Script/MicAudioAnalyzer/MicAudioAnalyzer.cs:210-215 | spectrum entry `i` is `(re^2 + im^2) / (n / 2)` of bin `i` |
| MicAudio.Magnitudes | Assets/Script/MicAudioAnalyzer/MicAudioAnalyzer.cs:210-215 | there is one entry per spectrum bin and each is non-negative |
| MicAudio.Power | Assets/Script/MicAudioAnalyzer/MicAudioAnalyzer.cs:212-214 | `re^2 + im^2` is non-negative |
| MicAudio.FrameSpectrum | Assets/Script/MicAudioAnalyzer/MicAudioAnalyzer.cs:200-216 | a frame of `n` samples has `n / 2` non-negative spectrum entries |
| MicAudio.MicAudioAnalyzer.ComputeFeatures | Assets/Script/MicAudioAnalyzer/MicAudioAnalyzer.cs:220-236 | an absent or empty RMS window leaves accumulators and features unchanged; otherwise the loudness step and then the band step run, and every feature shows its accumulator (band features only when the spectrum is non-empty) |
| MicAudio.MicAudioAnalyzer.LoudnessStep | Assets/Script/MicAudioAnalyzer/MicAudioAnalyzer.cs:225-232 | the RMS and peak accumulators move toward the normalized loudness of the window's RMS and peak, and the snapshot shows them |
| MicAudio.MicAudioAnalyzer.FilterLoudness | Assets/Script/MicAudioAnalyzer/MicAudioAnalyzer.cs:231-232 | exactly the RMS and peak accumulators are filtered, and the snapshot shows them |
| MicAudio.LoudnessUpdateInUnit | Assets/Script/MicAudioAnalyzer/MicAudioAnalyzer.cs:225-232 | the loudness step keeps every accumulator in `[0, 1]` |
| MicAudio.MicAudioAnalyzer.CalculateSpectrumEnergy | Assets/Script/MicAudioAnalyzer/MicAudioAnalyzer.cs:239-271 | an absent or empty spectrum changes nothing; otherwise the band accumulators move toward the frame's targets, and the snapshot shows them |
| MicAudio.MicAudioAnalyzer.SpectrumTargets | Assets/Script/MicAudioAnalyzer/MicAudioAnalyzer.cs:244-266 | the targets are 0 below the silence threshold and otherwise the three band energies divided by their total |
| MicAudio.MicAudioAnalyzer.FilterBands | Assets/Script/MicAudioAnalyzer/MicAudioAnalyzer.cs:268-270 | exactly the three band accumulators are filtered, and the snapshot shows them |
| MicAudio.BandUpdateInUnit | Assets/Script/MicAudioAnalyzer/MicAudioAnalyzer.cs:255-270 | the band step keeps every accumulator in `[0, 1]`; in a silent frame no band accumulator grows |
| Features.FrameTargetsShares | Assets/Script/MicAudioAnalyzer/MicAudioAnalyzer.cs:244-266 | for a non-negative spectrum the targets lie in `[0, 1]`; they are all 0 when the total is below the threshold, and otherwise they sum to 1 |
| Features.BandTargetsShares | Assets/Script/MicAudioAnalyzer/MicAudioAnalyzer.cs:255-266 | for non-negative energies the targets are all 0 below the threshold; otherwise they lie in `[0, 1]` and sum to 1 |
| Features.BandEnergiesCover | Assets/Script/MicAudioAnalyzer/MicAudioAnalyzer.cs:249-252 | the three band energies are non-negative and add up to the sum of the whole spectrum |
| Features.BandPartition | Assets/Script/MicAudioAnalyzer/MicAudioAnalyzer.cs:249-251 | for `lowBin <= midBin`, the three clamped range sums add up to the whole sum, even when the bins exceed the spectrum |
| Features.BinsOrdered | Assets/Script/MicAudioAnalyzer/MicAudioAnalyzer.cs:244-245 | the 300 Hz bin never comes after the 4000 Hz bin |
| Features.RatioUnit | Assets/Script/MicAudioAnalyzer/MicAudioAnalyzer.cs:264-266 | a part of a positive total, divided by it, lies in `[0, 1]` |
| Features.RatiosSum | Assets/Script/MicAudioAnalyzer/MicAudioAnalyzer.cs:264-266 | three non-negative parts divided by their positive total sum to 1 |
| MicAudio.MicAudioAnalyzer.CalculateRMS | Assets/Script/MicAudioAnalyzer/MicAudioAnalyzer.cs:276-281 | the result is the square root of the mean of the squared samples, with the sum of squares accumulated front to back |
| Features.SumSqNonNegative | Assets/Script/MicAudioAnalyzer/MicAudioAnalyzer.cs:279 | the sum of squares is non-negative |
| Features.MeanSquare | Assets/Script/MicAudioAnalyzer/MicAudioAnalyzer.cs:280 | the mean square of a non-empty window is non-negative |
| MicAudio.MicAudioAnalyzer.CalculatePeak | Assets/Script/MicAudioAnalyzer/MicAudioAnalyzer.cs:284-289 | the result is the running maximum of the magnitudes, starting from 0 |
| Features.MaxAbs | Assets/Script/MicAudioAnalyzer/MicAudioAnalyzer.cs:284-289 | the peak is at least 0 and at least every sample's magnitude, and it is 0 or some sample's magnitude |
| Features.MaxAbsSilence | Assets/Script/MicAudioAnalyzer/MicAudioAnalyzer.cs:284-289 | an all-zero window has peak 0 |
| Features.NormalizeLoudness | Assets/Script/MicAudioAnalyzer/MicAudioAnalyzer.cs:292-296 | the normalized loudness lies in `[0, 1]` |
| Features.NormalizeLoudnessMonotone | Assets/Script/MicAudioAnalyzer/MicAudioAnalyzer.cs:292-296 | with a monotone logarithm, a louder input never maps lower |
| Features.NormalizeDbShape | Assets/Script/MicAudioAnalyzer/MicAudioAnalyzer.cs:295 | 0 at or below -40 dB, 1 at or above 0 dB, linear in between |
| Features.NormalizeDbMonotone | Assets/Script/MicAudioAnalyzer/MicAudioAnalyzer.cs:295 | the dB mapping is non-decreasing |
| MicAudio.MicAudioAnalyzer.SumSpectrum | Assets/Script/MicAudioAnalyzer/MicAudioAnalyzer.cs:299-305 | the result is the sum over exactly `[start, min(end, length))`, and 0 when that range is empty |
| Features.RangeSumNonNegative | Assets/Script/MicAudioAnalyzer/MicAudioAnalyzer.cs:299-305 | a range sum of a non-negative spectrum is non-negative |
| Features.RangeSumClamped | Assets/Script/MicAudioAnalyzer/MicAudioAnalyzer.cs:302 | clamping the end to the length leaves an in-range slice sum |
| MicAudio.MicAudioAnalyzer.ApplyLowPassFilter | Assets/Script/MicAudioAnalyzer/MicAudioAnalyzer.cs:308-321 | returns the filter step of the named accumulator (the input itself when the accumulator is 0) and stores it there, leaving the other four accumulators alone |
| MicAudio.MicAudioAnalyzer.Store | Assets/Script/MicAudioAnalyzer/MicAudioAnalyzer.cs:313 | writing through the reference changes only the named accumulator |
| MicAudio.PutGet | Assets/Script/MicAudioAnalyzer/MicAudioAnalyzer.cs:308-321 | after storing into one accumulator, that one holds the new value and the other four are unchanged |
| Features.LowPassBetween | Assets/Script/MicAudioAnalyzer/MicAudioAnalyzer.cs:308-321 | an empty history (0) yields the input; otherwise the output lies between the history and the input (no overshoot) |
| Features.LowPassUnit | Assets/Script/MicAudioAnalyzer/MicAudioAnalyzer.cs:308-321 | an input and history in `[0, 1]` give an output in `[0, 1]` |
| Features.LerpBetween | Assets/Script/MicAudioAnalyzer/MicAudioAnalyzer.cs:318 | `Lerp` with a clamped factor stays between its end points |
| Features.LerpEnds | Assets/Script/MicAudioAnalyzer/MicAudioAnalyzer.cs:318 | a factor at or below 0 gives the first end point; at or above 1, the second |
| Features.Clamp01 | Assets/Script/MicAudioAnalyzer/MicAudioAnalyzer.cs:295 | the result lies in `[0, 1]` and values already in `[0, 1]` are kept |

## Left out

- The microphone lifecycle and device handling (Assets/Script/MicAudioAnalyzer/MicAudioAnalyzer.cs:59-149) are Unity `Microphone` and `AudioClip` I/O and engine callbacks. This covers `Start`, `Update`, `OnDestroy`, `RefreshMicrophoneDevices`, start, stop and switch recording, and the fields `_micClip`, `_isRecording` and `_currentMicDevice`. `Update` is where `UpdateAudioData` and `ComputeFeatures` are called each frame.
- Assets/Editor/MicAudioAnalyzer/MicAudioAnalyzerEditor.cs is not part of this model. It is inspector drawing only.
- Float arithmetic is modelled as exact reals. The model does not cover rounding, NaN, infinities, or overflow of the `int` casts in `RoundToInt` and `FloorToInt`, of `NextPowerOfTwo` beyond the `int` range, or of the stage width `length <<= 1` in `FFT.Compute` (Assets/Script/MicAudioAnalyzer/FFT/FFTUtils.cs:47). For `n = 2^30` that shift wraps negative and the source's stage loop no longer ends; the model's stages stop at `n`.
- The FFT is not shown to equal the DFT, and no forward/inverse round trip is proved. Both depend on `Mathf.Cos`/`Mathf.Sin` twiddles, which are the `twiddle` parameter here.
- `Mathf.Sqrt`, `Mathf.Log10` and `Mathf.RoundToInt` are uninterpreted parameters. Monotonicity of the logarithm is a hypothesis of `NormalizeLoudnessMonotone`.
- MicAudio.MicAudioAnalyzer.InitializeBuffers: requires `sampleRate >= 1`, `fftSize >= 1` and `silenceThreshold > 0`, through `Valid()`. Every other class method that requires `Valid()` requires them too. The source does not check them, and none of these three fields carries an inspector range (only `filterSmoothing` does, at Assets/Script/MicAudioAnalyzer/MicAudioAnalyzer.cs:36). With other values the source's divisions produce infinities or NaN.
- Changing `fftSize` at run time: the buffer invariant `BuffersOk` ties `fftSize` to the buffer lengths from `InitializeBuffers` on. In the source `fftSize` is a public inspector field. Raising it in play mode without re-initialising breaks that tie, and `RunFFT` (Assets/Script/MicAudioAnalyzer/MicAudioAnalyzer.cs:203-204) would then index past the complex buffer. The model does not let `fftSize` change outside `InitializeBuffers`.
- MicAudio.MicAudioAnalyzer.UpdateAudioData: when a clip exists and `micPos >= 0`, requires the buffers to exist (the source would throw on the missing buffer there; with no clip or a negative position it returns before touching them). On that path it also requires `micPos` to be below the clip length and each window to be no longer than the clip. A longer window would give a negative read start, and the engine's `GetData` rejects that.
- MicAudio.MicAudioAnalyzer.CalculateRMS: requires a non-empty window. In floats an empty one gives `0/0`, which is NaN; the only caller returns early on an empty window.
- MicAudio.MicAudioAnalyzer.SumSpectrum: `start` is a natural number. Every caller passes a non-negative start; a negative one would index out of bounds in the source.
- MicAudio.MicAudioAnalyzer.GetData: models the engine's clip read by its documented wrap-around effect. The engine's own implementation is not modelled.
