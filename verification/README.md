# LMMS filter bank, impulse convolver and small integer cores in Dafny

This project models four parts of LMMS, the Linux MultiMedia Studio:

- **`basicFilters<CHANNELS>`** (`include/basic_filters.h`). This is a filter object with 23 topologies:
  - the cookbook biquads;
  - the Moog and Tripole ladders;
  - the Chamberlin state-variable family;
  - the simulated RC networks;
  - the two formant filters;
  - the Hex lowpass.

  It keeps per-channel history registers and one coefficient set shared by all channels. It also owns an optional sub-filter, which the DoubleLowPass and DoubleMoog types use to run a second stage.

  The modelled operations are:
  - the constructor, `setFilterType`, `clearHistory`;
  - `update` for every topology;
  - `calcFilterCoeffs`, with its frequency and Q clamps and the vowel-table lookup.
- **`ImpulseConvolverEffect`** (`plugins/ImpulseConvolver`). This is a segmented overlap-add convolution reverb.
  - `updateImpulse` resamples the loaded impulse and chooses the transform length. It then transforms both channels of the impulse and resets every buffer, the segment counter and both ring pointers.
  - `processAudioBuffer` collects input into 256-frame segments. Each full segment is transformed and multiplied by the impulse spectrum in FFTW's halfcomplex layout. The result is transformed back and overlap-added.
  - The output side mixes the previous segment's result into the buffer. This gives one segment of latency.
  - The call reports the mean output power to the gate.
- **`DenominatorModel` and `DenominatorSpinBox`** (`include/DenominatorSpinBox.h`, `src/gui/widgets/DenominatorSpinBox.cpp`). Time-signature denominators are snapped onto 1, 2, 4, 8, 16 and 32. The spin box steps the value by doubling or halving it through dragging, the mouse wheel or a typed-value dialog.
- **`lmms_math.h`**. This covers:
  - `fast_rand`, the portable `rand` generator from section 7.20.2.2 of ISO/IEC 9899:1999;
  - `fraction` and `absFraction`, from the non-Intel build.

## How the model is built

- **Numbers.** Samples and coefficients are `real`.
  - `sinf`, `cosf`, `expf`, `powf` and `atanf` are fields of a `Numeric.Math` record of function values. The contracts therefore hold for any values these functions return.
  - `static_cast<int>` on a float becomes `Numeric.Trunc`, which truncates toward zero.
  - C's integer `/` on possibly negative values becomes `Numeric.CDiv`.
  - `unsigned long` wrap-around in `fast_rand` is written out modulo 2^32 or 2^64. The platform's width is a parameter.
- **FFTW.** The two r2r plans, R2HC forward and HC2R inverse, are the fields of an `ImpulseConvolver.Fft` record of functions on sequences.
  - Executing a length-n plan reads the first n entries of its input array and writes exactly n entries of its output array (`ImpulseConvolver.Run`).
  - Entries from n onwards keep their values.
- **Mutable state.** Every C++ object with state becomes an immutable datatype, and every method becomes a function that returns the new value:
  - `BasicFilters.Filter`;
  - `ImpulseConvolver.Convolver`, with two `ConvolverBuffers.ImpulseData`, one per channel;
  - `Denominator.DenominatorModel`;
  - `LmmsMath.RandState`.
- **Loops.** Each loop of `processAudioBuffer` is one recursive function:
  - `FeedInput` is the input loop;
  - `DrainOutput` is the output loop;
  - `ProcessChunks` is the outer loop over chunks of `SEG_SIZE` frames.

  The in-place halfcomplex multiply is also written as a loop, in the method `ConvolverBuffers.MultiplyInPlace`. It is proved equal to the pointwise definition `ConvolverBuffers.SpectralProduct`.
- **Values from outside.** Values that come from code outside the model are parameters:
  - the effect's `isEnabled`, `isRunning`, `dryLevel` and `wetLevel` (`ImpulseConvolver.Hooks`);
  - the control values: impulse buffer, sample rate, frequency knob and gain knob (`ImpulseConvolver.Controls`);
  - `powf(2, freq)`;
  - the Shift key;
  - the dialog's result.
- **Where the code is followed.** The impulse is resampled with the ratio the code computes, `2 * 44100 / sampleRate * 2^freq`. This ratio is 2 at a 44.1 kHz engine rate with the frequency knob at 0, not 1. A description of the effect as "resampling the impulse to the engine rate" would predict 1. The model follows the code, and `ConvolverProperties.RatioAssumes44100` states the consequence.

## Model

| member | source | states |
|---|---|---|
| FilterState.ZeroHistoryIsZero | include/basic_filters.h:132-165 | The registers clearHistory writes form the one history in which every register is 0. |
| FilterTopologies.SoftClip | include/basic_filters.h:199-200 | The cubic soft clip maps 0 to 0. |
| FilterTopologies.MoogTick | include/basic_filters.h:172-201 | The Moog case leaves y1..y4 in [-10, 10] and the old-value registers equal to the new stages. Its output is the soft clip of y4. Zero history with zero input is a fixed point with output 0. |
| FilterTopologies.TripoleTick | include/basic_filters.h:212-231 | One oversampled Tripole step leaves y1..y3 in [-10, 10], does not touch y4 or m_last, and outputs the soft clip of y3. |
| FilterTopologies.TripoleStep | include/basic_filters.h:206-236 | After the Tripole case, y1..y3 lie in [-10, 10] and m_last holds the input. Zero is a fixed point. |
| FilterTopologies.Envelope | include/basic_filters.h:246 | The envelope follower changes only m_sva. Zero history with zero input stays zero. |
| FilterTopologies.SvFirst | include/basic_filters.h:251-253 | The first Chamberlin section changes only delay1 and delay2. From zero history, zero input gives a zero highpass. |
| FilterTopologies.SvSecond | include/basic_filters.h:255-257 | The second section changes only delay3 and delay4, and reads delay2 without changing it. Zero is a fixed point. |
| FilterTopologies.SvBoth | include/basic_filters.h:249-258 | One oversampled pass through both sections changes only the four delays. Zero is a fixed point. |
| FilterTopologies.SvStep | include/basic_filters.h:243-302 | In the four state-variable cases, zero history with zero input stays zero and outputs 0 whenever atan(0) = 0. |
| FilterTopologies.RcTick | include/basic_filters.h:313-330 | One RC stage step leaves bandpass, highpass and last input in [-1, 1], and lowpass too when it is computed. The highpass and bandpass variants keep the stored lowpass. |
| FilterTopologies.RcIteration | include/basic_filters.h:358-400 | One oversampled RC iteration keeps each stage's registers in [-1, 1] and changes no register outside the two RC stages. |
| FilterTopologies.RcRun | include/basic_filters.h:310-441 | Any number of RC iterations keeps both stages in [-1, 1] and touches no register outside them. Zero is a fixed point. |
| FilterTopologies.RcOutput | include/basic_filters.h:310-441 | The tap an RC case returns lies in [-1, 1] whenever both stages are bounded. |
| FilterTopologies.RcStep | include/basic_filters.h:310-441 | The six RC cases keep both stages' registers in [-1, 1] and return a sample in [-1, 1]. Zero is a fixed point. |
| FilterTopologies.VfTick | include/basic_filters.h:453-464 | One formant stage leaves its bandpass, highpass and last input in [-1, 1] whatever the coefficients. |
| FilterTopologies.FormantPass | include/basic_filters.h:452-534 | One formant pass leaves all six stages in [-1, 1] and contributes a value in [-2, 2]. The second chain takes its feedback from stage 0. |
| FilterTopologies.FormantRun | include/basic_filters.h:450-535 | One or more passes leave every stage in [-1, 1]. n passes contribute at most 2n in magnitude. |
| FilterTopologies.FormantStep | include/basic_filters.h:443-536 | The formant cases keep every formant register in [-1, 1] and return a value in [-4, 4]. They change no other register. |
| FilterTopologies.HexTick | include/basic_filters.h:544-558 | One Hex_LP step yields the new second lowpass stage. Zero is a fixed point. |
| FilterTopologies.HexFeedbackBounded | include/basic_filters.h:547 | The Hex_LP resonance tap lies in [-1, 1] whatever the registers hold. |
| FilterTopologies.HexStep | include/basic_filters.h:540-560 | In the Hex_LP case, zero history with zero input stays zero and outputs 0. |
| FilterTopologies.BiquadTick | include/basic_filters.h:563-568 | The transposed biquad outputs z1 + b0 * in. Zero is a fixed point. |
| FilterTopologies.Step | include/basic_filters.h:170-569 | Exactly the Moog and biquad cases fall through to the cascade. Every case keeps six formant stages, and zero is a fixed point. |
| FilterTopologies.StepKeepsRcStages | include/basic_filters.h:170-569 | Every case other than the six RC cases leaves both RC stages of the channel unchanged. |
| BasicFilters.New | include/basic_filters.h:117-125 | The constructor gives a valid, non-cascading filter with no sub-filter. Every channel's history is zero and svsr = 1 - exp(-4646.39874051 / sampleRate). |
| BasicFilters.SetFilterType | include/basic_filters.h:94-115 | Cascade is set exactly for DoubleLowPass and DoubleMoog. These map to LowPass and Moog, with a sub-filter of the same type that never cascades. It reuses an existing sub-filter and stores any other index unchanged. Coefficients and history are untouched. |
| BasicFilters.ClearHistory | include/basic_filters.h:132-165 | Every register of every channel becomes 0. Type, cascade flag, coefficients and the sub-filter are unchanged. |
| BasicFilters.Update | include/basic_filters.h:167-578 | Only the given channel's history changes, in this filter and in the sub-filter. Type, flags and coefficients stay, and the object invariant is kept. |
| BasicFilters.UpdateBlock | include/basic_filters.h:167-578 | Running a block keeps the object invariant, the channel count and the configuration, and yields one output per input. |
| BasicFilters.CalcFilterCoeffs | include/basic_filters.h:581-756 | The new coefficients are those of FilterCoeffs.Compute. When cascading, the sub-filter receives the Moog r, p, k or the five biquad coefficients, and nothing else. |
| FilterCoeffs.EffectiveQ | include/basic_filters.h:584 | Q is floored at 0.01 and otherwise unchanged. |
| FilterCoeffs.EffectiveFreq | include/basic_filters.h:586-700 | Every branch works with a cutoff of at least 5 Hz. Every branch except the state-variable family works with one of at most 20000 Hz. |
| FilterCoeffs.EffectiveFreqWindow | include/basic_filters.h:586-700 | Cutoffs are clamped to [50, 20000] for RC, [20, 20000] for Tripole and Hex, and [5, 20000] for Moog, formant and the biquads. They are only floored at 5 for the state-variable family. Values inside the window pass unchanged. |
| FilterCoeffs.FormantLookupAsWritten | include/basic_filters.h:617-629 | When the as-written lookup stays inside the vowel table, its formants lie within the table's range: 320..1000 Hz for the first, 800..3200 Hz for the second. |
| FilterCoeffs.FormantLookupOverrun | include/basic_filters.h:609-629 | For clamped cutoffs, the as-written lookup reads past the six-entry table exactly when the cutoff is at least 17500 Hz. |
| FilterCoeffs.FormantLookupOverrunAtMaxFreq | include/basic_filters.h:609-629 | The largest cutoff the clamp admits, 20000 Hz, reads `_f[6]`. |
| FilterCoeffs.FormantLookup | include/basic_filters.h:612-629 | The corrected lookup always yields formants within the table's range. Wherever the as-written lookup stays in bounds, the two agree. |
| FilterCoeffs.OnePole | include/basic_filters.h:594-599 | The one-pole coefficients satisfy b = 1 - a and c = a, with a and b in (0, 1). |
| FilterCoeffs.Compute | include/basic_filters.h:581-746 | Per topology, through Derive, which holds the branch bodies: rcb = 1 - rca, vfb = 1 - vfa, k = 2p - 1, la = 1 - lb, ha = 1 + hb, svf1, svf2 <= 0.825, svq >= 0.0001, and the biquad numerator identities. Each branch writes only its own coefficients. |
| FilterCoeffs.Biquad | include/basic_filters.h:699-746 | LowPass b0 = b2 = b1/2. HiPass b0 = b2 = -b1/2. Both band-passes have b1 = 0 and b2 = -b0. Notch has b1 = a1 and b0 = b2. AllPass has b1 = a1, b0 = a2 and b2 = 1. An unknown type keeps the numerator. |
| FilterCoeffs.ComputeSeesOnlyClampedInputs | include/basic_filters.h:584-700 | The coefficients depend on cutoff and Q only through their clamped values. |
| FilterCoeffs.ComputeIdempotent | include/basic_filters.h:581-746 | Recomputing with the same cutoff and Q changes nothing more. |
| FilterCoeffs.NormalisedDenominator | include/basic_filters.h:705-710 | With a0 = 1/(1 + alpha), the biquad denominator is 2 a0 (1 - cos) at DC and 2 a0 (1 + cos) at Nyquist. |
| FilterCoeffs.BiquadLowPassEdges | include/basic_filters.h:714-718 | The low-pass has unity gain at DC and a zero at Nyquist. |
| FilterCoeffs.BiquadHiPassEdges | include/basic_filters.h:719-723 | The high-pass has unity gain at Nyquist and a zero at DC. |
| FilterCoeffs.BiquadNotchEdges | include/basic_filters.h:734-738 | The notch has unity gain at both DC and Nyquist. |
| FilterCoeffs.BiquadBandPassEdges | include/basic_filters.h:724-733 | Both band-passes reject DC and Nyquist. |
| FilterProperties.ZeroInZeroOut | include/basic_filters.h:167-578 | From a silent channel, with its sub-filter silent too, input 0 gives output 0 and leaves the channel silent, for every topology, given atan(0) = 0. |
| FilterProperties.ZeroBlockZeroOut | include/basic_filters.h:167-578 | A silent block through a silent filter gives a silent block and a silent filter. |
| FilterProperties.ClearedFilterIsSilent | include/basic_filters.h:132-165 | After clearHistory a channel is silent exactly when the filter does not cascade or its sub-filter's channel was already zero. |
| FilterProperties.NewFilterIsSilent | include/basic_filters.h:117-125 | A new filter is silent on every channel. |
| FilterProperties.MoogStagesBounded | include/basic_filters.h:172-201 | After any Moog update, y1..y4 lie in [-10, 10], in the filter and in its cascade stage. |
| FilterProperties.TripoleStagesBounded | include/basic_filters.h:206-236 | After any Tripole update, y1..y3 lie in [-10, 10]. |
| FilterProperties.RcRegistersBounded | include/basic_filters.h:310-441 | An RC update from bounded registers keeps every RC register in [-1, 1] and returns a sample in [-1, 1]. |
| FilterProperties.ClearedRcBounded | include/basic_filters.h:152-153 | Cleared RC registers start inside the bounds. |
| FilterProperties.RcBlockBounded | include/basic_filters.h:310-441 | Over a whole block, the RC registers and every output sample stay in [-1, 1]. |
| FilterProperties.FormantRegistersBounded | include/basic_filters.h:443-536 | After any formant update, every formant register lies in [-1, 1] and the output in [-4, 4]. |
| FilterProperties.NewRcBounded | include/basic_filters.h:117-125 | A new filter has every channel's RC registers in [-1, 1]. |
| FilterProperties.UpdateKeepsRcBounded | include/basic_filters.h:167-578 | An update of any type keeps every channel's RC registers in [-1, 1]. |
| FilterProperties.ApplyKeepsRcBounded | include/basic_filters.h:94-578 | setFilterType, calcFilterCoeffs, clearHistory and update each keep every channel's RC registers in [-1, 1]. |
| FilterProperties.ReplayKeepsRcBounded | include/basic_filters.h:94-578 | Any sequence of those calls keeps the RC registers in [-1, 1]. |
| FilterProperties.ReachableRcBounded | include/basic_filters.h:94-578 | On every filter reachable from the constructor, the RC registers lie in [-1, 1], and an RC update returns a sample in [-1, 1]. |
| ConvolverBuffers.SizesArePowersOfTwo | plugins/ImpulseConvolver/ImpulseConvolver.h:33-34 | MAX_FFT_SIZE and SEG_SIZE are powers of two, and SEG_SIZE divides MAX_FFT_SIZE 64 times. |
| ConvolverBuffers.GrowFftLength | plugins/ImpulseConvolver/ImpulseConvolver.cpp:82-88 | The doubling loop ends at a power of two that is at least its start and its target. Unless it never doubled, half of it is below the target. |
| ConvolverBuffers.FftLength | plugins/ImpulseConvolver/ImpulseConvolver.cpp:82-89 | The transform length is a power of two that is at least 128 and at least impLength + SEG_SIZE. |
| ConvolverBuffers.FftLengthIsLeast | plugins/ImpulseConvolver/ImpulseConvolver.cpp:82-89 | It is the least such power of two. |
| ConvolverBuffers.FftLengthInRange | plugins/ImpulseConvolver/ImpulseConvolver.cpp:75-89 | With the impulse length capped at MAX_FFT_SIZE - SEG_SIZE, the length is a power of two in [256, MAX_FFT_SIZE]. |
| ConvolverBuffers.FreqRatio | plugins/ImpulseConvolver/ImpulseConvolver.cpp:72 | The resampling ratio is positive. |
| ConvolverBuffers.ImpLength | plugins/ImpulseConvolver/ImpulseConvolver.cpp:74-75 | The resampled impulse length is frames / ratio truncated, capped at MAX_FFT_SIZE - SEG_SIZE. |
| ConvolverBuffers.Resample | plugins/ImpulseConvolver/ImpulseConvolver.cpp:95-106 | Entry i of the resampled channel is the source sample at the truncated i * ratio, or 0 past the end. |
| ConvolverBuffers.ResampleReadsSource | plugins/ImpulseConvolver/ImpulseConvolver.cpp:95-101 | While i * ratio is below the frame count, the index read is in bounds and entry i is that source sample. |
| ConvolverBuffers.ResamplePadsWithZero | plugins/ImpulseConvolver/ImpulseConvolver.cpp:102-105 | Past the source, entries are 0. |
| ConvolverBuffers.ResampleAtUnitRatio | plugins/ImpulseConvolver/ImpulseConvolver.cpp:95-106 | At ratio 1 the resampled channel is the source, cut or zero-padded. |
| ConvolverBuffers.CappedImpulseFillsLastSegment | plugins/ImpulseConvolver/ImpulseConvolver.cpp:75-106 | When the cap applies and the source is long enough, the transform length is MAX_FFT_SIZE. The last segment of the time-domain impulse is then filled from the source rather than zero-padded. |
| ConvolverBuffers.SpectralProductMultipliesBins | plugins/ImpulseConvolver/ImpulseConvolver.cpp:213-226 | Each inner halfcomplex bin (B[k], B[n-k]) of the product is the complex product of the block and impulse bins. |
| ConvolverBuffers.NyquistBinNotMultiplied | plugins/ImpulseConvolver/ImpulseConvolver.cpp:213-229 | The Nyquist entry B[n/2] is never multiplied. With an all-zero impulse spectrum, every other entry below n becomes 0 while it survives. |
| ConvolverBuffers.SpectralProductAdditive | plugins/ImpulseConvolver/ImpulseConvolver.cpp:212-229 | The multiply distributes over the sum of two block spectra. |
| ConvolverBuffers.SpectralProductHomogeneous | plugins/ImpulseConvolver/ImpulseConvolver.cpp:212-229 | The multiply commutes with scaling the block spectrum. |
| ConvolverBuffers.MultiplyInPlace | plugins/ImpulseConvolver/ImpulseConvolver.cpp:212-229 | The in-place loop, with len walking down from n, computes exactly the pointwise product definition. |
| ConvolverBuffers.OverlapAdd | plugins/ImpulseConvolver/ImpulseConvolver.cpp:234-243 | Overlap-add touches op and overlap only below n - SEG_SIZE. Every index stays inside the MAX_FFT_SIZE buffers. |
| ConvolverBuffers.OverlapRunSums | plugins/ImpulseConvolver/ImpulseConvolver.cpp:234-243 | After any run of segments from a zeroed tail, op[i] is the sum of the earlier segments' outputs shifted by whole segments, and the tail holds the part still owed. |
| ImpulseConvolver.UpdateImpulse | plugins/ImpulseConvolver/ImpulseConvolver.cpp:67-148 | A reload zeroes the time and frequency blocks, op, the overlap tail below its last segment and the first segment of the output cache, and sets counter and pointers to 0. With an impulse it sets impLength, fftLength and both impulse spectra from the resampled channels. Without one these are kept. On both channels the last segment of the overlap tail and the output cache past its first segment are kept. |
| ImpulseConvolver.ResetData | plugins/ImpulseConvolver/ImpulseConvolver.cpp:131-142 | A reset channel has zero time block, frequency block and op, a zero overlap below its last segment and a zero first cache segment. The impulse spectrum, the overlap's last segment and the cache past its first segment are kept. |
| ImpulseConvolver.UpdateImpulseIdempotent | plugins/ImpulseConvolver/ImpulseConvolver.cpp:67-148 | Reloading twice is reloading once. |
| ImpulseConvolver.Create | plugins/ImpulseConvolver/ImpulseConvolver.cpp:55-64 | The constructor leaves the effect reset and consistent with its empty initial controls. |
| ImpulseConvolver.CompleteSegment | plugins/ImpulseConvolver/ImpulseConvolver.cpp:210-243 | A completed segment keeps the impulse spectrum, the time block and the output cache. |
| ImpulseConvolver.SegmentOutput | plugins/ImpulseConvolver/ImpulseConvolver.cpp:210-229 | A segment's output spans MAX_FFT_SIZE entries. From the transform length on it keeps op's previous values, because the inverse plan writes only n entries. |
| ImpulseConvolver.CompleteSegmentOverlapAdds | plugins/ImpulseConvolver/ImpulseConvolver.cpp:231-243 | Completing a segment is one overlap-add step on the inverse transform of the spectral product. |
| ImpulseConvolver.InputSample | plugins/ImpulseConvolver/ImpulseConvolver.cpp:203-252 | in_ptr advances modulo SEG_SIZE. Filling a segment sets the counter to 1 and, on the first segment since a reload, resets out_ptr. |
| ImpulseConvolver.InputSampleStores | plugins/ImpulseConvolver/ImpulseConvolver.cpp:205-207 | The frame is stored at in_ptr of both time blocks and nothing else there changes. The output cache is not touched, and op changes only when the segment completes. |
| ImpulseConvolver.InputSampleCompletes | plugins/ImpulseConvolver/ImpulseConvolver.cpp:208-243 | Filling the segment runs the segment step on both channels. |
| ImpulseConvolver.CoefUndoesTransformScale | plugins/ImpulseConvolver/ImpulseConvolver.cpp:184-196 | The output scale times fftLength is gain * 0.01. It undoes the unnormalised transform pair. |
| ImpulseConvolver.LevelsFor | plugins/ImpulseConvolver/ImpulseConvolver.cpp:184-196 | The dry and wet levels pass through unchanged. The output scale is stated by CoefUndoesTransformScale. |
| ImpulseConvolver.OutputSample | plugins/ImpulseConvolver/ImpulseConvolver.cpp:255-278 | out_ptr advances modulo SEG_SIZE. The input side is untouched. |
| ImpulseConvolver.OutputSampleMixes | plugins/ImpulseConvolver/ImpulseConvolver.cpp:257-263 | The written frame (Mixed) is d * in + w * (cache[out_ptr] * coef) on each channel. |
| ImpulseConvolver.OutputSampleRefreshes | plugins/ImpulseConvolver/ImpulseConvolver.cpp:268-278 | The output cache is refreshed from op exactly when out_ptr wraps. |
| ImpulseConvolver.FeedInputPointers | plugins/ImpulseConvolver/ImpulseConvolver.cpp:203-252 | Over a chunk of at most SEG_SIZE frames, in_ptr advances by the chunk length modulo SEG_SIZE. The counter and out_ptr change only when the segment fills. |
| ImpulseConvolver.FeedInput | plugins/ImpulseConvolver/ImpulseConvolver.cpp:203-252 | The input loop keeps the state ready and never changes the loaded impulse or its lengths. |
| ImpulseConvolver.FeedInputKeepsOutput | plugins/ImpulseConvolver/ImpulseConvolver.cpp:203-252 | The input loop never touches the output cache. It changes op only if a segment completes. |
| ImpulseConvolver.FeedInputKeepsPadding | plugins/ImpulseConvolver/ImpulseConvolver.cpp:205-206 | Input lands only in the first segment of the time blocks, so their zero padding survives. |
| ImpulseConvolver.DrainOutputPointers | plugins/ImpulseConvolver/ImpulseConvolver.cpp:255-279 | The output loop advances out_ptr by the chunk length modulo SEG_SIZE and leaves in_ptr and the counter alone. |
| ImpulseConvolver.DrainOutput | plugins/ImpulseConvolver/ImpulseConvolver.cpp:255-279 | The output loop writes one frame per input frame, keeps the state valid and leaves the load unchanged. |
| ImpulseConvolver.DrainOutputKeepsInput | plugins/ImpulseConvolver/ImpulseConvolver.cpp:255-279 | The output loop leaves the time blocks and op alone. |
| ImpulseConvolver.DrainOutputReads | plugins/ImpulseConvolver/ImpulseConvolver.cpp:255-263 | Until out_ptr wraps, frame t of the chunk mixes in cache entry out_ptr + t. |
| ImpulseConvolver.DrainOutputRefreshes | plugins/ImpulseConvolver/ImpulseConvolver.cpp:268-278 | A chunk ending at the segment boundary leaves op's first segment in the cache. |
| ImpulseConvolver.ChunkPointers | plugins/ImpulseConvolver/ImpulseConvolver.cpp:200-279 | One chunk moves counter and pointers as the closed form PointersAfter says. |
| ImpulseConvolver.Chunk | plugins/ImpulseConvolver/ImpulseConvolver.cpp:200-279 | One chunk keeps the state ready and the load unchanged, and yields one output frame per input frame. |
| ImpulseConvolver.ProcessChunks | plugins/ImpulseConvolver/ImpulseConvolver.cpp:200-283 | A whole buffer keeps the state ready and the load unchanged, and yields one output frame per input frame. |
| ImpulseConvolver.ChunkKeepsPadding | plugins/ImpulseConvolver/ImpulseConvolver.cpp:200-279 | One chunk keeps the time blocks' zero padding. |
| ImpulseConvolver.ProcessChunksPointers | plugins/ImpulseConvolver/ImpulseConvolver.cpp:200-283 | After a buffer, in_ptr = (in_ptr + frames) mod SEG_SIZE and the counter is 1 once any segment has completed. out_ptr advances likewise, except that the first completed segment restarts it. |
| ImpulseConvolver.ProcessChunksKeepsPadding | plugins/ImpulseConvolver/ImpulseConvolver.cpp:200-253 | Processing a buffer keeps the time blocks' zero padding. |
| ImpulseConvolver.Energy | plugins/ImpulseConvolver/ImpulseConvolver.cpp:173-176 | The summed energy of the frames is never negative. |
| ImpulseConvolver.Power | plugins/ImpulseConvolver/ImpulseConvolver.cpp:168-178 | There is no power figure exactly when the buffer is empty, where outSum / frames is not a number. |
| ImpulseConvolver.PowerIsMeanEnergy | plugins/ImpulseConvolver/ImpulseConvolver.cpp:266-285 | The reported power is the mean energy per frame, Σ(L² + R²) / frames, and is never negative. |
| ImpulseConvolver.Process | plugins/ImpulseConvolver/ImpulseConvolver.cpp:162-288 | The call is skipped exactly when disabled or not running. Otherwise the load and the buffer length are kept and the power of the output is reported. With no impulse, state and buffer are untouched. With one, the pointers move as PointersAfter says and the padding survives. |
| ConvolverProperties.RatioAssumes44100 | plugins/ImpulseConvolver/ImpulseConvolver.cpp:72 | At 44.1 kHz with the frequency knob at 0 the ratio is 2. The ratio is 1 only when the sample rate equals 88200 * 2^freq. |
| ConvolverProperties.AlignedCallsStayAligned | plugins/ImpulseConvolver/ImpulseConvolver.cpp:200-283 | If every call's frame count is a multiple of SEG_SIZE, both pointers are 0 at every call boundary. |
| ConvolverProperties.AlignedChunkState | plugins/ImpulseConvolver/ImpulseConvolver.cpp:245-278 | An aligned chunk completes its segment, returns both pointers to 0, sets the counter and copies op's first segment into the cache. |
| ConvolverProperties.AlignedChunkOutput | plugins/ImpulseConvolver/ImpulseConvolver.cpp:255-263 | An aligned chunk plays back the cache as it was before the chunk. |
| ConvolverProperties.AlignedFirstSegment | plugins/ImpulseConvolver/ImpulseConvolver.cpp:255-278 | With aligned pointers, a call's first segment of output mixes in the cache left by the previous call. |
| ConvolverProperties.AlignedOneSegmentLatency | plugins/ImpulseConvolver/ImpulseConvolver.cpp:246-278 | With aligned pointers, every later whole segment j of a call mixes in op of the segment completed SEG_SIZE frames earlier. |
| ConvolverProperties.ReloadStartsDry | plugins/ImpulseConvolver/ImpulseConvolver.cpp:130-147 | After a reload with an impulse, the first SEG_SIZE frames of the next call are the dry signal alone. |
| ConvolverProperties.ProcessFromReset | plugins/ImpulseConvolver/ImpulseConvolver.cpp:255-263 | From the reset state, processing writes d * in for the first SEG_SIZE frames. |
| ConvolverProperties.DryFromEmptyCache | plugins/ImpulseConvolver/ImpulseConvolver.cpp:255-263 | From aligned pointers and a zeroed cache, the first segment of output is dry. |
| ConvolverProperties.OutPtrResetDesynchronises | plugins/ImpulseConvolver/ImpulseConvolver.cpp:245-251 | From a state with counter 0 and both pointers 0, as a reload leaves it, three calls of 100 frames leave in_ptr at 44 but out_ptr at 100. The reset on the first completed segment lets out_ptr drift away from in_ptr. |
| ConvolverProperties.CountOnlyRises | plugins/ImpulseConvolver/ImpulseConvolver.cpp:245-251 | The counter stays at most 1 and never falls during processing. A reload sets it back to 0. |
| Denominator.ScanEqual | include/DenominatorSpinBox.h:49-52 | The first loop finds v exactly when v is among the remaining valid values. |
| Denominator.ScanBelow | include/DenominatorSpinBox.h:53-57 | The second loop returns a valid value below v, or 1, and no scanned value below v exceeds it. |
| Denominator.CheckValidValue | include/DenominatorSpinBox.h:47-58 | Snapping always returns one of 1, 2, 4, 8, 16 and 32. |
| Denominator.CheckValidValueIsFloor | include/DenominatorSpinBox.h:47-58 | The snapped value is the largest valid denominator not above v, or 1 when none is. |
| Denominator.CheckValidValueCases | include/DenominatorSpinBox.h:49-57 | Valid values come back unchanged. Other values above 1 round down to the largest valid value below them. v <= 1 gives 1 and v >= 32 gives 32. |
| Denominator.CheckValidValueIdempotent | include/DenominatorSpinBox.h:47-58 | Snapping twice is snapping once. |
| Denominator.CheckValidValueMonotone | include/DenominatorSpinBox.h:47-58 | Snapping preserves order. |
| Denominator.Value | include/DenominatorSpinBox.h:61-64 | value() reports a valid denominator in [minValue, maxValue] = [1, 32], whatever integer is stored. |
| Denominator.InitValue | include/DenominatorSpinBox.h:66-69 | initValue() does the same for the stored initial value. |
| Denominator.MinValue | include/DenominatorSpinBox.h:71-74 | minValue() is the least valid denominator. |
| Denominator.MaxValue | include/DenominatorSpinBox.h:76-79 | maxValue() is the greatest valid denominator. |
| Denominator.NewModel | include/DenominatorSpinBox.h:38-42 | The default model reports 4. |
| DenominatorSpinBox.StepUp | src/gui/widgets/DenominatorSpinBox.cpp:62-63 | Doubling and snapping gives a valid value in range, not below a valid start. |
| DenominatorSpinBox.StepDown | src/gui/widgets/DenominatorSpinBox.cpp:62-63 | Halving with truncation and snapping gives a valid value in range, not above the start. |
| DenominatorSpinBox.StepUpDoubles | src/gui/widgets/DenominatorSpinBox.cpp:63 | From a valid v < 32, stepping up gives 2v. From 32 it stays 32. |
| DenominatorSpinBox.StepDownHalves | src/gui/widgets/DenominatorSpinBox.cpp:63 | From a valid v > 1, stepping down gives v/2. From 1 it stays 1, because 0 snaps back to 1. |
| DenominatorSpinBox.StepRoundTrips | src/gui/widgets/DenominatorSpinBox.cpp:50-63 | down(up(v)) = v for valid v < 32, and up(down(v)) = v for valid v > 1. |
| DenominatorSpinBox.Wheel | src/gui/widgets/DenominatorSpinBox.cpp:59-66 | A positive wheel delta steps up and any other delta steps down. The result is valid. |
| DenominatorSpinBox.DragDelta | src/gui/widgets/DenominatorSpinBox.cpp:44-46 | With Shift the drag distance lands in [-4, 4]. Without Shift it is unchanged. |
| DenominatorSpinBox.Drag | src/gui/widgets/DenominatorSpinBox.cpp:40-56 | A drag changes the value exactly when the (scaled) distance exceeds 1 in magnitude. Downward doubles, upward halves, and the result is valid. |
| DenominatorSpinBox.ShiftDragNeedsEightPixels | src/gui/widgets/DenominatorSpinBox.cpp:44-47 | With Shift held, a drag changes the value exactly when it covers at least 8 pixels either way. |
| DenominatorSpinBox.EnterValue | src/gui/widgets/DenominatorSpinBox.cpp:113-131 | A typed value is stored, snapped, only when the dialog is confirmed. Otherwise the model is unchanged. |
| LmmsMath.Seeded | include/lmms_math.h:104 | The generator starts from state 1. |
| LmmsMath.FastRand | include/lmms_math.h:102-107 | A call keeps the state within the platform's unsigned long and returns a number in [0, FAST_RAND_MAX], namely bits 16..30 of the new state. |
| LmmsMath.OutputIsBits16To30 | include/lmms_math.h:106 | The unsigned cast and % 32768 keep exactly bits 16..30 of the state. |
| LmmsMath.RandSequence | include/lmms_math.h:101-107 | n successive calls give n numbers, each in [0, 32767]. |
| LmmsMath.FirstCallIs16838 | include/lmms_math.h:104-106 | The first call after start-up returns 16838 on either platform. |
| LmmsMath.StepCommutesWithReduction | include/lmms_math.h:105 | The 64-bit recurrence reduced modulo 2^32 is the 32-bit recurrence. |
| LmmsMath.WidthDoesNotMatter | include/lmms_math.h:104-106 | A 32-bit and a 64-bit state that agree modulo 2^32 produce the same numbers forever. |
| LmmsMath.SeededStreamsAgree | include/lmms_math.h:102-107 | From start-up the two platforms produce the same stream. |
| LmmsMath.Fraction | include/lmms_math.h:54-57 | fraction(x) lies in (-1, 1) and is 0 or carries the sign of x. |
| LmmsMath.FractionRemovesWholePart | include/lmms_math.h:54-57 | What fraction removes from x is a whole number. |
| LmmsMath.AbsFraction | include/lmms_math.h:48-52 | absFraction(x) lies in [0, 1]. |
| LmmsMath.AbsFractionFromFraction | include/lmms_math.h:48-57 | absFraction equals fraction for x >= 0, and fraction + 1 below 0. |
| LmmsMath.AbsFractionIsFloorFraction | include/lmms_math.h:48-52 | absFraction is x - floor(x) except at negative integers, where it is 1 instead of 0. |
| Numeric.QBound | include/basic_filters.h:178-193 | qBound(lo, v, hi) lies in [lo, hi]. It is v inside the interval, lo below it and hi above it. |
| Numeric.Trunc | include/basic_filters.h:624 | static_cast<int> truncates toward zero: the floor for non-negative values and the ceiling for negative ones. |
| Numeric.CDiv | src/gui/widgets/DenominatorSpinBox.cpp:46 | C integer division truncates toward zero, for negative dividends too. |

## Left out

- **Floating point.** All arithmetic is on reals. Single-precision rounding, NaN and infinity are not modelled. The exception is the empty-buffer power, where 0/0 is the model's `None`.
- **Transcendental functions.** `sinf`, `cosf`, `expf`, `powf` and `atanf` are not modelled. They are uninterpreted functions, so nothing depends on their values. The one exception is the stated assumption atan(0) = 0.
- **FFTW.**
  - The transforms are functions with no stated properties, so the model does not prove that the pipeline computes a convolution. It proves the bookkeeping around them.
  - Plan creation with FFTW_MEASURE may scribble over the arrays it is given. In `updateImpulse` this happens before the arrays are reset, so it has no effect on the model.
  - An HC2R plan may destroy its input array. The model keeps the product in the frequency block.
  - Plans are re-created on every reload without the old ones being destroyed. This leak is not modelled.
  - `fftwf_malloc` and allocation failure are not modelled.
- **Effect base class and controls.** `isEnabled`, `isRunning`, `dryLevel`, `wetLevel` and `checkGate` are inputs or outputs of `ImpulseConvolver.Process`. The control objects, the impulse-file loader, the dialog and `changeSampleRate` are not part of this model (`ImpulseConvolverControls.cpp`, `ImpulseConvolverControlDialog.cpp`). The frequency knob enters the model only as the value of powf(2, freq).
- **Concurrency.** The effect's buffers are read and written without locks while the controls reload the impulse. The model treats each call as atomic.
- **Qt and GUI code.** The journalling, cursor and event plumbing of `DenominatorSpinBox` is not modelled. `setInitValue`, `setValue` and the IntModel's own clamping are replaced by the returned value. The dialog's `getInt` result and its OK flag are inputs.
- **Other lmms_math.h helpers.** The Intel-compiler and SSE3 variants of `absFraction` and `fraction` are not modelled, and neither are the other helpers of `lmms_math.h`.
- **Shared library glue.** The plugin descriptor, `lmms_plugin_main`, `BufferCleaner.h` and the `papu` sources are not part of this model.
- Numeric.SafeDiv: the biquad's a0 = 1 / (1 + alpha) is modelled as 0 when 1 + alpha = 0. In the code that case is a float division by zero. The edge-gain lemmas require 1 + alpha ≠ 0.
- ConvolverBuffers.OverlapAdd: its own contract states only what it leaves alone. What it computes is stated by ConvolverBuffers.OverlapRunSums and ImpulseConvolver.CompleteSegmentOverlapAdds.
- ImpulseConvolver.FeedInputPointers: stated only for chunks of at most SEG_SIZE frames, the only chunks the outer loop produces. Whole buffers are covered by ProcessChunksPointers.
- DenominatorSpinBox.DragDelta: states only the range of the Shift-scaled distance. Its exact value, dy/4 truncated toward zero, matters only at the ±1 threshold, which DenominatorSpinBox.ShiftDragNeedsEightPixels states exactly.
- ImpulseConvolver.FeedInput: its own contract says only that the state stays ready and the load is unchanged. The pointers, buffers and padding it leaves are stated by FeedInputPointers, FeedInputKeepsOutput and FeedInputKeepsPadding.
- ImpulseConvolver.DrainOutput: its own contract gives only validity, the unchanged load and the output length. What it writes and moves is stated by DrainOutputReads, DrainOutputRefreshes, DrainOutputPointers and DrainOutputKeepsInput.
- ImpulseConvolver.Chunk and ImpulseConvolver.ProcessChunks: their own contracts give only readiness, the unchanged load and the output length. Pointers, padding and output are stated by ChunkPointers, ProcessChunksPointers, ProcessChunksKeepsPadding and the ConvolverProperties lemmas.
- ImpulseConvolver.LevelsFor: its own contract passes the levels through. The output scale is stated by CoefUndoesTransformScale.
- LmmsMath.Fraction and LmmsMath.AbsFraction: the conversion to `int` is undefined behaviour in C when the truncated value does not fit, so both require their argument to lie within the 32-bit range.

## Findings

| source | as written | input that shows it | evidently intended | confidence | as-written member | corrected member |
|---|---|---|---|---|---|---|
| include/basic_filters.h:609-629 | The formant branch clamps the cutoff to [5, 20000]. It then reads `_f[vowel]` and `_f[vowel + 1]` with vowel = (int)(freq * 4 / 14000). From 17500 Hz on, vowel is 5 and `_f[6]` lies past the six-entry table. | freq = 20000 (vowel = 5, reads `_f[6]`) | Keep the interpolation inside the table by capping the vowel position at the last pair (a, e, i, o, u, a) | not executed | FilterCoeffs.FormantLookupAsWritten | FilterCoeffs.FormantLookup |

The as-written lookup is exhibited by FilterCoeffs.FormantLookupOverrun and FilterCoeffs.FormantLookupOverrunAtMaxFreq. The rest of the model, FilterCoeffs.Compute, uses the corrected lookup. The corrected lookup is proved to agree with the as-written one wherever that one stays in bounds, and to yield formants inside the table's range.
