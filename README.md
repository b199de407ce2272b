# WebSDR receive path, modelled in Dafny

WebSDR is a browser software-defined radio for the HackRF. A web worker
takes the USB transfers of signed 8-bit I/Q bytes. For each transfer it
does two things:

- It feeds the bytes into the spectrum buffer. On every fifteenth refill of
  that buffer it sends the buffer to the FFT.
- It runs every VFO (an independent tuned receiver) over the transfer.

The VFO work goes through a native digital down-converter (the DDC). FM
modes are demodulated natively. The other modes are demodulated in the
worker from the DDC's I/Q output (AM, USB/LSB/DSB, CW, raw), then resampled
to 48 kHz by a rational polyphase resampler. The audio of all VFOs is mixed
with a volume-squared gain and batched to the page.

The page keeps the VFO list and the active index, the per-mode defaults,
and the zoom/pan view. It also holds a playback ring that batches audio
before scheduling it. The waterfall maps dB values onto a 13-entry palette
and writes one texture row per spectrum, alternating between two textures.
A small benchmark halves a buffer in place five times.

The project has 15 modules:

| module | models |
|---|---|
| `Common` | JS helpers: `Math.round`, the `x \|\| d` fallback, hard clipping, `Array.splice` of one element, ceiling division |
| `Arith` | arithmetic lemmas |
| `Ratio` | `gcd` and the reduced interpolation/decimation pair |
| `Filters` | tap counts and windowed-sinc tap lengths |
| `Fir` | `FIRFilter` |
| `Resampling` | `PolyphaseResampler` and `RationalResampler` |
| `Demod` | the per-sample AM/SSB/CW/raw demodulation with AGC, de-emphasis, clipping and the squelch level |
| `Batching` | `pushAudio`/`flushAudio` and the playback ring of `playAudio` |
| `Native` | `DspProcessor` and `FFT` as call logs |
| `Spectrum` | the I/Q accumulation and FFT throttle |
| `Vfo` | the VFO settings, the DDC call sequence and `processVfoAudio` |
| `Worker` | `addVfo`/`removeVfo`/`setVfoParams`, the VFO loop, mixing and the transfer callback |
| `Client` | the page state rules |
| `Display` | `convertDecibelToRGB` and `WaterfallGL` |
| `Halving` | the benchmark |

These parts are inputs, not computed:

- Floating-point values are `real`.
- The transcendental functions (`sin`, `cos`, `sqrt`, `log10`, `pi`) are
  fields of a `Transcendentals` parameter.
- The samples the native DDC writes are supplied by the caller. The model
  checks them against the buffer contract in its declaration file.

## Model

| member | source | states |
|---|---|---|
| Common.Round | src/client/utils.js:51-53 | `Math.round` as round-half-up: the result lies within one half of its argument |
| Common.OrDefault | worker.js:473 | `x \|\| d` on a number: `d` exactly when `x` is 0, otherwise `x` |
| Common.Clip | worker.js:538-541 | the hard clip: the result lies in [-1, 1], in-range values are unchanged, values above 1 become 1 and values below -1 become -1 |
| Common.CeilDiv | worker.js:245 | ceiling division: the smallest `r` with `a <= r * b` |
| Common.SpliceStart | src/client/script.js:459 | the start position of `splice`: a non-negative start capped at the length, a negative one counted back from the end, and 0 when that falls before the first element |
| Common.SpliceOne | src/client/script.js:459 | `splice(index, 1)`: an index in range shortens the list by one, keeps every element before it and moves every later one down by one place; an index past the end leaves the list as it is |
| Common.SpliceOneLength | src/client/script.js:458-459 | with more than one VFO and an index below the length, the list shrinks by exactly one |
| Filters.TapCount | worker.js:153-155 | the tap count is `floor(3.8 sr / tw)`, plus one exactly when `oddTapCount` holds and that floor is even; with `oddTapCount` it is always odd |
| Filters.WindowedSincBase | worker.js:157-167 | `windowedSincBase(count, ...)` returns exactly `count` taps |
| Filters.LowPassTaps | worker.js:169-174 | the low-pass filter has exactly `TapCount` taps |
| Filters.HighPassTaps | worker.js:176-183 | the high-pass filter has exactly `TapCount` taps |
| Filters.BandPassTaps | worker.js:185-193 | the band-pass filter has exactly `TapCount` taps |
| Filters.TapCountExample | worker.js:153-174 | a 200 Hz transition at 48 kHz gives 912 taps, or 913 when an odd count is requested |
| Filters.ResamplerTapCount | worker.js:308-313 | the prototype filter of a rational resampler has exactly `floor(76 in interp / min(in, out))` taps |
| Fir.NextIndex | worker.js:227-228 | the history index advances by one and wraps to 0 at the history length |
| Fir.ImpulseResponse | worker.js:212-231 | a single 1 followed by `j` zeros makes the convolution produce tap `j` |
| Fir.IdentityTap | worker.js:197 | the default filter `[1.0]` passes every sample through unchanged |
| Fir.FIRFilter.constructor | worker.js:196-199 | no taps means the identity tap `[1.0]`; the history starts zeroed at index 0 |
| Fir.FIRFilter.SetTaps | worker.js:201-205 | the new taps are installed, with a fresh zeroed history of their length at index 0 |
| Fir.FIRFilter.Reset | worker.js:207-210 | the same taps, a zeroed history and index 0 |
| Fir.FIRFilter.DotNewestFirst | worker.js:217-225 | the two loops over the circular history compute the convolution of the taps with the samples, newest first |
| Fir.FIRFilter.ProcessOne | worker.js:212-231 | the sample joins the history, the index advances with wrap, and the output is the convolution of the taps with every sample so far |
| Fir.ProcessBlock | worker.js:212-231 | output `n` of a block is the convolution of the taps with everything up to and including input `n` |
| Ratio.Gcd | worker.js:235 | `gcd(a, b)` by Euclid's recursion `b === 0 ? a : gcd(b, a % b)`; `GcdDivides` and `GcdGreatest` prove it is the greatest common divisor |
| Ratio.GcdDivides | worker.js:235 | `gcd(a, b)` is positive and divides both numbers when either is positive |
| Ratio.GcdGreatest | worker.js:235 | every common divisor of `a` and `b` divides `gcd(a, b)` |
| Ratio.Reduce | worker.js:301-306 | `interp = out/g` and `decim = in/g` are positive and coprime, with `interp * in == decim * out` |
| Ratio.ReducedProperties | worker.js:301-306 | the same facts about the quotients by the gcd |
| Ratio.NfmAudioRatio | worker.js:371 | the initial 50 kHz to 48 kHz resampler interpolates by 24 and decimates by 25 |
| Resampling.TapsPerPhase | worker.js:245 | `tapsPerPhase` is `ceil(len / interp)`: large enough for every tap, and no larger |
| Resampling.ScatterInverse | worker.js:252-257 | every tap index `i` is placed at a branch below `P` and a slot below `tapsPerPhase`, and the inverse map recovers `i` |
| Resampling.SourceInverse | worker.js:252-257 | every slot of the bank receives exactly one tap index, and scattering that index lands back on the slot |
| Resampling.BuildBank | worker.js:247-257 | the bank is `interp` by `tapsPerPhase`; slot `(p, k)` holds the tap scattered there, or 0 past the end of the taps |
| Resampling.OffsetInRange | worker.js:272-288 | the window of output `m` starts inside the input exactly when `m` is below the output count; its phase is below `interp` |
| Resampling.Resampled | worker.js:265-296 | the reference output of one pass over a whole input has `ceil(len * interp / decim)` samples |
| Resampling.OutputCountMonotone | worker.js:265-296 | more input never means fewer outputs |
| Resampling.ResampledPrefix | worker.js:265-296 | extending the input only appends outputs: the earlier outputs are a prefix of the later ones |
| Resampling.Continuation | worker.js:265-296 | the outputs a new chunk adds, appended to the earlier outputs, make the outputs of the joined input |
| Resampling.ChunkSplitEquivalence | worker.js:265-296 | feeding any sequence of chunks yields, concatenated, the outputs of the joined input |
| Resampling.ChunkedFromStart | worker.js:265-296 | from a fresh resampler, chunked output equals the resampled concatenation |
| Resampling.PolyphaseResampler.constructor | worker.js:238-263 | a fresh resampler with the given ratio and taps: an empty history, phase 0 and offset 0 |
| Resampling.PolyphaseResampler.DotAt | worker.js:274-278 | the inner loop is the dot product of one branch with the window at the offset |
| Resampling.PolyphaseResampler.Emit | worker.js:272-289 | the `while` loop emits exactly the reference outputs whose windows start in the new block, and leaves the accumulator at the next one |
| Resampling.PolyphaseResampler.EmitOne | worker.js:274-279 | the sample emitted at the current offset and phase is the reference output at that position |
| Resampling.PolyphaseResampler.NextPhase | worker.js:282-288 | `phase += decim; offset += floor(phase / interp); phase %= interp` moves to the next output position and strictly advances |
| Resampling.PolyphaseResampler.Load | worker.js:270 | `buffer.set` appends the block after the history, so the live window is the stream's tail |
| Resampling.PolyphaseResampler.Shift | worker.js:290-293 | `offset -= count` and `copyWithin` keep the last `tapsPerPhase-1` inputs as the history |
| Resampling.PolyphaseResampler.Process | worker.js:265-296 | `process(input, count)` consumes the first `count` inputs and returns exactly the reference outputs they add |
| Resampling.PrototypeTaps | worker.js:308-314 | the prototype filter, with every tap multiplied by `interp`, has `floor(76 in interp / min(in, out))` taps, never fewer than 76 |
| Resampling.RationalResampler.constructor | worker.js:300-317 | the resampler is built over the reduced ratio with the scaled prototype taps, and has consumed nothing |
| Resampling.RationalResampler.Process | worker.js:319-321 | one block is consumed whole, and the returned samples extend the reference output of everything consumed |
| Resampling.ProcessChunks | worker.js:319-321 | chunks fed one after another produce, concatenated, the reference output of their concatenation |
| Demod.Convex | worker.js:578-583 | a weighted mean with weight in [0, 1] lies between its two inputs |
| Demod.AgcStep | worker.js:576-583 | the AGC update moves the gain between its old value and the sample magnitude, and keeps a positive gain positive |
| Demod.AgcRates | worker.js:576-583 | the attack `50/ifRate` and the decay `5/ifRate` are both convex weights at any IF rate of 50 Hz and up |
| Demod.AgcScale | worker.js:584 | the scale is `0.5 / gain` above `1e-6` and 1 otherwise, and always positive |
| Demod.WrapPhase | worker.js:597-599 | the translator's phase update: the increment added, then one fold by a full turn at most in either direction; `WrapPhaseInRange` and `OneFoldIsNotEnough` state when that fold suffices |
| Demod.WrapPhaseInRange | worker.js:597-599 | one wrap of the translator phase keeps it within [-pi, pi] |
| Demod.OneFoldIsNotEnough | worker.js:597-599 | an increment of more than one turn (phase pi plus 3 pi) leaves the singly folded phase at 2 pi, outside [-pi, pi] |
| Demod.PhaseIncrement | worker.js:593-596 | `(shiftFreq / ifRate) * 2 pi`, with `shiftFreq` `bw/2` for USB, `-bw/2` for LSB and the CW tone (`cwTone \|\| 700`, worker.js:620-621) for CW; `SidebandsMirror` states the sideband symmetry |
| Demod.SidebandsMirror | worker.js:593-596 | LSB rotates by exactly the opposite of USB's increment; AM and raw do not rotate |
| Demod.Step | worker.js:569-648 | one sample of demodulation: raw passes I through; an unknown mode yields 0 and leaves the state alone; only AM touches the DC average; only USB/LSB/DSB/CW touch the phase |
| Demod.Run | worker.js:569-648 | demodulating `k` I/Q pairs yields `k` samples |
| Demod.RawRun | worker.js:641-645 | raw mode outputs the I component of every pair and leaves the state unchanged |
| Demod.SilentRun | worker.js:646-648 | a mode the demodulator does not know yields `k` zeros |
| Demod.PhaseStaysWrapped | worker.js:589-640 | over a whole block, the translator phase stays within [-pi, pi] when the per-sample increment is at most 2 pi |
| Demod.AgcStaysPositive | worker.js:569-640 | over a whole block, the AGC gain stays positive |
| Demod.Tau | worker.js:523-528 | the de-emphasis time constant: 22, 50 or 75 microseconds, 50 for any other setting, so always between 20 and 100 microseconds |
| Demod.DeemphAlpha | worker.js:522-531 | `dt / (tau + dt)` is strictly between 0 and 1 for every de-emphasis setting, including the 50 us fallback |
| Demod.Deemph | worker.js:531-534 | the de-emphasis filter returns one sample per input |
| Demod.DeemphBounded | worker.js:531-534 | an input bounded by `b`, from a previous output within `b`, gives outputs and a final state within `b` |
| Demod.ClipAfterDeemphIsIdentity | worker.js:531-541 | for input in [-1, 1] the clip after de-emphasis changes nothing |
| Demod.ClipInPlace | worker.js:653-656 | the clip loop replaces every sample by its clipped value, in place |
| Demod.MagnitudeSumNonNegative | worker.js:551-556 | the summed magnitude is non-negative given a non-negative square root |
| Demod.SquelchDb | worker.js:551-558 | `10 log10(mean I/Q magnitude + 1e-12)` over the block; `MeasureSquelch` computes it and `MagnitudeSumNonNegative` bounds the sum |
| Demod.MeasureSquelch | worker.js:551-558 | the squelch loop computes `10 log10(mean magnitude + 1e-12)` over the `count` pairs |
| Batching.Batcher.constructor | worker.js:436-438 | an empty 4800-sample buffer at position 0, with nothing emitted |
| Batching.Batcher.Flush | worker.js:440-446 | the buffered prefix is emitted as one batch, and the position returns to 0 |
| Batching.Batcher.CopyIn | worker.js:453 | `set(subarray, pos)` writes the samples right after the buffered prefix |
| Batching.Batcher.Step | worker.js:450-459 | one round copies what fits and emits at the threshold, keeping "emitted then buffered == everything pushed" |
| Batching.Batcher.Settle | worker.js:457-459 | at 2400 or more buffered samples the prefix is emitted; the position always ends below 2400 |
| Batching.Batcher.Push | worker.js:448-461 | every sample is copied once, in order; the emitted batches followed by the buffer are exactly the pushed samples; every batch has 2400 to 4800 samples; and the position stays below 2400 |
| Native.DspProcessor.constructor | hackrf-web/pkg/hackrf_web.d.ts:15 | a DDC records its input rate, shift and bandwidth, and has had no call yet |
| Native.DspProcessor.ProcessAudio | hackrf-web/pkg/hackrf_web.d.ts:16-23 | `process` returns the number of audio samples written, which fits the output buffer, and is recorded |
| Native.DspProcessor.ProcessIq | hackrf-web/pkg/hackrf_web.d.ts:24-29 | `process_iq_only` returns an even number of values that fits the output buffer, and is recorded |
| Native.FFT.constructor | hackrf-web/pkg/hackrf_web.d.ts:100-111 | an FFT needs a power-of-two size and a window of that length |
| Native.FFT.Transform | hackrf-web/pkg/hackrf_web.d.ts:91-98 | `fft` needs an input of `2n` bytes and a result of `n` values; each frame is recorded |
| Native.PowersOfTwo | hackrf-web/pkg/hackrf_web.d.ts:104-109 | 1024 and 8192 are accepted FFT sizes; 0 and 1000 are not |
| Spectrum.Frames | worker.js:669-680 | the frames the FFT sees: every 15th full buffer of the byte stream, in order; see `FrameCount`, `FramesExtend` and `Accumulate` |
| Spectrum.FrameCount | worker.js:676-679 | after `t` refills the FFT has seen exactly `t / 15` frames |
| Spectrum.FramesExtend | worker.js:669-680 | later bytes never change the frames of earlier refills |
| Spectrum.SpectrumTap.constructor | worker.js:129-131 | an empty `2 fftSize` buffer at position 0, with throttle 0 and no frames |
| Spectrum.SpectrumTap.Feed | worker.js:670-680 | one byte is stored; the position wraps to 0 exactly when the buffer fills, and the throttle then increments |
| Spectrum.SpectrumTap.Store | worker.js:670 | `iqBuffer[iqBufferPos++] = b` appends the byte to the current frame |
| Spectrum.SpectrumTap.Refill | worker.js:671-678 | a full buffer rewinds, counts one refill, and reaches the FFT on every 15th refill with exactly that frame |
| Spectrum.SpectrumTap.Accumulate | worker.js:669-680 | every byte of a transfer is fed in order; the position stays in [0, 2 fftSize), and the frames sent are exactly every 15th full buffer of the byte stream |
| Spectrum.FftRate | worker.js:669-680 | at any time the FFT has run exactly `spectrumThrottle / 15` times |
| Vfo.IfRate | worker.js:338-347 | the table's IF rate for a known mode and 50 kHz for any other, always at least 3 kHz |
| Vfo.MaxDdcOut | worker.js:351 | the output buffer holds `2 ceil(131072 * 250000 / sr) + 4096` values, an even number larger than 4096 |
| Vfo.DefaultParams | worker.js:333 | a new VFO is disabled WFM at the centre frequency, 150 kHz wide, at volume 50 |
| Vfo.Merge | worker.js:737 | `Object.assign(params, patch)` key by key: each key the patch carries wins, every other is kept; see `MergeLaws` and `MergeLaterWins` |
| Vfo.MergeLaws | worker.js:737 | `Object.assign` with the same patch twice is the same as once; an empty patch changes nothing; a full patch replaces everything |
| Vfo.MergeLaterWins | worker.js:737 | of two patches applied in turn, a key of the second wins, and an untouched key keeps the original value |
| Vfo.ModeSwitchCalls | worker.js:476-493 | on a mode change, the WFM flag and then either the new IF rate or a DDC reset; no call otherwise; `HandleModeSwitch` makes exactly these calls |
| Vfo.ConfigureCalls | worker.js:469-505 | the whole configuration sequence: the shift, the mode-switch calls, the bandwidth on change, then the squelch; `Configure` makes exactly these calls and `SteadyStateCalls` gives the unchanged case |
| Vfo.PassCalls | worker.js:465-546 | the DDC calls of one `processVfoAudio`: none exactly when the VFO is disabled; otherwise the configuration calls, then one `process` call for WFM and NFM or one `process_iq_only` call for the other modes |
| Vfo.SteadyStateCalls | worker.js:469-505 | a repeat block with unchanged mode and bandwidth makes only the shift and squelch calls |
| Vfo.NewAudioResampler | worker.js:371 | a fresh `RationalResampler(ifRate, 48000)` that has consumed nothing |
| Vfo.DemodulateInto | worker.js:566-648 | the per-mode loop fills a fresh block with the reference demodulation and leaves the reference state |
| Vfo.DeemphInPlace | worker.js:531-534 | the de-emphasis loop rewrites the block, in place, with the reference filter output, and returns its final state |
| Vfo.VfoState.constructor | worker.js:355-377 | `makeVfoState()`: zero DC average and phase, unit AGC gain, no last mode, a 50 kHz IF, a 150 kHz last bandwidth, and a fresh 50-to-48 kHz resampler |
| Vfo.VfoState.Configure | worker.js:469-505 | the DDC receives exactly the shift, mode-switch, bandwidth and squelch calls, in order; a mode switch resets the demodulator and de-emphasis and picks the new IF rate, and rebuilds the resampler only when that rate changes; otherwise the state is kept |
| Vfo.VfoState.Retune | worker.js:469-493 | the shift call and the mode-switch calls, with the state changes of a mode switch |
| Vfo.VfoState.HandleModeSwitch | worker.js:476-493 | on a new mode: reset the state, send the WFM flag, then either the new IF rate along with a new resampler, or a DDC reset; nothing when the mode is unchanged |
| Vfo.VfoState.Filters | worker.js:496-505 | a bandwidth call only when the bandwidth changed, then the squelch (`level \|\| -100`) |
| Vfo.VfoState.UpdateBandwidth | worker.js:496-499 | `set_bandwidth` is sent, and the last bandwidth recorded, exactly when the bandwidth differs from the last one sent |
| Vfo.VfoState.DeEmphasize | worker.js:521-535 | de-emphasis continues from the stored previous output and stores the final one |
| Vfo.VfoState.DemodulateBlock | worker.js:566-648 | a block is demodulated from the stored state, and the state advances to the reference final state |
| Vfo.VfoState.FmAudio | worker.js:507-543 | the FM path yields exactly the audio and the new state of `FmProcessing` from the old state: no output means no audio and no change; otherwise the output is de-emphasised from the stored previous sample (unless `none`), clipped, and the last de-emphasised sample is stored |
| Vfo.VfoState.IfAudio | worker.js:546-658 | the non-FM path yields exactly the audio and new state of `IfProcessing` from the old state: no I/Q means no audio; a squelched block sends zeros through the resampler and returns its output unclipped; an open block is demodulated, resampled and clipped, and the demodulator state advances; a block over 64000 samples fails; the DDC log grows by the one `process_iq_only` call |
| Vfo.VfoState.Resample | worker.js:650-656 | the block joins what the audio resampler has consumed; the result is the next stretch of its stream (`AudioResampled`), clipped if requested, and an empty stretch means no audio |
| Vfo.VfoState.Tick | worker.js:687 | `chunkCount++` |
| Vfo.VfoState.StreamIsOutput | worker.js:300-315 | a valid state's audio resampler owes, for any input, the audio stream of its current IF rate |
| Vfo.VfoState.ConfiguredFm | worker.js:469-543 | configure, then the FM path: the audio and new state are `FmProcessing` over `Configured` of the old state, so a mode switch de-emphasises from 0 and, when the IF rate changes, leaves a resampler that has consumed nothing |
| Vfo.VfoState.ConfiguredIf | worker.js:469-658 | configure, then the non-FM path: the audio and new state are `IfProcessing` over `Configured` of the old state, so a mode switch demodulates from the reset state and a new IF rate resamples from a fresh stream |
| Vfo.VfoState.ProcessVfoAudio | worker.js:465-660 | the audio and new state are exactly `VfoProcessing` of the old state: nothing for a disabled VFO, which touches neither its state nor its DDC; for an enabled one the exact DDC call sequence, then the FM or the non-FM path over the configured state |
| Vfo.Configured | worker.js:468-505 | the configured state: the mode and bandwidth (`\|\| 150000`) sent; an unchanged mode keeps everything else; a mode switch resets the demodulator and the de-emphasis, takes the new mode's IF rate, and keeps the consumed samples only when that rate equals the current one |
| Vfo.AudioResampled | worker.js:650 | what the resampler returns for a block is exactly what its stream gains when the block is appended to the samples consumed so far |
| Vfo.ConfiguredIdempotent | worker.js:468-505 | configuring twice with the same settings equals configuring once |
| Vfo.AudioContinuesStream | worker.js:545-658 | for an I/Q mode the block is appended to the consumed samples, the tuning is the configured one, and, up to the hard clip, the audio is exactly what the resampler's stream gains; no audio means the stream did not grow |
| Vfo.FmAudioClipped | worker.js:507-543 | the FM paths never fail; they yield no audio exactly when nothing was produced, and otherwise one sample per produced sample, each inside [-1, 1] |
| Vfo.FmProcessing | worker.js:507-543 | the FM path on values: no audio for no output; otherwise the output clipped, de-emphasised first unless `none`, with the final de-emphasis sample as the new state; `FmAudio` and `ConfiguredFm` are proved against it and `FmAudioClipped` bounds it |
| Vfo.IfProcessing | worker.js:545-658 | the I/Q path on values: no audio without pairs; zeros when squelched, the demodulated block otherwise; `Failed` over 64000 samples; otherwise the resampler's next stretch, clipped when open; `IfAudio` and `ConfiguredIf` are proved against it and `AudioContinuesStream` relates it to the stream |
| Vfo.VfoProcessing | worker.js:465-660 | `processVfoAudio` on values: nothing for a disabled VFO, otherwise `Configured` followed by the FM or the I/Q path; `ProcessVfoAudio`, `Pass` and the worker loop are proved against it |
| Vfo.VfoState.Pass | worker.js:687-688 | one loop pass: the chunk count increments; the audio and the state before and after are related by `ProcessedFrom`; the DDC receives exactly `PassCalls` from the tuning last sent, so a disabled VFO yields silence without touching its DDC |
| Worker.VolumeGain | worker.js:689-696 | the gain is `(volume/100)^2`, never negative, with 0 read as the default 50 |
| Worker.ZeroVolumeIsDefault | worker.js:689 | volume 0 plays at the gain of volume 50 (0.25) rather than muting; volume 100 is unit gain |
| Worker.MaxLength | worker.js:705 | `Math.max(...lengths)`: at least every output's length, and equal to one of them; 0 for no output |
| Worker.ScaleClip | worker.js:695-701 | every sample times the gain, then clipped |
| Worker.MixOf | worker.js:692-720 | the transfer's mix: nothing for no output, the scaled and clipped output for one, the clipped gain-weighted sum to the longest length for several; `MixBounds`, `SingleOutputIsOneWayMix` and `ShortOutputsAreSilent` state its properties and `MixAndPush` computes it |
| Worker.SingleOutputIsOneWayMix | worker.js:692-720 | the single-output path computes what the mixing path would compute for one output |
| Worker.MixBounds | worker.js:692-720 | the mix has the length of the longest output, and every mixed sample lies in [-1, 1] |
| Worker.ShortOutputsAreSilent | worker.js:710-712 | an output too short to reach sample `i` adds nothing to it |
| Worker.ScaleAndClip | worker.js:697-701 | the single-output loop scales and clips in place |
| Worker.MixIn | worker.js:710-712 | one pass of the mixing loop adds one output, times its gain, to the running sum |
| Worker.MixSeveral | worker.js:705-719 | a zeroed buffer of the longest length gets every output mixed in, then clipped |
| Worker.MixAndPush | worker.js:692-720 | the batcher receives exactly the mix of the audible outputs: nothing for none, the scaled output for one, the clipped sum for several |
| Worker.SetParamsCalls | worker.js:739-749 | the DDC calls of `setVfoParams`: the patch's bandwidth if it has one, then the merged squelch (`\|\| -100`) if the patch touches either squelch key; see `SetParamsCallsCases` and `SetVfoParams` |
| Worker.SetParamsCallsCases | worker.js:735-750 | a patch with neither bandwidth nor squelch leaves the DDC alone; one with all three makes both calls, with the patched squelch values |
| Worker.Audible | worker.js:689 | at most one output per VFO, and only those with audio |
| Worker.Gains | worker.js:689 | one gain per audible output |
| Worker.FreeAll | worker.js:330 | every existing DDC is freed exactly once |
| Worker.NewVfoState | worker.js:355-377 | a fresh state in its initial configuration, owning its resampler |
| Worker.Backend.constructor | worker.js:100 | before `startRxStream` there are no VFOs |
| Worker.Backend.Adopt | worker.js:757-761 | the four `push`es: the lists stay in step, each one growing by one entry |
| Worker.Backend.Spawn | worker.js:757-761 | a new DDC `(sampleRate, 0, 150000)` and a new state join the end of the lists; the earlier entries are unchanged |
| Worker.Backend.StartRx | worker.js:329-384 | the old DDCs are freed; the stream parameters are stored; there is exactly one default VFO at the centre frequency, with a fresh DDC and state |
| Worker.Backend.AddVfo | worker.js:752-762 | -1 and no change before the stream starts; otherwise one default VFO at the stored centre frequency (100 when that is 0) is appended and its index returned |
| Worker.Backend.RemoveVfo | worker.js:764-772 | an out-of-range index, or the last VFO, changes nothing; otherwise that VFO's DDC is freed and its entry leaves all four lists, the others keeping their order and their DDC logs |
| Worker.Backend.SetVfoParams | worker.js:735-750 | for an index in range, the patch is merged into that VFO's settings; its DDC gets the bandwidth if the patch has one, and the merged squelch if the patch touches squelch; no other VFO changes; an out-of-range index changes nothing |
| Worker.Backend.RunVfo | worker.js:687-688 | one VFO's pass, within the ownership discipline of the state pool: its audio and its state before and after are related by `ProcessedFrom`; its DDC receives exactly `PassCalls`; its chunk count increments; every other state is unchanged |
| Worker.Backend.RunAll | worker.js:684-690 | the VFOs run in order until one fails: every VFO reached went from its initial state to its recorded state as `ProcessedFrom` says, and its DDC received exactly `PassCalls`; disabled VFOs yield silence; VFOs not reached keep their state and their DDC log |
| Worker.Backend.Advance | worker.js:685-688 | one VFO's pass taken out of the pool of states not yet visited and joined to the pool of visited ones: `ProcessedFrom` and `PassCalls` for that VFO, every other state and DDC log unchanged |
| Worker.Backend.Visit | worker.js:685-688 | one loop iteration keeps the loop's progress: the first `k + 1` VFOs processed from their initial states with their DDCs given exactly their `PassCalls`, the rest untouched |
| Worker.Backend.RunVfos | worker.js:684-690 | the loop with the pool regathered: the worker is valid again, every VFO reached is processed from its initial state and its DDC received exactly its `PassCalls`, and every other state and DDC log is kept |
| Worker.AllProcessedSnoc | worker.js:685-688 | one more processed VFO extends the record of processed VFOs |
| Worker.PoolsApart | worker.js:685-688 | with the visited and unvisited pools disjoint, the footprint of the VFO about to run is disjoint from every other VFO's |
| Worker.Backend.Regather | worker.js:684-690 | after the loop, the states form the worker's pool again |
| Worker.Backend.ProcessTransfer | worker.js:682-723 | the VFO loop: each VFO reached yields the audio, ends in the state and gives its DDC the calls that `processVfoAudio` gives from its state before the transfer; VFOs not reached keep their state and DDC log; then, unless a VFO failed, exactly the mix of the audible outputs goes to the batcher; a failure drops the transfer's audio, as the `catch` does |
| Worker.Callback | worker.js:662-724 | the transfer's bytes feed the spectrum tap first, in order; then every VFO reached is processed from its old state as `processVfoAudio` does (audio, state and DDC calls), the others keep their state and DDC log, and the batcher receives the transfer's mix, or nothing when a VFO failed |
| Client.VfoColor | src/client/script.js:98-100 | `VFO_COLORS[index % 8]`: always one of the eight palette colours; `VfoColorPeriodic` and `VfoColorsDistinct` state its period and distinctness |
| Client.VfoColorPeriodic | src/client/script.js:98-100 | the VFO colour repeats every eight VFOs |
| Client.VfoColorsDistinct | src/client/script.js:9-12 | any eight consecutive VFOs get eight different colours |
| Client.MakeDefaultVfo | src/client/script.js:14-32 | a new page VFO is disabled WFM at the given frequency, 150 kHz wide, at volume 50, with squelch off at -100 |
| Client.ModeDefaultFor | src/client/script.js:35-44 | `MODE_DEFAULTS[mode] \|\| MODE_DEFAULTS.nfm` |
| Client.ApplyModeDefaults | src/client/script.js:125-141 | bandwidth from the table (the sample rate for `raw`); snap interval, de-emphasis and low-pass from the table; squelch, noise reduction, stereo and high-pass off; the VFO's other fields kept |
| Client.ApplyModeDefaultsIdempotent | src/client/script.js:125-141 | applying the defaults twice equals applying them once |
| Client.ClampOffset | src/client/script.js:520-522 | the two `if`s clamp into [0, maxOffset] and leave an in-range offset alone |
| Client.WheelZoom | src/client/script.js:502-527 | the new scale lies in [1, 100] and the offset in [0, 1 - 1/scale]; when no clamping is needed, the point under the mouse stays put |
| Client.Pan | src/client/script.js:612-626 | panning keeps the scale and keeps the offset in [0, 1 - 1/scale] |
| Client.MinFreq | src/client/script.js:81-85 | the left edge of the visible span in MHz: the band's lower edge plus the zoom offset times the full span; see `SpanWidth`, `UnzoomedSpan`, `ZoomedInsideBand` |
| Client.MaxFreq | src/client/script.js:86-90 | the right edge: the left edge of the band plus the full span times `zoomOffset + 1/zoomScale`; see `SpanWidth`, `UnzoomedSpan`, `ZoomedInsideBand` |
| Client.SpanWidth | src/client/script.js:81-90 | `maxFreq - minFreq` is the full bandwidth divided by the zoom scale |
| Client.UnzoomedSpan | src/client/script.js:81-90 | unzoomed, the view is the centre frequency plus or minus half the sample rate |
| Client.ZoomedInsideBand | src/client/script.js:81-90 | a zoomed view with a clamped offset stays inside the unzoomed span |
| Client.LabelFreq | src/client/script.js:142-143 | label 0 is `minFreq` and label 1 is `maxFreq` |
| Client.App.constructor | src/client/script.js:51-76 | the initial page: one default VFO at 100 MHz, active index 0, unzoomed, not running |
| Client.App.UpdateBackendVfoParams | src/client/script.js:427-446 | the VFO's settings are sent only when the page has a backend, is running, and the index is in range; nothing else changes |
| Client.App.ApplyModeDefaultsAt | src/client/script.js:125-141 | only that VFO's entry changes, to its defaults |
| Client.App.AddVfo | src/client/script.js:448-456 | one default VFO at the centre frequency is appended and becomes active; a running backend is told to add a VFO and then sent its settings |
| Client.App.RemoveVfo | src/client/script.js:457-466 | the last VFO is never removed; otherwise the entry is spliced out, a running backend is told, and the active index is pulled back into range |
| Client.App.HandleWheelZoom | src/client/script.js:502-527 | the view becomes the wheel-zoomed view, and nothing else changes |
| Client.App.PanBy | src/client/script.js:612-626 | the view becomes the panned view, and nothing else changes |
| Client.App.ToggleVfoCheckbox | src/client/script.js:362-378 | the first time any VFO is enabled, the audio context opens with a fresh ring at position 0, and otherwise the audio state is kept; then the VFO's settings are sent exactly when the page has a backend, is running and the index is in range; the VFOs, the view and the stream parameters are unchanged |
| Client.App.PlayAudio | src/client/script.js:379-410 | with audio open and running, some VFO enabled and a non-empty block, every sample goes through the ring in order and the emitted chunks are only extended; otherwise nothing changes |
| Display.Level | src/client/utils.js:40-41 | `p` is the normalised dB value clamped to [0, 1] |
| Display.BlendOf | src/client/utils.js:43-49 | both palette indices are valid, `indexNext = min(12, indexBase + 1)`, both weights lie in [0, 1] and sum to 1, and base plus fraction is `12 p` |
| Display.Channel | src/client/utils.js:51-53 | a rounded blend of two channel values lies between them, and is the first one at weight 0 |
| Display.ConvertDecibelToRGB | src/client/utils.js:38-56 | each channel lies between the corresponding channels of the two neighbouring palette entries |
| Display.ColourBytes | src/client/utils.js:22-56 | every colour is a valid 8-bit RGB triple |
| Display.BelowRangeIsFirstColour | src/client/utils.js:22-56 | `dB <= minDB` gives the first palette entry (0, 0, 0x20) |
| Display.AboveRangeIsLastColour | src/client/utils.js:22-56 | `dB >= maxDB` gives the last palette entry (0x4A, 0, 0) |
| Display.WaterfallGL.constructor | src/client/utils.js:85-93 | the range is -70 to 0 dB, row 0, two textures, and nothing uploaded |
| Display.WaterfallGL.SetRange | src/client/utils.js:95-98 | the new range is stored, and the row and textures are unchanged |
| Display.WaterfallGL.FillRow | src/client/utils.js:277-286 | every bin becomes its colour's four bytes, with alpha 255 |
| Display.WaterfallGL.RenderLine | src/client/utils.js:274-297 | the row is filled and uploaded at the current row of the write texture; the row advances, and at the history size it returns to 0 and the two textures swap |
| Halving.HalveOnce | mock_test.js:10-13 | one stage: `buf[k]` becomes the mean of `buf[2k]` and `buf[2k+1]` for `k < len/2`; the other entries are kept; the length is unchanged |
| Halving.Stages | mock_test.js:9-15 | several stages keep the array length |
| Halving.StageLength | mock_test.js:9-15 | `cic_len` after `t` stages: halved, rounded down, once per stage; see `BenchmarkLength` and `Stages` |
| Halving.BenchmarkLength | mock_test.js:1-15 | five stages from 8192 leave a live length of 256 |
| Halving.HalveStage | mock_test.js:10-13 | the in-place loop equals the out-of-place stage, since the write at `k` never overwrites a value a later iteration reads |
| Halving.Benchmark | mock_test.js:6-16 | the benchmark reports a length of 256 and the first entry of the five-stage result |

## Left out

- Floating point: samples and rates are exact reals. Float32 rounding, NaN, infinities and the typed-array truncations are not modelled.
- Transcendental functions: `sin`, `cos`, `sqrt`, `log10` and `pi` are parameters with no properties beyond those a lemma states it assumes. Consequently the sinc and Nuttall coefficients, the spectrum window and the SSB/CW rotation values are abstract.
- Native signal processing: the WebAssembly DDC and FFT are call logs. The samples a `process`/`process_iq_only` call writes are inputs. The FFT result, its smoothing and the `spectrumCallback` message are not modelled.
- Browser and device I/O: USB transfers, the HackRF configuration calls, Comlink messaging, Vue reactivity, WebGL drawing (only the row uploads are logged), Web Audio scheduling and timing, and the performance counters are left out. The `audioCallback` and `_scheduleAudioChunk` outputs are the emitted batch lists.
- Concurrency: the worker and the page run one call at a time; the `await`s of the page run in sequence.
- `Object.assign` with keys other than the ten VFO settings the worker reads: extra keys that `setVfoParams` accepts are not represented.
- The `continue` guard of the VFO loop (a missing DDC, state or buffer): the parallel lists always have equal length, so it never fires and is not modelled.
- `ddcOutputs`: each output buffer is kept as its capacity. The values left past the written prefix by earlier calls are not represented.
- Worker.Backend.ProcessTransfer: does not restate each VFO's chunk count (`chunkCount++`, worker.js:687); `Vfo.VfoState.Pass` and `Worker.Backend.RunVfo` state it for one VFO. The loop invariant would carry a per-VFO counter that nothing else in the transfer reads.
- Worker.Backend.RunAll: the same gap in the chunk counts, for the same reason, for the VFO loop alone.
- Worker.Backend.RunVfos: the same gap in the chunk counts.
- Worker.Callback: the same gap in the chunk counts.
- Demod.PhaseStaysWrapped: requires each step's increment to be at most one full turn, which the worker does not enforce. At the 24 kHz USB/LSB IF rate a bandwidth above 48 kHz exceeds it. That happens when a VFO switches to USB or LSB while keeping the 150 kHz WFM bandwidth, or when the user types a wide bandwidth. worker.js:597-599 folds the phase only once, so `ssbPhase` then drifts without bound (`OneFoldIsNotEnough`); `cos`/`sin` hide this up to floating-point precision.
- Exceptions: the only exception modelled is the `RangeError` of the resampler's `buffer.set` on a block over 64000 samples. It is the `Failed` outcome, and the `catch` drops the transfer's audio. Exceptions thrown inside native code are not modelled.
- Resampling.PolyphaseResampler.Process: requires `count <= 64000` (what `buffer.set` accepts), so the JS exception path sits in `Vfo.VfoState.IfAudio`.
- Rates are naturals: `RationalResampler` is built only from the integer IF and audio rates the worker uses, so its `Math.round` of the rates is the identity.
- `Math.round` is round-half-up (`floor(x + 0.5)`), which is what JavaScript does for every finite value.
- Page features outside the audio and view rules: settings persistence, frequency formatting (the `displayFreq` string), tuning by click and drag, the spectrum canvas drawing, speech-to-text and the gain controls.
- The root-level `script.js`: it is the older single-VFO page and duplicates the batching loop and mode defaults of `src/client/script.js`.
