/**
 * One VFO of the worker: its settings (`vfoParams[v]`), its demodulator
 * state (`vfoStates[v]`) and the per-block work of `processVfoAudio`:
 * retune the native DDC, detect a mode switch (reset the demodulator,
 * choose the IF rate, rebuild the audio resampler only when that rate
 * changes), push bandwidth and squelch settings, then either take the FM
 * audio the native pipeline produced (de-emphasis, clip) or demodulate the
 * I/Q it produced in the worker (squelch, per-mode demodulation, resampling
 * to 48 kHz, clip).
 */
module Vfo {
  import opened Common
  import opened Demod
  import Native
  import Resampling
  import Ratio

  /** `AUDIO_RATE`. */
  const AudioRate: nat := 48000
  /** `initialBandwidth`, and the fallback of `params.bandwidth || 150000`. */
  const DefaultBandwidth: real := 150000.0

  /** `IF_RATES[mode]`, absent for a mode not in the table. */
  function IfRateEntry(mode: string): Option<nat>
  {
    match mode
    case "nfm" => Some(50000)
    case "wfm" => Some(250000)
    case "am" => Some(15000)
    case "usb" => Some(24000)
    case "lsb" => Some(24000)
    case "dsb" => Some(24000)
    case "cw" => Some(3000)
    case "raw" => Some(48000)
    case _ => None
  }

  /** `IF_RATES[mode] || IF_RATES.nfm`: every mode gets a positive IF rate, of at least 3 kHz. */
  function IfRate(mode: string): (rate: nat)
    ensures IfRateEntry(mode).Some? ==> rate == IfRateEntry(mode).value
    ensures IfRateEntry(mode).None? ==> rate == 50000
    ensures rate >= 3000
  {
    match IfRateEntry(mode)
    case Some(r) => r
    case None => 50000
  }

  /** `Math.ceil(131072 * MAX_IF_RATE / sampleRate) * 2 + 4096`: room for one transfer's DDC output. */
  function MaxDdcOut(sampleRate: real): (n: nat)
    requires sampleRate > 0.0
    ensures n > 4096 && n >= 4096 + 2 * (131072.0 * 250000.0 / sampleRate).Floor
    ensures n % 2 == 0
  {
    var x := 131072.0 * 250000.0 / sampleRate;
    var ceil := -((-x).Floor);
    ceil * 2 + 4096
  }

  /** The settings the worker reads from `vfoParams[v]`. */
  datatype VfoParams = VfoParams(
    freq: real,
    mode: string,
    enabled: bool,
    deEmphasis: string,
    squelchEnabled: bool,
    squelchLevel: real,
    lowPass: bool,
    highPass: bool,
    bandwidth: real,
    volume: real)

  /** `defaultVfoParams` / the parameters `addVfo` pushes. */
  function DefaultParams(centerFreq: real): (p: VfoParams)
    ensures p.freq == centerFreq && p.mode == "wfm" && !p.enabled && p.bandwidth == DefaultBandwidth && p.volume == 50.0
  {
    VfoParams(centerFreq, "wfm", false, "50us", false, -100.0, true, false, DefaultBandwidth, 50.0)
  }

  /** The keys present in a `setVfoParams` argument. */
  datatype VfoPatch = VfoPatch(
    freq: Option<real>,
    mode: Option<string>,
    enabled: Option<bool>,
    deEmphasis: Option<string>,
    squelchEnabled: Option<bool>,
    squelchLevel: Option<real>,
    lowPass: Option<bool>,
    highPass: Option<bool>,
    bandwidth: Option<real>,
    volume: Option<real>)

  function Pick<T>(o: Option<T>, d: T): T
  {
    match o
    case Some(v) => v
    case None => d
  }

  /** `Object.assign(params, patch)`: every key present overrides, every other is kept. */
  function Merge(p: VfoParams, patch: VfoPatch): VfoParams
  {
    VfoParams(
      Pick(patch.freq, p.freq), Pick(patch.mode, p.mode), Pick(patch.enabled, p.enabled),
      Pick(patch.deEmphasis, p.deEmphasis), Pick(patch.squelchEnabled, p.squelchEnabled),
      Pick(patch.squelchLevel, p.squelchLevel), Pick(patch.lowPass, p.lowPass),
      Pick(patch.highPass, p.highPass), Pick(patch.bandwidth, p.bandwidth), Pick(patch.volume, p.volume))
  }

  const EmptyPatch: VfoPatch := VfoPatch(None, None, None, None, None, None, None, None, None, None)

  /** A patch with every key replaces the whole settings record. */
  function FullPatch(p: VfoParams): VfoPatch
  {
    VfoPatch(Some(p.freq), Some(p.mode), Some(p.enabled), Some(p.deEmphasis), Some(p.squelchEnabled),
      Some(p.squelchLevel), Some(p.lowPass), Some(p.highPass), Some(p.bandwidth), Some(p.volume))
  }

  /** Merging is idempotent, the empty patch changes nothing, and a full patch overrides everything. */
  lemma MergeLaws(p: VfoParams, q: VfoParams, patch: VfoPatch)
    ensures Merge(Merge(p, patch), patch) == Merge(p, patch)
    ensures Merge(p, EmptyPatch) == p
    ensures Merge(p, FullPatch(q)) == q
  {
  }

  /** A later patch wins over an earlier one on every key it carries. */
  lemma MergeLaterWins(p: VfoParams, first: VfoPatch, second: VfoPatch)
    ensures var r := Merge(Merge(p, first), second);
      && (second.mode.Some? ==> r.mode == second.mode.value)
      && (second.mode.None? ==> r.mode == Merge(p, first).mode)
      && (second.bandwidth.Some? ==> r.bandwidth == second.bandwidth.value)
      && (second.bandwidth.None? && first.bandwidth.None? ==> r.bandwidth == p.bandwidth)
  {
  }

  /** On a mode switch: the WFM flag, then either the new IF rate or a reset; nothing otherwise. */
  function ModeSwitchCalls(lastMode: string, currentIfRate: nat, mode: string): seq<Native.DdcCall>
  {
    if mode != lastMode then
      [Native.SetWfmMode(mode == "wfm"), if IfRate(mode) != currentIfRate then Native.SetIfSampleRate(IfRate(mode)) else Native.Reset]
    else []
  }

  /** The bandwidth, when it differs from the last one sent. */
  function BandwidthCalls(lastBandwidth: real, bw: real): seq<Native.DdcCall>
  {
    if bw != lastBandwidth then [Native.SetBandwidth(bw)] else []
  }

  /**
   * The DDC calls `processVfoAudio` makes before processing: the retune,
   * the mode-switch calls, the bandwidth calls and the squelch.
   */
  function ConfigureCalls(lastMode: string, currentIfRate: nat, lastBandwidth: real, p: VfoParams,
                          centerFreq: real, sampleRate: real): seq<Native.DdcCall>
  {
    RetuneCalls(lastMode, currentIfRate, p, centerFreq, sampleRate) + FilterCalls(lastBandwidth, p)
  }

  /** The retune to the VFO's frequency, then the mode-switch calls. */
  function RetuneCalls(lastMode: string, currentIfRate: nat, p: VfoParams, centerFreq: real, sampleRate: real): seq<Native.DdcCall>
  {
    [Native.SetShift(sampleRate, (p.freq - centerFreq) * 1000000.0)] + ModeSwitchCalls(lastMode, currentIfRate, p.mode)
  }

  /**
   * The DDC calls of one `processVfoAudio` from the tuning `t` last sent:
   * none for a disabled VFO; otherwise the configuration calls, then the
   * one native call, `process` for the FM modes and `process_iq_only` for
   * the others.
   */
  function PassCalls(t: Tuning, p: VfoParams, centerFreq: real, sampleRate: real, signedLen: nat, producedLen: nat)
    : (calls: seq<Native.DdcCall>)
    ensures !p.enabled <==> calls == []
    ensures p.enabled ==> calls[..|calls| - 1] == ConfigureCalls(t.mode, t.ifRate, t.bandwidth, p, centerFreq, sampleRate)
    ensures p.enabled ==> calls[|calls| - 1] ==
                          (if p.mode == "wfm" || p.mode == "nfm" then Native.Process(signedLen, producedLen)
                           else Native.ProcessIqOnly(signedLen, producedLen))
  {
    if !p.enabled then []
    else
      var last := if p.mode == "wfm" || p.mode == "nfm" then Native.Process(signedLen, producedLen)
                  else Native.ProcessIqOnly(signedLen, producedLen);
      var configure := ConfigureCalls(t.mode, t.ifRate, t.bandwidth, p, centerFreq, sampleRate);
      assert (configure + [last])[..|configure|] == configure;
      configure + [last]
  }

  /** The bandwidth calls, then the squelch (`squelchLevel || -100`). */
  function FilterCalls(lastBandwidth: real, p: VfoParams): seq<Native.DdcCall>
  {
    BandwidthCalls(lastBandwidth, OrDefault(p.bandwidth, DefaultBandwidth))
      + [Native.SetSquelch(OrDefault(p.squelchLevel, -100.0), p.squelchEnabled)]
  }

  /** Regrouping the calls appended one after another to a log. */
  lemma AppendThree<T>(a: seq<T>, b: seq<T>, c: seq<T>)
    ensures a + b + c == a + (b + c)
  {
  }

  /** Repeating a block with unchanged settings makes only the retune and squelch calls. */
  lemma SteadyStateCalls(currentIfRate: nat, p: VfoParams, centerFreq: real, sampleRate: real)
    ensures ConfigureCalls(p.mode, currentIfRate, OrDefault(p.bandwidth, DefaultBandwidth), p, centerFreq, sampleRate)
      == [Native.SetShift(sampleRate, (p.freq - centerFreq) * 1000000.0),
          Native.SetSquelch(OrDefault(p.squelchLevel, -100.0), p.squelchEnabled)]
  {
  }

  /** What one VFO contributes for one transfer. */
  datatype VfoAudio =
    | Silent
    | Audio(samples: seq<real>)
    /** The resampler's `buffer.set` threw: the block exceeds its 64000-sample delay line. */
    | Failed

  /** `squelchEnabled && squelchDb < squelchLevel` (the raw level, not the `|| -100` used for the DDC). */
  predicate Squelched(m: Transcendentals, p: VfoParams, iq: seq<real>, n: nat)
    requires 0 < n && 2 * n <= |iq|
  {
    p.squelchEnabled && SquelchDb(m, iq, n) < p.squelchLevel
  }

  /** `cwTone` of `makeVfoState`, never written afterwards. */
  const CwTone: real := 700.0

  /**
   * What a VFO state carries from one transfer to the next, as values: the
   * tuning last sent to the DDC, the demodulator and de-emphasis state, and
   * every sample its audio resampler has consumed.
   */
  datatype VfoSnapshot = VfoSnapshot(tuning: Tuning, demod: DemodState, deemphPrev: real, consumed: seq<real>)

  /** One VFO's audio for one transfer, and its state afterwards. */
  datatype Processing = Processing(audio: VfoAudio, after: VfoSnapshot)

  /** The 48 kHz stream `new RationalResampler(ifRate, AUDIO_RATE)` owes for the input `xs`. */
  function AudioStream(m: Transcendentals, ifRate: nat, xs: seq<real>): seq<real>
    requires m.pi != 0.0 && ifRate > 0
  {
    var red := Ratio.Reduce(ifRate, AudioRate);
    Resampling.Resampled(Resampling.PrototypeTaps(m, ifRate, AudioRate), red.interp, red.decim, xs)
  }

  /** What that resampler returns for `block` once it has consumed `before`: the next stretch of its stream. */
  function AudioResampled(m: Transcendentals, ifRate: nat, before: seq<real>, block: seq<real>): (out: seq<real>)
    requires m.pi != 0.0 && ifRate > 0
    ensures AudioStream(m, ifRate, before) + out == AudioStream(m, ifRate, before + block)
  {
    var red := Ratio.Reduce(ifRate, AudioRate);
    Resampling.Continuation(Resampling.PrototypeTaps(m, ifRate, AudioRate), red.interp, red.decim, before, block)
  }

  /**
   * The state once `processVfoAudio` has configured the DDC: the mode and
   * bandwidth sent; on a mode switch the demodulator and de-emphasis state
   * reset and the new mode's IF rate, with a resampler that starts afresh
   * only when that rate differs from the current one.
   */
  function Configured(p: VfoParams, s: VfoSnapshot): (r: VfoSnapshot)
    ensures r.tuning.mode == p.mode && r.tuning.bandwidth == OrDefault(p.bandwidth, DefaultBandwidth)
    ensures s.tuning.ifRate > 0 ==> r.tuning.ifRate > 0
    ensures p.mode == s.tuning.mode ==> r == s.(tuning := s.tuning.(bandwidth := OrDefault(p.bandwidth, DefaultBandwidth)))
    ensures p.mode != s.tuning.mode ==>
      && r.tuning.ifRate == IfRate(p.mode) && r.demod == DemodState(0.0, 1.0, 0.0) && r.deemphPrev == 0.0
      && r.consumed == (if IfRate(p.mode) == s.tuning.ifRate then s.consumed else [])
  {
    var bw := OrDefault(p.bandwidth, DefaultBandwidth);
    if p.mode == s.tuning.mode then s.(tuning := s.tuning.(bandwidth := bw))
    else
      var rate := IfRate(p.mode);
      VfoSnapshot(Tuning(p.mode, rate, bw), DemodState(0.0, 1.0, 0.0), 0.0,
        if rate != s.tuning.ifRate then [] else s.consumed)
  }

  /** A second configuration with the same settings changes nothing. */
  lemma ConfiguredIdempotent(p: VfoParams, s: VfoSnapshot)
    ensures Configured(p, Configured(p, s)) == Configured(p, s)
  {
  }

  /**
   * The FM path from a configured state: no audio when the native pipeline
   * produced none; otherwise its audio, de-emphasised unless the setting is
   * `none`, then clipped.
   */
  function FmProcessing(p: VfoParams, s: VfoSnapshot, produced: seq<real>): Processing
  {
    if |produced| == 0 then Processing(Silent, s)
    else if p.deEmphasis == "none" then Processing(Audio(MapReal(produced, Clip)), s)
    else
      var alpha := DeemphAlpha(p.deEmphasis);
      Processing(Audio(MapReal(Deemph(produced, alpha, s.deemphPrev), Clip)),
                 s.(deemphPrev := DeemphFinal(produced, alpha, s.deemphPrev)))
  }

  /**
   * The I/Q path from a configured state: no audio without I/Q pairs; a
   * squelched block is zeros, an open one is demodulated; a block past the
   * resampler's delay line fails; otherwise the resampler's next output,
   * clipped when open, or nothing when it returns nothing.
   */
  function IfProcessing(m: Transcendentals, p: VfoParams, s: VfoSnapshot, produced: seq<real>): Processing
    requires m.pi != 0.0 && s.tuning.ifRate > 0
  {
    var n := |produced| / 2;
    if n == 0 then Processing(Silent, s)
    else
      var c := Channel(s.tuning.ifRate as real, s.tuning.bandwidth, CwTone, m);
      var squelched := Squelched(m, p, produced, n);
      var run := Run(p.mode, c, s.demod, produced, n);
      var block := if squelched then Zeros(n) else run.samples;
      var demod := if squelched then s.demod else run.state;
      if n > Resampling.MaxBlock then Processing(Failed, s.(demod := demod))
      else
        var out := AudioResampled(m, s.tuning.ifRate, s.consumed, block);
        Processing(if |out| == 0 then Silent else if squelched then Audio(out) else Audio(MapReal(out, Clip)),
                   s.(demod := demod, consumed := s.consumed + block))
  }

  /** `res` and `after` are the audio and the state `processVfoAudio` yields from state `before`. */
  predicate ProcessedFrom(m: Transcendentals, p: VfoParams, before: VfoSnapshot, produced: seq<real>,
                          res: VfoAudio, after: VfoSnapshot)
  {
    m.pi != 0.0 && before.tuning.ifRate > 0 && VfoProcessing(m, p, before, produced) == Processing(res, after)
  }

  /**
   * `processVfoAudio` on values: nothing for a disabled VFO; otherwise
   * configure, then the FM path for `wfm` and `nfm` and the I/Q path for
   * every other mode. `produced` is what the native call writes.
   */
  function VfoProcessing(m: Transcendentals, p: VfoParams, s: VfoSnapshot, produced: seq<real>): Processing
    requires m.pi != 0.0 && s.tuning.ifRate > 0
  {
    if !p.enabled then Processing(Silent, s)
    else if p.mode == "wfm" || p.mode == "nfm" then FmProcessing(p, Configured(p, s), produced)
    else IfProcessing(m, p, Configured(p, s), produced)
  }

  /**
   * Up to the hard clip, the audio an I/Q mode yields is the next stretch of
   * its resampler's stream: the block is appended to what the resampler has
   * consumed, and the audio is what the stream gains by it. With
   * `Configured` keeping `consumed` while the mode stays, consecutive
   * transfers therefore play one seamless stream.
   */
  lemma AudioContinuesStream(m: Transcendentals, p: VfoParams, s: VfoSnapshot, produced: seq<real>)
    requires m.pi != 0.0 && s.tuning.ifRate > 0
    requires p.enabled && p.mode != "wfm" && p.mode != "nfm"
    ensures var c := Configured(p, s);
      var r := VfoProcessing(m, p, s, produced);
      var earlier := AudioStream(m, c.tuning.ifRate, c.consumed);
      var stream := AudioStream(m, c.tuning.ifRate, r.after.consumed);
      && r.after.tuning == c.tuning
      && c.consumed <= r.after.consumed
      && earlier <= stream
      && (r.audio.Audio? ==>
            && |r.audio.samples| == |stream| - |earlier|
            && forall i :: 0 <= i < |r.audio.samples| ==> Clip(r.audio.samples[i]) == Clip(stream[|earlier| + i]))
      && (!r.audio.Audio? ==> stream == earlier)
  {

  }

  /** The FM paths always yield hard-clipped audio, one sample per sample the native pipeline produced. */
  lemma FmAudioClipped(m: Transcendentals, p: VfoParams, s: VfoSnapshot, produced: seq<real>)
    requires m.pi != 0.0 && s.tuning.ifRate > 0
    requires p.enabled && (p.mode == "wfm" || p.mode == "nfm")
    ensures var r := VfoProcessing(m, p, s, produced);
      && !r.audio.Failed?
      && (r.audio.Silent? <==> |produced| == 0)
      && (r.audio.Audio? ==> |r.audio.samples| == |produced| && forall i :: 0 <= i < |produced| ==> -1.0 <= r.audio.samples[i] <= 1.0)
  {
  }

  /** `new RationalResampler(ifRate, AUDIO_RATE)`. */
  method NewAudioResampler(m: Transcendentals, ifRate: nat) returns (r: Resampling.RationalResampler)
    requires m.pi != 0.0 && ifRate > 0
    ensures r.Valid() && fresh(r.Repr)
    ensures r.inRate == ifRate && r.outRate == AudioRate && r.Consumed() == []
    ensures r.resamp.taps == Resampling.PrototypeTaps(m, ifRate, AudioRate)
  {
    r := new Resampling.RationalResampler(m, ifRate, AudioRate);
  }

  /** The body of the demodulation loops, from state `st0`; returns the samples and the final state. */
  method DemodulateInto(mode: string, c: Channel, st0: DemodState, iq: seq<real>, count: nat)
    returns (out: array<real>, st: DemodState)
    requires c.ifRate > 0.0 && 2 * count <= |iq|
    ensures fresh(out)
    ensures out[..] == Run(mode, c, st0, iq, count).samples
    ensures st == Run(mode, c, st0, iq, count).state
  {
    out := new real[count];
    st := st0;
    var i := 0;
    while i < count
      invariant 0 <= i <= count
      invariant out[..i] == Run(mode, c, st0, iq, i).samples
      invariant st == Run(mode, c, st0, iq, i).state
    {
      var s := Step(mode, c, st, iq[i * 2], iq[i * 2 + 1]);
      assert 2 * (i + 1 - 1) == i * 2;
      out[i] := s.sample;
      st := s.state;
      assert out[..i + 1] == out[..i] + [s.sample];
      i := i + 1;
    }
    assert out[..count] == out[..];
  }

  /** The body of the de-emphasis loop over `a`, starting from filter state `prev`; returns the final state. */
  method DeemphInPlace(a: array<real>, alpha: real, prev: real) returns (last: real)
    modifies a
    ensures a[..] == Deemph(old(a[..]), alpha, prev)
    ensures last == DeemphFinal(old(a[..]), alpha, prev)
  {
    ghost var xs := a[..];
    last := prev;
    var i := 0;
    while i < a.Length
      invariant 0 <= i <= a.Length
      invariant a[..i] == Deemph(xs[..i], alpha, prev)
      invariant a[i..] == xs[i..]
      invariant last == DeemphFinal(xs[..i], alpha, prev)
    {
      ghost var next := xs[..i + 1];
      assert next[..|next| - 1] == xs[..i] && next[|next| - 1] == xs[i];
      assert a[i] == xs[i] by {
        assert a[i..][0] == xs[i..][0];
      }
      last := alpha * a[i] + (1.0 - alpha) * last;
      assert last == DeemphFinal(next, alpha, prev);
      assert Deemph(next, alpha, prev) == Deemph(xs[..i], alpha, prev) + [last];
      a[i] := last;
      assert a[..i + 1] == a[..i] + [a[i]];
      assert a[i + 1..] == xs[i + 1..] by {
        assert forall j :: i + 1 <= j < a.Length ==> a[j] == xs[j];
      }
      i := i + 1;
    }
    assert xs[..a.Length] == xs;
    assert a[..a.Length] == a[..];
  }

  /** What the DDC was last told: `lastMode`, `currentIfRate` and `lastBandwidth`. */
  datatype Tuning = Tuning(mode: string, ifRate: nat, bandwidth: real)

  /**
   * `makeVfoState()` and the state it is then updated to. The AM, AGC and
   * translator state of the demodulator is held as one `DemodState`, the
   * mode, IF rate and bandwidth last sent to the DDC as one `Tuning`;
   * `carrierAgcGain` is never written after creation, and `cwTone` is the
   * constant `CwTone`.
   */
  class VfoState {
    const m: Transcendentals
    const carrierAgcGain: real
    var demod: DemodState
    var deemphPrev: real
    var chunkCount: nat
    var tuning: Tuning
    var audioResampler: Resampling.RationalResampler

    ghost predicate Valid()
      reads this, audioResampler, audioResampler.Repr
    {
      && m.pi != 0.0
      && this !in audioResampler.Repr
      && audioResampler.Valid()
      && tuning.ifRate > 0
      && audioResampler.inRate == tuning.ifRate
      && audioResampler.outRate == AudioRate
      && audioResampler.resamp.taps == Resampling.PrototypeTaps(m, tuning.ifRate, AudioRate)
    }

    /** The state as values. */
    ghost function Snapshot(): VfoSnapshot
      reads this, audioResampler, audioResampler.resamp
    {
      VfoSnapshot(tuning, demod, deemphPrev, audioResampler.Consumed())
    }

    /** Fresh state: zero filters, unit gains, a 700 Hz CW tone, the NFM IF rate and no mode seen yet. */
    constructor (m: Transcendentals)
      requires m.pi != 0.0
      ensures Valid() && fresh(audioResampler.Repr)
      ensures this.m == m && carrierAgcGain == 1.0
      ensures demod == DemodState(0.0, 1.0, 0.0) && deemphPrev == 0.0 && chunkCount == 0
      ensures tuning == Tuning("", 50000, DefaultBandwidth)
      ensures audioResampler.Consumed() == []
    {
      this.m := m;
      carrierAgcGain := 1.0;
      demod := DemodState(0.0, 1.0, 0.0);
      deemphPrev := 0.0;
      chunkCount := 0;
      var r := NewAudioResampler(m, 50000);
      audioResampler := r;
      tuning := Tuning("", 50000, DefaultBandwidth);
    }

    /**
     * The first part of `processVfoAudio`: retune, handle a mode switch,
     * then bandwidth and squelch.
     */
    method Configure(ddc: Native.DspProcessor, p: VfoParams, centerFreq: real, sampleRate: real)
      requires Valid()
      modifies this`demod, this`deemphPrev, this`tuning, this`audioResampler, ddc
      ensures Valid()
      ensures ddc.log == old(ddc.log) + ConfigureCalls(old(tuning.mode), old(tuning.ifRate), old(tuning.bandwidth), p, centerFreq, sampleRate)
      ensures tuning.mode == p.mode && tuning.bandwidth == OrDefault(p.bandwidth, DefaultBandwidth)
      ensures p.mode != old(tuning.mode) ==>
        && deemphPrev == 0.0 && demod == DemodState(0.0, 1.0, 0.0) && tuning.ifRate == IfRate(p.mode)
      ensures p.mode == old(tuning.mode) ==>
        && deemphPrev == old(deemphPrev) && demod == old(demod) && tuning.ifRate == old(tuning.ifRate)
      ensures p.mode != old(tuning.mode) && IfRate(p.mode) != old(tuning.ifRate) ==>
        fresh(audioResampler.Repr) && audioResampler.Consumed() == []
      ensures !(p.mode != old(tuning.mode) && IfRate(p.mode) != old(tuning.ifRate)) ==>
        audioResampler == old(audioResampler)
      ensures Snapshot() == Configured(p, old(Snapshot()))
    {
      ghost var log0 := ddc.log;
      ghost var retuneCalls := Retune(ddc, p, centerFreq, sampleRate);
      ghost var filterCalls := Filters(ddc, p);
      AppendThree(log0, retuneCalls, filterCalls);
    }

    /** The bandwidth update and the squelch that close the configuration. Returns the DDC calls made. */
    method Filters(ddc: Native.DspProcessor, p: VfoParams) returns (ghost calls: seq<Native.DdcCall>)
      modifies this`tuning, ddc
      ensures calls == FilterCalls(old(tuning.bandwidth), p)
      ensures ddc.log == old(ddc.log) + calls
      ensures tuning == old(tuning).(bandwidth := OrDefault(p.bandwidth, DefaultBandwidth))
    {
      ghost var log0 := ddc.log;
      ghost var bwCalls := UpdateBandwidth(ddc, OrDefault(p.bandwidth, DefaultBandwidth));
      var squelch := Native.SetSquelch(OrDefault(p.squelchLevel, -100.0), p.squelchEnabled);
      ddc.Call(squelch);
      AppendThree(log0, bwCalls, [squelch]);
      calls := bwCalls + [squelch];
    }

    /** The retune and the mode-switch handling that open `processVfoAudio`. Returns the DDC calls made. */
    method Retune(ddc: Native.DspProcessor, p: VfoParams, centerFreq: real, sampleRate: real)
      returns (ghost calls: seq<Native.DdcCall>)
      requires Valid()
      modifies this`demod, this`deemphPrev, this`tuning, this`audioResampler, ddc
      ensures Valid()
      ensures calls == RetuneCalls(old(tuning.mode), old(tuning.ifRate), p, centerFreq, sampleRate)
      ensures ddc.log == old(ddc.log) + calls
      ensures tuning.mode == p.mode && tuning.bandwidth == old(tuning.bandwidth)
      ensures p.mode != old(tuning.mode) ==>
        && deemphPrev == 0.0 && demod == DemodState(0.0, 1.0, 0.0) && tuning.ifRate == IfRate(p.mode)
      ensures p.mode == old(tuning.mode) ==>
        && deemphPrev == old(deemphPrev) && demod == old(demod) && tuning.ifRate == old(tuning.ifRate)
      ensures p.mode != old(tuning.mode) && IfRate(p.mode) != old(tuning.ifRate) ==>
        fresh(audioResampler.Repr) && audioResampler.Consumed() == []
      ensures !(p.mode != old(tuning.mode) && IfRate(p.mode) != old(tuning.ifRate)) ==>
        audioResampler == old(audioResampler)
    {
      ghost var log0 := ddc.log;
      var shift := Native.SetShift(sampleRate, (p.freq - centerFreq) * 1000000.0);
      ddc.Call(shift);
      ghost var switchCalls := HandleModeSwitch(ddc, p.mode);
      AppendThree(log0, [shift], switchCalls);
      calls := [shift] + switchCalls;
    }

    /**
     * On a mode switch: remember the mode, reset the demodulator and
     * de-emphasis state, set the WFM flag, and either move to the mode's IF
     * rate with a new audio resampler or, when the rate is unchanged, reset
     * the DDC. Returns the DDC calls made.
     */
    method HandleModeSwitch(ddc: Native.DspProcessor, mode: string) returns (ghost calls: seq<Native.DdcCall>)
      requires Valid()
      modifies this`demod, this`deemphPrev, this`tuning, this`audioResampler, ddc
      ensures Valid()
      ensures calls == ModeSwitchCalls(old(tuning.mode), old(tuning.ifRate), mode)
      ensures ddc.log == old(ddc.log) + calls
      ensures mode == old(tuning.mode) ==>
        && tuning == old(tuning) && deemphPrev == old(deemphPrev) && demod == old(demod) && audioResampler == old(audioResampler)
      ensures mode != old(tuning.mode) ==>
        && tuning == Tuning(mode, IfRate(mode), old(tuning.bandwidth))
        && deemphPrev == 0.0 && demod == DemodState(0.0, 1.0, 0.0)
      ensures mode != old(tuning.mode) && IfRate(mode) != old(tuning.ifRate) ==>
        fresh(audioResampler.Repr) && audioResampler.Consumed() == []
      ensures !(mode != old(tuning.mode) && IfRate(mode) != old(tuning.ifRate)) ==> audioResampler == old(audioResampler)
    {
      calls := [];
      if mode == tuning.mode {
        return;
      }
      tuning := tuning.(mode := mode);
      deemphPrev := 0.0;
      demod := DemodState(0.0, 1.0, 0.0);
      var wfm := Native.SetWfmMode(mode == "wfm");
      ddc.Call(wfm);
      var newIfRate := IfRate(mode);
      if newIfRate != tuning.ifRate {
        tuning := tuning.(ifRate := newIfRate);
        ddc.Call(Native.SetIfSampleRate(newIfRate));
        audioResampler := NewAudioResampler(m, newIfRate);
        calls := [wfm, Native.SetIfSampleRate(newIfRate)];
      } else {
        ddc.Call(Native.Reset);
        calls := [wfm, Native.Reset];
      }
    }

    /** Send the bandwidth to the DDC when it differs from the last one sent. Returns the DDC calls made. */
    method UpdateBandwidth(ddc: Native.DspProcessor, bw: real) returns (ghost calls: seq<Native.DdcCall>)
      modifies this`tuning, ddc
      ensures calls == BandwidthCalls(old(tuning.bandwidth), bw)
      ensures ddc.log == old(ddc.log) + calls
      ensures tuning == old(tuning).(bandwidth := bw)
    {
      calls := [];
      if bw != tuning.bandwidth {
        ddc.Call(Native.SetBandwidth(bw));
        tuning := tuning.(bandwidth := bw);
        calls := [Native.SetBandwidth(bw)];
      }
    }

    /** The de-emphasis loop: each sample replaced by the filter output, the filter state carried in `deemphPrev`. */
    method DeEmphasize(a: array<real>, alpha: real)
      modifies this`deemphPrev, a
      ensures a[..] == Deemph(old(a[..]), alpha, old(deemphPrev))
      ensures deemphPrev == DeemphFinal(old(a[..]), alpha, old(deemphPrev))
    {
      deemphPrev := DeemphInPlace(a, alpha, deemphPrev);
    }

    /**
     * The demodulation loops of the non-FM modes: one output sample per
     * I/Q pair, the AM, AGC and translator state carried in `demod`.
     */
    method DemodulateBlock(mode: string, c: Channel, iq: seq<real>, count: nat) returns (out: array<real>)
      requires c.ifRate > 0.0 && 2 * count <= |iq|
      modifies this`demod
      ensures fresh(out)
      ensures out[..] == Run(mode, c, old(demod), iq, count).samples
      ensures demod == Run(mode, c, old(demod), iq, count).state
    {
      out, demod := DemodulateInto(mode, c, demod, iq, count);
    }

    /** The FM path: the native pipeline's audio, de-emphasised unless the setting is `none`, then clipped. */
    method FmAudio(ddc: Native.DspProcessor, p: VfoParams, signed: seq<int>, produced: seq<real>, capacity: nat)
      returns (res: VfoAudio)
      requires |produced| <= capacity
      modifies this`deemphPrev, ddc
      ensures ddc.log == old(ddc.log) + [Native.Process(|signed|, |produced|)]
      ensures |produced| == 0 ==> res == Silent && deemphPrev == old(deemphPrev)
      ensures |produced| > 0 && p.deEmphasis != "none" ==>
        && res == Audio(MapReal(Deemph(produced, DeemphAlpha(p.deEmphasis), old(deemphPrev)), Clip))
        && deemphPrev == DeemphFinal(produced, DeemphAlpha(p.deEmphasis), old(deemphPrev))
      ensures |produced| > 0 && p.deEmphasis == "none" ==> res == Audio(MapReal(produced, Clip)) && deemphPrev == old(deemphPrev)
      ensures Processing(res, Snapshot()) == FmProcessing(p, old(Snapshot()), produced)
    {
      var numAudioSamples := ddc.ProcessAudio(signed, produced, capacity);
      if numAudioSamples == 0 {
        return Silent;
      }
      var result := new real[numAudioSamples](i requires 0 <= i < numAudioSamples => produced[i]);
      assert result[..] == produced;
      if p.deEmphasis != "none" {
        DeEmphasize(result, DeemphAlpha(p.deEmphasis));
      }
      ClipInPlace(result);
      res := Audio(result[..]);
    }

    /**
     * The non-FM path: the native pipeline's I/Q at the IF rate, measured
     * for squelch; a squelched block becomes zeros of the same length, an
     * open one is demodulated with the bandwidth last sent; either goes
     * through the audio resampler, and open audio is clipped.
     */
    method IfAudio(ddc: Native.DspProcessor, p: VfoParams, signed: seq<int>, produced: seq<real>, capacity: nat)
      returns (res: VfoAudio)
      requires Valid() && |produced| <= capacity && |produced| % 2 == 0
      modifies this`demod, ddc, audioResampler.resamp, audioResampler.resamp.buffer
      ensures Valid()
      ensures ddc.log == old(ddc.log) + [Native.ProcessIqOnly(|signed|, |produced|)]
      ensures Processing(res, Snapshot()) == IfProcessing(m, p, old(Snapshot()), produced)
    {
      var numOutValues := ddc.ProcessIq(signed, produced, capacity);
      var numDemodSamples := numOutValues / 2;
      if numDemodSamples == 0 {
        return Silent;
      }
      var squelchDb := MeasureSquelch(m, produced, numDemodSamples);
      var squelched := p.squelchEnabled && squelchDb < p.squelchLevel;
      var block: seq<real>;
      if squelched {
        block := Zeros(numDemodSamples);
      } else {
        var c := Channel(tuning.ifRate as real, tuning.bandwidth, CwTone, m);
        var audioDemodRateSamples := DemodulateBlock(p.mode, c, produced, numDemodSamples);
        block := audioDemodRateSamples[..];
      }
      if numDemodSamples > Resampling.MaxBlock {
        return Failed;
      }
      res := Resample(block, !squelched);
    }

    /**
     * Feed one block to the audio resampler; no audio when it returns
     * nothing, otherwise its output, clipped when `clip` holds.
     */
    method Resample(block: seq<real>, clip: bool) returns (res: VfoAudio)
      requires Valid() && |block| <= Resampling.MaxBlock
      modifies audioResampler.resamp, audioResampler.resamp.buffer
      ensures Valid()
      ensures audioResampler.Consumed() == old(audioResampler.Consumed()) + block
      ensures var out := AudioResampled(m, tuning.ifRate, old(audioResampler.Consumed()), block);
        res == if |out| == 0 then Silent else if clip then Audio(MapReal(out, Clip)) else Audio(out)
    {
      ghost var before := audioResampler.Consumed();
      var out := audioResampler.Process(block);
      StreamIsOutput(before);
      StreamIsOutput(before + block);
      AppendCancel(AudioStream(m, tuning.ifRate, before), out, AudioResampled(m, tuning.ifRate, before, block));
      if |out| == 0 {
        return Silent;
      }
      if !clip {
        return Audio(out);
      }
      var result := new real[|out|](i requires 0 <= i < |out| => out[i]);
      assert result[..] == out;
      ClipInPlace(result);
      res := Audio(result[..]);
    }

    /** The audio resampler's owed output for `xs` is the audio stream for the current IF rate. */
    lemma StreamIsOutput(xs: seq<real>)
      requires Valid()
      ensures AudioStream(m, tuning.ifRate, xs)
        == Resampling.Resampled(audioResampler.resamp.taps, audioResampler.resamp.interp, audioResampler.resamp.decim, xs)
    {
    }

    /** `vfoStates[v].chunkCount++`: one more transfer seen. */
    method Tick()
      requires Valid()
      modifies this`chunkCount
      ensures Valid() && chunkCount == old(chunkCount) + 1
    {
      chunkCount := chunkCount + 1;
    }

    /** `processVfoAudio` for an enabled FM VFO: retune, then the FM path. */
    method ConfiguredFm(ddc: Native.DspProcessor, p: VfoParams, centerFreq: real, sampleRate: real,
                        signed: seq<int>, produced: seq<real>, capacity: nat)
      returns (res: VfoAudio)
      requires Valid() && |produced| <= capacity && (p.mode == "wfm" || p.mode == "nfm")
      modifies this`demod, this`deemphPrev, this`tuning, this`audioResampler, ddc
      modifies audioResampler.resamp, audioResampler.resamp.buffer
      ensures Valid()
      ensures audioResampler == old(audioResampler) || fresh(audioResampler.Repr)
      ensures ddc.log == old(ddc.log) + ConfigureCalls(old(tuning.mode), old(tuning.ifRate), old(tuning.bandwidth), p, centerFreq, sampleRate)
        + [Native.Process(|signed|, |produced|)]
      ensures Processing(res, Snapshot()) == FmProcessing(p, Configured(p, old(Snapshot())), produced)
    {
      Configure(ddc, p, centerFreq, sampleRate);
      res := FmAudio(ddc, p, signed, produced, capacity);
    }

    /** `processVfoAudio` for an enabled non-FM VFO: retune, then the IF path. */
    method ConfiguredIf(ddc: Native.DspProcessor, p: VfoParams, centerFreq: real, sampleRate: real,
                        signed: seq<int>, produced: seq<real>, capacity: nat)
      returns (res: VfoAudio)
      requires Valid() && |produced| <= capacity && p.mode != "wfm" && p.mode != "nfm" && |produced| % 2 == 0
      modifies this`demod, this`deemphPrev, this`tuning, this`audioResampler, ddc
      modifies audioResampler.resamp, audioResampler.resamp.buffer
      ensures Valid()
      ensures audioResampler == old(audioResampler) || fresh(audioResampler.Repr)
      ensures ddc.log == old(ddc.log) + ConfigureCalls(old(tuning.mode), old(tuning.ifRate), old(tuning.bandwidth), p, centerFreq, sampleRate)
        + [Native.ProcessIqOnly(|signed|, |produced|)]
      ensures Processing(res, Snapshot()) == IfProcessing(m, p, Configured(p, old(Snapshot())), produced)
    {
      Configure(ddc, p, centerFreq, sampleRate);
      res := IfAudio(ddc, p, signed, produced, capacity);
    }

    /**
     * `processVfoAudio(signed, ddc, params, vfoState, ddcOut)`: nothing for
     * a disabled VFO; otherwise configure, then take the FM path for `wfm`
     * and `nfm` and the I/Q path for everything else. `produced` is what the
     * native call writes into the `capacity`-sized output buffer.
     */
    method ProcessVfoAudio(ddc: Native.DspProcessor, p: VfoParams, centerFreq: real, sampleRate: real,
                           signed: seq<int>, produced: seq<real>, capacity: nat)
      returns (res: VfoAudio)
      requires Valid() && |produced| <= capacity
      requires p.mode != "wfm" && p.mode != "nfm" ==> |produced| % 2 == 0
      modifies this`demod, this`deemphPrev, this`tuning, this`audioResampler, ddc
      modifies audioResampler.resamp, audioResampler.resamp.buffer
      ensures Valid()
      ensures audioResampler == old(audioResampler) || fresh(audioResampler.Repr)
      ensures !p.enabled ==> ddc.log == old(ddc.log) && audioResampler == old(audioResampler)
      ensures var fm := p.mode == "wfm" || p.mode == "nfm";
        var configured := old(ddc.log) + ConfigureCalls(old(tuning.mode), old(tuning.ifRate), old(tuning.bandwidth), p, centerFreq, sampleRate);
        p.enabled ==> ddc.log == configured + [if fm then Native.Process(|signed|, |produced|) else Native.ProcessIqOnly(|signed|, |produced|)]
      ensures Processing(res, Snapshot()) == VfoProcessing(m, p, old(Snapshot()), produced)
    {
      if !p.enabled {
        return Silent;
      }
      if p.mode == "wfm" || p.mode == "nfm" {
        res := ConfiguredFm(ddc, p, centerFreq, sampleRate, signed, produced, capacity);
      } else {
        res := ConfiguredIf(ddc, p, centerFreq, sampleRate, signed, produced, capacity);
      }
    }

    /**
     * One pass of the worker's VFO loop over this state: `chunkCount++`,
     * then `processVfoAudio`; a disabled VFO yields silence and leaves its
     * DDC alone.
     */
    method Pass(ddc: Native.DspProcessor, p: VfoParams, centerFreq: real, sampleRate: real,
                signed: seq<int>, produced: seq<real>, capacity: nat)
      returns (res: VfoAudio)
      requires Valid() && |produced| <= capacity
      requires p.mode != "wfm" && p.mode != "nfm" ==> |produced| % 2 == 0
      modifies this`chunkCount, this`demod, this`deemphPrev, this`tuning, this`audioResampler, ddc
      modifies audioResampler.resamp, audioResampler.resamp.buffer
      ensures Valid() && chunkCount == old(chunkCount) + 1
      ensures audioResampler == old(audioResampler) || fresh(audioResampler.Repr)
      ensures !p.enabled ==> ddc.log == old(ddc.log)
      ensures ddc.log == old(ddc.log) + PassCalls(old(tuning), p, centerFreq, sampleRate, |signed|, |produced|)
      ensures ProcessedFrom(m, p, old(Snapshot()), produced, res, Snapshot())
    {
      Tick();
      res := ProcessVfoAudio(ddc, p, centerFreq, sampleRate, signed, produced, capacity);
    }
  }
}
