/**
 * The sample-by-sample audio arithmetic of the worker: the AGC gain
 * update, the phase accumulator of the SSB/CW frequency translator, the
 * per-mode demodulation step for the non-FM modes (AM, USB, LSB, DSB, CW,
 * raw, silence for anything else), the FM de-emphasis filter, the squelch
 * level and the hard clip. Each loop of the source is a method proved
 * equal to a function over the whole block.
 */
module Demod {
  import opened Common

  function Abs(x: real): real
  {
    if x < 0.0 then -x else x
  }

  /** A convex combination of two values lies between them. */
  lemma Convex(a: real, b: real, w: real)
    requires 0.0 <= w <= 1.0
    ensures RealMin(a, b) <= a * (1.0 - w) + b * w <= RealMax(a, b)
  {
    assert a * (1.0 - w) + b * w == a + (b - a) * w;
    var d := b - a;
    assert d * w + d * (1.0 - w) == d;
    var e := if a <= b then d else -d;
    MulNonNegative(e, w);
    MulNonNegative(e, 1.0 - w);
    assert d * w == if a <= b then e * w else -(e * w);
    assert d * (1.0 - w) == if a <= b then e * (1.0 - w) else -(e * (1.0 - w));
  }

  lemma MulNonNegative(x: real, y: real)
    requires x >= 0.0 && y >= 0.0
    ensures x * y >= 0.0
  {
  }

  /**
   * One AGC update: attack `50 / ifRate` when the sample magnitude exceeds
   * the gain, decay `5 / ifRate` otherwise. For every IF rate of at least
   * 50 Hz the new gain lies between the old gain and the magnitude.
   */
  function AgcStep(gain: real, absSample: real, ifRate: real): (g: real)
    requires ifRate > 0.0
    ensures ifRate >= 50.0 ==> RealMin(gain, absSample) <= g <= RealMax(gain, absSample)
    ensures ifRate > 50.0 && gain > 0.0 && absSample >= 0.0 ==> g > 0.0
  {
    var attack := 50.0 / ifRate;
    var decay := 5.0 / ifRate;
    AgcRates(gain, absSample, ifRate);
    if absSample > gain then gain * (1.0 - attack) + absSample * attack
    else gain * (1.0 - decay) + absSample * decay
  }

  lemma AgcRates(gain: real, absSample: real, ifRate: real)
    requires ifRate > 0.0
    ensures var attack := 50.0 / ifRate; var decay := 5.0 / ifRate;
      && (ifRate >= 50.0 ==>
        && RealMin(gain, absSample) <= gain * (1.0 - attack) + absSample * attack <= RealMax(gain, absSample)
        && RealMin(gain, absSample) <= gain * (1.0 - decay) + absSample * decay <= RealMax(gain, absSample))
      && (ifRate > 50.0 && gain > 0.0 ==> gain * (1.0 - attack) > 0.0 && gain * (1.0 - decay) > 0.0)
  {
    var attack := 50.0 / ifRate;
    var decay := 5.0 / ifRate;
    if ifRate >= 50.0 {
      assert 0.0 < attack <= 1.0 && 0.0 < decay <= 1.0 by {
        assert 50.0 / ifRate <= 1.0;
        assert 5.0 / ifRate <= 1.0;
      }
      Convex(gain, absSample, attack);
      Convex(gain, absSample, decay);
    }
    if ifRate > 50.0 && gain > 0.0 {
      assert attack < 1.0 && decay < 1.0 by {
        assert 50.0 / ifRate < 1.0;
        assert 5.0 / ifRate < 1.0;
      }
      assert gain * (1.0 - attack) > 0.0 && gain * (1.0 - decay) > 0.0;
    }
  }

  /** `agcGain > 1e-6 ? 0.5 / agcGain : 1.0`: the output scale that brings the tracked envelope to 0.5. */
  function AgcScale(gain: real): (s: real)
    ensures s > 0.0
    ensures gain > 0.000001 ==> s * gain == 0.5
    ensures gain <= 0.000001 ==> s == 1.0
  {
    if gain > 0.000001 then 0.5 / gain else 1.0
  }

  /** The translator's phase update: add the increment, then fold back once into [-pi, pi]. */
  function WrapPhase(phase: real, inc: real, pi: real): (r: real)
    ensures r == phase + inc || r == phase + inc - 2.0 * pi || r == phase + inc + 2.0 * pi
  {
    var p := phase + inc;
    var p1 := if p > pi then p - 2.0 * pi else p;
    if p1 < -pi then p1 + 2.0 * pi else p1
  }

  /** A phase in [-pi, pi] stays there under any increment of at most one full turn. */
  lemma WrapPhaseInRange(phase: real, inc: real, pi: real)
    requires pi > 0.0 && -pi <= phase <= pi && -2.0 * pi <= inc <= 2.0 * pi
    ensures -pi <= WrapPhase(phase, inc, pi) <= pi
  {
  }

  /** With an increment above one full turn, a single fold can leave the phase outside [-pi, pi]. */
  lemma OneFoldIsNotEnough(pi: real)
    requires pi > 0.0
    ensures WrapPhase(pi, 3.0 * pi, pi) == 2.0 * pi > pi
  {
  }

  /** The demodulator state a VFO carries from block to block. */
  datatype DemodState = DemodState(dcAvg: real, agcGain: real, ssbPhase: real)

  /** What the demodulator reads besides the samples: the IF rate, the bandwidth, the CW tone and the math functions. */
  datatype Channel = Channel(ifRate: real, bw: real, cwTone: real, m: Transcendentals)

  predicate IsTranslated(mode: string)
  {
    mode == "usb" || mode == "lsb" || mode == "dsb" || mode == "cw"
  }

  /** The per-sample phase increment `(shiftFreq / ifRate) * 2 * pi` of the translating modes. */
  function PhaseIncrement(mode: string, c: Channel): real
    requires c.ifRate > 0.0
  {
    var shift :=
      if mode == "usb" then c.bw / 2.0
      else if mode == "lsb" then -c.bw / 2.0
      else if mode == "cw" then OrDefault(c.cwTone, 700.0)
      else 0.0;
    (shift / c.ifRate) * 2.0 * c.m.pi
  }

  /** LSB shifts by the opposite of USB's increment; AM, FM and the other untranslated modes do not rotate. */
  lemma SidebandsMirror(c: Channel)
    requires c.ifRate > 0.0
    ensures PhaseIncrement("lsb", c) == -PhaseIncrement("usb", c)
    ensures PhaseIncrement("am", c) == 0.0 && PhaseIncrement("raw", c) == 0.0
  {
  }

  datatype Stepped = Stepped(sample: real, state: DemodState)

  /** One iteration of the demodulation loop of `mode` on the pair `(dI, dQ)`. */
  function Step(mode: string, c: Channel, st: DemodState, dI: real, dQ: real): (s: Stepped)
    requires c.ifRate > 0.0
    ensures !IsTranslated(mode) ==> s.state.ssbPhase == st.ssbPhase
    ensures mode != "am" ==> s.state.dcAvg == st.dcAvg
    ensures mode == "raw" ==> s == Stepped(dI, st)
    ensures mode != "am" && !IsTranslated(mode) && mode != "raw" ==> s == Stepped(0.0, st)
  {
    if mode == "am" then
      var mag := Magnitude(c.m, dI, dQ);
      var dcAvg := 0.9999 * st.dcAvg + (1.0 - 0.9999) * mag;
      var demod := mag - dcAvg;
      var gain := AgcStep(st.agcGain, Abs(demod), c.ifRate);
      Stepped(demod * AgcScale(gain), DemodState(dcAvg, gain, st.ssbPhase))
    else if IsTranslated(mode) then
      var phase := WrapPhase(st.ssbPhase, PhaseIncrement(mode, c), c.m.pi);
      var rI := dI * c.m.cos(phase) - dQ * c.m.sin(phase);
      var gain := AgcStep(st.agcGain, Abs(rI), c.ifRate);
      Stepped(rI * AgcScale(gain), DemodState(st.dcAvg, gain, phase))
    else if mode == "raw" then
      Stepped(dI, st)
    else
      Stepped(0.0, st)
  }

  datatype Ran = Ran(samples: seq<real>, state: DemodState)

  /** The first `k` pairs of the interleaved block `iq` demodulated from state `st`. */
  function Run(mode: string, c: Channel, st: DemodState, iq: seq<real>, k: nat): (r: Ran)
    requires c.ifRate > 0.0 && 2 * k <= |iq|
    ensures |r.samples| == k
  {
    if k == 0 then Ran([], st)
    else
      var prev := Run(mode, c, st, iq, k - 1);
      var s := Step(mode, c, prev.state, iq[2 * (k - 1)], iq[2 * (k - 1) + 1]);
      Ran(prev.samples + [s.sample], s.state)
  }

  /** `raw` passes the in-phase components through and leaves the state alone. */
  lemma {:induction false} RawRun(c: Channel, st: DemodState, iq: seq<real>, k: nat)
    requires c.ifRate > 0.0 && 2 * k <= |iq|
    ensures Run("raw", c, st, iq, k).state == st
    ensures forall i :: 0 <= i < k ==> Run("raw", c, st, iq, k).samples[i] == iq[2 * i]
  {
    if k > 0 {
      RawRun(c, st, iq, k - 1);
    }
  }

  /** A mode without a demodulator produces silence and leaves the state alone. */
  lemma {:induction false} SilentRun(mode: string, c: Channel, st: DemodState, iq: seq<real>, k: nat)
    requires mode != "am" && !IsTranslated(mode) && mode != "raw"
    requires c.ifRate > 0.0 && 2 * k <= |iq|
    ensures Run(mode, c, st, iq, k) == Ran(Zeros(k), st)
  {
    if k > 0 {
      SilentRun(mode, c, st, iq, k - 1);
      assert Zeros(k - 1) + [0.0] == Zeros(k);
    }
  }

  /** With increments of at most one turn the translator phase never leaves [-pi, pi]. */
  lemma {:induction false} PhaseStaysWrapped(mode: string, c: Channel, st: DemodState, iq: seq<real>, k: nat)
    requires c.ifRate > 0.0 && 2 * k <= |iq| && c.m.pi > 0.0
    requires -c.m.pi <= st.ssbPhase <= c.m.pi
    requires -2.0 * c.m.pi <= PhaseIncrement(mode, c) <= 2.0 * c.m.pi
    ensures -c.m.pi <= Run(mode, c, st, iq, k).state.ssbPhase <= c.m.pi
  {
    if k > 0 {
      PhaseStaysWrapped(mode, c, st, iq, k - 1);
      var prev := Run(mode, c, st, iq, k - 1);
      WrapPhaseInRange(prev.state.ssbPhase, PhaseIncrement(mode, c), c.m.pi);
    }
  }

  /** Above 50 Hz of IF rate the AGC gain stays positive, so its scale is always finite. */
  lemma {:induction false} AgcStaysPositive(mode: string, c: Channel, st: DemodState, iq: seq<real>, k: nat)
    requires c.ifRate > 50.0 && 2 * k <= |iq| && st.agcGain > 0.0
    ensures Run(mode, c, st, iq, k).state.agcGain > 0.0
  {
    if k > 0 {
      AgcStaysPositive(mode, c, st, iq, k - 1);
    }
  }

  /** `tau` for the de-emphasis setting: 22, 50 or 75 microseconds, 50 for anything else. */
  function Tau(deEmphasis: string): (tau: real)
    ensures 0.00002 <= tau <= 0.0001
  {
    match deEmphasis
    case "22us" => 0.000022
    case "75us" => 0.000075
    case _ => 0.000050
  }

  /** `alpha = dt / (tau + dt)` with `dt = 1 / 48000`: strictly between 0 and 1. */
  function DeemphAlpha(deEmphasis: string): (alpha: real)
    ensures 0.0 < alpha < 1.0
  {
    var dt := 1.0 / 48000.0;
    var tau := Tau(deEmphasis);
    assert tau + dt > dt > 0.0;
    dt / (tau + dt)
  }

  /** The filter state after the single-pole filter `y = alpha * x + (1 - alpha) * y_prev` has run over `xs`. */
  function DeemphFinal(xs: seq<real>, alpha: real, prev: real): real
  {
    if xs == [] then prev
    else alpha * xs[|xs| - 1] + (1.0 - alpha) * DeemphFinal(xs[..|xs| - 1], alpha, prev)
  }

  /** The filter's outputs over `xs`. */
  function Deemph(xs: seq<real>, alpha: real, prev: real): (ys: seq<real>)
    ensures |ys| == |xs|
  {
    if xs == [] then []
    else Deemph(xs[..|xs| - 1], alpha, prev) + [DeemphFinal(xs, alpha, prev)]
  }

  predicate WithinBound(xs: seq<real>, b: real)
  {
    forall i :: 0 <= i < |xs| ==> -b <= xs[i] <= b
  }

  /** The de-emphasis filter never leaves the range its input and initial state lie in. */
  lemma {:induction false} DeemphBounded(xs: seq<real>, alpha: real, prev: real, b: real)
    requires 0.0 <= alpha <= 1.0 && -b <= prev <= b && WithinBound(xs, b)
    ensures -b <= DeemphFinal(xs, alpha, prev) <= b
    ensures WithinBound(Deemph(xs, alpha, prev), b)
  {
    if xs != [] {
      var init := xs[..|xs| - 1];
      assert WithinBound(init, b);
      DeemphBounded(init, alpha, prev, b);
      var p := DeemphFinal(init, alpha, prev);
      var x := xs[|xs| - 1];
      assert -b <= x <= b;
      Convex(p, x, alpha);
      assert DeemphFinal(xs, alpha, prev) == alpha * x + (1.0 - alpha) * p;
      assert -b <= p * (1.0 - alpha) + x * alpha <= b;
    }
  }

  /** Consequently, on audio already within [-1, 1] the hard clip after de-emphasis changes nothing. */
  lemma ClipAfterDeemphIsIdentity(xs: seq<real>, alpha: real, prev: real)
    requires 0.0 <= alpha <= 1.0 && -1.0 <= prev <= 1.0 && WithinBound(xs, 1.0)
    ensures MapReal(Deemph(xs, alpha, prev), Clip) == Deemph(xs, alpha, prev)
  {
    DeemphBounded(xs, alpha, prev, 1.0);
  }

  /** The hard-clip loop, in place. */
  method ClipInPlace(a: array<real>)
    modifies a
    ensures a[..] == MapReal(old(a[..]), Clip)
  {
    var i := 0;
    while i < a.Length
      invariant 0 <= i <= a.Length
      invariant forall j :: 0 <= j < i ==> a[j] == Clip(old(a[j]))
      invariant forall j :: i <= j < a.Length ==> a[j] == old(a[j])
    {
      if a[i] > 1.0 {
        a[i] := 1.0;
      } else if a[i] < -1.0 {
        a[i] := -1.0;
      }
      i := i + 1;
    }
  }

  /** Sum of the magnitudes `sqrt(I^2 + Q^2)` of the first `k` pairs. */
  function MagnitudeSum(m: Transcendentals, iq: seq<real>, k: nat): real
    requires 2 * k <= |iq|
  {
    if k == 0 then 0.0
    else MagnitudeSum(m, iq, k - 1) + Magnitude(m, iq[2 * (k - 1)], iq[2 * (k - 1) + 1])
  }

  /** `Math.sqrt(dI * dI + dQ * dQ)`. */
  function Magnitude(m: Transcendentals, dI: real, dQ: real): real
  {
    m.sqrt(dI * dI + dQ * dQ)
  }

  /** `10 * log10(mean magnitude + 1e-12)`. */
  function SquelchDb(m: Transcendentals, iq: seq<real>, k: nat): real
    requires 0 < k && 2 * k <= |iq|
  {
    10.0 * m.log10(MagnitudeSum(m, iq, k) / k as real + 0.000000000001)
  }

  /** Magnitudes are non-negative, so their sum is too. */
  lemma {:induction false} MagnitudeSumNonNegative(m: Transcendentals, iq: seq<real>, k: nat)
    requires 2 * k <= |iq|
    requires forall x :: x >= 0.0 ==> m.sqrt(x) >= 0.0
    ensures MagnitudeSum(m, iq, k) >= 0.0
  {
    if k > 0 {
      MagnitudeSumNonNegative(m, iq, k - 1);
      var a := iq[2 * (k - 1)];
      var b := iq[2 * (k - 1) + 1];
      assert a * a + b * b >= 0.0;
      assert Magnitude(m, a, b) >= 0.0;
    }
  }

  lemma MagnitudeSumStep(m: Transcendentals, iq: seq<real>, i: nat)
    requires 2 * i + 2 <= |iq|
    ensures MagnitudeSum(m, iq, i + 1) == MagnitudeSum(m, iq, i) + Magnitude(m, iq[i * 2], iq[i * 2 + 1])
  {
    assert 2 * (i + 1 - 1) == i * 2;
  }

  /** The squelch measurement loop. */
  method MeasureSquelch(m: Transcendentals, iq: seq<real>, count: nat) returns (squelchDb: real)
    requires 0 < count && 2 * count <= |iq|
    ensures squelchDb == SquelchDb(m, iq, count)
  {
    var squelchMag := 0.0;
    var i := 0;
    while i < count
      invariant 0 <= i <= count
      invariant squelchMag == MagnitudeSum(m, iq, i)
    {
      var dI := iq[i * 2];
      var dQ := iq[i * 2 + 1];
      squelchMag := squelchMag + Magnitude(m, dI, dQ);
      MagnitudeSumStep(m, iq, i);
      i := i + 1;
    }
    squelchMag := squelchMag / count as real;
    squelchDb := 10.0 * m.log10(squelchMag + 0.000000000001);
  }
}
