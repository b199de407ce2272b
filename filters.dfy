/**
 * FIR tap design (the windowed-sinc designers of the spectrum/audio worker).
 * The arithmetic is over `real`; `sin`, `cos` and `pi` come from a
 * `Transcendentals` value. What is proved is the integer bookkeeping:
 * how many taps each designer emits.
 */
module Filters {
  import opened Common

  /** Four-term Nuttall window coefficients. */
  const NuttallCoefs: seq<real> := [0.355768, 0.487396, 0.144232, 0.012604]

  /** `hzToRads`: angular frequency of `freq` at `sampleRate`. */
  function HzToRads(m: Transcendentals, freq: real, sampleRate: real): real
    requires sampleRate != 0.0
  {
    2.0 * m.pi * (freq / sampleRate)
  }

  /** `sinc(x) = sin(x)/x`, with `sinc(0) = 1`. */
  function Sinc(m: Transcendentals, x: real): real
  {
    if x == 0.0 then 1.0 else m.sin(x) / x
  }

  /** Sum, over the first `k` coefficients, of `sign * coefs[i] * cos(2 pi i n / N)` with alternating sign. */
  function CosineWindowPrefix(m: Transcendentals, n: real, bigN: real, coefs: seq<real>, k: nat): real
    requires k <= |coefs| && bigN != 0.0
  {
    if k == 0 then 0.0
    else
      var i := k - 1;
      var sign := if i % 2 == 0 then 1.0 else -1.0;
      CosineWindowPrefix(m, n, bigN, coefs, i) + sign * coefs[i] * m.cos(i as real * 2.0 * m.pi * n / bigN)
  }

  function CosineWindow(m: Transcendentals, n: real, bigN: real, coefs: seq<real>): real
    requires bigN != 0.0
  {
    CosineWindowPrefix(m, n, bigN, coefs, |coefs|)
  }

  function Nuttall(m: Transcendentals, n: real, bigN: real): real
    requires bigN != 0.0
  {
    CosineWindow(m, n, bigN, NuttallCoefs)
  }

  /**
   * `estimateTapCount`: `floor(3.8 * sampleRate / transWidth)`, plus one when
   * an odd count is requested and that floor is even (the bump every
   * designer applies right after the estimate).
   */
  function TapCount(transWidth: real, sampleRate: real, oddTapCount: bool): (count: nat)
    requires transWidth > 0.0 && sampleRate > 0.0
    ensures var est := Floor(3.8 * sampleRate / transWidth);
      && est <= count <= est + 1
      && (count == est + 1 <==> oddTapCount && est % 2 == 0)
    ensures oddTapCount ==> count % 2 == 1
  {
    var est := Floor(3.8 * sampleRate / transWidth);
    if oddTapCount && est % 2 == 0 then est + 1 else est
  }

  /** A window function `(n, N) -> w`. */
  type Window = (real, real) -> real

  /**
   * `windowedSincBase`: tap `i` is `sinc(t * omega) * window(t - half, count) * omega / pi`
   * with `half = count / 2` and `t = i - half + 0.5`.
   */
  function WindowedSincBase(m: Transcendentals, count: nat, omega: real, window: Window, norm: real): (taps: seq<real>)
    requires m.pi != 0.0
    ensures |taps| == count
  {
    var half := count as real / 2.0;
    var corr := norm * omega / m.pi;
    seq(count, i requires 0 <= i < count =>
      var t := i as real - half + 0.5;
      Sinc(m, t * omega) * window(t - half, count as real) * corr)
  }

  function NuttallWindow(m: Transcendentals): Window
  {
    (n: real, bigN: real) => if bigN == 0.0 then 0.0 else Nuttall(m, n, bigN)
  }

  /** The high-pass window: Nuttall with the sign flipped on odd (rounded) positions. */
  function HighPassWindow(m: Transcendentals): Window
  {
    (n: real, bigN: real) =>
      var k := Round(n);
      var absK := if k < 0 then -k else k;
      (if bigN == 0.0 then 0.0 else Nuttall(m, n, bigN)) * (if absK % 2 != 0 then -1.0 else 1.0)
  }

  /** The band-pass window: Nuttall modulated by `2 cos(offsetOmega * n)`. */
  function BandPassWindow(m: Transcendentals, offsetOmega: real): Window
  {
    (n: real, bigN: real) => 2.0 * m.cos(offsetOmega * n) * (if bigN == 0.0 then 0.0 else Nuttall(m, n, bigN))
  }

  function LowPassTaps(m: Transcendentals, cutoff: real, transWidth: real, sampleRate: real, oddTapCount: bool): (taps: seq<real>)
    requires transWidth > 0.0 && sampleRate > 0.0 && m.pi != 0.0
    ensures |taps| == TapCount(transWidth, sampleRate, oddTapCount)
  {
    var count := TapCount(transWidth, sampleRate, oddTapCount);
    WindowedSincBase(m, count, HzToRads(m, cutoff, sampleRate), NuttallWindow(m), 1.0)
  }

  function HighPassTaps(m: Transcendentals, cutoff: real, transWidth: real, sampleRate: real, oddTapCount: bool): (taps: seq<real>)
    requires transWidth > 0.0 && sampleRate > 0.0 && m.pi != 0.0
    ensures |taps| == TapCount(transWidth, sampleRate, oddTapCount)
  {
    var count := TapCount(transWidth, sampleRate, oddTapCount);
    WindowedSincBase(m, count, HzToRads(m, sampleRate / 2.0 - cutoff, sampleRate), HighPassWindow(m), 1.0)
  }

  function BandPassTaps(m: Transcendentals, bandStart: real, bandStop: real, transWidth: real, sampleRate: real, oddTapCount: bool): (taps: seq<real>)
    requires transWidth > 0.0 && sampleRate > 0.0 && m.pi != 0.0
    ensures |taps| == TapCount(transWidth, sampleRate, oddTapCount)
  {
    var count := TapCount(transWidth, sampleRate, oddTapCount);
    var offsetOmega := HzToRads(m, (bandStart + bandStop) / 2.0, sampleRate);
    var omega := HzToRads(m, (bandStop - bandStart) / 2.0, sampleRate);
    WindowedSincBase(m, count, omega, BandPassWindow(m, offsetOmega), 1.0)
  }

  /** The worked example: 1 kHz cutoff, 200 Hz transition at 48 kHz gives 912 taps, or 913 when odd. */
  lemma TapCountExample(m: Transcendentals)
    requires m.pi != 0.0
    ensures |LowPassTaps(m, 1000.0, 200.0, 48000.0, false)| == 912
    ensures |LowPassTaps(m, 1000.0, 200.0, 48000.0, true)| == 913
  {
    assert 3.8 * 48000.0 / 200.0 == 912.0;
  }

  /**
   * The resampler's prototype filter (cutoff `min(in, out) / 2`, transition a
   * tenth of that, rate `in * interp`) has exactly `floor(76 * in * interp / min(in, out))`
   * taps: an integer quantity, with no rounding involved.
   */
  lemma {:induction false} ResamplerTapCount(inRate: nat, outRate: nat, interp: nat)
    requires inRate > 0 && outRate > 0 && interp > 0
    ensures var bw := (if inRate < outRate then inRate else outRate) as real / 2.0;
      TapCount(bw * 0.1, (inRate * interp) as real, false) == (76 * inRate * interp) / Min(inRate, outRate)
  {
    var mn := Min(inRate, outRate);
    var x := inRate * interp;
    var bw := mn as real / 2.0;
    assert bw * 0.1 == mn as real / 20.0;
    ScaleQuotient(x as real, mn as real);
    assert (76 * inRate * interp) as real == 76.0 * x as real;
    FloorOfQuotient(76 * x, mn);
  }

  lemma ScaleQuotient(a: real, b: real)
    requires b > 0.0
    ensures 3.8 * a / (b / 20.0) == 76.0 * a / b
  {
  }

  /** The floor of an integer quotient taken in the reals is the integer quotient. */
  lemma FloorOfQuotient(num: nat, d: nat)
    requires d > 0
    ensures Floor(num as real / d as real) == num / d
  {
    var q := num / d;
    var r := num % d;
    assert num == q * d + r && 0 <= r < d;
    assert num as real == q as real * d as real + r as real;
    assert num as real / d as real == q as real + r as real / d as real;
    assert 0.0 <= r as real / d as real < 1.0;
  }
}
