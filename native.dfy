/**
 * The two native (WebAssembly) objects the worker drives, `DspProcessor`
 * and `FFT`. Their signal processing is not part of this model: each object
 * records the calls it receives, and the samples a processing call produces
 * are supplied by the caller, checked against the documented buffer
 * contracts (the output count fits the output buffer; `process_iq_only`
 * writes interleaved I/Q pairs; an FFT of size `n` needs a power-of-two `n`,
 * a window of length `n`, an input of `2n` bytes and an output of `n` values).
 */
module Native {

  /** One call into a `DspProcessor`, in the order the worker made them. */
  datatype DdcCall =
    | SetShift(sampleRate: real, shiftHz: real)
    | SetWfmMode(enabled: bool)
    | SetIfSampleRate(rate: nat)
    | Reset
    | SetBandwidth(bandwidth: real)
    | SetSquelch(level: real, enabled: bool)
    | Process(inputLength: nat, produced: nat)
    | ProcessIqOnly(inputLength: nat, produced: nat)
    | Free

  /** `new DspProcessor(in_sample_rate, shift_hz, bandwidth)` and the calls made on it since. */
  class DspProcessor {
    const inSampleRate: real
    const initialShift: real
    const initialBandwidth: real
    var log: seq<DdcCall>

    constructor (inSampleRate: real, shiftHz: real, bandwidth: real)
      ensures this.inSampleRate == inSampleRate && initialShift == shiftHz && initialBandwidth == bandwidth
      ensures log == []
    {
      this.inSampleRate := inSampleRate;
      initialShift := shiftHz;
      initialBandwidth := bandwidth;
      log := [];
    }

    method Call(c: DdcCall)
      requires !c.Process? && !c.ProcessIqOnly?
      modifies this
      ensures log == old(log) + [c]
    {
      log := log + [c];
    }

    /**
     * `process(input, output)`: mono audio at 48 kHz. `produced` is what the
     * native pipeline writes; it must fit the output buffer.
     */
    method ProcessAudio(input: seq<int>, produced: seq<real>, capacity: nat) returns (n: nat)
      requires |produced| <= capacity
      modifies this
      ensures n == |produced| && n <= capacity
      ensures log == old(log) + [Process(|input|, n)]
    {
      n := |produced|;
      log := log + [Process(|input|, n)];
    }

    /**
     * `process_iq_only(input, output)`: interleaved I/Q values at the IF
     * rate. `produced` is what the native pipeline writes: an even number of
     * values that fits the output buffer.
     */
    method ProcessIq(input: seq<int>, produced: seq<real>, capacity: nat) returns (n: nat)
      requires |produced| <= capacity && |produced| % 2 == 0
      modifies this
      ensures n == |produced| && n <= capacity && n % 2 == 0
      ensures log == old(log) + [ProcessIqOnly(|input|, n)]
    {
      n := |produced|;
      log := log + [ProcessIqOnly(|input|, n)];
    }
  }

  /** `n` is a positive power of two. */
  predicate IsPowerOfTwo(n: nat)
    decreases n
  {
    n == 1 || (n > 1 && n % 2 == 0 && IsPowerOfTwo(n / 2))
  }

  lemma PowersOfTwo()
    ensures IsPowerOfTwo(1024) && IsPowerOfTwo(8192) && !IsPowerOfTwo(0) && !IsPowerOfTwo(1000)
  {
    assert IsPowerOfTwo(1) && IsPowerOfTwo(2) && IsPowerOfTwo(4) && IsPowerOfTwo(8) && IsPowerOfTwo(16);
    assert IsPowerOfTwo(32) && IsPowerOfTwo(64) && IsPowerOfTwo(128) && IsPowerOfTwo(256) && IsPowerOfTwo(512);
    assert IsPowerOfTwo(2048) && IsPowerOfTwo(4096);
    assert !IsPowerOfTwo(125) && !IsPowerOfTwo(250) && !IsPowerOfTwo(500);
  }

  /** `new FFT(n, window)` and the input frames transformed since. */
  class FFT {
    const n: nat
    const window: seq<real>
    var frames: seq<seq<int>>

    constructor (n: nat, window: seq<real>)
      requires IsPowerOfTwo(n) && |window| == n
      ensures this.n == n && this.window == window && frames == []
    {
      this.n := n;
      this.window := window;
      frames := [];
    }

    /** `fft(input, result)`: the documented contract is `input.length == 2n` and `result.length == n`. */
    method Transform(input: seq<int>, resultLength: nat)
      requires |input| == 2 * n && resultLength == n
      modifies this
      ensures frames == old(frames) + [input]
    {
      frames := frames + [input];
    }
  }
}
