/**
 * The spectrum side of the receive callback: every incoming I/Q byte is
 * appended to a `2 * fftSize` accumulation buffer; each time the buffer
 * fills, the position returns to 0 and a refill counter is incremented,
 * and on every 15th refill the full buffer goes to the native FFT.
 */
module Spectrum {
  import opened Arith
  import Native

  /** One FFT per this many refills (about 30 updates per second). */
  const ThrottleEvery: nat := 15

  /** The frames the FFT has seen after `t` refills of `size` bytes from `fed`: refill `r` is sent when `r % 15 == 0`. */
  ghost function Frames(fed: seq<int>, size: nat, t: nat): seq<seq<int>>
    requires t * size <= |fed|
  {
    if t == 0 then []
    else
      MulMonotone(t - 1, t, size);
      Frames(fed, size, t - 1)
        + (if t % ThrottleEvery == 0 then [fed[(t - 1) * size .. t * size]] else [])
  }

  /** Exactly every 15th refill produces a frame: after `t` refills there are `t / 15` frames. */
  lemma {:induction false} FrameCount(fed: seq<int>, size: nat, t: nat)
    requires t * size <= |fed|
    ensures |Frames(fed, size, t)| == t / ThrottleEvery
  {
    if t > 0 {
      MulMonotone(t - 1, t, size);
      FrameCount(fed, size, t - 1);
      var q := (t - 1) / ThrottleEvery;
      var r := (t - 1) % ThrottleEvery;
      assert t - 1 == q * ThrottleEvery + r;
      if r + 1 == ThrottleEvery {
        DivModOf(ThrottleEvery, q + 1, 0);
        assert t == (q + 1) * ThrottleEvery + 0;
      } else {
        DivModOf(ThrottleEvery, q, r + 1);
        assert t == q * ThrottleEvery + (r + 1);
      }
    }
  }

  /** Frames only depend on the refills already complete: more input extends them. */
  lemma {:induction false} FramesExtend(fed: seq<int>, more: seq<int>, size: nat, t: nat)
    requires t * size <= |fed|
    ensures Frames(fed + more, size, t) == Frames(fed, size, t)
  {
    if t > 0 {
      MulMonotone(t - 1, t, size);
      FramesExtend(fed, more, size, t - 1);
      assert (fed + more)[(t - 1) * size .. t * size] == fed[(t - 1) * size .. t * size];
    }
  }

  class SpectrumTap {
    const fftSize: nat
    const iqBuffer: array<int>
    const fft: Native.FFT
    var iqBufferPos: nat
    var spectrumThrottle: nat
    /** Every byte delivered since the stream started. */
    ghost var Fed: seq<int>

    ghost predicate Valid()
      reads this, iqBuffer, fft
    {
      Filled() && iqBufferPos < iqBuffer.Length
    }

    /** The buffer holds the bytes fed since the last refill, and every completed refill has gone to the FFT when due. */
    ghost predicate Filled()
      reads this, iqBuffer, fft
    {
      && fft.n == fftSize && fftSize > 0
      && iqBuffer.Length == 2 * fftSize
      && iqBufferPos <= iqBuffer.Length
      && |Fed| == spectrumThrottle * iqBuffer.Length + iqBufferPos
      && iqBuffer[..iqBufferPos] == Fed[spectrumThrottle * iqBuffer.Length ..]
      && fft.frames == Frames(Fed, iqBuffer.Length, spectrumThrottle)
    }

    /** `new Int8Array(fftSize * 2)`, position and throttle 0, driving `fft`. */
    constructor (fft: Native.FFT)
      requires fft.n > 0 && fft.frames == []
      ensures Valid() && fresh(iqBuffer) && this.fft == fft
      ensures fftSize == fft.n && iqBufferPos == 0 && spectrumThrottle == 0 && Fed == []
    {
      fftSize := fft.n;
      iqBuffer := new int[2 * fft.n](_ => 0);
      this.fft := fft;
      iqBufferPos := 0;
      spectrumThrottle := 0;
      Fed := [];
    }

    /** One byte of the accumulation loop. */
    method Feed(b: int)
      requires Valid()
      modifies this, iqBuffer, fft
      ensures Valid()
      ensures Fed == old(Fed) + [b]
      ensures iqBufferPos == if old(iqBufferPos) + 1 == iqBuffer.Length then 0 else old(iqBufferPos) + 1
      ensures spectrumThrottle == if iqBufferPos == 0 then old(spectrumThrottle) + 1 else old(spectrumThrottle)
    {
      Store(b);
      if iqBufferPos >= iqBuffer.Length {
        Refill();
      }
    }

    /** `iqBuffer[iqBufferPos++] = b`. */
    method Store(b: int)
      requires Valid()
      modifies this, iqBuffer
      ensures Filled()
      ensures Fed == old(Fed) + [b]
      ensures iqBufferPos == old(iqBufferPos) + 1 && spectrumThrottle == old(spectrumThrottle)
    {
      var size := iqBuffer.Length;
      ghost var fed := Fed + [b];
      ghost var t := spectrumThrottle;
      FramesExtend(Fed, [b], size, t);
      iqBuffer[iqBufferPos] := b;
      assert iqBuffer[..iqBufferPos + 1] == fed[t * size ..];
      iqBufferPos := iqBufferPos + 1;
      Fed := fed;
    }

    /** A full buffer: rewind, count the refill, and run the FFT on every 15th. */
    method Refill()
      requires Filled() && iqBufferPos == iqBuffer.Length
      modifies this, fft
      ensures Valid()
      ensures Fed == old(Fed) && iqBufferPos == 0 && spectrumThrottle == old(spectrumThrottle) + 1
    {
      var size := iqBuffer.Length;
      ghost var t := spectrumThrottle;
      ghost var lo := t * size;
      Distribute(t, 1, size);
      ghost var hi := (t + 1) * size;
      assert hi == |Fed| && iqBuffer[..] == Fed[lo .. hi];
      assert Frames(Fed, size, t + 1) == fft.frames + (if (t + 1) % ThrottleEvery == 0 then [Fed[lo .. hi]] else []);
      iqBufferPos := 0;
      spectrumThrottle := spectrumThrottle + 1;
      if spectrumThrottle % ThrottleEvery == 0 {
        fft.Transform(iqBuffer[..], fftSize);
      }
    }

    /** `for (i = 0; i < signed.length; i++) ...`: every byte of the transfer, in order. */
    method Accumulate(signed: seq<int>)
      requires Valid()
      modifies this, iqBuffer, fft
      ensures Valid()
      ensures Fed == old(Fed) + signed
    {
      ghost var fed0 := Fed;
      var i := 0;
      while i < |signed|
        invariant 0 <= i <= |signed|
        invariant Valid() && Fed == fed0 + signed[..i]
      {
        Feed(signed[i]);
        assert signed[..i + 1] == signed[..i] + [signed[i]];
        i := i + 1;
      }
      assert signed[..i] == signed;
    }
  }

  /** After any sequence of transfers, the FFT has run exactly once per 15 refills. */
  lemma FftRate(s: SpectrumTap)
    requires s.Valid()
    ensures |s.fft.frames| == s.spectrumThrottle / ThrottleEvery
  {
    FrameCount(s.Fed, s.iqBuffer.Length, s.spectrumThrottle);
  }
}
