/**
 * The accumulate-then-emit buffer used twice in the system: the worker's
 * audio batch (`pushAudio`/`flushAudio`, 4800 samples, flushed at 2400)
 * and the page's playback ring (`playAudio`, same sizes, each full chunk
 * handed to the audio scheduler). Samples are copied in, in order, and
 * once at least `threshold` are buffered the buffered prefix is emitted
 * as one batch and the position returns to 0.
 */
module Batching {
  import opened Common

  /** `AUDIO_BATCH_THRESHOLD` and `SCHEDULE_THRESHOLD`: 50 ms at 48 kHz. */
  const Threshold: nat := 2400
  /** `new Float32Array(4800)`: 100 ms at 48 kHz. */
  const Capacity: nat := 4800

  class Batcher {
    const buf: array<real>
    var pos: nat
    /** Every batch emitted so far (the messages sent / chunks scheduled), in order. */
    var emitted: seq<seq<real>>
    /** Every sample pushed so far. */
    ghost var Pushed: seq<real>

    ghost predicate Valid()
      reads this, buf
    {
      Holds(Pushed)
    }

    /** The batches emitted, then the buffered prefix, are exactly `content`; every batch has between threshold and capacity samples. */
    ghost predicate Holds(content: seq<real>)
      reads this, buf
    {
      && buf.Length == Capacity
      && pos < Threshold
      && (forall k :: 0 <= k < |emitted| ==> Threshold <= |emitted[k]| <= Capacity)
      && Flatten(emitted) + buf[..pos] == content
    }

    constructor ()
      ensures Valid() && fresh(buf)
      ensures pos == 0 && emitted == [] && Pushed == []
    {
      buf := new real[Capacity](_ => 0.0);
      pos := 0;
      emitted := [];
      Pushed := [];
    }

    /** `flushAudio`: emit `buf[0..pos)` when it is non-empty and rewind. */
    method Flush()
      requires buf.Length == Capacity && Threshold <= pos <= Capacity
      requires forall k :: 0 <= k < |emitted| ==> Threshold <= |emitted[k]| <= Capacity
      modifies this
      ensures pos == 0
      ensures emitted == old(emitted) + [old(buf[..pos])]
      ensures forall k :: 0 <= k < |emitted| ==> Threshold <= |emitted[k]| <= Capacity
      ensures Flatten(emitted) == Flatten(old(emitted)) + old(buf[..pos])
      ensures Pushed == old(Pushed)
    {
      FlattenAppend(emitted, buf[..pos]);
      emitted := emitted + [buf[..pos]];
      pos := 0;
    }

    /** `buf.set(samples.subarray(from, from + n), pos)`: the buffered prefix grows by those samples. */
    method CopyIn(samples: seq<real>, from: nat, n: nat)
      requires from + n <= |samples| && pos + n <= buf.Length
      modifies buf
      ensures buf[..pos + n] == old(buf[..pos]) + samples[from .. from + n]
    {
      forall j | 0 <= j < n {
        buf[pos + j] := samples[from + j];
      }
    }

    /** One round of the copy loop: copy what fits from `srcOff` on, and emit if the threshold is reached. */
    method Step(samples: seq<real>, srcOff: nat, ghost start: seq<real>) returns (next: nat)
      requires srcOff < |samples| && Holds(start + samples[..srcOff])
      modifies this, buf
      ensures srcOff < next <= |samples| && Holds(start + samples[..next])
      ensures Pushed == old(Pushed)
      ensures |emitted| >= |old(emitted)| && emitted[..|old(emitted)|] == old(emitted)
    {
      var space := buf.Length - pos;
      var toCopy := Min(space, |samples| - srcOff);
      ghost var done := Flatten(emitted);
      ghost var before := buf[..pos];
      CopyIn(samples, srcOff, toCopy);
      next := srcOff + toCopy;
      ghost var chunk := samples[srcOff .. next];
      assert samples[..next] == samples[..srcOff] + chunk;
      calc {
        done + buf[..pos + toCopy];
        done + (before + chunk);
        (done + before) + chunk;
        (start + samples[..srcOff]) + chunk;
        start + (samples[..srcOff] + chunk);
        start + samples[..next];
      }
      pos := pos + toCopy;
      Settle(start + samples[..next]);
    }

    /** The threshold check after a copy: emit the buffered prefix once it has reached the threshold. */
    method Settle(ghost content: seq<real>)
      requires buf.Length == Capacity && pos <= Capacity && Flatten(emitted) + buf[..pos] == content
      requires forall k :: 0 <= k < |emitted| ==> Threshold <= |emitted[k]| <= Capacity
      modifies this
      ensures Holds(content) && Pushed == old(Pushed)
      ensures |emitted| >= |old(emitted)| && emitted[..|old(emitted)|] == old(emitted)
    {
      if pos >= Threshold {
        ghost var e := emitted;
        ghost var pending := buf[..pos];
        Flush();
        assert emitted[..|e|] == e;
        assert buf[..pos] == [];
        assert Flatten(emitted) + buf[..pos] == Flatten(e) + pending;
      }
    }

    /**
     * `pushAudio(samples)` / the copy loop of `playAudio`: copy as much as
     * fits, emit once the threshold is reached, repeat until every sample
     * has been copied.
     */
    method Push(samples: seq<real>)
      requires Valid()
      modifies this, buf
      ensures Valid()
      ensures Pushed == old(Pushed) + samples
      ensures |emitted| >= |old(emitted)| && emitted[..|old(emitted)|] == old(emitted)
    {
      ghost var pushed0 := Pushed;
      ghost var emitted0 := emitted;
      var srcOff := 0;
      assert samples[..0] == [] && pushed0 + [] == pushed0;
      while srcOff < |samples|
        invariant 0 <= srcOff <= |samples| && Holds(pushed0 + samples[..srcOff]) && Pushed == pushed0
        invariant |emitted| >= |emitted0| && emitted[..|emitted0|] == emitted0
      {
        ghost var e := emitted;
        srcOff := Step(samples, srcOff, pushed0);
        assert emitted[..|emitted0|] == e[..|emitted0|];
      }
      Pushed := pushed0 + samples;
      assert samples[..srcOff] == samples;
    }
  }
}
