/**
 * The streaming rational resampler of the audio path: a polyphase filter
 * bank built by scattering prototype taps over `interp` branches, and a
 * `process` call that keeps a phase accumulator, a carried input offset
 * and a delay line across calls.
 *
 * The specification is `Resampled(taps, interp, decim, xs)`: output sample
 * `m` is the dot product of branch `(m * decim) % interp` with the window of
 * the stream `zeros(tapsPerPhase - 1) ++ xs` that starts at
 * `(m * decim) / interp`, for every `m` whose window start lies inside `xs`.
 * `Process` is proved to extend that sequence by exactly what it returns,
 * so chunked processing equals one pass over the joined input.
 */
module Resampling {
  import opened Common
  import opened Arith
  import Ratio
  import Filters

  /** Room for one input block in the delay line (`tapsPerPhase - 1 + 64000`). */
  const MaxBlock: nat := 64000

  /** `Math.floor((tapCount + phaseCount - 1) / phaseCount)`, i.e. `ceil(tapCount / phaseCount)`. */
  function TapsPerPhase(tapCount: nat, phaseCount: nat): (tpp: nat)
    requires phaseCount > 0
    ensures tpp * phaseCount >= tapCount
    ensures tapCount > 0 ==> tpp > 0 && (tpp - 1) * phaseCount < tapCount
  {
    CeilDiv(tapCount, phaseCount)
  }

  /** The branch the scatter loop writes prototype tap `i` to: `(P - 1) - i % P`. */
  function ScatterPhase(phaseCount: nat, i: nat): nat
    requires phaseCount > 0
  {
    (phaseCount - 1) - i % phaseCount
  }

  /** The position within its branch the scatter loop writes tap `i` to: `i / P`. */
  function ScatterSlot(phaseCount: nat, i: nat): nat
    requires phaseCount > 0
  {
    i / phaseCount
  }

  /** The prototype index that lands at position `k` of branch `p`. */
  function TapSource(phaseCount: nat, p: nat, k: nat): nat
    requires p < phaseCount
  {
    k * phaseCount + (phaseCount - 1 - p)
  }

  /** Bank entry `phases[p][k]`: the prototype tap that lands there, or 0 past the end of the prototype. */
  function BankEntry(taps: seq<real>, phaseCount: nat, p: nat, k: nat): real
    requires p < phaseCount
  {
    var i := TapSource(phaseCount, p, k);
    if i < |taps| then taps[i] else 0.0
  }

  /** Every scatter index below `P * tapsPerPhase` goes to a slot of the bank, and that slot's source is the index itself. */
  lemma ScatterInverse(phaseCount: nat, tpp: nat, i: nat)
    requires phaseCount > 0 && i < phaseCount * tpp
    ensures ScatterPhase(phaseCount, i) < phaseCount && ScatterSlot(phaseCount, i) < tpp
    ensures TapSource(phaseCount, ScatterPhase(phaseCount, i), ScatterSlot(phaseCount, i)) == i
  {
    DivBelow(i, phaseCount, tpp);
    assert i == (i / phaseCount) * phaseCount + i % phaseCount;
  }

  /** Every slot of the bank is written by exactly one scatter index: its source. */
  lemma SourceInverse(phaseCount: nat, tpp: nat, p: nat, k: nat)
    requires p < phaseCount && k < tpp
    ensures TapSource(phaseCount, p, k) < phaseCount * tpp
    ensures ScatterPhase(phaseCount, TapSource(phaseCount, p, k)) == p
    ensures ScatterSlot(phaseCount, TapSource(phaseCount, p, k)) == k
  {
    DivModOf(phaseCount, k, phaseCount - 1 - p);
    MulMonotone(k + 1, tpp, phaseCount);
    assert (k + 1) * phaseCount == k * phaseCount + phaseCount;
  }

  /**
   * The scatter loop of the `PolyphaseResampler` constructor:
   * `phases[(P-1) - i % P][i / P] = i < taps.length ? taps[i] : 0` for
   * every `i < P * tapsPerPhase`.
   */
  method BuildBank(taps: seq<real>, phaseCount: nat) returns (phases: array2<real>)
    requires phaseCount > 0
    ensures fresh(phases)
    ensures phases.Length0 == phaseCount && phases.Length1 == TapsPerPhase(|taps|, phaseCount)
    ensures forall p, k :: 0 <= p < phaseCount && 0 <= k < phases.Length1 ==>
      phases[p, k] == BankEntry(taps, phaseCount, p, k)
  {
    var tpp := TapsPerPhase(|taps|, phaseCount);
    phases := new real[phaseCount, tpp];
    var total := phaseCount * tpp;
    var i := 0;
    while i < total
      invariant 0 <= i <= total
      invariant forall p, k :: 0 <= p < phaseCount && 0 <= k < tpp && TapSource(phaseCount, p, k) < i ==>
        phases[p, k] == BankEntry(taps, phaseCount, p, k)
    {
      ScatterInverse(phaseCount, tpp, i);
      var phaseIdx := ScatterPhase(phaseCount, i);
      var tapIdx := ScatterSlot(phaseCount, i);
      phases[phaseIdx, tapIdx] := if i < |taps| then taps[i] else 0.0;
      forall p, k | 0 <= p < phaseCount && 0 <= k < tpp && TapSource(phaseCount, p, k) == i
        ensures p == phaseIdx && k == tapIdx
      {
        SourceInverse(phaseCount, tpp, p, k);
      }
      i := i + 1;
    }
    forall p, k | 0 <= p < phaseCount && 0 <= k < tpp
      ensures TapSource(phaseCount, p, k) < total
    {
      SourceInverse(phaseCount, tpp, p, k);
    }
  }

  /** The stream the delay line sees: `tapsPerPhase - 1` zeros of initial history, then every input sample. */
  function Stream(tpp: nat, xs: seq<real>): seq<real>
    requires tpp > 0
  {
    Zeros(tpp - 1) + xs
  }

  /** Number of output samples once `n` input samples have been consumed: `ceil(n * interp / decim)`. */
  function OutputCount(interp: nat, decim: nat, n: nat): nat
    requires interp > 0 && decim > 0
  {
    CeilDiv(n * interp, decim)
  }

  /** Where output `m`'s window starts in the input: `floor(m * decim / interp)`. */
  function InputOffset(interp: nat, decim: nat, m: nat): nat
    requires interp > 0
  {
    (m * decim) / interp
  }

  /** The branch output `m` uses: `(m * decim) % interp`. */
  function PhaseOf(interp: nat, decim: nat, m: nat): nat
    requires interp > 0
  {
    (m * decim) % interp
  }

  /** An output exists exactly for the indices whose window starts inside the input. */
  lemma OffsetInRange(interp: nat, decim: nat, n: nat, m: nat)
    requires interp > 0 && decim > 0
    ensures InputOffset(interp, decim, m) < n <==> m < OutputCount(interp, decim, n)
    ensures PhaseOf(interp, decim, m) < interp
  {
    DivBelow(m * decim, interp, n);
    BelowCeil(m, n * interp, decim);
  }

  /** Sum over the first `n` positions of `w[i] * phases[p][i]`. */
  function PhaseDot(taps: seq<real>, phaseCount: nat, w: seq<real>, p: nat, n: nat): real
    requires p < phaseCount && n <= |w|
  {
    if n == 0 then 0.0 else PhaseDot(taps, phaseCount, w, p, n - 1) + w[n - 1] * BankEntry(taps, phaseCount, p, n - 1)
  }

  function OutputSample(taps: seq<real>, interp: nat, decim: nat, xs: seq<real>, m: nat): real
    requires interp > 0 && decim > 0 && |taps| > 0
    requires m < OutputCount(interp, decim, |xs|)
  {
    var tpp := TapsPerPhase(|taps|, interp);
    var o := InputOffset(interp, decim, m);
    OffsetInRange(interp, decim, |xs|, m);
    PhaseDot(taps, interp, Stream(tpp, xs)[o .. o + tpp], PhaseOf(interp, decim, m), tpp)
  }

  /** The whole output stream the resampler owes for the input `xs`. */
  function Resampled(taps: seq<real>, interp: nat, decim: nat, xs: seq<real>): (ys: seq<real>)
    requires interp > 0 && decim > 0 && |taps| > 0
    ensures |ys| == OutputCount(interp, decim, |xs|)
  {
    seq(OutputCount(interp, decim, |xs|), m requires 0 <= m < OutputCount(interp, decim, |xs|) =>
      OutputSample(taps, interp, decim, xs, m))
  }

  lemma OutputCountMonotone(interp: nat, decim: nat, n: nat, n': nat)
    requires interp > 0 && decim > 0 && n <= n'
    ensures OutputCount(interp, decim, n) <= OutputCount(interp, decim, n')
  {
    MulMonotone(n, n', interp);
    DivMonotone(n * interp + decim - 1, n' * interp + decim - 1, decim);
  }

  /** More input never changes output already owed: the output for `xs` is a prefix of the output for `xs ++ ys`. */
  lemma ResampledPrefix(taps: seq<real>, interp: nat, decim: nat, xs: seq<real>, ys: seq<real>)
    requires interp > 0 && decim > 0 && |taps| > 0
    ensures |Resampled(taps, interp, decim, xs)| <= |Resampled(taps, interp, decim, xs + ys)|
    ensures Resampled(taps, interp, decim, xs + ys)[..|Resampled(taps, interp, decim, xs)|] == Resampled(taps, interp, decim, xs)
  {
    var short := Resampled(taps, interp, decim, xs);
    var long := Resampled(taps, interp, decim, xs + ys);
    OutputCountMonotone(interp, decim, |xs|, |xs + ys|);
    var tpp := TapsPerPhase(|taps|, interp);
    assert Stream(tpp, xs + ys) == Stream(tpp, xs) + ys;
    forall m | 0 <= m < |short|
      ensures long[m] == short[m]
    {
      var o := InputOffset(interp, decim, m);
      OffsetInRange(interp, decim, |xs|, m);
      assert Stream(tpp, xs + ys)[o .. o + tpp] == Stream(tpp, xs)[o .. o + tpp];
    }
  }

  lemma ResampledEmpty(taps: seq<real>, interp: nat, decim: nat)
    requires interp > 0 && decim > 0 && |taps| > 0
    ensures Resampled(taps, interp, decim, []) == []
  {
  }

  /** The output a resampler that has already consumed `before` emits when it is given `chunk`. */
  function Continuation(taps: seq<real>, interp: nat, decim: nat, before: seq<real>, chunk: seq<real>): (r: seq<real>)
    requires interp > 0 && decim > 0 && |taps| > 0
    ensures Resampled(taps, interp, decim, before) + r == Resampled(taps, interp, decim, before + chunk)
  {
    var all := Resampled(taps, interp, decim, before + chunk);
    ResampledPrefix(taps, interp, decim, before, chunk);
    var done := |Resampled(taps, interp, decim, before)|;
    assert all[..done] + all[done..] == all;
    all[done..]
  }

  /** What a resampler that has already consumed `before` emits for each of `chunks`, in turn. */
  function Emitted(taps: seq<real>, interp: nat, decim: nat, before: seq<real>, chunks: seq<seq<real>>): seq<seq<real>>
    requires interp > 0 && decim > 0 && |taps| > 0
    decreases |chunks|
  {
    if chunks == [] then []
    else [Continuation(taps, interp, decim, before, chunks[0])] + Emitted(taps, interp, decim, before + chunks[0], chunks[1..])
  }

  /**
   * Streaming continuity: whatever the chunking, the outputs emitted chunk
   * by chunk join up to the output owed for the joined input.
   */
  lemma {:induction false} ChunkSplitEquivalence(taps: seq<real>, interp: nat, decim: nat, before: seq<real>, chunks: seq<seq<real>>)
    requires interp > 0 && decim > 0 && |taps| > 0
    ensures Resampled(taps, interp, decim, before) + Flatten(Emitted(taps, interp, decim, before, chunks))
      == Resampled(taps, interp, decim, before + Flatten(chunks))
    decreases |chunks|
  {
    if chunks == [] {
      assert before + Flatten(chunks) == before;
    } else {
      var now := before + chunks[0];
      var first := Continuation(taps, interp, decim, before, chunks[0]);
      var later := Emitted(taps, interp, decim, now, chunks[1..]);
      var rest := Flatten(later);
      calc {
        Resampled(taps, interp, decim, before) + Flatten(Emitted(taps, interp, decim, before, chunks));
        { assert ([first] + later)[1..] == later; }
        Resampled(taps, interp, decim, before) + (first + rest);
        (Resampled(taps, interp, decim, before) + first) + rest;
        Resampled(taps, interp, decim, now) + rest;
        { ChunkSplitEquivalence(taps, interp, decim, now, chunks[1..]); }
        Resampled(taps, interp, decim, now + Flatten(chunks[1..]));
        { assert now + Flatten(chunks[1..]) == before + Flatten(chunks); }
        Resampled(taps, interp, decim, before + Flatten(chunks));
      }
    }
  }

  /** From a fresh resampler: the concatenated chunk outputs are the output of one call over the concatenated input. */
  lemma {:induction false} ChunkedFromStart(taps: seq<real>, interp: nat, decim: nat, chunks: seq<seq<real>>)
    requires interp > 0 && decim > 0 && |taps| > 0
    ensures Flatten(Emitted(taps, interp, decim, [], chunks)) == Resampled(taps, interp, decim, Flatten(chunks))
  {
    ChunkSplitEquivalence(taps, interp, decim, [], chunks);
    ResampledEmpty(taps, interp, decim);
    assert [] + Flatten(chunks) == Flatten(chunks);
  }

  /** `PolyphaseResampler`: a filter bank plus the streaming state of a delay line. */
  class PolyphaseResampler {
    const interp: nat
    const decim: nat
    const taps: seq<real>
    const phaseCount: nat
    const tapsPerPhase: nat
    const phases: array2<real>
    const buffer: array<real>
    const bufStartOffset: nat
    var phase: nat
    var offset: int
    /** Every input sample consumed since construction. */
    ghost var Consumed: seq<real>

    /** The parts fixed at construction: sizes, and the bank holding the scattered prototype. */
    ghost predicate Bank()
      reads phases
    {
      && interp > 0 && decim > 0 && |taps| > 0
      && phaseCount == interp
      && tapsPerPhase == TapsPerPhase(|taps|, interp)
      && bufStartOffset == tapsPerPhase - 1
      && buffer.Length == tapsPerPhase - 1 + MaxBlock
      && phases.Length0 == interp && phases.Length1 == tapsPerPhase
      && (forall p, k :: 0 <= p < interp && 0 <= k < tapsPerPhase ==> phases[p, k] == BankEntry(taps, interp, p, k))
    }

    ghost predicate Valid()
      reads this, buffer, phases
    {
      && Bank()
      && phase < interp
      && offset >= 0
      && buffer[..tapsPerPhase - 1] == Stream(tapsPerPhase, Consumed)[|Consumed|..]
      && (|Consumed| + offset) * interp + phase == OutputCount(interp, decim, |Consumed|) * decim
    }

    /** The output owed so far. */
    ghost function Output(): seq<real>
      reads this
      requires interp > 0 && decim > 0 && |taps| > 0
    {
      Resampled(taps, interp, decim, Consumed)
    }

    constructor (interp: nat, decim: nat, taps: seq<real>)
      requires interp > 0 && decim > 0 && |taps| > 0
      ensures Valid() && fresh(buffer) && fresh(phases)
      ensures this.interp == interp && this.decim == decim && this.taps == taps
      ensures Consumed == []
    {
      this.interp := interp;
      this.decim := decim;
      this.taps := taps;
      phaseCount := interp;
      var tpp := TapsPerPhase(|taps|, interp);
      tapsPerPhase := tpp;
      var bank := BuildBank(taps, interp);
      phases := bank;
      buffer := new real[tpp - 1 + MaxBlock](_ => 0.0);
      bufStartOffset := tpp - 1;
      phase := 0;
      offset := 0;
      Consumed := [];
      new;
      assert buffer[..tpp - 1] == Zeros(tpp - 1);
    }

    /** The inner dot product of `process`: branch `ph` against the delay line from `off`. */
    method DotAt(off: nat, ph: nat) returns (sum: real)
      requires Bank() && ph < interp && off + tapsPerPhase <= buffer.Length
      ensures sum == PhaseDot(taps, interp, buffer[off .. off + tapsPerPhase], ph, tapsPerPhase)
    {
      ghost var w := buffer[off .. off + tapsPerPhase];
      sum := 0.0;
      var i := 0;
      while i < tapsPerPhase
        invariant 0 <= i <= tapsPerPhase
        invariant sum == PhaseDot(taps, interp, w, ph, i)
      {
        sum := sum + buffer[off + i] * phases[ph, i];
        i := i + 1;
      }
    }

    /**
     * The output loop of `process`: while the window start lies inside the
     * new block, emit one dot product and advance the phase accumulator by
     * `decim`, carrying whole multiples of `interp` into the offset.
     */
    method Emit(offset0: int, phase0: nat, count: nat, ghost c0: seq<real>, ghost block: seq<real>)
      returns (out: seq<real>, offset: int, phase: nat)
      requires Bank() && offset0 >= 0 && phase0 < interp && count <= MaxBlock && |block| == count
      requires buffer[..tapsPerPhase - 1 + count] == Stream(tapsPerPhase, c0 + block)[|c0|..]
      requires (|c0| + offset0) * interp + phase0 == OutputCount(interp, decim, |c0|) * decim
      ensures phase < interp && offset >= count
      ensures (|c0| + offset) * interp + phase == OutputCount(interp, decim, |c0| + count) * decim
      ensures Resampled(taps, interp, decim, c0 + block) == Resampled(taps, interp, decim, c0) + out
    {
      ghost var c1 := c0 + block;
      ghost var m0 := OutputCount(interp, decim, |c0|);
      ghost var all := Resampled(taps, interp, decim, c1);
      OutputCountMonotone(interp, decim, |c0|, |c1|);
      out := [];
      offset := offset0;
      phase := phase0;
      while offset < count
        invariant phase < interp && offset >= 0
        invariant (|c0| + offset) * interp + phase == (m0 + |out|) * decim
        invariant m0 + |out| <= |all|
        invariant out == all[m0 .. m0 + |out|]
        decreases count - offset, interp - phase
      {
        ghost var m := m0 + |out|;
        var sum := EmitOne(offset, phase, count, c0, block, m);
        offset, phase := NextPhase(offset, phase, |c0|, m);
        SliceExtend(all, m0, m);
        out := out + [sum];
      }
      Exhausted(taps, interp, decim, c0, c1, offset, phase, m0 + |out|);
      ResampledPrefix(taps, interp, decim, c0, block);
    }

    /** Output `m` of the loop: the dot product of phase `phase`'s filter with the window at `offset`. */
    method EmitOne(offset: int, phase: nat, count: nat, ghost c0: seq<real>, ghost block: seq<real>, ghost m: nat)
      returns (sum: real)
      requires Bank() && 0 <= offset < count && phase < interp && count <= MaxBlock && |block| == count
      requires buffer[..tapsPerPhase - 1 + count] == Stream(tapsPerPhase, c0 + block)[|c0|..]
      requires (|c0| + offset) * interp + phase == m * decim
      ensures m < |Resampled(taps, interp, decim, c0 + block)| && sum == Resampled(taps, interp, decim, c0 + block)[m]
    {
      ghost var c1 := c0 + block;
      sum := DotAt(offset, phase);
      SampleAt(taps, interp, decim, c0, c1, offset, phase, m);
      WindowOfBuffer(buffer[..tapsPerPhase - 1 + count], Stream(tapsPerPhase, c1), |c0|, offset, tapsPerPhase);
      assert buffer[offset .. offset + tapsPerPhase] == buffer[..tapsPerPhase - 1 + count][offset .. offset + tapsPerPhase];
    }

    /** `phase += decim`, whole multiples of `interp` carried into the offset: the accumulator moves on to output `m + 1`. */
    method NextPhase(offset: int, phase: nat, ghost start: nat, ghost m: nat) returns (offset': int, phase': nat)
      requires Bank() && phase < interp && (start + offset) * interp + phase == m * decim
      ensures phase' < interp && (start + offset') * interp + phase' == (m + 1) * decim
      ensures offset' > offset || (offset' == offset && phase' > phase)
    {
      var next := phase + decim;
      var carry := next / interp;
      Advance(interp, decim, start, offset, phase, m, carry, next % interp);
      offset' := offset + carry;
      phase' := next % interp;
    }

    /**
     * `process(input, count)`: consume `input[..count]` and return the
     * output samples whose window now lies inside the delay line.
     */
    method Process(input: seq<real>, count: nat) returns (out: seq<real>)
      requires Valid() && count <= |input| && count <= MaxBlock
      modifies this, buffer
      ensures Valid()
      ensures Consumed == old(Consumed) + input[..count]
      ensures Output() == old(Output()) + out
    {
      ghost var c0 := Consumed;
      Load(input, count);
      var emitted, newOffset, newPhase := Emit(offset, phase, count, c0, input[..count]);
      out := emitted;
      offset := newOffset;
      phase := newPhase;
      Shift(count, input[..count]);
    }

    /** `buffer.set(input.subarray(0, count), bufStartOffset)`: the block goes in after the carried history. */
    method Load(input: seq<real>, count: nat)
      requires Valid() && count <= |input| && count <= MaxBlock
      modifies buffer
      ensures buffer[..tapsPerPhase - 1 + count] == Stream(tapsPerPhase, Consumed + input[..count])[|Consumed|..]
    {
      ghost var history := buffer[..tapsPerPhase - 1];
      forall j | 0 <= j < count {
        buffer[bufStartOffset + j] := input[j];
      }
      LiveWindow(tapsPerPhase, Consumed, input[..count], history, buffer[..tapsPerPhase - 1 + count]);
    }

    /** `offset -= count` and `copyWithin`: the last `tapsPerPhase - 1` samples become the history in front of the next block. */
    method Shift(count: nat, ghost block: seq<real>)
      requires Bank() && count <= MaxBlock && |block| == count && phase < interp && offset >= count
      requires buffer[..tapsPerPhase - 1 + count] == Stream(tapsPerPhase, Consumed + block)[|Consumed|..]
      requires (|Consumed| + offset) * interp + phase == OutputCount(interp, decim, |Consumed| + count) * decim
      modifies this, buffer
      ensures Valid() && Consumed == old(Consumed) + block
    {
      ghost var c0 := Consumed;
      ghost var c1 := c0 + block;
      ghost var stream := Stream(tapsPerPhase, c1);
      ghost var shifted := buffer[..tapsPerPhase - 1 + count];
      offset := offset - count;
      forall j | 0 <= j < tapsPerPhase - 1 {
        buffer[j] := buffer[count + j];
      }
      Consumed := c1;
      assert buffer[..tapsPerPhase - 1] == shifted[count..];
      assert stream[|c0|..][count..] == stream[|c1|..];
    }
  }

  /** After the copy, the live part of the delay line is the stream from the first unconsumed history sample. */
  lemma LiveWindow(tpp: nat, c0: seq<real>, block: seq<real>, history: seq<real>, live: seq<real>)
    requires tpp > 0
    requires history == Stream(tpp, c0)[|c0|..]
    requires |live| == tpp - 1 + |block|
    requires live[..tpp - 1] == history && live[tpp - 1..] == block
    ensures live == Stream(tpp, c0 + block)[|c0|..]
  {
    assert Stream(tpp, c0 + block) == Stream(tpp, c0) + block;
    assert live == live[..tpp - 1] + live[tpp - 1..];
  }

  lemma SliceOfSlice(a: seq<real>, b: seq<real>, off: nat, n: nat)
    requires a == b && off + n <= |a|
    ensures a[off .. off + n] == b[off .. off + n]
  {
  }

  /** The dot product at delay-line position `offset` with branch `phase` is output sample `m`. */
  lemma SampleAt(taps: seq<real>, interp: nat, decim: nat, c0: seq<real>, c1: seq<real>, offset: nat, phase: nat, m: nat)
    requires interp > 0 && decim > 0 && |taps| > 0
    requires |c0| + offset < |c1| && phase < interp
    requires (|c0| + offset) * interp + phase == m * decim
    ensures m < OutputCount(interp, decim, |c1|)
    ensures var tpp := TapsPerPhase(|taps|, interp); var o := |c0| + offset;
      Resampled(taps, interp, decim, c1)[m] == PhaseDot(taps, interp, Stream(tpp, c1)[o .. o + tpp], phase, tpp)
  {
    DivModOf(interp, |c0| + offset, phase);
    OffsetInRange(interp, decim, |c1|, m);
  }

  /** One step of the phase accumulator moves the output index by one; the carry is zero only when the phase grows. */
  lemma Advance(interp: nat, decim: nat, c0: nat, offset: int, phase: nat, m: nat, carry: int, rest: nat)
    requires interp > 0 && decim > 0 && phase < interp
    requires carry == (phase + decim) / interp && rest == (phase + decim) % interp
    requires (c0 + offset) * interp + phase == m * decim
    ensures (c0 + offset + carry) * interp + rest == (m + 1) * decim
    ensures carry >= 0 && (carry == 0 ==> rest > phase)
    ensures rest < interp
  {
    assert phase + decim == carry * interp + rest;
    Distribute(c0 + offset, carry, interp);
    Distribute(m, 1, decim);
    if carry < 0 {
      ProductBounds(interp, carry);
    }
  }

  /** The window the dot product reads is the matching window of the stream. */
  lemma WindowOfBuffer(live: seq<real>, stream: seq<real>, start: nat, off: nat, n: nat)
    requires start <= |stream| && live == stream[start..] && off + n <= |live|
    ensures live[off .. off + n] == stream[start + off .. start + off + n]
  {
  }

  lemma SliceExtend(s: seq<real>, a: nat, b: nat)
    requires a <= b < |s|
    ensures s[a .. b] + [s[b]] == s[a .. b + 1]
  {
  }

  /** Once the window start has left the block, every output the block owes has been emitted. */
  lemma Exhausted(taps: seq<real>, interp: nat, decim: nat, c0: seq<real>, c1: seq<real>, offset: int, phase: nat, m: nat)
    requires interp > 0 && decim > 0 && |taps| > 0
    requires |c0| <= |c1| && offset >= |c1| - |c0| && phase < interp
    requires (|c0| + offset) * interp + phase == m * decim
    requires m <= OutputCount(interp, decim, |c1|)
    ensures m == OutputCount(interp, decim, |c1|)
  {
    DivModOf(interp, |c0| + offset, phase);
    OffsetInRange(interp, decim, |c1|, m);
  }

  /** The prototype low-pass of a resampler from `inRate` to `outRate`, every tap multiplied by `interp`. */
  function PrototypeTaps(m: Transcendentals, inRate: nat, outRate: nat): (taps: seq<real>)
    requires inRate > 0 && outRate > 0 && m.pi != 0.0
    ensures var red := Ratio.Reduce(inRate, outRate);
      |taps| == (76 * inRate * red.interp) / Min(inRate, outRate) && |taps| >= 76
  {
    var red := Ratio.Reduce(inRate, outRate);
    var bandwidth := (if inRate < outRate then inRate else outRate) as real / 2.0;
    var proto := Filters.LowPassTaps(m, bandwidth, bandwidth * 0.1, (inRate * red.interp) as real, false);
    Filters.ResamplerTapCount(inRate, outRate, red.interp);
    PrototypeTapsAtLeast76(inRate, outRate, red.interp);
    MapReal(proto, x => x * red.interp as real)
  }

  lemma PrototypeTapsAtLeast76(inRate: nat, outRate: nat, interp: nat)
    requires inRate > 0 && outRate > 0 && interp > 0
    ensures (76 * inRate * interp) / Min(inRate, outRate) >= 76
  {
    var mn := Min(inRate, outRate);
    MulMonotone(mn, inRate * interp, 76);
    assert inRate <= inRate * interp by { MulMonotone(1, interp, inRate); }
    assert 76 * inRate * interp >= 76 * mn;
    DivMonotone(76 * mn, 76 * inRate * interp, mn);
    DivModOf(mn, 76, 0);
  }

  /** `RationalResampler`: reduces the rate ratio and owns a polyphase resampler. */
  class RationalResampler {
    const inRate: nat
    const outRate: nat
    const interp: nat
    const decim: nat
    const resamp: PolyphaseResampler
    ghost const Repr: set<object>

    ghost predicate Valid()
      reads this, Repr
    {
      && Repr == {this, resamp, resamp.buffer, resamp.phases}
      && inRate > 0 && outRate > 0
      && Ratio.Reduce(inRate, outRate) == Ratio.Reduced(interp, decim)
      && resamp.interp == interp && resamp.decim == decim
      && resamp.Valid()
    }

    ghost function Consumed(): seq<real>
      reads this, resamp
    {
      resamp.Consumed
    }

    ghost function Output(): seq<real>
      reads this, Repr
      requires Valid()
    {
      resamp.Output()
    }

    /**
     * `new RationalResampler(inSamplerate, outSamplerate)` for integral
     * rates (where `Math.round` is the identity).
     */
    constructor (m: Transcendentals, inRate: nat, outRate: nat)
      requires inRate > 0 && outRate > 0 && m.pi != 0.0
      ensures Valid() && fresh(Repr)
      ensures this.inRate == inRate && this.outRate == outRate
      ensures resamp.taps == PrototypeTaps(m, inRate, outRate)
      ensures Consumed() == []
    {
      var red := Ratio.Reduce(inRate, outRate);
      this.inRate := inRate;
      this.outRate := outRate;
      interp := red.interp;
      decim := red.decim;
      var r := new PolyphaseResampler(red.interp, red.decim, PrototypeTaps(m, inRate, outRate));
      resamp := r;
      Repr := {this, r, r.buffer, r.phases};
    }

    /** `process(input)`: the whole input block goes through the polyphase resampler. */
    method Process(input: seq<real>) returns (out: seq<real>)
      requires Valid() && |input| <= MaxBlock
      modifies resamp, resamp.buffer
      ensures Valid()
      ensures Consumed() == old(Consumed()) + input
      ensures Output() == old(Output()) + out
    {
      out := resamp.Process(input, |input|);
      assert input[..|input|] == input;
    }
  }

  /** Feeding a fresh resampler chunk by chunk: the outputs join up to the output for the joined input. */
  method ProcessChunks(r: RationalResampler, chunks: seq<seq<real>>) returns (outs: seq<seq<real>>)
    requires r.Valid() && r.Consumed() == []
    requires forall k :: 0 <= k < |chunks| ==> |chunks[k]| <= MaxBlock
    modifies r.resamp, r.resamp.buffer
    ensures r.Valid() && r.Consumed() == Flatten(chunks)
    ensures |outs| == |chunks|
    ensures Flatten(outs) == Resampled(r.resamp.taps, r.interp, r.decim, Flatten(chunks))
  {
    outs := [];
    var k := 0;
    while k < |chunks|
      invariant 0 <= k <= |chunks| && |outs| == k
      invariant r.Valid() && r.Consumed() == Flatten(chunks[..k])
      invariant Flatten(outs) == r.Output()
    {
      var out := r.Process(chunks[k]);
      FlattenAppend(outs, out);
      FlattenAppend(chunks[..k], chunks[k]);
      assert chunks[..k + 1] == chunks[..k] + [chunks[k]];
      outs := outs + [out];
      k := k + 1;
    }
    assert chunks[..k] == chunks;
  }
}
