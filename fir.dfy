/**
 * The circular-buffer FIR filter of the worker: a history array written at
 * `histIdx`, read newest-first by two loops that together use every tap
 * once. The history is tied to a ghost record of every sample fed since the
 * last `setTaps`/`reset`, preceded by `taps.length` zeros.
 */
module Fir {
  import opened Common
  import opened Arith

  /** `histIdx++; if (histIdx >= len) histIdx = 0;` */
  function NextIndex(h: nat, len: nat): (r: nat)
    requires h < len
    ensures r < len && r == (h + 1) % len
  {
    if h + 1 >= len then
      DivModOf(len, 1, 0);
      0
    else
      DivModOf(len, 0, h + 1);
      h + 1
  }

  /** `sum_{j < n} taps[j] * xs[|xs| - 1 - j]`: tap `j` weighs the sample `j` steps before the newest. */
  function ConvPrefix(taps: seq<real>, xs: seq<real>, n: nat): real
    requires n <= |taps| && n <= |xs|
  {
    if n == 0 then 0.0 else ConvPrefix(taps, xs, n - 1) + taps[n - 1] * xs[|xs| - n]
  }

  /** The filter's output once the newest sample is the last of `xs`. */
  function Conv(taps: seq<real>, xs: seq<real>): real
    requires |taps| <= |xs|
  {
    ConvPrefix(taps, xs, |taps|)
  }

  /**
   * The impulse response: after a single 1 preceded by zeros, and `j` further
   * zeros, the output is exactly `taps[j]`; before that sample arrives it is 0.
   */
  lemma {:induction false} ImpulseResponsePrefix(taps: seq<real>, before: nat, j: nat, n: nat)
    requires n <= |taps| && n <= before + 1 + j
    ensures ConvPrefix(taps, Zeros(before) + [1.0] + Zeros(j), n) == if j < n then taps[j] else 0.0
  {
    var xs := Zeros(before) + [1.0] + Zeros(j);
    if n > 0 {
      ImpulseResponsePrefix(taps, before, j, n - 1);
      assert xs[|xs| - n] == if n - 1 == j then 1.0 else 0.0;
    }
  }

  lemma ImpulseResponse(taps: seq<real>, j: nat)
    requires j < |taps|
    ensures Conv(taps, Zeros(|taps|) + [1.0] + Zeros(j)) == taps[j]
  {
    ImpulseResponsePrefix(taps, |taps|, j, |taps|);
  }

  /** The default single tap `[1.0]` passes every sample through unchanged. */
  lemma {:induction false} IdentityTap(xs: seq<real>)
    requires |xs| >= 1
    ensures Conv([1.0], xs) == xs[|xs| - 1]
  {
    assert ConvPrefix([1.0], xs, 0) == 0.0;
  }

  /**
   * The ring layout: `hist[(h + t) % len]` is the `t`-th oldest of the last
   * `len` samples of `past`, so slot `h` holds the oldest and is written next.
   */
  ghost predicate Aligned(hist: seq<real>, past: seq<real>, h: nat)
  {
    && |past| >= |hist|
    && (if |hist| == 0 then h == 0 else h < |hist|)
    && (forall k :: h <= k < |hist| ==> hist[k] == past[|past| - |hist| + (k - h)])
    && (forall k :: 0 <= k < h && k < |hist| ==> hist[k] == past[|past| - h + k])
  }

  /** Just after a write at `h`: slot `k` holds the sample `h - k` steps (mod `len`) before the newest. */
  ghost predicate NewestFirst(hist: seq<real>, p: seq<real>, h: nat)
    requires h < |hist| <= |p|
  {
    forall k :: 0 <= k < |hist| ==> hist[k] == p[|p| - 1 - (if k <= h then h - k else h + |hist| - k)]
  }

  /** Writing the next sample over the oldest keeps the ring aligned one index further on. */
  lemma WriteNewest(hist: seq<real>, past: seq<real>, h: nat, x: real)
    requires h < |hist| && Aligned(hist, past, h)
    ensures NewestFirst(hist[h := x], past + [x], h)
    ensures Aligned(hist[h := x], past + [x], NextIndex(h, |hist|))
  {
  }

  class FIRFilter {
    var taps: seq<real>
    var history: array<real>
    var histIdx: nat
    /** `taps.length` zeros, then every sample fed since the history was last cleared. */
    ghost var Past: seq<real>

    /**
     * `history[(histIdx + t) % len]` holds the `t`-th oldest of the last `len`
     * samples, so the slot at `histIdx` is the oldest one and is overwritten next.
     */
    ghost predicate Valid()
      reads this, history
    {
      && history.Length == |taps|
      && Aligned(history[..], Past, histIdx)
    }

    /** The output `processOne` returns for the last sample of `Past`. */
    ghost function Output(): real
      reads this
      requires |Past| >= |taps|
    {
      Conv(taps, Past)
    }

    /** `new FIRFilter(taps)`; with no taps the filter is the single tap `[1.0]`. */
    constructor (initial: Option<seq<real>>)
      ensures Valid() && fresh(history)
      ensures taps == (if initial.None? then [1.0] else initial.value)
      ensures histIdx == 0 && Past == Zeros(|taps|)
    {
      var t := if initial.None? then [1.0] else initial.value;
      taps := t;
      history := new real[|t|](_ => 0.0);
      histIdx := 0;
      Past := Zeros(|t|);
    }

    /** `setTaps`: new taps, a fresh zeroed history of the same length, index 0. */
    method SetTaps(newTaps: seq<real>)
      modifies this
      ensures Valid() && fresh(history)
      ensures taps == newTaps && histIdx == 0
      ensures forall k :: 0 <= k < history.Length ==> history[k] == 0.0
      ensures Past == Zeros(|newTaps|)
    {
      taps := newTaps;
      history := new real[|newTaps|](_ => 0.0);
      histIdx := 0;
      Past := Zeros(|newTaps|);
    }

    /** `reset`: zero the history and rewind the index; the taps are kept. */
    method Reset()
      requires Valid()
      modifies this, history
      ensures Valid() && history == old(history) && taps == old(taps)
      ensures histIdx == 0
      ensures forall k :: 0 <= k < history.Length ==> history[k] == 0.0
      ensures Past == Zeros(|taps|)
    {
      forall k | 0 <= k < history.Length {
        history[k] := 0.0;
      }
      histIdx := 0;
      Past := Zeros(|taps|);
    }

    /**
     * The two dot-product loops of `processOne`, once the newest sample `p`'s
     * last element sits at `h`: from `h` down to 0, then from the end down to
     * `h + 1`, with the tap index counting up from 0.
     */
    method DotNewestFirst(h: nat, ghost p: seq<real>) returns (out: real)
        requires h < history.Length == |taps| <= |p|
      requires NewestFirst(history[..], p, h)
      ensures out == Conv(taps, p)
    {
      var len := history.Length;
      out := 0.0;
      var tapIdx := 0;
      var i: int := h;
      while i >= 0
        invariant -1 <= i <= h && tapIdx == h - i
        invariant out == ConvPrefix(taps, p, tapIdx)
      {
        out := out + history[i] * taps[tapIdx];
        tapIdx := tapIdx + 1;
        i := i - 1;
      }
      i := len - 1;
      while i > h
        invariant h <= i <= len - 1 && tapIdx == h + len - i
        invariant out == ConvPrefix(taps, p, tapIdx)
      {
        out := out + history[i] * taps[tapIdx];
        tapIdx := tapIdx + 1;
        i := i - 1;
      }
    }

    /**
     * `processOne(sample)`: store the sample at `histIdx`, take the dot product
     * newest-first and advance `histIdx` by one modulo the length.
     */
    method ProcessOne(sample: real) returns (out: real)
      requires Valid() && |taps| > 0
      modifies this, history
      ensures Valid() && history == old(history) && taps == old(taps)
      ensures Past == old(Past) + [sample]
      ensures histIdx == NextIndex(old(histIdx), |taps|)
      ensures out == Conv(taps, Past)
    {
      var len := history.Length;
      var h := histIdx;
      ghost var p := Past + [sample];
      WriteNewest(history[..], Past, h, sample);
      history[h] := sample;
      out := DotNewestFirst(h, p);
      histIdx := h + 1;
      if histIdx >= len {
        histIdx := 0;
      }
      Past := p;
    }
  }

  /** Feeding a whole block through `processOne`: output `n` is the convolution ending at input `n`. */
  method ProcessBlock(f: FIRFilter, xs: seq<real>) returns (ys: seq<real>)
    requires f.Valid() && |f.taps| > 0
    modifies f, f.history
    ensures f.Valid() && f.history == old(f.history) && f.taps == old(f.taps)
    ensures f.Past == old(f.Past) + xs
    ensures |ys| == |xs|
    ensures forall n :: 0 <= n < |xs| ==> ys[n] == Conv(f.taps, old(f.Past) + xs[..n + 1])
  {
    ys := [];
    var n := 0;
    while n < |xs|
      invariant 0 <= n <= |xs| && |ys| == n
      invariant f.Valid() && f.history == old(f.history) && f.taps == old(f.taps)
      invariant f.Past == old(f.Past) + xs[..n]
      invariant forall t :: 0 <= t < n ==> ys[t] == Conv(f.taps, old(f.Past) + xs[..t + 1])
    {
      var y := f.ProcessOne(xs[n]);
      assert xs[..n + 1] == xs[..n] + [xs[n]];
      ys := ys + [y];
      n := n + 1;
    }
    assert xs[..n] == xs;
  }
}
