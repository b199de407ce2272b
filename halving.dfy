/**
 * The in-place pairwise-averaging benchmark: five stages, each overwriting
 * `buf[k]` with the mean of `buf[2k]` and `buf[2k + 1]` for `k < len / 2`
 * and halving the live length. Each stage is proved equal to its
 * out-of-place definition: the write at `k` never destroys a value a later
 * iteration reads, since those are at indices `2k' >= k' > k`.
 */
module Halving {

  /** `const N = 8192`. */
  const N: nat := 8192
  /** `for (let s = 0; s < 5; s++)`. */
  const StageCount: nat := 5

  /** One stage, out of place: the first `len / 2` entries become pair means, the rest are kept. */
  function HalveOnce(s: seq<real>, len: nat): (r: seq<real>)
    requires len <= |s|
    ensures |r| == |s|
    ensures forall k :: 0 <= k < len / 2 ==> r[k] == (s[2 * k] + s[2 * k + 1]) * 0.5
    ensures forall k :: len / 2 <= k < |s| ==> r[k] == s[k]
  {
    seq(|s|, k requires 0 <= k < |s| => if k < len / 2 then (s[2 * k] + s[2 * k + 1]) * 0.5 else s[k])
  }

  /** `t` stages from live length `len`. */
  function Stages(s: seq<real>, len: nat, t: nat): (r: seq<real>)
    requires len <= |s|
    ensures |r| == |s|
    decreases t
  {
    if t == 0 then s else Stages(HalveOnce(s, len), len / 2, t - 1)
  }

  /** The live length after `t` stages. */
  function StageLength(len: nat, t: nat): nat
    decreases t
  {
    if t == 0 then len else StageLength(len / 2, t - 1)
  }

  /** `cic_len` after five stages from 8192 is 256. */
  lemma BenchmarkLength()
    ensures StageLength(N, StageCount) == 256
  {
  }

  /** Halving never grows the live length, so every stage stays inside the array. */
  lemma {:induction false} StageLengthBound(len: nat, t: nat)
    ensures StageLength(len, t) <= len
    decreases t
  {
    if t > 0 {
      StageLengthBound(len / 2, t - 1);
    }
  }

  /** The array after one stage: the inner loop of the benchmark, in place. */
  method HalveStage(a: array<real>, len: nat) returns (half: nat)
    requires len <= a.Length
    modifies a
    ensures half == len / 2
    ensures a[..] == HalveOnce(old(a[..]), len)
  {
    half := len / 2;
    ghost var s0 := a[..];
    ghost var r := HalveOnce(s0, len);
    var k := 0;
    while k < half
      invariant 0 <= k <= half && 2 * half <= len
      invariant forall j {:trigger a[j]} :: 0 <= j < k ==> a[j] == r[j]
      invariant forall j {:trigger a[j]} :: k <= j < a.Length ==> a[j] == s0[j]
    {
      a[k] := (a[2 * k] + a[2 * k + 1]) * 0.5;
      k := k + 1;
    }
    assert a[..] == r;
  }

  /** The benchmark: copy the input, run five stages, report `cic_len` and `cic_buf_i[0]`. */
  method Benchmark(input: seq<real>) returns (len: nat, first: real)
    requires |input| == N
    ensures len == 256
    ensures first == Stages(input, N, StageCount)[0]
  {
    var buf := new real[|input|](i requires 0 <= i < |input| => input[i]);
    assert buf[..] == input;
    len := N;
    var s := 0;
    while s < StageCount
      invariant 0 <= s <= StageCount
      invariant len == StageLength(N, s) && len <= buf.Length
      invariant Stages(input, N, StageCount) == Stages(buf[..], len, StageCount - s)
    {
      StageLengthBound(N, s + 1);
      StageLengthShift(N, s);
      len := HalveStage(buf, len);
      s := s + 1;
    }
    BenchmarkLength();
    assert Stages(buf[..], len, 0) == buf[..];
    first := buf[0];
  }

  lemma {:induction false} StageLengthShift(len: nat, t: nat)
    ensures StageLength(len, t + 1) == StageLength(len, t) / 2
    decreases t
  {
    if t > 0 {
      StageLengthShift(len / 2, t - 1);
    }
  }
}
