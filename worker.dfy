/**
 * The worker's VFO bookkeeping and the audio half of the USB transfer
 * callback. The worker keeps four parallel lists, one entry per VFO:
 * settings, native DDC, demodulator state and DDC output capacity.
 * `addVfo`, `removeVfo` and `setVfoParams` maintain them. For each transfer
 * the callback feeds the spectrum tap, runs every VFO, mixes the audible
 * outputs with a volume-squared gain and hard clipping, and hands the mix
 * to the audio batcher.
 */
module Worker {
  import opened Common
  import Native
  import opened Vfo
  import opened Demod
  import Resampling
  import Batching
  import Spectrum

  /** `vfoParams[v].volume || 50`, over 100, squared: the SDR++ volume curve. */
  function VolumeGain(volume: real): (g: real)
    ensures g >= 0.0
    ensures volume != 0.0 ==> g * 10000.0 == volume * volume
  {
    var v := OrDefault(volume, 50.0) / 100.0;
    v * v
  }

  /** The `|| 50` quirk: a volume of 0 plays at the default volume rather than muting. */
  lemma ZeroVolumeIsDefault()
    ensures VolumeGain(0.0) == VolumeGain(50.0) == 0.25
    ensures VolumeGain(100.0) == 1.0
  {
  }

  /** `Math.max(...lengths)`: the longest output, 0 for none. */
  function MaxLength(outs: seq<seq<real>>): (n: nat)
    ensures forall k :: 0 <= k < |outs| ==> |outs[k]| <= n
    ensures |outs| == 0 ==> n == 0
    ensures |outs| > 0 ==> exists k :: 0 <= k < |outs| && |outs[k]| == n
  {
    if |outs| == 0 then 0 else Max(MaxLength(outs[..|outs| - 1]), |outs[|outs| - 1]|)
  }

  /**
   * Sample `i` of the mix of the first `k` outputs: the sum, over those
   * long enough to reach `i`, of the sample times its gain.
   */
  function MixedAt(outs: seq<seq<real>>, gains: seq<real>, k: nat, i: nat): real
    requires k <= |outs| == |gains|
  {
    if k == 0 then 0.0
    else MixedAt(outs, gains, k - 1, i) + (if i < |outs[k - 1]| then Scaled(outs[k - 1][i], gains[k - 1]) else 0.0)
  }

  /** A sample times its gain (a named product, so that it matches as one term). */
  function Scaled(x: real, gain: real): real
  {
    x * gain
  }

  /** Every sample times `gain`, clipped to [-1, 1]. */
  function ScaleClip(s: seq<real>, gain: real): (r: seq<real>)
    ensures |r| == |s| && forall i :: 0 <= i < |s| ==> r[i] == Clip(Scaled(s[i], gain))
  {
    seq(|s|, i requires 0 <= i < |s| => Clip(Scaled(s[i], gain)))
  }

  /**
   * What the callback hands to the batcher for the audible outputs of one
   * transfer: nothing for none; one output scaled and clipped; several
   * summed to the longest length and clipped.
   */
  function MixOf(outs: seq<seq<real>>, gains: seq<real>): seq<real>
    requires |outs| == |gains|
  {
    if |outs| == 0 then []
    else if |outs| == 1 then ScaleClip(outs[0], gains[0])
    else seq(MaxLength(outs), i requires 0 <= i => Clip(MixedAt(outs, gains, |outs|, i)))
  }

  /** The single-output path computes exactly what the mixing path would for one output. */
  lemma SingleOutputIsOneWayMix(out: seq<real>, gain: real)
    ensures var r := MixOf([out], [gain]);
      && |r| == MaxLength([out])
      && forall i :: 0 <= i < |r| ==> r[i] == Clip(MixedAt([out], [gain], 1, i))
  {
    assert MaxLength([out]) == |out|;
    forall i | 0 <= i < |out|
      ensures MixedAt([out], [gain], 1, i) == Scaled(out[i], gain)
    {
      assert MixedAt([out], [gain], 0, i) == 0.0;
    }
  }

  /** Every mixed sample is clipped, and a sample no output reaches is silence. */
  lemma MixBounds(outs: seq<seq<real>>, gains: seq<real>)
    requires |outs| == |gains|
    ensures var r := MixOf(outs, gains);
      && |r| == MaxLength(outs)
      && forall i :: 0 <= i < |r| ==> -1.0 <= r[i] <= 1.0
  {
    var r := MixOf(outs, gains);
    if |outs| == 1 {
      assert MaxLength(outs) == |outs[0]|;
    } else if |outs| > 1 {
      forall i | 0 <= i < |r|
        ensures -1.0 <= r[i] <= 1.0
      {
        assert r[i] == Clip(MixedAt(outs, gains, |outs|, i));
      }
    }
  }

  /** An output too short to reach sample `i` contributes nothing to it. */
  lemma {:induction false} ShortOutputsAreSilent(outs: seq<seq<real>>, gains: seq<real>, k: nat, i: nat)
    requires k <= |outs| == |gains|
    requires forall j :: 0 <= j < k ==> |outs[j]| <= i
    ensures MixedAt(outs, gains, k, i) == 0.0
  {
    if k > 0 {
      ShortOutputsAreSilent(outs, gains, k - 1, i);
    }
  }

  /** The single-VFO loop: every sample times the gain, then clipped, in place. */
  method ScaleAndClip(a: array<real>, gain: real)
    modifies a
    ensures a[..] == ScaleClip(old(a[..]), gain)
  {
    var i := 0;
    while i < a.Length
      invariant 0 <= i <= a.Length
      invariant forall j :: 0 <= j < i ==> a[j] == Clip(Scaled(old(a[j]), gain))
      invariant forall j :: i <= j < a.Length ==> a[j] == old(a[j])
    {
      var x := Scaled(a[i], gain);
      if x > 1.0 {
        x := 1.0;
      } else if x < -1.0 {
        x := -1.0;
      }
      a[i] := x;
      i := i + 1;
    }
    assert a[..] == ScaleClip(old(a[..]), gain);
  }

  /** One pass of the mixing loop: output `k` times its gain added onto `mixed`. */
  method MixIn(mixed: array<real>, outs: seq<seq<real>>, gains: seq<real>, k: nat)
    requires k < |outs| == |gains| && |outs[k]| <= mixed.Length
    requires forall i :: 0 <= i < mixed.Length ==> mixed[i] == MixedAt(outs, gains, k, i)
    modifies mixed
    ensures forall i :: 0 <= i < mixed.Length ==> mixed[i] == MixedAt(outs, gains, k + 1, i)
  {
    var audio := outs[k];
    var vol := gains[k];
    var i := 0;
    while i < |audio|
      invariant 0 <= i <= |audio|
      invariant forall j :: 0 <= j < i ==> mixed[j] == MixedAt(outs, gains, k + 1, j)
      invariant forall j :: i <= j < mixed.Length ==> mixed[j] == MixedAt(outs, gains, k, j)
    {
      mixed[i] := mixed[i] + Scaled(audio[i], vol);
      i := i + 1;
    }
  }

  /** The several-VFO path: a zeroed buffer of the longest length, every output mixed in, then clipped. */
  method MixSeveral(outs: seq<seq<real>>, gains: seq<real>) returns (mixed: array<real>)
    requires |outs| == |gains| && |outs| > 1
    ensures fresh(mixed)
    ensures mixed[..] == MixOf(outs, gains)
  {
    var maxLen := MaxLength(outs);
    mixed := new real[maxLen](_ => 0.0);
    var k := 0;
    while k < |outs|
      invariant 0 <= k <= |outs|
      invariant forall i :: 0 <= i < mixed.Length ==> mixed[i] == MixedAt(outs, gains, k, i)
    {
      MixIn(mixed, outs, gains, k);
      k := k + 1;
    }
    ClipInPlace(mixed);
  }

  /** The mixing step of the callback: hand the mix of the audible outputs, if any, to the batcher. */
  method MixAndPush(outs: seq<seq<real>>, gains: seq<real>, batch: Batching.Batcher)
    requires |outs| == |gains| && batch.Valid()
    modifies batch, batch.buf
    ensures batch.Valid()
    ensures batch.Pushed == old(batch.Pushed) + MixOf(outs, gains)
  {
    if |outs| == 1 {
      var audio := new real[|outs[0]|](i requires 0 <= i < |outs[0]| => outs[0][i]);
      assert audio[..] == outs[0];
      ScaleAndClip(audio, gains[0]);
      batch.Push(audio[..]);
    } else if |outs| > 1 {
      var mixed := MixSeveral(outs, gains);
      batch.Push(mixed[..]);
    } else {
      assert old(batch.Pushed) + MixOf(outs, gains) == batch.Pushed;
    }
  }

  /**
   * The DDC calls `setVfoParams` makes: the bandwidth exactly as given when
   * the patch carries one, and the merged squelch settings when the patch
   * carries either squelch key.
   */
  function SetParamsCalls(patch: VfoPatch, merged: VfoParams): seq<Native.DdcCall>
  {
    (if patch.bandwidth.Some? then [Native.SetBandwidth(patch.bandwidth.value)] else [])
      + (if patch.squelchLevel.Some? || patch.squelchEnabled.Some?
         then [Native.SetSquelch(OrDefault(merged.squelchLevel, -100.0), merged.squelchEnabled)]
         else [])
  }

  /** A patch touching neither bandwidth nor squelch leaves the DDC alone; one with all three makes both calls. */
  lemma SetParamsCallsCases(p: VfoParams, patch: VfoPatch)
    ensures patch.bandwidth.None? && patch.squelchLevel.None? && patch.squelchEnabled.None? ==>
      SetParamsCalls(patch, Merge(p, patch)) == []
    ensures patch.bandwidth.Some? && patch.squelchLevel.Some? && patch.squelchEnabled.Some? ==>
      SetParamsCalls(patch, Merge(p, patch)) ==
        [Native.SetBandwidth(patch.bandwidth.value),
         Native.SetSquelch(OrDefault(patch.squelchLevel.value, -100.0), patch.squelchEnabled.value)]
  {
  }

  /** The transfer's audio step was cut short by a VFO whose resampler threw. */
  predicate Aborted(outcome: seq<VfoAudio>)
  {
    |outcome| > 0 && outcome[|outcome| - 1].Failed?
  }

  /** The samples of the VFOs that produced audio, in VFO order (`vfoOutputs[k].audio`). */
  function Audible(outcome: seq<VfoAudio>): (outs: seq<seq<real>>)
    ensures |outs| <= |outcome|
  {
    if |outcome| == 0 then [] else
    var last := outcome[|outcome| - 1];
    Audible(outcome[..|outcome| - 1]) + (if last.Audio? then [last.samples] else [])
  }

  /** The gain of each of those VFOs (`vfoOutputs[k].volume`, squared over 100). */
  function Gains(outcome: seq<VfoAudio>, params: seq<VfoParams>): (gains: seq<real>)
    requires |outcome| <= |params|
    ensures |gains| == |Audible(outcome)|
  {
    if |outcome| == 0 then [] else
    var last := outcome[|outcome| - 1];
    Gains(outcome[..|outcome| - 1], params) + (if last.Audio? then [VolumeGain(params[|outcome| - 1].volume)] else [])
  }

  /**
   * Each VFO run so far (the first `|outcome|`) turned its state `before`
   * into its audio `outcome` and its state `after` as `processVfoAudio` does,
   * given its settings and what its DDC produced.
   */
  predicate AllProcessed(m: Transcendentals, params: seq<VfoParams>, produced: seq<seq<real>>,
                         before: seq<VfoSnapshot>, outcome: seq<VfoAudio>, after: seq<VfoSnapshot>)
  {
    && |before| == |outcome| && |after| == |outcome| && |outcome| <= |params| && |outcome| <= |produced|
    && forall v {:trigger ProcessedFrom(m, params[v], before[v], produced[v], outcome[v], after[v])} ::
      0 <= v < |outcome| ==> ProcessedFrom(m, params[v], before[v], produced[v], outcome[v], after[v])
  }

  /** One more VFO run. */
  lemma AllProcessedSnoc(m: Transcendentals, params: seq<VfoParams>, produced: seq<seq<real>>,
                         before: seq<VfoSnapshot>, outcome: seq<VfoAudio>, after: seq<VfoSnapshot>,
                         b: VfoSnapshot, r: VfoAudio, a: VfoSnapshot)
    requires AllProcessed(m, params, produced, before, outcome, after)
    requires |outcome| < |params| && |outcome| < |produced|
    requires ProcessedFrom(m, params[|outcome|], b, produced[|outcome|], r, a)
    ensures AllProcessed(m, params, produced, before + [b], outcome + [r], after + [a])
  {
    forall v | 0 <= v < |outcome| + 1
      ensures ProcessedFrom(m, params[v], (before + [b])[v], produced[v], (outcome + [r])[v], (after + [a])[v])
    {
      if v < |outcome| {
        assert ProcessedFrom(m, params[v], before[v], produced[v], outcome[v], after[v]);
      }
    }
  }

  /** The call log of each DDC. */
  ghost function Logs(ds: seq<Native.DspProcessor>): (logs: seq<seq<Native.DdcCall>>)
    reads ds
    ensures |logs| == |ds| && forall v :: 0 <= v < |ds| ==> logs[v] == ds[v].log
  {
    if ds == [] then [] else Logs(ds[..|ds| - 1]) + [ds[|ds| - 1].log]
  }

  /** The state of each VFO, as values. */
  ghost function Snapshots(states: seq<VfoState>): (snaps: seq<VfoSnapshot>)
    reads states, set v | 0 <= v < |states| :: states[v].audioResampler
    reads set v | 0 <= v < |states| :: states[v].audioResampler.resamp
    ensures |snaps| == |states| && forall v :: 0 <= v < |states| ==> snaps[v] == states[v].Snapshot()
  {
    if states == [] then [] else Snapshots(states[..|states| - 1]) + [states[|states| - 1].Snapshot()]
  }

  /** No entry of `s` appears twice. */
  predicate Distinct<T(==)>(s: seq<T>)
  {
    forall i, j :: 0 <= i < |s| && 0 <= j < |s| && i != j ==> s[i] != s[j]
  }

  /** `this.ddcs.forEach(d => d.free())`. */
  method FreeAll(ds: seq<Native.DspProcessor>)
    requires Distinct(ds)
    modifies ds
    ensures forall i :: 0 <= i < |ds| ==> ds[i].log == old(ds[i].log) + [Native.Free]
  {
    var k := 0;
    while k < |ds|
      invariant 0 <= k <= |ds|
      invariant forall i :: 0 <= i < k ==> ds[i].log == old(ds[i].log) + [Native.Free]
      invariant forall i :: k <= i < |ds| ==> ds[i].log == old(ds[i].log)
    {
      ds[k].Call(Native.Free);
      k := k + 1;
    }
  }

  /** The objects one VFO state owns: itself and its audio resampler. */
  ghost function Footprint(st: VfoState): set<object>
    reads st
  {
    {st, st.audioResampler, st.audioResampler.resamp} + st.audioResampler.Repr
  }

  /**
   * Every state in `states` is valid and built over `m`, and their
   * footprints lie in `repr` and are pairwise disjoint: each one's
   * footprint is kept out of the part of `repr` the later ones may use.
   */
  ghost predicate Pool(m: Transcendentals, states: seq<VfoState>, repr: set<object>)
    reads repr
    decreases |states|, 2
  {
    |states| == 0 || PoolHead(m, states, repr)
  }

  /** A non-empty pool: its first state's footprint lies in `repr`. */
  ghost predicate PoolHead(m: Transcendentals, states: seq<VfoState>, repr: set<object>)
    requires |states| > 0
    reads repr
    decreases |states|, 1
  {
    states[0] in repr && Footprint(states[0]) <= repr && PoolRest(m, states, repr)
  }

  /** The first state is valid, and the rest form a pool over what its footprint leaves. */
  ghost predicate PoolRest(m: Transcendentals, states: seq<VfoState>, repr: set<object>)
    requires |states| > 0 && states[0] in repr && Footprint(states[0]) <= repr
    reads repr
    decreases |states|, 0
  {
    states[0].m == m && states[0].Valid() && Pool(m, states[1..], repr - Footprint(states[0]))
  }

  /** A non-empty pool, spelled out: its first state owns its footprint, and the rest form a pool over what is left. */
  lemma PoolUnfold(m: Transcendentals, states: seq<VfoState>, repr: set<object>)
    requires |states| > 0 && Pool(m, states, repr)
    ensures states[0] in repr && Footprint(states[0]) <= repr
    ensures states[0].m == m && states[0].Valid()
    ensures Pool(m, states[1..], repr - Footprint(states[0]))
  {
    assert PoolHead(m, states, repr);
    assert PoolRest(m, states, repr);
  }

  /** The converse: a valid first state owning its footprint, ahead of a pool over the rest, makes a pool. */
  lemma PoolFold(m: Transcendentals, states: seq<VfoState>, repr: set<object>)
    requires |states| > 0 && states[0] in repr && Footprint(states[0]) <= repr
    requires states[0].m == m && states[0].Valid()
    requires Pool(m, states[1..], repr - Footprint(states[0]))
    ensures Pool(m, states, repr)
  {
    assert PoolRest(m, states, repr);
    assert PoolHead(m, states, repr);
  }

  /** Each member of a pool is valid and inside it, and its footprint is apart from every other member's. */
  lemma {:induction false} PoolAt(m: Transcendentals, states: seq<VfoState>, repr: set<object>, v: nat)
    requires Pool(m, states, repr) && v < |states|
    ensures states[v] in repr && Footprint(states[v]) <= repr
    ensures states[v].m == m && states[v].Valid()
    ensures forall j :: 0 <= j < |states| && j != v ==> Footprint(states[j]) !! Footprint(states[v])
  {
    PoolUnfold(m, states, repr);
    if v > 0 {
      PoolAt(m, states[1..], repr - Footprint(states[0]), v - 1);
    }
    forall j | 0 <= j < |states| && j != v
      ensures Footprint(states[j]) !! Footprint(states[v])
    {
      PoolSeparate(m, states, repr, j, v);
    }
  }

  /** Two members of a pool at different places have disjoint footprints. */
  lemma {:induction false} PoolSeparate(m: Transcendentals, states: seq<VfoState>, repr: set<object>, i: nat, j: nat)
    requires Pool(m, states, repr) && i < |states| && j < |states| && i != j
    ensures Footprint(states[i]) !! Footprint(states[j])
  {
    PoolUnfold(m, states, repr);
    var rest := repr - Footprint(states[0]);
    if i == 0 {
      PoolInside(m, states[1..], rest, j - 1);
    } else if j == 0 {
      PoolInside(m, states[1..], rest, i - 1);
    } else {
      PoolSeparate(m, states[1..], rest, i - 1, j - 1);
    }
  }

  /** A member's footprint lies in the pool's set. */
  lemma {:induction false} PoolInside(m: Transcendentals, states: seq<VfoState>, repr: set<object>, v: nat)
    requires Pool(m, states, repr) && v < |states|
    ensures Footprint(states[v]) <= repr
  {
    PoolUnfold(m, states, repr);
    if v > 0 {
      PoolInside(m, states[1..], repr - Footprint(states[0]), v - 1);
    }
  }

  /** Every member's footprint lies in the pool's set. */
  lemma PoolCovers(m: Transcendentals, states: seq<VfoState>, repr: set<object>)
    requires Pool(m, states, repr)
    ensures forall v :: 0 <= v < |states| ==> Footprint(states[v]) <= repr
  {
    forall v | 0 <= v < |states|
      ensures Footprint(states[v]) <= repr
    {
      PoolInside(m, states, repr, v);
    }
  }

  /**
   * Split at `k` into the pools `done` and `todo` over disjoint sets, the
   * states keep their footprints apart: no other state's footprint meets
   * that of state `k`.
   */
  lemma PoolsApart(m: Transcendentals, states: seq<VfoState>, k: nat, done: set<object>, todo: set<object>)
    requires k < |states| && Pool(m, states[..k], done) && Pool(m, states[k..], todo) && done !! todo
    ensures forall v :: 0 <= v < |states| && v != k ==> Footprint(states[v]) !! Footprint(states[k])
  {
    PoolAt(m, states[k..], todo, 0);
    PoolCovers(m, states[..k], done);
    forall v | 0 <= v < |states| && v != k
      ensures Footprint(states[v]) !! Footprint(states[k])
    {
      if v < k {
        assert states[..k][v] == states[v];
      } else {
        assert states[k..][v - k] == states[v];
      }
    }
  }

  /** A pool stays one over a larger set. */
  lemma {:induction false} PoolGrow(m: Transcendentals, states: seq<VfoState>, repr: set<object>, larger: set<object>)
    requires Pool(m, states, repr) && repr <= larger
    ensures Pool(m, states, larger)
    decreases |states|
  {
    if |states| > 0 {
      PoolUnfold(m, states, repr);
      PoolGrow(m, states[1..], repr - Footprint(states[0]), larger - Footprint(states[0]));
      PoolFold(m, states, larger);
    }
  }

  /** Two pools over disjoint sets make one pool, the first's members before the second's. */
  lemma {:induction false} PoolConcat(m: Transcendentals, a: seq<VfoState>, ra: set<object>, b: seq<VfoState>, rb: set<object>)
    requires Pool(m, a, ra) && Pool(m, b, rb) && ra !! rb
    ensures Pool(m, a + b, ra + rb)
    decreases |a|
  {
    if |a| == 0 {
      assert a + b == b;
      PoolGrow(m, b, rb, ra + rb);
    } else {
      PoolUnfold(m, a, ra);
      var rest := ra - Footprint(a[0]);
      PoolConcat(m, a[1..], rest, b, rb);
      assert (a + b)[1..] == a[1..] + b;
      assert (ra + rb) - Footprint(a[0]) == rest + rb;
      PoolFold(m, a + b, ra + rb);
    }
  }

  /** Leaving out one member keeps a pool. */
  lemma {:induction false} PoolRemove(m: Transcendentals, states: seq<VfoState>, repr: set<object>, k: nat)
    requires Pool(m, states, repr) && k < |states|
    ensures Pool(m, states[..k] + states[k + 1..], repr)
    decreases |states|
  {
    PoolUnfold(m, states, repr);
    var rest := repr - Footprint(states[0]);
    if k == 0 {
      assert states[..0] + states[1..] == states[1..];
      PoolGrow(m, states[1..], rest, repr);
    } else {
      PoolRemove(m, states[1..], rest, k - 1);
      assert (states[..k] + states[k + 1..])[1..] == states[1..][..k - 1] + states[1..][k..];
      PoolFold(m, states[..k] + states[k + 1..], repr);
    }
  }

  /** A fresh VFO state: alone, it makes a pool over its own footprint. */
  method NewVfoState(m: Transcendentals) returns (st: VfoState)
    requires m.pi != 0.0
    ensures fresh(Footprint(st)) && Pool(m, [st], Footprint(st))
    ensures st.demod == DemodState(0.0, 1.0, 0.0) && st.deemphPrev == 0.0 && st.chunkCount == 0
    ensures st.tuning == Tuning("", 50000, DefaultBandwidth) && st.audioResampler.Consumed() == []
  {
    st := new VfoState(m);
    assert [st][1..] == [];
    PoolFold(m, [st], Footprint(st));
  }

  /**
   * The worker object: `vfoParams`, `ddcs`, `vfoStates` and `ddcOutputs`
   * (the last kept as the output buffers' capacities), empty until the
   * stream is started, and the `_centerFreq`, `_sampleRate` and
   * `_maxDdcOut` that `addVfo` reuses.
   */
  class Backend {
    const m: Transcendentals
    var centerFreq: real
    var sampleRate: real
    var maxDdcOut: nat
    var vfoParams: seq<VfoParams>
    var ddcs: seq<Native.DspProcessor>
    var vfoStates: seq<VfoState>
    var ddcOutputs: seq<nat>
    /** The VFO states and their resamplers; the DDCs are kept apart. */
    ghost var Repr: set<object>

    /**
     * The four lists have one entry per VFO; once there is one, the stream
     * parameters are set and every output buffer has the capacity computed
     * from the sample rate; no DDC serves two VFOs; the states form a pool
     * over `Repr`.
     */
    ghost predicate Valid()
      reads this, Repr
    {
      && |ddcs| == |vfoParams| && |vfoStates| == |vfoParams| && |ddcOutputs| == |vfoParams|
      && m.pi != 0.0
      && (|vfoParams| > 0 ==> sampleRate > 0.0 && maxDdcOut == MaxDdcOut(sampleRate))
      && (forall v :: 0 <= v < |ddcOutputs| ==> ddcOutputs[v] == maxDdcOut)
      && Distinct(ddcs)
      && this !in Repr && (forall v :: 0 <= v < |ddcs| ==> ddcs[v] !in Repr)
      && Pool(m, vfoStates, Repr)
    }

    /** `this.vfoParams` is set: `startRxStream` has run (no call empties the lists again). */
    predicate Started()
      reads this
    {
      |vfoParams| > 0
    }

    /**
     * A VFO as `startRxStream` and `addVfo` create it: the DDC
     * `new DspProcessor(sampleRate, 0.0, 150000)` with no call made yet, and
     * the state `makeVfoState()` returns.
     */
    ghost predicate Initial(d: Native.DspProcessor, st: VfoState)
      reads this, d, st, st.audioResampler, st.audioResampler.resamp
    {
      && d.inSampleRate == sampleRate && d.initialShift == 0.0 && d.initialBandwidth == DefaultBandwidth && d.log == []
      && st.demod == DemodState(0.0, 1.0, 0.0) && st.deemphPrev == 0.0 && st.chunkCount == 0
      && st.tuning == Tuning("", 50000, DefaultBandwidth) && st.audioResampler.Consumed() == []
    }

    /** The worker before `startRxStream`. */
    constructor (m: Transcendentals)
      requires m.pi != 0.0
      ensures Valid() && this.m == m && !Started()
      ensures vfoParams == [] && ddcs == [] && vfoStates == [] && ddcOutputs == []
    {
      this.m := m;
      centerFreq := 0.0;
      sampleRate := 0.0;
      maxDdcOut := 0;
      vfoParams := [];
      ddcs := [];
      vfoStates := [];
      ddcOutputs := [];
      Repr := {};
    }

    /** The four `push`es: one more VFO, made of a DDC and a state that no VFO uses yet. */
    method Adopt(p: VfoParams, ddc: Native.DspProcessor, st: VfoState)
      requires Valid() && sampleRate > 0.0 && maxDdcOut == MaxDdcOut(sampleRate)
      requires Pool(m, [st], Footprint(st)) && Footprint(st) !! Repr && this !in Footprint(st)
      requires ddc !in ddcs && ddc !in Repr && ddc !in Footprint(st)
      requires forall v :: 0 <= v < |ddcs| ==> ddcs[v] !in Footprint(st)
      modifies this`vfoParams, this`ddcs, this`vfoStates, this`ddcOutputs, this`Repr
      ensures Valid()
      ensures vfoParams == old(vfoParams) + [p] && ddcOutputs == old(ddcOutputs) + [maxDdcOut]
      ensures ddcs == old(ddcs) + [ddc] && vfoStates == old(vfoStates) + [st]
      ensures Repr == old(Repr) + Footprint(st)
    {
      PoolConcat(m, vfoStates, Repr, [st], Footprint(st));
      vfoParams := vfoParams + [p];
      ddcs := ddcs + [ddc];
      vfoStates := vfoStates + [st];
      ddcOutputs := ddcOutputs + [maxDdcOut];
      Repr := Repr + Footprint(st);
    }

    /** A new VFO with settings `p`, a new DDC and a new state, at the end of the lists. */
    method Spawn(p: VfoParams)
      requires Valid() && sampleRate > 0.0 && maxDdcOut == MaxDdcOut(sampleRate)
      modifies this`vfoParams, this`ddcs, this`vfoStates, this`ddcOutputs, this`Repr
      ensures Valid()
      ensures vfoParams == old(vfoParams) + [p] && ddcOutputs == old(ddcOutputs) + [maxDdcOut]
      ensures |ddcs| == |old(ddcs)| + 1 && ddcs[..|old(ddcs)|] == old(ddcs) && fresh(ddcs[|old(ddcs)|])
      ensures |vfoStates| == |old(vfoStates)| + 1 && vfoStates[..|old(vfoStates)|] == old(vfoStates)
      ensures fresh(vfoStates[|old(vfoStates)|])
      ensures Initial(ddcs[|old(ddcs)|], vfoStates[|old(vfoStates)|])
    {
      var ddc := new Native.DspProcessor(sampleRate, 0.0, DefaultBandwidth);
      var st := NewVfoState(m);
      Adopt(p, ddc, st);
    }

    /**
     * The VFO set-up of `startRxStream`: free any existing DDCs, store the
     * stream parameters, then one VFO with the default settings at the
     * centre frequency.
     */
    method StartRx(centerFreq: real, sampleRate: real)
      requires Valid() && sampleRate > 0.0
      modifies this, ddcs
      ensures Valid() && Started()
      ensures forall v :: 0 <= v < |old(ddcs)| ==> old(ddcs)[v].log == old(ddcs[v].log) + [Native.Free]
      ensures this.centerFreq == centerFreq && this.sampleRate == sampleRate && maxDdcOut == MaxDdcOut(sampleRate)
      ensures vfoParams == [DefaultParams(centerFreq)] && ddcOutputs == [maxDdcOut]
      ensures |ddcs| == 1 && |vfoStates| == 1 && fresh(ddcs[0]) && fresh(vfoStates[0])
      ensures Initial(ddcs[0], vfoStates[0])
    {
      FreeAll(ddcs);
      this.centerFreq, this.sampleRate, maxDdcOut := centerFreq, sampleRate, MaxDdcOut(sampleRate);
      vfoParams, ddcs, vfoStates, ddcOutputs, Repr := [], [], [], [], {};
      Spawn(DefaultParams(centerFreq));
    }

    /**
     * `addVfo()`: -1 before the stream starts; otherwise a VFO with the
     * default settings at the stored centre frequency (100 when that is 0)
     * joins the end of the lists, and its index is returned.
     */
    method AddVfo() returns (index: int)
      requires Valid()
      modifies this`vfoParams, this`ddcs, this`vfoStates, this`ddcOutputs, this`Repr
      ensures Valid()
      ensures !old(Started()) ==>
        && index == -1 && vfoParams == old(vfoParams) && ddcs == old(ddcs)
        && vfoStates == old(vfoStates) && ddcOutputs == old(ddcOutputs)
      ensures old(Started()) ==>
        && index == old(|vfoParams|)
        && vfoParams == old(vfoParams) + [DefaultParams(OrDefault(centerFreq, 100.0))]
        && ddcOutputs == old(ddcOutputs) + [maxDdcOut]
        && |ddcs| == index + 1 && ddcs[..index] == old(ddcs) && fresh(ddcs[index])
        && |vfoStates| == index + 1 && vfoStates[..index] == old(vfoStates) && fresh(vfoStates[index])
        && Initial(ddcs[index], vfoStates[index])
    {
      if !Started() {
        return -1;
      }
      index := |vfoParams|;
      Spawn(DefaultParams(OrDefault(centerFreq, 100.0)));
    }

    /**
     * `removeVfo(index)`: an index out of range, or a last remaining VFO,
     * changes nothing; otherwise that VFO's DDC is freed and its entry
     * leaves all four lists, the others keeping their order.
     */
    method RemoveVfo(index: int)
      requires Valid()
      modifies this`vfoParams, this`ddcs, this`vfoStates, this`ddcOutputs, ddcs
      ensures Valid()
      ensures var removed := 0 <= index < old(|vfoParams|) && old(|vfoParams|) > 1;
        && (removed ==>
          && vfoParams == old(vfoParams[..index] + vfoParams[index + 1..])
          && ddcs == old(ddcs[..index] + ddcs[index + 1..])
          && vfoStates == old(vfoStates[..index] + vfoStates[index + 1..])
          && ddcOutputs == old(ddcOutputs[..index] + ddcOutputs[index + 1..])
          && old(ddcs[index]).log == old(ddcs[index].log) + [Native.Free])
        && (!removed ==>
          && vfoParams == old(vfoParams) && ddcs == old(ddcs)
          && vfoStates == old(vfoStates) && ddcOutputs == old(ddcOutputs))
      ensures forall v :: 0 <= v < |old(ddcs)| && v != index ==> old(ddcs)[v].log == old(ddcs[v].log)
    {
      if index < 0 || index >= |vfoParams| || |vfoParams| <= 1 {
        return;
      }
      ddcs[index].Call(Native.Free);
      PoolRemove(m, vfoStates, Repr, index);
      vfoParams := vfoParams[..index] + vfoParams[index + 1..];
      ddcs := ddcs[..index] + ddcs[index + 1..];
      vfoStates := vfoStates[..index] + vfoStates[index + 1..];
      ddcOutputs := ddcOutputs[..index] + ddcOutputs[index + 1..];
    }

    /**
     * `setVfoParams(index, params)`: for an index in range, the given keys
     * overwrite that VFO's settings, and its DDC gets a new bandwidth when
     * the patch has one and new squelch settings when it has either squelch
     * key; any other index changes nothing.
     */
    method SetVfoParams(index: int, patch: VfoPatch)
      requires Valid()
      modifies this`vfoParams, ddcs
      ensures Valid()
      ensures 0 <= index < old(|vfoParams|) ==>
        && vfoParams == old(vfoParams)[index := Merge(old(vfoParams[index]), patch)]
        && ddcs[index].log == old(ddcs[index].log) + SetParamsCalls(patch, vfoParams[index])
      ensures !(0 <= index < old(|vfoParams|)) ==> vfoParams == old(vfoParams)
      ensures forall v :: 0 <= v < |ddcs| && v != index ==> ddcs[v].log == old(ddcs[v].log)
    {
      if index < 0 || index >= |vfoParams| {
        return;
      }
      var merged := Merge(vfoParams[index], patch);
      vfoParams := vfoParams[index := merged];
      var ddc := ddcs[index];
      if patch.bandwidth.Some? {
        ddc.Call(Native.SetBandwidth(patch.bandwidth.value));
      }
      if patch.squelchLevel.Some? || patch.squelchEnabled.Some? {
        ddc.Call(Native.SetSquelch(OrDefault(merged.squelchLevel, -100.0), merged.squelchEnabled));
      }
    }

    /**
     * One pass of the VFO loop: `chunkCount++`, then `processVfoAudio` on
     * VFO `k`, whose state heads the pool `todo` of the VFOs not yet run.
     */
    method RunVfo(k: nat, signed: seq<int>, produced: seq<real>, ghost todo: set<object>) returns (res: VfoAudio)
      requires k < |vfoStates| && |ddcs| == |vfoStates| && |vfoParams| == |vfoStates| && |ddcOutputs| == |vfoStates|
      requires Pool(m, vfoStates[k..], todo) && ddcs[k] !in todo && this !in todo
      requires |produced| <= ddcOutputs[k]
      requires vfoParams[k].mode != "wfm" && vfoParams[k].mode != "nfm" ==> |produced| % 2 == 0
      requires forall v :: 0 <= v < |vfoStates| && v != k ==> Footprint(vfoStates[v]) !! Footprint(vfoStates[k])
      modifies vfoStates[k], vfoStates[k].audioResampler.resamp, vfoStates[k].audioResampler.resamp.buffer, ddcs[k]
      ensures var st := vfoStates[k];
        && Pool(m, [st], Footprint(st)) && fresh(Footprint(st) - old(Footprint(st)))
        && st.chunkCount == old(st.chunkCount) + 1
      ensures !vfoParams[k].enabled ==> res == Silent && ddcs[k].log == old(ddcs[k].log)
      ensures ddcs[k].log == old(ddcs[k].log) + PassCalls(old(vfoStates[k].Snapshot()).tuning, vfoParams[k], centerFreq, sampleRate, |signed|, |produced|)
      ensures ProcessedFrom(m, vfoParams[k], old(vfoStates[k].Snapshot()), produced, res, vfoStates[k].Snapshot())
      ensures forall v :: 0 <= v < |vfoStates| && v != k ==> vfoStates[v].Snapshot() == old(vfoStates[v].Snapshot())
    {
      var st := vfoStates[k];
      assert vfoStates[k..][0] == st;
      PoolUnfold(m, vfoStates[k..], todo);
      res := st.Pass(ddcs[k], vfoParams[k], centerFreq, sampleRate, signed, produced, ddcOutputs[k]);
      assert [st][1..] == [];
      PoolFold(m, [st], Footprint(st));
    }

    /**
     * Runs VFO `k` as the loop does, between the pool `done` of the VFOs
     * already run and the pool `todo` of those still to run: afterwards VFO
     * `k` has moved from the one to the other, and no other VFO's state or
     * DDC has changed.
     */
    method Advance(k: nat, signed: seq<int>, produced: seq<real>, ghost done: set<object>, ghost todo: set<object>)
      returns (res: VfoAudio, ghost done': set<object>, ghost todo': set<object>)
      requires k < |vfoStates| && |ddcs| == |vfoStates| && |vfoParams| == |vfoStates| && |ddcOutputs| == |vfoStates|
      requires Pool(m, vfoStates[..k], done) && Pool(m, vfoStates[k..], todo) && done !! todo
      requires Distinct(ddcs) && this !in todo && forall v :: 0 <= v < |ddcs| ==> ddcs[v] !in done + todo
      requires |produced| <= ddcOutputs[k]
      requires vfoParams[k].mode != "wfm" && vfoParams[k].mode != "nfm" ==> |produced| % 2 == 0
      modifies todo, ddcs[k]
      ensures Pool(m, vfoStates[..k + 1], done') && Pool(m, vfoStates[k + 1..], todo') && done' !! todo'
      ensures todo' <= todo && fresh(done' - (done + todo))
      ensures !vfoParams[k].enabled ==> res == Silent && ddcs[k].log == old(ddcs[k].log)
      ensures forall v :: 0 <= v < |vfoStates| && v != k ==>
        ddcs[v].log == old(ddcs[v].log)
      ensures ddcs[k].log == old(ddcs[k].log) + PassCalls(old(vfoStates[k].Snapshot()).tuning, vfoParams[k], centerFreq, sampleRate, |signed|, |produced|)
      ensures ProcessedFrom(m, vfoParams[k], old(vfoStates[k].Snapshot()), produced, res, vfoStates[k].Snapshot())
      ensures forall v :: 0 <= v < |vfoStates| && v != k ==> vfoStates[v].Snapshot() == old(vfoStates[v].Snapshot())
    {
      ghost var head := Footprint(vfoStates[k]);
      PoolsApart(m, vfoStates, k, done, todo);
      PoolUnfold(m, vfoStates[k..], todo);
      assert vfoStates[k..][1..] == vfoStates[k + 1..];
      res := RunVfo(k, signed, produced, todo);
      ghost var grown := Footprint(vfoStates[k]);
      PoolConcat(m, vfoStates[..k], done, [vfoStates[k]], grown);
      assert vfoStates[..k + 1] == vfoStates[..k] + [vfoStates[k]];
      done' := done + grown;
      todo' := todo - head;
    }

    /**
     * What the VFO loop keeps after `k` passes, against the call logs `logs`
     * and the states `initial` the VFOs had before the loop: the VFOs run
     * and those not yet run form two pools; every outcome but the last is a
     * success; a disabled VFO stayed silent; the DDC of every VFO run
     * received exactly the calls of its pass (none when disabled); the VFOs
     * run computed `outcome` from their states `before`, which are their
     * states before the loop, and are now in the states `after`; the VFOs
     * not yet run keep their logs and states.
     */
    ghost predicate Progress(k: nat, signedLen: nat, produced: seq<seq<real>>, logs: seq<seq<Native.DdcCall>>,
                             initial: seq<VfoSnapshot>, outcome: seq<VfoAudio>, before: seq<VfoSnapshot>,
                             after: seq<VfoSnapshot>, done: set<object>, todo: set<object>)
      reads *
    {
      && k <= |vfoStates| && |ddcs| == |vfoStates| && |vfoParams| == |vfoStates|
      && |produced| == |vfoStates| && |logs| == |vfoStates| && |initial| == |vfoStates| && |outcome| == k
      && Pool(m, vfoStates[..k], done) && Pool(m, vfoStates[k..], todo) && done !! todo
      && Distinct(ddcs) && this !in todo && (forall v :: 0 <= v < |ddcs| ==> ddcs[v] !in done + todo)
      && (forall v :: 0 <= v < k - 1 ==> !outcome[v].Failed?)
      && (forall v :: 0 <= v < k && !vfoParams[v].enabled ==> outcome[v] == Silent)
      && (forall v {:trigger PassCalls(initial[v].tuning, vfoParams[v], centerFreq, sampleRate, signedLen, |produced[v]|)} ::
            0 <= v < k ==>
            ddcs[v].log == logs[v] + PassCalls(initial[v].tuning, vfoParams[v], centerFreq, sampleRate, signedLen, |produced[v]|))
      && (forall v :: k <= v < |vfoStates| ==> ddcs[v].log == logs[v])
      && AllProcessed(m, vfoParams, produced, before, outcome, after) && before == initial[..k]
      && (forall v :: 0 <= v < k ==> after[v] == vfoStates[v].Snapshot())
      && (forall v :: k <= v < |vfoStates| ==> vfoStates[v].Snapshot() == initial[v])
    }

    /** One iteration of the VFO loop: VFO `k` runs, and the loop's record grows by it. */
    method Visit(k: nat, signed: seq<int>, produced: seq<seq<real>>,
                 ghost logs: seq<seq<Native.DdcCall>>, ghost initial: seq<VfoSnapshot>,
                 outcome: seq<VfoAudio>, ghost before: seq<VfoSnapshot>, ghost after: seq<VfoSnapshot>,
                 ghost done: set<object>, ghost todo: set<object>)
      returns (res: VfoAudio, ghost b: VfoSnapshot, ghost a: VfoSnapshot, ghost done': set<object>, ghost todo': set<object>)
      requires k < |vfoStates| && |ddcOutputs| == |vfoStates|
      requires Progress(k, |signed|, produced, logs, initial, outcome, before, after, done, todo)
      requires |produced[k]| <= ddcOutputs[k] && !Aborted(outcome)
      requires vfoParams[k].mode != "wfm" && vfoParams[k].mode != "nfm" ==> |produced[k]| % 2 == 0
      modifies todo, ddcs[k]
      ensures Progress(k + 1, |signed|, produced, logs, initial, outcome + [res], before + [b], after + [a], done', todo')
      ensures todo' <= todo && fresh(done' - (done + todo))
    {
      b := initial[k];
      res, done', todo' := Advance(k, signed, produced[k], done, todo);
      a := vfoStates[k].Snapshot();
      AllProcessedSnoc(m, vfoParams, produced, before, outcome, after, b, res, a);
      assert initial[..k + 1] == initial[..k] + [b];
    }

    /**
     * The VFO loop of the transfer callback: every VFO in order, until one
     * fails (its exception leaves the loop). `before` and `after` are the
     * states of the VFOs run, before and after they ran.
     */
    method RunAll(signed: seq<int>, produced: seq<seq<real>>)
      returns (outcome: seq<VfoAudio>, ghost before: seq<VfoSnapshot>, ghost after: seq<VfoSnapshot>,
               ghost logs: seq<seq<Native.DdcCall>>, ghost initial: seq<VfoSnapshot>,
               ghost done: set<object>, ghost todo: set<object>)
      requires Valid() && |produced| == |vfoParams|
      requires forall v :: 0 <= v < |produced| ==> |produced[v]| <= maxDdcOut
      requires forall v :: 0 <= v < |produced| && vfoParams[v].mode != "wfm" && vfoParams[v].mode != "nfm" ==>
        |produced[v]| % 2 == 0
      modifies Repr, ddcs
      ensures |outcome| <= |vfoParams|
      ensures Pool(m, vfoStates[..|outcome|], done) && Pool(m, vfoStates[|outcome|..], todo) && done !! todo
      ensures todo <= old(Repr) && fresh(done - old(Repr))
      ensures |outcome| < |vfoParams| ==> Aborted(outcome)
      ensures forall v :: 0 <= v < |outcome| - 1 ==> !outcome[v].Failed?
      ensures |logs| == |ddcs| && forall v :: 0 <= v < |ddcs| ==> logs[v] == old(ddcs[v].log)
      ensures |initial| == |vfoStates| && forall v :: 0 <= v < |vfoStates| ==> initial[v] == old(vfoStates[v].Snapshot())
      ensures Progress(|outcome|, |signed|, produced, logs, initial, outcome, before, after, done, todo)
    {
      outcome, before, after := [], [], [];
      logs := Logs(ddcs);
      initial := Snapshots(vfoStates);
      var k := 0;
      done, todo := {}, Repr;
      assert vfoStates[..0] == [] && vfoStates[0..] == vfoStates;
      while k < |vfoStates| && !Aborted(outcome)
        invariant Progress(k, |signed|, produced, logs, initial, outcome, before, after, done, todo)
        invariant todo <= old(Repr) && fresh(done - old(Repr))
      {
        var res;
        ghost var b, a;
        res, b, a, done, todo := Visit(k, signed, produced, logs, initial, outcome, before, after, done, todo);
        outcome, before, after := outcome + [res], before + [b], after + [a];
        k := k + 1;
      }
    }

    /** After the loop: the VFOs run and those not run form the pool again. */
    method Regather(k: nat, ghost done: set<object>, ghost todo: set<object>)
      requires k <= |vfoStates| && Pool(m, vfoStates[..k], done) && Pool(m, vfoStates[k..], todo) && done !! todo
      requires |ddcs| == |vfoParams| && |vfoStates| == |vfoParams| && |ddcOutputs| == |vfoParams|
      requires m.pi != 0.0 && (|vfoParams| > 0 ==> sampleRate > 0.0 && maxDdcOut == MaxDdcOut(sampleRate))
      requires forall v :: 0 <= v < |ddcOutputs| ==> ddcOutputs[v] == maxDdcOut
      requires Distinct(ddcs) && this !in done + todo && forall v :: 0 <= v < |ddcs| ==> ddcs[v] !in done + todo
      modifies this`Repr
      ensures Valid() && Repr == done + todo
    {
      assert vfoStates[..k] + vfoStates[k..] == vfoStates;
      PoolConcat(m, vfoStates[..k], done, vfoStates[k..], todo);
      Repr := done + todo;
    }

    /**
     * The VFOs as a transfer leaves them, against the call logs `logs` and
     * the states `initial` they had before it: the first `n` VFOs are in the
     * states `after` and the others in their states in `initial`; the DDC of
     * each of the first `n` received exactly the calls of its pass over the
     * block `produced[v]`, and the DDCs of the others still have their logs
     * in `logs`.
     */
    ghost predicate Kept(n: nat, signedLen: nat, produced: seq<seq<real>>, logs: seq<seq<Native.DdcCall>>,
                         initial: seq<VfoSnapshot>, after: seq<VfoSnapshot>)
      reads this, Repr, ddcs
    {
      && Valid() && n <= |vfoStates| && |logs| == |vfoStates| && |initial| == |vfoStates| && |after| == n
      && |produced| == |vfoStates|
      && (forall v {:trigger PassCalls(initial[v].tuning, vfoParams[v], centerFreq, sampleRate, signedLen, |produced[v]|)} ::
            0 <= v < n ==>
            ddcs[v].log == logs[v] + PassCalls(initial[v].tuning, vfoParams[v], centerFreq, sampleRate, signedLen, |produced[v]|))
      && (forall v :: n <= v < |vfoStates| ==> ddcs[v].log == logs[v])
      && (PoolCovers(m, vfoStates, Repr);
          && (forall v :: 0 <= v < n ==> after[v] == vfoStates[v].Snapshot())
          && (forall v :: n <= v < |vfoStates| ==> vfoStates[v].Snapshot() == initial[v]))
    }

    /** The VFO loop, after which the VFOs form the pool `Repr` again. */
    method RunVfos(signed: seq<int>, produced: seq<seq<real>>)
      returns (outcome: seq<VfoAudio>, ghost before: seq<VfoSnapshot>, ghost after: seq<VfoSnapshot>,
               ghost logs: seq<seq<Native.DdcCall>>, ghost initial: seq<VfoSnapshot>)
      requires Valid() && |produced| == |vfoParams|
      requires forall v :: 0 <= v < |produced| ==> |produced[v]| <= maxDdcOut
      requires forall v :: 0 <= v < |produced| && vfoParams[v].mode != "wfm" && vfoParams[v].mode != "nfm" ==>
        |produced[v]| % 2 == 0
      modifies this`Repr, Repr, ddcs
      ensures Valid() && fresh(Repr - old(Repr))
      ensures |outcome| <= |vfoParams|
      ensures |outcome| < |vfoParams| ==> Aborted(outcome)
      ensures forall v :: 0 <= v < |outcome| - 1 ==> !outcome[v].Failed?
      ensures forall v :: 0 <= v < |outcome| && !vfoParams[v].enabled ==> outcome[v] == Silent
      ensures AllProcessed(m, vfoParams, produced, before, outcome, after)
      ensures |logs| == |ddcs| && forall v :: 0 <= v < |ddcs| ==> logs[v] == old(ddcs[v].log)
      ensures |initial| == |vfoStates| && forall v :: 0 <= v < |vfoStates| ==> initial[v] == old(vfoStates[v].Snapshot())
      ensures before == initial[..|outcome|] && Kept(|outcome|, |signed|, produced, logs, initial, after)
    {
      ghost var done, todo;
      outcome, before, after, logs, initial, done, todo := RunAll(signed, produced);
      Regather(|outcome|, done, todo);
      PoolCovers(m, vfoStates, Repr);
    }

    /**
     * The audio half of the transfer callback: the VFO loop, then, unless a
     * VFO failed (the `catch` drops the whole transfer's audio), the
     * outputs mixed and pushed as one block.
     */
    method ProcessTransfer(signed: seq<int>, produced: seq<seq<real>>, batch: Batching.Batcher)
      returns (outcome: seq<VfoAudio>, ghost before: seq<VfoSnapshot>, ghost after: seq<VfoSnapshot>,
               ghost logs: seq<seq<Native.DdcCall>>, ghost initial: seq<VfoSnapshot>)
      requires Valid() && batch.Valid() && batch !in Repr && batch.buf !in Repr
      requires |produced| == |vfoParams|
      requires forall v :: 0 <= v < |produced| ==> |produced[v]| <= maxDdcOut
      requires forall v :: 0 <= v < |produced| && vfoParams[v].mode != "wfm" && vfoParams[v].mode != "nfm" ==>
        |produced[v]| % 2 == 0
      modifies this`Repr, Repr, ddcs, batch, batch.buf
      ensures Valid() && batch.Valid() && fresh(Repr - old(Repr))
      ensures |outcome| <= |vfoParams|
      ensures |outcome| < |vfoParams| ==> Aborted(outcome)
      ensures forall v :: 0 <= v < |outcome| - 1 ==> !outcome[v].Failed?
      ensures batch.Pushed == old(batch.Pushed) + (if Aborted(outcome) then [] else MixOf(Audible(outcome), Gains(outcome, vfoParams)))
      ensures forall v :: 0 <= v < |outcome| && !vfoParams[v].enabled ==> outcome[v] == Silent
      ensures AllProcessed(m, vfoParams, produced, before, outcome, after)
      ensures |logs| == |ddcs| && forall v :: 0 <= v < |ddcs| ==> logs[v] == old(ddcs[v].log)
      ensures |initial| == |vfoStates| && forall v :: 0 <= v < |vfoStates| ==> initial[v] == old(vfoStates[v].Snapshot())
      ensures before == initial[..|outcome|] && Kept(|outcome|, |signed|, produced, logs, initial, after)
    {
      outcome, before, after, logs, initial := RunVfos(signed, produced);
      if !Aborted(outcome) {
        MixAndPush(Audible(outcome), Gains(outcome, vfoParams), batch);
      }
    }
  }

  /**
   * The `hackrf.startRx` callback for one transfer: its bytes feed the
   * spectrum tap first, then the VFOs run and their audio is mixed.
   */
  method Callback(backend: Backend, tap: Spectrum.SpectrumTap, signed: seq<int>, produced: seq<seq<real>>,
                  batch: Batching.Batcher)
    returns (outcome: seq<VfoAudio>, ghost before: seq<VfoSnapshot>, ghost after: seq<VfoSnapshot>,
             ghost logs: seq<seq<Native.DdcCall>>, ghost initial: seq<VfoSnapshot>)
    requires backend.Valid() && tap.Valid() && batch.Valid()
    requires batch !in backend.Repr && batch.buf !in backend.Repr
    requires tap !in backend.Repr && tap.iqBuffer !in backend.Repr && tap.fft !in backend.Repr
    requires |produced| == |backend.vfoParams|
    requires forall v :: 0 <= v < |produced| ==> |produced[v]| <= backend.maxDdcOut
    requires forall v :: 0 <= v < |produced| && backend.vfoParams[v].mode != "wfm" && backend.vfoParams[v].mode != "nfm" ==>
      |produced[v]| % 2 == 0
    modifies tap, tap.iqBuffer, tap.fft, backend`Repr, backend.Repr, backend.ddcs, batch, batch.buf
    ensures tap.Valid() && tap.Fed == old(tap.Fed) + signed
    ensures backend.Valid() && batch.Valid()
    ensures |outcome| <= |backend.vfoParams| && (|outcome| < |backend.vfoParams| ==> Aborted(outcome))
    ensures batch.Pushed == old(batch.Pushed) +
      (if Aborted(outcome) then [] else MixOf(Audible(outcome), Gains(outcome, backend.vfoParams)))
    ensures AllProcessed(backend.m, backend.vfoParams, produced, before, outcome, after)
    ensures |logs| == |backend.ddcs| && forall v :: 0 <= v < |backend.ddcs| ==> logs[v] == old(backend.ddcs[v].log)
    ensures |initial| == |backend.vfoStates| &&
      forall v :: 0 <= v < |backend.vfoStates| ==> initial[v] == old(backend.vfoStates[v].Snapshot())
    ensures before == initial[..|outcome|] && backend.Kept(|outcome|, |signed|, produced, logs, initial, after)
  {
    tap.Accumulate(signed);
    outcome, before, after, logs, initial := backend.ProcessTransfer(signed, produced, batch);
  }
}
