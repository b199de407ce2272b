/**
 * The page-side state rules: the VFO list and the active index, the
 * per-mode defaults, the zoom/pan view and the frequency span it shows,
 * the VFO colour palette, the guard on sending VFO settings to the worker,
 * and the playback ring that batches incoming audio before scheduling.
 * Messages to the worker and scheduled audio chunks are recorded in logs.
 */
module Client {
  import opened Common
  import Batching

  /** `VFO_COLORS`. */
  const VfoColors: seq<string> := ["#ff4444", "#4488ff", "#44cc44", "#ff44ff", "#ffaa44", "#44cccc", "#cccc44", "#ff8844"]

  /** `vfoColor(index) = VFO_COLORS[index % VFO_COLORS.length]`. */
  function VfoColor(index: nat): (colour: string)
    ensures colour in VfoColors
  {
    VfoColors[index % |VfoColors|]
  }

  /** The colour repeats every eight VFOs. */
  lemma VfoColorPeriodic(index: nat)
    ensures VfoColor(index + 8) == VfoColor(index)
  {
  }

  /** Any eight consecutive VFOs get eight different colours. */
  lemma VfoColorsDistinct(i: nat, j: nat)
    requires i < j < i + 8
    ensures VfoColor(i) != VfoColor(j)
  {
    assert forall a, b :: 0 <= a < b < |VfoColors| ==> VfoColors[a] != VfoColors[b];
    assert i % 8 != j % 8;
  }

  /** One entry of `vfos` (the display-only `displayFreq` string is not represented). */
  datatype Vfo = Vfo(
    enabled: bool,
    freq: real,
    mode: string,
    bandwidth: real,
    snapInterval: real,
    deEmphasis: string,
    squelchEnabled: bool,
    squelchLevel: real,
    noiseReduction: bool,
    stereo: bool,
    lowPass: bool,
    highPass: bool,
    rds: bool,
    rdsRegion: string,
    volume: real,
    focused: bool)

  /** `makeDefaultVfo(freq)`: disabled WFM at `freq`, 150 kHz wide, volume 50. */
  function MakeDefaultVfo(freq: real): (v: Vfo)
    ensures !v.enabled && v.freq == freq && v.mode == "wfm" && v.bandwidth == 150000.0
    ensures v.volume == 50.0 && !v.squelchEnabled && v.squelchLevel == -100.0
  {
    Vfo(false, freq, "wfm", 150000.0, 100000.0, "50us", false, -100.0, false, false, true, false, false, "eu", 50.0, false)
  }

  datatype ModeDefault = ModeDefault(bandwidth: real, snapInterval: real, deEmphasis: string, lowPass: bool)

  /** `MODE_DEFAULTS[mode]`, absent for a mode not in the table. */
  function ModeDefaults(mode: string): Option<ModeDefault>
  {
    match mode
    case "wfm" => Some(ModeDefault(150000.0, 100000.0, "50us", true))
    case "nfm" => Some(ModeDefault(12500.0, 2500.0, "none", true))
    case "am" => Some(ModeDefault(10000.0, 1000.0, "none", false))
    case "usb" => Some(ModeDefault(2800.0, 100.0, "none", false))
    case "lsb" => Some(ModeDefault(2800.0, 100.0, "none", false))
    case "dsb" => Some(ModeDefault(4600.0, 100.0, "none", false))
    case "cw" => Some(ModeDefault(200.0, 10.0, "none", false))
    case "raw" => Some(ModeDefault(48000.0, 2500.0, "none", false))
    case _ => None
  }

  /** `MODE_DEFAULTS[mode] || MODE_DEFAULTS.nfm`. */
  function ModeDefaultFor(mode: string): (d: ModeDefault)
    ensures ModeDefaults(mode).Some? ==> d == ModeDefaults(mode).value
    ensures ModeDefaults(mode).None? ==> d == ModeDefaults("nfm").value
  {
    match ModeDefaults(mode)
    case Some(d) => d
    case None => ModeDefault(12500.0, 2500.0, "none", true)
  }

  /**
   * `applyModeDefaults`: bandwidth from the table (the full sample rate for
   * `raw`), snap interval, de-emphasis and low-pass from the table, and
   * squelch, noise reduction, stereo and high-pass switched off.
   */
  function ApplyModeDefaults(v: Vfo, sampleRate: real): (r: Vfo)
    ensures var d := ModeDefaultFor(v.mode);
      && r.bandwidth == (if v.mode == "raw" then sampleRate else d.bandwidth)
      && r.snapInterval == d.snapInterval && r.deEmphasis == d.deEmphasis && r.lowPass == d.lowPass
      && !r.squelchEnabled && r.squelchLevel == -100.0
      && !r.noiseReduction && !r.stereo && !r.highPass
    ensures r.enabled == v.enabled && r.freq == v.freq && r.mode == v.mode && r.volume == v.volume
      && r.rds == v.rds && r.rdsRegion == v.rdsRegion && r.focused == v.focused
  {
    var d := ModeDefaultFor(v.mode);
    v.(bandwidth := if v.mode == "raw" then sampleRate else d.bandwidth,
       snapInterval := d.snapInterval,
       deEmphasis := d.deEmphasis,
       squelchEnabled := false,
       squelchLevel := -100.0,
       noiseReduction := false,
       stereo := false,
       lowPass := d.lowPass,
       highPass := false)
  }

  /** Applying the defaults twice is the same as applying them once. */
  lemma ApplyModeDefaultsIdempotent(v: Vfo, sampleRate: real)
    ensures ApplyModeDefaults(ApplyModeDefaults(v, sampleRate), sampleRate) == ApplyModeDefaults(v, sampleRate)
  {
  }

  /** The zoom state `view` (`zoomScale` 1 shows the whole band). */
  datatype View = View(zoomScale: real, zoomOffset: real)

  /** `1 - 1 / scale`: the largest offset that keeps the view inside the band. */
  function MaxOffset(scale: real): real
    requires scale != 0.0
  {
    1.0 - 1.0 / scale
  }

  /** `if (x < 0) x = 0; if (x > maxOffset) x = maxOffset;`, in that order. */
  function ClampOffset(x: real, maxOffset: real): (r: real)
    ensures maxOffset >= 0.0 ==> 0.0 <= r <= maxOffset
    ensures 0.0 <= x <= maxOffset ==> r == x
  {
    var lo := if x < 0.0 then 0.0 else x;
    if lo > maxOffset then maxOffset else lo
  }

  /**
   * `handleWheelZoom`: scale by 1.1 or 0.9 within [1, 100], keep the
   * normalised point under the mouse where it was, then clamp the offset.
   */
  function WheelZoom(view: View, deltaY: real, mouseX: real, rectWidth: real): (r: View)
    requires view.zoomScale != 0.0 && rectWidth != 0.0
    ensures 1.0 <= r.zoomScale <= 100.0
    ensures 0.0 <= r.zoomOffset <= MaxOffset(r.zoomScale)
    ensures var p := mouseX / rectWidth;
      var anchored := view.zoomOffset + p / view.zoomScale - p / r.zoomScale;
      0.0 <= anchored <= MaxOffset(r.zoomScale) ==>
        r.zoomOffset + p / r.zoomScale == view.zoomOffset + p / view.zoomScale
  {
    var zoomDir := if deltaY < 0.0 then 1.0 else -1.0;
    var newScale := RealMax(1.0, RealMin(100.0, view.zoomScale * (1.0 + zoomDir * 0.1)));
    var p := mouseX / rectWidth;
    var absNormTarget := view.zoomOffset + p / view.zoomScale;
    var newOffset := absNormTarget - p / newScale;
    ScaleAtLeastOne(newScale);
    View(newScale, ClampOffset(newOffset, MaxOffset(newScale)))
  }

  lemma ScaleAtLeastOne(scale: real)
    requires scale != 0.0
    ensures scale >= 1.0 ==> 0.0 <= MaxOffset(scale) < 1.0
  {
    if scale >= 1.0 {
      assert 0.0 < 1.0 / scale <= 1.0;
    }
  }

  /** The right-button drag: move the offset by `dx / width` of the view, then clamp. */
  function Pan(view: View, dx: real, rectWidth: real): (r: View)
    requires view.zoomScale != 0.0 && rectWidth != 0.0
    ensures r.zoomScale == view.zoomScale
    ensures view.zoomScale >= 1.0 ==> 0.0 <= r.zoomOffset <= MaxOffset(view.zoomScale)
  {
    var pDelta := dx / rectWidth;
    var newOffset := view.zoomOffset - pDelta / view.zoomScale;
    ScaleAtLeastOne(view.zoomScale);
    View(view.zoomScale, ClampOffset(newOffset, MaxOffset(view.zoomScale)))
  }

  /** `minFreq`, in MHz: the left edge of the visible span. */
  function MinFreq(centerFreq: real, sampleRate: real, view: View): real
  {
    var baseMin := centerFreq - (sampleRate / 2.0) / 1000000.0;
    var baseSpan := sampleRate / 1000000.0;
    baseMin + baseSpan * view.zoomOffset
  }

  /** `maxFreq`, in MHz: the right edge of the visible span. */
  function MaxFreq(centerFreq: real, sampleRate: real, view: View): real
    requires view.zoomScale != 0.0
  {
    var baseMin := centerFreq - (sampleRate / 2.0) / 1000000.0;
    var baseSpan := sampleRate / 1000000.0;
    baseMin + baseSpan * (view.zoomOffset + 1.0 / view.zoomScale)
  }

  /** The visible span is the full bandwidth divided by the zoom factor. */
  lemma SpanWidth(centerFreq: real, sampleRate: real, view: View)
    requires view.zoomScale != 0.0
    ensures MaxFreq(centerFreq, sampleRate, view) - MinFreq(centerFreq, sampleRate, view)
      == (sampleRate / 1000000.0) / view.zoomScale
  {
  }

  /** Unzoomed, the view is the centre frequency plus or minus half the sample rate. */
  lemma UnzoomedSpan(centerFreq: real, sampleRate: real)
    ensures MinFreq(centerFreq, sampleRate, View(1.0, 0.0)) == centerFreq - sampleRate / 2000000.0
    ensures MaxFreq(centerFreq, sampleRate, View(1.0, 0.0)) == centerFreq + sampleRate / 2000000.0
  {
  }

  /** A zoomed view with a clamped offset never leaves the unzoomed span. */
  lemma ZoomedInsideBand(centerFreq: real, sampleRate: real, view: View)
    requires sampleRate >= 0.0 && view.zoomScale >= 1.0
    requires 0.0 <= view.zoomOffset <= MaxOffset(view.zoomScale)
    ensures MinFreq(centerFreq, sampleRate, View(1.0, 0.0)) <= MinFreq(centerFreq, sampleRate, view)
    ensures MaxFreq(centerFreq, sampleRate, view) <= MaxFreq(centerFreq, sampleRate, View(1.0, 0.0))
  {
    var span := sampleRate / 1000000.0;
    assert span * view.zoomOffset >= 0.0;
    assert view.zoomOffset + 1.0 / view.zoomScale <= 1.0;
    assert span * (view.zoomOffset + 1.0 / view.zoomScale) <= span * 1.0;
  }

  /** `labelFreq(percent)` before formatting: the frequency at a fraction of the visible span. */
  function LabelFreq(centerFreq: real, sampleRate: real, view: View, percent: real): (f: real)
    requires view.zoomScale != 0.0
    ensures percent == 0.0 ==> f == MinFreq(centerFreq, sampleRate, view)
    ensures percent == 1.0 ==> f == MaxFreq(centerFreq, sampleRate, view)
  {
    var lo := MinFreq(centerFreq, sampleRate, view);
    lo + percent * (MaxFreq(centerFreq, sampleRate, view) - lo)
  }

  /** The settings `updateBackendVfoParams` sends (everything but the snap interval and focus state). */
  datatype VfoSettings = VfoSettings(
    freq: real, mode: string, enabled: bool, bandwidth: real, deEmphasis: string,
    squelchEnabled: bool, squelchLevel: real, noiseReduction: bool, stereo: bool,
    lowPass: bool, highPass: bool, rds: bool, rdsRegion: string, volume: real)

  function SettingsOf(v: Vfo): VfoSettings
  {
    VfoSettings(v.freq, v.mode, v.enabled, v.bandwidth, v.deEmphasis, v.squelchEnabled, v.squelchLevel,
      v.noiseReduction, v.stereo, v.lowPass, v.highPass, v.rds, v.rdsRegion, v.volume)
  }

  /** A call the page makes on the worker. */
  datatype BackendCall = SetVfoParamsCall(index: int, settings: VfoSettings) | AddVfoCall | RemoveVfoCall(index: int)

  function AnyEnabled(vfos: seq<Vfo>): bool
  {
    exists i :: 0 <= i < |vfos| && vfos[i].enabled
  }

  class App {
    var vfos: seq<Vfo>
    var activeVfoIndex: int
    var view: View
    var centerFreq: real
    var sampleRate: real
    var hasBackend: bool
    var running: bool
    /** Calls made on the worker, in order. */
    var calls: seq<BackendCall>
    /** Whether `audioCtx` exists, and whether it is suspended. */
    var audioOpen: bool
    var audioSuspended: bool
    /** `audioRingBuf`/`audioRingPos`, and the chunks handed to `_scheduleAudioChunk`. */
    var ring: Batching.Batcher?

    ghost predicate Valid()
      reads this, ring, if ring != null then {ring.buf} else {}
    {
      && |vfos| >= 1
      && (audioOpen ==> ring != null && ring.Valid())
    }

    /** The initial page state: one default VFO at 100 MHz, active index 0, unzoomed, not running. */
    constructor (hasBackend: bool)
      ensures Valid()
      ensures vfos == [MakeDefaultVfo(100.0)] && activeVfoIndex == 0 && view == View(1.0, 0.0)
      ensures centerFreq == 100.0 && sampleRate == 8000000.0
      ensures this.hasBackend == hasBackend && !running && calls == [] && !audioOpen && ring == null
    {
      vfos := [MakeDefaultVfo(100.0)];
      activeVfoIndex := 0;
      view := View(1.0, 0.0);
      centerFreq := 100.0;
      sampleRate := 8000000.0;
      this.hasBackend := hasBackend;
      running := false;
      calls := [];
      audioOpen := false;
      audioSuspended := false;
      ring := null;
    }

    /** `updateBackendVfoParams(index)`: send the VFO's settings only while running and for an index in range. */
    method UpdateBackendVfoParams(index: int)
      modifies this
      ensures vfos == old(vfos) && activeVfoIndex == old(activeVfoIndex) && view == old(view)
      ensures running == old(running) && hasBackend == old(hasBackend)
      ensures audioOpen == old(audioOpen) && audioSuspended == old(audioSuspended) && ring == old(ring)
      ensures centerFreq == old(centerFreq) && sampleRate == old(sampleRate)
      ensures hasBackend && running && 0 <= index < |vfos| ==> calls == old(calls) + [SetVfoParamsCall(index, SettingsOf(vfos[index]))]
      ensures !(hasBackend && running && 0 <= index < |vfos|) ==> calls == old(calls)
    {
      if hasBackend && running && 0 <= index && index < |vfos| {
        calls := calls + [SetVfoParamsCall(index, SettingsOf(vfos[index]))];
      }
    }

    /** `applyModeDefaults(index)`. */
    method ApplyModeDefaultsAt(index: nat)
      requires Valid() && index < |vfos|
      modifies this
      ensures Valid()
      ensures vfos == old(vfos)[index := ApplyModeDefaults(old(vfos)[index], sampleRate)]
      ensures activeVfoIndex == old(activeVfoIndex) && calls == old(calls) && view == old(view)
      ensures sampleRate == old(sampleRate) && ring == old(ring) && audioOpen == old(audioOpen)
    {
      vfos := vfos[index := ApplyModeDefaults(vfos[index], sampleRate)];
    }

    /** `addVfo`: append a default VFO at the centre frequency, tell a running worker, and make it active. */
    method AddVfo()
      requires Valid()
      modifies this
      ensures Valid()
      ensures vfos == old(vfos) + [MakeDefaultVfo(centerFreq)]
      ensures activeVfoIndex == |vfos| - 1
      ensures hasBackend && running ==> calls == old(calls) + [AddVfoCall, SetVfoParamsCall(|vfos| - 1, SettingsOf(MakeDefaultVfo(centerFreq)))]
      ensures !(hasBackend && running) ==> calls == old(calls)
      ensures view == old(view) && ring == old(ring) && audioOpen == old(audioOpen)
    {
      vfos := vfos + [MakeDefaultVfo(centerFreq)];
      if hasBackend && running {
        calls := calls + [AddVfoCall];
        UpdateBackendVfoParams(|vfos| - 1);
      }
      activeVfoIndex := |vfos| - 1;
    }

    /**
     * `removeVfo(index)`: never drop the last VFO; otherwise splice the entry
     * out, tell a running worker, and pull the active index back into range.
     */
    method RemoveVfo(index: int)
      requires Valid()
      modifies this
      ensures Valid()
      ensures |old(vfos)| <= 1 ==> vfos == old(vfos) && calls == old(calls) && activeVfoIndex == old(activeVfoIndex)
      ensures |old(vfos)| > 1 ==>
        && vfos == SpliceOne(old(vfos), index)
        && calls == old(calls) + (if hasBackend && running then [RemoveVfoCall(index)] else [])
        && activeVfoIndex == (if old(activeVfoIndex) >= |vfos| then |vfos| - 1 else old(activeVfoIndex))
      ensures |old(vfos)| > 1 && old(activeVfoIndex) <= |old(vfos)| - 1 ==> activeVfoIndex <= |vfos| - 1
      ensures view == old(view) && ring == old(ring) && audioOpen == old(audioOpen)
    {
      if |vfos| <= 1 {
        return;
      }
      vfos := SpliceOne(vfos, index);
      if hasBackend && running {
        calls := calls + [RemoveVfoCall(index)];
      }
      if activeVfoIndex >= |vfos| {
        activeVfoIndex := |vfos| - 1;
      }
    }

    /** `handleWheelZoom(e, rect)` with the event's `deltaY` and the mouse position within the canvas. */
    method HandleWheelZoom(deltaY: real, mouseX: real, rectWidth: real)
      requires Valid() && view.zoomScale != 0.0 && rectWidth != 0.0
      modifies this
      ensures Valid()
      ensures view == WheelZoom(old(view), deltaY, mouseX, rectWidth)
      ensures vfos == old(vfos) && calls == old(calls) && ring == old(ring) && audioOpen == old(audioOpen)
    {
      view := WheelZoom(view, deltaY, mouseX, rectWidth);
    }

    /** The panning branch of the mouse-move handler. */
    method PanBy(dx: real, rectWidth: real)
      requires Valid() && view.zoomScale != 0.0 && rectWidth != 0.0
      modifies this
      ensures Valid()
      ensures view == Pan(old(view), dx, rectWidth)
      ensures vfos == old(vfos) && calls == old(calls) && ring == old(ring) && audioOpen == old(audioOpen)
    {
      view := Pan(view, dx, rectWidth);
    }

    /**
     * `toggleVfoCheckbox(index)`: the first time any VFO is enabled, open
     * the audio context (resumed if suspended) with a fresh 4800-sample ring
     * at position 0; then send the VFO's settings.
     */
    method ToggleVfoCheckbox(index: int)
      requires Valid()
      modifies this
      ensures Valid()
      ensures AnyEnabled(vfos) && !old(audioOpen) ==>
        audioOpen && !audioSuspended && fresh(ring) && ring.pos == 0 && ring.emitted == []
      ensures !(AnyEnabled(vfos) && !old(audioOpen)) ==>
        audioOpen == old(audioOpen) && audioSuspended == old(audioSuspended) && ring == old(ring)
      ensures vfos == old(vfos) && activeVfoIndex == old(activeVfoIndex) && view == old(view)
      ensures centerFreq == old(centerFreq) && sampleRate == old(sampleRate)
      ensures running == old(running) && hasBackend == old(hasBackend)
      ensures hasBackend && running && 0 <= index < |vfos| ==> calls == old(calls) + [SetVfoParamsCall(index, SettingsOf(vfos[index]))]
      ensures !(hasBackend && running && 0 <= index < |vfos|) ==> calls == old(calls)
    {
      if AnyEnabled(vfos) && !audioOpen {
        audioOpen := true;
        audioSuspended := false;
        ring := new Batching.Batcher();
      }
      UpdateBackendVfoParams(index);
    }

    /**
     * `playAudio(samples)`: ignored unless some VFO is enabled, the audio
     * context exists and is running, and the block is non-empty; otherwise
     * every sample goes through the ring, in order.
     */
    method PlayAudio(samples: seq<real>)
      requires Valid()
      modifies ring, if ring != null then {ring.buf} else {}
      ensures Valid()
      ensures AnyEnabled(vfos) && audioOpen && !audioSuspended && |samples| > 0 ==>
        ring.Pushed == old(ring.Pushed) + samples && |ring.emitted| >= |old(ring.emitted)| && ring.emitted[..|old(ring.emitted)|] == old(ring.emitted)
      ensures !(AnyEnabled(vfos) && audioOpen && !audioSuspended && |samples| > 0) && ring != null ==>
        ring.Pushed == old(ring.Pushed) && ring.emitted == old(ring.emitted)
    {
      if !AnyEnabled(vfos) || !audioOpen {
        return;
      }
      if audioSuspended {
        return;
      }
      if |samples| == 0 {
        return;
      }
      ring.Push(samples);
    }
  }
}
