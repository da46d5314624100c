/**
 * The two static tables of the compressor: the preset catalog (`PRESETS`) and
 * the resolution ladder (`RESOLUTIONS`), together with `getScaleHeight`, the
 * only reader of the ladder.
 */
module Tables {
  import opened Wrappers

  /** The three presets, the own keys of `PRESETS`. */
  datatype Preset = Fast | Balanced | Smallest

  /** Encoder speed label, baseline CRF and maximum number of refinement passes. */
  datatype PresetConfig = PresetConfig(ffmpegPreset: string, crfBase: nat, maxPasses: nat)

  function Name(p: Preset): string {
    match p
    case Fast => "fast"
    case Balanced => "balanced"
    case Smallest => "smallest"
  }

  /** The `PRESETS` table. Faster presets get fewer passes and a higher (smaller-file) CRF. */
  function Config(p: Preset): (c: PresetConfig)
    ensures c.maxPasses >= 2
    ensures c.maxPasses == (match p case Fast => 2 case Balanced => 3 case Smallest => 4)
  {
    match p
    case Fast => PresetConfig("veryfast", 28, 2)
    case Balanced => PresetConfig("medium", 23, 3)
    case Smallest => PresetConfig("slow", 18, 4)
  }

  function MaxPasses(p: Preset): nat {
    Config(p).maxPasses
  }

  /** `PRESETS[name]` restricted to the table's own keys: any other name gives no preset. */
  function PresetByName(name: string): (r: Option<Preset>)
    ensures r.Some? <==> name in {"fast", "balanced", "smallest"}
    ensures r.Some? ==> Name(r.value) == name
  {
    if name == "fast" then Some(Fast)
    else if name == "balanced" then Some(Balanced)
    else if name == "smallest" then Some(Smallest)
    else None
  }

  /** Every preset is found again under its own name. */
  lemma PresetNameRoundTrip(p: Preset)
    ensures PresetByName(Name(p)) == Some(p)
  {
  }

  /** Slower presets never get fewer passes or a higher CRF than faster ones. */
  lemma SlowerPresetsSearchLonger()
    ensures MaxPasses(Fast) < MaxPasses(Balanced) < MaxPasses(Smallest)
    ensures Config(Fast).crfBase > Config(Balanced).crfBase > Config(Smallest).crfBase
  {
  }

  /** One rung of the downscale ladder. */
  datatype Resolution = Resolution(height: nat, name: string)

  /** The `RESOLUTIONS` ladder, tallest first. */
  const Ladder: seq<Resolution> := [
    Resolution(1080, "1080p"),
    Resolution(720, "720p"),
    Resolution(480, "480p"),
    Resolution(360, "360p")
  ]

  predicate StrictlyDecreasing(rungs: seq<Resolution>) {
    forall i, j :: 0 <= i < j < |rungs| ==> rungs[i].height > rungs[j].height
  }

  predicate IsLadderHeight(h: int) {
    exists i :: 0 <= i < |Ladder| && Ladder[i].height == h
  }

  lemma LadderIsStrictlyDecreasing()
    ensures StrictlyDecreasing(Ladder)
  {
  }

  /**
   * `RESOLUTIONS.findIndex(r => r.height <= h)` over the rungs from `from` on:
   * the first rung at or below `h`, or -1 when every rung is taller.
   */
  function FirstRungAtOrBelow(h: int, from: nat := 0): (r: int)
    requires from <= |Ladder|
    ensures r == -1 || from <= r < |Ladder|
    ensures r == -1 <==> forall j :: from <= j < |Ladder| ==> Ladder[j].height > h
    ensures r >= 0 ==> Ladder[r].height <= h && forall j :: from <= j < r ==> Ladder[j].height > h
    decreases |Ladder| - from
  {
    if from == |Ladder| then -1
    else if Ladder[from].height <= h then from
    else FirstRungAtOrBelow(h, from + 1)
  }

  /**
   * The ladder index `getScaleHeight` steps down from: the rung at or below
   * `h` just under a taller one, and the top rung both for heights of 1080 and
   * more and for heights below the smallest rung.
   */
  function StartIndex(h: int): (r: nat)
    ensures r < |Ladder|
    ensures r == 0 <==> h >= Ladder[0].height || h < Ladder[|Ladder| - 1].height
    ensures 0 < r ==> Ladder[r].height <= h < Ladder[r - 1].height
  {
    var i := FirstRungAtOrBelow(h);
    if i == -1 then 0 else i
  }

  function Min(a: int, b: int): int {
    if a <= b then a else b
  }

  /**
   * `getScaleHeight`: no scaling for step 0; otherwise `step` rungs below the
   * starting rung, stopping at the smallest rung.
   */
  function GetScaleHeight(currentHeight: int, step: nat): (r: Option<nat>)
    ensures r.None? <==> step == 0
    ensures r.Some? ==> IsLadderHeight(r.value) && r.value >= Ladder[|Ladder| - 1].height
    ensures r.Some? ==> r.value == Ladder[Min(StartIndex(currentHeight) + step, |Ladder| - 1)].height
  {
    if step == 0 then None
    else
      var target := Min(StartIndex(currentHeight) + step, |Ladder| - 1);
      Some(Ladder[target].height)
  }

  /** Larger cumulative steps never give a taller target. */
  lemma ScaleHeightMonotone(h: int, step1: nat, step2: nat)
    requires 1 <= step1 <= step2
    ensures GetScaleHeight(h, step2).value <= GetScaleHeight(h, step1).value
  {
    LadderIsStrictlyDecreasing();
  }

  /** For a source at least as tall as the smallest rung, scaling never goes above it. */
  lemma ScaleHeightNeverAboveSource(h: int, step: nat)
    requires step >= 1 && h >= Ladder[|Ladder| - 1].height
    ensures GetScaleHeight(h, step).value <= h
  {
    LadderIsStrictlyDecreasing();
  }

  /** Below the smallest rung no rung matches, so the top rung is the starting point. */
  lemma ScaleHeightBelowLadder(h: int, step: nat)
    requires step >= 1 && h < Ladder[|Ladder| - 1].height
    ensures GetScaleHeight(h, step) == Some(Ladder[Min(step, |Ladder| - 1)].height)
  {
    assert FirstRungAtOrBelow(h) == -1;
  }

  /** The controller's assumed 1080p source: 720, 480, then 360 from the third step on. */
  lemma ScaleHeightFrom1080(step: nat)
    ensures step == 1 ==> GetScaleHeight(1080, step) == Some(720)
    ensures step == 2 ==> GetScaleHeight(1080, step) == Some(480)
    ensures step >= 3 ==> GetScaleHeight(1080, step) == Some(360)
  {
    assert FirstRungAtOrBelow(1080) == 0;
  }
}
