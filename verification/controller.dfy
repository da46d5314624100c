/**
 * The compression controller (`compressToTargetSize`). The encoder is an
 * oracle: `outcomes[k]` is what the k-th engine invocation of the run did,
 * either produced an output of a given byte length or failed with a message.
 * A run is the result together with the parameters of every pass of the
 * refinement loop; the argument list of every invocation and the pass-start
 * progress events are functions of those.
 */
module Controller {
  import opened Wrappers
  import opened Text
  import opened Tables
  import opened Bitrate
  import opened EncodeArgs
  import Progress

  /** What one engine invocation did. */
  datatype Outcome = Ok(outputSize: nat) | Err(message: string)

  /** Why a finished run could not simply report success. */
  datatype Warning =
    | AudioBudget(targetSizeMB: real)
    | AudioIncompatible
    | SizeNotReached(lastOutputSize: nat, targetSizeMB: real)

  /** The end of a run: `{ warning }` returned, or the engine's error rethrown. */
  datatype Result = Finished(warning: Option<Warning>) | Threw(error: string)

  /** The options of one run. */
  datatype Request = Request(
    inputFileName: string,
    outputFileName: string,
    targetSizeMB: real,
    durationSec: real,
    preset: Preset,
    originalFileSize: nat)

  /** The parameters of one pass of the refinement loop (attempts count from 1). */
  datatype PassAttempt = PassAttempt(attempt: nat, bitrate: real, scaleStep: nat)

  /**
   * How a run (or the refinement loop) ended, and the parameters of the passes
   * it ran; a run with no passes took the direct path. What the engine was
   * given and which progress events were announced follow from these
   * (`Calls`, `Announced`).
   */
  datatype Run = Run(result: Result, passes: seq<PassAttempt>)

  /** The controller never probes the source: it scales as if it were 1080 lines tall. */
  const AssumedSourceHeight: int := 1080
  /** Below this bitrate a pass prefers to drop a rung instead. */
  const DownscaleBelowKbps: real := 500.0
  const MaxScaleSteps: nat := 3
  /** Share of the target the audio estimate may use before the run is predicted to miss it. */
  const AudioWarningShare: real := 0.95

  /** The caller's contract: the duration is positive (it substitutes an estimate of at least 10 s). */
  predicate ValidRequest(req: Request) {
    req.durationSec > 0.0
  }

  function TargetBytesOf(req: Request): real {
    TargetBytes(req.targetSizeMB)
  }

  function AudioBytesOf(req: Request): real {
    EstimateAudioSize(req.durationSec)
  }

  /** The audio estimate alone takes at least 95% of the target. */
  predicate AudioBudgetFlag(req: Request) {
    AudioBytesOf(req) >= TargetBytesOf(req) * AudioWarningShare
  }

  /** The source already fits, so the run takes the direct path. */
  predicate FitsAlready(req: Request) {
    req.originalFileSize as real <= TargetBytesOf(req)
  }

  function InitialBitrate(req: Request): real
    requires ValidRequest(req)
  {
    CalculateTargetBitrate(req.targetSizeMB, req.durationSec, AudioBytesOf(req))
  }

  function MaxPassesOf(req: Request): nat {
    MaxPasses(req.preset)
  }

  /** The engine's error text, lower-cased, contains `word`. */
  predicate Mentions(message: string, word: string) {
    Contains(ToLower(message), word)
  }

  /** The signature of an audio stream that cannot be copied into MP4. */
  predicate IsAudioIncompatible(message: string) {
    Mentions(message, "audio") && (Mentions(message, "incompatible") || Mentions(message, "codec"))
  }

  /**
   * A failed invocation ends the run: an audio incompatibility becomes a
   * warning, anything else is rethrown unchanged.
   */
  function Classify(message: string): (r: Result)
    ensures r == Finished(Some(AudioIncompatible)) <==> IsAudioIncompatible(message)
    ensures r.Threw? <==> !IsAudioIncompatible(message)
    ensures r.Threw? ==> r.error == message
  {
    if IsAudioIncompatible(message) then Finished(Some(AudioIncompatible)) else Threw(message)
  }

  /** The warning of a run whose passes all overshot, the last one producing `lastOutputSize` bytes. */
  function ExhaustedWarning(req: Request, lastOutputSize: nat): (w: Warning)
    ensures w.AudioBudget? || w.SizeNotReached?
    ensures w.AudioBudget? <==> AudioBudgetFlag(req)
    ensures w.targetSizeMB == req.targetSizeMB
    ensures w.SizeNotReached? ==> w.lastOutputSize == lastOutputSize
  {
    if AudioBudgetFlag(req) then AudioBudget(req.targetSizeMB)
    else SizeNotReached(lastOutputSize, req.targetSizeMB)
  }

  function Max(a: real, b: real): real {
    if a >= b then a else b
  }

  /**
   * The adjustment between two passes: a 20% bitrate cut, or, when that would
   * go below 500 kbps and fewer than three rungs have been dropped, one more
   * rung with the bitrate reset to the initial estimate; either way the
   * bitrate is floored at 100.
   */
  function Adjust(p: PassAttempt, initial: real): (q: PassAttempt)
    ensures q.attempt == p.attempt + 1
    ensures q.bitrate >= MinKbps
    ensures q.scaleStep == p.scaleStep + 1 <==> p.bitrate * 0.8 < DownscaleBelowKbps && p.scaleStep < MaxScaleSteps
    ensures q.scaleStep == p.scaleStep || q.scaleStep == p.scaleStep + 1
    ensures p.scaleStep <= MaxScaleSteps ==> q.scaleStep <= MaxScaleSteps
    ensures q.scaleStep == p.scaleStep ==> q.bitrate == Max(MinKbps, p.bitrate * 0.8)
    ensures q.scaleStep != p.scaleStep ==> q.bitrate == Max(MinKbps, initial)
    ensures q.scaleStep == p.scaleStep && p.bitrate >= MinKbps ==> q.bitrate <= p.bitrate
  {
    var decayed := p.bitrate * 0.8;
    var stepDown := decayed < DownscaleBelowKbps && p.scaleStep < MaxScaleSteps;
    var bitrate := if stepDown then initial else decayed;
    var scaleStep := if stepDown then p.scaleStep + 1 else p.scaleStep;
    PassAttempt(p.attempt + 1, if bitrate < MinKbps then MinKbps else bitrate, scaleStep)
  }

  /** The parameters of pass `k + 1`: the first pass at the initial estimate, unscaled, then one adjustment per pass. */
  function PassAt(initial: real, k: nat): (p: PassAttempt)
    ensures p.attempt == k + 1
    ensures p.scaleStep <= k && p.scaleStep <= MaxScaleSteps
    ensures k == 0 ==> p.bitrate == initial && p.scaleStep == 0
    ensures k > 0 ==> p.bitrate >= MinKbps
  {
    if k == 0 then PassAttempt(1, initial, 0) else Adjust(PassAt(initial, k - 1), initial)
  }

  /** Every pass keeps its bitrate in [100, 50000] and drops at most three rungs, at most one per pass. */
  lemma {:induction false} PassInvariant(initial: real, k: nat)
    requires MinKbps <= initial <= MaxKbps
    ensures PassAt(initial, k).attempt == k + 1
    ensures MinKbps <= PassAt(initial, k).bitrate <= MaxKbps
    ensures PassAt(initial, k).scaleStep <= MaxScaleSteps
    ensures PassAt(initial, k).scaleStep <= k
  {
    if k > 0 {
      PassInvariant(initial, k - 1);
    }
  }

  /** Over any stretch of passes the rung count never decreases and grows by at most one per pass. */
  lemma {:induction false} ScaleStepMonotone(initial: real, i: nat, j: nat)
    requires i <= j
    ensures PassAt(initial, i).scaleStep <= PassAt(initial, j).scaleStep <= PassAt(initial, i).scaleStep + (j - i)
    decreases j
  {
    if i < j {
      ScaleStepMonotone(initial, i, j - 1);
    }
  }

  /**
   * The argument list of a pass: its bitrate, and the rung its step count
   * reaches from 1080 lines. The scale pair is there exactly when a rung was
   * dropped, which makes the list 20 entries long instead of 18.
   */
  function PassArgs(req: Request, p: PassAttempt): (args: seq<string>)
    ensures |args| == (if p.scaleStep > 0 then 20 else 18)
    ensures args[..2] == ["-i", req.inputFileName]
    ensures args[|args| - 2..] == ["-y", req.outputFileName]
  {
    BuildArgs(req.inputFileName, req.outputFileName, req.preset, p.bitrate,
              GetScaleHeight(AssumedSourceHeight, p.scaleStep))
  }

  /** The argument lists of `passes`, in order. */
  function ArgLists(req: Request, passes: seq<PassAttempt>): (calls: seq<seq<string>>)
    ensures |calls| == |passes|
  {
    if passes == [] then [] else ArgLists(req, passes[..|passes| - 1]) + [PassArgs(req, passes[|passes| - 1])]
  }

  lemma {:induction false} ArgListAt(req: Request, passes: seq<PassAttempt>, i: nat)
    requires i < |passes|
    ensures ArgLists(req, passes)[i] == PassArgs(req, passes[i])
  {
    if i < |passes| - 1 {
      ArgListAt(req, passes[..|passes| - 1], i);
    }
  }

  /** The output fits the byte budget. */
  predicate Fits(req: Request, o: Outcome)
    requires o.Ok?
  {
    o.outputSize as real <= TargetBytesOf(req)
  }

  /** The invocation succeeded but its output is still over budget. */
  predicate Overshoots(req: Request, o: Outcome) {
    o.Ok? && !Fits(req, o)
  }

  /**
   * The refinement loop from pass `k + 1` on: invoke the engine with the pass's
   * arguments, stop at the first failure or fitting output, otherwise adjust
   * and go on until the preset's passes are used up.
   */
  function Loop(req: Request, k: nat, outcomes: seq<Outcome>): (r: Run)
    requires ValidRequest(req)
    requires k < MaxPassesOf(req) <= |outcomes|
    ensures 1 <= |r.passes| <= MaxPassesOf(req) - k
    decreases MaxPassesOf(req) - k
  {
    var p := PassAt(InitialBitrate(req), k);
    match outcomes[k]
    case Err(message) => Run(Classify(message), [p])
    case Ok(outputSize) =>
      if outputSize as real <= TargetBytesOf(req) then
        Run(Finished(None), [p])
      else if k + 1 == MaxPassesOf(req) then
        Run(Finished(Some(ExhaustedWarning(req, outputSize))), [p])
      else
        var rest := Loop(req, k + 1, outcomes);
        Run(rest.result, [p] + rest.passes)
  }

  /** Pass `k + i + 1` of the loop uses the parameters `PassAt` gives it. */
  lemma {:induction false} LoopPassAt(req: Request, k: nat, outcomes: seq<Outcome>, i: nat)
    requires ValidRequest(req)
    requires k < MaxPassesOf(req) <= |outcomes|
    requires i < |Loop(req, k, outcomes).passes|
    ensures Loop(req, k, outcomes).passes[i] == PassAt(InitialBitrate(req), k + i)
    decreases i
  {
    if i > 0 {
      var rest := Loop(req, k + 1, outcomes);
      assert Loop(req, k, outcomes).passes == [PassAt(InitialBitrate(req), k)] + rest.passes;
      LoopPassAt(req, k + 1, outcomes, i - 1);
    }
  }

  /**
   * The loop goes on only past successful, over-budget passes, and its last
   * invocation decides the result: a failure is classified, a fitting output
   * is success, and an output still over budget can only be the preset's last
   * pass, which ends with the exhaustion warning.
   */
  lemma {:induction false} LoopVerdict(req: Request, k: nat, outcomes: seq<Outcome>)
    requires ValidRequest(req)
    requires k < MaxPassesOf(req) <= |outcomes|
    ensures var r := Loop(req, k, outcomes);
      var last := k + |r.passes| - 1;
      && (forall j :: k <= j < last ==> Overshoots(req, outcomes[j]))
      && (outcomes[last].Err? ==> r.result == Classify(outcomes[last].message))
      && (outcomes[last].Ok? && Fits(req, outcomes[last]) ==> r.result == Finished(None))
      && (Overshoots(req, outcomes[last]) ==>
            last == MaxPassesOf(req) - 1
            && r.result == Finished(Some(ExhaustedWarning(req, outcomes[last].outputSize))))
    decreases MaxPassesOf(req) - k
  {
    var r := Loop(req, k, outcomes);
    if |r.passes| > 1 {
      LoopVerdict(req, k + 1, outcomes);
    }
  }

  /**
   * `compressToTargetSize`. A source that already fits gets one CRF encode and
   * never enters the loop; otherwise the loop runs, one invocation per pass.
   * Either way at most the preset's pass count of invocations happen.
   */
  function Compress(req: Request, outcomes: seq<Outcome>): (r: Run)
    requires ValidRequest(req)
    requires MaxPassesOf(req) <= |outcomes|
    ensures 1 <= InvocationCount(r) <= MaxPassesOf(req)
    ensures r.passes == [] <==> FitsAlready(req)
  {
    if FitsAlready(req) then
      var result := match outcomes[0]
        case Ok(_) => Finished(None)
        case Err(message) => Classify(message);
      Run(result, [])
    else
      Loop(req, 0, outcomes)
  }

  /** How many times the run invoked the engine: once on the direct path, once per pass otherwise. */
  function InvocationCount(r: Run): nat {
    if r.passes == [] then 1 else |r.passes|
  }

  /** The argument lists the run gave the engine, in order. */
  function Calls(req: Request, r: Run): (calls: seq<seq<string>>)
    ensures |calls| == InvocationCount(r)
  {
    if r.passes == [] then [DirectArgs(req.inputFileName, req.outputFileName, req.preset)]
    else ArgLists(req, r.passes)
  }

  /** The pass-start progress events the run announced, in order. */
  function Announced(req: Request, r: Run): (events: seq<Progress.Event>)
    ensures |events| == |r.passes|
  {
    Progress.Announcements(MaxPassesOf(req), |r.passes|)
  }

  /**
   * A failure is never retried: every invocation but the last succeeded, a
   * failed last one is classified, and the run reports success exactly when
   * the last invocation succeeded with a fitting output (on the direct path,
   * any successful invocation).
   */
  lemma CompressVerdict(req: Request, outcomes: seq<Outcome>)
    requires ValidRequest(req)
    requires MaxPassesOf(req) <= |outcomes|
    ensures var r := Compress(req, outcomes);
      var last := InvocationCount(r) - 1;
      && (forall i :: 0 <= i < last ==> outcomes[i].Ok?)
      && (outcomes[last].Err? ==> r.result == Classify(outcomes[last].message))
      && (r.result == Finished(None) <==> outcomes[last].Ok? && (FitsAlready(req) || Fits(req, outcomes[last])))
  {
    if FitsAlready(req) {
      var r := Compress(req, outcomes);
      assert r.result == Finished(None) <==> outcomes[0].Ok?;
    } else {
      CompressLoopPath(req, outcomes);
      LoopOutcome(req, outcomes);
    }
  }

  /** `CompressVerdict` for the loop alone. */
  lemma LoopOutcome(req: Request, outcomes: seq<Outcome>)
    requires ValidRequest(req)
    requires MaxPassesOf(req) <= |outcomes|
    ensures var r := Loop(req, 0, outcomes);
      var last := |r.passes| - 1;
      && (forall i :: 0 <= i < last ==> outcomes[i].Ok?)
      && (outcomes[last].Err? ==> r.result == Classify(outcomes[last].message))
      && (r.result == Finished(None) <==> outcomes[last].Ok? && Fits(req, outcomes[last]))
  {
    var r := Loop(req, 0, outcomes);
    LoopVerdict(req, 0, outcomes);
    var last := |r.passes| - 1;
    if outcomes[last].Err? {
      assert r.result == Classify(outcomes[last].message);
    } else if !Fits(req, outcomes[last]) {
      assert r.result.warning.Some?;
    }
  }

  /** On the refinement path the run is the loop's. */
  lemma CompressLoopPath(req: Request, outcomes: seq<Outcome>)
    requires ValidRequest(req)
    requires MaxPassesOf(req) <= |outcomes|
    requires !FitsAlready(req)
    ensures Compress(req, outcomes) == Loop(req, 0, outcomes)
  {
  }

  /** The loop's passes follow the schedule `PassAt` gives from the initial estimate. */
  lemma LoopSchedule(req: Request, outcomes: seq<Outcome>)
    requires ValidRequest(req)
    requires MaxPassesOf(req) <= |outcomes|
    ensures var passes := Loop(req, 0, outcomes).passes;
      forall i :: 0 <= i < |passes| ==> passes[i] == PassAt(InitialBitrate(req), i)
  {
    var passes := Loop(req, 0, outcomes).passes;
    forall i | 0 <= i < |passes|
      ensures passes[i] == PassAt(InitialBitrate(req), i)
    {
      LoopPassAt(req, 0, outcomes, i);
    }
  }

  /**
   * On the refinement path the trace is pass by pass: pass `i + 1` runs with
   * `PassAt`'s parameters, issues that pass's argument list, and is announced
   * at the start of its progress slice.
   */
  lemma CompressTrace(req: Request, outcomes: seq<Outcome>)
    requires ValidRequest(req)
    requires MaxPassesOf(req) <= |outcomes|
    requires !FitsAlready(req)
    ensures var r := Compress(req, outcomes);
      forall i :: 0 <= i < |r.passes| ==>
        && r.passes[i] == PassAt(InitialBitrate(req), i)
        && Calls(req, r)[i] == PassArgs(req, r.passes[i])
        && Announced(req, r)[i] == Progress.PassStart(i + 1, MaxPassesOf(req))
  {
    var passes := Loop(req, 0, outcomes).passes;
    CompressLoopPath(req, outcomes);
    LoopSchedule(req, outcomes);
    ArgListsEach(req, passes);
    Progress.AnnouncementsEach(MaxPassesOf(req), |passes|);
  }

  lemma ArgListsEach(req: Request, passes: seq<PassAttempt>)
    ensures forall i :: 0 <= i < |passes| ==> ArgLists(req, passes)[i] == PassArgs(req, passes[i])
  {
    forall i | 0 <= i < |passes|
      ensures ArgLists(req, passes)[i] == PassArgs(req, passes[i])
    {
      ArgListAt(req, passes, i);
    }
  }

  /**
   * A schedule from an initial estimate in range: the first pass is unscaled at
   * the estimate, each later one adjusts the one before, every bitrate stays in
   * [100, 50000], and the rung count stays within 0..3, never decreasing and
   * growing by at most one per pass.
   */
  lemma ScheduleFacts(initial: real, passes: seq<PassAttempt>)
    requires MinKbps <= initial <= MaxKbps
    requires forall i :: 0 <= i < |passes| ==> passes[i] == PassAt(initial, i)
    ensures |passes| > 0 ==> passes[0] == PassAttempt(1, initial, 0)
    ensures forall i :: 0 <= i < |passes| - 1 ==> passes[i + 1] == Adjust(passes[i], initial)
    ensures forall i :: 0 <= i < |passes| ==>
      && passes[i].attempt == i + 1
      && MinKbps <= passes[i].bitrate <= MaxKbps
      && passes[i].scaleStep <= MaxScaleSteps
    ensures forall i, j :: 0 <= i <= j < |passes| ==>
      passes[i].scaleStep <= passes[j].scaleStep <= passes[i].scaleStep + (j - i)
  {
    forall i | 0 <= i < |passes|
      ensures passes[i].attempt == i + 1
      ensures MinKbps <= passes[i].bitrate <= MaxKbps && passes[i].scaleStep <= MaxScaleSteps
    {
      PassInvariant(initial, i);
    }
    forall i | 0 <= i < |passes| - 1
      ensures passes[i + 1] == Adjust(passes[i], initial)
    {
      assert passes[i + 1] == PassAt(initial, i + 1);
    }
    forall i, j | 0 <= i <= j < |passes|
      ensures passes[i].scaleStep <= passes[j].scaleStep <= passes[i].scaleStep + (j - i)
    {
      ScaleStepMonotone(initial, i, j);
    }
  }

  /** The pass parameters of a run obey `ScheduleFacts` from the initial estimate. */
  lemma CompressAdjustments(req: Request, outcomes: seq<Outcome>)
    requires ValidRequest(req)
    requires MaxPassesOf(req) <= |outcomes|
    ensures var r := Compress(req, outcomes);
      && (|r.passes| > 0 ==> r.passes[0] == PassAttempt(1, InitialBitrate(req), 0))
      && (forall i :: 0 <= i < |r.passes| - 1 ==> r.passes[i + 1] == Adjust(r.passes[i], InitialBitrate(req)))
      && (forall i :: 0 <= i < |r.passes| ==>
            && r.passes[i].attempt == i + 1
            && MinKbps <= r.passes[i].bitrate <= MaxKbps
            && r.passes[i].scaleStep <= MaxScaleSteps)
      && (forall i, j :: 0 <= i <= j < |r.passes| ==>
            r.passes[i].scaleStep <= r.passes[j].scaleStep <= r.passes[i].scaleStep + (j - i))
  {
    if !FitsAlready(req) {
      CompressLoopPath(req, outcomes);
      LoopSchedule(req, outcomes);
      ScheduleFacts(InitialBitrate(req), Loop(req, 0, outcomes).passes);
    }
  }

  /**
   * The loop's verdict in terms of exhaustion: it goes on only past
   * over-budget outputs, and it ends with a size warning exactly when all of
   * the preset's passes overshot, the warning then being the exhaustion
   * warning for the last pass's size.
   */
  lemma LoopExhaustion(req: Request, outcomes: seq<Outcome>)
    requires ValidRequest(req)
    requires MaxPassesOf(req) <= |outcomes|
    ensures var r := Loop(req, 0, outcomes);
      forall j :: 0 <= j < |r.passes| - 1 ==> Overshoots(req, outcomes[j])
    ensures var r := Loop(req, 0, outcomes);
      var max := MaxPassesOf(req);
      (r.result.Finished? && r.result.warning.Some? && r.result.warning.value != AudioIncompatible)
      <==> (forall j :: 0 <= j < max ==> Overshoots(req, outcomes[j]))
    ensures var r := Loop(req, 0, outcomes);
      var max := MaxPassesOf(req);
      (forall j :: 0 <= j < max ==> Overshoots(req, outcomes[j])) ==>
        |r.passes| == max && r.result == Finished(Some(ExhaustedWarning(req, outcomes[max - 1].outputSize)))
  {
    var r := Loop(req, 0, outcomes);
    LoopVerdict(req, 0, outcomes);
    var last := |r.passes| - 1;
    if outcomes[last].Err? {
      assert r.result == Classify(outcomes[last].message);
      assert !Overshoots(req, outcomes[last]);
    } else if Fits(req, outcomes[last]) {
      assert r.result == Finished(None);
      assert !Overshoots(req, outcomes[last]);
    } else {
      assert last == MaxPassesOf(req) - 1;
    }
  }

  /**
   * A run goes on only past over-budget outputs, and it ends with a size
   * warning exactly when it took the refinement path and all of the preset's
   * passes overshot; the warning is the audio-budget one when the audio
   * estimate took at least 95% of the target, and otherwise reports the last
   * pass's size.
   */
  lemma CompressExhaustion(req: Request, outcomes: seq<Outcome>)
    requires ValidRequest(req)
    requires MaxPassesOf(req) <= |outcomes|
    ensures var r := Compress(req, outcomes);
      forall j :: 0 <= j < |r.passes| - 1 ==> Overshoots(req, outcomes[j])
    ensures var r := Compress(req, outcomes);
      var max := MaxPassesOf(req);
      (r.result.Finished? && r.result.warning.Some? && r.result.warning.value != AudioIncompatible)
      <==> (!FitsAlready(req) && forall j :: 0 <= j < max ==> Overshoots(req, outcomes[j]))
    ensures var r := Compress(req, outcomes);
      var max := MaxPassesOf(req);
      !FitsAlready(req) && (forall j :: 0 <= j < max ==> Overshoots(req, outcomes[j])) ==>
        InvocationCount(r) == max && r.result == Finished(Some(ExhaustedWarning(req, outcomes[max - 1].outputSize)))
  {
    if FitsAlready(req) {
      var r := Compress(req, outcomes);
      assert r.result == Finished(None) || r.result == Classify(outcomes[0].message);
    } else {
      CompressLoopPath(req, outcomes);
      LoopExhaustion(req, outcomes);
    }
  }

  /** Pass-start events move strictly forward and stay inside the 15%-85% window. */
  lemma CompressProgressIncreasing(req: Request, outcomes: seq<Outcome>)
    requires ValidRequest(req)
    requires MaxPassesOf(req) <= |outcomes|
    ensures var events := Announced(req, Compress(req, outcomes));
      && (forall i :: 0 <= i < |events| ==>
            Progress.WindowStart <= events[i].percent < Progress.WindowStart + Progress.WindowWidth)
      && (forall i, j :: 0 <= i < j < |events| ==> events[i].percent < events[j].percent)
  {
    var r := Compress(req, outcomes);
    assert |r.passes| <= MaxPassesOf(req);
    Progress.AnnouncementsIncreasing(MaxPassesOf(req), |r.passes|);
  }

  /** A pass's invocation carries its rounded bitrate, and the scale filter exactly when it has dropped a rung. */
  lemma PassArgsFlags(req: Request, p: PassAttempt)
    ensures RateOf(PassArgs(req, p), "-b:v") == Some(Round(p.bitrate))
    ensures FlagValue(PassArgs(req, p), "-vf").Some? <==> p.scaleStep > 0
  {
    var height := GetScaleHeight(AssumedSourceHeight, p.scaleStep);
    BuildArgsRates(req.inputFileName, req.outputFileName, req.preset, p.bitrate, height);
    BuildArgsModes(req.inputFileName, req.outputFileName, req.preset, p.bitrate, height);
    if p.scaleStep > 0 {
      assert IsLadderHeight(height.value);
    }
  }

  /**
   * What the engine is told: the direct encode carries no bitrate, while every
   * pass carries its own rounded bitrate and the scale filter exactly when it
   * has dropped at least one rung.
   */
  lemma CompressCallFlags(req: Request, outcomes: seq<Outcome>)
    requires ValidRequest(req)
    requires MaxPassesOf(req) <= |outcomes|
    ensures var calls := Calls(req, Compress(req, outcomes));
      FitsAlready(req) ==> FlagValue(calls[0], "-b:v") == None && FlagValue(calls[0], "-crf").Some?
    ensures var r := Compress(req, outcomes);
      var calls := Calls(req, r);
      forall i :: 0 <= i < |r.passes| ==>
        && RateOf(calls[i], "-b:v") == Some(Round(r.passes[i].bitrate))
        && (FlagValue(calls[i], "-vf").Some? <==> r.passes[i].scaleStep > 0)
  {
    if FitsAlready(req) {
      DirectArgsReadBack(req.inputFileName, req.outputFileName, req.preset);
    } else {
      var passes := Loop(req, 0, outcomes).passes;
      CompressLoopPath(req, outcomes);
      ArgListsEach(req, passes);
      forall i | 0 <= i < |passes|
        ensures RateOf(PassArgs(req, passes[i]), "-b:v") == Some(Round(passes[i].bitrate))
        ensures FlagValue(PassArgs(req, passes[i]), "-vf").Some? <==> passes[i].scaleStep > 0
      {
        PassArgsFlags(req, passes[i]);
      }
    }
  }

  /** The text the caller shows for a warning; number and size formatting are the caller's `toString` and `formatBytes`. */
  const AudioBudgetTail: string :=
    "MB because the audio track alone is too large (audio is kept unchanged). Output is as small as possible."
  /** Split in two because the verifier sees the individual characters only of short literals. */
  const AudioIncompatibleText: string :=
    "The audio format in this video " + "isn't compatible with MP4. Audio couldn't be preserved."
  const SizeNotReachedTail: string :=
    "MB target. This is as small as it can get while maintaining watchable quality."

  function Message(w: Warning, showNumber: real -> string, formatBytes: nat -> string): (text: string)
    ensures |text| > 0
    ensures w.AudioBudget? ==> OccursAt(text, showNumber(w.targetSizeMB), 13)
    ensures w.SizeNotReached? ==>
      && OccursAt(text, formatBytes(w.lastOutputSize), 10)
      && OccursAt(text, showNumber(w.targetSizeMB), 28 + |formatBytes(w.lastOutputSize)|)
  {
    match w
    case AudioBudget(mb) => "Couldn't hit " + (showNumber(mb) + AudioBudgetTail)
    case AudioIncompatible => AudioIncompatibleText
    case SizeNotReached(size, mb) =>
      "Output is " + (formatBytes(size) + (" - couldn't reach " + (showNumber(mb) + SizeNotReachedTail)))
  }

  lemma MessagesDistinguishKinds(w1: Warning, w2: Warning, showNumber: real -> string, formatBytes: nat -> string)
    requires w1.AudioBudget? != w2.AudioBudget? || w1.AudioIncompatible? != w2.AudioIncompatible?
    ensures Message(w1, showNumber, formatBytes) != Message(w2, showNumber, formatBytes)
  {
    MessageLead(w1, showNumber, formatBytes);
    MessageLead(w2, showNumber, formatBytes);
  }

  lemma MessageLead(w: Warning, showNumber: real -> string, formatBytes: nat -> string)
    ensures Message(w, showNumber, formatBytes)[0] ==
      match w case AudioBudget(_) => 'C' case AudioIncompatible => 'T' case SizeNotReached(_, _) => 'O'
  {
  }
}
