/**
 * `compressToTargetSize` in the shape it is written: mutable `currentBitrate`,
 * `scaleStep`, `lastOutputSize` and `warning`, a counted `for` loop over the
 * attempts left at the first failure or fitting output. It is proved to
 * produce exactly the run the recursive `Controller.Compress` describes.
 */
module ControllerLoop {
  import opened Wrappers
  import opened Tables
  import opened Bitrate
  import opened Controller

  /**
   * After an over-budget pass that is not the last, the whole loop's verdict
   * is that of the loop from the next pass, and the passes so far grow by one.
   */
  lemma LoopAdvance(req: Request, outcomes: seq<Outcome>, k: nat, before: seq<PassAttempt>)
    requires ValidRequest(req)
    requires k + 1 < MaxPassesOf(req) <= |outcomes|
    requires Overshoots(req, outcomes[k])
    requires Loop(req, 0, outcomes).result == Loop(req, k, outcomes).result
    requires Loop(req, 0, outcomes).passes == before + Loop(req, k, outcomes).passes
    ensures Loop(req, 0, outcomes).result == Loop(req, k + 1, outcomes).result
    ensures Loop(req, 0, outcomes).passes == (before + [PassAt(InitialBitrate(req), k)]) + Loop(req, k + 1, outcomes).passes
  {
    var next := Loop(req, k + 1, outcomes);
    assert Loop(req, k, outcomes).passes == [PassAt(InitialBitrate(req), k)] + next.passes;
  }

  /**
   * A failed pass, a fitting one, or the last one ends the whole loop with that
   * pass's verdict.
   */
  lemma LoopStops(req: Request, outcomes: seq<Outcome>, k: nat, before: seq<PassAttempt>)
    requires ValidRequest(req)
    requires k < MaxPassesOf(req) <= |outcomes|
    requires outcomes[k].Err? || Fits(req, outcomes[k]) || k + 1 == MaxPassesOf(req)
    requires Loop(req, 0, outcomes).result == Loop(req, k, outcomes).result
    requires Loop(req, 0, outcomes).passes == before + Loop(req, k, outcomes).passes
    ensures Loop(req, 0, outcomes).passes == before + [PassAt(InitialBitrate(req), k)]
    ensures outcomes[k].Err? ==> Loop(req, 0, outcomes).result == Classify(outcomes[k].message)
    ensures outcomes[k].Ok? && Fits(req, outcomes[k]) ==> Loop(req, 0, outcomes).result == Finished(None)
    ensures Overshoots(req, outcomes[k]) ==>
      Loop(req, 0, outcomes).result == Finished(Some(ExhaustedWarning(req, outcomes[k].outputSize)))
  {
  }

  /**
   * The statements between two passes: cut the bitrate by 20%; if that falls
   * under 500 kbps and a rung is left, drop a rung and restart from the initial
   * estimate; never go under 100 kbps.
   */
  method AdjustForNextPass(req: Request, pass: PassAttempt) returns (currentBitrate: real, scaleStep: nat)
    requires ValidRequest(req)
    ensures PassAttempt(pass.attempt + 1, currentBitrate, scaleStep) == Adjust(pass, InitialBitrate(req))
  {
    scaleStep := pass.scaleStep;
    currentBitrate := pass.bitrate * 0.8;
    if currentBitrate < 500.0 && scaleStep < 3 {
      scaleStep := scaleStep + 1;
      currentBitrate := CalculateTargetBitrate(req.targetSizeMB, req.durationSec, EstimateAudioSize(req.durationSec));
    }
    if currentBitrate < 100.0 {
      currentBitrate := 100.0;
    }
  }

  /**
   * `compressToTargetSize`: the audio-budget warning is settled first, a source
   * that already fits gets the single CRF encode, and anything else goes
   * through the refinement loop.
   */
  method CompressToTargetSize(req: Request, outcomes: seq<Outcome>) returns (run: Run)
    requires ValidRequest(req)
    requires MaxPassesOf(req) <= |outcomes|
    ensures run == Compress(req, outcomes)
  {
    var targetBytes := req.targetSizeMB * 1024.0 * 1024.0;
    var estimatedAudioBytes := EstimateAudioSize(req.durationSec);

    var warning: Option<Warning> := None;
    if estimatedAudioBytes >= targetBytes * 0.95 {
      warning := Some(AudioBudget(req.targetSizeMB));
    }

    if req.originalFileSize as real <= targetBytes {
      match outcomes[0]
      case Err(message) =>
        if IsAudioIncompatible(message) {
          return Run(Finished(Some(AudioIncompatible)), []);
        }
        return Run(Threw(message), []);
      case Ok(_) =>
        return Run(Finished(None), []);
    }

    var initialBitrate := CalculateTargetBitrate(req.targetSizeMB, req.durationSec, estimatedAudioBytes);
    var result, passes := RefinementLoop(req, outcomes, targetBytes, initialBitrate, warning);
    CompressLoopPath(req, outcomes);
    return Run(result, passes);
  }

  /** Passes 1 to `k` have run and overshot, leaving the loop from pass `k + 1` to decide the run. */
  predicate Pending(req: Request, outcomes: seq<Outcome>, k: nat, passes: seq<PassAttempt>)
    requires ValidRequest(req)
    requires k < MaxPassesOf(req) <= |outcomes|
  {
    && Loop(req, 0, outcomes).result == Loop(req, k, outcomes).result
    && Loop(req, 0, outcomes).passes == passes + Loop(req, k, outcomes).passes
  }

  /**
   * The body of the `for` loop: invoke the engine with the pass's arguments;
   * a failure is classified and a fitting output is success, either ending the
   * run; an over-budget output that is not the last pass's is followed by the
   * adjustment.
   */
  method RunPass(req: Request, outcomes: seq<Outcome>, targetBytes: real, pass: PassAttempt, ghost before: seq<PassAttempt>)
    returns (verdict: Option<Result>, outputSize: nat, next: PassAttempt)
    requires ValidRequest(req)
    requires MaxPassesOf(req) <= |outcomes|
    requires targetBytes == TargetBytesOf(req)
    requires 1 <= pass.attempt <= MaxPassesOf(req)
    requires pass == PassAt(InitialBitrate(req), pass.attempt - 1)
    requires Pending(req, outcomes, pass.attempt - 1, before)
    ensures verdict.Some? ==> Loop(req, 0, outcomes) == Run(verdict.value, before + [pass])
    ensures verdict.None? && pass.attempt < MaxPassesOf(req) ==>
      && next == PassAt(InitialBitrate(req), pass.attempt)
      && Pending(req, outcomes, pass.attempt, before + [pass])
    ensures verdict.None? && pass.attempt == MaxPassesOf(req) ==>
      Loop(req, 0, outcomes) == Run(Finished(Some(ExhaustedWarning(req, outputSize))), before + [pass])
  {
    var k := pass.attempt - 1;
    match outcomes[k]
    case Err(message) =>
      LoopStops(req, outcomes, k, before);
      return Some(Classify(message)), 0, pass;
    case Ok(size) =>
      outputSize := size;
      if outputSize as real <= targetBytes {
        LoopStops(req, outcomes, k, before);
        return Some(Finished(None)), outputSize, pass;
      }
      verdict, next := None, pass;
      if pass.attempt < Config(req.preset).maxPasses {
        LoopAdvance(req, outcomes, k, before);
        var bitrate, scaleStep := AdjustForNextPass(req, pass);
        next := PassAttempt(pass.attempt + 1, bitrate, scaleStep);
      } else {
        LoopStops(req, outcomes, k, before);
      }
  }

  /**
   * The `for` loop over the attempts, run until a pass ends the run or the
   * preset's passes are used up; after the last pass, fall back to the
   * size-not-reached warning unless the audio warning is already set. The
   * argument list and the progress event of each pass are determined by its
   * parameters, so the loop records only those.
   */
  method RefinementLoop(req: Request, outcomes: seq<Outcome>, targetBytes: real, initial: real, warning0: Option<Warning>)
    returns (result: Result, passes: seq<PassAttempt>)
    requires ValidRequest(req)
    requires MaxPassesOf(req) <= |outcomes|
    requires targetBytes == TargetBytesOf(req)
    requires initial == InitialBitrate(req)
    requires warning0.Some? <==> AudioBudgetFlag(req)
    requires warning0.Some? ==> warning0.value == AudioBudget(req.targetSizeMB)
    ensures Loop(req, 0, outcomes) == Run(result, passes)
  {
    var maxAttempts := Config(req.preset).maxPasses;
    var currentBitrate := initial;
    var scaleStep: nat := 0;
    var lastOutputSize: Option<nat> := None;
    var verdict: Option<Result> := None;
    passes := [];

    var attempt := 1;
    while attempt <= maxAttempts && verdict.None?
      invariant 1 <= attempt <= maxAttempts + 1
      invariant verdict.None? && attempt <= maxAttempts ==>
        && PassAttempt(attempt, currentBitrate, scaleStep) == PassAt(initial, attempt - 1)
        && Pending(req, outcomes, attempt - 1, passes)
      invariant verdict.None? && attempt > maxAttempts ==>
        && lastOutputSize.Some?
        && Loop(req, 0, outcomes) == Run(Finished(Some(ExhaustedWarning(req, lastOutputSize.value))), passes)
      invariant verdict.Some? ==> Loop(req, 0, outcomes) == Run(verdict.value, passes)
      decreases maxAttempts + 1 - attempt, verdict.None?
    {
      var pass := PassAttempt(attempt, currentBitrate, scaleStep);
      var outputSize, next;
      verdict, outputSize, next := RunPass(req, outcomes, targetBytes, pass, passes);
      passes := passes + [pass];
      if verdict.None? {
        lastOutputSize := Some(outputSize);
        currentBitrate, scaleStep := next.bitrate, next.scaleStep;
        attempt := attempt + 1;
      }
    }

    if verdict.Some? {
      return verdict.value, passes;
    }
    var warning := warning0;
    if warning.None? {
      warning := Some(SizeNotReached(lastOutputSize.value, req.targetSizeMB));
    }
    return Finished(warning), passes;
  }
}
