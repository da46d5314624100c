/**
 * Worked runs of the controller on concrete requests: the direct path, the
 * audio warning on both paths, a rethrown failure, and the bitrate schedule
 * between passes.
 */
module Examples {
  import opened Wrappers
  import opened Tables
  import opened Bitrate
  import opened Controller

  function TwoMinuteRequest(originalFileSize: nat): Request {
    Request("in.mov", "in_compressed.mp4", 25.0, 120.0, Balanced, originalFileSize)
  }

  /** A 10 MB source with a 25 MB target is encoded once at constant quality and never enters the loop. */
  lemma SmallSourceTakesDirectPath()
    ensures var r := Compress(TwoMinuteRequest(10 * BytesPerMB), [Ok(9 * BytesPerMB), Ok(0), Ok(0)]);
      InvocationCount(r) == 1 && r.passes == [] && r.result == Finished(None)
  {
  }

  /**
   * One minute 40 seconds of audio is estimated at 1.6 MB, above 95% of a 1 MB
   * target; a source that already fits still reports plain success.
   */
  lemma DirectPathDropsAudioWarning()
    ensures var req := Request("a.mp4", "a_compressed.mp4", 1.0, 100.0, Fast, 500000);
      AudioBudgetFlag(req) && Compress(req, [Ok(400000), Ok(400000)]).result == Finished(None)
  {
  }

  /** The same budget on a 5 MB source: both passes overshoot and the audio warning replaces the size warning. */
  lemma AudioWarningAtExhaustion()
    ensures var req := Request("a.mp4", "a_compressed.mp4", 1.0, 100.0, Fast, 5 * BytesPerMB);
      var r := Compress(req, [Ok(2 * BytesPerMB), Ok(2 * BytesPerMB)]);
      InvocationCount(r) == 2 && r.result == Finished(Some(AudioBudget(1.0)))
  {
    var req := Request("a.mp4", "a_compressed.mp4", 1.0, 100.0, Fast, 5 * BytesPerMB);
    CompressExhaustion(req, [Ok(2 * BytesPerMB), Ok(2 * BytesPerMB)]);
  }

  /** A failure unrelated to audio ends the run at once and is rethrown unchanged. */
  lemma UnrelatedFailureIsRethrown()
    ensures var r := Compress(TwoMinuteRequest(100 * BytesPerMB), [Err("boom"), Ok(0), Ok(0)]);
      InvocationCount(r) == 1 && r.result == Threw("boom")
  {
    assert !Mentions("boom", "audio");
  }

  /** Over budget on the first pass, within it on the second: two invocations, the second at 80% of the first bitrate. */
  lemma SecondPassFits()
    ensures var r := Compress(TwoMinuteRequest(100 * BytesPerMB), [Ok(30 * BytesPerMB), Ok(20 * BytesPerMB), Ok(0)]);
      && InvocationCount(r) == 2 && r.result == Finished(None)
      && r.passes[1] == PassAttempt(2, InitialBitrate(TwoMinuteRequest(100 * BytesPerMB)) * 0.8, 0)
  {
    var req := TwoMinuteRequest(100 * BytesPerMB);
    var outcomes := [Ok(30 * BytesPerMB), Ok(20 * BytesPerMB), Ok(0)];
    ExampleTwoMinutesAt25MB();
    LoopVerdict(req, 0, outcomes);
    CompressLoopPath(req, outcomes);
    CompressAdjustments(req, outcomes);
  }

  /** From 1620 kbps two 20% cuts give 1296 and then 1036.8 kbps, still above the downscale threshold. */
  lemma TwoDecaysFrom1620()
    ensures Adjust(PassAttempt(1, 1620.0, 0), 1620.0) == PassAttempt(2, 1296.0, 0)
    ensures Adjust(PassAttempt(2, 1296.0, 0), 1620.0) == PassAttempt(3, 1036.8, 0)
  {
  }

  /** At 600 kbps a 20% cut falls under 500: the next pass drops to 720 lines and restarts from the initial estimate. */
  lemma CutBelowThresholdDropsARung()
    ensures Adjust(PassAttempt(2, 600.0, 0), 600.0) == PassAttempt(3, 600.0, 1)
    ensures GetScaleHeight(AssumedSourceHeight, 1) == Some(720)
  {
  }
}
