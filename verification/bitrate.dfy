/**
 * The bitrate estimator: the assumed audio size, the video bitrate that fills
 * the remaining byte budget, and `Math.round`. Bitrates are in kbps, sizes in
 * bytes, durations in seconds, all as exact reals.
 */
module Bitrate {

  /** Bytes in one of the caller's megabytes (1024 * 1024). */
  const BytesPerMB: nat := 1048576
  /** The audio rate assumed when the real one is unknown. */
  const AssumedAudioKbps: real := 128.0
  /** The clamp range of the video bitrate. */
  const MinKbps: real := 100.0
  const MaxKbps: real := 50000.0

  function TargetBytes(targetSizeMB: real): real {
    targetSizeMB * BytesPerMB as real
  }

  /** Bytes produced by a stream of `kbps` kilobits per second over `seconds`. */
  function BytesAt(kbps: real, seconds: real): real {
    kbps * 1000.0 * seconds / 8.0
  }

  /** `estimateAudioSize`: the size of a 128 kbps audio track of the given duration. */
  function EstimateAudioSize(durationSec: real): (r: real)
    ensures r == BytesAt(AssumedAudioKbps, durationSec)
    ensures r == 16000.0 * durationSec
  {
    (128.0 * 1000.0 * durationSec) / 8.0
  }

  function Clamp(x: real, lo: real, hi: real): real {
    if x < lo then lo else if x > hi then hi else x
  }

  /**
   * `calculateTargetBitrate`: the video bitrate that, added to the audio
   * estimate, fills the target, clamped to [100, 50000]; 100 when audio alone
   * uses up the target.
   */
  function CalculateTargetBitrate(targetSizeMB: real, durationSec: real, estimatedAudioBytes: real): (r: real)
    requires durationSec > 0.0
    ensures MinKbps <= r <= MaxKbps
    ensures estimatedAudioBytes >= TargetBytes(targetSizeMB) ==> r == MinKbps
  {
    var targetBytes := targetSizeMB * 1024.0 * 1024.0;
    var videoBudgetBytes := targetBytes - estimatedAudioBytes;
    if videoBudgetBytes <= 0.0 then
      MinKbps
    else
      var bitrate := (videoBudgetBytes * 8.0) / (durationSec * 1000.0);
      Clamp(bitrate, MinKbps, MaxKbps)
  }

  /**
   * What the estimate means: strictly inside the clamp range the video stream
   * plus the audio estimate fill the target exactly; at the ceiling they fit
   * within it, and at the floor they reach at least the target.
   */
  lemma TargetBitrateFillsBudget(targetSizeMB: real, durationSec: real, estimatedAudioBytes: real)
    requires durationSec > 0.0
    ensures var r := CalculateTargetBitrate(targetSizeMB, durationSec, estimatedAudioBytes);
      && (MinKbps < r < MaxKbps ==> BytesAt(r, durationSec) + estimatedAudioBytes == TargetBytes(targetSizeMB))
      && (r == MaxKbps ==> BytesAt(MaxKbps, durationSec) + estimatedAudioBytes <= TargetBytes(targetSizeMB))
      && (r == MinKbps ==> BytesAt(MinKbps, durationSec) + estimatedAudioBytes >= TargetBytes(targetSizeMB))
  {
    var videoBudgetBytes := TargetBytes(targetSizeMB) - estimatedAudioBytes;
    if videoBudgetBytes <= 0.0 {
      BytesAtPositive(MinKbps, durationSec);
    } else {
      var bitrate := (videoBudgetBytes * 8.0) / (durationSec * 1000.0);
      BitrateFillsBudget(videoBudgetBytes, durationSec);
      BytesAtMonotone(bitrate, MinKbps, durationSec);
      BytesAtMonotone(MaxKbps, bitrate, durationSec);
    }
  }

  lemma BytesAtPositive(kbps: real, seconds: real)
    requires kbps > 0.0 && seconds > 0.0
    ensures BytesAt(kbps, seconds) > 0.0
  {
    assert kbps * 1000.0 * seconds > 0.0;
  }

  lemma BytesAtMonotone(a: real, b: real, seconds: real)
    requires seconds > 0.0
    ensures a <= b ==> BytesAt(a, seconds) <= BytesAt(b, seconds)
  {
    if a <= b {
      assert (b - a) * 1000.0 * seconds >= 0.0;
    }
  }

  /** The estimator's formula is the inverse of `BytesAt`. */
  lemma BitrateFillsBudget(budget: real, seconds: real)
    requires seconds > 0.0
    ensures BytesAt((budget * 8.0) / (seconds * 1000.0), seconds) == budget
  {
    var k := (budget * 8.0) / (seconds * 1000.0);
    assert k * (seconds * 1000.0) == budget * 8.0;
  }

  /** A larger size target never lowers the bitrate, a larger audio estimate never raises it. */
  lemma TargetBitrateMonotone(mb1: real, mb2: real, audio1: real, audio2: real, durationSec: real)
    requires durationSec > 0.0 && mb1 <= mb2 && audio1 >= audio2
    ensures CalculateTargetBitrate(mb1, durationSec, audio1) <= CalculateTargetBitrate(mb2, durationSec, audio2)
  {
    var budget1 := TargetBytes(mb1) - audio1;
    var budget2 := TargetBytes(mb2) - audio2;
    assert budget1 <= budget2;
    if budget1 > 0.0 {
      var d := durationSec * 1000.0;
      assert (budget1 * 8.0) / d <= (budget2 * 8.0) / d by {
        assert (budget2 * 8.0) / d - (budget1 * 8.0) / d == ((budget2 - budget1) * 8.0) / d;
      }
    }
  }

  /** `Math.round`: the nearest integer, halves rounded up. */
  function Round(x: real): (r: int)
    ensures x - 0.5 < r as real <= x + 0.5
  {
    (x + 0.5).Floor
  }

  /** `Math.round` is the only integer within half a unit (ties go up). */
  lemma RoundUnique(x: real, n: int)
    requires x - 0.5 < n as real <= x + 0.5
    ensures Round(x) == n
  {
  }

  lemma RoundMonotone(x: real, y: real)
    requires x <= y
    ensures Round(x) <= Round(y)
  {
  }

  /** 25 MB over two minutes at the balanced preset: about 1620 kbps, unclamped. */
  lemma ExampleTwoMinutesAt25MB()
    ensures EstimateAudioSize(120.0) == 1920000.0
    ensures CalculateTargetBitrate(25.0, 120.0, EstimateAudioSize(120.0)) == 24294400.0 * 8.0 / 120000.0
    ensures Round(CalculateTargetBitrate(25.0, 120.0, EstimateAudioSize(120.0))) == 1620
  {
    assert 24294400.0 * 8.0 / 120000.0 == 194355200.0 / 120000.0;
  }

  /** 1 MB over ten seconds: 888576 video bytes, 710.8608 kbps. */
  lemma ExampleTenSecondsAt1MB()
    ensures CalculateTargetBitrate(1.0, 10.0, EstimateAudioSize(10.0)) == 710.8608
  {
  }
}
