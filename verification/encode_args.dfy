/**
 * The encode argument builder: the ffmpeg argument list of a bitrate-targeted
 * pass (`buildFFmpegArgs`) and of the single CRF encode of the direct path.
 * Argument lists are read back with `FlagValue`, which looks a flag up among
 * the (flag, value) pairs the list is made of.
 */
module EncodeArgs {
  import opened Wrappers
  import opened Text
  import opened Tables
  import opened Bitrate

  /** A rate rendered the way the builder renders it: `${Math.round(x)}k`. */
  function Kbps(x: real): string {
    IntToString(Round(x)) + "k"
  }

  /** Reads a `<integer>k` rate back. */
  function ParseKbps(v: string): Option<int> {
    if |v| > 0 && v[|v| - 1] == 'k' then ParseInt(v[..|v| - 1]) else None
  }

  lemma KbpsRoundTrip(x: real)
    ensures ParseKbps(Kbps(x)) == Some(Round(x))
  {
    assert Kbps(x)[..|Kbps(x)| - 1] == IntToString(Round(x));
    IntToStringRoundTrip(Round(x));
  }

  /** The value that follows the first occurrence of `flag` in a flag position. */
  function FlagValue(args: seq<string>, flag: string): Option<string>
    decreases |args|
  {
    if |args| < 2 then None
    else if args[0] == flag then Some(args[1])
    else FlagValue(args[2..], flag)
  }

  /** The rate a flag carries, read back as an integer number of kbps. */
  function RateOf(args: seq<string>, flag: string): Option<int> {
    match FlagValue(args, flag)
    case Some(v) => ParseKbps(v)
    case None => None
  }

  /** Looking a flag up in a list that starts with a (flag, value) pair. */
  lemma FlagValuePair(flag: string, value: string, rest: seq<string>, f: string)
    ensures FlagValue([flag, value] + rest, f) == (if flag == f then Some(value) else FlagValue(rest, f))
  {
    assert ([flag, value] + rest)[2..] == rest;
  }

  /** JavaScript truthiness of the optional scale height: `null` and 0 are false. */
  predicate Truthy(scaleHeight: Option<int>) {
    scaleHeight.Some? && scaleHeight.value != 0
  }

  function ScaleFilter(height: int): string {
    "scale=-2:" + IntToString(height)
  }

  /** The optional scale pair followed by the output pair. */
  function Tail(outputFile: string, scaleHeight: Option<int>): seq<string> {
    (if Truthy(scaleHeight) then ["-vf", ScaleFilter(scaleHeight.value)] else []) + ["-y", outputFile]
  }

  /**
   * `buildFFmpegArgs`: input, H.264 at the preset's speed, the target bitrate
   * with a 1.5x peak and a 2x buffer, audio copied, web-optimised layout, an
   * optional aspect-preserving scale filter, and forced overwrite of the output.
   * The list opens with the input, closes with the output, and has 20 entries
   * exactly when it scales.
   */
  function BuildArgs(inputFile: string, outputFile: string, preset: Preset, targetBitrate: real,
                     scaleHeight: Option<int>): (args: seq<string>)
    ensures |args| == (if Truthy(scaleHeight) then 20 else 18)
    ensures args[..2] == ["-i", inputFile]
    ensures args[|args| - 2..] == ["-y", outputFile]
  {
    [ "-i", inputFile,
      "-c:v", "libx264",
      "-preset", Config(preset).ffmpegPreset,
      "-b:v", Kbps(targetBitrate),
      "-maxrate", Kbps(targetBitrate * 1.5),
      "-bufsize", Kbps(targetBitrate * 2.0),
      "-c:a", "copy",
      "-movflags", "+faststart" ]
    + Tail(outputFile, scaleHeight)
  }

  lemma TailLookup(outputFile: string, scaleHeight: Option<int>, f: string)
    ensures FlagValue(Tail(outputFile, scaleHeight), f) ==
      if f == "-vf" && Truthy(scaleHeight) then Some(ScaleFilter(scaleHeight.value))
      else if f == "-y" then Some(outputFile)
      else None
  {
    FlagValuePair("-y", outputFile, [], f);
    assert ["-y", outputFile] == ["-y", outputFile] + [];
    if Truthy(scaleHeight) {
      FlagValuePair("-vf", ScaleFilter(scaleHeight.value), ["-y", outputFile], f);
    } else {
      assert Tail(outputFile, scaleHeight) == ["-y", outputFile];
    }
  }

  /** A pass's list read as (flag, value) pairs in front of the tail. */
  lemma BuildArgsPairs(inputFile: string, outputFile: string, preset: Preset, targetBitrate: real,
                       scaleHeight: Option<int>)
    ensures BuildArgs(inputFile, outputFile, preset, targetBitrate, scaleHeight) ==
      ["-i", inputFile] + (["-c:v", "libx264"] + (["-preset", Config(preset).ffmpegPreset]
      + (["-b:v", Kbps(targetBitrate)] + (["-maxrate", Kbps(targetBitrate * 1.5)]
      + (["-bufsize", Kbps(targetBitrate * 2.0)] + (["-c:a", "copy"]
      + (["-movflags", "+faststart"] + Tail(outputFile, scaleHeight))))))))
  {
  }

  /** Any flag looked up in a bitrate-targeted argument list. */
  lemma BuildArgsLookup(inputFile: string, outputFile: string, preset: Preset, targetBitrate: real,
                        scaleHeight: Option<int>, f: string)
    ensures FlagValue(BuildArgs(inputFile, outputFile, preset, targetBitrate, scaleHeight), f) ==
      if f == "-i" then Some(inputFile)
      else if f == "-c:v" then Some("libx264")
      else if f == "-preset" then Some(Config(preset).ffmpegPreset)
      else if f == "-b:v" then Some(Kbps(targetBitrate))
      else if f == "-maxrate" then Some(Kbps(targetBitrate * 1.5))
      else if f == "-bufsize" then Some(Kbps(targetBitrate * 2.0))
      else if f == "-c:a" then Some("copy")
      else if f == "-movflags" then Some("+faststart")
      else if f == "-vf" && Truthy(scaleHeight) then Some(ScaleFilter(scaleHeight.value))
      else if f == "-y" then Some(outputFile)
      else None
  {
    var tail := Tail(outputFile, scaleHeight);
    var s7 := ["-movflags", "+faststart"] + tail;
    var s6 := ["-c:a", "copy"] + s7;
    var s5 := ["-bufsize", Kbps(targetBitrate * 2.0)] + s6;
    var s4 := ["-maxrate", Kbps(targetBitrate * 1.5)] + s5;
    var s3 := ["-b:v", Kbps(targetBitrate)] + s4;
    var s2 := ["-preset", Config(preset).ffmpegPreset] + s3;
    var s1 := ["-c:v", "libx264"] + s2;
    BuildArgsPairs(inputFile, outputFile, preset, targetBitrate, scaleHeight);
    TailLookup(outputFile, scaleHeight, f);
    FlagValuePair("-movflags", "+faststart", tail, f);
    FlagValuePair("-c:a", "copy", s7, f);
    FlagValuePair("-bufsize", Kbps(targetBitrate * 2.0), s6, f);
    FlagValuePair("-maxrate", Kbps(targetBitrate * 1.5), s5, f);
    FlagValuePair("-b:v", Kbps(targetBitrate), s4, f);
    FlagValuePair("-preset", Config(preset).ffmpegPreset, s3, f);
    FlagValuePair("-c:v", "libx264", s2, f);
    FlagValuePair("-i", inputFile, s1, f);
  }

  /** The rates a pass's list carries, read back: the rounded target, 1.5x peak and 2x buffer. */
  lemma BuildArgsRates(inputFile: string, outputFile: string, preset: Preset, targetBitrate: real,
                       scaleHeight: Option<int>)
    ensures var args := BuildArgs(inputFile, outputFile, preset, targetBitrate, scaleHeight);
      && RateOf(args, "-b:v") == Some(Round(targetBitrate))
      && RateOf(args, "-maxrate") == Some(Round(targetBitrate * 1.5))
      && RateOf(args, "-bufsize") == Some(Round(targetBitrate * 2.0))
  {
    var args := BuildArgs(inputFile, outputFile, preset, targetBitrate, scaleHeight);
    assert RateOf(args, "-b:v") == Some(Round(targetBitrate)) by {
      BuildArgsLookup(inputFile, outputFile, preset, targetBitrate, scaleHeight, "-b:v");
      RateOfKbps(args, "-b:v", targetBitrate);
    }
    assert RateOf(args, "-maxrate") == Some(Round(targetBitrate * 1.5)) by {
      BuildArgsLookup(inputFile, outputFile, preset, targetBitrate, scaleHeight, "-maxrate");
      RateOfKbps(args, "-maxrate", targetBitrate * 1.5);
    }
    assert RateOf(args, "-bufsize") == Some(Round(targetBitrate * 2.0)) by {
      BuildArgsLookup(inputFile, outputFile, preset, targetBitrate, scaleHeight, "-bufsize");
      RateOfKbps(args, "-bufsize", targetBitrate * 2.0);
    }
  }

  /** A pass copies the audio, carries the scale filter exactly when a height is given, and sets no CRF. */
  lemma BuildArgsModes(inputFile: string, outputFile: string, preset: Preset, targetBitrate: real,
                       scaleHeight: Option<int>)
    ensures var args := BuildArgs(inputFile, outputFile, preset, targetBitrate, scaleHeight);
      && FlagValue(args, "-c:a") == Some("copy")
      && FlagValue(args, "-vf") == (if Truthy(scaleHeight) then Some(ScaleFilter(scaleHeight.value)) else None)
      && FlagValue(args, "-crf") == None
  {
    BuildArgsLookup(inputFile, outputFile, preset, targetBitrate, scaleHeight, "-c:a");
    BuildArgsLookup(inputFile, outputFile, preset, targetBitrate, scaleHeight, "-vf");
    BuildArgsLookup(inputFile, outputFile, preset, targetBitrate, scaleHeight, "-crf");
  }

  lemma RateOfKbps(args: seq<string>, flag: string, x: real)
    requires FlagValue(args, flag) == Some(Kbps(x))
    ensures RateOf(args, flag) == Some(Round(x))
  {
    KbpsRoundTrip(x);
  }

  /** The scale filter names exactly the height it was given. */
  lemma ScaleFilterInjective(h1: int, h2: int)
    requires ScaleFilter(h1) == ScaleFilter(h2)
    ensures h1 == h2
  {
    assert ScaleFilter(h1)[9..] == IntToString(h1);
    assert ScaleFilter(h2)[9..] == IntToString(h2);
    IntToStringInjective(h1, h2);
  }

  /**
   * The direct path's single encode: same input, codec, speed, audio and layout
   * as a pass, but quality-targeted at the preset's baseline CRF with no rate flags.
   */
  function DirectArgs(inputFile: string, outputFile: string, preset: Preset): (args: seq<string>)
    ensures |args| == 14
    ensures args[..2] == ["-i", inputFile]
    ensures args[|args| - 2..] == ["-y", outputFile]
    ensures args[8..10] == ["-c:a", "copy"]
  {
    [ "-i", inputFile,
      "-c:v", "libx264",
      "-preset", Config(preset).ffmpegPreset,
      "-crf", NatToString(Config(preset).crfBase),
      "-c:a", "copy",
      "-movflags", "+faststart",
      "-y", outputFile ]
  }

  /** Any flag looked up in the direct path's argument list. */
  lemma DirectArgsLookup(inputFile: string, outputFile: string, preset: Preset, f: string)
    ensures FlagValue(DirectArgs(inputFile, outputFile, preset), f) ==
      if f == "-i" then Some(inputFile)
      else if f == "-c:v" then Some("libx264")
      else if f == "-preset" then Some(Config(preset).ffmpegPreset)
      else if f == "-crf" then Some(NatToString(Config(preset).crfBase))
      else if f == "-c:a" then Some("copy")
      else if f == "-movflags" then Some("+faststart")
      else if f == "-y" then Some(outputFile)
      else None
  {
    var crf := NatToString(Config(preset).crfBase);
    var s6 := ["-y", outputFile];
    var s5 := ["-movflags", "+faststart"] + s6;
    var s4 := ["-c:a", "copy"] + s5;
    var s3 := ["-crf", crf] + s4;
    var s2 := ["-preset", Config(preset).ffmpegPreset] + s3;
    var s1 := ["-c:v", "libx264"] + s2;
    assert DirectArgs(inputFile, outputFile, preset) == ["-i", inputFile] + s1;
    FlagValuePair("-i", inputFile, s1, f);
    FlagValuePair("-c:v", "libx264", s2, f);
    FlagValuePair("-preset", Config(preset).ffmpegPreset, s3, f);
    FlagValuePair("-crf", crf, s4, f);
    FlagValuePair("-c:a", "copy", s5, f);
    FlagValuePair("-movflags", "+faststart", s6, f);
    FlagValuePair("-y", outputFile, [], f);
    assert s6 == ["-y", outputFile] + [];
  }

  /** The direct encode reads back as CRF-only: the baseline CRF and no rate or scale flags. */
  lemma DirectArgsReadBack(inputFile: string, outputFile: string, preset: Preset)
    ensures var args := DirectArgs(inputFile, outputFile, preset);
      && FlagValue(args, "-crf") == Some(NatToString(Config(preset).crfBase))
      && ParseNat(NatToString(Config(preset).crfBase)) == Some(Config(preset).crfBase)
      && FlagValue(args, "-b:v") == None
      && FlagValue(args, "-maxrate") == None
      && FlagValue(args, "-bufsize") == None
      && FlagValue(args, "-vf") == None
      && FlagValue(args, "-c:a") == Some("copy")
  {
    DirectArgsLookup(inputFile, outputFile, preset, "-crf");
    DirectArgsLookup(inputFile, outputFile, preset, "-b:v");
    DirectArgsLookup(inputFile, outputFile, preset, "-maxrate");
    DirectArgsLookup(inputFile, outputFile, preset, "-bufsize");
    DirectArgsLookup(inputFile, outputFile, preset, "-vf");
    DirectArgsLookup(inputFile, outputFile, preset, "-c:a");
    NatToStringRoundTrip(Config(preset).crfBase);
  }
}
