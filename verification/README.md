# smolvid compressor, modelled in Dafny

smolvid shrinks a video in the browser until it fits a size the user picks. The
core is `lib/compressor.js`. It takes a target size in megabytes, the clip's
duration, an encoding preset (`fast`, `balanced`, `smallest`) and the original
file size, and drives an H.264 encoder (ffmpeg compiled to WebAssembly).

- **Direct path.** A source that already fits gets a single encode at constant
  quality (CRF).
- **Refinement loop.** Any other source goes through up to the preset's pass
  count (2, 3 or 4) of constrained-bitrate encodes.
  - The first pass uses a bitrate computed from the byte budget left after a
    128 kbps audio estimate.
  - Each pass that is still over budget cuts the bitrate by 20%.
  - When a cut would fall below 500 kbps, the next pass instead drops one rung
    of the 1080/720/480/360 resolution ladder and restarts from the initial
    bitrate.
  - The bitrate is never below 100 kbps.
- **Ending a run.** An encoder failure whose lower-cased text contains
  `audio` together with `incompatible` or `codec` (so "unknown audio codec"
  qualifies too) ends the run with a warning; any other failure is rethrown. A run
  whose passes all overshoot ends with a warning. That warning is the audio
  one when the audio estimate alone takes 95% of the target, and the
  "size not reached" one otherwise.

The model is split into modules:

- `Wrappers` has `Option`.
- `Text` holds decimal rendering and parsing, substring search, ASCII lower-casing and `lastIndexOf`.
- `Tables` holds the preset table, the resolution ladder and `getScaleHeight`.
- `Bitrate` holds the audio estimate, the target bitrate and `Math.round`.
- `EncodeArgs` holds the encoder argument lists of a pass and of the direct path, and a flag reader that reads them back.
- `Naming` holds `getOutputFileName`.
- `Progress` holds the percentages reported to the UI.
- `Controller` models `compressToTargetSize` as a recursion over the attempts.
- `ControllerLoop` is the same controller in the source's imperative shape (a counted loop over mutable bitrate and scale step). It is proved to compute exactly the run `Controller.Compress` describes.
- `Examples` holds concrete runs.

The encoder is an oracle. A run takes a sequence `outcomes`, where `outcomes[k]`
is what the k-th invocation does: `Ok(outputSize)` (the byte length read back
from the virtual file system) or `Err(message)` (the error text it throws). A
run (`Controller.Run`) records two things:

- its result: finished with an optional warning, or an error rethrown;
- the parameters of every refinement pass (none on the direct path).

Everything else the controller emits is determined by these, apart from the
in-pass progress, which follows the encoder's own completion reports
(`Progress.InPassPercent`).
`Controller.InvocationCount` gives how many times the encoder ran.
`Controller.Calls` gives the argument list of each invocation, and
`Controller.Announced` gives the progress event that announced each pass.

Numbers are exact reals. `Math.round(x)` is `floor(x + 0.5)`.

Two behaviours of the controller are easy to miss:

- A fitting output reports success with no warning even when the audio flag
  was set before the encode. This holds on the direct path and on every
  refinement pass.
- The scale height is always computed from an assumed 1080-line source. So a
  source shorter than 720 lines can be upscaled on its first rung drop
  (`Tables.ScaleHeightBelowLadder`, `Tables.ScaleHeightFrom1080`).

## Model

| member | source | states |
|---|---|---|
| Tables.Config | lib/compressor.js:7-23 | fast, balanced and smallest allow 2, 3 and 4 passes respectively, so every preset allows at least two |
| Tables.PresetByName | lib/compressor.js:150 | a preset name resolves exactly when it is `fast`, `balanced` or `smallest`, to the preset of that name |
| Tables.PresetNameRoundTrip | lib/compressor.js:7-23 | resolving a preset's own name gives that preset back |
| Tables.SlowerPresetsSearchLonger | lib/compressor.js:7-23 | slower presets allow strictly more passes and use a strictly lower base CRF |
| Tables.LadderIsStrictlyDecreasing | lib/compressor.js:26-31 | the resolution ladder lists strictly decreasing heights |
| Tables.FirstRungAtOrBelow | lib/compressor.js:110 | `findIndex`: -1 exactly when every rung is taller than the height, else the first rung at or below it |
| Tables.StartIndex | lib/compressor.js:110-111 | the starting rung is the top one exactly when the height is at least 1080 or below 360; otherwise it is the rung at or below the height whose predecessor is taller than it |
| Tables.GetScaleHeight | lib/compressor.js:106-116 | no scaling exactly at step 0; otherwise a ladder height of at least 360, `step` rungs below the source's rung and capped at the last rung (first rung when the source is shorter than all rungs) |
| Tables.ScaleHeightMonotone | lib/compressor.js:114 | more steps never give a taller target |
| Tables.ScaleHeightNeverAboveSource | lib/compressor.js:110-115 | for a source at least 360 lines tall, the target is never taller than the source |
| Tables.ScaleHeightBelowLadder | lib/compressor.js:111 | for a source under 360 lines, counting starts at the 1080 rung, so the target can be taller than the source |
| Tables.ScaleHeightFrom1080 | lib/compressor.js:199 | from 1080 lines, steps 1, 2 and 3 or more give 720, 480 and 360 |
| Bitrate.EstimateAudioSize | lib/compressor.js:62-66 | the audio estimate is the byte count of 128 kbps over the duration: 16000 bytes per second |
| Bitrate.CalculateTargetBitrate | lib/compressor.js:40-54 | the bitrate stays in [100, 50000] kbps, and it is 100 when audio alone takes the whole target |
| Bitrate.TargetBitrateFillsBudget | lib/compressor.js:40-54 | strictly inside the range the video bitrate over the duration plus the audio estimate fill the target exactly; at the ceiling they stay within it; at the floor they reach at least the target |
| Bitrate.TargetBitrateMonotone | lib/compressor.js:40-54 | a larger target or a smaller audio estimate never lowers the bitrate |
| Bitrate.Round | lib/compressor.js:83 | `Math.round` gives an integer within half a unit of its argument, halves rounding up |
| Bitrate.RoundUnique | lib/compressor.js:83 | the integer in (x - 0.5, x + 0.5] is the rounding of x |
| Bitrate.RoundMonotone | lib/compressor.js:83-85 | rounding preserves order |
| Bitrate.ExampleTwoMinutesAt25MB | lib/compressor.js:40-66 | a 2-minute clip with a 25 MB target leaves 24294400 video bytes, about 1620 kbps |
| Bitrate.ExampleTenSecondsAt1MB | lib/compressor.js:40-66 | a 10-second clip with a 1 MB target gets 710.8608 kbps |
| Text.NatToString | lib/compressor.js:83 | a decimal rendering is non-empty, all digits, with no leading zero |
| Text.NatToStringRoundTrip | lib/compressor.js:83 | parsing a rendered natural number gives it back |
| Text.IntToString | lib/compressor.js:92 | a rendering starts with `-` exactly for negative numbers |
| Text.IntToStringRoundTrip | lib/compressor.js:92 | parsing a rendered integer gives it back |
| Text.IntToStringInjective | lib/compressor.js:92 | different integers render differently |
| Text.ParseNat | lib/compressor.js:83 | a string parses as a natural number exactly when it is a non-empty run of digits |
| Text.ParseInt | lib/compressor.js:83 | a string parses as an integer exactly when it is a non-empty run of digits, optionally after a leading `-`; a negative value comes only from a leading `-` |
| Text.Contains | lib/compressor.js:220 | `includes` holds exactly when the pattern occurs at some position |
| Text.LowerChar | lib/compressor.js:217 | an upper-case ASCII letter becomes the same letter in lower case, and every other character is unchanged |
| Text.ToLower | lib/compressor.js:217 | lower-casing keeps the length, lower-cases each character in place, and leaves no upper-case ASCII letter |
| Text.ToLowerIdempotent | lib/compressor.js:217 | lower-casing twice is lower-casing once |
| Text.LastIndexOf | lib/compressor.js:124 | -1 exactly when the character is absent; otherwise an occurrence with none after it |
| EncodeArgs.KbpsRoundTrip | lib/compressor.js:83-85 | a rate written as `<Math.round(x)>k` reads back as the rounded rate |
| EncodeArgs.BuildArgsLookup | lib/compressor.js:75-98 | what each flag of a pass's argument list carries: input, libx264, the preset's speed, three rates, audio copy, faststart, the scale filter only when a height is given, the output |
| EncodeArgs.BuildArgs | lib/compressor.js:75-98 | a pass's list has 20 entries with a scale height and 18 without, starts `-i <input>` and ends `-y <output>` |
| EncodeArgs.BuildArgsRates | lib/compressor.js:83-85 | `-b:v`, `-maxrate` and `-bufsize` read back as the rounded bitrate, 1.5 times it and twice it |
| EncodeArgs.BuildArgsModes | lib/compressor.js:86-93 | audio is copied, no CRF is set, and `-vf` is present exactly when the scale height is set and non-zero |
| EncodeArgs.RateOfKbps | lib/compressor.js:83-85 | a flag carrying `<Math.round(x)>k` reads back as the rounded rate |
| EncodeArgs.ScaleFilterInjective | lib/compressor.js:92 | different heights give different scale filters |
| EncodeArgs.DirectArgs | lib/compressor.js:165-173 | the direct list has 14 entries, starts `-i <input>`, copies the audio and ends `-y <output>` |
| EncodeArgs.DirectArgsLookup | lib/compressor.js:165-173 | what each flag of the direct list carries, the CRF being the preset's base |
| EncodeArgs.DirectArgsReadBack | lib/compressor.js:165-173 | the direct list sets a CRF that reads back as the preset's base and has no bitrate, rate-cap, buffer or scale flag |
| Naming.GetOutputFileName | lib/compressor.js:123-127 | the name ends with `_compressed.mp4` after a prefix of the original; the prefix is the whole original exactly when no dot follows the first character; otherwise it is non-empty, stops at a dot and no dot follows that one |
| Naming.OutputNameLength | lib/compressor.js:123-127 | the name is at most the original plus the suffix long, and equals exactly that when there is no extension dot |
| Progress.PassStartPercent | lib/compressor.js:196-197 | pass 1 starts at 15%, every pass starts inside [15, 85), and one past the last would start at 85% |
| Progress.PassStartIncreasing | lib/compressor.js:196-197 | later passes start strictly further along |
| Progress.AnnouncementAt | lib/compressor.js:195-197 | the i-th start-of-pass event is the one of pass i + 1, with its label and start percentage |
| Progress.AnnouncementsIncreasing | lib/compressor.js:195-197 | the announcements of the passes that ran stay in [15, 85) and strictly increase |
| Progress.InPassPercent | lib/compressor.js:208-211 | while the encoder reports a fraction in [0, 1], the bar stays between this pass's start and the next pass's start |
| Progress.InPassMonotone | lib/compressor.js:208-211 | within a pass, a larger encoder fraction never moves the bar back |
| Controller.Classify | lib/compressor.js:214-227 | a failure becomes the audio-incompatibility warning exactly when its lower-cased text mentions audio and either incompatible or codec; otherwise the same error is rethrown |
| Controller.ExhaustedWarning | lib/compressor.js:157-263 | after all passes overshoot, the warning is the audio-budget one exactly when the audio flag is set, and the size-not-reached one with the last output size otherwise; either way it carries the requested target size |
| Controller.Adjust | lib/compressor.js:242-257 | the next pass drops a rung exactly when the 20% cut falls under 500 kbps with a rung left; then it restarts from the initial bitrate, otherwise it takes the cut bitrate; the bitrate never goes under 100, the step never passes 3, and without a rung drop the bitrate never rises |
| Controller.PassAt | lib/compressor.js:191-192 | pass k + 1 has attempt number k + 1 and at most min(k, 3) rungs dropped; the first pass runs unscaled at the initial bitrate and every later one at 100 kbps or more |
| Controller.PassInvariant | lib/compressor.js:191-257 | pass k + 1 has attempt number k + 1, a bitrate in [100, 50000], and at most min(k, 3) rungs dropped |
| Controller.ScaleStepMonotone | lib/compressor.js:247-248 | between two passes the rung count never falls and rises by at most the number of passes between them |
| Controller.Loop | lib/compressor.js:195-258 | the loop from pass k + 1 makes at least one and at most the remaining number of invocations |
| Controller.LoopPassAt | lib/compressor.js:195-257 | the loop's i-th recorded pass has the parameters of attempt k + i + 1 |
| Controller.LoopVerdict | lib/compressor.js:214-265 | the loop continues only past successful over-budget passes; a failure is classified; a fitting output ends in success with no warning; an over-budget last invocation can only be the preset's final pass and yields the exhaustion warning |
| Controller.Compress | lib/compressor.js:137-266 | between one and the preset's pass count of invocations; the run has no refinement passes exactly when the source already fits |
| Controller.Calls | lib/compressor.js:163-205 | one argument list per invocation: the direct list on the direct path, one per pass otherwise |
| Controller.Announced | lib/compressor.js:195-197 | one start-of-pass event per refinement pass |
| Controller.CompressVerdict | lib/compressor.js:163-239 | no failure is retried: every invocation before the last succeeded; a failure on the last invocation is classified; the result is success with no warning exactly when the last invocation succeeded and either the source fit already or its output fits |
| Controller.LoopOutcome | lib/compressor.js:214-239 | the loop's passes before the last all succeeded, a failing last pass is classified, and the loop succeeds with no warning exactly when its last output fits |
| Controller.LoopSchedule | lib/compressor.js:191-257 | the i-th pass the loop records has the parameters of the i-th step of the schedule from the initial bitrate |
| Controller.ArgListAt | lib/compressor.js:199-205 | the i-th recorded invocation of the loop is the argument list of the i-th pass |
| Controller.CompressTrace | lib/compressor.js:195-215 | on the refinement path pass i + 1 uses the i-th scheduled parameters, is invoked with that pass's argument list, and is announced at the start of its progress slice |
| Controller.ScheduleFacts | lib/compressor.js:191-257 | a schedule from an initial bitrate in range starts unscaled at that bitrate, adjusts pass by pass, keeps bitrates in [100, 50000] and rung counts in 0..3, never falling and rising at most one per pass |
| Controller.CompressAdjustments | lib/compressor.js:191-257 | the first pass runs unscaled at the initial bitrate and each later pass is the adjustment of the previous one; bitrates stay in [100, 50000] and the rung count in 0..3, never falling and rising by at most one per pass |
| Controller.LoopExhaustion | lib/compressor.js:237-265 | the loop goes on only past over-budget outputs; it ends with a non-audio-format warning exactly when every pass overshot, and then ran every pass and warns about the last output |
| Controller.CompressExhaustion | lib/compressor.js:237-265 | a non-audio warning is reported exactly when the source did not fit and every pass overshot; then the preset's full pass count ran and the warning is the exhaustion warning for the last output |
| Controller.CompressProgressIncreasing | lib/compressor.js:196-197 | a run's pass announcements stay in [15, 85) and strictly increase |
| Controller.PassArgs | lib/compressor.js:199-205 | a pass's argument list starts `-i <input>`, ends `-y <output>`, and has 20 entries when the pass has dropped a rung and 18 otherwise |
| Controller.PassArgsFlags | lib/compressor.js:199-205 | a pass's invocation carries its rounded bitrate, and a scale filter exactly when the pass has dropped a rung |
| Controller.CompressCallFlags | lib/compressor.js:163-205 | the direct invocation sets a CRF and no bitrate; each pass's invocation carries its rounded bitrate and a scale filter exactly when it has dropped a rung |
| Controller.Message | lib/compressor.js:157-262 | every warning has non-empty text; the audio-budget text shows the target size right after `Couldn't hit `, and the size-not-reached text shows the formatted output size right after `Output is ` and the target size right after ` - couldn't reach ` |
| Controller.MessagesDistinguishKinds | lib/compressor.js:157-262 | warnings of different kinds never share a text |
| Controller.MessageLead | lib/compressor.js:157-262 | the audio-budget, audio-format and size-not-reached texts begin with the letters C, T and O respectively |
| ControllerLoop.AdjustForNextPass | lib/compressor.js:242-257 | the statements between two passes compute exactly `Adjust` of the current pass |
| ControllerLoop.RunPass | lib/compressor.js:196-257 | one iteration of the loop body: a failure or a fitting output ends the run with the recursive loop's verdict; an over-budget output before the last pass hands the next pass's `PassAt` parameters to the next iteration; after the last pass the run ends with the exhaustion warning for that output size |
| ControllerLoop.RefinementLoop | lib/compressor.js:191-265 | the counted loop over attempts, with its mutable bitrate, scale step and last output size, ends with the verdict and pass list of the recursive loop |
| ControllerLoop.CompressToTargetSize | lib/compressor.js:137-266 | the function as written, with its audio flag, direct path and loop, produces exactly the run `Controller.Compress` describes |
| Examples.SmallSourceTakesDirectPath | lib/compressor.js:163-189 | a 10 MB source with a 25 MB target makes one invocation, no passes, and succeeds |
| Examples.DirectPathDropsAudioWarning | lib/compressor.js:157-189 | a source that fits reports success with no warning even when the audio flag is set |
| Examples.AudioWarningAtExhaustion | lib/compressor.js:157-265 | when both fast passes overshoot with the audio flag set, the run ends with the audio warning |
| Examples.UnrelatedFailureIsRethrown | lib/compressor.js:214-227 | a failure whose text does not mention audio ends the run after one invocation and is rethrown |
| Examples.SecondPassFits | lib/compressor.js:236-244 | an over-budget first pass and a fitting second one give two invocations and success, the second at 80% of the initial bitrate |
| Examples.TwoDecaysFrom1620 | lib/compressor.js:242-257 | from 1620 kbps the next passes run at 1296 and then 1036.8 kbps, unscaled |
| Examples.CutBelowThresholdDropsARung | lib/compressor.js:242-251 | from 600 kbps the next pass drops to 720 lines and restarts from the initial 600 kbps |

## Left out

- `lib/ffmpeg-loader.js` (loading the WebAssembly encoder) is not part of this model. The encoder is the `outcomes` oracle: an invocation either throws a message or writes a file whose byte length the controller reads back.
- `app.js` is not modelled. Its contract with the controller appears as one precondition, a positive duration (`Controller.ValidRequest`); the page substitutes an estimate when metadata is missing. The one-run-at-a-time guard is not modelled because runs are pure here.
- The diagnostic `fetch` to a local logging endpoint at the start of `compressToTargetSize` is left out. It does not affect the result.
- `ffmpeg.on`/`ffmpeg.off` listener registration is left out. Only the percentages are modelled (`Progress`). In the source, `off` runs only when a pass succeeds, so a pass that throws leaves its listener registered; that has no effect on the result.
- `formatBytes` and JavaScript's number-to-string conversion in the warning texts are parameters of `Controller.Message`, because the texts' numeric formatting is not modelled.
- The output file's contents are left out. Every exit of `compressToTargetSize` returns only `{ warning }`, although its JSDoc also promises a `blob`; the caller (`app.js`) reads the output file itself.
- IEEE-754 doubles are modelled as exact reals. Rounding error in `* 0.8`, in the bitrate division and in the progress fractions is not modelled.
- Text.ToLower: lower-cases ASCII letters only. JavaScript's `toLowerCase` also folds non-ASCII letters, which can matter only for error texts that spell the keywords with non-ASCII letters.
- Preset names other than `fast`, `balanced` and `smallest` are not modelled: the controller model takes a `Preset` value, and `Tables.PresetByName` covers only the table's three own keys. In the source, a name that is no key at all (such as `turbo`) makes `PRESETS[preset]` undefined, so reading `.maxPasses` throws. A name inherited from `Object.prototype` (`constructor`, `toString`, `__proto__`, `hasOwnProperty`) behaves differently. It finds an inherited object or function, so `.maxPasses` is `undefined` and nothing throws. On the direct path the encoder then gets an undefined `-preset` and the CRF `"undefined"`. On the loop path the `for` loop runs zero times. Unless the audio flag is set, the run then returns the size warning built from `formatBytes(Infinity)` without ever calling the encoder.
- With one of the three presets, `lastOutputSize = Infinity` never reaches the warning: every preset allows at least two passes, so the exhaustion warning always follows a real output size. The model carries the last size as a natural number.
