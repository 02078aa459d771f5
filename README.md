# YoutubeWithoutSilence: the silence-skipping component in Dafny

This project models `AppComponent` of YoutubeWithoutSilence, an Angular page
that plays a YouTube video and jumps over quiet stretches. It covers four
parts of the component:

- **The detection tick.** Every 100 ms, while the player is playing, the
  tick compares the last measured volume with the threshold. It seeks forward
  by the minimum silence duration and records that fixed-length segment in the
  ledger `silenceSegments`.
- **The two interval handles.** Their start and stop guards and the
  player-state dispatch around them.
- **`extractVideoId`.** Its regular expression, stated as a search for the
  rightmost marker.
- **`formatTime`.** The `M:SS` text for a number of seconds.

Modules, one per concern of `src/app/app.component.ts`:

- `SegmentLedger` (segments.dfy): the segment type, closed-interval coverage
  (`isWithinExistingSilenceSegment`) and the reported total
  (`getTotalSilenceTime`). Pure functions and lemmas.
- `SilenceDetection` (detection.dfy): what one detection tick decides, as a
  pure function of the tick's inputs, with lemmas about it.
- `VideoId` (video_id.dfy): the meaning of the `url.match` call and the
  length check. It has two definitions, a search and a declarative statement,
  and lemmas proving they agree.
- `TimeFormat` (time_format.dfy): `formatTime`, with decimal digits and the
  two-digit padding, and its inverse `ParseTime`.
- `VolumeMeter` (volume.dfy): the sum-of-squares loop of `analyzeVolume`
  and the mean square.
- `App` (component.dfy): the class `AppComponent`. Its fields are the ones the
  component updates in place. Its methods are `loadVideo`, `onPlayerReady`,
  `onPlayerStateChange`, `toggleSilenceSkipping`, the timer start and stop
  methods, `ngOnDestroy` and the bodies of the two intervals.
- `VideoIdExamples` (video_id_examples.dfy): `extractVideoId` on three
  concrete URLs.
- `Scenarios` (scenarios.dfy): a client that runs the component through a
  repeated tick and a tick near the end of the media.

Each interval handle is an `Option<nat>`: `None` when unset or cleared, and
`Some(id)` while an interval is live. `setInterval` is modelled only as the
source of a fresh id, through the counter `nextTimerId`. Because each handle
is an id, "starting a running timer leaves it as it is" is a checkable
statement: the same id is kept and no new id is used.

The player is an input:

- `getPlayerState()` and `getCurrentTime()` are parameters of the tick
  methods.
- `getDuration()` is a parameter of `OnPlayerReady`.
- `seekTo(target, true)` is the tick's `seek` result.

`Math.sqrt` is a parameter of the volume tick. The buffer that
`getFloatTimeDomainData` fills is an array parameter. Whether the audio
context could be created in `ngOnInit` is a constructor parameter.

The tick keeps no state between ticks, has no coverage tolerance and does not
clip its target:

- The code keeps no silence-run state. Each tick is judged on its own.
- A segment is `[currentTime, currentTime + minSilenceDuration]`.
- Coverage is the closed interval, with no 0.1 s tolerance.
- A segment whose end is not strictly before the duration is not recorded.
  It is not clipped to the duration.

`loadVideo` sets `duration` to 0. Only `onPlayerReady` sets it again. With a
zero duration, no tick at a non-negative time with a non-negative
`minSilenceDuration` can fire (`NoSkipWithZeroDuration`). `loadVideo` also
stops the volume interval, and only `onPlayerReady` starts it again. Whether
the player widget reports ready again after a new video id is outside this
model.

## Model

| member | source | states |
|---|---|---|
| SegmentLedger.IsWithinExistingSilenceSegment | src/app/app.component.ts:152-156 | true exactly when some recorded segment has start <= t <= end |
| SegmentLedger.CoverageAfterAppend | src/app/app.component.ts:152-156 | after appending a segment, t is covered iff it was covered before or lies in the new segment |
| SegmentLedger.TotalSilenceTime | src/app/app.component.ts:189-192 | the in-order reduce from 0 adding end - start; no contract of its own: TotalAfterAppend, TotalOfConcat, TotalIsSumOfLengths, TotalNonNegative and TotalExamples state what it computes |
| SegmentLedger.TotalAfterAppend | src/app/app.component.ts:189-192 | appending a segment raises the total by exactly end - start of that segment |
| SegmentLedger.TotalOfConcat | src/app/app.component.ts:189-192 | the total of a concatenation of two ledgers is the sum of their totals |
| SegmentLedger.TotalIsSumOfLengths | src/app/app.component.ts:189-192 | the in-order reduce equals the plain sum of end - start over all segments |
| SegmentLedger.TotalNonNegative | src/app/app.component.ts:189-192 | a ledger of segments with start <= end has a non-negative total |
| SegmentLedger.TotalExamples | src/app/app.component.ts:189-192 | the empty ledger totals 0, and segments {0,2} and {5,6} total 3 |
| SilenceDetection.Fires | src/app/app.component.ts:129-142 | the five conditions of one tick (state 1, volume below threshold/100, skipping on, segment end before the duration, time not covered); no contract of its own: DecisionShape states them over the ledger's segments |
| SilenceDetection.TickDecision | src/app/app.component.ts:128-147 | the segment one tick records and seeks to the end of, or none; no contract of its own: DecisionShape, NoSkipInsideRecordedSegment, RepeatedTickAppendsNothing, TotalRisesByMinSilence and NoSkipWithZeroDuration state its behaviour |
| SilenceDetection.DecisionShape | src/app/app.component.ts:128-147 | a tick records a segment iff the state is 1, volume < threshold/100, skipping is on, time + minSilenceDuration < duration and no segment contains the time; that segment starts at the time, ends minSilenceDuration later and before the duration |
| SilenceDetection.NoSkipInsideRecordedSegment | src/app/app.component.ts:140-142 | a tick at a time some recorded segment contains never records or seeks |
| SilenceDetection.RepeatedTickAppendsNothing | src/app/app.component.ts:134-144 | with minSilenceDuration >= 0, after a tick at t fired, another tick at t appends nothing, whatever the player state, volume, threshold, skipping flag, minimum duration and media duration are then |
| SilenceDetection.TotalRisesByMinSilence | src/app/app.component.ts:134-144 | each segment a tick records raises the total silence time by exactly minSilenceDuration |
| SilenceDetection.NoSkipWithZeroDuration | src/app/app.component.ts:140-141 | with duration 0, a tick at a non-negative time with a non-negative minimum duration never fires |
| VideoId.MarkerAt | src/app/app.component.ts:174 | a positive marker length means the marker lies inside the URL; the lengths are those of the six alternatives |
| VideoId.FirstLineTerminator | src/app/app.component.ts:174 | the leading `.*` can reach exactly the positions up to the first line terminator |
| VideoId.LastMarkerBefore | src/app/app.component.ts:174-175 | the result is a marker position with no marker after it below the bound, or there is no marker below the bound |
| VideoId.RunEnd | src/app/app.component.ts:174 | the group `[^#&?]*` is the longest run of characters other than #, & and ? |
| VideoId.SecondGroup | src/app/app.component.ts:174-175 | match[2] of url.match, or no match; no contract of its own: SearchFindsChosenMarker and ExtractVideoIdAccepts state which marker and which run it takes |
| VideoId.ExtractVideoId | src/app/app.component.ts:173-181 | a returned id has 11 characters, none of them #, & or ? |
| VideoId.SearchFindsChosenMarker | src/app/app.component.ts:174-175 | the search finds the rightmost marker the leading `.*` can reach, and finds none exactly when there is none |
| VideoId.ExtractVideoIdAccepts | src/app/app.component.ts:173-181 | the function returns id iff the rightmost reachable marker is followed by a longest non-#&? run of exactly 11 characters equal to id |
| VideoId.NoMarkerThrows | src/app/app.component.ts:175-180 | with no reachable marker the function throws |
| VideoId.WrongRunLengthThrows | src/app/app.component.ts:177-180 | when the run after the rightmost marker is not 11 long the function throws; no earlier marker is tried |
| VideoIdExamples.ShortLinkAccepted | src/app/app.component.ts:173-181 | https://youtu.be/dQw4w9WgXcQ gives the id dQw4w9WgXcQ |
| VideoIdExamples.WatchLinkAccepted | src/app/app.component.ts:173-181 | youtube.com/watch?v=dQw4w9WgXcQ gives the id dQw4w9WgXcQ |
| VideoIdExamples.LaterShortRunThrows | src/app/app.component.ts:173-181 | in youtube.com/watch?v=dQw4w9WgXcQ&v=1 the earlier watch?v= is followed by an 11-character run, yet the later &v= with its 1-character run decides the match and the function throws |
| TimeFormat.NatToString | src/app/app.component.ts:186 | the decimal text of a number is a non-empty digit string with no leading zero except for 0 |
| TimeFormat.NatToStringValue | src/app/app.component.ts:186 | reading back the decimal text of n gives n |
| TimeFormat.PadStart2 | src/app/app.component.ts:186 | padStart(2, '0') gives a string of length max(2, len) ending in the input and starting with '0's |
| TimeFormat.PadStart2Value | src/app/app.component.ts:186 | padding a digit string keeps its value |
| TimeFormat.Clock | src/app/app.component.ts:186 | minutes, a colon, then two digits; the parts read back as the minutes and the seconds |
| TimeFormat.FloorFacts | src/app/app.component.ts:184-185 | Math.floor(s/60) is floor(s) div 60, and Math.floor(s % 60) is floor(s) mod 60, in 0..59 |
| TimeFormat.FormatTime | src/app/app.component.ts:183-187 | for s >= 0 the text is M:SS with M = floor(s) div 60 without leading zeros and SS = floor(s) mod 60 as two digits |
| TimeFormat.FormatTimeRoundTrip | src/app/app.component.ts:183-187 | parsing the formatted text gives back floor(s) |
| TimeFormat.FormatTimeInjective | src/app/app.component.ts:183-187 | two times format alike iff their whole seconds agree |
| VolumeMeter.SumOfSquaresOf | src/app/app.component.ts:117-120 | the sum of squares accumulated in index order; no contract of its own: SumOfSquares, SumOfSquaresNonNegative and ConstantWindowSum state what it computes |
| VolumeMeter.SumOfSquaresNonNegative | src/app/app.component.ts:117-120 | the accumulated sum of squares is never negative |
| VolumeMeter.MeanSquare | src/app/app.component.ts:121 | sum / length, the value under the square root, is never negative |
| VolumeMeter.ConstantWindowSum | src/app/app.component.ts:117-120 | n copies of amplitude a sum to n * a * a |
| VolumeMeter.ConstantWindowMeanSquare | src/app/app.component.ts:116-121 | a constant window of amplitude a has mean square a * a (so, with the true square root, RMS abs(a)) |
| VolumeMeter.SumOfSquares | src/app/app.component.ts:117-120 | the loop's sum equals the sum of squares of the buffer |
| App.AppComponent.constructor | src/app/app.component.ts:15-34 | the fields start at their initialisers, with no player and no intervals |
| App.AppComponent.LoadVideo | src/app/app.component.ts:55-67 | on a valid URL it sets videoId, clears error, zeroes the times, empties the ledger and clears both intervals; on an invalid one it sets the message and videoId = '' and touches nothing else |
| App.AppComponent.OnPlayerReady | src/app/app.component.ts:69-73 | it sets the player and the duration and starts the volume interval unless one is live |
| App.AppComponent.OnPlayerStateChange | src/app/app.component.ts:75-82 | code 1 starts detection, code 2 clears it, and every other code changes no interval |
| App.AppComponent.ToggleSilenceSkipping | src/app/app.component.ts:84-90 | detection is started when skipSilence is on and cleared otherwise |
| App.AppComponent.StartVolumeAnalysis | src/app/app.component.ts:99-108 | a live volume interval is kept as it is; otherwise one new interval with a fresh id |
| App.AppComponent.StartSilenceDetection | src/app/app.component.ts:124-150 | nothing without a player or with a live interval; otherwise one new interval with a fresh id |
| App.AppComponent.PauseAnalysis | src/app/app.component.ts:158-163 | the detection interval is cleared (idempotently) and the volume interval is untouched |
| App.AppComponent.ResetAnalysis | src/app/app.component.ts:165-171 | both intervals are cleared |
| App.AppComponent.OnDestroy | src/app/app.component.ts:194-199 | both intervals are cleared |
| App.AppComponent.DetectionTick | src/app/app.component.ts:128-148 | the ledger grows by exactly the segment TickDecision gives, or not at all; the seek target is that segment's end, before the duration; the total rises by minSilenceDuration exactly when it seeks |
| App.AppComponent.VolumeTick | src/app/app.component.ts:101-106 | while there is a player and it is playing, it copies the player's time and measures the volume; otherwise nothing changes |
| App.AppComponent.AnalyzeVolume | src/app/app.component.ts:110-122 | without an analyser the level is unchanged; otherwise it is sqrt of the mean square of the buffer |
| Scenarios.RepeatedAndEndOfMediaTicks | src/app/app.component.ts:128-148 | on a 10 s video, a silent tick at 2.0 seeks to 2.5, a repeat at 2.0 does nothing, and a tick at 9.6 is suppressed |

## Left out

- Scheduling by `setInterval` and `clearInterval` is not modelled. The
  interval bodies are the methods `DetectionTick` and `VolumeTick`, called by
  a client while the handle is live. No ordering between the two timers is
  modelled, so the detection tick reads whatever `volumeLevel` holds.
- The YouTube player is not modelled. Its state, its time and its duration
  are inputs. `seekTo` is recorded as the tick's `seek` result, without its
  `allowSeekAhead` argument.
- `ngOnInit` injects a script tag and sets up Web Audio. Both are DOM work.
  Only whether an analyser exists is kept, as the constructor's
  `analyserAvailable`.
- `audioContext.close()` in `ngOnDestroy` is a browser call and is not
  modelled.
- `getFloatTimeDomainData` is a browser call. Its buffer is an input of
  length `frequencyBinCount` (1024).
- `Math.sqrt` is a parameter, not a definition.
- The analyser's input is not modelled. The component never assigns
  `mediaStreamSource` and never connects a source node to the analyser, so in
  the program as written the buffer holds silence. `volumeLevel` then stays 0,
  and every playing tick with `silenceThreshold > 0` passes the volume test.
  The model's `samples` buffer is an unconstrained input, so the model does not
  capture this.
- Float32 and double rounding is not modelled. Times, volume, threshold and
  samples are reals.
- `setPlaybackSpeed` is a thin wrapper over `setPlaybackRate` and is not
  modelled.
- The UI-only fields `playbackSpeed`, `isAnalyzing` and
  `showAdvancedControls` are not modelled.
- The template bindings are not modelled. A client writes fields such as
  `videoUrl` and `skipSilence` directly.
- TimeFormat.FormatTime: requires `seconds >= 0`. The component's times are
  never negative. For negative or NaN input, JavaScript's floor and `%` would
  give texts such as `-1:-1`, and these are not modelled.
- TimeFormat.NatToString: writes plain decimal digits. JavaScript switches to
  exponent notation from 10^21, and that is not modelled.
- VideoId.ExtractVideoId: treats each Dafny character as one unit. JavaScript
  counts UTF-16 code units, so a URL with characters outside the Basic
  Multilingual Plane could pass or fail the 11-character check differently.
