/**
 * `AppComponent`: the fields the component updates in place, its two
 * interval handles, and the methods that start, stop and run the two ticks.
 */
module App {
  import opened Wrappers
  import opened SegmentLedger
  import opened SilenceDetection
  import opened VideoId
  import opened VolumeMeter

  /** The message `loadVideo` shows for a URL it cannot read. */
  const InvalidUrlMessage: string := "Invalid YouTube URL. Please enter a valid URL."

  class AppComponent {
    var videoUrl: string
    var videoId: string
    var error: string
    var skipSilence: bool
    var silenceThreshold: real
    var minSilenceDuration: real
    var silenceSegments: seq<Segment>
    var currentTime: real
    var duration: real
    var volumeLevel: real

    /** Whether `player` has been set by `onPlayerReady`. */
    var hasPlayer: bool
    /** Whether `audioAnalyser` exists, i.e. the audio context could be created. */
    var hasAnalyser: bool
    /** `silenceCheckInterval`: the live interval's id, or None when it is unset or cleared. */
    var silenceCheckInterval: Option<nat>
    /** `volumeAnalysisInterval`: the live interval's id, or None when it is unset or cleared. */
    var volumeAnalysisInterval: Option<nat>
    /** The id the next `setInterval` call returns; every call returns a new one. */
    var nextTimerId: nat

    /**
     * The silence timer runs only once there is a player, and each live
     * timer has its own id, issued before the next one.
     */
    ghost predicate Valid()
      reads this
    {
      && (silenceCheckInterval.Some? ==> hasPlayer && silenceCheckInterval.value < nextTimerId)
      && (volumeAnalysisInterval.Some? ==> volumeAnalysisInterval.value < nextTimerId)
      && (silenceCheckInterval.Some? && volumeAnalysisInterval.Some? ==>
            silenceCheckInterval.value != volumeAnalysisInterval.value)
    }

    /** The field initialisers; `analyserAvailable` says whether the audio context could be created. */
    constructor (analyserAvailable: bool)
      ensures Valid()
      ensures videoUrl == "" && videoId == "" && error == "" && !skipSilence
      ensures silenceThreshold == 50.0 && minSilenceDuration == 0.5
      ensures silenceSegments == [] && currentTime == 0.0 && duration == 0.0 && volumeLevel == 0.0
      ensures !hasPlayer && hasAnalyser == analyserAvailable
      ensures silenceCheckInterval == None && volumeAnalysisInterval == None
    {
      videoUrl, videoId, error := "", "", "";
      skipSilence := false;
      silenceThreshold, minSilenceDuration := 50.0, 0.5;
      silenceSegments := [];
      currentTime, duration, volumeLevel := 0.0, 0.0, 0.0;
      hasPlayer, hasAnalyser := false, analyserAvailable;
      silenceCheckInterval, volumeAnalysisInterval := None, None;
      nextTimerId := 1;
    }

    /** `loadVideo()`: read the id from `videoUrl`, resetting the detection state on success. */
    method LoadVideo()
      requires Valid()
      modifies this`videoId, this`error, this`currentTime, this`duration, this`silenceSegments,
               this`silenceCheckInterval, this`volumeAnalysisInterval
      ensures Valid()
      ensures ExtractVideoId(videoUrl).Ok? ==>
                && videoId == ExtractVideoId(videoUrl).value && error == ""
                && currentTime == 0.0 && duration == 0.0 && silenceSegments == []
                && silenceCheckInterval == None && volumeAnalysisInterval == None
      ensures ExtractVideoId(videoUrl).Err? ==>
                && error == InvalidUrlMessage && videoId == ""
                && currentTime == old(currentTime) && duration == old(duration)
                && silenceSegments == old(silenceSegments)
                && silenceCheckInterval == old(silenceCheckInterval)
                && volumeAnalysisInterval == old(volumeAnalysisInterval)
    {
      var extracted := ExtractVideoId(videoUrl);
      match extracted
      case Ok(id) =>
        videoId := id;
        error := "";
        currentTime := 0.0;
        duration := 0.0;
        silenceSegments := [];
        ResetAnalysis();
      case Err(_) =>
        error := InvalidUrlMessage;
        videoId := "";
    }

    /** `onPlayerReady(event)`: keep the player, read its duration, start volume sampling. */
    method OnPlayerReady(playerDuration: real)
      requires Valid()
      modifies this`hasPlayer, this`duration, this`volumeAnalysisInterval, this`nextTimerId
      ensures Valid()
      ensures hasPlayer && duration == playerDuration
      ensures old(volumeAnalysisInterval).Some? ==>
                volumeAnalysisInterval == old(volumeAnalysisInterval) && nextTimerId == old(nextTimerId)
      ensures old(volumeAnalysisInterval).None? ==>
                volumeAnalysisInterval == Some(old(nextTimerId)) && nextTimerId == old(nextTimerId) + 1
    {
      hasPlayer := true;
      duration := playerDuration;
      StartVolumeAnalysis();
    }

    /** `onPlayerStateChange(event)`: playing starts detection, paused stops it, other codes do nothing. */
    method OnPlayerStateChange(code: int)
      requires Valid()
      modifies this`silenceCheckInterval, this`nextTimerId
      ensures Valid()
      ensures code == Playing ==> StartedSilenceDetection(old(silenceCheckInterval), old(nextTimerId))
      ensures code == Paused ==> silenceCheckInterval == None && nextTimerId == old(nextTimerId)
      ensures code != Playing && code != Paused ==>
                silenceCheckInterval == old(silenceCheckInterval) && nextTimerId == old(nextTimerId)
    {
      if code == Playing {
        StartSilenceDetection();
      } else if code == Paused {
        PauseAnalysis();
      }
    }

    /** `toggleSilenceSkipping()`: start detection when skipping is on, stop it otherwise. */
    method ToggleSilenceSkipping()
      requires Valid()
      modifies this`silenceCheckInterval, this`nextTimerId
      ensures Valid()
      ensures skipSilence ==> StartedSilenceDetection(old(silenceCheckInterval), old(nextTimerId))
      ensures !skipSilence ==> silenceCheckInterval == None && nextTimerId == old(nextTimerId)
    {
      if skipSilence {
        StartSilenceDetection();
      } else {
        PauseAnalysis();
      }
    }

    /** `startVolumeAnalysis()`: create the volume interval unless one is live. */
    method StartVolumeAnalysis()
      requires Valid()
      modifies this`volumeAnalysisInterval, this`nextTimerId
      ensures Valid()
      ensures old(volumeAnalysisInterval).Some? ==>
                volumeAnalysisInterval == old(volumeAnalysisInterval) && nextTimerId == old(nextTimerId)
      ensures old(volumeAnalysisInterval).None? ==>
                volumeAnalysisInterval == Some(old(nextTimerId)) && nextTimerId == old(nextTimerId) + 1
    {
      if volumeAnalysisInterval.None? {
        volumeAnalysisInterval := Some(nextTimerId);
        nextTimerId := nextTimerId + 1;
      }
    }

    /**
     * What `startSilenceDetection()` leaves behind, given the handle and
     * timer id before it: nothing changes without a player or with a live
     * interval; otherwise a new interval with the next id.
     */
    ghost predicate StartedSilenceDetection(before: Option<nat>, idBefore: nat)
      reads this
    {
      if !hasPlayer || before.Some? then silenceCheckInterval == before && nextTimerId == idBefore
      else silenceCheckInterval == Some(idBefore) && nextTimerId == idBefore + 1
    }

    /** `startSilenceDetection()`: with a player, create the detection interval unless one is live. */
    method StartSilenceDetection()
      requires Valid()
      modifies this`silenceCheckInterval, this`nextTimerId
      ensures Valid()
      ensures StartedSilenceDetection(old(silenceCheckInterval), old(nextTimerId))
    {
      if !hasPlayer {
        return;
      }
      if silenceCheckInterval.None? {
        silenceCheckInterval := Some(nextTimerId);
        nextTimerId := nextTimerId + 1;
      }
    }

    /** `pauseAnalysis()`: clear the detection interval, if any; the volume interval is untouched. */
    method PauseAnalysis()
      requires Valid()
      modifies this`silenceCheckInterval
      ensures Valid()
      ensures silenceCheckInterval == None
    {
      if silenceCheckInterval.Some? {
        silenceCheckInterval := None;
      }
    }

    /** `resetAnalysis()`: clear both intervals. */
    method ResetAnalysis()
      requires Valid()
      modifies this`silenceCheckInterval, this`volumeAnalysisInterval
      ensures Valid()
      ensures silenceCheckInterval == None && volumeAnalysisInterval == None
    {
      PauseAnalysis();
      if volumeAnalysisInterval.Some? {
        volumeAnalysisInterval := None;
      }
    }

    /** `ngOnDestroy()`, without closing the audio context: clear both intervals. */
    method OnDestroy()
      requires Valid()
      modifies this`silenceCheckInterval, this`volumeAnalysisInterval
      ensures Valid()
      ensures silenceCheckInterval == None && volumeAnalysisInterval == None
    {
      ResetAnalysis();
    }

    /**
     * One run of the detection interval's body, given what the player
     * reports (`getPlayerState()`, `getCurrentTime()`). Returns the target
     * passed to `seekTo`, if it is called. The tick either records the one
     * segment `TickDecision` gives and seeks to its end, or changes nothing.
     */
    method DetectionTick(playerState: int, playerTime: real) returns (seek: Option<real>)
      requires Valid() && silenceCheckInterval.Some?
      modifies this`silenceSegments
      ensures Valid()
      ensures var d := TickDecision(playerState, playerTime, volumeLevel, silenceThreshold,
                                    minSilenceDuration, skipSilence, duration, old(silenceSegments));
              && silenceSegments == old(silenceSegments) + (if d.Some? then [d.value] else [])
              && seek == (if d.Some? then Some(d.value.end) else None)
      ensures seek.Some? ==> seek.value < duration
      ensures TotalSilenceTime(silenceSegments) ==
              TotalSilenceTime(old(silenceSegments)) + (if seek.Some? then minSilenceDuration else 0.0)
    {
      seek := None;
      if playerState == Playing {
        var time := playerTime;
        var volume := volumeLevel;
        if volume < silenceThreshold / 100.0 {
          var segment := Segment(time, time + minSilenceDuration);
          if skipSilence && segment.end < duration
             && !IsWithinExistingSilenceSegment(silenceSegments, time) {
            seek := Some(segment.end);
            TotalAfterAppend(silenceSegments, segment);
            silenceSegments := silenceSegments + [segment];
          }
        }
      }
    }

    /**
     * One run of the volume interval's body, given what the player reports,
     * the buffer the analyser fills and `Math.sqrt`: while playing, copy the
     * player's time and measure the volume.
     */
    method VolumeTick(playerState: int, playerTime: real, samples: array<real>, sqrt: real -> real)
      requires Valid() && volumeAnalysisInterval.Some?
      requires samples.Length == FrequencyBinCount
      modifies this`currentTime, this`volumeLevel
      ensures Valid()
      ensures hasPlayer && playerState == Playing ==>
                currentTime == playerTime
                && volumeLevel == (if hasAnalyser then sqrt(MeanSquare(samples[..])) else old(volumeLevel))
      ensures !(hasPlayer && playerState == Playing) ==>
                currentTime == old(currentTime) && volumeLevel == old(volumeLevel)
    {
      if hasPlayer && playerState == Playing {
        currentTime := playerTime;
        AnalyzeVolume(samples, sqrt);
      }
    }

    /** `analyzeVolume()`: without an analyser nothing changes; otherwise the RMS of the buffer. */
    method AnalyzeVolume(samples: array<real>, sqrt: real -> real)
      requires Valid()
      requires samples.Length == FrequencyBinCount
      modifies this`volumeLevel
      ensures Valid()
      ensures hasAnalyser ==> volumeLevel == sqrt(MeanSquare(samples[..]))
      ensures !hasAnalyser ==> volumeLevel == old(volumeLevel)
    {
      if !hasAnalyser {
        return;
      }
      var sum := SumOfSquares(samples);
      volumeLevel := sqrt(sum / samples.Length as real);
    }
  }
}
