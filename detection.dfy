/**
 * The silence-detection tick's decision, judged on one tick alone: the
 * component keeps no run state between ticks.
 */
module SilenceDetection {
  import opened Wrappers
  import opened SegmentLedger

  /** The player's state code for "playing". */
  const Playing: int := 1

  /** The player's state code for "paused". */
  const Paused: int := 2

  /**
   * All the conditions under which one tick seeks and records a segment:
   * the player is playing, the volume is under the threshold (a percentage),
   * skipping is on, the fixed-length segment ends before the media does, and
   * the current time is not inside a recorded segment.
   */
  predicate Fires(playerState: int, time: real, volume: real, thresholdPercent: real,
                  minSilence: real, skipSilence: bool, duration: real, segs: seq<Segment>)
  {
    && playerState == Playing
    && volume < thresholdPercent / 100.0
    && skipSilence
    && time + minSilence < duration
    && !IsWithinExistingSilenceSegment(segs, time)
  }

  /**
   * What one tick does: the segment it records (which is also where it
   * seeks to, its end), or nothing.
   */
  function TickDecision(playerState: int, time: real, volume: real, thresholdPercent: real,
                        minSilence: real, skipSilence: bool, duration: real,
                        segs: seq<Segment>): Option<Segment>
  {
    if Fires(playerState, time, volume, thresholdPercent, minSilence, skipSilence, duration, segs)
    then Some(Segment(time, time + minSilence))
    else None
  }

  /**
   * A recorded segment starts at the tick's time, lasts `minSilence`, ends
   * before the media does, and the tick fired exactly when every condition held.
   */
  lemma DecisionShape(playerState: int, time: real, volume: real, thresholdPercent: real,
                      minSilence: real, skipSilence: bool, duration: real, segs: seq<Segment>)
    ensures var d := TickDecision(playerState, time, volume, thresholdPercent, minSilence,
                                  skipSilence, duration, segs);
            && (d.Some? <==> (playerState == Playing && volume < thresholdPercent / 100.0
                              && skipSilence && time + minSilence < duration
                              && forall i :: 0 <= i < |segs| ==> !InSegment(time, segs[i])))
            && (d.Some? ==> d.value.start == time && d.value.end == time + minSilence
                            && d.value.end < duration && Length(d.value) == minSilence)
  {
  }

  /** A tick at a time that some recorded segment contains never fires. */
  lemma {:induction false} NoSkipInsideRecordedSegment(playerState: int, time: real, volume: real,
                                                       thresholdPercent: real, minSilence: real,
                                                       skipSilence: bool, duration: real,
                                                       segs: seq<Segment>, i: nat)
    requires i < |segs| && InSegment(time, segs[i])
    ensures TickDecision(playerState, time, volume, thresholdPercent, minSilence,
                         skipSilence, duration, segs) == None
  {
    assert IsWithinExistingSilenceSegment(segs, time);
  }

  /**
   * After a tick at `time` fired (with a non-negative minimum duration), a
   * repeated tick at the same time appends nothing, whatever the player
   * state, the volume, the settings (threshold, skipping, minimum duration)
   * and the media duration are by then.
   */
  lemma {:induction false} RepeatedTickAppendsNothing(playerState: int, time: real, volume: real,
                                                      thresholdPercent: real, minSilence: real,
                                                      skipSilence: bool, duration: real,
                                                      segs: seq<Segment>,
                                                      playerState': int, volume': real,
                                                      thresholdPercent': real, minSilence': real,
                                                      skipSilence': bool, duration': real)
    requires minSilence >= 0.0
    requires TickDecision(playerState, time, volume, thresholdPercent, minSilence,
                          skipSilence, duration, segs).Some?
    ensures var s := TickDecision(playerState, time, volume, thresholdPercent, minSilence,
                                  skipSilence, duration, segs).value;
            TickDecision(playerState', time, volume', thresholdPercent', minSilence',
                         skipSilence', duration', segs + [s]) == None
  {
    var s := Segment(time, time + minSilence);
    CoverageAfterAppend(segs, s, time);
  }

  /** Each segment a tick records raises the reported total by exactly `minSilence`. */
  lemma {:induction false} TotalRisesByMinSilence(playerState: int, time: real, volume: real,
                                                  thresholdPercent: real, minSilence: real,
                                                  skipSilence: bool, duration: real,
                                                  segs: seq<Segment>)
    requires TickDecision(playerState, time, volume, thresholdPercent, minSilence,
                          skipSilence, duration, segs).Some?
    ensures var s := TickDecision(playerState, time, volume, thresholdPercent, minSilence,
                                  skipSilence, duration, segs).value;
            TotalSilenceTime(segs + [s]) == TotalSilenceTime(segs) + minSilence
  {
    TotalAfterAppend(segs, Segment(time, time + minSilence));
  }

  /**
   * With the duration at zero (as right after a video is loaded), a tick at a
   * non-negative time with a non-negative minimum duration never fires.
   */
  lemma NoSkipWithZeroDuration(playerState: int, time: real, volume: real, thresholdPercent: real,
                               minSilence: real, skipSilence: bool, segs: seq<Segment>)
    requires time >= 0.0 && minSilence >= 0.0
    ensures TickDecision(playerState, time, volume, thresholdPercent, minSilence,
                         skipSilence, 0.0, segs) == None
  {
  }
}
