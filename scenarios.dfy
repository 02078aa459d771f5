/** Client runs of the component, using only the methods' contracts. */
module Scenarios {
  import opened Wrappers
  import opened SegmentLedger
  import opened App

  /**
   * With skipping on and a silent level, a tick at 2.0s of a 10s video seeks
   * to 2.5s and records [2.0, 2.5]; a second tick at the same reported time
   * finds it covered and does nothing. A tick at 9.6s is suppressed because
   * 9.6 + 0.5 is past the end.
   */
  method RepeatedAndEndOfMediaTicks() returns (first: Option<real>, second: Option<real>, nearEnd: Option<real>,
                                               segments: seq<Segment>)
    ensures first == Some(2.5) && second == None && nearEnd == None
    ensures segments == [Segment(2.0, 2.5)]
  {
    var c := new AppComponent(true);
    c.OnPlayerReady(10.0);
    c.OnPlayerStateChange(1);
    c.skipSilence := true;
    c.volumeLevel := 0.0;
    first := c.DetectionTick(1, 2.0);
    assert IsWithinExistingSilenceSegment(c.silenceSegments, 2.0) by {
      assert InSegment(2.0, c.silenceSegments[0]);
    }
    second := c.DetectionTick(1, 2.0);
    nearEnd := c.DetectionTick(1, 9.6);
    segments := c.silenceSegments;
  }
}
