/**
 * The ledger of recorded silence segments (`silenceSegments` of the
 * component): closed-interval coverage and the reported total.
 */
module SegmentLedger {

  /** A recorded silence segment, in media seconds. */
  datatype Segment = Segment(start: real, end: real)

  /** Length of one segment, `segment.end - segment.start`. */
  function Length(s: Segment): real
  {
    s.end - s.start
  }

  /** `t` lies in the segment, both ends included. */
  predicate InSegment(t: real, s: Segment)
  {
    s.start <= t <= s.end
  }

  /** A segment whose end is not before its start. */
  predicate WellFormed(s: Segment)
  {
    s.start <= s.end
  }

  /**
   * `isWithinExistingSilenceSegment(time)`: a left-to-right scan that
   * stops at the first segment containing `t`.
   */
  function IsWithinExistingSilenceSegment(segs: seq<Segment>, t: real): (r: bool)
    ensures r <==> exists i :: 0 <= i < |segs| && InSegment(t, segs[i])
  {
    if segs == [] then false
    else if InSegment(t, segs[0]) then true
    else
      var rest := IsWithinExistingSilenceSegment(segs[1..], t);
      assert rest ==> exists i :: 0 <= i < |segs| && InSegment(t, segs[i]) by {
        if rest {
          var i :| 0 <= i < |segs[1..]| && InSegment(t, segs[1..][i]);
          assert InSegment(t, segs[i + 1]);
        }
      }
      rest
  }

  /**
   * `getTotalSilenceTime()`: the `reduce` over the segments in order,
   * starting from 0 and adding `end - start` of each segment.
   */
  function TotalSilenceTime(segs: seq<Segment>): real
  {
    if segs == [] then 0.0
    else TotalSilenceTime(segs[..|segs| - 1]) + Length(segs[|segs| - 1])
  }

  /** An independent statement of the same sum, folded from the right. */
  function SumOfLengths(segs: seq<Segment>): real
  {
    if segs == [] then 0.0 else Length(segs[0]) + SumOfLengths(segs[1..])
  }

  /** Coverage after an append: covered before, or covered by the new segment. */
  lemma CoverageAfterAppend(segs: seq<Segment>, s: Segment, t: real)
    ensures IsWithinExistingSilenceSegment(segs + [s], t)
            <==> IsWithinExistingSilenceSegment(segs, t) || InSegment(t, s)
  {
    var all := segs + [s];
    if IsWithinExistingSilenceSegment(all, t) {
      var i :| 0 <= i < |all| && InSegment(t, all[i]);
      if i < |segs| {
        assert InSegment(t, segs[i]);
      }
    }
    if IsWithinExistingSilenceSegment(segs, t) {
      var i :| 0 <= i < |segs| && InSegment(t, segs[i]);
      assert InSegment(t, all[i]);
    }
    if InSegment(t, s) {
      assert InSegment(t, all[|segs|]);
    }
  }

  /** Appending one segment raises the total by exactly that segment's length. */
  lemma TotalAfterAppend(segs: seq<Segment>, s: Segment)
    ensures TotalSilenceTime(segs + [s]) == TotalSilenceTime(segs) + Length(s)
  {
    assert (segs + [s])[..|segs|] == segs;
  }

  /** The total of a concatenation is the sum of the totals. */
  lemma {:induction false} TotalOfConcat(a: seq<Segment>, b: seq<Segment>)
    ensures TotalSilenceTime(a + b) == TotalSilenceTime(a) + TotalSilenceTime(b)
    decreases |b|
  {
    if b == [] {
      assert a + b == a;
    } else {
      var b' := b[..|b| - 1];
      var last := b[|b| - 1];
      assert a + b == (a + b') + [last];
      assert b == b' + [last];
      TotalAfterAppend(a + b', last);
      TotalAfterAppend(b', last);
      TotalOfConcat(a, b');
    }
  }

  /** The in-order `reduce` and the right fold agree: the total is the sum of `end - start`. */
  lemma {:induction false} TotalIsSumOfLengths(segs: seq<Segment>)
    ensures TotalSilenceTime(segs) == SumOfLengths(segs)
    decreases |segs|
  {
    if segs != [] {
      assert segs == [segs[0]] + segs[1..];
      TotalOfConcat([segs[0]], segs[1..]);
      assert [segs[0]][..0] == [];
      TotalIsSumOfLengths(segs[1..]);
    }
  }

  /** A ledger of well-formed segments never reports a negative total. */
  lemma {:induction false} TotalNonNegative(segs: seq<Segment>)
    requires forall i :: 0 <= i < |segs| ==> WellFormed(segs[i])
    ensures TotalSilenceTime(segs) >= 0.0
    decreases |segs|
  {
    if segs != [] {
      TotalNonNegative(segs[..|segs| - 1]);
      assert WellFormed(segs[|segs| - 1]);
    }
  }

  /** The empty ledger totals zero and two segments {0,2} and {5,6} total 3 seconds. */
  lemma TotalExamples()
    ensures TotalSilenceTime([]) == 0.0
    ensures TotalSilenceTime([Segment(0.0, 2.0), Segment(5.0, 6.0)]) == 3.0
  {
    TotalAfterAppend([Segment(0.0, 2.0)], Segment(5.0, 6.0));
    TotalAfterAppend([], Segment(0.0, 2.0));
  }
}
