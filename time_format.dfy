/**
 * `formatTime(seconds)`: whole minutes, a colon, then the whole seconds
 * left over, padded on the left with '0' to two characters.
 */
module TimeFormat {
  import opened Wrappers

  predicate IsDigit(c: char)
  {
    '0' <= c <= '9'
  }

  predicate AllDigits(s: string)
  {
    forall k :: 0 <= k < |s| ==> IsDigit(s[k])
  }

  function DigitChar(d: nat): (c: char)
    requires d < 10
    ensures IsDigit(c)
  {
    ('0' as int + d) as char
  }

  /** The decimal number a string of digits denotes. */
  function DigitsValue(s: string): nat
    requires AllDigits(s)
  {
    if s == [] then 0
    else DigitsValue(s[..|s| - 1]) * 10 + (s[|s| - 1] as int - '0' as int)
  }

  /** `n.toString()` for a non-negative integer: its decimal digits, no leading zeros. */
  function NatToString(n: nat): (s: string)
    ensures |s| >= 1 && AllDigits(s)
    ensures s[0] == '0' ==> n == 0
  {
    if n < 10 then [DigitChar(n)]
    else NatToString(n / 10) + [DigitChar(n % 10)]
  }

  /** Reading back the digits of `n` gives `n`. */
  lemma {:induction false} NatToStringValue(n: nat)
    ensures DigitsValue(NatToString(n)) == n
    decreases n
  {
    if n >= 10 {
      var s := NatToString(n);
      assert s[..|s| - 1] == NatToString(n / 10);
      NatToStringValue(n / 10);
    }
  }

  /** `s.padStart(2, '0')`. */
  function PadStart2(s: string): (r: string)
    ensures |r| == if |s| >= 2 then |s| else 2
    ensures r[|r| - |s|..] == s
    ensures forall k :: 0 <= k < |r| - |s| ==> r[k] == '0'
  {
    if |s| >= 2 then s else seq(2 - |s|, _ => '0') + s
  }

  /** Padding a string of digits keeps its value. */
  lemma {:induction false} PadStart2Value(s: string)
    requires AllDigits(s)
    ensures AllDigits(PadStart2(s)) && DigitsValue(PadStart2(s)) == DigitsValue(s)
  {
    if |s| == 1 {
      assert PadStart2(s) == ['0'] + s;
      LeadingZeroValue(s);
    } else if |s| == 0 {
      assert PadStart2(s) == ['0'] + ['0'];
      LeadingZeroValue(['0']);
    }
  }

  /** A leading '0' does not change the value of a digit string. */
  lemma {:induction false} LeadingZeroValue(s: string)
    requires AllDigits(s)
    ensures AllDigits(['0'] + s) && DigitsValue(['0'] + s) == DigitsValue(s)
    decreases |s|
  {
    if s != [] {
      var t := ['0'] + s;
      assert t[..|t| - 1] == ['0'] + s[..|s| - 1];
      LeadingZeroValue(s[..|s| - 1]);
    }
  }

  /** The text `M:SS` for `minutes` and a leftover `secs` below 60. */
  function Clock(minutes: nat, secs: nat): (r: string)
    requires secs < 60
    ensures |r| >= 4 && r[|r| - 3] == ':'
    ensures AllDigits(r[..|r| - 3]) && DigitsValue(r[..|r| - 3]) == minutes
    ensures r[0] == '0' ==> |r| == 4
    ensures AllDigits(r[|r| - 2..]) && DigitsValue(r[|r| - 2..]) == secs
  {
    var m := NatToString(minutes);
    var ss := PadStart2(NatToString(secs));
    NatToStringValue(minutes);
    NatToStringValue(secs);
    PadStart2Value(NatToString(secs));
    var r := m + ":" + ss;
    assert r[..|r| - 3] == m && r[|r| - 2..] == ss;
    r
  }

  /**
   * `formatTime(seconds)` for `seconds >= 0`. `Math.floor(seconds / 60)` gives
   * the minutes; for a non-negative dividend JavaScript's `seconds % 60` is
   * `seconds - 60 * Math.floor(seconds / 60)`.
   */
  function FormatTime(seconds: real): (r: string)
    requires seconds >= 0.0
    ensures |r| >= 4 && r[|r| - 3] == ':'
    ensures AllDigits(r[..|r| - 3]) && DigitsValue(r[..|r| - 3]) == seconds.Floor / 60
    ensures r[0] == '0' ==> |r| == 4
    ensures AllDigits(r[|r| - 2..]) && DigitsValue(r[|r| - 2..]) == seconds.Floor % 60
  {
    var minutes := (seconds / 60.0).Floor;
    var remainingSeconds := (seconds - 60.0 * minutes as real).Floor;
    FloorFacts(seconds, minutes, remainingSeconds);
    Clock(minutes, remainingSeconds)
  }

  /** The minutes and leftover seconds of `formatTime` in terms of the whole seconds. */
  lemma FloorFacts(seconds: real, minutes: int, remainingSeconds: int)
    requires seconds >= 0.0
    requires minutes == (seconds / 60.0).Floor
    requires remainingSeconds == (seconds - 60.0 * minutes as real).Floor
    ensures minutes >= 0 && minutes == seconds.Floor / 60
    ensures 0 <= remainingSeconds < 60 && remainingSeconds == seconds.Floor % 60
  {
    var f := seconds.Floor;
    assert 60 * minutes <= f < 60 * minutes + 60;
    assert remainingSeconds == f - 60 * minutes;
  }

  /** Reads `M:SS` back into whole seconds; the inverse of `FormatTime` on whole seconds. */
  function ParseTime(s: string): Option<nat>
  {
    if |s| >= 4 && s[|s| - 3] == ':' && AllDigits(s[..|s| - 3]) && AllDigits(s[|s| - 2..])
       && DigitsValue(s[|s| - 2..]) < 60
    then Some(DigitsValue(s[..|s| - 3]) * 60 + DigitsValue(s[|s| - 2..]))
    else None
  }

  /** Formatting then parsing gives back the whole seconds. */
  lemma FormatTimeRoundTrip(seconds: real)
    requires seconds >= 0.0
    ensures ParseTime(FormatTime(seconds)) == Some(seconds.Floor)
  {
  }

  /** Two times format alike exactly when their whole seconds agree. */
  lemma FormatTimeInjective(a: real, b: real)
    requires a >= 0.0 && b >= 0.0
    ensures FormatTime(a) == FormatTime(b) <==> a.Floor == b.Floor
  {
    if FormatTime(a) == FormatTime(b) {
      FormatTimeRoundTrip(a);
      FormatTimeRoundTrip(b);
      assert Some(a.Floor) == Some(b.Floor);
    }
    if a.Floor == b.Floor {
      SameWholeSecondsSameText(a, b);
    }
  }

  /** `FormatTime` depends only on the whole seconds. */
  lemma SameWholeSecondsSameText(a: real, b: real)
    requires a >= 0.0 && b >= 0.0 && a.Floor == b.Floor
    ensures FormatTime(a) == FormatTime(b)
  {
    var ma, mb := (a / 60.0).Floor, (b / 60.0).Floor;
    var ra, rb := (a - 60.0 * ma as real).Floor, (b - 60.0 * mb as real).Floor;
    FloorFacts(a, ma, ra);
    FloorFacts(b, mb, rb);
    assert FormatTime(a) == Clock(ma, ra);
    assert FormatTime(b) == Clock(mb, rb);
  }
}
