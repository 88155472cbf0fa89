/**
 * The MM:SS rendering of a countdown in whole seconds: minutes and seconds
 * each padded to at least two digits, negative input shown as zero.
 */
module TimeFormat {
  import opened Digits

  /** `padStart(2, "0")`: leading zeros up to length 2; a longer string is left whole. */
  function Pad2(s: string): (r: string)
    ensures |r| == if |s| < 2 then 2 else |s|
    ensures r[|r| - |s|..] == s
    ensures forall i :: 0 <= i < |r| - |s| ==> r[i] == '0'
  {
    if |s| >= 2 then s else if |s| == 1 then "0" + s else "00"
  }

  /** Padding a digit string keeps it a digit string with the same value. */
  lemma Pad2Value(s: string)
    requires AllDigits(s)
    ensures AllDigits(Pad2(s)) && Value(Pad2(s)) == Value(s)
  {
    if |s| == 1 {
      LeadingZero(s);
    } else if |s| == 0 {
      LeadingZero(s);
      LeadingZero("0");
    }
  }

  /** `formatTime`: negative input counts as 0. */
  function FormatTime(seconds: int): string {
    var s := if seconds < 0 then 0 else seconds;
    Pad2(NatToString(s / 60)) + ":" + Pad2(NatToString(s % 60))
  }

  /** The minutes field: everything before the final ":SS". */
  function MinutesField(r: string): string
    requires |r| >= 3
  {
    r[..|r| - 3]
  }

  /** The seconds field: the last two characters. */
  function SecondsField(r: string): string
    requires |r| >= 2
  {
    r[|r| - 2..]
  }

  /**
   * Reading the output back: at least two minute digits, a colon, exactly two
   * second digits worth less than 60, and MM * 60 + SS is the (non-negative) input.
   * The output has length 5 exactly when the input is below 100 minutes.
   */
  lemma FormatTimeRoundTrip(seconds: int)
    ensures var r := FormatTime(seconds);
            && |r| >= 5 && r[|r| - 3] == ':'
            && AllDigits(MinutesField(r)) && |MinutesField(r)| >= 2
            && AllDigits(SecondsField(r)) && Value(SecondsField(r)) < 60
            && Value(MinutesField(r)) * 60 + Value(SecondsField(r)) == (if seconds < 0 then 0 else seconds)
    ensures |FormatTime(seconds)| == 5 <==> seconds < 6000
  {
    var s := if seconds < 0 then 0 else seconds;
    var minutes, secs := s / 60, s % 60;
    assert minutes * 60 + secs == s;
    assert minutes < 100 <==> s < 6000;
    var mm := NatToString(minutes);
    var ss := NatToString(secs);
    NatToStringRoundTrip(minutes);
    NatToStringRoundTrip(secs);
    Pad2Value(mm);
    Pad2Value(ss);
    Fields(Pad2(mm), Pad2(ss));
  }

  /** Splitting `a:b` with a two-character `b` gives back `a` and `b`. */
  lemma Fields(a: string, b: string)
    requires |b| == 2
    ensures var r := a + ":" + b;
            |r| == |a| + 3 && r[|r| - 3] == ':' && MinutesField(r) == a && SecondsField(r) == b
  {
    var r := a + ":" + b;
    assert r[..|r| - 3] == a;
    assert r[|r| - 2..] == b;
  }

  /** Two non-negative inputs that render alike are equal. */
  lemma FormatTimeInjective(a: int, b: int)
    requires 0 <= a && 0 <= b && FormatTime(a) == FormatTime(b)
    ensures a == b
  {
    FormatTimeRoundTrip(a);
    FormatTimeRoundTrip(b);
  }

  /** A focus session, a rest session, and the padding of single digits. */
  lemma FormatTimeExamples(negative: int)
    requires negative <= 0
    ensures FormatTime(negative) == "00:00"
    ensures FormatTime(45) == "00:45"
    ensures FormatTime(65) == "01:05"
    ensures FormatTime(125) == "02:05"
    ensures FormatTime(300) == "05:00"
    ensures FormatTime(1500) == "25:00"
  {
    assert NatToString(45) == "45";
    assert NatToString(25) == "25";
  }
}
