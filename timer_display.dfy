/**
 * The countdown display: the MM:SS text, distorted in proportion to the
 * corruption score above 50, and a clean copy for screen readers.
 */
module TimerDisplay {
  import opened Digits
  import opened TimeFormat
  import opened Zalgo

  /** Distortion strength: 0 when off, otherwise rising from 0 above a score of 50 to 1 at 100. */
  function ZalgoIntensity(shouldApplyZalgo: bool, corruptionLevel: int): (r: real)
    ensures r <= 1.0
    ensures !shouldApplyZalgo ==> r == 0.0
    ensures shouldApplyZalgo && 50 < corruptionLevel <= 100 ==> 0.0 < r <= 1.0
    ensures shouldApplyZalgo && corruptionLevel >= 100 ==> r == 1.0
  {
    if shouldApplyZalgo then
      var ramp := (corruptionLevel - 50) as real / 50.0;
      if ramp < 1.0 then ramp else 1.0
    else 0.0
  }

  /** What the component renders: the visible text, the screen-reader text, and the draw cursor afterwards. */
  datatype View = View(visible: string, screenReader: string, cursor: nat)

  function Display(timeRemaining: int, shouldApplyZalgo: bool, corruptionLevel: int, rand: nat -> Unit, cursor: nat): View {
    var formatted := FormatTime(timeRemaining);
    if shouldApplyZalgo then
      var drawn := ZalgoText(formatted, ZalgoIntensity(shouldApplyZalgo, corruptionLevel), rand, cursor);
      View(drawn.text, formatted, drawn.cursor)
    else View(formatted, formatted, cursor)
  }

  /** With distortion off, the visible text is the clean MM:SS and nothing is drawn. */
  lemma CleanWhenOff(timeRemaining: int, corruptionLevel: int, rand: nat -> Unit, cursor: nat)
    ensures Display(timeRemaining, false, corruptionLevel, rand, cursor) ==
            View(FormatTime(timeRemaining), FormatTime(timeRemaining), cursor)
  {
  }

  /** Scores up to 59 give an intensity below 0.2, which adds no mark even with distortion on. */
  lemma CleanUpTo59(timeRemaining: int, shouldApplyZalgo: bool, corruptionLevel: int, rand: nat -> Unit, cursor: nat)
    requires corruptionLevel <= 59
    ensures Display(timeRemaining, shouldApplyZalgo, corruptionLevel, rand, cursor).visible == FormatTime(timeRemaining)
  {
    if shouldApplyZalgo {
      LowIntensityIdentity(FormatTime(timeRemaining), ZalgoIntensity(true, corruptionLevel), rand, cursor);
    }
  }

  /** The formatter writes only decimal digits and the colon, none of them a combining mark. */
  lemma FormatTimeUnmarked(seconds: int)
    ensures forall i :: 0 <= i < |FormatTime(seconds)| ==>
              (IsDigit(FormatTime(seconds)[i]) || FormatTime(seconds)[i] == ':') && !IsMark(FormatTime(seconds)[i])
  {
    var s := if seconds < 0 then 0 else seconds;
    var mm := Pad2(NatToString(s / 60));
    var ss := Pad2(NatToString(s % 60));
    Pad2Value(NatToString(s / 60));
    Pad2Value(NatToString(s % 60));
    var r := mm + ":" + ss;
    assert r == FormatTime(seconds);
    forall i | 0 <= i < |r|
      ensures (IsDigit(r[i]) || r[i] == ':') && !IsMark(r[i])
    {
      if IsMark(r[i]) {
        MarksInCombiningBlock(r[i]);
      }
    }
  }

  /** Removing the marks from the visible text gives exactly the screen-reader text. */
  lemma StripGivesScreenReaderText(timeRemaining: int, shouldApplyZalgo: bool, corruptionLevel: int, rand: nat -> Unit, cursor: nat)
    ensures var v := Display(timeRemaining, shouldApplyZalgo, corruptionLevel, rand, cursor);
            Strip(v.visible) == v.screenReader == FormatTime(timeRemaining)
  {
    var formatted := FormatTime(timeRemaining);
    FormatTimeUnmarked(timeRemaining);
    if shouldApplyZalgo {
      ZalgoStripRoundTrip(formatted, ZalgoIntensity(true, corruptionLevel), rand, cursor);
    } else {
      StripUnmarked(formatted);
    }
  }

  lemma {:induction false} NoColonInDigits(s: string)
    requires AllDigits(s)
    ensures Count(':', s) == 0
    decreases |s|
  {
    if s != [] {
      NoColonInDigits(s[1..]);
    }
  }

  /** However distorted, the visible text holds exactly one colon. */
  lemma OneColon(timeRemaining: int, shouldApplyZalgo: bool, corruptionLevel: int, rand: nat -> Unit, cursor: nat)
    ensures Count(':', Display(timeRemaining, shouldApplyZalgo, corruptionLevel, rand, cursor).visible) == 1
  {
    var seconds := if timeRemaining < 0 then 0 else timeRemaining;
    var mm := Pad2(NatToString(seconds / 60));
    var ss := Pad2(NatToString(seconds % 60));
    Pad2Value(NatToString(seconds / 60));
    Pad2Value(NatToString(seconds % 60));
    NoColonInDigits(mm);
    NoColonInDigits(ss);
    CountConcat(':', mm, ":");
    CountConcat(':', mm + ":", ss);
    assert Count(':', FormatTime(timeRemaining)) == 1;
    if shouldApplyZalgo {
      ColonsPreserved(FormatTime(timeRemaining), ZalgoIntensity(true, corruptionLevel), rand, cursor);
    }
  }
}
