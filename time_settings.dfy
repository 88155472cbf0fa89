/**
 * The duration settings panel: six preset lengths, a free-form minutes field
 * accepted when it parses to 1..999, and the open/closed panel state. The
 * store action that would apply a new duration is not part of this model, so
 * each handler returns the minutes it asks for (`None` when it asks for nothing).
 */
module TimeSettings {
  import opened Wrappers
  import opened Digits

  const Presets: seq<int> := [5, 10, 15, 25, 45, 60]
  const MaxCustomMinutes: int := 999

  /** The longest run of decimal digits at the start of `s`. */
  function DigitPrefix(s: string): (p: string)
    ensures AllDigits(p) && |p| <= |s| && p == s[..|p|]
    ensures |p| < |s| ==> !IsDigit(s[|p|])
  {
    if s != [] && IsDigit(s[0]) then [s[0]] + DigitPrefix(s[1..]) else []
  }

  /** `parseInt(s)`: an optional sign, then the leading decimal digits; `None` stands for NaN. */
  function ParseInt(s: string): Option<int> {
    var negative := s != [] && s[0] == '-';
    var unsigned := if s != [] && (s[0] == '-' || s[0] == '+') then s[1..] else s;
    var digits := DigitPrefix(unsigned);
    if digits == [] then None
    else Some(if negative then -(Value(digits) as int) else Value(digits))
  }

  /** The guard of the custom submit: the parsed value, when it is a number in 1..999 (NaN fails every comparison). */
  function AcceptedMinutes(input: string): (r: Option<int>)
    ensures r.Some? <==> ParseInt(input).Some? && 0 < ParseInt(input).value <= MaxCustomMinutes
    ensures r.Some? ==> r == ParseInt(input)
  {
    match ParseInt(input)
    case Some(m) => if 0 < m <= MaxCustomMinutes then Some(m) else None
    case None => None
  }

  /** The submit button is disabled for an empty field or a parsed value of at most 0. */
  predicate SubmitDisabled(input: string) {
    input == [] || (ParseInt(input).Some? && ParseInt(input).value <= 0)
  }

  /** `Math.ceil(totalTime / 60)`: the session length in whole minutes, rounded up. */
  function CurrentMinutes(totalTime: int): (m: int)
    ensures (m - 1) * 60 < totalTime <= m * 60
  {
    if totalTime % 60 == 0 then totalTime / 60 else totalTime / 60 + 1
  }

  /** The panel is shown only while open and while the timer is stopped. */
  predicate PanelVisible(isOpen: bool, isRunning: bool) {
    isOpen && !isRunning
  }

  /** The settings button is disabled while the timer runs. */
  predicate ToggleDisabled(isRunning: bool) {
    isRunning
  }

  lemma {:induction false} DigitPrefixOfDigits(s: string)
    requires AllDigits(s)
    ensures DigitPrefix(s) == s
    decreases |s|
  {
    if s != [] {
      DigitPrefixOfDigits(s[1..]);
    }
  }

  /** Every minute count the panel can ask for round-trips through the text field. */
  lemma CustomRoundTrip(n: nat)
    requires 1 <= n <= MaxCustomMinutes
    ensures AcceptedMinutes(NatToString(n)) == Some(n)
    ensures !SubmitDisabled(NatToString(n))
  {
    var s := NatToString(n);
    NatToStringRoundTrip(n);
    DigitPrefixOfDigits(s);
    assert s[0] != '-' && s[0] != '+' by {
      assert IsDigit(s[0]);
    }
  }

  /** An accepted value always comes with an enabled button. */
  lemma AcceptedIsEnabled(input: string)
    requires AcceptedMinutes(input).Some?
    ensures !SubmitDisabled(input)
  {
  }

  /**
   * The submit handler's guard on its own: a field value with no leading digit
   * leaves the button enabled and the handler refuses it. A number input never
   * holds such a value; the guard is what the handler itself checks.
   */
  lemma NonNumericRefused()
    ensures !SubmitDisabled("abc") && AcceptedMinutes("abc") == None
  {
    assert DigitPrefix("abc") == [];
  }

  /**
   * The submit handler's guard on its own: "1000" leaves the button enabled and
   * the handler refuses it. In the browser the input's `max` already blocks the
   * submit before the handler runs.
   */
  lemma ThousandRefused()
    ensures !SubmitDisabled("1000") && AcceptedMinutes("1000") == None
  {
    assert DigitPrefix("1000") == "1000";
    assert NatToString(1000) == "1000";
    NatToStringRoundTrip(1000);
  }

  /** The empty field, "0" and "-5" disable the button. */
  lemma NonPositiveDisabled()
    ensures SubmitDisabled("") && SubmitDisabled("0") && SubmitDisabled("-5")
  {
    assert DigitPrefix("0") == "0";
    assert DigitPrefix("5") == "5";
  }

  /**
   * The submit handler's parse on its own: only the leading digits count, so
   * "25min" asks for 25 minutes. A number input never holds such a value.
   */
  lemma LeadingDigitsParsed()
    ensures AcceptedMinutes("25min") == Some(25)
  {
    assert DigitPrefix("25min") == "25";
    assert NatToString(25) == "25";
    NatToStringRoundTrip(25);
  }

  class SettingsPanel {
    var isOpen: bool
    var customMinutes: string

    constructor ()
      ensures !isOpen && customMinutes == []
    {
      isOpen, customMinutes := false, [];
    }

    /** The settings button: flips the panel, unless the timer runs and the button is disabled. */
    method ToggleOpen(isRunning: bool)
      modifies this
      ensures isOpen == if ToggleDisabled(isRunning) then old(isOpen) else !old(isOpen)
      ensures customMinutes == old(customMinutes)
    {
      if !ToggleDisabled(isRunning) {
        isOpen := !isOpen;
      }
    }

    /** The close button. */
    method Close()
      modifies this
      ensures !isOpen && customMinutes == old(customMinutes)
    {
      isOpen := false;
    }

    /** Typing in the minutes field. */
    method EditInput(value: string)
      modifies this
      ensures customMinutes == value && isOpen == old(isOpen)
    {
      customMinutes := value;
    }

    /** A preset button: asks for that preset's minutes and closes the panel. */
    method HandlePresetClick(index: nat) returns (request: int)
      requires index < |Presets|
      modifies this
      ensures request == Presets[index] && 0 < request <= MaxCustomMinutes
      ensures !isOpen && customMinutes == old(customMinutes)
    {
      request := Presets[index];
      isOpen := false;
    }

    /**
     * The custom submit: asks for the parsed minutes when they lie in 1..999,
     * then clears the field and closes the panel; otherwise changes nothing.
     */
    method HandleCustomSubmit() returns (request: Option<int>)
      modifies this
      ensures request == AcceptedMinutes(old(customMinutes))
      ensures request.Some? ==> 0 < request.value <= MaxCustomMinutes
      ensures request.Some? ==> customMinutes == [] && !isOpen
      ensures request.None? ==> customMinutes == old(customMinutes) && isOpen == old(isOpen)
    {
      var minutes := ParseInt(customMinutes);
      request := None;
      if minutes.Some? && 0 < minutes.value && minutes.value <= MaxCustomMinutes {
        request := minutes;
        customMinutes := [];
        isOpen := false;
      }
    }
  }
}
