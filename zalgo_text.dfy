/**
 * Zalgo distortion: after each character that is not whitespace or ':', some
 * combining marks from the Unicode "Combining Diacritical Marks" block are
 * appended. `Math.random` is an injected stream of reals in [0, 1) read from a
 * cursor; every function returns the cursor after its last draw.
 */
module Zalgo {

  /** A value of `Math.random()`. */
  type Unit = r: real | 0.0 <= r < 1.0 witness 0.0

  /** Marks drawn above the character: U+0300 to U+030F. */
  const MarksAbove: seq<char> := [
    '\U{0300}', '\U{0301}', '\U{0302}', '\U{0303}', '\U{0304}', '\U{0305}', '\U{0306}', '\U{0307}',
    '\U{0308}', '\U{0309}', '\U{030A}', '\U{030B}', '\U{030C}', '\U{030D}', '\U{030E}', '\U{030F}'
  ]
  /** Marks drawn below the character: U+0316 to U+0327. */
  const MarksBelow: seq<char> := [
    '\U{0316}', '\U{0317}', '\U{0318}', '\U{0319}', '\U{031A}', '\U{031B}', '\U{031C}', '\U{031D}', '\U{031E}',
    '\U{031F}', '\U{0320}', '\U{0321}', '\U{0322}', '\U{0323}', '\U{0324}', '\U{0325}', '\U{0326}', '\U{0327}'
  ]
  /** Marks drawn through the character: U+0334 to U+0338. */
  const MarksMiddle: seq<char> := ['\U{0334}', '\U{0335}', '\U{0336}', '\U{0337}', '\U{0338}']

  predicate IsMark(c: char) {
    c in MarksAbove || c in MarksBelow || c in MarksMiddle
  }

  /** Every mark lies in the combining block U+0300 to U+036F. */
  lemma MarksInCombiningBlock(c: char)
    requires IsMark(c)
    ensures '\U{0300}' <= c <= '\U{036F}'
  {
  }

  /** What the pattern `[\s:]` matches: the colon and the ECMAScript white-space and line-terminator characters. */
  predicate IsUnmarked(c: char) {
    || c == ':'
    || '\t' <= c <= '\r' || c == ' ' || c == '\U{00A0}' || c == '\U{1680}'
    || '\U{2000}' <= c <= '\U{200A}' || c == '\U{2028}' || c == '\U{2029}'
    || c == '\U{202F}' || c == '\U{205F}' || c == '\U{3000}' || c == '\U{FEFF}'
  }

  /** No mark is whitespace or a colon. */
  lemma MarksAreMarked(c: char)
    requires IsMark(c)
    ensures !IsUnmarked(c)
  {
    MarksInCombiningBlock(c);
  }

  /** `Math.max(0, Math.min(1, intensity))`. */
  function Clamp(intensity: real): (r: real)
    ensures 0.0 <= r <= 1.0
    ensures 0.0 <= intensity <= 1.0 ==> r == intensity
    ensures intensity < 0.0 ==> r == 0.0
    ensures intensity > 1.0 ==> r == 1.0
  {
    if intensity < 0.0 then 0.0 else if intensity > 1.0 then 1.0 else intensity
  }

  /** `Math.floor(1 + clamped * 5)`: one mark slot at the bottom, six at full intensity. */
  function MarksPerChar(clamped: real): (n: nat)
    requires 0.0 <= clamped <= 1.0
    ensures 1 <= n <= 6
    ensures n == 1 <==> clamped < 0.2
    ensures n == 6 <==> clamped == 1.0
  {
    (1.0 + clamped * 5.0).Floor
  }

  /** `Math.floor(u * n)`: a draw scaled to an index or a count below `n`. */
  function Scaled(u: Unit, n: nat): (k: nat)
    requires n > 0
    ensures k < n
  {
    assert u * n as real < n as real;
    (u * n as real).Floor
  }

  /** A uniformly drawn entry of a mark table. */
  function Pick(table: seq<char>, u: Unit): (c: char)
    requires |table| > 0
    ensures c in table
  {
    table[Scaled(u, |table|)]
  }

  /** `count` marks from `table`, one draw each, starting at `cursor`. */
  function MarkRun(table: seq<char>, count: nat, rand: nat -> Unit, cursor: nat): (marks: string)
    requires |table| > 0
    ensures |marks| == count
    ensures forall i :: 0 <= i < count ==> marks[i] in table
  {
    var marks := seq(count, k requires 0 <= k < count => Pick(table, rand(cursor + k)));
    assert forall i :: 0 <= i < count ==> marks[i] == Pick(table, rand(cursor + i));
    marks
  }

  /** Text produced, and the cursor after every draw. */
  datatype Drawn = Drawn(text: string, cursor: nat)

  /** One character with the marks appended to it, and the cursor after the draws. */
  datatype Decoration = Decoration(base: char, above: string, below: string, middle: string, next: nat)

  function Render(d: Decoration): string {
    [d.base] + d.above + d.below + d.middle
  }

  /**
   * The per-character step: whitespace and ':' come out bare with no draw;
   * any other character gets `DecorateMarked`.
   */
  function DecorateChar(c: char, clamped: real, marksPerChar: nat, rand: nat -> Unit, cursor: nat): (d: Decoration)
    requires marksPerChar > 0
    ensures d.base == c && d.next >= cursor
    ensures |d.above| < marksPerChar && |d.below| < marksPerChar && |d.middle| <= 1
    ensures forall i :: 0 <= i < |d.above| ==> d.above[i] in MarksAbove
    ensures forall i :: 0 <= i < |d.below| ==> d.below[i] in MarksBelow
    ensures forall i :: 0 <= i < |d.middle| ==> d.middle[i] in MarksMiddle
    ensures IsUnmarked(c) ==> d == Decoration(c, [], [], [], cursor)
    ensures clamped <= 0.5 ==> d.middle == []
  {
    if IsUnmarked(c) then Decoration(c, [], [], [], cursor)
    else DecorateMarked(c, clamped, marksPerChar, rand, cursor)
  }

  /**
   * A count below `marksPerChar` of above-marks, then of below-marks, then
   * the optional middle mark.
   */
  function DecorateMarked(c: char, clamped: real, marksPerChar: nat, rand: nat -> Unit, cursor: nat): Decoration
    requires marksPerChar > 0
  {
    var aboveCount := Scaled(rand(cursor), marksPerChar);
    var p := cursor + 1 + aboveCount;
    var belowCount := Scaled(rand(p), marksPerChar);
    var q := p + 1 + belowCount;
    var middle := MiddleMark(clamped, rand, q);
    Decoration(c, MarkRun(MarksAbove, aboveCount, rand, cursor + 1), MarkRun(MarksBelow, belowCount, rand, p + 1),
               middle.text, middle.cursor)
  }

  /** Above intensity 0.5, a middle mark with probability 0.3; the draws are made only then. */
  function MiddleMark(clamped: real, rand: nat -> Unit, cursor: nat): Drawn {
    if clamped > 0.5 then
      if rand(cursor) < 0.3 then Drawn([Pick(MarksMiddle, rand(cursor + 1))], cursor + 2)
      else Drawn([], cursor + 1)
    else Drawn([], cursor)
  }

  /** One of the source's counted loops: `count` draws from `table` appended to `result`. */
  method AppendMarks(result: string, table: seq<char>, count: nat, rand: nat -> Unit, cursor: nat)
    returns (extended: string, next: nat)
    requires |table| > 0
    ensures extended == result + MarkRun(table, count, rand, cursor)
    ensures next == cursor + count
  {
    extended, next := result, cursor;
    for i := 0 to count
      invariant extended == result + MarkRun(table, i, rand, cursor)
      invariant next == cursor + i
    {
      assert MarkRun(table, i + 1, rand, cursor) == MarkRun(table, i, rand, cursor) + [Pick(table, rand(next))];
      extended := extended + [Pick(table, rand(next))];
      next := next + 1;
    }
  }

  /** The source's middle-mark step: a draw decides, a second draw picks the mark. */
  method AppendMiddle(result: string, clamped: real, rand: nat -> Unit, cursor: nat) returns (extended: string, next: nat)
    ensures extended == result + MiddleMark(clamped, rand, cursor).text
    ensures next == MiddleMark(clamped, rand, cursor).cursor
  {
    extended, next := result, cursor;
    if clamped > 0.5 {
      var u := rand(next);
      next := next + 1;
      if u < 0.3 {
        extended := extended + [Pick(MarksMiddle, rand(next))];
        next := next + 1;
      }
    }
  }

  /** The per-character body as the source writes it: whitespace and ':' are returned bare. */
  method DecorateCharacter(c: char, clamped: real, marksPerChar: nat, rand: nat -> Unit, cursor: nat)
    returns (result: string, next: nat)
    requires marksPerChar > 0
    ensures result == Render(DecorateChar(c, clamped, marksPerChar, rand, cursor))
    ensures next == DecorateChar(c, clamped, marksPerChar, rand, cursor).next
  {
    if IsUnmarked(c) {
      return [c], cursor;
    }
    result, next := AppendAllMarks(c, clamped, marksPerChar, rand, cursor);
  }

  /** Two counted loops of above- and below-marks, then the optional middle mark. */
  method AppendAllMarks(c: char, clamped: real, marksPerChar: nat, rand: nat -> Unit, cursor: nat)
    returns (result: string, next: nat)
    requires marksPerChar > 0
    ensures result == Render(DecorateMarked(c, clamped, marksPerChar, rand, cursor))
    ensures next == DecorateMarked(c, clamped, marksPerChar, rand, cursor).next
  {
    ghost var d := DecorateMarked(c, clamped, marksPerChar, rand, cursor);
    var aboveCount := Scaled(rand(cursor), marksPerChar);
    result, next := AppendMarks([c], MarksAbove, aboveCount, rand, cursor + 1);
    assert result == [c] + d.above;
    var belowCount := Scaled(rand(next), marksPerChar);
    result, next := AppendMarks(result, MarksBelow, belowCount, rand, next + 1);
    assert result == [c] + d.above + d.below;
    result, next := AppendMiddle(result, clamped, rand, next);
  }

  /** The split/map/join pipeline: each character decorated in turn, draws taken in order. */
  function DecorateAll(text: string, clamped: real, marksPerChar: nat, rand: nat -> Unit, cursor: nat): Drawn
    requires marksPerChar > 0
    decreases |text|
  {
    if text == [] then Drawn([], cursor)
    else
      var d := DecorateChar(text[0], clamped, marksPerChar, rand, cursor);
      var rest := DecorateAll(text[1..], clamped, marksPerChar, rand, d.next);
      Drawn(Render(d) + rest.text, rest.cursor)
  }

  /** `zalgoText`: below intensity 0.1 the text is returned untouched and nothing is drawn. */
  function ZalgoText(text: string, intensity: real, rand: nat -> Unit, cursor: nat): Drawn {
    var clamped := Clamp(intensity);
    if clamped < 0.1 then Drawn(text, cursor)
    else DecorateAll(text, clamped, MarksPerChar(clamped), rand, cursor)
  }

  /** Removes every character that comes from one of the three mark tables. */
  function Strip(s: string): (r: string)
    ensures forall i :: 0 <= i < |r| ==> !IsMark(r[i])
    ensures |r| <= |s|
  {
    if s == [] then [] else if IsMark(s[0]) then Strip(s[1..]) else [s[0]] + Strip(s[1..])
  }

  lemma {:induction false} StripConcat(a: string, b: string)
    ensures Strip(a + b) == Strip(a) + Strip(b)
    decreases |a|
  {
    if a == [] {
      assert a + b == b;
    } else {
      assert (a + b)[0] == a[0] && (a + b)[1..] == a[1..] + b;
      StripConcat(a[1..], b);
    }
  }

  lemma {:induction false} StripMarks(s: string)
    requires forall i :: 0 <= i < |s| ==> IsMark(s[i])
    ensures Strip(s) == []
    decreases |s|
  {
    if s != [] {
      StripMarks(s[1..]);
    }
  }

  /** Stripping a decorated character leaves the character. */
  lemma StripRender(d: Decoration)
    requires !IsMark(d.base)
    requires forall i :: 0 <= i < |d.above| ==> d.above[i] in MarksAbove
    requires forall i :: 0 <= i < |d.below| ==> d.below[i] in MarksBelow
    requires forall i :: 0 <= i < |d.middle| ==> d.middle[i] in MarksMiddle
    ensures Strip(Render(d)) == [d.base]
  {
    StripMarks(d.above);
    StripMarks(d.below);
    StripMarks(d.middle);
    StripConcat([d.base], d.above);
    StripConcat([d.base] + d.above, d.below);
    StripConcat([d.base] + d.above + d.below, d.middle);
  }

  lemma {:induction false} DecorateAllStrip(text: string, clamped: real, marksPerChar: nat, rand: nat -> Unit, cursor: nat)
    requires marksPerChar > 0
    requires forall i :: 0 <= i < |text| ==> !IsMark(text[i])
    ensures Strip(DecorateAll(text, clamped, marksPerChar, rand, cursor).text) == text
    decreases |text|
  {
    if text != [] {
      var d := DecorateChar(text[0], clamped, marksPerChar, rand, cursor);
      StripRender(d);
      DecorateAllStrip(text[1..], clamped, marksPerChar, rand, d.next);
      StripConcat(Render(d), DecorateAll(text[1..], clamped, marksPerChar, rand, d.next).text);
    }
  }

  /** Round trip: removing the marks from the output recovers an input that held none. */
  lemma ZalgoStripRoundTrip(text: string, intensity: real, rand: nat -> Unit, cursor: nat)
    requires forall i :: 0 <= i < |text| ==> !IsMark(text[i])
    ensures Strip(ZalgoText(text, intensity, rand, cursor).text) == text
  {
    var clamped := Clamp(intensity);
    if clamped < 0.1 {
      StripUnmarked(text);
    } else {
      DecorateAllStrip(text, clamped, MarksPerChar(clamped), rand, cursor);
    }
  }

  lemma {:induction false} StripUnmarked(s: string)
    requires forall i :: 0 <= i < |s| ==> !IsMark(s[i])
    ensures Strip(s) == s
    decreases |s|
  {
    if s != [] {
      StripUnmarked(s[1..]);
    }
  }

  /** Occurrences of `c` in `s`. */
  function Count(c: char, s: string): nat {
    if s == [] then 0 else (if s[0] == c then 1 else 0) + Count(c, s[1..])
  }

  lemma {:induction false} CountConcat(c: char, a: string, b: string)
    ensures Count(c, a + b) == Count(c, a) + Count(c, b)
    decreases |a|
  {
    if a == [] {
      assert a + b == b;
    } else {
      assert (a + b)[0] == a[0] && (a + b)[1..] == a[1..] + b;
      CountConcat(c, a[1..], b);
    }
  }

  /** A character that is not a mark occurs as often in the output as in the input. */
  lemma {:induction false} DecorateAllCount(c: char, text: string, clamped: real, marksPerChar: nat, rand: nat -> Unit, cursor: nat)
    requires marksPerChar > 0 && !IsMark(c)
    ensures Count(c, DecorateAll(text, clamped, marksPerChar, rand, cursor).text) == Count(c, text)
    decreases |text|
  {
    if text != [] {
      var d := DecorateChar(text[0], clamped, marksPerChar, rand, cursor);
      StripRenderCount(c, d);
      DecorateAllCount(c, text[1..], clamped, marksPerChar, rand, d.next);
      CountConcat(c, Render(d), DecorateAll(text[1..], clamped, marksPerChar, rand, d.next).text);
    }
  }

  lemma StripRenderCount(c: char, d: Decoration)
    requires !IsMark(c)
    requires forall i :: 0 <= i < |d.above| ==> d.above[i] in MarksAbove
    requires forall i :: 0 <= i < |d.below| ==> d.below[i] in MarksBelow
    requires forall i :: 0 <= i < |d.middle| ==> d.middle[i] in MarksMiddle
    ensures Count(c, Render(d)) == Count(c, [d.base])
  {
    CountNone(c, d.above);
    CountNone(c, d.below);
    CountNone(c, d.middle);
    CountConcat(c, [d.base], d.above);
    CountConcat(c, [d.base] + d.above, d.below);
    CountConcat(c, [d.base] + d.above + d.below, d.middle);
  }

  lemma {:induction false} CountNone(c: char, s: string)
    requires !IsMark(c) && forall i :: 0 <= i < |s| ==> IsMark(s[i])
    ensures Count(c, s) == 0
    decreases |s|
  {
    if s != [] {
      CountNone(c, s[1..]);
    }
  }

  /** The colon of "MM:SS" survives every intensity exactly once per occurrence. */
  lemma ColonsPreserved(text: string, intensity: real, rand: nat -> Unit, cursor: nat)
    ensures Count(':', ZalgoText(text, intensity, rand, cursor).text) == Count(':', text)
  {
    var clamped := Clamp(intensity);
    if clamped >= 0.1 {
      MarksAreNotColons();
      DecorateAllCount(':', text, clamped, MarksPerChar(clamped), rand, cursor);
    }
  }

  lemma MarksAreNotColons()
    ensures !IsMark(':')
  {
    if IsMark(':') {
      MarksAreMarked(':');
    }
  }

  /** With a single mark slot no mark can be drawn: the text comes out unchanged. */
  lemma {:induction false} SingleSlotIdentity(text: string, clamped: real, rand: nat -> Unit, cursor: nat)
    requires clamped <= 0.5
    ensures DecorateAll(text, clamped, 1, rand, cursor).text == text
    decreases |text|
  {
    if text != [] {
      var d := DecorateChar(text[0], clamped, 1, rand, cursor);
      SingleSlotIdentity(text[1..], clamped, rand, d.next);
      assert Render(d) == [text[0]];
    }
  }

  /** Any intensity that clamps below 0.2, negative ones included, leaves the text unchanged. */
  lemma LowIntensityIdentity(text: string, intensity: real, rand: nat -> Unit, cursor: nat)
    requires intensity < 0.2
    ensures ZalgoText(text, intensity, rand, cursor).text == text
  {
    var clamped := Clamp(intensity);
    if clamped >= 0.1 {
      SingleSlotIdentity(text, clamped, rand, cursor);
    }
  }

  /** Medium intensity may add nothing: a stream of zeros draws a count of 0 for every character. */
  lemma MediumIntensityMayAddNothing()
    ensures ZalgoText("25:00", 0.5, (k: nat) => 0.0, 0).text == "25:00"
  {
    var rand: nat -> Unit := (k: nat) => 0.0;
    var d := DecorateChar('2', 0.5, 3, rand, 0);
    assert Render(d) == "2";
    assert DecorateAll("25:00", 0.5, 3, rand, 0).text == "25:00";
  }
}
