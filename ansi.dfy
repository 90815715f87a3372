/**
 * The script API's ANSI helper: text that scripts print to the terminal to
 * change the character attributes (SGR) or move the cursor (CUU, CUD, CUF,
 * CUB). Its constants are the parameters the emulation parser recognizes,
 * and what it writes the parser reads back.
 */
module Ansi {
  import opened Wrappers
  import opened JavaInt
  import Emulation

  const RESET := 0
  const BRIGHT := 1
  const DIM := 2
  const UNDERLINE := 4
  const BLINK := 5
  const INVERSE := 7

  const FG_BLACK := 30
  const FG_RED := 31
  const FG_GREEN := 32
  const FG_YELLOW := 33
  const FG_BLUE := 34
  const FG_MAGENTA := 35
  const FG_CYAN := 36
  const FG_WHITE := 37

  const BG_BLACK := 40
  const BG_RED := 41
  const BG_GREEN := 42
  const BG_YELLOW := 43
  const BG_BLUE := 44
  const BG_MAGENTA := 45
  const BG_CYAN := 46
  const BG_WHITE := 47

  const UP: char := 'A'
  const DOWN: char := 'B'
  const RIGHT: char := 'C'
  const LEFT: char := 'D'

  const ESC: char := 27 as char

  /** isValidAttribute: exactly the parameters the emulation parser's SGR handler acts on. */
  predicate IsValidAttribute(a: int)
    ensures IsValidAttribute(a) <==> Emulation.IsSgrParameter(a)
  {
    a == 0 || a == 1 || a == 2 || a == 4 || a == 5 || a == 7 || (30 <= a <= 37) || (40 <= a <= 47)
  }

  /** The attributes in decimal, separated by ';'. */
  function Join(attributes: seq<int>): string
    requires |attributes| > 0
  {
    if |attributes| == 1 then IntToString(attributes[0])
    else Join(attributes[..|attributes| - 1]) + ";" + IntToString(attributes[|attributes| - 1])
  }

  /** The text setText writes: ESC '[', the attributes ("0" for none), 'm'. */
  function SetTextString(attributes: seq<int>): string
  {
    [ESC, '['] + (if attributes == [] then "0" else Join(attributes)) + "m"
  }

  /** setText(int...): IllegalArgumentException on the first invalid attribute, else the SGR sequence. */
  method SetText(attributes: seq<int>) returns (r: Result<string>)
    ensures r.Err? <==> exists k :: 0 <= k < |attributes| && !IsValidAttribute(attributes[k])
    ensures r.Err? ==> r.error == IllegalArgument
    ensures r.Ok? ==> r.value == SetTextString(attributes)
  {
    for k := 0 to |attributes|
      invariant forall j :: 0 <= j < k ==> IsValidAttribute(attributes[j])
    {
      if !IsValidAttribute(attributes[k]) {
        return Err(IllegalArgument);
      }
    }
    var sb := [ESC, '['];
    if |attributes| == 0 {
      sb := sb + "0";
    } else {
      sb := sb + IntToString(attributes[0]);
      for i := 1 to |attributes|
        invariant sb == [ESC, '['] + Join(attributes[..i])
      {
        assert attributes[..i + 1][..i] == attributes[..i];
        sb := sb + ";" + IntToString(attributes[i]);
      }
      assert attributes[..|attributes|] == attributes;
    }
    sb := sb + "m";
    return Ok(sb);
  }

  /** setText(): the reset sequence. */
  function SetTextReset(): (r: string)
    ensures r == SetTextString([])
  {
    [ESC] + "[0m"
  }

  /** moveCursor: IllegalArgumentException for a negative distance or a direction outside 'A'..'D'. */
  function MoveCursor(direction: char, distance: int): (r: Result<string>)
    ensures r.Err? <==> distance < 0 || direction < 'A' || direction > 'D'
    ensures r.Err? ==> r.error == IllegalArgument
    ensures r.Ok? ==> (|r.value| >= 4 && r.value[..2] == [ESC, '['] && r.value[|r.value| - 1] == direction)
  {
    if distance < 0 then Err(IllegalArgument)
    else if direction < 'A' || direction > 'D' then Err(IllegalArgument)
    else Ok([ESC, '['] + IntToString(distance) + [direction])
  }

  // ---------------------------------------------------------------------
  // What the parser reads back

  function Texts(values: seq<nat>): (r: seq<Emulation.Slot>)
    ensures |r| == |values|
    ensures forall k :: 0 <= k < |r| ==> r[k] == Emulation.Digits(NatToDigits(values[k]))
  {
    if values == [] then [] else Texts(values[..|values| - 1]) + [Emulation.Digits(NatToDigits(values[|values| - 1]))]
  }

  /** Where no number is open, the start of the last number does not matter. */
  lemma {:induction false} BeginIrrelevant(t: string, i: nat, b1: nat, b2: nat)
    requires i <= |t| && b1 <= i && b2 <= i
    ensures Emulation.Slots(t, i, false, b1) == Emulation.Slots(t, i, false, b2)
    decreases |t| - i
  {
    if i < |t| && !IsDigit(t[i]) {
      BeginIrrelevant(t, i + 1, b1, b2);
    }
  }

  /** Join's text ends with the last number, after the others and a ';'. */
  lemma JoinShape(values: seq<nat>)
    requires |values| > 0
    ensures var last := NatToDigits(values[|values| - 1]);
      |last| <= |Join(values)| && Join(values)[|Join(values)| - |last|..] == last &&
      (|values| > 1 ==> Join(values) == Join(values[..|values| - 1]) + ";" + last)
    ensures |values| == 1 ==> Join(values) == NatToDigits(values[0])
  {
  }

  /** Where Join's pieces lie in a text that holds it at position i. */
  lemma JoinPieces(t: string, i: nat, values: seq<nat>)
    requires |values| > 0
    requires i + |Join(values)| <= |t| && t[i..i + |Join(values)|] == Join(values)
    ensures var last := NatToDigits(values[|values| - 1]);
      var s := i + |Join(values)| - |last|;
      i <= s && t[s..s + |last|] == last && IsDigits(t[s..s + |last|]) && t[s] != ';' &&
      (|values| > 1 ==> (i + |Join(values[..|values| - 1])| + 1 == s &&
        t[i..s - 1] == Join(values[..|values| - 1]) && t[s - 1] == ';'))
  {
    var n := |values|;
    var j := Join(values);
    var e := i + |j|;
    var last := NatToDigits(values[n - 1]);
    var s := e - |last|;
    JoinShape(values);
    assert t[s..e] == t[i..e][|j| - |last|..];
    if n > 1 {
      var init := values[..n - 1];
      assert t[i..s - 1] == t[i..e][..|Join(init)|];
      assert t[s - 1] == t[i..e][|Join(init)|];
    }
  }

  /** A ';'-separated list of numbers ended by a non-digit reads as one parameter per number. */
  lemma {:induction false} JoinedSlots(t: string, i: nat, values: seq<nat>, b: nat)
    requires |values| > 0 && b <= i
    requires i + |Join(values)| < |t| && t[i..i + |Join(values)|] == Join(values)
    requires !IsDigit(t[i + |Join(values)|])
    ensures Emulation.Slots(t, i, false, b) == Texts(values) + Emulation.Slots(t, i + |Join(values)| + 1, false, b)
    decreases |values|
  {
    var n := |values|;
    var e := i + |Join(values)|;
    var last := NatToDigits(values[n - 1]);
    var s := e - |last|;
    JoinPieces(t, i, values);
    Emulation.DigitRun(t, s, e, false, b);
    BeginIrrelevant(t, e + 1, s, b);
    if n > 1 {
      var init := values[..n - 1];
      JoinedSlots(t, i, init, b);
      assert Texts(values) == Texts(init) + [Emulation.Digits(last)];
    }
  }

  /** Numbers that fit in an int parse back to themselves. */
  lemma TextsValues(values: seq<nat>)
    requires forall k :: 0 <= k < |values| ==> values[k] <= INT_MAX
    ensures Emulation.ParamValues(Texts(values)) == Ok(values)
  {
    var slots := Texts(values);
    forall k | 0 <= k < |values|
      ensures Emulation.SlotValue(slots[k]) == Some(values[k])
    {
      ParseIntToString(values[k]);
    }
    assert Emulation.ParamValues(slots).Ok?;
    assert Emulation.ParamValues(slots).value == values;
  }

  /** The parser reads back a ';'-separated list of numbers written between ESC '[' and a final letter. */
  lemma SequenceRoundTrip(values: seq<nat>, final: char)
    requires |values| > 0 && !IsDigit(final)
    requires forall k :: 0 <= k < |values| ==> values[k] <= INT_MAX
    ensures Emulation.Params([ESC, '['] + Join(values) + [final]) == Ok(values)
  {
    var j := Join(values);
    var t := [ESC, '['] + j + [final];
    assert t[2..|t| - 1] == j;
    ReadSequence(t, values);
  }

  lemma ReadSequence(t: string, values: seq<nat>)
    requires |values| > 0 && forall k :: 0 <= k < |values| ==> values[k] <= INT_MAX
    requires |t| == |Join(values)| + 3 && t[0] == ESC && t[1] == '['
    requires t[2..|t| - 1] == Join(values) && !IsDigit(t[|t| - 1])
    ensures Emulation.Params(t) == Ok(values)
  {
    Emulation.SkipOthers(t, 0, 2, 0);
    JoinedSlots(t, 2, values, 0);
    assert Emulation.Slots(t, 0, false, 0) == Texts(values);
    TextsValues(values);
  }

  /** The emulation parser reads setText's attributes back, or a single 0 for none. */
  lemma SetTextRoundTrip(attributes: seq<int>)
    requires forall k :: 0 <= k < |attributes| ==> IsValidAttribute(attributes[k])
    ensures Emulation.Params(SetTextString(attributes)) == Ok(if attributes == [] then [0] else attributes)
  {
    if attributes == [] {
      assert Join([0]) == "0";
      assert SetTextString(attributes) == [ESC, '['] + Join([0]) + ['m'];
      SequenceRoundTrip([0], 'm');
    } else {
      var values: seq<nat> := attributes;
      assert SetTextString(attributes) == [ESC, '['] + Join(values) + ['m'];
      SequenceRoundTrip(values, 'm');
    }
  }

  /** The parser reads moveCursor's distance back, and the cursor handlers move by it. */
  lemma MoveCursorRoundTrip(direction: char, distance: int)
    requires MoveCursor(direction, distance).Ok? && distance <= INT_MAX
    ensures Emulation.Params(MoveCursor(direction, distance).value) == Ok([distance])
    ensures Emulation.Distance([distance]) == distance
  {
    assert Join([distance]) == IntToString(distance);
    SequenceRoundTrip([distance], direction);
  }

  /** The reset text leaves the default attributes, whatever came before. */
  lemma SetTextResetDefaults(a: Emulation.Attributes)
    ensures Emulation.Params(SetTextReset()) == Ok([0])
    ensures Emulation.SgrAll(a, [0]) == Emulation.DEFAULT_ATTRIBUTES
  {
    SetTextRoundTrip([]);
    assert [0][..0] == [];
  }
}
