/**
 * The terminal emulator's cursor state machine. The handlers implement the
 * ECMA-48 control functions CUU, CUD, CUF and CUB (cursor up, down, right
 * and left), CUP (cursor position) and SGR (select graphic rendition), and
 * read their numeric parameters with extractParams.
 *
 * The screen buffer is outside the model: the text written to it, and the
 * lines it is advanced to, are not modelled. The character attributes are a
 * record here rather than VGABufferElement's bit encoding, whose default is
 * taken to be light grey on black with every other attribute off. Each
 * handler receives the control sequence's own text, seq[off..off+len].
 */
module Emulation {
  import opened Wrappers
  import opened JavaInt

  // ---------------------------------------------------------------------
  // extractParams

  /**
   * One parameter found by extractParams: a blank (a ';' that does not
   * directly follow a number), a run of digits ended by another character,
   * or a run of digits that reaches the end of the text, which the second
   * pass never stores and so stays 0.
   */
  datatype Slot = Blank | Digits(text: string) | Unterminated

  predicate WellFormed(slots: seq<Slot>)
  {
    forall k :: 0 <= k < |slots| && slots[k].Digits? ==> IsDigits(slots[k].text)
  }

  /**
   * The parameters of t from position i on; inNumber says a run of digits
   * started at `begin` is open. The character that ends a run is consumed
   * with it, so a ';' right after a number is not a blank.
   */
  function Slots(t: string, i: nat, inNumber: bool, begin: nat): (r: seq<Slot>)
    requires i <= |t| && begin <= i
    requires inNumber ==> begin < i && AllDigits(t[begin..i])
    ensures WellFormed(r)
    decreases |t| - i
  {
    if i == |t| then (if inNumber then [Unterminated] else [])
    else if inNumber then
      if IsDigit(t[i]) then
        assert t[begin..i + 1] == t[begin..i] + [t[i]];
        Slots(t, i + 1, true, begin)
      else [Digits(t[begin..i])] + Slots(t, i + 1, false, begin)
    else if t[i] == ';' then [Blank] + Slots(t, i + 1, false, begin)
    else if IsDigit(t[i]) then
      assert t[i..i + 1] == [t[i]];
      Slots(t, i + 1, true, i)
    else Slots(t, i + 1, false, begin)
  }

  /** A blank reads as 1 (screen coordinates are 1-based); a number is parsed; an unterminated run stays 0. */
  function SlotValue(s: Slot): (r: Option<int>)
    requires s.Digits? ==> IsDigits(s.text)
    ensures r.Some? ==> r.value >= 0
    ensures s.Digits? && r.Some? ==> r.value == DigitsValue(s.text)
  {
    match s
    case Blank => Some(1)
    case Unterminated => Some(0)
    case Digits(text) => ParseInt(text)
  }

  /** The values of the parameters; Integer.parseInt throws on a number too large for an int. */
  function ParamValues(slots: seq<Slot>): (r: Result<seq<int>>)
    requires WellFormed(slots)
    ensures r.Ok? <==> forall k :: 0 <= k < |slots| ==> SlotValue(slots[k]).Some?
    ensures r.Err? ==> r.error == NumberFormat
    ensures r.Ok? ==> (|r.value| == |slots| &&
      forall k :: 0 <= k < |slots| ==> SlotValue(slots[k]) == Some(r.value[k]) && r.value[k] >= 0)
  {
    if slots == [] then Ok([])
    else
      match SlotValue(slots[0])
      case None => Err(NumberFormat)
      case Some(v) =>
        match ParamValues(slots[1..])
        case Err(e) => Err(e)
        case Ok(vs) => Ok([v] + vs)
  }

  /** extractParams' result for the control sequence t. */
  function Params(t: string): Result<seq<int>>
  {
    ParamValues(Slots(t, 0, false, 0))
  }

  /** A run of digits ended by a non-digit is one parameter, and the ending character goes with it. */
  lemma {:induction false} DigitRun(t: string, i: nat, j: nat, inNumber: bool, begin: nat)
    requires i <= j < |t| && IsDigits(t[i..j]) && !IsDigit(t[j])
    requires begin <= i && (inNumber ==> begin < i && AllDigits(t[begin..i]))
    requires !inNumber ==> i < |t| && t[i] != ';'
    ensures Slots(t, i, inNumber, begin) ==
      [Digits(if inNumber then t[begin..j] else t[i..j])] + Slots(t, j + 1, false, if inNumber then begin else i)
    decreases j - i
  {
    if inNumber {
      if i < j {
        assert t[begin..i + 1] == t[begin..i] + [t[i]];
        assert IsDigit(t[i]);
        if i + 1 < j {
          assert t[i + 1..j] == t[i..j][1..];
        }
        DigitRunOpen(t, i + 1, j, begin);
      }
    } else {
      assert IsDigit(t[i]);
      assert t[i..i + 1] == [t[i]];
      DigitRunOpen(t, i + 1, j, i);
    }
  }

  /** An open run continues to the first non-digit. */
  lemma {:induction false} DigitRunOpen(t: string, i: nat, j: nat, begin: nat)
    requires begin < i <= j < |t| && AllDigits(t[begin..i]) && AllDigits(t[i..j]) && !IsDigit(t[j])
    ensures Slots(t, i, true, begin) == [Digits(t[begin..j])] + Slots(t, j + 1, false, begin)
    decreases j - i
  {
    if i < j {
      assert IsDigit(t[i]);
      assert t[begin..i + 1] == t[begin..i] + [t[i]];
      assert t[i + 1..j] == t[i..j][1..];
      DigitRunOpen(t, i + 1, j, begin);
    }
  }

  /** Characters that are neither digits nor ';' are skipped. */
  lemma {:induction false} SkipOthers(t: string, i: nat, j: nat, begin: nat)
    requires i <= j <= |t| && begin <= i
    requires forall k :: i <= k < j ==> !IsDigit(t[k]) && t[k] != ';'
    ensures Slots(t, i, false, begin) == Slots(t, j, false, begin)
    decreases j - i
  {
    if i < j {
      SkipOthers(t, i + 1, j, begin);
    }
  }

  /**
   * extractParams: a first pass counts the parameters, a second one parses
   * them into an array of that size.
   */
  method ExtractParams(t: string) returns (r: Result<seq<int>>)
    ensures r == Params(t)
  {
    ghost var all := Slots(t, 0, false, 0);
    var count := 0;
    var inNumber := false;
    ghost var begin: nat := 0;
    var i := 0;
    while i < |t|
      invariant 0 <= i <= |t| && begin <= i
      invariant inNumber ==> begin < i && AllDigits(t[begin..i])
      invariant count - (if inNumber then 1 else 0) + |Slots(t, i, inNumber, begin)| == |all|
    {
      if inNumber {
        inNumber := IsDigit(t[i]);
        if inNumber {
          assert t[begin..i + 1] == t[begin..i] + [t[i]];
        }
      } else if t[i] == ';' {
        count := count + 1;
      } else if IsDigit(t[i]) {
        inNumber := true;
        count := count + 1;
        begin := i;
        assert t[i..i + 1] == [t[i]];
      }
      i := i + 1;
    }
    r := ParseParams(t, count);
  }

  /** The second pass of extractParams, into an array of the counted size. */
  method ParseParams(t: string, count: nat) returns (r: Result<seq<int>>)
    requires count == |Slots(t, 0, false, 0)|
    ensures r == Params(t)
  {
    ghost var all := Slots(t, 0, false, 0);
    var ints := new int[count](_ => 0);
    var n := 0;
    var inNumber := false;
    var begin: nat := 0;
    var i := 0;
    while i < |t|
      invariant 0 <= i <= |t| && begin <= i
      invariant inNumber ==> begin < i && AllDigits(t[begin..i])
      invariant n + |Slots(t, i, inNumber, begin)| == |all| && all[n..] == Slots(t, i, inNumber, begin)
      invariant forall k :: 0 <= k < n ==> SlotValue(all[k]) == Some(ints[k])
      invariant forall k :: n <= k < ints.Length ==> ints[k] == 0
    {
      if inNumber {
        inNumber := IsDigit(t[i]);
        if inNumber {
          assert t[begin..i + 1] == t[begin..i] + [t[i]];
        } else {
          assert all[n] == Digits(t[begin..i]);
          var v := ParseInt(t[begin..i]);
          if v.None? {
            return Err(NumberFormat);
          }
          ints[n] := v.value;
          n := n + 1;
        }
      } else if t[i] == ';' {
        ints[n] := 1;
        n := n + 1;
      } else if IsDigit(t[i]) {
        inNumber := true;
        begin := i;
        assert t[i..i + 1] == [t[i]];
      }
      i := i + 1;
    }
    if inNumber {
      assert all[n] == Unterminated;
    }
    assert forall k :: 0 <= k < |all| ==> SlotValue(all[k]) == Some(ints[k]);
    assert ParamValues(all).Ok?;
    assert ParamValues(all).value == ints[..];
    return Ok(ints[..]);
  }

  // ---------------------------------------------------------------------
  // SGR

  datatype Attributes = Attributes(bright: bool, underlined: bool, blinking: bool, inverted: bool,
                                   foreground: int, background: int)

  const DEFAULT_ATTRIBUTES: Attributes := Attributes(false, false, false, false, 7, 0)

  /** The SGR parameters setAttributes recognizes: 0, 1, 2, 4, 5, 7, 30-37 and 40-47. */
  predicate IsSgrParameter(p: int)
  {
    p == 0 || p == 1 || p == 2 || p == 4 || p == 5 || p == 7 || 30 <= p <= 37 || 40 <= p <= 47
  }

  /** One SGR parameter applied to the attributes; an unknown one is logged and ignored. */
  function Sgr(a: Attributes, p: int): (r: Attributes)
    ensures p == 0 ==> r == DEFAULT_ATTRIBUTES
    ensures (p == 1 || p == 2) ==> r == a.(bright := p == 1)
    ensures p == 4 ==> r == a.(underlined := true)
    ensures p == 5 ==> r == a.(blinking := true)
    ensures p == 7 ==> r == a.(inverted := true)
    ensures 30 <= p <= 37 ==> r == a.(foreground := p - 30)
    ensures 40 <= p <= 47 ==> r == a.(background := p - 40)
    ensures !IsSgrParameter(p) ==> r == a
  {
    if p == 0 then DEFAULT_ATTRIBUTES
    else if p == 1 then a.(bright := true)
    else if p == 2 then a.(bright := false)
    else if p == 4 then a.(underlined := true)
    else if p == 5 then a.(blinking := true)
    else if p == 7 then a.(inverted := true)
    else if 30 <= p <= 37 then a.(foreground := p - 30)
    else if 40 <= p <= 47 then a.(background := p - 40)
    else a
  }

  /** The parameters applied in order. */
  function SgrAll(a: Attributes, ps: seq<int>): Attributes
  {
    if ps == [] then a else Sgr(SgrAll(a, ps[..|ps| - 1]), ps[|ps| - 1])
  }

  lemma {:induction false} SgrAllAppend(a: Attributes, ps: seq<int>, qs: seq<int>)
    ensures SgrAll(a, ps + qs) == SgrAll(SgrAll(a, ps), qs)
    decreases |qs|
  {
    if qs == [] {
      assert ps + qs == ps;
    } else {
      assert (ps + qs)[..|ps + qs| - 1] == ps + qs[..|qs| - 1];
      assert (ps + qs)[|ps + qs| - 1] == qs[|qs| - 1];
      SgrAllAppend(a, ps, qs[..|qs| - 1]);
    }
  }

  /** A 0 parameter resets: what came before it no longer matters. */
  lemma ResetForgets(a: Attributes, ps: seq<int>, qs: seq<int>)
    ensures SgrAll(a, ps + [0] + qs) == SgrAll(DEFAULT_ATTRIBUTES, qs)
  {
    SgrAllAppend(a, ps + [0], qs);
    assert (ps + [0])[..|ps + [0]| - 1] == ps;
  }

  /** Colors stay in 0..7 when they start there. */
  lemma {:induction false} ColorsInRange(a: Attributes, ps: seq<int>)
    requires 0 <= a.foreground < 8 && 0 <= a.background < 8
    ensures 0 <= SgrAll(a, ps).foreground < 8 && 0 <= SgrAll(a, ps).background < 8
    decreases |ps|
  {
    if ps != [] {
      ColorsInRange(a, ps[..|ps| - 1]);
    }
  }

  // ---------------------------------------------------------------------
  // Cursor movement

  /** How far CUU, CUD, CUF and CUB move: 1 without a parameter, the parameter with one, 0 with more. */
  function Distance(ps: seq<int>): int
  {
    if |ps| == 0 then 1 else if |ps| == 1 then ps[0] else 0
  }

  /** tab: the next multiple of 4 after x. */
  function NextTabStop(x: nat): (r: nat)
    ensures r % 4 == 0 && x < r <= x + 4
  {
    x + 4 - x % 4
  }

  /** Where CUP puts the cursor before clamping: row and column are 1-based, counted from the page mark. */
  function CupTarget(ps: seq<int>, x: int, y: int, pageMark: int): (int, int)
  {
    if |ps| == 0 then (0, pageMark)
    else if |ps| == 1 then (0, pageMark + ps[0] - 1)
    else if |ps| == 2 then (ps[1] - 1, pageMark + ps[0] - 1)
    else (x, y)
  }

  class EmulationParser {
    const columns: int
    var cursorX: int
    var cursorY: int
    /** The largest y the cursor has had. */
    var maxLine: int
    var attributes: Attributes
    /** The cursor's y after the last clear page; the cursor never moves above it. */
    var pageMark: int
    var markX: int
    var markY: int

    /** The cursor sits at or below the page mark, at or above maxLine, never left of column 0; so does the saved position. */
    ghost predicate Valid()
      reads this
    {
      columns >= 1 && 0 <= cursorX && pageMark <= cursorY <= maxLine && 0 <= markX && markY <= maxLine
    }

    /** The constructor: the cursor on a new row at the bottom of the buffer. */
    constructor (columns: int, bottom: int)
      requires columns >= 1
      ensures Valid() && this.columns == columns && attributes == DEFAULT_ATTRIBUTES
      ensures cursorX == 0 && cursorY == bottom && maxLine == bottom && pageMark == bottom
      ensures markX == 0 && markY == bottom
    {
      this.columns := columns;
      cursorX, cursorY := 0, bottom;
      maxLine := bottom;
      attributes := DEFAULT_ATTRIBUTES;
      pageMark := bottom;
      markX, markY := 0, bottom;
    }

    /** reset: the cursor back on a new row at the bottom of the buffer. */
    method Reset(bottom: int)
      requires Valid()
      modifies this`cursorX, this`cursorY, this`maxLine, this`pageMark, this`markX, this`markY
      ensures Valid()
      ensures cursorX == 0 && cursorY == bottom && maxLine == bottom && pageMark == bottom
      ensures markX == 0 && markY == bottom
    {
      cursorX, cursorY := 0, bottom;
      maxLine := bottom;
      pageMark := bottom;
      markX, markY := 0, bottom;
    }

    /** literalText: the cursor advances by the text's length, to the next row when it reaches the last column exactly. */
    method LiteralText(len: nat)
      requires Valid()
      modifies this`cursorX, this`cursorY, this`maxLine
      ensures Valid()
      ensures old(cursorX) + len == columns ==> cursorX == 0 && cursorY == old(cursorY) + 1
      ensures old(cursorX) + len != columns ==> cursorX == old(cursorX) + len && cursorY == old(cursorY)
      ensures maxLine == Max(old(maxLine), cursorY)
    {
      cursorX := cursorX + len;
      if cursorX == columns {
        cursorX := 0;
        cursorY := cursorY + 1;
        if cursorY > maxLine {
          maxLine := maxLine + 1;
        }
      }
    }

    /** setAttributes (SGR): the parameters applied in order. */
    method SetAttributes(t: string) returns (r: Result<()>)
      requires Valid()
      modifies this`attributes
      ensures Valid()
      ensures r.Err? <==> Params(t).Err?
      ensures r.Err? ==> r.error == NumberFormat && attributes == old(attributes)
      ensures r.Ok? ==> attributes == SgrAll(old(attributes), Params(t).value)
    {
      var ps := ExtractParams(t);
      if ps.Err? {
        return Err(ps.error);
      }
      var params := ps.value;
      var i := 0;
      while i < |params|
        invariant 0 <= i <= |params|
        invariant attributes == SgrAll(old(attributes), params[..i])
      {
        assert params[..i + 1][..i] == params[..i];
        attributes := Sgr(attributes, params[i]);
        i := i + 1;
      }
      assert params[..i] == params;
      return Ok(());
    }

    /** cursorUp (CUU): up by the distance, but never above the page mark. */
    method CursorUp(t: string) returns (r: Result<()>)
      requires Valid()
      modifies this`cursorY
      ensures Valid()
      ensures r.Err? <==> Params(t).Err?
      ensures r.Err? ==> r.error == NumberFormat && cursorY == old(cursorY)
      ensures r.Ok? ==> cursorY == Max(pageMark, old(cursorY) - Distance(Params(t).value)) && cursorY <= old(cursorY)
    {
      var ps := ExtractParams(t);
      if ps.Err? {
        return Err(ps.error);
      }
      var params := ps.value;
      if |params| == 0 {
        cursorY := cursorY - 1;
      } else if |params| == 1 {
        cursorY := cursorY - params[0];
      }
      if cursorY < pageMark {
        cursorY := pageMark;
      }
      return Ok(());
    }

    /** cursorDown (CUD): down by the distance; maxLine follows the cursor. */
    method CursorDown(t: string) returns (r: Result<()>)
      requires Valid()
      modifies this`cursorY, this`maxLine
      ensures Valid()
      ensures r.Err? <==> Params(t).Err?
      ensures r.Err? ==> r.error == NumberFormat && cursorY == old(cursorY) && maxLine == old(maxLine)
      ensures r.Ok? ==> cursorY == old(cursorY) + Distance(Params(t).value) && cursorY >= old(cursorY)
      ensures maxLine == Max(old(maxLine), cursorY)
    {
      var ps := ExtractParams(t);
      if ps.Err? {
        return Err(ps.error);
      }
      var params := ps.value;
      if |params| == 0 {
        cursorY := cursorY + 1;
      } else if |params| == 1 {
        cursorY := cursorY + params[0];
      }
      if cursorY > maxLine {
        maxLine := cursorY;
      }
      return Ok(());
    }

    /** cursorLeft (CUB): left by the distance, stopping at column 0. */
    method CursorLeft(t: string) returns (r: Result<()>)
      requires Valid()
      modifies this`cursorX
      ensures Valid()
      ensures r.Err? <==> Params(t).Err?
      ensures r.Err? ==> r.error == NumberFormat && cursorX == old(cursorX)
      ensures r.Ok? ==> cursorX == Max(0, old(cursorX) - Distance(Params(t).value)) && cursorX <= old(cursorX)
    {
      var ps := ExtractParams(t);
      if ps.Err? {
        return Err(ps.error);
      }
      var params := ps.value;
      if |params| == 0 {
        cursorX := cursorX - 1;
      } else if |params| == 1 {
        cursorX := cursorX - params[0];
      }
      if cursorX < 0 {
        cursorX := 0;
      }
      return Ok(());
    }

    /** cursorRight (CUF): right by the distance, stopping at the last column. */
    method CursorRight(t: string) returns (r: Result<()>)
      requires Valid()
      modifies this`cursorX
      ensures Valid()
      ensures r.Err? <==> Params(t).Err?
      ensures r.Err? ==> r.error == NumberFormat && cursorX == old(cursorX)
      ensures r.Ok? ==> cursorX == Min(old(cursorX) + Distance(Params(t).value), columns - 1) && cursorX <= columns - 1
    {
      var ps := ExtractParams(t);
      if ps.Err? {
        return Err(ps.error);
      }
      var params := ps.value;
      if |params| == 0 {
        cursorX := cursorX + 1;
      } else if |params| == 1 {
        cursorX := cursorX + params[0];
      }
      if cursorX >= columns {
        cursorX := columns - 1;
      }
      return Ok(());
    }

    /**
     * cursorPosition (CUP): row and column counted from 1, rows from the page
     * mark, then clamped into the columns and below the page mark.
     */
    method CursorPosition(t: string) returns (r: Result<()>)
      requires Valid()
      modifies this`cursorX, this`cursorY, this`maxLine
      ensures Valid()
      ensures r.Err? <==> Params(t).Err?
      ensures r.Err? ==> r.error == NumberFormat && cursorX == old(cursorX) && cursorY == old(cursorY) && maxLine == old(maxLine)
      ensures r.Ok? ==> (
        var (x, y) := CupTarget(Params(t).value, old(cursorX), old(cursorY), pageMark);
        cursorX == Max(0, Min(x, columns - 1)) && cursorY == Max(pageMark, y) && maxLine == Max(old(maxLine), cursorY))
      ensures r.Ok? && |Params(t).value| == 2 && 1 <= Params(t).value[0] && 1 <= Params(t).value[1] <= columns ==>
        cursorX == Params(t).value[1] - 1 && cursorY == pageMark + Params(t).value[0] - 1
    {
      var ps := ExtractParams(t);
      if ps.Err? {
        return Err(ps.error);
      }
      var params := ps.value;
      if |params| == 0 {
        cursorX, cursorY := 0, pageMark;
      } else if |params| == 1 {
        cursorX, cursorY := 0, pageMark + params[0] - 1;
      } else if |params| == 2 {
        cursorX, cursorY := params[1] - 1, pageMark + params[0] - 1;
      }
      if cursorX < 0 {
        cursorX := 0;
      }
      if cursorX >= columns {
        cursorX := columns - 1;
      }
      if cursorY < pageMark {
        cursorY := pageMark;
      }
      if cursorY > maxLine {
        maxLine := cursorY;
      }
      return Ok(());
    }

    /** saveCursor. */
    method SaveCursor()
      requires Valid()
      modifies this`markX, this`markY
      ensures Valid() && markX == cursorX && markY == cursorY
    {
      markX, markY := cursorX, cursorY;
    }

    /** restoreCursor: ignored when the saved position lies above the page mark. */
    method RestoreCursor()
      requires Valid()
      modifies this`cursorX, this`cursorY
      ensures Valid()
      ensures markY < pageMark ==> cursorX == old(cursorX) && cursorY == old(cursorY)
      ensures markY >= pageMark ==> cursorX == markX && cursorY == markY
    {
      if markY < pageMark {
        return;
      }
      cursorX, cursorY := markX, markY;
    }

    /** carriageReturn. */
    method CarriageReturn()
      requires Valid()
      modifies this`cursorX
      ensures Valid() && cursorX == 0
    {
      cursorX := 0;
    }

    /** lineFeed: one row down; maxLine follows. */
    method LineFeed()
      requires Valid()
      modifies this`cursorY, this`maxLine
      ensures Valid()
      ensures cursorY == old(cursorY) + 1 && maxLine == Max(old(maxLine), cursorY)
    {
      cursorY := cursorY + 1;
      if cursorY > maxLine {
        maxLine := maxLine + 1;
      }
    }

    /** tab: to the next multiple of 4, stopping at the last column. */
    method Tab()
      requires Valid()
      modifies this`cursorX
      ensures Valid()
      ensures cursorX == Min(NextTabStop(old(cursorX)), columns - 1) && cursorX <= columns - 1
    {
      cursorX := cursorX + 4 - cursorX % 4;
      if cursorX >= columns {
        cursorX := columns - 1;
      }
    }

    /** backspace: one column left, stopping at column 0. */
    method Backspace()
      requires Valid()
      modifies this`cursorX
      ensures Valid()
      ensures cursorX == Max(0, old(cursorX) - 1)
    {
      cursorX := cursorX - 1;
      if cursorX < 0 {
        cursorX := 0;
      }
    }

    /**
     * clearLine: the buffer from the cursor to the end of the row is blanked;
     * a cursor past the last column makes the array size negative.
     */
    method ClearLine() returns (r: Result<()>)
      requires Valid()
      ensures r.Err? <==> cursorX > columns
      ensures r.Err? ==> r.error == NegativeArraySize
    {
      if columns - cursorX < 0 {
        return Err(NegativeArraySize);
      }
      return Ok(());
    }

    /** clearScreen: a new page starts on a new row, where the cursor goes. */
    method ClearScreen()
      requires Valid()
      modifies this`cursorX, this`cursorY, this`maxLine, this`pageMark
      ensures Valid()
      ensures maxLine == old(maxLine) + 1 && pageMark == maxLine && cursorX == 0 && cursorY == maxLine
    {
      maxLine := maxLine + 1;
      pageMark := maxLine;
      cursorX, cursorY := 0, maxLine;
    }
  }
}
