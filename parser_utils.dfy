/**
 * The text scanners the reconciler uses to pull values out of raw game
 * output: escape-aware integer and printable-run extraction, ANSI and
 * backspace stripping, and thousands parsing.
 *
 * Each scanner is a character loop (a method here, as in the source); what it
 * computes is given by a recursive specification function over the scanned
 * span, one character per step, and the properties the source promises are
 * proved about those functions.
 */
module ParserUtils {
  import opened Wrappers
  import opened JavaInt

  const ESC: char := '\U{1B}'
  const BACKSPACE: char := '\U{8}'

  /** The printable range the run finders accept: 32..125. */
  predicate IsPrintable(c: char) { 31 < c as int < 126 }

  // ---------------------------------------------------------------------
  // parseThousands

  /** The input with every ',' removed. */
  function RemoveCommas(s: string): (r: string)
    ensures forall k :: 0 <= k < |r| ==> r[k] != ','
    ensures |r| <= |s|
  {
    if s == [] then [] else (if s[0] == ',' then [] else [s[0]]) + RemoveCommas(s[1..])
  }

  lemma {:induction false} RemoveCommasAppend(s: string, c: char)
    ensures RemoveCommas(s + [c]) == RemoveCommas(s) + (if c == ',' then [] else [c])
  {
    if s != [] {
      assert (s + [c])[1..] == s[1..] + [c];
      RemoveCommasAppend(s[1..], c);
    }
  }

  /** A string without commas is left as it is. */
  lemma {:induction false} RemoveCommasNoComma(s: string)
    requires forall k :: 0 <= k < |s| ==> s[k] != ','
    ensures RemoveCommas(s) == s
  {
    if s != [] {
      RemoveCommasNoComma(s[1..]);
    }
  }

  /** parseThousands: Integer.parseInt of the input with its commas dropped. */
  method ParseThousands(thousands: string) returns (r: Result<int>)
    ensures r == ParseIntResult(RemoveCommas(thousands))
  {
    var sb := "";
    var i := 0;
    while i < |thousands|
      invariant 0 <= i <= |thousands|
      invariant sb == RemoveCommas(thousands[..i])
    {
      if thousands[i] != ',' {
        sb := sb + [thousands[i]];
      }
      RemoveCommasAppend(thousands[..i], thousands[i]);
      assert thousands[..i + 1] == thousands[..i] + [thousands[i]];
      i := i + 1;
    }
    assert thousands[..i] == thousands;
    r := ParseIntResult(sb);
  }

  lemma ParseThousandsExample()
    ensures ParseIntResult(RemoveCommas("5,000")) == Ok(5000)
  {
    assert RemoveCommas("5,000") == "5000";
    assert "50"[..1] == "5";
    assert "500"[..2] == "50";
    assert "5000"[..3] == "500";
    assert DigitsValue("5000") == 5000;
  }

  // ---------------------------------------------------------------------
  // findInteger / findIntegers

  /** Where the integer scanner stands between two characters. */
  datatype NumScan = Outside | InEscape | InNumber(text: string)

  /** '-' when the character just before position i, inside the span, is '-'. */
  function SignAt(t: string, i: nat): string
    requires i < |t|
  {
    if i > 0 && t[i - 1] == '-' then "-" else ""
  }

  /**
   * findIntegers' specification: the texts of all number runs from position i
   * on, in order. A run starts at a digit outside an escape sequence (ESC up to
   * the next letter), carries a '-' when the character before it is '-', goes
   * on over digits and commas (the commas are dropped) and ends at any other
   * character; an ESC that ends a run opens an escape.
   */
  function NumberRuns(t: string, i: nat, st: NumScan): seq<string>
    requires i <= |t|
    decreases |t| - i
  {
    if i == |t| then (if st.InNumber? then [st.text] else [])
    else
      var c := t[i];
      match st
      case InNumber(text) =>
        if IsDigit(c) then NumberRuns(t, i + 1, InNumber(text + [c]))
        else if c == ',' then NumberRuns(t, i + 1, st)
        else [text] + NumberRuns(t, i + 1, if c == ESC then InEscape else Outside)
      case InEscape =>
        NumberRuns(t, i + 1, if IsLetter(c) then Outside else InEscape)
      case Outside =>
        if c == ESC then NumberRuns(t, i + 1, InEscape)
        else if IsDigit(c) then NumberRuns(t, i + 1, InNumber(SignAt(t, i) + [c]))
        else NumberRuns(t, i + 1, Outside)
  }

  /**
   * findInteger's specification: the text of the first number run, found by
   * the same scan stopped at the first character that ends a run.
   */
  function FirstNumber(t: string, i: nat, st: NumScan): Option<string>
    requires i <= |t|
    decreases |t| - i
  {
    if i == |t| then (if st.InNumber? then Some(st.text) else None)
    else
      var c := t[i];
      match st
      case InNumber(text) =>
        if IsDigit(c) then FirstNumber(t, i + 1, InNumber(text + [c]))
        else if c == ',' then FirstNumber(t, i + 1, st)
        else Some(text)
      case InEscape =>
        FirstNumber(t, i + 1, if IsLetter(c) then Outside else InEscape)
      case Outside =>
        if c == ESC then FirstNumber(t, i + 1, InEscape)
        else if IsDigit(c) then FirstNumber(t, i + 1, InNumber(SignAt(t, i) + [c]))
        else FirstNumber(t, i + 1, Outside)
  }

  /** Text the scanner can hand to Integer.parseInt: digits, optionally after a '-'. */
  predicate IsNumberText(r: string)
  {
    IsDigits(r) || (|r| > 1 && r[0] == '-' && IsDigits(r[1..]))
  }

  /** Parses every run, failing as a whole when any one of them does not parse. */
  function ParseAll(rs: seq<string>): (r: Result<seq<int>>)
    ensures r.Ok? <==> forall k :: 0 <= k < |rs| ==> ParseInt(rs[k]).Some?
    ensures r.Ok? ==> |r.value| == |rs| && forall k :: 0 <= k < |rs| ==> ParseInt(rs[k]) == Some(r.value[k])
    ensures r.Err? ==> r.error == NumberFormat
  {
    if rs == [] then Ok([])
    else match ParseInt(rs[0])
      case None => Err(NumberFormat)
      case Some(v) =>
        match ParseAll(rs[1..])
        case Ok(vs) => Ok([v] + vs)
        case Err(e) => Err(e)
  }

  function FindIntegerSpec(t: string): Result<int>
  {
    match FirstNumber(t, 0, Outside)
    case None => Err(IllegalArgument)
    case Some(text) => ParseIntResult(text)
  }

  function FindIntegersSpec(t: string): Result<seq<int>>
  {
    ParseAll(NumberRuns(t, 0, Outside))
  }

  /** The first run findIntegers collects is the one findInteger stops at. */
  lemma {:induction false} FirstNumberIsFirstRun(t: string, i: nat, st: NumScan)
    requires i <= |t|
    ensures FirstNumber(t, i, st) == if NumberRuns(t, i, st) == [] then None else Some(NumberRuns(t, i, st)[0])
    decreases |t| - i
  {
    if i < |t| {
      var c := t[i];
      match st
      case InNumber(text) =>
        if IsDigit(c) {
          FirstNumberIsFirstRun(t, i + 1, InNumber(text + [c]));
        } else if c == ',' {
          FirstNumberIsFirstRun(t, i + 1, st);
        }
      case InEscape =>
        FirstNumberIsFirstRun(t, i + 1, if IsLetter(c) then Outside else InEscape);
      case Outside =>
        if c == ESC {
          FirstNumberIsFirstRun(t, i + 1, InEscape);
        } else if IsDigit(c) {
          FirstNumberIsFirstRun(t, i + 1, InNumber(SignAt(t, i) + [c]));
        } else {
          FirstNumberIsFirstRun(t, i + 1, Outside);
        }
    }
  }

  /**
   * Where each run of NumberRuns begins: the position of its first digit.
   * `start` is that position for the run under way when st is InNumber.
   */
  ghost function RunStarts(t: string, i: nat, st: NumScan, start: nat): seq<nat>
    requires i <= |t|
    decreases |t| - i
  {
    if i == |t| then (if st.InNumber? then [start] else [])
    else
      var c := t[i];
      match st
      case InNumber(text) =>
        if IsDigit(c) then RunStarts(t, i + 1, InNumber(text + [c]), start)
        else if c == ',' then RunStarts(t, i + 1, st, start)
        else [start] + RunStarts(t, i + 1, if c == ESC then InEscape else Outside, start)
      case InEscape =>
        RunStarts(t, i + 1, if IsLetter(c) then Outside else InEscape, start)
      case Outside =>
        if c == ESC then RunStarts(t, i + 1, InEscape, start)
        else if IsDigit(c) then RunStarts(t, i + 1, InNumber(SignAt(t, i) + [c]), i)
        else RunStarts(t, i + 1, Outside, start)
  }

  /** A run that begins with the digit at p: signed exactly when the character before p is '-'. */
  predicate RunAt(t: string, r: string, p: nat)
  {
    p < |t| && IsDigit(t[p]) && IsNumberText(r) &&
    (r[0] == '-' <==> p > 0 && t[p - 1] == '-') &&
    r[if r[0] == '-' then 1 else 0] == t[p]
  }

  /**
   * Every run is digits with an optional leading '-', begins at a digit of the
   * span, and has the '-' exactly when the character before that digit is '-'.
   */
  lemma {:induction false} RunsAreNumberTexts(t: string, i: nat, st: NumScan, start: nat)
    requires i <= |t|
    requires st.InNumber? ==> start < i && RunAt(t, st.text, start)
    ensures |RunStarts(t, i, st, start)| == |NumberRuns(t, i, st)|
    ensures forall k :: 0 <= k < |NumberRuns(t, i, st)| ==> RunAt(t, NumberRuns(t, i, st)[k], RunStarts(t, i, st, start)[k])
    decreases |t| - i
  {
    if i < |t| {
      var c := t[i];
      match st
      case InNumber(text) =>
        if IsDigit(c) {
          var next := text + [c];
          assert text[0] == '-' ==> next[1..] == text[1..] + [c];
          RunsAreNumberTexts(t, i + 1, InNumber(next), start);
        } else if c == ',' {
          RunsAreNumberTexts(t, i + 1, st, start);
        } else {
          var ns := if c == ESC then InEscape else Outside;
          RunsAreNumberTexts(t, i + 1, ns, start);
          RunsCons(t, i, text, start, ns, NumberRuns(t, i + 1, ns), RunStarts(t, i + 1, ns, start));
        }
      case InEscape =>
        RunsAreNumberTexts(t, i + 1, if IsLetter(c) then Outside else InEscape, start);
      case Outside =>
        if c == ESC {
          RunsAreNumberTexts(t, i + 1, InEscape, start);
        } else if IsDigit(c) {
          var next := SignAt(t, i) + [c];
          assert next[0] == '-' ==> next[1..] == [c];
          RunsAreNumberTexts(t, i + 1, InNumber(next), i);
        } else {
          RunsAreNumberTexts(t, i + 1, Outside, start);
        }
    }
  }

  /** A run ended at position i is followed by the runs after it, in both sequences. */
  lemma RunsCons(t: string, i: nat, text: string, start: nat, ns: NumScan, runs: seq<string>, starts: seq<nat>)
    requires i < |t| && !IsDigit(t[i]) && t[i] != ','
    requires ns == if t[i] == ESC then InEscape else Outside
    requires RunAt(t, text, start)
    requires runs == NumberRuns(t, i + 1, ns) && starts == RunStarts(t, i + 1, ns, start)
    requires |starts| == |runs| && forall k :: 0 <= k < |runs| ==> RunAt(t, runs[k], starts[k])
    ensures |RunStarts(t, i, InNumber(text), start)| == |NumberRuns(t, i, InNumber(text))|
    ensures forall k :: 0 <= k < |NumberRuns(t, i, InNumber(text))| ==>
      RunAt(t, NumberRuns(t, i, InNumber(text))[k], RunStarts(t, i, InNumber(text), start)[k])
  {
    assert NumberRuns(t, i, InNumber(text)) == [text] + runs;
    assert RunStarts(t, i, InNumber(text), start) == [start] + starts;
    forall k | 1 <= k < |runs| + 1
      ensures RunAt(t, ([text] + runs)[k], ([start] + starts)[k])
    {
      assert ([text] + runs)[k] == runs[k - 1];
      assert ([start] + starts)[k] == starts[k - 1];
    }
  }

  /** A number text fails to parse only when its value does not fit in 32 bits. */
  lemma NumberTextParses(r: string)
    requires IsNumberText(r)
    ensures ParseInt(r).None? <==> !IsInt32(if r[0] == '-' then 0 - DigitsValue(r[1..]) else DigitsValue(r))
  {
    if r[0] == '-' {
      assert !IsDigit(r[0]);
    } else {
      assert IsDigit(r[0]);
    }
  }

  /** Without a digit in the span there is no run, so findInteger throws. */
  lemma {:induction false} NoDigitNoRuns(t: string, i: nat, st: NumScan)
    requires i <= |t|
    requires !st.InNumber?
    requires forall k :: i <= k < |t| ==> !IsDigit(t[k])
    ensures NumberRuns(t, i, st) == []
    decreases |t| - i
  {
    if i < |t| {
      match st
      case InEscape => NoDigitNoRuns(t, i + 1, if IsLetter(t[i]) then Outside else InEscape);
      case Outside => NoDigitNoRuns(t, i + 1, if t[i] == ESC then InEscape else Outside);
    }
  }

  /** When findIntegers finds something, its first value is findInteger's result. */
  lemma FindIntegersHeadIsFindInteger(t: string)
    requires FindIntegersSpec(t).Ok?
    ensures FindIntegersSpec(t).value == [] <==> FindIntegerSpec(t) == Err(IllegalArgument)
    ensures FindIntegersSpec(t).value != [] ==> FindIntegerSpec(t) == Ok(FindIntegersSpec(t).value[0])
  {
    FirstNumberIsFirstRun(t, 0, Outside);
  }

  lemma FindIntegerNoDigit(t: string)
    requires forall k :: 0 <= k < |t| ==> !IsDigit(t[k])
    ensures FindIntegerSpec(t) == Err(IllegalArgument)
    ensures FindIntegersSpec(t) == Ok([])
  {
    NoDigitNoRuns(t, 0, Outside);
    FirstNumberIsFirstRun(t, 0, Outside);
  }

  function NumState(inEsc: bool, inNum: bool, sb: string): NumScan
  {
    if inNum then InNumber(sb) else if inEsc then InEscape else Outside
  }

  /** findInteger(seq, off, len): the first number outside escapes in the span. */
  method FindInteger(s: string, off: nat, len: nat) returns (r: Result<int>)
    requires off + len <= |s|
    ensures r == FindIntegerSpec(s[off..off + len])
  {
    ghost var t := s[off..off + len];
    var sb := "";
    var inEsc := false;
    var inNum := false;
    var i := off;
    while i < off + len
      invariant off <= i <= off + len
      invariant !inNum ==> sb == ""
      invariant FirstNumber(t, 0, Outside) == FirstNumber(t, i - off, NumState(inEsc, inNum, sb))
    {
      var c := s[i];
      assert c == t[i - off];
      if inNum {
        if IsDigit(c) {
          sb := sb + [c];
        } else if c == ',' {
        } else {
          assert FirstNumber(t, 0, Outside) == Some(sb);
          break;
        }
      } else if inEsc {
        if IsLetter(c) {
          inEsc := false;
        }
      } else if c == ESC {
        inEsc := true;
      } else if IsDigit(c) {
        if i > off && s[i - 1] == '-' {
          sb := sb + "-";
        }
        assert sb == SignAt(t, i - off);
        sb := sb + [c];
        inNum := true;
      }
      i := i + 1;
    }
    if !inNum {
      return Err(IllegalArgument);
    }
    r := ParseIntResult(sb);
  }

  /**
   * What findIntegers' loop keeps at position j of t: the runs finished so
   * far, each parsed, followed by the runs from j on.
   */
  ghost predicate Collected(t: string, j: nat, inEsc: bool, inNum: bool, sb: string, texts: seq<string>, values: seq<int>)
  {
    j <= |t| && (!inNum ==> sb == "") && !(inNum && inEsc) &&
    NumberRuns(t, 0, Outside) == texts + NumberRuns(t, j, NumState(inEsc, inNum, sb)) &&
    |values| == |texts| && forall k :: 0 <= k < |texts| ==> ParseInt(texts[k]) == Some(values[k])
  }

  /** findIntegers(seq, off, len): every number outside escapes in the span, in order. */
  method FindIntegers(s: string, off: nat, len: nat) returns (r: Result<seq<int>>)
    requires off + len <= |s|
    ensures r == FindIntegersSpec(s[off..off + len])
  {
    ghost var t := s[off..off + len];
    ghost var texts: seq<string> := [];
    var values: seq<int> := [];
    var sb := "";
    var inEsc := false;
    var inNum := false;
    var i := off;
    while i < off + len
      invariant off <= i <= off + len
      invariant Collected(t, i - off, inEsc, inNum, sb, texts, values)
    {
      var bad;
      bad, inEsc, inNum, sb, texts, values := CollectAt(s, off, len, i, inEsc, inNum, sb, texts, values);
      if bad {
        return Err(NumberFormat);
      }
      i := i + 1;
    }
    if inNum {
      var v := ParseInt(sb);
      if v.None? {
        assert ParseInt(NumberRuns(t, 0, Outside)[|texts|]).None?;
        assert !ParseAll(NumberRuns(t, 0, Outside)).Ok?;
        return Err(NumberFormat);
      }
      texts, values := texts + [sb], values + [v.value];
    }
    assert NumberRuns(t, 0, Outside) == texts;
    ghost var all := ParseAll(texts);
    assert all.Ok?;
    assert all.value == values;
    r := Ok(values);
  }

  /** The body of findIntegers' loop, on character i; `bad` when a finished run does not parse. */
  method CollectAt(s: string, off: nat, len: nat, i: nat, inEsc: bool, inNum: bool, sb: string,
                   ghost texts: seq<string>, values: seq<int>)
    returns (bad: bool, inEsc': bool, inNum': bool, sb': string, ghost texts': seq<string>, values': seq<int>)
    requires off <= i < off + len <= |s|
    requires Collected(s[off..off + len], i - off, inEsc, inNum, sb, texts, values)
    ensures bad ==> FindIntegersSpec(s[off..off + len]) == Err(NumberFormat)
    ensures !bad ==> Collected(s[off..off + len], i + 1 - off, inEsc', inNum', sb', texts', values')
  {
    ghost var t := s[off..off + len];
    bad, inEsc', inNum', sb', texts', values' := false, inEsc, inNum, sb, texts, values;
    var c := s[i];
    assert c == t[i - off];
    if inNum {
      if IsDigit(c) {
        sb' := sb + [c];
      } else if c == ',' {
      } else {
        var v := ParseInt(sb);
        if v.None? {
          assert ParseInt(NumberRuns(t, 0, Outside)[|texts|]).None?;
          assert !ParseAll(NumberRuns(t, 0, Outside)).Ok?;
          return true, inEsc, inNum, sb, texts, values;
        }
        ghost var next := if c == ESC then InEscape else Outside;
        assert NumberRuns(t, i - off, InNumber(sb)) == [sb] + NumberRuns(t, i - off + 1, next);
        assert texts + ([sb] + NumberRuns(t, i - off + 1, next)) == (texts + [sb]) + NumberRuns(t, i - off + 1, next);
        texts', values' := texts + [sb], values + [v.value];
        sb' := "";
        inNum' := false;
        inEsc' := c == ESC;
      }
    } else if inEsc {
      if IsLetter(c) {
        inEsc' := false;
      }
    } else if c == ESC {
      inEsc' := true;
    } else if IsDigit(c) {
      if i > off && s[i - 1] == '-' {
        sb' := sb + "-";
      }
      assert sb' == SignAt(t, i - off);
      sb' := sb' + [c];
      inNum' := true;
    }
  }

  // ---------------------------------------------------------------------
  // findPrintable / findPrintables

  /** Where the printable-run scanner stands between two characters. */
  datatype TextScan = Plain | Escaped | InRun(text: string)

  /**
   * findPrintables' specification: every maximal run of printable characters
   * (32..125) outside escape sequences, in order; an ESC that ends a run
   * opens an escape.
   */
  function PrintableRuns(t: string, i: nat, st: TextScan): seq<string>
    requires i <= |t|
    decreases |t| - i
  {
    if i == |t| then (if st.InRun? then [st.text] else [])
    else
      var c := t[i];
      match st
      case InRun(text) =>
        if IsPrintable(c) then PrintableRuns(t, i + 1, InRun(text + [c]))
        else [text] + PrintableRuns(t, i + 1, if c == ESC then Escaped else Plain)
      case Escaped =>
        PrintableRuns(t, i + 1, if IsLetter(c) then Plain else Escaped)
      case Plain =>
        if c == ESC then PrintableRuns(t, i + 1, Escaped)
        else if IsPrintable(c) then PrintableRuns(t, i + 1, InRun([c]))
        else PrintableRuns(t, i + 1, Plain)
  }

  /** findPrintable's specification: the same scan, stopped at the end of the first run. */
  function FirstPrintable(t: string, i: nat, st: TextScan): Option<string>
    requires i <= |t|
    decreases |t| - i
  {
    if i == |t| then (if st.InRun? then Some(st.text) else None)
    else
      var c := t[i];
      match st
      case InRun(text) =>
        if IsPrintable(c) then FirstPrintable(t, i + 1, InRun(text + [c]))
        else Some(text)
      case Escaped =>
        FirstPrintable(t, i + 1, if IsLetter(c) then Plain else Escaped)
      case Plain =>
        if c == ESC then FirstPrintable(t, i + 1, Escaped)
        else if IsPrintable(c) then FirstPrintable(t, i + 1, InRun([c]))
        else FirstPrintable(t, i + 1, Plain)
  }

  predicate IsPrintableRun(r: string)
  {
    |r| > 0 && forall k :: 0 <= k < |r| ==> IsPrintable(r[k])
  }

  /** Every run findPrintables returns is nonempty and printable. */
  lemma {:induction false} PrintableRunsWellFormed(t: string, i: nat, st: TextScan)
    requires i <= |t|
    requires st.InRun? ==> IsPrintableRun(st.text)
    ensures forall k :: 0 <= k < |PrintableRuns(t, i, st)| ==> IsPrintableRun(PrintableRuns(t, i, st)[k])
    decreases |t| - i
  {
    if i < |t| {
      var c := t[i];
      match st
      case InRun(text) =>
        if IsPrintable(c) {
          PrintableRunsWellFormed(t, i + 1, InRun(text + [c]));
        } else {
          PrintableRunsWellFormed(t, i + 1, if c == ESC then Escaped else Plain);
        }
      case Escaped =>
        PrintableRunsWellFormed(t, i + 1, if IsLetter(c) then Plain else Escaped);
      case Plain =>
        if c == ESC {
          PrintableRunsWellFormed(t, i + 1, Escaped);
        } else if IsPrintable(c) {
          PrintableRunsWellFormed(t, i + 1, InRun([c]));
        } else {
          PrintableRunsWellFormed(t, i + 1, Plain);
        }
    }
  }

  /** findPrintable returns the first run findPrintables returns, and fails exactly when there is none. */
  lemma {:induction false} FirstPrintableIsFirstRun(t: string, i: nat, st: TextScan)
    requires i <= |t|
    ensures FirstPrintable(t, i, st) == if PrintableRuns(t, i, st) == [] then None else Some(PrintableRuns(t, i, st)[0])
    decreases |t| - i
  {
    if i < |t| {
      var c := t[i];
      match st
      case InRun(text) =>
        if IsPrintable(c) {
          FirstPrintableIsFirstRun(t, i + 1, InRun(text + [c]));
        }
      case Escaped =>
        FirstPrintableIsFirstRun(t, i + 1, if IsLetter(c) then Plain else Escaped);
      case Plain =>
        if c == ESC {
          FirstPrintableIsFirstRun(t, i + 1, Escaped);
        } else if IsPrintable(c) {
          FirstPrintableIsFirstRun(t, i + 1, InRun([c]));
        } else {
          FirstPrintableIsFirstRun(t, i + 1, Plain);
        }
    }
  }

  function FindPrintableSpec(t: string): Result<string>
  {
    match FirstPrintable(t, 0, Plain)
    case None => Err(IllegalArgument)
    case Some(text) => Ok(text)
  }

  function TextState(inEsc: bool, inRun: bool, sb: string): TextScan
  {
    if inRun then InRun(sb) else if inEsc then Escaped else Plain
  }

  /**
   * findPrintable(seq, off, len): the first run of printable characters
   * outside escapes. (The source also tests for ',' after a character fails
   * the printable test; ',' is printable, so that test never holds and is
   * left out.)
   */
  method FindPrintable(s: string, off: nat, len: nat) returns (r: Result<string>)
    requires off + len <= |s|
    ensures r == FindPrintableSpec(s[off..off + len])
    ensures r.Ok? ==> IsPrintableRun(r.value)
  {
    ghost var t := s[off..off + len];
    var sb := "";
    var inEsc := false;
    var inRun := false;
    var i := off;
    while i < off + len
      invariant off <= i <= off + len
      invariant inRun ==> IsPrintableRun(sb)
      invariant FirstPrintable(t, 0, Plain) == FirstPrintable(t, i - off, TextState(inEsc, inRun, sb))
    {
      var c := s[i];
      assert c == t[i - off];
      if inRun {
        if IsPrintable(c) {
          sb := sb + [c];
        } else {
          assert FirstPrintable(t, 0, Plain) == Some(sb);
          break;
        }
      } else if inEsc {
        if IsLetter(c) {
          inEsc := false;
        }
      } else if c == ESC {
        inEsc := true;
      } else if IsPrintable(c) {
        sb := [c];
        inRun := true;
      }
      i := i + 1;
    }
    if !inRun {
      return Err(IllegalArgument);
    }
    r := Ok(sb);
  }

  /** findPrintables(seq, off, len): every printable run outside escapes, in order. */
  method FindPrintables(s: string, off: nat, len: nat) returns (values: seq<string>)
    requires off + len <= |s|
    ensures values == PrintableRuns(s[off..off + len], 0, Plain)
  {
    ghost var t := s[off..off + len];
    values := [];
    var sb := "";
    var inEsc := false;
    var inRun := false;
    var i := off;
    while i < off + len
      invariant off <= i <= off + len
      invariant !(inRun && inEsc)
      invariant PrintableRuns(t, 0, Plain) == values + PrintableRuns(t, i - off, TextState(inEsc, inRun, sb))
    {
      var c := s[i];
      assert c == t[i - off];
      if inRun {
        if IsPrintable(c) {
          sb := sb + [c];
        } else {
          assert PrintableRuns(t, i - off, InRun(sb)) == [sb] + PrintableRuns(t, i - off + 1, if c == ESC then Escaped else Plain);
          assert values + ([sb] + PrintableRuns(t, i - off + 1, if c == ESC then Escaped else Plain))
              == (values + [sb]) + PrintableRuns(t, i - off + 1, if c == ESC then Escaped else Plain);
          values := values + [sb];
          sb := "";
          inRun := false;
          if c == ESC {
            inEsc := true;
          }
        }
      } else if inEsc {
        if IsLetter(c) {
          inEsc := false;
        }
      } else if c == ESC {
        inEsc := true;
      } else if IsPrintable(c) {
        sb := [c];
        inRun := true;
      }
      i := i + 1;
    }
    if inRun {
      values := values + [sb];
    }
  }

  // ---------------------------------------------------------------------
  // stripANSI

  /** stripANSI's specification: drop ESC and everything up to and including the next letter. */
  function StripFrom(s: string, inAnsi: bool): string
  {
    if s == [] then []
    else if inAnsi then StripFrom(s[1..], !IsLetter(s[0]))
    else if s[0] == ESC then StripFrom(s[1..], true)
    else [s[0]] + StripFrom(s[1..], false)
  }

  /** The stripped text contains no ESC. */
  lemma {:induction false} StripHasNoEscape(s: string, inAnsi: bool)
    ensures forall k :: 0 <= k < |StripFrom(s, inAnsi)| ==> StripFrom(s, inAnsi)[k] != ESC
  {
    if s != [] {
      if inAnsi {
        StripHasNoEscape(s[1..], !IsLetter(s[0]));
      } else if s[0] == ESC {
        StripHasNoEscape(s[1..], true);
      } else {
        StripHasNoEscape(s[1..], false);
      }
    }
  }

  /** Text without escape sequences passes through unchanged; so stripping twice is stripping once. */
  lemma {:induction false} StripWithoutEscape(s: string)
    requires forall k :: 0 <= k < |s| ==> s[k] != ESC
    ensures StripFrom(s, false) == s
  {
    if s != [] {
      StripWithoutEscape(s[1..]);
    }
  }

  lemma StripIdempotent(s: string)
    ensures StripFrom(StripFrom(s, false), false) == StripFrom(s, false)
  {
    StripHasNoEscape(s, false);
    StripWithoutEscape(StripFrom(s, false));
  }

  lemma {:induction false} StripAppend(s: string, c: char, inAnsi: bool)
    ensures StripFrom(s + [c], inAnsi) == StripFrom(s, inAnsi) + StripFrom([c], StripEndState(s, inAnsi))
  {
    if s != [] {
      assert (s + [c])[1..] == s[1..] + [c];
      if inAnsi {
        StripAppend(s[1..], c, !IsLetter(s[0]));
      } else if s[0] == ESC {
        StripAppend(s[1..], c, true);
      } else {
        StripAppend(s[1..], c, false);
      }
    }
  }

  /** Whether the stripper is inside an escape after reading s. */
  function StripEndState(s: string, inAnsi: bool): bool
  {
    if s == [] then inAnsi
    else if inAnsi then StripEndState(s[1..], !IsLetter(s[0]))
    else StripEndState(s[1..], s[0] == ESC)
  }

  lemma {:induction false} StripEndStateAppend(s: string, c: char, inAnsi: bool)
    ensures StripEndState(s + [c], inAnsi) == StripEndState([c], StripEndState(s, inAnsi))
  {
    if s != [] {
      assert (s + [c])[1..] == s[1..] + [c];
      if inAnsi {
        StripEndStateAppend(s[1..], c, !IsLetter(s[0]));
      } else {
        StripEndStateAppend(s[1..], c, s[0] == ESC);
      }
    }
  }

  /** stripANSI(input): the input without its ANSI escape sequences. */
  method StripAnsi(input: string) returns (r: string)
    ensures r == StripFrom(input, false)
  {
    var sb := "";
    var inAnsi := false;
    var i := 0;
    while i < |input|
      invariant 0 <= i <= |input|
      invariant sb == StripFrom(input[..i], false)
      invariant inAnsi == StripEndState(input[..i], false)
    {
      var c := input[i];
      assert input[..i + 1] == input[..i] + [c];
      StripAppend(input[..i], c, false);
      StripEndStateAppend(input[..i], c, false);
      if inAnsi {
        if IsLetter(c) {
          inAnsi := false;
        }
      } else {
        if c == ESC {
          inAnsi := true;
        } else {
          sb := sb + [c];
        }
      }
      i := i + 1;
    }
    assert input[..i] == input;
    r := sb;
  }

  // ---------------------------------------------------------------------
  // stripBackspaces

  /**
   * stripBackspaces' specification, from position i on with `acc` kept so far:
   * a backspace deletes the last kept character and the two characters after
   * it are skipped (the game echoes backspace, space, backspace); a backspace
   * with nothing kept before it is the StringBuilder.setLength(-1) failure.
   */
  function Unbackspace(s: string, i: nat, acc: string): Result<string>
    decreases |s| - i
  {
    if i >= |s| then Ok(acc)
    else if s[i] == BACKSPACE then
      if acc == [] then Err(IndexOutOfBounds)
      else Unbackspace(s, i + 3, acc[..|acc| - 1])
    else Unbackspace(s, i + 1, acc + [s[i]])
  }

  lemma StripBackspacesExample()
    ensures Unbackspace("ABCXX\U{8} \U{8}\U{8} \U{8}D", 0, "") == Ok("ABCD")
    ensures Unbackspace("\U{8}", 0, "") == Err(IndexOutOfBounds)
  {
    var s := "ABCXX\U{8} \U{8}\U{8} \U{8}D";
    assert "ABC" + [s[11]] == "ABCD";
    assert Unbackspace(s, 11, "ABC") == Ok("ABCD");
    assert "ABCX"[..3] == "ABC";
    assert Unbackspace(s, 8, "ABCX") == Ok("ABCD");
    assert "ABCXX"[..4] == "ABCX";
    assert Unbackspace(s, 5, "ABCXX") == Ok("ABCD");
    assert "ABCX" + [s[4]] == "ABCXX";
    assert Unbackspace(s, 4, "ABCX") == Ok("ABCD");
    assert "ABC" + [s[3]] == "ABCX";
    assert Unbackspace(s, 3, "ABC") == Ok("ABCD");
    assert "AB" + [s[2]] == "ABC";
    assert Unbackspace(s, 2, "AB") == Ok("ABCD");
    assert "A" + [s[1]] == "AB";
    assert Unbackspace(s, 1, "A") == Ok("ABCD");
    assert "" + [s[0]] == "A";
  }

  /** Input without backspaces comes back unchanged. */
  lemma {:induction false} UnbackspaceNoBackspace(s: string, i: nat, acc: string)
    requires i <= |s|
    requires forall k :: i <= k < |s| ==> s[k] != BACKSPACE
    ensures Unbackspace(s, i, acc) == Ok(acc + s[i..])
    decreases |s| - i
  {
    if i < |s| {
      UnbackspaceNoBackspace(s, i + 1, acc + [s[i]]);
      assert acc + [s[i]] + s[i + 1..] == acc + s[i..];
    } else {
      assert acc + s[i..] == acc;
    }
  }

  /** stripBackspaces(input): the input as the game interprets it. */
  method StripBackspaces(input: string) returns (r: Result<string>)
    ensures r == Unbackspace(input, 0, "")
  {
    var sb := "";
    var i := 0;
    while i < |input|
      invariant 0 <= i
      invariant Unbackspace(input, 0, "") == Unbackspace(input, i, sb)
      decreases |input| - i
    {
      var c := input[i];
      if c == BACKSPACE {
        if sb == [] {
          return Err(IndexOutOfBounds);
        }
        sb := sb[..|sb| - 1];
        i := i + 2;
      } else {
        sb := sb + [c];
      }
      i := i + 1;
    }
    r := Ok(sb);
  }

  // ---------------------------------------------------------------------
  // toIntArray

  /** toIntArray(numbers): an array with the same values in the same order. */
  method ToIntArray(numbers: seq<int>) returns (ints: array<int>)
    ensures ints.Length == |numbers|
    ensures forall k :: 0 <= k < |numbers| ==> ints[k] == numbers[k]
  {
    ints := new int[|numbers|];
    var i := 0;
    while i < |numbers|
      invariant 0 <= i <= |numbers|
      invariant forall k :: 0 <= k < i ==> ints[k] == numbers[k]
    {
      ints[i] := numbers[i];
      i := i + 1;
    }
  }
}
