/**
 * AnsiConverter: turns captured terminal text, escape codes included, into
 * the text of a lexer pattern. Pattern metacharacters get a backslash, '<'
 * and every control or non-ASCII character become character references, and
 * CR and LF keep their raw character after the reference.
 */
module AnsiConversion {
  import opened Wrappers
  import opened JavaInt

  /** The characters that are escaped with a backslash. */
  predicate IsMeta(c: char)
  {
    c == '[' || c == ']' || c == '?' || c == '.' || c == '(' || c == ')'
  }

  /** "&#" + the character's code + ";". */
  function Reference(c: char): (r: string)
    ensures |r| >= 4 && r[..2] == "&#" && r[|r| - 1] == ';'
    ensures r[2..|r| - 1] == NatToDigits(c as nat)
  {
    "&#" + IntToString(c as int) + ";"
  }

  /** What one input character becomes. */
  function Escape(c: char): (r: string)
    ensures IsMeta(c) ==> r == ['\\', c]
    ensures (c as int == 10 || c as int == 13) ==> r == Reference(c) + [c]
    ensures c == '<' ==> r == "\\&lt;"
    ensures !IsMeta(c) && c != '<' && 32 <= c as int <= 125 ==> r == [c]
    ensures !IsMeta(c) && c as int != 10 && c as int != 13 && c != '<' && !(32 <= c as int <= 125) ==> r == Reference(c)
  {
    if IsMeta(c) then ['\\', c]
    else if c as int == 10 || c as int == 13 then Reference(c) + [c]
    else if c == '<' then "\\&lt;"
    else if 32 <= c as int <= 125 then [c]
    else Reference(c)
  }

  /** The whole conversion: each character's escape, in order. */
  function Converted(s: string): string
  {
    if s == [] then [] else Converted(s[..|s| - 1]) + Escape(s[|s| - 1])
  }

  /** Each character of s mapped through f, the results joined in order. */
  function Joined(f: char -> string, s: string): string
  {
    if s == [] then [] else Joined(f, s[..|s| - 1]) + f(s[|s| - 1])
  }

  lemma {:induction false} JoinedAppend(f: char -> string, a: string, b: string)
    ensures Joined(f, a + b) == Joined(f, a) + Joined(f, b)
    decreases |b|
  {
    if b == [] {
      assert a + b == a;
    } else {
      assert (a + b)[..|a + b| - 1] == a + b[..|b| - 1];
      JoinedAppend(f, a, b[..|b| - 1]);
    }
  }

  lemma {:induction false} ConvertedIsJoined(s: string)
    ensures Converted(s) == Joined(Escape, s)
    decreases |s|
  {
    if s != [] {
      ConvertedIsJoined(s[..|s| - 1]);
    }
  }

  /** Conversion works character by character: it distributes over concatenation. */
  lemma ConvertedAppend(a: string, b: string)
    ensures Converted(a + b) == Converted(a) + Converted(b)
  {
    ConvertedIsJoined(a + b);
    ConvertedIsJoined(a);
    ConvertedIsJoined(b);
    JoinedAppend(Escape, a, b);
  }

  lemma ConvertedSnoc(s: string, c: char)
    ensures Converted(s + [c]) == Converted(s) + Escape(c)
  {
    assert (s + [c])[..|s|] == s;
  }

  /** The pattern text is printable ASCII apart from the CR and LF kept after their references. */
  predicate PatternChar(c: char)
  {
    (32 <= c as int <= 125) || c as int == 10 || c as int == 13
  }

  lemma EscapePrintable(c: char)
    ensures forall k :: 0 <= k < |Escape(c)| ==> PatternChar(Escape(c)[k])
  {
    var r := Reference(c);
    assert forall k :: 2 <= k < |r| - 1 ==> IsDigit(r[k]) by {
      forall k | 2 <= k < |r| - 1 ensures IsDigit(r[k]) {
        assert r[k] == r[2..|r| - 1][k - 2];
      }
    }
  }

  lemma {:induction false} ConvertedPrintable(s: string)
    ensures forall k :: 0 <= k < |Converted(s)| ==> PatternChar(Converted(s)[k])
    decreases |s|
  {
    if s != [] {
      ConvertedPrintable(s[..|s| - 1]);
      EscapePrintable(s[|s| - 1]);
    }
  }

  /** No character is dropped: the output is at least as long as the input. */
  lemma {:induction false} ConvertedLength(s: string)
    ensures |Converted(s)| >= |s|
    decreases |s|
  {
    if s != [] {
      ConvertedLength(s[..|s| - 1]);
    }
  }

  /** The conversion is not reversible: '<' and the five characters of its escape convert alike. */
  lemma ConvertedCollision()
    ensures Converted("<") == Converted("\\&lt;") && "<" != "\\&lt;"
  {
    var t := "\\&lt;";
    assert t[..4] == "\\&lt" && t[..3] == "\\&l" && t[..2] == "\\&" && t[..1] == "\\" && t[..0] == [];
    assert Converted(t[..1]) == "\\";
    assert Converted(t[..2]) == "\\&";
    assert t[..2][..1] == t[..1] && t[..3][..2] == t[..2] && t[..4][..3] == t[..3] && t[..4] == t[..5][..4];
    assert Converted(t[..3]) == "\\&l";
    assert Converted(t[..4]) == "\\&lt";
    assert t == t[..5];
    assert Converted(t) == "\\&lt;";
  }

  /** The converter's shared StringBuilder. */
  class Converter {
    var sb: string

    constructor ()
      ensures sb == []
    {
      sb := [];
    }

    /**
     * convert: the shared buffer is cleared, then each character from off up
     * to the int sum off + len is escaped into it. An empty range (the sum
     * wrapped or len <= 0) gives an empty text; a position outside the text
     * throws from charAt, leaving the escapes of the characters before it in
     * the buffer.
     */
    method Convert(s: string, off: int, len: int) returns (r: Result<string>)
      requires IsInt32(off) && IsInt32(len)
      modifies this
      ensures var end := AddInt32(off, len);
        if end <= off then r == Ok([]) && sb == []
        else if 0 <= off && end <= |s| then r == Ok(sb) && sb == Converted(s[off..end])
        else r == Err(IndexOutOfBounds) && sb == (if 0 <= off <= |s| then Converted(s[off..]) else [])
    {
      sb := [];
      var end := AddInt32(off, len);
      if end <= off {
        return Ok(sb);
      }
      var i := off;
      while i < end
        invariant off <= i <= end
        invariant i > off ==> 0 <= off && i <= |s|
        invariant i > off ==> sb == Converted(s[off..i])
        invariant i == off ==> sb == []
        decreases end - i
      {
        if i < 0 || i >= |s| {
          assert 0 <= off <= |s| ==> s[off..i] == s[off..];
          return Err(IndexOutOfBounds);
        }
        ghost var done := s[off..i];
        assert s[off..i + 1] == done + [s[i]];
        ConvertedSnoc(done, s[i]);
        Append(s[i]);
        i := i + 1;
      }
      r := Ok(sb);
    }

    /** One character's escape appended to the buffer. */
    method Append(c: char)
      modifies this
      ensures sb == old(sb) + Escape(c)
    {
      if IsMeta(c) {
        sb := sb + ['\\', c];
      } else if c as int == 10 || c as int == 13 {
        sb := sb + Reference(c) + [c];
      } else if c == '<' {
        sb := sb + "\\&lt;";
      } else if 32 <= c as int <= 125 {
        sb := sb + [c];
      } else {
        sb := sb + Reference(c);
      }
    }
  }
}
