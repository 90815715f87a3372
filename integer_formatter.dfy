/**
 * IntegerFormatter: the text/value conversion behind the integer fields of
 * the settings dialogs. Text is parsed with Integer.parseInt and clamped to
 * the formatter's bounds; text that does not parse leaves the field's
 * current value.
 */
module Formatting {
  import opened Wrappers
  import opened JavaInt

  function Clamp(v: int, min: int, max: int): (r: int)
    ensures min <= max ==> min <= r <= max
    ensures min <= v <= max ==> r == v
    ensures v > max ==> r == max
    ensures v < min && min <= max ==> r == min
  {
    var low := if v < min then min else v;
    if low > max then max else low
  }

  /**
   * stringToValue: the parsed and clamped number; `current` is the value
   * the field already holds (None when it holds none), returned when the
   * text does not parse.
   */
  function StringToValue(min: int, max: int, text: string, current: Option<int>): (r: Option<int>)
    ensures ParseInt(text).None? ==> r == current
    ensures ParseInt(text).Some? && min <= max ==> r.Some? && min <= r.value <= max
    ensures ParseInt(text).Some? && min <= ParseInt(text).value <= max ==> r == ParseInt(text)
    ensures ParseInt(text).Some? && ParseInt(text).value < min && min <= max ==> r == Some(min)
    ensures ParseInt(text).Some? && ParseInt(text).value > max ==> r == Some(max)
  {
    match ParseInt(text)
    case None => current
    case Some(v) => Some(Clamp(v, min, max))
  }

  /** valueToString: "0" for no value, the decimal text otherwise. */
  function ValueToString(value: Option<int>): (r: string)
    ensures value.None? ==> r == "0"
    ensures value.Some? && IsInt32(value.value) ==> ParseInt(r) == value
  {
    match value
    case None => "0"
    case Some(v) =>
      ReadsBack(v);
      IntToString(v)
  }

  lemma ReadsBack(v: int)
    ensures IsInt32(v) ==> ParseInt(IntToString(v)) == Some(v)
  {
    if IsInt32(v) {
      ParseIntToString(v);
    }
  }

  /** A value within the bounds survives being shown and read back. */
  lemma RoundTrip(min: int, max: int, v: int, current: Option<int>)
    requires IsInt32(v) && min <= v <= max
    ensures StringToValue(min, max, ValueToString(Some(v)), current) == Some(v)
  {
    ParseIntToString(v);
  }

  /** Reading text back a second time changes nothing: the clamp is idempotent. */
  lemma ReadIdempotent(min: int, max: int, text: string, current: Option<int>)
    requires IsInt32(min) && IsInt32(max) && min <= max
    requires ParseInt(text).Some?
    ensures var v := StringToValue(min, max, text, current);
      StringToValue(min, max, ValueToString(v), current) == v
  {
    var v := StringToValue(min, max, text, current).value;
    ParseIntToString(v);
  }

  /** An empty field reads back as 0 clamped into the bounds. */
  lemma EmptyFieldReadsZero(min: int, max: int, current: Option<int>)
    requires min <= max
    ensures StringToValue(min, max, ValueToString(None), current) == Some(Clamp(0, min, max))
  {
    assert "0"[0] == '0';
  }
}
