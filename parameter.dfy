/**
 * A script's load-time parameter: a typed value with, for integers, a
 * clamping range [minValue, maxValue] and, for options, a list of choices.
 *
 * The float kind keeps its place in the type enumeration, but no float
 * parameter can be built here: float arithmetic is outside the model.
 * Java's Object values of option lists are modelled by `Value`, compared by
 * equality as List.contains and List.indexOf compare them.
 */
module Parameters {
  import opened Wrappers
  import opened JavaInt

  /** Parameter.Type. */
  datatype ParameterType = IntegerType | FloatType | BooleanType | StringType | OptionType

  /** A parameter's value, or one of its options. */
  datatype Value = IntValue(i: int) | BoolValue(b: bool) | StringValue(s: string)

  /** setInteger's clamp: a value above hi becomes hi, one below lo becomes lo. */
  function Clamp(v: int, lo: int, hi: int): (r: int)
    ensures lo <= hi ==> lo <= r <= hi
    ensures lo <= v <= hi ==> r == v
    ensures v > hi ==> r == hi
    ensures v < lo && lo <= hi ==> r == lo
  {
    if v > hi then hi else if v < lo then lo else v
  }

  /** Clamping twice to the same range is clamping once. */
  lemma ClampIdempotent(v: int, lo: int, hi: int)
    requires lo <= hi
    ensures Clamp(Clamp(v, lo, hi), lo, hi) == Clamp(v, lo, hi)
  {
  }

  predicate Distinct(s: seq<Value>)
  {
    forall i, j :: 0 <= i < j < |s| ==> s[i] != s[j]
  }

  /** List.indexOf: the first position holding v, or -1. */
  function IndexOf(s: seq<Value>, v: Value): (r: int)
    ensures r == -1 <==> v !in s
    ensures r != -1 ==> 0 <= r < |s| && s[r] == v && v !in s[..r]
  {
    if s == [] then -1
    else if s[0] == v then 0
    else
      var k := IndexOf(s[1..], v);
      if k == -1 then -1 else k + 1
  }

  /** Among distinct options, the index of the i-th option is i. */
  lemma IndexOfDistinct(s: seq<Value>, i: int)
    requires Distinct(s) && 0 <= i < |s|
    ensures IndexOf(s, s[i]) == i
  {
    var k := IndexOf(s, s[i]);
    assert s[k] == s[i];
  }

  /** addOption's list: unchanged when v is already present, v appended otherwise. */
  function WithOption(s: seq<Value>, v: Value): (r: seq<Value>)
    ensures v in r && forall x :: x in s ==> x in r
    ensures forall x :: x in r ==> x in s || x == v
  {
    if v in s then s else s + [v]
  }

  /** addOption never adds a duplicate. */
  lemma WithOptionDistinct(s: seq<Value>, v: Value)
    requires Distinct(s)
    ensures Distinct(WithOption(s, v))
  {
  }

  class Parameter {
    const kind: ParameterType
    const caption: string
    /** Whether the options list was made by Arrays.asList, a list that cannot grow. */
    const fixedSize: bool
    var options: seq<Value>
    var value: Value
    var minValue: int
    var maxValue: int

    /** The type's value, the integer range holding the value, a selected option among the options. */
    ghost predicate Valid()
      reads this
    {
      kind != FloatType &&
      (kind == IntegerType ==> value.IntValue? && INT_MIN <= minValue <= value.i <= maxValue <= INT_MAX) &&
      (kind == BooleanType ==> value.BoolValue?) &&
      (kind == StringType ==> value.StringValue?) &&
      (kind == OptionType ==> value in options)
    }

    /** Parameter(String, int): an integer parameter with the whole int range. */
    constructor OfInteger(caption: string, v: int)
      requires IsInt32(v)
      ensures Valid() && kind == IntegerType && this.caption == caption
      ensures value == IntValue(v) && minValue == INT_MIN && maxValue == INT_MAX
    {
      kind, this.caption, fixedSize := IntegerType, caption, false;
      options := [];
      value := IntValue(v);
      minValue, maxValue := INT_MIN, INT_MAX;
    }

    /** Parameter(String, boolean). */
    constructor OfBoolean(caption: string, b: bool)
      ensures Valid() && kind == BooleanType && this.caption == caption && value == BoolValue(b)
    {
      kind, this.caption, fixedSize := BooleanType, caption, false;
      options := [];
      value := BoolValue(b);
      minValue, maxValue := 0, 0;
    }

    /** Parameter(String, String). */
    constructor OfString(caption: string, s: string)
      ensures Valid() && kind == StringType && this.caption == caption && value == StringValue(s)
    {
      kind, this.caption, fixedSize := StringType, caption, false;
      options := [];
      value := StringValue(s);
      minValue, maxValue := 0, 0;
    }

    /** The option constructors once their checks have passed. */
    constructor OfOptions(caption: string, opts: seq<Value>, selected: Value, fixedSize: bool)
      requires selected in opts
      ensures Valid() && kind == OptionType && this.caption == caption && this.fixedSize == fixedSize
      ensures options == opts && value == selected
    {
      kind, this.caption, this.fixedSize := OptionType, caption, fixedSize;
      options := opts;
      value := selected;
      minValue, maxValue := 0, 0;
    }

    /**
     * Parameter(String, Object[], int): selects opts[selected], which throws
     * when the index is out of range; the list is Arrays.asList, fixed in size.
     * With no index given, the first option is selected.
     */
    static method FromArray(caption: string, opts: seq<Value>, selected: int) returns (r: Result<Parameter>)
      ensures r.Err? <==> !(0 <= selected < |opts|)
      ensures r.Err? ==> r.error == IndexOutOfBounds
      ensures r.Ok? ==> (fresh(r.value) && r.value.Valid() && r.value.kind == OptionType &&
                         r.value.options == opts && r.value.value == opts[selected] && r.value.fixedSize)
    {
      if !(0 <= selected < |opts|) {
        return Err(IndexOutOfBounds);
      }
      var p := new Parameter.OfOptions(caption, opts, opts[selected], true);
      return Ok(p);
    }

    /** Parameter(String, List, Object): the selected value must be one of the options. */
    static method FromList(caption: string, opts: seq<Value>, selected: Value) returns (r: Result<Parameter>)
      ensures r.Err? <==> selected !in opts
      ensures r.Err? ==> r.error == IllegalArgument
      ensures r.Ok? ==> (fresh(r.value) && r.value.Valid() && r.value.kind == OptionType &&
                         r.value.options == opts && r.value.value == selected && !r.value.fixedSize)
    {
      if selected !in opts {
        return Err(IllegalArgument);
      }
      var p := new Parameter.OfOptions(caption, opts, selected, false);
      return Ok(p);
    }

    /** Parameter(String, List): selects options.get(0), which throws on an empty list. */
    static method FromListFirst(caption: string, opts: seq<Value>) returns (r: Result<Parameter>)
      ensures r.Err? <==> opts == []
      ensures r.Err? ==> r.error == IndexOutOfBounds
      ensures r.Ok? ==> (fresh(r.value) && r.value.Valid() && r.value.kind == OptionType &&
                         r.value.options == opts && r.value.value == opts[0] && !r.value.fixedSize)
    {
      if opts == [] {
        return Err(IndexOutOfBounds);
      }
      r := FromList(caption, opts, opts[0]);
    }

    /**
     * setMinValue(int): m becomes the minimum; a smaller maximum is raised to
     * m, and so is a smaller value.
     */
    method SetMinValue(m: int) returns (r: Result<()>)
      requires Valid() && IsInt32(m)
      modifies this`value, this`minValue, this`maxValue
      ensures Valid()
      ensures kind != IntegerType ==>
        r == Err(UnsupportedOperation) && value == old(value) && minValue == old(minValue) && maxValue == old(maxValue)
      ensures kind == IntegerType ==>
        r == Ok(()) && minValue == m && maxValue == Max(old(maxValue), m) && value == IntValue(Max(old(value).i, m))
    {
      if kind != IntegerType {
        return Err(UnsupportedOperation);
      }
      if maxValue < m {
        maxValue := m;
        value := IntValue(m);
      }
      minValue := m;
      if value.i < m {
        value := IntValue(m);
      }
      return Ok(());
    }

    /**
     * setMaxValue(int): m becomes the maximum; a larger minimum is lowered to
     * m, and so is a larger value.
     */
    method SetMaxValue(m: int) returns (r: Result<()>)
      requires Valid() && IsInt32(m)
      modifies this`value, this`minValue, this`maxValue
      ensures Valid()
      ensures kind != IntegerType ==>
        r == Err(UnsupportedOperation) && value == old(value) && minValue == old(minValue) && maxValue == old(maxValue)
      ensures kind == IntegerType ==>
        r == Ok(()) && maxValue == m && minValue == Min(old(minValue), m) && value == IntValue(Min(old(value).i, m))
    {
      if kind != IntegerType {
        return Err(UnsupportedOperation);
      }
      if minValue > m {
        minValue := m;
        value := IntValue(m);
      }
      maxValue := m;
      if value.i > m {
        value := IntValue(m);
      }
      return Ok(());
    }

    /** getMinValue: the minimum of an integer parameter; null for the other kinds. */
    function GetMinValue(): (r: Option<int>)
      requires Valid()
      reads this
      ensures r.Some? <==> kind == IntegerType
      ensures r.Some? ==> r.value <= value.i
    {
      if kind == IntegerType then Some(minValue) else None
    }

    /** getMaxValue: the maximum of an integer parameter; null for the other kinds. */
    function GetMaxValue(): (r: Option<int>)
      requires Valid()
      reads this
      ensures r.Some? <==> kind == IntegerType
      ensures r.Some? ==> value.i <= r.value
    {
      if kind == IntegerType then Some(maxValue) else None
    }

    /** getInteger: the value, which lies in [minValue, maxValue]; other kinds throw. */
    function GetInteger(): (r: Result<int>)
      requires Valid()
      reads this
      ensures r.Err? <==> kind != IntegerType
      ensures r.Err? ==> r.error == UnsupportedOperation
      ensures r.Ok? ==> minValue <= r.value <= maxValue && IsInt32(r.value)
    {
      if kind != IntegerType then Err(UnsupportedOperation) else Ok(value.i)
    }

    /** setInteger: the value clamped to [minValue, maxValue]. */
    method SetInteger(v: int) returns (r: Result<()>)
      requires Valid() && IsInt32(v)
      modifies this`value
      ensures Valid()
      ensures kind != IntegerType ==> r == Err(UnsupportedOperation) && value == old(value)
      ensures kind == IntegerType ==> r == Ok(()) && value == IntValue(Clamp(v, minValue, maxValue))
      ensures old(GetInteger()) == Ok(v) ==> value == old(value)
    {
      if kind != IntegerType {
        return Err(UnsupportedOperation);
      }
      if v > maxValue {
        value := IntValue(maxValue);
      } else if v < minValue {
        value := IntValue(minValue);
      } else {
        value := IntValue(v);
      }
      return Ok(());
    }

    /** getBoolean; other kinds throw. */
    function GetBoolean(): (r: Result<bool>)
      requires Valid()
      reads this
      ensures r.Err? <==> kind != BooleanType
      ensures r.Err? ==> r.error == UnsupportedOperation
      ensures r.Ok? ==> value == BoolValue(r.value)
    {
      if kind != BooleanType then Err(UnsupportedOperation) else Ok(value.b)
    }

    /** setBoolean; other kinds throw. */
    method SetBoolean(b: bool) returns (r: Result<()>)
      requires Valid()
      modifies this`value
      ensures Valid()
      ensures kind != BooleanType ==> r == Err(UnsupportedOperation) && value == old(value)
      ensures kind == BooleanType ==> r == Ok(()) && value == BoolValue(b)
    {
      if kind != BooleanType {
        return Err(UnsupportedOperation);
      }
      value := BoolValue(b);
      return Ok(());
    }

    /** getString; other kinds throw. */
    function GetString(): (r: Result<string>)
      requires Valid()
      reads this
      ensures r.Err? <==> kind != StringType
      ensures r.Err? ==> r.error == UnsupportedOperation
      ensures r.Ok? ==> value == StringValue(r.value)
    {
      if kind != StringType then Err(UnsupportedOperation) else Ok(value.s)
    }

    /** setString; other kinds throw. */
    method SetString(s: string) returns (r: Result<()>)
      requires Valid()
      modifies this`value
      ensures Valid()
      ensures kind != StringType ==> r == Err(UnsupportedOperation) && value == old(value)
      ensures kind == StringType ==> r == Ok(()) && value == StringValue(s)
    {
      if kind != StringType {
        return Err(UnsupportedOperation);
      }
      value := StringValue(s);
      return Ok(());
    }

    /** getOption: the selected option, always one of the options; other kinds throw. */
    function GetOption(): (r: Result<Value>)
      requires Valid()
      reads this
      ensures r.Err? <==> kind != OptionType
      ensures r.Err? ==> r.error == UnsupportedOperation
      ensures r.Ok? ==> r.value in options
    {
      if kind != OptionType then Err(UnsupportedOperation) else Ok(value)
    }

    /**
     * getOptionIndex: the first position of the selected option. It does not
     * check the kind, and the other kinds have a null options list.
     */
    function GetOptionIndex(): (r: Result<int>)
      requires Valid()
      reads this
      ensures r.Err? <==> kind != OptionType
      ensures r.Err? ==> r.error == NullPointer
      ensures r.Ok? ==> 0 <= r.value < |options| && options[r.value] == value && value !in options[..r.value]
    {
      if kind != OptionType then Err(NullPointer) else Ok(IndexOf(options, value))
    }

    /** getOptions: a copy of the options; other kinds throw. */
    function GetOptions(): (r: Result<seq<Value>>)
      reads this
      ensures r.Err? <==> kind != OptionType
      ensures r.Err? ==> r.error == UnsupportedOperation
      ensures r.Ok? ==> r.value == options
    {
      if kind != OptionType then Err(UnsupportedOperation) else Ok(options)
    }

    /** setOption(int): selects options[i]; an index out of range throws. */
    method SetOptionIndex(i: int) returns (r: Result<()>)
      requires Valid()
      modifies this`value
      ensures Valid()
      ensures kind != OptionType ==> r == Err(UnsupportedOperation) && value == old(value)
      ensures kind == OptionType && !(0 <= i < |options|) ==> r == Err(IndexOutOfBounds) && value == old(value)
      ensures kind == OptionType && 0 <= i < |options| ==> r == Ok(()) && value == options[i]
    {
      if kind != OptionType {
        return Err(UnsupportedOperation);
      }
      if !(0 <= i < |options|) {
        return Err(IndexOutOfBounds);
      }
      value := options[i];
      return Ok(());
    }

    /** setOption(Object): selects v, which must be one of the options. */
    method SetOption(v: Value) returns (r: Result<()>)
      requires Valid()
      modifies this`value
      ensures Valid()
      ensures kind != OptionType ==> r == Err(UnsupportedOperation) && value == old(value)
      ensures kind == OptionType && v !in options ==> r == Err(IllegalArgument) && value == old(value)
      ensures kind == OptionType && v in options ==> r == Ok(()) && value == v
    {
      if kind != OptionType {
        return Err(UnsupportedOperation);
      }
      if v !in options {
        return Err(IllegalArgument);
      }
      value := v;
      return Ok(());
    }

    /**
     * addOption: appends v unless it is already an option. A list made by
     * Arrays.asList cannot grow, so appending to it throws.
     */
    method AddOption(v: Value) returns (r: Result<()>)
      requires Valid()
      modifies this`options
      ensures Valid()
      ensures kind != OptionType ==> r == Err(UnsupportedOperation) && options == old(options)
      ensures kind == OptionType && (v in old(options) || !fixedSize) ==> r == Ok(()) && options == WithOption(old(options), v)
      ensures kind == OptionType && v !in old(options) && fixedSize ==> r == Err(UnsupportedOperation) && options == old(options)
    {
      if kind != OptionType {
        return Err(UnsupportedOperation);
      }
      if v !in options {
        if fixedSize {
          return Err(UnsupportedOperation);
        }
        options := options + [v];
      }
      return Ok(());
    }
  }
}
