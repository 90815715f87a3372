/** Fighter deployment modes, as reported by the game with one letter. */
module FighterModes {
  import opened Wrappers

  datatype FighterMode = Defensive | Offensive | Toll | Unknown

  /** getMode: 'D', 'O' or 'T'; any other character is an IllegalArgumentException. */
  function GetMode(c: char): (r: Result<FighterMode>)
    ensures r.Ok? <==> c == 'D' || c == 'O' || c == 'T'
    ensures r.Ok? ==> r.value != Unknown
    ensures r.Err? ==> r.error == IllegalArgument
  {
    match c
    case 'D' => Ok(Defensive)
    case 'O' => Ok(Offensive)
    case 'T' => Ok(Toll)
    case _ => Err(IllegalArgument)
  }

  /** The letter the game uses for each known mode. */
  function ModeLetter(m: FighterMode): char
    requires m != Unknown
  {
    match m
    case Defensive => 'D'
    case Offensive => 'O'
    case Toll => 'T'
  }

  /** getMode reads back the letter of every mode except UNKNOWN, and only that letter. */
  lemma GetModeInverse(c: char, m: FighterMode)
    requires m != Unknown
    ensures GetMode(c) == Ok(m) <==> c == ModeLetter(m)
  {
  }

  /** Different accepted letters give different modes. */
  lemma GetModeInjective(a: char, b: char)
    requires GetMode(a).Ok? && GetMode(a) == GetMode(b)
    ensures a == b
  {
    GetModeInverse(a, GetMode(a).value);
    GetModeInverse(b, GetMode(a).value);
  }
}
