/**
 * The game stats: the name/value map shown by the game's '*' screen, its
 * merge rule, and the parsers that read typed values out of it.
 */
module GameStatistics {
  import opened Wrappers
  import opened JavaInt
  import opened ParserUtils

  const START_DAY: string := "Start Day"

  /** String.indexOf(c): the first position of c, or -1. */
  function IndexOf(s: string, c: char): (i: int)
    ensures -1 <= i < |s|
    ensures i >= 0 ==> s[i] == c && forall k :: 0 <= k < i ==> s[k] != c
    ensures i == -1 ==> forall k :: 0 <= k < |s| ==> s[k] != c
  {
    if s == [] then -1
    else if s[0] == c then 0
    else var j := IndexOf(s[1..], c); if j == -1 then -1 else j + 1
  }

  /** str.substring(0, str.indexOf(c)): throws when c does not occur. */
  function PrefixBefore(s: string, c: char): (r: Result<string>)
    ensures r.Err? <==> c !in s
    ensures r.Err? ==> r.error == IndexOutOfBounds
    ensures r.Ok? ==> |r.value| < |s| && s[|r.value|] == c && c !in r.value && r.value == s[..|r.value|]
  {
    var i := IndexOf(s, c);
    if i < 0 then Err(IndexOutOfBounds) else Ok(s[..i])
  }

  /** Character.toLowerCase on ASCII letters. */
  function Lower(c: char): char { if 'A' <= c <= 'Z' then (c as int + 32) as char else c }

  /** Boolean.parseBoolean: "true" in any letter case; null and anything else are false. */
  predicate ParseBoolean(s: Option<string>)
  {
    s.Some? && |s.value| == 4 &&
    Lower(s.value[0]) == 't' && Lower(s.value[1]) == 'r' && Lower(s.value[2]) == 'u' && Lower(s.value[3]) == 'e'
  }

  /** Whether updateAll accepts a map: no stored Start Day, or the same Start Day (an absent one differs). */
  predicate Accepts(stats: map<string, string>, newStats: map<string, string>)
  {
    START_DAY in stats ==> START_DAY in newStats && stats[START_DAY] == newStats[START_DAY]
  }

  /** Map.putAll: the new entries win, the other old ones stay. */
  function Merged(stats: map<string, string>, newStats: map<string, string>): (m: map<string, string>)
    ensures m.Keys == stats.Keys + newStats.Keys
    ensures forall k :: k in newStats ==> m[k] == newStats[k]
    ensures forall k :: k in stats && k !in newStats ==> m[k] == stats[k]
  {
    stats + newStats
  }

  /** A merge the stats accept leaves them accepting the same map, and merging it again changes nothing. */
  lemma MergeIdempotent(stats: map<string, string>, newStats: map<string, string>)
    requires Accepts(stats, newStats)
    ensures Accepts(Merged(stats, newStats), newStats)
    ensures Merged(Merged(stats, newStats), newStats) == Merged(stats, newStats)
  {
  }

  /** After a merge the stats hold the merged Start Day, so a map with another Start Day is refused. */
  lemma MergeLocksStartDay(stats: map<string, string>, newStats: map<string, string>, later: map<string, string>)
    requires Accepts(stats, newStats) && START_DAY in newStats
    requires START_DAY !in later || later[START_DAY] != newStats[START_DAY]
    ensures !Accepts(Merged(stats, newStats), later)
  {
  }

  class GameStats {
    var stats: map<string, string>

    constructor ()
      ensures stats == map[]
    {
      stats := map[];
    }

    /** getStat: null (None) for a stat never seen. */
    function GetStat(name: string): (r: Option<string>)
      reads this
      ensures r.Some? <==> name in stats
      ensures r.Some? ==> r.value == stats[name]
    {
      if name in stats then Some(stats[name]) else None
    }

    function IsEmpty(): (r: bool)
      reads this
      ensures r <==> |stats| == 0
    {
      stats == map[]
    }

    /**
     * updateAll: refuses, with DatabaseIntegrityException and no change, a map
     * whose Start Day differs from the stored one; otherwise merges it.
     */
    method UpdateAll(newStats: map<string, string>) returns (r: Result<()>)
      modifies this
      ensures r.Ok? <==> Accepts(old(stats), newStats)
      ensures r.Err? ==> r.error == DatabaseIntegrity && stats == old(stats)
      ensures r.Ok? ==> stats == Merged(old(stats), newStats)
    {
      if START_DAY in stats && (START_DAY !in newStats || stats[START_DAY] != newStats[START_DAY]) {
        return Err(DatabaseIntegrity);
      }
      stats := stats + newStats;
      return Ok(());
    }

    /** A plain integer stat: Integer.parseInt of the value, which throws on null. */
    function IntStat(name: string): (r: Result<int>)
      reads this
      ensures name !in stats ==> r == Err(NumberFormat)
      ensures name in stats ==> r == ParseIntResult(stats[name])
    {
      match GetStat(name)
      case None => Err(NumberFormat)
      case Some(s) => ParseIntResult(s)
    }

    /** A stat written with a unit after a space, such as "30 days": the number before the first space. */
    function UnitStat(name: string): (r: Result<int>)
      reads this
      ensures name !in stats ==> r == Err(NullPointer)
      ensures name in stats && ' ' !in stats[name] ==> r == Err(IndexOutOfBounds)
      ensures name in stats && ' ' in stats[name] ==>
        var i := IndexOf(stats[name], ' '); 0 <= i && r == ParseIntResult(stats[name][..i])
    {
      match GetStat(name)
      case None => Err(NullPointer)
      case Some(s) =>
        match PrefixBefore(s, ' ')
        case Err(e) => Err(e)
        case Ok(p) => ParseIntResult(p)
    }

    /** A percentage written "N%": the number before the first '%'. */
    function PercentStat(name: string): (r: Result<int>)
      reads this
      ensures name !in stats ==> r == Err(NullPointer)
      ensures name in stats && '%' !in stats[name] ==> r == Err(IndexOutOfBounds)
      ensures name in stats && '%' in stats[name] ==>
        var i := IndexOf(stats[name], '%'); 0 <= i && r == ParseIntResult(stats[name][..i])
    {
      match GetStat(name)
      case None => Err(NullPointer)
      case Some(s) =>
        match PrefixBefore(s, '%')
        case Err(e) => Err(e)
        case Ok(p) => ParseIntResult(p)
    }

    /** A cost written "N,NNN credits": the thousands-separated number before the first space. */
    function CostStat(name: string): (r: Result<int>)
      reads this
      ensures name !in stats ==> r == Err(NullPointer)
      ensures name in stats && ' ' !in stats[name] ==> r == Err(IndexOutOfBounds)
      ensures name in stats && ' ' in stats[name] ==>
        var i := IndexOf(stats[name], ' '); 0 <= i && r == ParseIntResult(RemoveCommas(stats[name][..i]))
    {
      match GetStat(name)
      case None => Err(NullPointer)
      case Some(s) =>
        match PrefixBefore(s, ' ')
        case Err(e) => Err(e)
        case Ok(p) => ParseIntResult(RemoveCommas(p))
    }

    /** A percentage that may read "N/A", which counts as 0; any other value is parsed whole. */
    function OptionalPercentStat(name: string): (r: Result<int>)
      reads this
      ensures name in stats && stats[name] == "N/A" ==> r == Ok(0)
      ensures name in stats && stats[name] != "N/A" ==> r == ParseIntResult(stats[name])
      ensures name !in stats ==> r == Err(NumberFormat)
    {
      match GetStat(name)
      case None => Err(NumberFormat)
      case Some(s) => if s == "N/A" then Ok(0) else ParseIntResult(s)
    }

    function BoolStat(name: string): (r: bool)
      reads this
      ensures r ==> name in stats
    {
      ParseBoolean(GetStat(name))
    }

    // A few of the typed accessors, each one of the kinds above applied to its stat name.

    function Sectors(): Result<int> reads this { IntStat("Sectors") }
    function MaxCourseLength(): Result<int> reads this { IntStat("Max Course Length") }
    function GameAge(): Result<int> reads this { UnitStat("Game Age") }
    function TurnBase(): Result<int> reads this { UnitStat("Turn Base") }
    function CloakFailPercent(): Result<int> reads this { PercentStat("Cloak Fail Percent") }
    function MaxBankCredits(): Result<int> reads this { CostStat("Max Bank Credits") }
    function TavernAnnouncementCost(): Result<int> reads this { CostStat("Tavern Announcement") }
    function GoodTraderPercent(): Result<int> reads this { OptionalPercentStat("Percent Players Good") }
    function GoldEnabled(): bool reads this { BoolStat("Gold Enabled") }
  }

  /** Integer.toString(n) + sep + rest, the way the game writes a number with a unit. */
  lemma PrefixOfWritten(n: int, sep: char, rest: string)
    requires sep == ' ' || sep == '%'
    ensures PrefixBefore(IntToString(n) + [sep] + rest, sep) == Ok(IntToString(n))
  {
    var s := IntToString(n);
    var t := s + [sep] + rest;
    assert forall k :: 0 <= k < |s| ==> s[k] != sep by {
      if n < 0 {
        assert s == "-" + NatToDigits(-n);
        forall k | 0 <= k < |s| ensures s[k] != sep {
          if k > 0 { assert s[k] == NatToDigits(-n)[k - 1]; }
        }
      }
    }
    var i := IndexOf(t, sep);
    assert t[|s|] == sep;
    assert i == |s|;
    assert t[..i] == s;
  }

  /** A unit stat reads back the number the game wrote before the space. */
  lemma UnitStatReadsNumber(g: GameStats, name: string, n: int, unit: string)
    requires IsInt32(n) && name in g.stats && g.stats[name] == IntToString(n) + " " + unit
    ensures g.UnitStat(name) == Ok(n)
  {
    PrefixOfWritten(n, ' ', unit);
    ParseIntToString(n);
  }

  /** A percent stat reads back the number the game wrote before the '%'. */
  lemma PercentStatReadsNumber(g: GameStats, name: string, n: int)
    requires IsInt32(n) && name in g.stats && g.stats[name] == IntToString(n) + "%"
    ensures g.PercentStat(name) == Ok(n)
  {
    PrefixOfWritten(n, '%', "");
    assert IntToString(n) + "%" == IntToString(n) + ['%'] + "";
    ParseIntToString(n);
  }

  /** A cost stat reads back the number before the space, once its commas are dropped. */
  lemma CostStatReadsNumber(g: GameStats, name: string, n: int, unit: string)
    requires IsInt32(n) && name in g.stats && g.stats[name] == IntToString(n) + " " + unit
    ensures g.CostStat(name) == Ok(n)
  {
    PrefixOfWritten(n, ' ', unit);
    var s := IntToString(n);
    forall k | 0 <= k < |s| ensures s[k] != ',' {
      if n < 0 && k > 0 { assert s[k] == NatToDigits(-n)[k - 1]; }
    }
    RemoveCommasNoComma(s);
    ParseIntToString(n);
  }

  /** "5,000 credits" is read as 5000. */
  lemma CostStatExample(g: GameStats)
    requires "Max Bank Credits" in g.stats && g.stats["Max Bank Credits"] == "5,000 credits"
    ensures g.MaxBankCredits() == Ok(5000)
  {
    var s := "5,000 credits";
    assert IndexOf(s, ' ') == 5 by {
      assert s[..6] == "5,000 ";
      assert IndexOf(s[5..], ' ') == 0;
    }
    assert s[..5] == "5,000";
    ParseThousandsExample();
  }
}
