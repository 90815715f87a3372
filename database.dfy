/**
 * The game database: the array of sectors, Stardock's location, the known
 * class 0 ports, and the name and number indexes of ship types, traders,
 * corporations and ships. Warps are recorded here in both directions: a warp
 * out of one sector is mirrored by a warp into its target.
 */
module Databases {
  import opened Wrappers
  import opened Constants
  import opened JavaInt
  import opened Records
  import opened GameStatistics
  import opened Sectors
  import opened SearchNodes
  import opened NodeMatchers
  import opened BreadthFirstSearches

  /** The trader index key: the first six characters of a name, or the whole of a shorter name. */
  function TraderKey(name: string): (key: string)
    ensures |key| == if |name| > 6 then 6 else |name|
    ensures key <= name
  {
    if |name| > 6 then name[..6] else name
  }

  /**
   * A name of at least six characters has the key of every name it begins,
   * and a shorter name has the key only of itself.
   */
  lemma TraderKeyOfPrefix(prefix: string, name: string)
    requires prefix <= name
    ensures |prefix| >= 6 ==> TraderKey(prefix) == TraderKey(name)
    ensures |prefix| < 6 ==> (TraderKey(prefix) == TraderKey(name) <==> prefix == name)
  {
    if |prefix| >= 6 {
      assert name[..6] == prefix[..6];
    }
  }

  /** What the search sees of a sector: its outbound warps as getWarpsOut returns them. */
  function View(s: Sector): (v: SectorView)
    reads s
    ensures v.number == s.number && v.explored == s.explored && v.avoided == s.avoided
    ensures forall w :: w in v.warpsOut <==> w in s.warpsOut
  {
    forall w ensures w in SortSeq(s.warpsOut) <==> w in s.warpsOut {
      SortSeqSameMembers(s.warpsOut, w);
    }
    SectorView(s.number, s.explored, s.avoided, SortSeq(s.warpsOut))
  }

  /** Everything the database holds besides its sectors. */
  datatype Indexes = Indexes(
    stardockSector: int, zeroSectors: seq<int>, lastCimPortsDate: Option<Date>,
    ships: map<int, Ship>, shipTypes: set<ShipType>, shipTypeNameIndex: map<string, ShipType>,
    traders: set<Trader>, traderNameIndex: map<string, Trader>, corpNumberIndex: map<int, Corporation>)

  predicate NoDuplicates(s: seq<int>)
  {
    forall i, j :: 0 <= i < j < |s| ==> s[i] != s[j]
  }

  /** addWarpFrom's effect on an inbound list: x is appended unless it is already there. */
  function With(list: seq<int>, x: int): (r: seq<int>)
    ensures x in r && forall y :: y in list ==> y in r
    ensures forall y :: y in r ==> y in list || y == x
  {
    if x in list then list else list + [x]
  }

  /** Every warp out of the array leads into it. */
  predicate WarpsWithin(outs: seq<seq<int>>)
  {
    forall i, w :: 0 <= i < |outs| && w in outs[i] ==> 1 <= w <= |outs|
  }

  /** The warps out of the first n sectors are recorded as warps into their targets. */
  predicate MirroredUpTo(outs: seq<seq<int>>, ins: seq<seq<int>>, n: int)
  {
    |outs| == |ins| &&
    forall i, w :: 0 <= i < n && i < |outs| && w in outs[i] ==> 1 <= w <= |ins| && i + 1 in ins[w - 1]
  }

  /** Every inbound list of ins is kept in ins', which gained at most the sector x. */
  ghost predicate Gains(ins: seq<seq<int>>, ins': seq<seq<int>>, x: int)
  {
    Within(ins, ins') && forall k, y :: 0 <= k < |ins'| && y in ins'[k] ==> y in ins[k] || y == x
  }

  /** Every inbound list of ins is kept, possibly extended, in ins'. */
  predicate Within(ins: seq<seq<int>>, ins': seq<seq<int>>)
  {
    |ins| == |ins'| && forall k, x :: 0 <= k < |ins| && x in ins[k] ==> x in ins'[k]
  }

  /** The same warps, row by row, whatever their order. */
  ghost predicate SameMembers(outs: seq<seq<int>>, outs': seq<seq<int>>)
  {
    |outs| == |outs'| && forall k, w :: 0 <= k < |outs| ==> (w in outs[k] <==> w in outs'[k])
  }

  /**
   * Replacing row j by a row whose every warp is already mirrored keeps the
   * mirror, however the inbound lists grew meanwhile.
   */
  lemma MirroredReplaceRow(outs: seq<seq<int>>, ins: seq<seq<int>>, ins': seq<seq<int>>, j: int, row: seq<int>)
    requires MirroredUpTo(outs, ins, |outs|) && Within(ins, ins') && 0 <= j < |outs|
    requires forall w :: w in row ==> 1 <= w <= |outs| && j + 1 in ins'[w - 1]
    ensures MirroredUpTo(outs[j := row], ins', |outs|)
  {
  }

  /** MirroredReplaceRow, for a mirror that may not have held before. */
  lemma MirroredAfterReplace(outs: seq<seq<int>>, ins: seq<seq<int>>, ins': seq<seq<int>>, j: int, row: seq<int>)
    requires |ins| == |outs| && Within(ins, ins') && 0 <= j < |outs|
    requires forall w :: w in row ==> 1 <= w <= |outs| && j + 1 in ins'[w - 1]
    ensures MirroredUpTo(outs, ins, |outs|) ==> MirroredUpTo(outs[j := row], ins', |outs|)
  {
    if MirroredUpTo(outs, ins, |outs|) {
      MirroredReplaceRow(outs, ins, ins', j, row);
    }
  }

  /** setWarpsOut's row, once each of its targets recorded the warp, keeps the mirror. */
  lemma MirroredAfterSet(outs: seq<seq<int>>, ins: seq<seq<int>>, ins': seq<seq<int>>, j: int, warps: seq<int>, row: seq<int>)
    requires |ins| == |outs| && Within(ins, ins') && 0 <= j < |outs|
    requires forall m :: 0 <= m < |warps| ==> 1 <= warps[m] <= |outs| && j + 1 in ins'[warps[m] - 1]
    requires forall w :: w in row <==> w in warps
    ensures MirroredUpTo(outs, ins, |outs|) ==> MirroredUpTo(outs[j := row], ins', |outs|)
  {
    forall w | w in row
      ensures 1 <= w <= |outs| && j + 1 in ins'[w - 1]
    {
      assert w in warps;
      var m :| 0 <= m < |warps| && warps[m] == w;
    }
    MirroredAfterReplace(outs, ins, ins', j, row);
  }

  /** addWarpTo's new warp, once its target recorded it, keeps the mirror. */
  lemma MirroredAfterAdd(outs: seq<seq<int>>, ins: seq<seq<int>>, ins': seq<seq<int>>, j: int, sector: int)
    requires |ins| == |outs| && 0 <= j < |outs| && 1 <= sector <= |outs|
    requires ins' == ins[sector - 1 := With(ins[sector - 1], j + 1)]
    ensures MirroredUpTo(outs, ins, |outs|) ==> MirroredUpTo(outs[j := outs[j] + [sector]], ins', |outs|)
  {
    if MirroredUpTo(outs, ins, |outs|) {
      MirroredReplaceRow(outs, ins, ins', j, outs[j] + [sector]);
    }
  }

  /** One sector of restoreTransients extends the mirror by its row, or shows a warp out of range. */
  lemma MirroredAfterRow(outs: seq<seq<int>>, ins: seq<seq<int>>, ins': seq<seq<int>>, i: int, warps: seq<int>, ok: bool)
    requires |ins| == |outs| && 0 <= i < |outs| && MirroredUpTo(outs, ins, i) && Within(ins, ins')
    requires forall w :: w in warps <==> w in outs[i]
    requires ok <==> !exists m :: 0 <= m < |warps| && !(1 <= warps[m] <= |outs|)
    requires ok ==> forall m :: 0 <= m < |warps| ==> 1 <= warps[m] <= |outs| && i + 1 in ins'[warps[m] - 1]
    ensures SameMembers(outs, outs[i := warps])
    ensures ok <==> !exists w :: w in outs[i] && !(1 <= w <= |outs|)
    ensures ok ==> MirroredUpTo(outs[i := warps], ins', i + 1)
  {
    if !ok {
      var m :| 0 <= m < |warps| && !(1 <= warps[m] <= |outs|);
      assert warps[m] in outs[i];
    } else {
      forall w | w in outs[i]
        ensures 1 <= w <= |outs| && i + 1 in ins'[w - 1]
      {
        assert w in warps;
        var m :| 0 <= m < |warps| && warps[m] == w;
      }
      MirroredGrows(outs, ins, outs[i := warps], ins', i);
    }
  }

  lemma SameMembersTrans(a: seq<seq<int>>, b: seq<seq<int>>, c: seq<seq<int>>)
    requires SameMembers(a, b) && SameMembers(b, c)
    ensures SameMembers(a, c)
  {
  }

  lemma WithinTrans(a: seq<seq<int>>, b: seq<seq<int>>, c: seq<seq<int>>)
    requires Within(a, b) && Within(b, c)
    ensures Within(a, c)
  {
  }

  /** A warp out of range in a reordering is one in the original. */
  lemma OutOfRangeShared(outs: seq<seq<int>>, outs': seq<seq<int>>, i: int)
    requires SameMembers(outs, outs') && 0 <= i < |outs|
    requires exists w :: w in outs'[i] && !(1 <= w <= |outs'|)
    ensures !WarpsWithin(outs)
  {
    var w :| w in outs'[i] && !(1 <= w <= |outs'|);
    assert w in outs[i];
  }

  /** Reordering rows keeps every warp in range. */
  lemma InRangeShared(outs: seq<seq<int>>, outs': seq<seq<int>>)
    requires SameMembers(outs, outs') && WarpsWithin(outs')
    ensures WarpsWithin(outs)
  {
    forall i, w | 0 <= i < |outs| && w in outs[i]
      ensures 1 <= w <= |outs|
    {
      assert w in outs'[i];
    }
  }

  /** Growing inbound lists and reordered outbound ones keep what is mirrored. */
  lemma MirroredGrows(outs: seq<seq<int>>, ins: seq<seq<int>>, outs': seq<seq<int>>, ins': seq<seq<int>>, n: int)
    requires MirroredUpTo(outs, ins, n) && Within(ins, ins') && SameMembers(outs, outs')
    ensures MirroredUpTo(outs', ins', n)
  {
  }

  /** Recording x into one more inbound list keeps what was gained so far. */
  lemma GainsStep(ins0: seq<seq<int>>, ins: seq<seq<int>>, j: int, x: int)
    requires Gains(ins0, ins, x) && 0 <= j < |ins|
    ensures Gains(ins0, ins[j := With(ins[j], x)], x)
  {
  }

  /** Recording anything into an inbound list keeps every entry it had. */
  lemma WithinStep(ins0: seq<seq<int>>, ins: seq<seq<int>>, j: int, x: int)
    requires Within(ins0, ins) && 0 <= j < |ins|
    ensures Within(ins0, ins[j := With(ins[j], x)])
  {
  }

  /** One more target of a row records x, and the earlier ones keep it. */
  lemma RecordedStep(warps: seq<int>, ins: seq<seq<int>>, i: int, x: int)
    requires 0 <= i < |warps| && 1 <= warps[i] <= |ins|
    requires forall m :: 0 <= m < i ==> 1 <= warps[m] <= |ins| && x in ins[warps[m] - 1]
    ensures var ins' := ins[warps[i] - 1 := With(ins[warps[i] - 1], x)];
      forall m :: 0 <= m < i + 1 ==> 1 <= warps[m] <= |ins'| && x in ins'[warps[m] - 1]
  {
  }

  /** What a loop recorded position by position holds for every member. */
  lemma AllRecorded(warps: seq<int>, ins: seq<seq<int>>, x: int)
    requires forall m :: 0 <= m < |warps| ==> 1 <= warps[m] <= |ins| && x in ins[warps[m] - 1]
    ensures forall w :: w in warps ==> 1 <= w <= |ins| && x in ins[w - 1]
  {
  }

  /** A complete mirror has every warp in range. */
  lemma MirroredInRange(outs: seq<seq<int>>, ins: seq<seq<int>>)
    requires MirroredUpTo(outs, ins, |outs|)
    ensures WarpsWithin(outs)
  {
  }

  class Database {
    var sectors: array?<Sector>
    var stardockSector: int
    var zeroSectors: seq<int>
    var lastCimPortsDate: Option<Date>
    const gameStats: GameStats
    const you: Trader
    var ships: map<int, Ship>
    var shipTypes: set<ShipType>
    var shipTypeNameIndex: map<string, ShipType>
    var traders: set<Trader>
    var traderNameIndex: map<string, Trader>
    var corpNumberIndex: map<int, Corporation>

    ghost function SectorSet(): set<Sector>
      reads this`sectors, sectors
    {
      if sectors == null then {} else set i | 0 <= i < sectors.Length :: sectors[i]
    }

    function Snapshot(): Indexes
      reads this
    {
      Indexes(stardockSector, zeroSectors, lastCimPortsDate, ships, shipTypes, shipTypeNameIndex,
              traders, traderNameIndex, corpNumberIndex)
    }

    /** Sector k+1 sits at index k, and every sector's sorted flags are truthful. */
    ghost predicate SectorsValid()
      reads this`sectors, sectors, SectorSet()
    {
      sectors != null ==>
        sectors.Length <= INT_MAX &&
        forall i :: 0 <= i < sectors.Length ==> sectors[i].number == i + 1 && sectors[i].Valid()
    }

    /** Every index entry is filed under its own name or number. */
    ghost predicate IndexesValid()
      reads this, traders
    {
      NoDuplicates(zeroSectors) &&
      (forall n :: n in shipTypeNameIndex ==> shipTypeNameIndex[n] in shipTypes && shipTypeNameIndex[n].name == n) &&
      (forall t :: t in shipTypes ==> t.name in shipTypeNameIndex) &&
      (forall t :: t in traders ==> t.name.Some? && TraderKey(t.name.value) in traderNameIndex) &&
      (forall k :: k in traderNameIndex ==>
         traderNameIndex[k] in traders && traderNameIndex[k].name.Some? &&
         TraderKey(traderNameIndex[k].name.value) == k) &&
      (forall n :: n in corpNumberIndex ==> corpNumberIndex[n].number == n)
    }

    ghost predicate Valid()
      reads this, sectors, SectorSet(), traders
    {
      SectorsValid() && IndexesValid() && you.isYou
    }

    /** The outbound warp lists, sector k+1 at index k. */
    function Outs(): (outs: seq<seq<int>>)
      requires sectors != null
      reads this`sectors, sectors, SectorSet()
      ensures |outs| == sectors.Length && forall k :: 0 <= k < |outs| ==> outs[k] == sectors[k].warpsOut
    {
      var a: array<Sector> := sectors;
      seq(a.Length, k requires 0 <= k < a.Length reads a, a[..] => a[k].warpsOut)
    }

    /** The inbound warp lists, sector k+1 at index k. */
    ghost function Ins(): (ins: seq<seq<int>>)
      requires sectors != null
      reads this`sectors, sectors, SectorSet()
      ensures |ins| == sectors.Length && forall k :: 0 <= k < |ins| ==> ins[k] == sectors[k].warpsIn
    {
      var a: array<Sector> := sectors;
      seq(a.Length, k requires 0 <= k < a.Length reads a, a[..] => a[k].warpsIn)
    }

    /** Every warp out leads to a sector of the array, whose inbound warps list the sector it leaves. */
    ghost predicate Mirrored()
      reads this`sectors, sectors, SectorSet()
    {
      sectors != null ==> MirroredUpTo(Outs(), Ins(), sectors.Length)
    }

    /** Every warp out leads to a sector of the array. */
    predicate WarpsInRange()
      reads this`sectors, sectors, SectorSet()
      requires sectors != null
    {
      WarpsWithin(Outs())
    }

    /** The sectors are valid and hold exactly these warp lists. */
    ghost predicate Holds(outs: seq<seq<int>>, ins: seq<seq<int>>)
      reads this`sectors, sectors, SectorSet()
    {
      sectors != null && SectorsValid() && Outs() == outs && Ins() == ins
    }

    constructor (gameStats: GameStats, now: Date)
      ensures Valid() && Mirrored() && sectors == null && this.gameStats == gameStats && fresh(you)
      ensures Snapshot() == Indexes(UNKNOWN, [], None, map[], {}, map[], {}, map[], map[])
    {
      sectors := null;
      stardockSector := UNKNOWN;
      zeroSectors := [];
      lastCimPortsDate := None;
      this.gameStats := gameStats;
      you := new Trader.You(now);
      ships := map[];
      shipTypes, shipTypeNameIndex := {}, map[];
      traders, traderNameIndex := {}, map[];
      corpNumberIndex := map[];
    }

    function IsInitialized(): (r: bool)
      reads this
      ensures r <==> sectors != null
    {
      sectors != null
    }

    /**
     * initialize: once the game stats give the number of sectors, creates
     * sectors 1..N, each unexplored and without warps. A second call changes
     * nothing.
     */
    method Initialize() returns (r: Result<()>)
      requires Valid()
      modifies this
      ensures Valid() && Snapshot() == old(Snapshot())
      ensures old(sectors) != null ==> r == Ok(()) && sectors == old(sectors)
      ensures old(sectors) == null ==> match gameStats.Sectors()
        case Err(e) => r == Err(e) && sectors == null
        case Ok(n) =>
          if n < 0 then r == Err(NegativeArraySize) && sectors == null
          else (r == Ok(()) && sectors != null && fresh(sectors) && sectors.Length == n && Mirrored() &&
            forall i :: 0 <= i < n ==> (fresh(sectors[i]) && sectors[i].warpsOut == [] && sectors[i].warpsIn == [] &&
              !sectors[i].explored && !sectors[i].fullyMapped))
    {
      if sectors != null {
        return Ok(());
      }
      var count := gameStats.Sectors();
      if count.Err? {
        return Err(count.error);
      }
      var n := count.value;
      if n < 0 {
        return Err(NegativeArraySize);
      }
      assert IsInt32(n);
      var made := NewSectors(n);
      Install(made);
      return Ok(());
    }

    /** sectors = new Sector[n], filled with the sectors just made. */
    method Install(made: seq<Sector>)
      requires Valid() && sectors == null && |made| <= INT_MAX
      requires forall i :: 0 <= i < |made| ==>
        made[i].number == i + 1 && made[i].Valid() &&
        made[i].warpsOut == [] && made[i].warpsIn == [] && !made[i].explored && !made[i].fullyMapped
      modifies this
      ensures Valid() && Snapshot() == old(Snapshot())
      ensures sectors != null && fresh(sectors) && sectors[..] == made && Mirrored()
    {
      sectors := new Sector[|made|](i requires 0 <= i < |made| => made[i]);
    }

    /** The loop of initialize: n new sectors, numbered from 1. */
    static method NewSectors(n: nat) returns (made: seq<Sector>)
      ensures |made| == n
      ensures forall i :: 0 <= i < n ==>
        fresh(made[i]) && made[i].number == i + 1 && made[i].Valid() &&
        made[i].warpsOut == [] && made[i].warpsIn == [] && !made[i].explored && !made[i].fullyMapped
    {
      made := [];
      while |made| < n
        invariant |made| <= n
        invariant forall i :: 0 <= i < |made| ==>
          fresh(made[i]) && made[i].number == i + 1 && made[i].Valid() &&
          made[i].warpsOut == [] && made[i].warpsIn == [] && !made[i].explored && !made[i].fullyMapped
      {
        var s := new Sector(|made| + 1);
        made := made + [s];
      }
    }

    /** getNumSectors: UNKNOWN before initialize. */
    function GetNumSectors(): (r: int)
      reads this
      ensures sectors == null ==> r == UNKNOWN
      ensures sectors != null ==> r == sectors.Length
    {
      if sectors != null then sectors.Length else UNKNOWN
    }

    /** getSector: sector n from the array, which throws before initialize or out of range. */
    function GetSector(n: int): (r: Result<Sector>)
      requires SectorsValid()
      reads this, sectors, SectorSet()
      ensures r.Err? <==> sectors == null || n < 1 || n > sectors.Length
      ensures r.Err? ==> r.error == (if sectors == null then NullPointer else IndexOutOfBounds)
      ensures r.Ok? ==> r.value.number == n && r.value in SectorSet()
    {
      if sectors == null then Err(NullPointer)
      else if n < 1 || n > sectors.Length then Err(IndexOutOfBounds)
      else Ok(sectors[n - 1])
    }

    method SetStardockSector(n: int)
      modifies this
      ensures Snapshot() == old(Snapshot()).(stardockSector := n) && sectors == old(sectors)
    {
      stardockSector := n;
    }

    /** getStardockSector: null while unknown, otherwise the sector at that number. */
    function GetStardockSector(): (r: Result<Option<Sector>>)
      requires SectorsValid()
      reads this, sectors, SectorSet()
      ensures stardockSector == UNKNOWN ==> r == Ok(None)
      ensures stardockSector != UNKNOWN ==>
        (r.Err? <==> GetSector(stardockSector).Err?) &&
        (r.Ok? ==> r.value.Some? && r.value.value.number == stardockSector)
    {
      if stardockSector == UNKNOWN then Ok(None)
      else if sectors == null then Err(NullPointer)
      else if stardockSector < 1 || stardockSector > sectors.Length then Err(IndexOutOfBounds)
      else Ok(Some(sectors[stardockSector - 1]))
    }

    /** isFedSpace: sectors 1 to 10, and the Stardock sector. */
    function IsFedSpace(s: Sector): (r: Result<bool>)
      requires SectorsValid()
      reads this, sectors, SectorSet(), s
      ensures s.number <= 10 ==> r == Ok(true)
      ensures s.number > 10 && GetStardockSector().Ok? ==>
        r == Ok(GetStardockSector().value == Some(s))
      ensures r.Err? ==> s.number > 10 && GetStardockSector().Err?
    {
      if s.number <= 10 then Ok(true)
      else match GetStardockSector()
        case Err(e) => Err(e)
        case Ok(dock) => Ok(dock == Some(s))
    }

    /** addZeroSector: remembers a class 0 port's sector once. */
    method AddZeroSector(n: int)
      requires IndexesValid()
      modifies this
      ensures IndexesValid() && n in zeroSectors && sectors == old(sectors)
      ensures Snapshot() == old(Snapshot()).(zeroSectors := if n in old(zeroSectors) then old(zeroSectors) else old(zeroSectors) + [n])
    {
      if n !in zeroSectors {
        zeroSectors := zeroSectors + [n];
      }
    }

    /** getZeroSectors: the sectors of the class 0 ports, in the order they were found. */
    method GetZeroSectors() returns (r: Result<seq<Sector>>)
      requires SectorsValid()
      ensures r.Err? <==> exists i :: 0 <= i < |zeroSectors| && GetSector(zeroSectors[i]).Err?
      ensures r.Ok? ==> |r.value| == |zeroSectors|
      ensures r.Ok? ==> forall i :: 0 <= i < |zeroSectors| ==> GetSector(zeroSectors[i]) == Ok(r.value[i])
    {
      var zeros: seq<Sector> := [];
      while |zeros| < |zeroSectors|
        invariant |zeros| <= |zeroSectors|
        invariant forall i :: 0 <= i < |zeros| ==> GetSector(zeroSectors[i]) == Ok(zeros[i])
      {
        var s := GetSector(zeroSectors[|zeros|]);
        if s.Err? {
          return Err(s.error);
        }
        zeros := zeros + [s.value];
      }
      return Ok(zeros);
    }

    /** getShip: the ship with that number, or null. */
    function GetShip(number: int): (r: Option<Ship>)
      reads this
      ensures r.Some? <==> number in ships
      ensures r.Some? ==> r.value == ships[number]
    {
      if number in ships then Some(ships[number]) else None
    }

    method PutShip(number: int, ship: Ship)
      modifies this
      ensures Snapshot() == old(Snapshot()).(ships := old(ships)[number := ship]) && sectors == old(sectors)
    {
      ships := ships[number := ship];
    }

    method RemoveShip(number: int)
      modifies this
      ensures Snapshot() == old(Snapshot()).(ships := old(ships) - {number}) && sectors == old(sectors)
    {
      ships := ships - {number};
    }

    /** getOrCreateShipType: the type filed under the name, or a new unknown type filed under it. */
    method GetOrCreateShipType(name: string) returns (t: ShipType)
      requires Valid()
      modifies this
      ensures Valid() && sectors == old(sectors)
      ensures t.name == name && name in shipTypeNameIndex && shipTypeNameIndex[name] == t
      ensures name in old(shipTypeNameIndex) ==> t == old(shipTypeNameIndex[name]) && Snapshot() == old(Snapshot())
      ensures name !in old(shipTypeNameIndex) ==> fresh(t) && t.value == UNKNOWN_SHIP_TYPE
      ensures name !in old(shipTypeNameIndex) ==>
        Snapshot() == old(Snapshot()).(shipTypes := old(shipTypes) + {t},
                                       shipTypeNameIndex := old(shipTypeNameIndex)[name := t])
    {
      if name in shipTypeNameIndex {
        return shipTypeNameIndex[name];
      }
      t := new ShipType(name);
      shipTypes := shipTypes + {t};
      shipTypeNameIndex := shipTypeNameIndex[name := t];
    }

    /**
     * getOrCreateTrader: the trader filed under the name's key, renamed to the
     * given name when that is longer; or a new trader with that name, filed
     * under its key.
     */
    method GetOrCreateTrader(name: string, now: Date) returns (t: Trader)
      requires Valid()
      modifies this, traders
      ensures Valid() && sectors == old(sectors)
      ensures var key := TraderKey(name);
        key in traderNameIndex && traderNameIndex[key] == t && t.name.Some? && TraderKey(t.name.value) == key
      ensures TraderKey(name) in old(traderNameIndex) ==>
        t == old(traderNameIndex[TraderKey(name)]) && Snapshot() == old(Snapshot()) &&
        t.name == (if |name| > |old(t.name.value)| then Some(name) else old(t.name))
      ensures TraderKey(name) !in old(traderNameIndex) ==>
        fresh(t) && t.name == Some(name) && !t.isYou &&
        Snapshot() == old(Snapshot()).(traders := old(traders) + {t},
                                       traderNameIndex := old(traderNameIndex)[TraderKey(name) := t])
      ensures forall u :: u in old(traders) && u != t ==> u.name == old(u.name)
    {
      var key := TraderKey(name);
      if key in traderNameIndex {
        t := traderNameIndex[key];
        if |name| > |t.name.value| {
          LengthenName(t, name);
        }
        return;
      }
      t := AddTrader(name, now);
    }

    /** A known trader takes the longer name that shares its key. */
    method LengthenName(t: Trader, name: string)
      requires Valid() && t in traders && t.name.Some? && TraderKey(name) == TraderKey(t.name.value)
      modifies t
      ensures Valid() && t.name == Some(name)
    {
      t.SetName(name);
    }

    /** A new trader, filed under its key. */
    method AddTrader(name: string, now: Date) returns (t: Trader)
      requires Valid()
      modifies this
      ensures Valid() && sectors == old(sectors)
      ensures fresh(t) && t.name == Some(name) && !t.isYou
      ensures Snapshot() == old(Snapshot()).(traders := old(traders) + {t},
                                             traderNameIndex := old(traderNameIndex)[TraderKey(name) := t])
    {
      t := new Trader(now);
      t.SetName(name);
      FileTrader(t, name);
    }

    /** traders.add and traderNameIndex.put for a trader named `name`. */
    method FileTrader(t: Trader, name: string)
      requires Valid() && t.name == Some(name) && !t.isYou && t !in traders
      modifies this
      ensures Valid() && sectors == old(sectors)
      ensures Snapshot() == old(Snapshot()).(traders := old(traders) + {t},
                                             traderNameIndex := old(traderNameIndex)[TraderKey(name) := t])
    {
      traders := traders + {t};
      traderNameIndex := traderNameIndex[TraderKey(name) := t];
    }

    /**
     * getTrader: the trader filed under the name's key, provided the name
     * begins that trader's name.
     */
    method GetTrader(name: string) returns (r: Option<Trader>)
      requires Valid()
      ensures var key := TraderKey(name);
        r.Some? <==> key in traderNameIndex && name <= traderNameIndex[key].name.value
      ensures r.Some? ==> r.value == traderNameIndex[TraderKey(name)] && name <= r.value.name.value
    {
      var key := TraderKey(name);
      if key in traderNameIndex {
        var t := traderNameIndex[key];
        if name <= t.name.value {
          return Some(t);
        }
      }
      return None;
    }

    /** getOrCreateCorp: the corporation with that number, created when new. */
    method GetOrCreateCorp(number: int) returns (c: Corporation)
      requires Valid()
      modifies this
      ensures Valid() && sectors == old(sectors)
      ensures c.number == number && number in corpNumberIndex && corpNumberIndex[number] == c
      ensures number in old(corpNumberIndex) ==> c == old(corpNumberIndex[number]) && Snapshot() == old(Snapshot())
      ensures number !in old(corpNumberIndex) ==> fresh(c) && c.members == {}
      ensures number !in old(corpNumberIndex) ==>
        Snapshot() == old(Snapshot()).(corpNumberIndex := old(corpNumberIndex)[number := c])
    {
      if number in corpNumberIndex {
        return corpNumberIndex[number];
      }
      c := new Corporation(number);
      corpNumberIndex := corpNumberIndex[number := c];
    }

    /** A sector of the array sits at the index of its number, where the warp lists hold its own. */
    lemma RowOf(s: Sector, outs: seq<seq<int>>, ins: seq<seq<int>>)
      requires Holds(outs, ins) && s in SectorSet()
      ensures 1 <= s.number <= |outs| && sectors[s.number - 1] == s
      ensures outs[s.number - 1] == s.warpsOut && ins[s.number - 1] == s.warpsIn
    {
    }

    /** The step of addWarpTo on sector s itself, seen through the warp lists. */
    method AppendStep(s: Sector, sector: int, ghost outs: seq<seq<int>>, ghost ins: seq<seq<int>>) returns (added: bool)
      requires Holds(outs, ins) && s in SectorSet()
      modifies s
      ensures added <==> !old(s.fullyMapped) && sector !in outs[s.number - 1]
      ensures Holds(outs[s.number - 1 := if added then outs[s.number - 1] + [sector] else outs[s.number - 1]], ins)
    {
      added := s.AppendWarpOut(sector);
    }

    /** addWarpFrom on sector j+1, seen through the warp lists. */
    method RecordStep(j: int, x: int, ghost outs: seq<seq<int>>, ghost ins: seq<seq<int>>)
      requires Holds(outs, ins) && 0 <= j < |outs|
      modifies sectors[j]
      ensures Holds(outs, ins[j := With(ins[j], x)])
      ensures sectors[j].explored == old(sectors[j].explored) && sectors[j].fullyMapped == old(sectors[j].fullyMapped)
    {
      sectors[j].AddWarpFrom(x);
    }

    /** getWarpsOut on sector j+1, seen through the warp lists. */
    method SortStep(j: int, ghost outs: seq<seq<int>>, ghost ins: seq<seq<int>>) returns (warps: seq<int>)
      requires Holds(outs, ins) && 0 <= j < |outs|
      modifies sectors[j]
      ensures Holds(outs[j := warps], ins)
      ensures forall w :: w in warps <==> w in outs[j]
    {
      warps := sectors[j].GetWarpsOut();
      forall w
        ensures w in warps <==> w in old(sectors[j].warpsOut)
      {
        assert w in warps <==> w in multiset(warps);
        assert w in old(sectors[j].warpsOut) <==> w in multiset(old(sectors[j].warpsOut));
      }
    }

    /** The step of setWarpsOut on sector s itself, seen through the warp lists. */
    method ReplaceStep(s: Sector, warps: seq<int>, ghost outs: seq<seq<int>>, ghost ins: seq<seq<int>>) returns (replaced: bool)
      requires Holds(outs, ins) && s in SectorSet()
      modifies s
      ensures replaced <==> !(old(s.warpsOut) == SortSeq(warps) && old(s.warpsOutSorted))
      ensures replaced ==> s.explored && s.fullyMapped
      ensures !replaced ==> s.explored == old(s.explored)
      ensures Holds(outs[s.number - 1 := if replaced then SortSeq(warps) else old(s.warpsOut)], ins)
      ensures forall w :: w in SortSeq(warps) <==> w in warps
    {
      replaced := s.ReplaceWarpsOut(warps);
      forall w
        ensures w in SortSeq(warps) <==> w in warps
      {
        SortSeqSameMembers(warps, w);
      }
    }

    /**
     * addWarpTo on sector s: when s takes the warp (it is not fully mapped
     * and does not have it yet), the target sector records the warp into it.
     * A target outside the array throws after s has taken the warp.
     */
    method AddWarpTo(s: Sector, sector: int, ghost outs: seq<seq<int>>, ghost ins: seq<seq<int>>)
      returns (r: Result<()>, ghost outs': seq<seq<int>>, ghost ins': seq<seq<int>>)
      requires Holds(outs, ins) && s in SectorSet()
      modifies SectorSet()
      ensures Holds(outs', ins')
      ensures var added := !old(s.fullyMapped) && sector !in outs[s.number - 1];
        outs' == outs[s.number - 1 := if added then outs[s.number - 1] + [sector] else outs[s.number - 1]] &&
        (r.Err? <==> added && !(1 <= sector <= |outs|)) &&
        (r.Err? ==> r.error == IndexOutOfBounds && ins' == ins) &&
        (r.Ok? ==> ins' == if added then ins[sector - 1 := With(ins[sector - 1], s.number)] else ins)
      ensures MirroredUpTo(outs, ins, |outs|) && r.Ok? ==> MirroredUpTo(outs', ins', |outs'|)
    {
      var added := AppendStep(s, sector, outs, ins);
      outs' := outs[s.number - 1 := if added then outs[s.number - 1] + [sector] else outs[s.number - 1]];
      if !added {
        return Ok(()), outs', ins;
      }
      if !(1 <= sector <= sectors.Length) {
        return Err(IndexOutOfBounds), outs', ins;
      }
      RecordStep(sector - 1, s.number, outs', ins);
      ins' := ins[sector - 1 := With(ins[sector - 1], s.number)];
      MirroredAfterAdd(outs, ins, ins', s.number - 1, sector);
      return Ok(()), outs', ins';
    }

    /**
     * setWarpsOut on sector s, corrected: unless s already holds exactly these
     * warps, it takes them (sorted) as its complete list, and every target
     * records the warp into it. A target outside the array throws, after the
     * targets before it were updated.
     */
    method SetWarpsOut(s: Sector, warps: seq<int>, ghost outs: seq<seq<int>>, ghost ins: seq<seq<int>>)
      returns (r: Result<()>, ghost outs': seq<seq<int>>, ghost ins': seq<seq<int>>)
      requires Holds(outs, ins) && s in SectorSet()
      modifies SectorSet()
      ensures Holds(outs', ins')
      ensures var replaced := !(old(s.warpsOut) == SortSeq(warps) && old(s.warpsOutSorted));
        outs' == outs[s.number - 1 := if replaced then SortSeq(warps) else outs[s.number - 1]] &&
        (replaced ==> s.explored && s.fullyMapped) &&
        (!replaced ==> r == Ok(()) && ins' == ins) &&
        (r.Ok? <==> !replaced || forall w :: w in warps ==> 1 <= w <= |outs|) &&
        (r.Err? ==> r.error == IndexOutOfBounds) &&
        (replaced && r.Ok? ==> forall w :: w in warps ==> s.number in ins'[w - 1])
      ensures Gains(ins, ins', s.number) && (old(s.explored) ==> s.explored)
      ensures MirroredUpTo(outs, ins, |outs|) && r.Ok? ==> MirroredUpTo(outs', ins', |outs'|)
    {
      var replaced := ReplaceStep(s, warps, outs, ins);
      if !replaced {
        return Ok(()), outs, ins;
      }
      outs' := outs[s.number - 1 := SortSeq(warps)];
      r, ins' := RecordTargets(s, warps, SortSeq(warps), outs, ins);
    }

    /**
     * The rest of setWarpsOut, once s took row, the sorted warps: every
     * target records the warp from s.
     */
    method RecordTargets(s: Sector, warps: seq<int>, ghost row: seq<int>, ghost outs: seq<seq<int>>, ghost ins: seq<seq<int>>)
      returns (r: Result<()>, ghost ins': seq<seq<int>>)
      requires s in SectorSet() && 1 <= s.number <= |outs|
      requires Holds(outs[s.number - 1 := row], ins) && forall w :: w in row <==> w in warps
      modifies SectorSet()
      ensures Holds(outs[s.number - 1 := row], ins') && Gains(ins, ins', s.number)
      ensures s.explored == old(s.explored) && s.fullyMapped == old(s.fullyMapped)
      ensures r.Ok? <==> forall w :: w in warps ==> 1 <= w <= |outs|
      ensures r.Err? ==> r.error == IndexOutOfBounds
      ensures r.Ok? ==> forall w :: w in warps ==> s.number in ins'[w - 1]
      ensures MirroredUpTo(outs, ins, |outs|) && r.Ok? ==> MirroredUpTo(outs[s.number - 1 := row], ins', |outs|)
    {
      r, ins' := RecordWarpsFrom(warps, s, outs[s.number - 1 := row], ins);
      if r.Err? {
        ghost var m :| 0 <= m < |warps| && !(1 <= warps[m] <= |outs|);
        assert warps[m] in warps;
        return;
      }
      AllRecorded(warps, ins', s.number);
      MirroredAfterSet(outs, ins, ins', s.number - 1, warps, row);
    }

    /**
     * The loop of setWarpsOut: every sector of warps, in order, records the
     * warp from s. A sector outside the array throws, after the ones before
     * it were updated.
     */
    method RecordWarpsFrom(warps: seq<int>, s: Sector, ghost outs: seq<seq<int>>, ghost ins0: seq<seq<int>>)
      returns (r: Result<()>, ghost ins: seq<seq<int>>)
      requires Holds(outs, ins0) && s in SectorSet()
      modifies SectorSet()
      ensures Holds(outs, ins) && Gains(ins0, ins, s.number)
      ensures s.explored == old(s.explored) && s.fullyMapped == old(s.fullyMapped)
      ensures r.Err? <==> exists m :: 0 <= m < |warps| && !(1 <= warps[m] <= |outs|)
      ensures r.Err? ==> r.error == IndexOutOfBounds
      ensures r.Ok? ==> forall m :: 0 <= m < |warps| ==> 1 <= warps[m] <= |outs| && s.number in ins[warps[m] - 1]
    {
      ins := ins0;
      var i := 0;
      while i < |warps|
        invariant 0 <= i <= |warps|
        invariant Holds(outs, ins) && Gains(ins0, ins, s.number)
        invariant s.explored == old(s.explored) && s.fullyMapped == old(s.fullyMapped)
        invariant forall m :: 0 <= m < i ==> 1 <= warps[m] <= |outs| && s.number in ins[warps[m] - 1]
      {
        if !(1 <= warps[i] <= sectors.Length) {
          return Err(IndexOutOfBounds), ins;
        }
        ins := RecordFromStep(warps, i, s, outs, ins0, ins);
        i := i + 1;
      }
      return Ok(()), ins;
    }

    /** The body of RecordWarpsFrom's loop: target warps[i] records the warp from s. */
    method RecordFromStep(warps: seq<int>, i: int, s: Sector, ghost outs: seq<seq<int>>, ghost ins0: seq<seq<int>>,
                          ghost ins: seq<seq<int>>) returns (ghost ins': seq<seq<int>>)
      requires Holds(outs, ins) && Gains(ins0, ins, s.number) && s in SectorSet()
      requires 0 <= i < |warps| && 1 <= warps[i] <= |outs|
      requires forall m :: 0 <= m < i ==> 1 <= warps[m] <= |outs| && s.number in ins[warps[m] - 1]
      modifies SectorSet()
      ensures Holds(outs, ins') && Gains(ins0, ins', s.number)
      ensures s.explored == old(s.explored) && s.fullyMapped == old(s.fullyMapped)
      ensures forall m :: 0 <= m < i + 1 ==> 1 <= warps[m] <= |outs| && s.number in ins'[warps[m] - 1]
    {
      ghost var sector := sectors[warps[i] - 1];
      RecordStep(warps[i] - 1, s.number, outs, ins);
      assert s == sector || (s.explored == old(s.explored) && s.fullyMapped == old(s.fullyMapped));
      GainsStep(ins0, ins, warps[i] - 1, s.number);
      RecordedStep(warps, ins, i, s.number);
      ins' := ins[warps[i] - 1 := With(ins[warps[i] - 1], s.number)];
    }

    /**
     * The warps out of sector i+1, in order, each recorded as a warp into its
     * target. A target outside the array throws.
     */
    method MirrorRow(i: int, warps: seq<int>, ghost outs: seq<seq<int>>, ghost ins0: seq<seq<int>>)
      returns (r: Result<()>, ghost ins: seq<seq<int>>)
      requires Holds(outs, ins0) && 0 <= i < |outs|
      modifies SectorSet()
      ensures Holds(outs, ins) && Within(ins0, ins)
      ensures r.Err? <==> exists m :: 0 <= m < |warps| && !(1 <= warps[m] <= |outs|)
      ensures r.Err? ==> r.error == IndexOutOfBounds
      ensures r.Ok? ==> forall m :: 0 <= m < |warps| ==> 1 <= warps[m] <= |outs| && i + 1 in ins[warps[m] - 1]
    {
      ins := ins0;
      var j := 0;
      while j < |warps|
        invariant 0 <= j <= |warps|
        invariant Holds(outs, ins) && Within(ins0, ins)
        invariant forall m :: 0 <= m < j ==> 1 <= warps[m] <= |outs| && i + 1 in ins[warps[m] - 1]
      {
        if !(1 <= warps[j] <= sectors.Length) {
          return Err(IndexOutOfBounds), ins;
        }
        ins := MirrorStep(warps, j, i + 1, outs, ins0, ins);
        j := j + 1;
      }
      return Ok(()), ins;
    }

    /** The body of MirrorRow's loop: target warps[j] records x. */
    method MirrorStep(warps: seq<int>, j: int, x: int, ghost outs: seq<seq<int>>, ghost ins0: seq<seq<int>>,
                      ghost ins: seq<seq<int>>) returns (ghost ins': seq<seq<int>>)
      requires Holds(outs, ins) && Within(ins0, ins) && 0 <= j < |warps| && 1 <= warps[j] <= |outs|
      requires forall m :: 0 <= m < j ==> 1 <= warps[m] <= |outs| && x in ins[warps[m] - 1]
      modifies SectorSet()
      ensures Holds(outs, ins') && Within(ins0, ins')
      ensures forall m :: 0 <= m < j + 1 ==> 1 <= warps[m] <= |outs| && x in ins'[warps[m] - 1]
    {
      RecordStep(warps[j] - 1, x, outs, ins);
      WithinStep(ins0, ins, warps[j] - 1, x);
      RecordedStep(warps, ins, j, x);
      ins' := ins[warps[j] - 1 := With(ins[warps[j] - 1], x)];
    }

    /**
     * One sector of restoreTransients: sector i+1's warps are sorted, then
     * each is recorded as a warp into its target. A target outside the array
     * throws.
     */
    method MirrorSector(i: int, ghost outs: seq<seq<int>>, ghost ins: seq<seq<int>>)
      returns (r: Result<()>, ghost outs': seq<seq<int>>, ghost ins': seq<seq<int>>)
      requires Holds(outs, ins) && 0 <= i < |outs| && MirroredUpTo(outs, ins, i)
      modifies SectorSet()
      ensures Holds(outs', ins') && SameMembers(outs, outs') && Within(ins, ins')
      ensures r.Err? <==> exists w :: w in outs[i] && !(1 <= w <= |outs|)
      ensures r.Err? ==> r.error == IndexOutOfBounds
      ensures r.Ok? ==> MirroredUpTo(outs', ins', i + 1)
    {
      var warps := SortStep(i, outs, ins);
      outs' := outs[i := warps];
      r, ins' := MirrorRow(i, warps, outs', ins);
      MirroredAfterRow(outs, ins, ins', i, warps, r.Ok?);
    }

    /**
     * The sector half of restoreTransients: every warp out of every sector is
     * recorded as a warp into its target, visiting the sectors in order and
     * each one's warps sorted. A warp outside the array throws.
     */
    method MirrorWarps(ghost outs: seq<seq<int>>, ghost ins: seq<seq<int>>)
      returns (r: Result<()>, ghost outs': seq<seq<int>>, ghost ins': seq<seq<int>>)
      requires Holds(outs, ins)
      modifies SectorSet()
      ensures Holds(outs', ins') && SameMembers(outs, outs') && Within(ins, ins')
      ensures r.Err? <==> !WarpsWithin(outs)
      ensures r.Err? ==> r.error == IndexOutOfBounds
      ensures r.Ok? ==> MirroredUpTo(outs', ins', |outs'|)
    {
      outs', ins' := outs, ins;
      var i := 0;
      while i < sectors.Length
        invariant 0 <= i <= |outs| == sectors.Length
        invariant Holds(outs', ins') && SameMembers(outs, outs') && Within(ins, ins')
        invariant MirroredUpTo(outs', ins', i)
      {
        ghost var o, n := outs', ins';
        r, outs', ins' := MirrorSector(i, o, n);
        SameMembersTrans(outs, o, outs');
        WithinTrans(ins, n, ins');
        if r.Err? {
          OutOfRangeShared(outs, o, i);
          return;
        }
        i := i + 1;
      }
      MirroredInRange(outs', ins');
      InRangeShared(outs, outs');
      return Ok(()), outs', ins';
    }

    /**
     * restoreTransients: rebuilds the ship type index by name and the trader
     * index by key (a later entry with the same name or key wins), then, once
     * the sectors exist, mirrors every sector's warps.
     */
    method RestoreTransients(ghost outs: seq<seq<int>>, ghost ins: seq<seq<int>>)
      returns (r: Result<()>, ghost outs': seq<seq<int>>, ghost ins': seq<seq<int>>)
      requires SectorsValid() && you.isYou && NoDuplicates(zeroSectors)
      requires forall n :: n in corpNumberIndex ==> corpNumberIndex[n].number == n
      requires forall t :: t in traders ==> t.name.Some?
      requires sectors != null ==> Holds(outs, ins)
      modifies this, SectorSet()
      ensures Valid() && sectors == old(sectors)
      ensures Snapshot() == old(Snapshot()).(shipTypeNameIndex := shipTypeNameIndex, traderNameIndex := traderNameIndex)
      ensures sectors == null ==> r == Ok(())
      ensures sectors != null ==> Holds(outs', ins') && SameMembers(outs, outs') && Within(ins, ins')
      ensures sectors != null ==> (r.Err? <==> !WarpsWithin(outs)) && (r.Ok? ==> MirroredUpTo(outs', ins', |outs'|))
    {
      // The two halves touch disjoint state, so mirroring first ends in the
      // same state, thrown or not, as the source's order.
      if sectors == null {
        r, outs', ins' := Ok(()), outs, ins;
      } else {
        r, outs', ins' := MirrorWarps(outs, ins);
      }
      RebuildIndexes(outs', ins');
    }

    /** The index half of restoreTransients. */
    method RebuildIndexes(ghost outs: seq<seq<int>>, ghost ins: seq<seq<int>>)
      requires NoDuplicates(zeroSectors)
      requires forall n :: n in corpNumberIndex ==> corpNumberIndex[n].number == n
      requires forall t :: t in traders ==> t.name.Some?
      requires sectors != null ==> Holds(outs, ins)
      modifies this
      ensures IndexesValid() && sectors == old(sectors)
      ensures sectors != null ==> Holds(outs, ins)
      ensures Snapshot() == old(Snapshot()).(shipTypeNameIndex := shipTypeNameIndex, traderNameIndex := traderNameIndex)
    {
      var typeIndex := NameIndex(shipTypes);
      var traderIndex := KeyIndex(traders);
      shipTypeNameIndex, traderNameIndex := typeIndex, traderIndex;
    }

    /**
     * The ship types filed by name, visiting the set in no particular order,
     * so that of two types with one name either may be kept.
     */
    static method NameIndex(shipTypes: set<ShipType>) returns (index: map<string, ShipType>)
      ensures forall n :: n in index ==> index[n] in shipTypes && index[n].name == n
      ensures forall t :: t in shipTypes ==> t.name in index
    {
      var types := shipTypes;
      index := map[];
      while types != {}
        invariant types <= shipTypes
        invariant forall n :: n in index ==> index[n] in shipTypes && index[n].name == n
        invariant forall t :: t in shipTypes && t !in types ==> t.name in index
        decreases |types|
      {
        var t :| t in types;
        index := index[t.name := t];
        types := types - {t};
      }
    }

    /**
     * The traders filed by the key of their names, visiting the set in no
     * particular order, so that of two traders with one key either may be kept.
     */
    static method KeyIndex(traders: set<Trader>) returns (index: map<string, Trader>)
      requires forall t :: t in traders ==> t.name.Some?
      ensures forall k :: k in index ==>
        index[k] in traders && index[k].name.Some? && TraderKey(index[k].name.value) == k
      ensures forall t :: t in traders ==> TraderKey(t.name.value) in index
    {
      var named := traders;
      index := map[];
      while named != {}
        invariant named <= traders
        invariant forall k :: k in index ==>
          index[k] in traders && index[k].name.Some? && TraderKey(index[k].name.value) == k
        invariant forall t :: t in traders && t !in named ==> TraderKey(t.name.value) in index
        decreases |named|
      {
        var t :| t in named;
        index := index[TraderKey(t.name.value) := t];
        named := named - {t};
      }
    }

    /** The sectors as the search sees them, sector k+1 at index k. */
    function Views(n: nat): (v: seq<SectorView>)
      requires sectors != null && n <= sectors.Length
      reads this`sectors, sectors, SectorSet()
      ensures |v| == n && forall k :: 0 <= k < n ==> v[k] == View(sectors[k])
    {
      var a: array<Sector> := sectors;
      seq(n, k requires 0 <= k < n <= a.Length reads a, a[..] => View(a[k]))
    }

    /** Sector b is one known warp out of sector a. */
    ghost predicate Warp(a: int, b: int)
      requires sectors != null
      reads this`sectors, sectors, SectorSet()
    {
      1 <= a <= sectors.Length && b in sectors[a - 1].warpsOut
    }

    /** A course through the warps the database knows. */
    ghost predicate IsCourse(from: int, to: int, course: seq<int>)
      requires sectors != null
      reads this`sectors, sectors, SectorSet()
    {
      |course| >= 1 && course[0] == from && course[|course| - 1] == to &&
      forall k :: 1 <= k < |course| ==> Warp(course[k - 1], course[k])
    }

    lemma ViewsAreSectors()
      requires sectors != null && SectorsValid()
      ensures WarpsInRange() <==> ValidSectors(Views(sectors.Length))
      ensures forall from, to, course :: IsCourse(from, to, course) <==> Course(Views(sectors.Length), from, to, course)
    {
      var v := Views(sectors.Length);
      forall from, to, course
        ensures IsCourse(from, to, course) <==> Course(v, from, to, course)
      {
        if |course| >= 1 {
          forall k | 1 <= k < |course|
            ensures Warp(course[k - 1], course[k]) <==> Step(v, course[k - 1], course[k])
          {
          }
        }
      }
      if WarpsInRange() {
        forall k | 0 <= k < |v|
          ensures forall w :: w in v[k].warpsOut ==> 1 <= w <= |v|
        {
        }
      }
      if ValidSectors(v) {
        forall i, w | 0 <= i < sectors.Length && w in sectors[i].warpsOut
          ensures 1 <= w <= sectors.Length
        {
          assert w in v[i].warpsOut;
        }
      }
    }

    /**
     * plotCourse(from, to, ignoreAvoids): a breadth-first search from `from`
     * through every sector (or every sector not avoided) for sector `to`,
     * and the course to it when it is found. The search is the corrected one.
     */
    method PlotCourse(from: int, to: int, ignoreAvoids: bool) returns (r: Result<Option<seq<int>>>)
      requires SectorsValid()
      ensures from < 1 ==> r == Err(IllegalArgument)
      ensures from >= 1 && sectors == null ==> r == Err(NullPointer)
      ensures sectors != null && from > sectors.Length ==> r == Err(IllegalArgument)
      ensures sectors != null && 1 <= from <= sectors.Length && !WarpsInRange() ==> r == Err(IndexOutOfBounds)
      ensures sectors != null && WarpsInRange() ==>
        (r.Err? <==> from < 1 || from > sectors.Length) && (r.Err? ==> r.error == IllegalArgument)
      ensures r.Ok? && r.value.Some? ==> sectors != null && IsCourse(from, to, r.value.value)
      ensures r.Ok? && r.value.None? && ignoreAvoids ==> sectors != null && forall c :: !IsCourse(from, to, c)
    {
      // The search checks the origin's lower bound before it reads the array's length.
      if from < 1 {
        return Err(IllegalArgument);
      }
      if sectors == null {
        return Err(NullPointer);
      }
      if from > sectors.Length {
        return Err(IllegalArgument);
      }
      if !WarpsInRange() {
        return Err(IndexOutOfBounds);
      }
      ViewsAreSectors();
      var views := Views(sectors.Length);
      r := PlotCourseOn(views, from, to, ignoreAvoids);
      if r.Ok? && r.value.None? && ignoreAvoids {
        forall c
          ensures !IsCourse(from, to, c)
        {
          assert !Course(views, from, to, c);
        }
      }
    }

    /** plotCourse on the sectors as the search sees them. */
    static method PlotCourseOn(views: seq<SectorView>, from: int, to: int, ignoreAvoids: bool)
      returns (r: Result<Option<seq<int>>>)
      requires ValidSectors(views) && |views| <= INT_MAX
      ensures r.Err? <==> from < 1 || from > |views|
      ensures r.Err? ==> r.error == IllegalArgument
      ensures r.Ok? && r.value.Some? ==> Course(views, from, to, r.value.value)
      ensures r.Ok? && r.value.None? && ignoreAvoids ==> forall c :: !Course(views, from, to, c)
    {
      var inclusion := if ignoreAvoids then All else NotAvoided;
      var search := Explore(views, from, 0, inclusion, SectorIs(to), true, true);
      if search.Err? {
        return Err(search.error);
      }
      var t := search.value;
      if !TargetFound(t) {
        if ignoreAvoids {
          var o := OriginNode(views, from);
          assert Matches(All, o);
          forall c
            ensures !Course(views, from, to, c)
          {
            NotFoundMeansNoCourse(views, from, to, t, c);
          }
        }
        return Ok(None);
      }
      assert Tree(views, from, t.included, t.ordered);
      r := BreadthFirstSearches.PlotCourse(views, from, t, to);
    }

    method SetLastCimPortsDate(date: Date)
      modifies this
      ensures Snapshot() == old(Snapshot()).(lastCimPortsDate := Some(date)) && sectors == old(sectors)
    {
      lastCimPortsDate := Some(date);
    }
  }
}
