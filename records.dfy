/**
 * The entity records the database keeps: ship types, ships with their lazily
 * created detail block, traders (and You, the trader that is the player),
 * corporations and planet types.
 *
 * A ship's location is kept as the sector's number: a sector's number never
 * changes, so it identifies the sector object.
 */
module Records {
  import opened Wrappers
  import opened Constants
  import opened JavaInt
  import opened Ternaries
  import opened SpecialOwners

  /** Who owns fighters, mines or a ship: a trader, a corporation, or a special owner. */
  datatype Owner = TraderOwner(trader: Trader) | CorpOwner(corp: Corporation) | Special(special: SpecialOwner)

  // ---------------------------------------------------------------------
  // ShipType

  /** Every field of a ship type that a setter can change. */
  datatype ShipTypeValue = ShipTypeValue(
    initialHolds: int, maxHolds: int, fighters: int, shields: int, turnsPerWarp: int,
    fighterWave: int, transportRange: int, longRangeScan: int,
    combatScan: Ternary, planetScan: Ternary, transWarpLevel: int,
    interdictor: Ternary, landable: Ternary, guardianBonus: Ternary, fedOnly: Ternary,
    corpOnly: Ternary, ceoOnly: Ternary, pod: Ternary,
    price: int, mines: int, photons: int, genTorps: int, atomics: int, cloaks: int,
    probes: int, disruptors: int, corbomite: int, beacons: int)

  /** A ship type nothing is known about yet. */
  const UNKNOWN_SHIP_TYPE: ShipTypeValue := ShipTypeValue(
    UNKNOWN, UNKNOWN, UNKNOWN, UNKNOWN, UNKNOWN, UNKNOWN, UNKNOWN, UNKNOWN,
    Ternary.Unknown, Ternary.Unknown, UNKNOWN,
    Ternary.Unknown, Ternary.Unknown, Ternary.Unknown, Ternary.Unknown,
    Ternary.Unknown, Ternary.Unknown, Ternary.Unknown,
    UNKNOWN, UNKNOWN, UNKNOWN, UNKNOWN, UNKNOWN, UNKNOWN, UNKNOWN, UNKNOWN, UNKNOWN, UNKNOWN)

  class ShipType {
    const name: string
    var value: ShipTypeValue

    /** A new ship type: the given name, every number and every Ternary UNKNOWN. */
    constructor (name: string)
      ensures this.name == name && value == UNKNOWN_SHIP_TYPE
    {
      this.name := name;
      value := UNKNOWN_SHIP_TYPE;
    }

    /** setTransWarpLevel: the stored level only ever rises. */
    method SetTransWarpLevel(level: int)
      modifies this
      ensures value == old(value).(transWarpLevel := Max(old(value.transWarpLevel), level))
    {
      if value.transWarpLevel < level {
        value := value.(transWarpLevel := level);
      }
    }

    /** setPhotons: the stored count only ever rises. */
    method SetPhotons(photons: int)
      modifies this
      ensures value == old(value).(photons := Max(old(value.photons), photons))
    {
      if value.photons < photons {
        value := value.(photons := photons);
      }
    }

    /** setTurnsPerWarp, like the other plain setters, overwrites whatever was stored. */
    method SetTurnsPerWarp(turns: int)
      modifies this
      ensures value == old(value).(turnsPerWarp := turns)
    {
      value := value.(turnsPerWarp := turns);
    }

    method SetInitialHolds(holds: int)
      modifies this
      ensures value == old(value).(initialHolds := holds)
    {
      value := value.(initialHolds := holds);
    }

    method SetMaxHolds(holds: int)
      modifies this
      ensures value == old(value).(maxHolds := holds)
    {
      value := value.(maxHolds := holds);
    }

    method SetFighters(fighters: int)
      modifies this
      ensures value == old(value).(fighters := fighters)
    {
      value := value.(fighters := fighters);
    }

    method SetShields(shields: int)
      modifies this
      ensures value == old(value).(shields := shields)
    {
      value := value.(shields := shields);
    }

    method SetLongRangeScan(scan: int)
      modifies this
      ensures value == old(value).(longRangeScan := scan)
    {
      value := value.(longRangeScan := scan);
    }

    method SetCombatScan(t: Ternary)
      modifies this
      ensures value == old(value).(combatScan := t)
    {
      value := value.(combatScan := t);
    }

    method SetPlanetScan(t: Ternary)
      modifies this
      ensures value == old(value).(planetScan := t)
    {
      value := value.(planetScan := t);
    }

    method SetPrice(price: int)
      modifies this
      ensures value == old(value).(price := price)
    {
      value := value.(price := price);
    }

    /** toString: the name. */
    function ToString(): (s: string)
      reads this
      ensures s == name
    {
      name
    }
  }

  /** Two calls of a rising setter keep the larger value, in either order. */
  lemma RisingSettersCommute(v: ShipTypeValue, a: int, b: int)
    ensures v.(photons := Max(v.photons, a)).(photons := Max(Max(v.photons, a), b))
         == v.(photons := Max(v.photons, b)).(photons := Max(Max(v.photons, b), a))
    ensures Max(Max(v.photons, a), b) >= v.photons
  {
  }

  // ---------------------------------------------------------------------
  // Ship and its detail block

  /** What a ship's detail block holds. */
  datatype DetailsValue = DetailsValue(
    buildDate: Option<Date>, holds: int, transWarp: int, longRangeScan: int,
    planetScan: bool, psyProbe: bool, photons: int, beacons: int, probes: int,
    armids: int, limpets: int, disruptors: int, genTorps: int, atomics: int,
    cloaks: int, corbomite: int, interdictOn: bool, password: Option<string>,
    cargo: seq<int>)

  /** A freshly created block: every number 0, every flag false, no date and no password. */
  const BLANK_DETAILS: DetailsValue :=
    DetailsValue(None, 0, 0, 0, false, false, 0, 0, 0, 0, 0, 0, 0, 0, 0, 0, false, None, [0, 0, 0, 0])

  /** The block a setter writes into: the existing one, or a blank one. */
  function OrBlank(d: Option<DetailsValue>): DetailsValue
  {
    if d.None? then BLANK_DETAILS else d.value
  }

  function Sum(s: seq<int>): int
  {
    if s == [] then 0 else Sum(s[..|s| - 1]) + s[|s| - 1]
  }

  /** Changing one cargo slot changes the total by the difference. */
  lemma {:induction false} SumUpdate(s: seq<int>, i: nat, q: int)
    requires i < |s|
    ensures Sum(s[i := q]) == Sum(s) - s[i] + q
  {
    if i < |s| - 1 {
      assert s[i := q][..|s| - 1] == s[..|s| - 1][i := q];
      SumUpdate(s[..|s| - 1], i, q);
    } else {
      assert s[i := q][..|s| - 1] == s[..|s| - 1];
    }
  }

  class Details {
    var buildDate: Option<Date>
    var holds: int
    var transWarp: int
    var longRangeScan: int
    var planetScan: bool
    var psyProbe: bool
    var photons: int
    var beacons: int
    var probes: int
    var armids: int
    var limpets: int
    var disruptors: int
    var genTorps: int
    var atomics: int
    var cloaks: int
    var corbomite: int
    var interdictOn: bool
    var password: Option<string>
    const cargo: array<int>

    constructor ()
      ensures Value() == BLANK_DETAILS && fresh(cargo)
    {
      buildDate := None;
      holds, transWarp, longRangeScan := 0, 0, 0;
      planetScan, psyProbe := false, false;
      photons, beacons, probes, armids, limpets, disruptors := 0, 0, 0, 0, 0, 0;
      genTorps, atomics, cloaks, corbomite := 0, 0, 0, 0;
      interdictOn := false;
      password := None;
      cargo := new int[4](_ => 0);
      new;
      assert cargo[..] == [0, 0, 0, 0];
    }

    function Value(): DetailsValue
      reads this, cargo
    {
      DetailsValue(buildDate, holds, transWarp, longRangeScan, planetScan, psyProbe, photons,
                   beacons, probes, armids, limpets, disruptors, genTorps, atomics, cloaks,
                   corbomite, interdictOn, password, cargo[..])
    }

    /** getEmptyHolds: the holds minus everything in the four cargo slots. */
    method GetEmptyHolds() returns (empty: int)
      ensures empty == holds - Sum(cargo[..])
    {
      var fullHolds := 0;
      var i := 0;
      while i < cargo.Length
        invariant 0 <= i <= cargo.Length
        invariant fullHolds == Sum(cargo[..i])
      {
        assert cargo[..i + 1][..i] == cargo[..i];
        fullHolds := fullHolds + cargo[i];
        i := i + 1;
      }
      assert cargo[..i] == cargo[..];
      empty := holds - fullHolds;
    }
  }

  class Ship {
    var shipType: ShipType?
    var sector: Option<int>
    var name: Option<string>
    var fighters: int
    var shields: int
    var owner: Option<Owner>
    var number: int
    var details: Details?

    ghost predicate Valid()
      reads this, details
    {
      details != null ==> details.cargo.Length == 4
    }

    /** A ship seen for the first time: no details yet, number UNKNOWN. */
    constructor ()
      ensures Valid() && details == null && shipType == null && sector == None && name == None
      ensures fighters == 0 && shields == 0 && owner == None && number == UNKNOWN
    {
      shipType, sector, name := null, None, None;
      fighters, shields, owner, number := 0, 0, None, UNKNOWN;
      details := null;
    }

    /** The detail block as a value, or None while it is absent. */
    function Block(): Option<DetailsValue>
      reads this, details, if details == null then {} else {details.cargo}
    {
      if details == null then None else Some(details.Value())
    }

    function HasDetails(): (r: bool)
      reads this
      ensures r <==> details != null
    {
      details != null
    }

    /** resetDetails: a fresh, blank block replaces whatever was there. */
    method ResetDetails()
      modifies this`details
      ensures details != null && fresh(details) && Block() == Some(BLANK_DETAILS) && Valid()
      ensures sector == old(sector) && number == old(number) && owner == old(owner)
    {
      details := new Details();
    }

    /** The block every setter writes into: created blank when missing. */
    method EnsureDetails()
      requires Valid()
      modifies this`details
      ensures Valid() && details != null && Block() == Some(OrBlank(old(Block())))
      ensures old(details) != null ==> details == old(details)
      ensures old(details) == null ==> fresh(details) && fresh(details.cargo)
      ensures sector == old(sector) && number == old(number) && owner == old(owner) && name == old(name)
    {
      if details == null {
        details := new Details();
      }
    }

    function GetHolds(): (r: int)
      reads this, details
      ensures details == null ==> r == 0
      ensures details != null ==> r == details.holds
    {
      if details == null then 0 else details.holds
    }

    method SetHolds(holds: int)
      requires Valid()
      modifies this`details, details
      ensures Valid() && Block() == Some(OrBlank(old(Block())).(holds := holds))
      ensures sector == old(sector) && number == old(number) && owner == old(owner)
    {
      EnsureDetails();
      details.holds := holds;
    }

    function GetTransWarp(): (r: int)
      reads this, details
      ensures details == null ==> r == 0
      ensures details != null ==> r == details.transWarp
    {
      if details == null then 0 else details.transWarp
    }

    /** setTransWarp: creates the block if needed; the level only ever rises. */
    method SetTransWarp(transWarp: int)
      requires Valid()
      modifies this`details, details
      ensures Valid() && details != null
      ensures Block() == Some(OrBlank(old(Block())).(transWarp := Max(OrBlank(old(Block())).transWarp, transWarp)))
      ensures GetTransWarp() >= old(GetTransWarp())
      ensures sector == old(sector) && number == old(number) && owner == old(owner)
    {
      EnsureDetails();
      if details.transWarp < transWarp {
        details.transWarp := transWarp;
      }
    }

    function GetLongRangeScan(): (r: int)
      reads this, details
      ensures details == null ==> r == 0
      ensures details != null ==> r == details.longRangeScan
    {
      if details == null then 0 else details.longRangeScan
    }

    method SetLongRangeScan(scan: int)
      requires Valid()
      modifies this`details, details
      ensures Valid() && Block() == Some(OrBlank(old(Block())).(longRangeScan := scan))
      ensures sector == old(sector) && number == old(number) && owner == old(owner)
    {
      EnsureDetails();
      details.longRangeScan := scan;
    }

    function HasPlanetScan(): (r: bool)
      reads this, details
      ensures details == null ==> !r
      ensures details != null ==> r == details.planetScan
    {
      details != null && details.planetScan
    }

    method SetPlanetScan(planetScan: bool)
      requires Valid()
      modifies this`details, details
      ensures Valid() && Block() == Some(OrBlank(old(Block())).(planetScan := planetScan))
      ensures sector == old(sector) && number == old(number) && owner == old(owner)
    {
      EnsureDetails();
      details.planetScan := planetScan;
    }

    function HasPsyProbe(): (r: bool)
      reads this, details
      ensures details == null ==> !r
      ensures details != null ==> r == details.psyProbe
    {
      details != null && details.psyProbe
    }

    method SetPsyProbe(psyProbe: bool)
      requires Valid()
      modifies this`details, details
      ensures Valid() && Block() == Some(OrBlank(old(Block())).(psyProbe := psyProbe))
      ensures sector == old(sector) && number == old(number) && owner == old(owner)
    {
      EnsureDetails();
      details.psyProbe := psyProbe;
    }

    function GetPhotons(): (r: int)
      reads this, details
      ensures details == null ==> r == 0
      ensures details != null ==> r == details.photons
    {
      if details == null then 0 else details.photons
    }

    method SetPhotons(photons: int)
      requires Valid()
      modifies this`details, details
      ensures Valid() && Block() == Some(OrBlank(old(Block())).(photons := photons))
      ensures sector == old(sector) && number == old(number) && owner == old(owner)
    {
      EnsureDetails();
      details.photons := photons;
    }

    function GetInterdictOn(): (r: bool)
      reads this, details
      ensures details == null ==> !r
      ensures details != null ==> r == details.interdictOn
    {
      details != null && details.interdictOn
    }

    method SetInterdictOn(on: bool)
      requires Valid()
      modifies this`details, details
      ensures Valid() && Block() == Some(OrBlank(old(Block())).(interdictOn := on))
      ensures sector == old(sector) && number == old(number) && owner == old(owner)
    {
      EnsureDetails();
      details.interdictOn := on;
    }

    method SetBuildDate(date: Option<Date>)
      requires Valid()
      modifies this`details, details
      ensures Valid() && Block() == Some(OrBlank(old(Block())).(buildDate := date))
      ensures sector == old(sector) && number == old(number) && owner == old(owner)
    {
      EnsureDetails();
      details.buildDate := date;
    }

    /** getPassword: dereferences the block without a null check, so it throws while the block is absent. */
    function GetPassword(): (r: Result<Option<string>>)
      reads this, details
      ensures r.Err? <==> details == null
      ensures r.Err? ==> r.error == NullPointer
      ensures r.Ok? ==> r.value == details.password
    {
      if details == null then Err(NullPointer) else Ok(details.password)
    }

    method SetPassword(password: Option<string>)
      requires Valid()
      modifies this`details, details
      ensures Valid() && Block() == Some(OrBlank(old(Block())).(password := password))
      ensures sector == old(sector) && number == old(number) && owner == old(owner)
    {
      EnsureDetails();
      details.password := password;
    }

    /** getCargo(): a copy of the four slots, or four zeros while the block is absent. */
    function GetCargo(): (r: seq<int>)
      requires Valid()
      reads this, details, if details == null then {} else {details.cargo}
      ensures |r| == 4
      ensures details == null ==> r == [0, 0, 0, 0]
      ensures details != null ==> r == details.cargo[..]
    {
      if details == null then [0, 0, 0, 0] else details.cargo[..]
    }

    /** getCargo(item): the slot, or 0 while the block is absent; an index outside 0..3 throws. */
    function GetCargoItem(item: int): (r: Result<int>)
      requires Valid()
      reads this, details, if details == null then {} else {details.cargo}
      ensures details != null && !(0 <= item < 4) ==> r == Err(IndexOutOfBounds)
      ensures (details == null || 0 <= item < 4) ==> r.Ok?
      ensures r.Ok? ==> (0 <= item < 4 ==> r.value == GetCargo()[item]) && (details == null ==> r.value == 0)
    {
      if details == null then Ok(0)
      else if 0 <= item < 4 then Ok(details.cargo[item])
      else Err(IndexOutOfBounds)
    }

    /** setCargo: creates the block if needed and writes one slot; an index outside 0..3 throws after the block exists. */
    method SetCargo(item: int, quantity: int) returns (r: Result<()>)
      requires Valid()
      modifies this`details, details, if details == null then {} else {details.cargo}
      ensures Valid() && details != null
      ensures r.Err? <==> !(0 <= item < 4)
      ensures r.Err? ==> r.error == IndexOutOfBounds && Block() == Some(OrBlank(old(Block())))
      ensures r.Ok? ==> Block() == Some(OrBlank(old(Block())).(cargo := OrBlank(old(Block())).cargo[item := quantity]))
      ensures sector == old(sector) && number == old(number) && owner == old(owner)
    {
      EnsureDetails();
      if !(0 <= item < 4) {
        return Err(IndexOutOfBounds);
      }
      details.cargo[item] := quantity;
      return Ok(());
    }

    method SetSector(sector: Option<int>)
      modifies this`sector
      ensures this.sector == sector && details == old(details) && number == old(number) && owner == old(owner)
      ensures name == old(name) && shipType == old(shipType)
    {
      this.sector := sector;
    }

    method SetFighters(fighters: int)
      modifies this`fighters
      ensures this.fighters == fighters && shields == old(shields) && details == old(details)
      ensures sector == old(sector) && number == old(number) && owner == old(owner) && shipType == old(shipType)
    {
      this.fighters := fighters;
    }

    method SetShields(shields: int)
      modifies this`shields
      ensures this.shields == shields && fighters == old(fighters) && details == old(details)
      ensures sector == old(sector) && number == old(number) && owner == old(owner) && shipType == old(shipType)
    {
      this.shields := shields;
    }

    /** toString: the name, or "(unknown name)", then " (type)" when the type is known. */
    function ToString(): (s: string)
      reads this, shipType
      ensures shipType == null ==> s == (if name.Some? then name.value else "(unknown name)")
      ensures shipType != null ==> s == (if name.Some? then name.value else "(unknown name)") + " (" + shipType.name + ")"
    {
      (if name.Some? then name.value else "(unknown name)") + (if shipType != null then " (" + shipType.name + ")" else "")
    }
  }

  /** The empty holds of a block, as getEmptyHolds computes them. */
  function EmptyHolds(d: DetailsValue): int
  {
    d.holds - Sum(d.cargo)
  }

  /** Storing q units in a slot that held c frees c - q holds. */
  lemma EmptyHoldsAfterSetCargo(d: DetailsValue, item: nat, q: int)
    requires item < |d.cargo|
    ensures EmptyHolds(d.(cargo := d.cargo[item := q])) == EmptyHolds(d) + d.cargo[item] - q
  {
    SumUpdate(d.cargo, item, q);
  }

  lemma {:induction false} SumZero(s: seq<int>)
    requires forall k :: 0 <= k < |s| ==> s[k] == 0
    ensures Sum(s) == 0
  {
    if s != [] {
      SumZero(s[..|s| - 1]);
    }
  }

  /** A blank block has all its holds empty. */
  lemma BlankHoldsAllEmpty(holds: int)
    ensures EmptyHolds(BLANK_DETAILS.(holds := holds)) == holds
  {
    var d := BLANK_DETAILS.(holds := holds);
    assert d.cargo == [0, 0, 0, 0];
    SumZero(d.cargo);
  }

  // ---------------------------------------------------------------------
  // Trader and You

  /**
   * A trader. You, the player, is the trader whose isYou flag is set; the
   * fields after it belong to You alone.
   */
  class Trader {
    var name: Option<string>
    var rank: Option<string>
    var xp: int
    var align: int
    var corp: Corporation?
    var ship: Ship?
    const firstObserved: Date
    var lastObserved: Option<Date>
    var shipDestroyed: bool

    const isYou: bool
    var turns: int
    var credits: int
    var bankBalance: int
    var lastSector: Option<int>
    var timesBlownUp: int

    /** A new trader starts with a fresh ship and is first observed now. */
    constructor (now: Date)
      ensures name == None && rank == None && xp == 0 && align == 0 && corp == null
      ensures ship != null && fresh(ship) && ship.Valid() && ship.sector == None && ship.details == null
      ensures firstObserved == now && lastObserved == None && !shipDestroyed && !isYou
    {
      name, rank, xp, align, corp := None, None, 0, 0, null;
      ship := new Ship();
      firstObserved, lastObserved, shipDestroyed := now, None, false;
      isYou := false;
      turns, credits, bankBalance, lastSector, timesBlownUp := 0, 0, 0, None, 0;
    }

    /** You: the trader that is the player, with no turns, credits or balance yet. */
    constructor You(now: Date)
      ensures name == None && rank == None && xp == 0 && align == 0 && corp == null
      ensures ship != null && fresh(ship) && ship.Valid() && ship.sector == None && ship.details == null
      ensures firstObserved == now && lastObserved == None && !shipDestroyed && isYou
      ensures turns == 0 && credits == 0 && bankBalance == 0 && lastSector == None && timesBlownUp == 0
    {
      name, rank, xp, align, corp := None, None, 0, 0, null;
      ship := new Ship();
      firstObserved, lastObserved, shipDestroyed := now, None, false;
      isYou := true;
      turns, credits, bankBalance, lastSector, timesBlownUp := 0, 0, 0, None, 0;
    }

    method SetName(name: string)
      modifies this`name
      ensures this.name == Some(name) && ship == old(ship) && xp == old(xp) && align == old(align)
    {
      this.name := Some(name);
    }

    method SetXp(xp: int)
      modifies this`xp
      ensures this.xp == xp && align == old(align) && ship == old(ship) && name == old(name)
      ensures turns == old(turns) && credits == old(credits)
      ensures xp >= old(this.xp) && IsFedsafe() ==> old(IsFedsafe())
    {
      this.xp := xp;
    }

    method SetAlign(align: int)
      modifies this`align
      ensures this.align == align && xp == old(xp) && ship == old(ship) && name == old(name)
      ensures turns == old(turns) && credits == old(credits)
      ensures align <= old(this.align) && IsFedsafe() ==> old(IsFedsafe())
    {
      this.align := align;
    }

    /** isFedsafe: fewer than 1000 experience points and a non-negative alignment. */
    function IsFedsafe(): (r: bool)
      reads this`xp, this`align
      ensures r ==> xp < 1000 && align >= 0
      ensures !r ==> xp >= 1000 || align < 0
    {
      xp < 1000 && align >= 0
    }

    /** getSector: the ship's sector, or null when there is no ship. */
    function GetSector(): (r: Option<int>)
      reads this, ship
      ensures ship == null ==> r == None
      ensures ship != null ==> r == ship.sector
    {
      if ship == null then None else ship.sector
    }

    /** setSector: gives the trader a ship if it has none, then moves that ship. */
    method SetSector(sector: int)
      modifies this`ship, ship
      ensures ship != null && GetSector() == Some(sector)
      ensures old(ship) != null ==> ship == old(ship)
      ensures old(ship) == null ==> fresh(ship) && ship.Valid() && ship.details == null && ship.shipType == null
      ensures old(ship) != null ==> ship.details == old(ship.details) && ship.shipType == old(ship.shipType)
      ensures name == old(name) && xp == old(xp) && align == old(align)
      ensures turns == old(turns) && credits == old(credits)
    {
      if ship == null {
        ship := new Ship();
      }
      ship.SetSector(Some(sector));
    }

    /** toString: the rank, a space and the name, with "null" for a missing one. */
    function ToString(): (s: string)
      reads this
      ensures s == OrNull(rank) + " " + OrNull(name)
    {
      OrNull(rank) + [' '] + OrNull(name)
    }

    /** getSectorNumber (You): 0 when there is no location, else the location's number. */
    function GetSectorNumber(): (r: int)
      reads this, ship
      ensures GetSector().None? ==> r == 0
      ensures GetSector().Some? ==> r == GetSector().value
    {
      match GetSector()
      case None => 0
      case Some(s) => s
    }

    method SetTurns(turns: int)
      requires isYou
      modifies this`turns
      ensures this.turns == turns && credits == old(credits) && bankBalance == old(bankBalance)
      ensures timesBlownUp == old(timesBlownUp) && ship == old(ship) && name == old(name)
      ensures xp == old(xp) && align == old(align)
    {
      this.turns := turns;
    }

    method SetCredits(credits: int)
      requires isYou
      modifies this`credits
      ensures this.credits == credits && turns == old(turns) && bankBalance == old(bankBalance)
      ensures timesBlownUp == old(timesBlownUp) && ship == old(ship) && name == old(name)
      ensures xp == old(xp) && align == old(align)
    {
      this.credits := credits;
    }

    method SetBankBalance(balance: int)
      requires isYou
      modifies this`bankBalance
      ensures bankBalance == balance && turns == old(turns) && credits == old(credits)
      ensures timesBlownUp == old(timesBlownUp) && ship == old(ship) && name == old(name)
    {
      bankBalance := balance;
    }

    method SetTimesBlownUp(times: int)
      requires isYou
      modifies this`timesBlownUp
      ensures timesBlownUp == times && turns == old(turns) && credits == old(credits)
      ensures bankBalance == old(bankBalance) && ship == old(ship) && name == old(name)
    {
      timesBlownUp := times;
    }
  }

  /** String concatenation of a possibly null string. */
  function OrNull(s: Option<string>): string
  {
    if s.Some? then s.value else "null"
  }

  /** Gaining experience or losing alignment can only end fedsafe status, never grant it. */
  lemma FedsafeMonotone(before: Trader, after: Trader)
    requires after.xp >= before.xp && after.align <= before.align
    ensures after.IsFedsafe() ==> before.IsFedsafe()
    ensures !before.IsFedsafe() ==> !after.IsFedsafe()
  {
  }

  // ---------------------------------------------------------------------
  // Corporation

  class Corporation {
    const number: int
    var name: Option<string>
    var members: set<Trader>

    constructor (number: int)
      ensures this.number == number && name == None && members == {}
    {
      this.number := number;
      name := None;
      members := {};
    }

    /** getMembers: a copy, so changing it does not change the corporation. */
    function GetMembers(): (r: set<Trader>)
      reads this
      ensures r == members
    {
      members
    }

    method AddMember(t: Trader)
      modifies this`members
      ensures members == old(members) + {t} && name == old(name)
    {
      members := members + {t};
    }

    method RemoveMember(t: Trader)
      modifies this`members
      ensures members == old(members) - {t} && name == old(name)
    {
      members := members - {t};
    }

    method ClearMembers()
      modifies this`members
      ensures members == {} && name == old(name)
    {
      members := {};
    }

    /**
     * toString: "Corp #" and the number, followed by ", " and the name when
     * the corporation has one.
     */
    function ToString(): (s: string)
      reads this
      ensures |s| > 6 && s[..6] == "Corp #"
      ensures name.None? ==> s[6..] == IntToString(number)
      ensures name.Some? ==> var tail := ", " + name.value;
        |s| > 6 + |tail| && s[|s| - |tail|..] == tail && s[6..|s| - |tail|] == IntToString(number)
    {
      "Corp #" + IntToString(number) + (if name.Some? then ", " + name.value else "")
    }
  }

  /** Unnamed corporations with different numbers are told apart by toString. */
  lemma CorpLabelInjective(a: Corporation, b: Corporation)
    requires a.name == None && b.name == None && IsInt32(a.number) && IsInt32(b.number)
    requires a.ToString() == b.ToString()
    ensures a.number == b.number
  {
    ParseIntToString(a.number);
    ParseIntToString(b.number);
  }

  // ---------------------------------------------------------------------
  // PlanetType

  class PlanetType {
    const name: string
    const maxPopulation: array<int>
    const production: array<int>
    const storage: array<int>
    const constructionDays: array<int>
    var figProduction: int
    var maxFighters: int
    var maxShields: int
    var maxCitLevel: int

    ghost predicate Valid()
      reads this
    {
      maxPopulation.Length == 3 && production.Length == 3 && storage.Length == 3 && constructionDays.Length == 6 &&
      maxPopulation != production && maxPopulation != storage && production != storage
    }

    /** A new planet type: the name, every table entry and every number UNKNOWN. */
    constructor (name: string)
      ensures Valid() && this.name == name
      ensures fresh(maxPopulation) && fresh(production) && fresh(storage) && fresh(constructionDays)
      ensures forall p :: 0 <= p < 3 ==> maxPopulation[p] == UNKNOWN && production[p] == UNKNOWN && storage[p] == UNKNOWN
      ensures forall c :: 0 <= c < 6 ==> constructionDays[c] == UNKNOWN
      ensures figProduction == UNKNOWN && maxFighters == UNKNOWN && maxShields == UNKNOWN && maxCitLevel == UNKNOWN
    {
      this.name := name;
      maxPopulation := new int[3](_ => UNKNOWN);
      production := new int[3](_ => UNKNOWN);
      storage := new int[3](_ => UNKNOWN);
      constructionDays := new int[6](_ => UNKNOWN);
      figProduction, maxFighters, maxShields, maxCitLevel := UNKNOWN, UNKNOWN, UNKNOWN, UNKNOWN;
    }

    /** setMaxCitLevel: the level only ever rises. */
    method SetMaxCitLevel(level: int)
      modifies this`maxCitLevel
      ensures maxCitLevel == Max(old(maxCitLevel), level)
      ensures figProduction == old(figProduction) && maxFighters == old(maxFighters) && maxShields == old(maxShields)
    {
      if maxCitLevel < level {
        maxCitLevel := level;
      }
    }

    /** getConstructionDays: indexed by citLevel - 1, so only levels 1..6 exist. */
    function GetConstructionDays(citLevel: int): (r: Result<int>)
      requires Valid()
      reads this, constructionDays
      ensures r.Ok? <==> 1 <= citLevel <= 6
      ensures r.Ok? ==> r.value == constructionDays[citLevel - 1]
      ensures r.Err? ==> r.error == IndexOutOfBounds
    {
      if 1 <= citLevel <= 6 then Ok(constructionDays[citLevel - 1]) else Err(IndexOutOfBounds)
    }

    method SetConstructionDays(citLevel: int, days: int) returns (r: Result<()>)
      requires Valid()
      modifies constructionDays
      ensures r.Ok? <==> 1 <= citLevel <= 6
      ensures r.Ok? ==> constructionDays[..] == old(constructionDays[..])[citLevel - 1 := days]
      ensures r.Err? ==> r.error == IndexOutOfBounds && constructionDays[..] == old(constructionDays[..])
    {
      if !(1 <= citLevel <= 6) {
        return Err(IndexOutOfBounds);
      }
      constructionDays[citLevel - 1] := days;
      return Ok(());
    }

    /** setMaxPopulation: writes the product's slot; a product outside 0..2 throws. */
    method SetMaxPopulation(product: int, maxPop: int) returns (r: Result<()>)
      requires Valid()
      modifies maxPopulation
      ensures r.Ok? <==> 0 <= product < 3
      ensures r.Ok? ==> maxPopulation[..] == old(maxPopulation[..])[product := maxPop]
      ensures r.Err? ==> r.error == IndexOutOfBounds && maxPopulation[..] == old(maxPopulation[..])
    {
      if !(0 <= product < 3) {
        return Err(IndexOutOfBounds);
      }
      maxPopulation[product] := maxPop;
      return Ok(());
    }

    method SetProduction(product: int, prod: int) returns (r: Result<()>)
      requires Valid()
      modifies production
      ensures r.Ok? <==> 0 <= product < 3
      ensures r.Ok? ==> production[..] == old(production[..])[product := prod]
      ensures r.Err? ==> r.error == IndexOutOfBounds && production[..] == old(production[..])
    {
      if !(0 <= product < 3) {
        return Err(IndexOutOfBounds);
      }
      production[product] := prod;
      return Ok(());
    }

    method SetStorage(product: int, qty: int) returns (r: Result<()>)
      requires Valid()
      modifies storage
      ensures r.Ok? <==> 0 <= product < 3
      ensures r.Ok? ==> storage[..] == old(storage[..])[product := qty]
      ensures r.Err? ==> r.error == IndexOutOfBounds && storage[..] == old(storage[..])
    {
      if !(0 <= product < 3) {
        return Err(IndexOutOfBounds);
      }
      storage[product] := qty;
      return Ok(());
    }

    function GetMaxPopulation(product: int): (r: Result<int>)
      requires Valid()
      reads this, maxPopulation
      ensures r.Ok? <==> 0 <= product < 3
      ensures r.Ok? ==> r.value == maxPopulation[product]
    {
      if 0 <= product < 3 then Ok(maxPopulation[product]) else Err(IndexOutOfBounds)
    }
  }
}
