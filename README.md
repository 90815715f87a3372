# WeaponM core, modelled in Dafny

WeaponM is a client for the BBS game TradeWars 2002. It watches the text that
the game server sends, and from it builds a database of the universe. That
database holds the sectors and the warps between them, the ports and what they
trade, the player's own trader and ship, other traders, corporations and game
settings. Scripts run on top of that database. They plot courses with a
breadth-first search and talk to the game through a script manager that owns
the network lock. A terminal emulator turns the ANSI stream into cursor moves
and character attributes.

This project is a Dafny model of that core, module by module:

- `Sectors` and `Databases` model the sector graph store. A sector keeps its
  outbound warps, and the database keeps the inbound mirror, the fully-mapped
  flag and the interning indexes for traders, ship types and corporations.
  Both are classes whose methods change their fields in place.
- `Ports` and `Capacities` model port inference. This covers the write-once
  name and class, the sell-mask tables, the buy and sell rules, the cross- and
  triple-trade rules, and the capacity estimate that never shrinks.
- `DataParsing` models the stream reconciler. The `DataParser` class keeps the
  prompt, the pending move, the trading state and the newly seen warps.
  Notifications and script events are appended to a ghost log.
- `ParserUtils` models the text scanners. Each scanning loop is a method
  proved against a pure specification function.
- `Records`, `GameStatistics`, `Ternaries`, `FighterModes` and `SpecialOwners`
  model the entity records and their rules.
- `SearchNodes`, `NodeMatchers` and `BreadthFirstSearches` model the course
  plotter and its node predicates.
- `Parameters` and `Scripts` model script parameters, the burst buffer, event
  registration and the network lock rules.
- `Emulation`, `Ansi` and `AnsiConversion` model the terminal side. This
  covers the ECMA-48 cursor and SGR handlers (sections 5.4.2, 8.3.18 to
  8.3.22 and 8.3.117 of ECMA-48), the `ANSI` escape builders and the pattern
  converter.
- `Formatting` and `Login` model the integer field formatter and the checks
  in the login options dialog.
- `Wrappers`, `Constants` and `JavaInt` are shared helpers. `Wrappers` has
  `Option` and `Result`. Each Java exception becomes an `Err` value.
  `JavaInt` has Java's `Integer.parseInt` and `Integer.toString`, and its
  division and remainder, which truncate toward zero.

A few design notes:

- `UNKNOWN` is -1, as the game database uses it, and lives in `Constants`.
- Handlers in `DataParsing` take the values that `ParserUtils` would extract
  from the matched text, not the raw text.
- In `Emulation`, a blank parameter reads as 1 for every control function,
  SGR included, as the code does. A trailing number with no terminator
  gives a parameter of 0: the first pass counts it, and the second pass never
  stores it (EmulationParser.java:280-283 and 286-306).
- The capacity estimate steps to the next multiple of 10 even when the
  candidate already is one (DataParser.java:877-878). The model keeps this,
  because it is how the code behaves and it never loses a reading.
- For level -2510 at 97 percent, DataParser.java:876-878 gives a capacity of
  -2570 (`Capacities.CandidateExample`).
- "Percent Players Good" is parsed as the whole value, not the prefix before
  '%' (GameStats.java:500-504).

## Model

| member | source | states |
|---|---|---|
| Ternaries.CompareTo | src/main/java/krum/weaponm/database/Ternary.java:21-26 | compareTo returns -1, 0 or 1, and 0 exactly when the two values are the same |
| Ternaries.CompareToIsRankOrder | src/main/java/krum/weaponm/database/Ternary.java:17-26 | compareTo orders the values as the comment promises, TRUE > UNKNOWN > FALSE |
| Ternaries.CompareToReflexive | src/main/java/krum/weaponm/database/Ternary.java:22 | every value compares equal to itself |
| Ternaries.CompareToAntisymmetric | src/main/java/krum/weaponm/database/Ternary.java:21-26 | swapping the operands negates the result |
| Ternaries.CompareToTransitive | src/main/java/krum/weaponm/database/Ternary.java:21-26 | a > b and b > c give a > c |
| Ternaries.CompareToTotal | src/main/java/krum/weaponm/database/Ternary.java:21-26 | any two values are equal or ordered one way |
| SpecialOwners.Title | src/main/java/krum/weaponm/database/SpecialOwner.java:15-34 | the display name has the constant name's length; '_' becomes a space, the first letter of each word is kept, the others are lower-cased |
| SpecialOwners.GetName | src/main/java/krum/weaponm/database/SpecialOwner.java:15-34 | getName is the title-cased display name of the constant's name() |
| SpecialOwners.TitleCase | src/main/java/krum/weaponm/database/SpecialOwner.java:16-33 | the loop with the `cap` flag builds exactly the title-cased name |
| SpecialOwners.TitleShape | src/main/java/krum/weaponm/database/SpecialOwner.java:19-32 | the display name has no '_', and has a space exactly where the constant name has '_' or a space |
| SpecialOwners.TitleExamples | src/main/java/krum/weaponm/database/SpecialOwner.java:7-12 | SPACE_PIRATES displays as "Space Pirates" and ALIEN as "Alien" |
| FighterModes.GetMode | src/main/java/krum/weaponm/database/FighterMode.java:13-20 | getMode accepts exactly 'D', 'O' and 'T', never yields UNKNOWN, and throws IllegalArgumentException on any other character |
| FighterModes.GetModeInverse | src/main/java/krum/weaponm/database/FighterMode.java:13-20 | getMode yields a mode exactly for that mode's letter |
| FighterModes.GetModeInjective | src/main/java/krum/weaponm/database/FighterMode.java:13-20 | two accepted letters that give the same mode are the same letter |
| Records.ShipType.constructor | src/main/java/krum/weaponm/database/ShipType.java:9-42 | a new ship type has the given name and every number and every Ternary UNKNOWN |
| Records.ShipType.SetTransWarpLevel | src/main/java/krum/weaponm/database/ShipType.java:154-156 | the stored trans-warp level becomes the larger of the old and the new; no other field changes |
| Records.ShipType.SetPhotons | src/main/java/krum/weaponm/database/ShipType.java:234-236 | the stored photon count becomes the larger of the old and the new; no other field changes |
| Records.ShipType.SetTurnsPerWarp | src/main/java/krum/weaponm/database/ShipType.java:84-86 | turns per warp is overwritten; no other field changes |
| Records.ShipType.SetInitialHolds | src/main/java/krum/weaponm/database/ShipType.java:52-54 | initial holds is overwritten; no other field changes |
| Records.ShipType.SetMaxHolds | src/main/java/krum/weaponm/database/ShipType.java:60-62 | max holds is overwritten; no other field changes |
| Records.ShipType.SetFighters | src/main/java/krum/weaponm/database/ShipType.java:68-70 | the fighter capacity is overwritten; no other field changes |
| Records.ShipType.SetShields | src/main/java/krum/weaponm/database/ShipType.java:76-78 | the shield capacity is overwritten; no other field changes |
| Records.ShipType.SetLongRangeScan | src/main/java/krum/weaponm/database/ShipType.java:124-126 | the long-range scan is overwritten; no other field changes |
| Records.ShipType.SetCombatScan | src/main/java/krum/weaponm/database/ShipType.java:132-134 | the combat-scan Ternary is overwritten; no other field changes |
| Records.ShipType.SetPlanetScan | src/main/java/krum/weaponm/database/ShipType.java:140-142 | the planet-scan Ternary is overwritten; no other field changes |
| Records.ShipType.SetPrice | src/main/java/krum/weaponm/database/ShipType.java:218-220 | the price is overwritten; no other field changes |
| Records.ShipType.ToString | src/main/java/krum/weaponm/database/ShipType.java:295-297 | toString is the ship type's name |
| Records.RisingSettersCommute | src/main/java/krum/weaponm/database/ShipType.java:234-236 | two rising setter calls leave the same value in either order, never below the old one |
| Records.Details.constructor | src/main/java/krum/weaponm/database/Ship.java:298-316 | a new detail block has every number 0, every flag false, no date, no password and four empty cargo slots |
| Records.Details.GetEmptyHolds | src/main/java/krum/weaponm/database/Ship.java:330-336 | getEmptyHolds is the holds minus the sum of the four cargo slots |
| Records.Ship.constructor | src/main/java/krum/weaponm/database/Ship.java:13-20 | a new ship has no details, type, sector, name or owner, no fighters or shields, and number UNKNOWN |
| Records.Ship.HasDetails | src/main/java/krum/weaponm/database/Ship.java:23-25 | hasDetails holds exactly when the detail block exists |
| Records.Ship.ResetDetails | src/main/java/krum/weaponm/database/Ship.java:27-29 | a fresh blank detail block replaces the old one; only the `details` field is written, so name, type, sector, fighters, shields, owner and number are kept |
| Records.Ship.EnsureDetails | src/main/java/krum/weaponm/database/Ship.java:93 | the existing block is kept, or a fresh blank one is created; only the `details` field is written, so every other field of the ship is kept |
| Records.Ship.GetHolds | src/main/java/krum/weaponm/database/Ship.java:97-100 | the holds in the block, 0 while there is none |
| Records.Ship.SetHolds | src/main/java/krum/weaponm/database/Ship.java:102-105 | the block (created blank if missing) gets the new holds and nothing else in it changes; only the detail block may change (the frame is `this`details` and the block), so name, type, sector, fighters, shields, owner and number are kept |
| Records.Ship.GetTransWarp | src/main/java/krum/weaponm/database/Ship.java:107-110 | the trans-warp level in the block, 0 while there is none |
| Records.Ship.SetTransWarp | src/main/java/krum/weaponm/database/Ship.java:112-115 | the block (created blank if missing) keeps the larger trans-warp level, so getTransWarp never falls; only the detail block may change (the frame is `this`details` and the block), so name, type, sector, fighters, shields, owner and number are kept |
| Records.Ship.GetLongRangeScan | src/main/java/krum/weaponm/database/Ship.java:117-120 | the long-range scan in the block, 0 while there is none |
| Records.Ship.SetLongRangeScan | src/main/java/krum/weaponm/database/Ship.java:122-125 | the block (created blank if missing) gets the new long-range scan and nothing else in it changes; only the detail block may change (the frame is `this`details` and the block), so name, type, sector, fighters, shields, owner and number are kept |
| Records.Ship.HasPlanetScan | src/main/java/krum/weaponm/database/Ship.java:127-130 | the planet-scan flag in the block, false while there is none |
| Records.Ship.SetPlanetScan | src/main/java/krum/weaponm/database/Ship.java:132-135 | the block (created blank if missing) gets the new planet-scan flag and nothing else in it changes; only the detail block may change (the frame is `this`details` and the block), so name, type, sector, fighters, shields, owner and number are kept |
| Records.Ship.HasPsyProbe | src/main/java/krum/weaponm/database/Ship.java:137-140 | the psychic-probe flag in the block, false while there is none |
| Records.Ship.SetPsyProbe | src/main/java/krum/weaponm/database/Ship.java:142-145 | the block (created blank if missing) gets the new psychic-probe flag and nothing else in it changes; only the detail block may change (the frame is `this`details` and the block), so name, type, sector, fighters, shields, owner and number are kept |
| Records.Ship.GetPhotons | src/main/java/krum/weaponm/database/Ship.java:147-150 | the photons in the block, 0 while there is none |
| Records.Ship.SetPhotons | src/main/java/krum/weaponm/database/Ship.java:152-155 | the block (created blank if missing) gets the new photon count and nothing else in it changes; only the detail block may change (the frame is `this`details` and the block), so name, type, sector, fighters, shields, owner and number are kept |
| Records.Ship.GetInterdictOn | src/main/java/krum/weaponm/database/Ship.java:247-250 | the interdictor flag in the block, false while there is none |
| Records.Ship.SetInterdictOn | src/main/java/krum/weaponm/database/Ship.java:252-255 | the block (created blank if missing) gets the new interdictor flag and nothing else in it changes; only the detail block may change (the frame is `this`details` and the block), so name, type, sector, fighters, shields, owner and number are kept |
| Records.Ship.SetBuildDate | src/main/java/krum/weaponm/database/Ship.java:92-95 | the block (created blank if missing) gets the new build date and nothing else in it changes; only the detail block may change (the frame is `this`details` and the block), so name, type, sector, fighters, shields, owner and number are kept |
| Records.Ship.GetPassword | src/main/java/krum/weaponm/database/Ship.java:257-259 | getPassword throws NullPointerException exactly while the block is absent, and otherwise returns the stored password |
| Records.Ship.SetPassword | src/main/java/krum/weaponm/database/Ship.java:261-264 | the block (created blank if missing) gets the new password and nothing else in it changes; only the detail block may change (the frame is `this`details` and the block), so name, type, sector, fighters, shields, owner and number are kept |
| Records.Ship.GetCargo | src/main/java/krum/weaponm/database/Ship.java:266-269 | four values: a copy of the slots, or four zeros while the block is absent |
| Records.Ship.GetCargoItem | src/main/java/krum/weaponm/database/Ship.java:271-274 | one slot, 0 while the block is absent; an index outside 0..3 throws only when the block exists |
| Records.Ship.SetCargo | src/main/java/krum/weaponm/database/Ship.java:276-279 | the block is created blank if missing; then an index outside 0..3 throws and leaves it as is, any other writes that one slot; only the detail block may change (the frame is `this`details` and the block), so name, type, sector, fighters, shields, owner and number are kept |
| Records.Ship.SetSector | src/main/java/krum/weaponm/database/Ship.java:59-61 | the sector is replaced; only the `sector` field is written, so every other field is kept |
| Records.Ship.SetFighters | src/main/java/krum/weaponm/database/Ship.java:67-69 | the fighters are replaced; only the `fighters` field is written, so every other field, the name included, is kept |
| Records.Ship.SetShields | src/main/java/krum/weaponm/database/Ship.java:75-77 | the shields are replaced; only the `shields` field is written, so every other field, the name included, is kept |
| Records.Ship.ToString | src/main/java/krum/weaponm/database/Ship.java:282-292 | the name or "(unknown name)", followed by " (type)" exactly when the type is known |
| Records.EmptyHoldsAfterSetCargo | src/main/java/krum/weaponm/database/Ship.java:326-336 | storing q units in a slot that held c changes the empty holds by c - q |
| Records.BlankHoldsAllEmpty | src/main/java/krum/weaponm/database/Ship.java:330-336 | in a blank block every hold is empty |
| Records.Trader.constructor | src/main/java/krum/weaponm/database/Trader.java:8-16 | a new trader has no name, rank or corporation, zero experience and alignment, a fresh ship without sector or details, and is first observed now |
| Records.Trader.You | src/main/java/krum/weaponm/database/You.java:5-9 | You starts as a trader with no turns, credits, bank balance, last sector or times blown up |
| Records.Trader.SetName | src/main/java/krum/weaponm/database/Trader.java:27-29 | the name is replaced; only the `name` field is written, so rank, corporation, ship, last sector, observation dates and every other field are kept |
| Records.Trader.SetXp | src/main/java/krum/weaponm/database/Trader.java:49-51 | the experience is replaced; raising it can end fedsafe status but never grant it; only the `xp` field is written, so rank, corporation, ship, last sector, observation dates and every other field are kept |
| Records.Trader.SetAlign | src/main/java/krum/weaponm/database/Trader.java:60-62 | the alignment is replaced; lowering it can end fedsafe status but never grant it; only the `align` field is written, so rank, corporation, ship, last sector, observation dates and every other field are kept |
| Records.Trader.IsFedsafe | src/main/java/krum/weaponm/database/Trader.java:64-66 | fedsafe exactly when experience is below 1000 and alignment is not negative |
| Records.Trader.GetSector | src/main/java/krum/weaponm/database/Trader.java:72-75 | the ship's sector, or null when the trader has no ship |
| Records.Trader.SetSector | src/main/java/krum/weaponm/database/Trader.java:77-80 | the trader ends with a ship (the old one, or a fresh one) whose sector is the new one; only the trader's `ship` field and the ship's `sector` are written, so the ship's details and type and the trader's rank, corporation, balance and other fields are kept |
| Records.Trader.ToString | src/main/java/krum/weaponm/database/Trader.java:135-137 | the rank, a space and the name, with "null" written for a missing one |
| Records.Trader.GetSectorNumber | src/main/java/krum/weaponm/database/You.java:53-56 | 0 when You has no location, else the location's sector number |
| Records.Trader.SetTurns | src/main/java/krum/weaponm/database/You.java:16-18 | the turns are replaced; only the `turns` field is written, so rank, corporation, ship, last sector, observation dates and every other field are kept |
| Records.Trader.SetCredits | src/main/java/krum/weaponm/database/You.java:24-26 | the credits are replaced; only the `credits` field is written, so rank, corporation, ship, last sector, observation dates and every other field are kept |
| Records.Trader.SetBankBalance | src/main/java/krum/weaponm/database/You.java:32-34 | the bank balance is replaced; only the `bankBalance` field is written, so rank, corporation, ship, last sector, observation dates and every other field are kept |
| Records.Trader.SetTimesBlownUp | src/main/java/krum/weaponm/database/You.java:48-50 | the times blown up are replaced; only the `timesBlownUp` field is written, so rank, corporation, ship, last sector, observation dates and every other field are kept |
| Records.FedsafeMonotone | src/main/java/krum/weaponm/database/Trader.java:64-66 | for two traders, the one with more experience and less alignment is fedsafe only if the other is: gaining experience or losing alignment can end fedsafe status but never grant it |
| Records.Corporation.constructor | src/main/java/krum/weaponm/database/Corporation.java:10-17 | a new corporation has its number, no name and no members |
| Records.Corporation.GetMembers | src/main/java/krum/weaponm/database/Corporation.java:32-34 | a copy of the member set, equal to it |
| Records.Corporation.AddMember | src/main/java/krum/weaponm/database/Corporation.java:44-46 | the trader is added to the members; only the member set is written, so the number and name are kept |
| Records.Corporation.RemoveMember | src/main/java/krum/weaponm/database/Corporation.java:40-42 | the trader is removed from the members; only the member set is written, so the number and name are kept |
| Records.Corporation.ClearMembers | src/main/java/krum/weaponm/database/Corporation.java:36-38 | the members become empty; only the member set is written, so the number and name are kept |
| Records.Corporation.ToString | src/main/java/krum/weaponm/database/Corporation.java:49-58 | "Corp #" and the number, then ", " and the name when there is one |
| Records.CorpLabelInjective | src/main/java/krum/weaponm/database/Corporation.java:49-58 | unnamed corporations with different numbers get different toString texts |
| Records.PlanetType.constructor | src/main/java/krum/weaponm/database/PlanetType.java:10-31 | a new planet type has its name, every table entry UNKNOWN and every number UNKNOWN |
| Records.PlanetType.SetMaxCitLevel | src/main/java/krum/weaponm/database/PlanetType.java:89-91 | the maximum citadel level becomes the larger of the old and the new; only that field is written |
| Records.PlanetType.GetConstructionDays | src/main/java/krum/weaponm/database/PlanetType.java:93-95 | the days for citadel level 1..6 are entry level - 1; any other level throws ArrayIndexOutOfBounds |
| Records.PlanetType.SetConstructionDays | src/main/java/krum/weaponm/database/PlanetType.java:97-99 | for levels 1..6 exactly entry level - 1 changes; any other level throws and nothing changes |
| Records.PlanetType.SetMaxPopulation | src/main/java/krum/weaponm/database/PlanetType.java:41-43 | for products 0..2 exactly that slot changes; any other product throws and nothing changes |
| Records.PlanetType.SetProduction | src/main/java/krum/weaponm/database/PlanetType.java:49-51 | for products 0..2 exactly that slot changes; any other product throws and nothing changes |
| Records.PlanetType.SetStorage | src/main/java/krum/weaponm/database/PlanetType.java:65-67 | for products 0..2 exactly that slot changes; any other product throws and nothing changes |
| Records.PlanetType.GetMaxPopulation | src/main/java/krum/weaponm/database/PlanetType.java:37-39 | the product's slot for products 0..2; any other product throws |
| Ports.Mask | src/main/java/krum/weaponm/database/Port.java:13-14 | the selling mask of every trading class 1..8 is a 3-bit value |
| Ports.TablesInverse | src/main/java/krum/weaponm/database/Port.java:13-16 | classToProduct and productToClass are inverse bijections between classes 1..8 and masks 0..7 |
| Ports.MaskExamples | src/main/java/krum/weaponm/database/Port.java:193-203 | the documented examples: class 7 (SSS) is mask 7, class 2 (BSB) is mask 2, class 1 (BBS) is mask 4 and sells only equipment |
| Ports.SellsClass | src/main/java/krum/weaponm/database/Port.java:225-229 | IllegalArgument for a product outside 0..2, false while the class is below 1, an out-of-bounds error for a class above 8 |
| Ports.BuysClass | src/main/java/krum/weaponm/database/Port.java:237-241 | IllegalArgument for a product outside 0..2, false while the class is below 1, an out-of-bounds error for a class above 8 |
| Ports.BuysIsNotSells | src/main/java/krum/weaponm/database/Port.java:225-241 | a port of a known class 1..8 buys exactly the products it does not sell |
| Ports.BitValue | src/main/java/krum/weaponm/database/Port.java:187 | the int value of 1 << i for a product i |
| Ports.ThreeBits | src/main/java/krum/weaponm/database/Port.java:185-189 | the code built from three flags has bit 0, 1, 2 set exactly when the flags hold |
| Ports.CodeBits | src/main/java/krum/weaponm/database/Port.java:185-189 | the code built from the indicators is below 8 and bit i is set exactly when indicator i is ' ' or 'S' |
| Ports.IndicatorClassRoundTrip | src/main/java/krum/weaponm/database/Port.java:183-191 | the class inferred from the indicators lies in 1..8 and sells exactly the products whose indicator is ' ' or 'S' |
| Ports.CrossTrade | src/main/java/krum/weaponm/database/Port.java:300-309 | IllegalArgument exactly for bad or equal products; false when either class is unknown |
| Ports.CrossBits | src/main/java/krum/weaponm/database/Port.java:305-308 | the mask test of canCrossTrade is the bitwise statement "each port sells one product and buys the other, oppositely" |
| Ports.CrossTradeMeaning | src/main/java/krum/weaponm/database/Port.java:291-309 | two known ports cross-trade two products exactly when each sells one of them and buys the other and the other port does the opposite |
| Ports.CrossTradeSymmetric | src/main/java/krum/weaponm/database/Port.java:300-309 | canCrossTrade gives the same answer whichever port asks |
| Ports.TripleTrade | src/main/java/krum/weaponm/database/Port.java:318-323 | an out-of-bounds error only for a class above 8 on known ports; false when either class is unknown |
| Ports.TripleBits | src/main/java/krum/weaponm/database/Port.java:320-322 | the xor test of canTripleTrade is "every bit differs and both masks are non-zero" |
| Ports.TripleTradeMeaning | src/main/java/krum/weaponm/database/Port.java:312-323 | two known ports triple-trade exactly when every product is sold by one and bought by the other and each sells something |
| Ports.TripleTradeSymmetric | src/main/java/krum/weaponm/database/Port.java:318-323 | canTripleTrade gives the same answer whichever port asks |
| Ports.ProductString | src/main/java/krum/weaponm/database/Port.java:270-277 | "???" exactly for an unknown class; otherwise three letters, 'S' where the port sells and 'B' where it does not |
| Ports.ProductStringOfIndicators | src/main/java/krum/weaponm/database/Port.java:270-277 | a class set from indicators prints them back, 'S' for ' ' or 'S' and 'B' otherwise |
| Ports.Port.constructor | src/main/java/krum/weaponm/database/Port.java:18-34 | a new port has its sector, no name, status or dates, an UNKNOWN class and credits, and zero readings |
| Ports.Port.Stardock | src/main/java/krum/weaponm/database/Stardock.java:6-26 | Stardock found normally: like a new port, but its port class is 9 while its trading class is still unknown |
| Ports.Port.StardockFrom | src/main/java/krum/weaponm/database/Stardock.java:11-21 | a port found to be Stardock keeps the sector, trading class, readings and report date, loses name, status, credits and the credits and bust dates, and reports class 9 |
| Ports.Port.GetPortClass | src/main/java/krum/weaponm/database/Stardock.java:23-26 | 9 for Stardock, the trading class for every other port |
| Ports.Port.SetName | src/main/java/krum/weaponm/database/Port.java:50-52 | the name is written once: a known name is never replaced; only the `name` field is written, so sector, class, status, dates, credits, readings and Stardock flag are kept |
| Ports.Port.SetStatus | src/main/java/krum/weaponm/database/Port.java:61-66 | the status becomes the new one; its date is restamped only when the status actually changes; only `status` and `statusDate` are written, so name, class, credits, every other date and the readings are kept |
| Ports.Port.SetCapacity | src/main/java/krum/weaponm/database/Port.java:128-130 | exactly one product's capacity changes |
| Ports.Port.SetCredits | src/main/java/krum/weaponm/database/Port.java:144-147 | the credits and their date are replaced; only `credits` and `creditsDate` are written, so name, class, status, report, bust and status dates and the readings are kept |
| Ports.Port.SetReport | src/main/java/krum/weaponm/database/Port.java:162-166 | levels and percents become the reported ones and the report date is stamped; only those arrays and `reportDate` are written, so capacities, credits, their date, the bust date, name, status and class are kept |
| Ports.Port.SetTradingClass | src/main/java/krum/weaponm/database/Port.java:178-180 | the trading class is written only while it is UNKNOWN; only the `tradingClass` field is written, so name, status, credits, every date and the readings are kept |
| Ports.Port.SetTradingClassFromIndicators | src/main/java/krum/weaponm/database/Port.java:183-191 | while UNKNOWN, the class becomes the one whose selling mask the indicators spell; a known class is kept; only the `tradingClass` field is written |
| Ports.Port.Sells | src/main/java/krum/weaponm/database/Port.java:225-229 | sells(product) for this port's trading class (see BuysIsNotSells) |
| Ports.Port.Buys | src/main/java/krum/weaponm/database/Port.java:237-241 | buys(product) for this port's trading class (see BuysIsNotSells) |
| Ports.Port.GetMcic | src/main/java/krum/weaponm/database/Port.java:259-262 | IllegalArgument exactly for a product outside 0..2, else that product's MCIC |
| Ports.Port.GetProductString | src/main/java/krum/weaponm/database/Port.java:270-277 | the letters built one product at a time equal ProductString of the trading class |
| Ports.Port.CanCrossTrade | src/main/java/krum/weaponm/database/Port.java:300-309 | canCrossTrade of the two ports' classes (see CrossTradeMeaning) |
| Ports.Port.CanTripleTrade | src/main/java/krum/weaponm/database/Port.java:318-323 | canTripleTrade of the two ports' classes (see TripleTradeMeaning) |
| Ports.Port.ToString | src/main/java/krum/weaponm/database/Port.java:328-331 | the name and ", Class" with the port class once named, else "Unidentified Class" and the port class |
| ParserUtils.RemoveCommas | src/main/java/krum/weaponm/database/ParserUtils.java:58-63 | the kept text has no comma and is no longer than the input |
| ParserUtils.RemoveCommasAppend | src/main/java/krum/weaponm/database/ParserUtils.java:59-63 | dropping commas works one character at a time: a comma adds nothing, any other character is kept |
| ParserUtils.RemoveCommasNoComma | src/main/java/krum/weaponm/database/ParserUtils.java:59-63 | text without commas is kept as it is |
| ParserUtils.ParseThousands | src/main/java/krum/weaponm/database/ParserUtils.java:57-65 | Integer.parseInt of the input with its commas dropped, NumberFormat when that does not parse |
| ParserUtils.ParseThousandsExample | src/main/java/krum/weaponm/database/ParserUtils.java:358-359 | "5,000" parses to 5000 |
| ParserUtils.ParseAll | src/main/java/krum/weaponm/database/ParserUtils.java:191 | every run parses or the whole scan fails with NumberFormat; on success the values are the runs' values in order |
| ParserUtils.FirstNumberIsFirstRun | src/main/java/krum/weaponm/database/ParserUtils.java:77-113 | findInteger stops at the first run findIntegers collects, and finds nothing exactly when there is no run |
| ParserUtils.RunsAreNumberTexts | src/main/java/krum/weaponm/database/ParserUtils.java:180-212 | every run is digits with an optional leading '-', its first digit is a digit of the span at the run's start, and it has the '-' exactly when the character before that digit is '-' |
| ParserUtils.RunsCons | src/main/java/krum/weaponm/database/ParserUtils.java:190-195 | a run ended by a character other than a digit or ',' comes first, followed by the runs after it, with its start |
| ParserUtils.NumberTextParses | src/main/java/krum/weaponm/database/ParserUtils.java:112 | a run fails to parse only when its value does not fit in 32 bits |
| ParserUtils.NoDigitNoRuns | src/main/java/krum/weaponm/database/ParserUtils.java:104-111 | a span without a digit yields no run |
| ParserUtils.FindIntegersHeadIsFindInteger | src/main/java/krum/weaponm/database/ParserUtils.java:77-217 | findIntegers finds nothing exactly when findInteger throws IllegalArgument, and otherwise its first value is findInteger's result |
| ParserUtils.FindIntegerNoDigit | src/main/java/krum/weaponm/database/ParserUtils.java:77-217 | without a digit findInteger throws IllegalArgument and findIntegers returns an empty list |
| ParserUtils.FindInteger | src/main/java/krum/weaponm/database/ParserUtils.java:77-113 | the span's first number outside escape sequences, IllegalArgument when there is none, NumberFormat when it does not fit |
| ParserUtils.FindIntegers | src/main/java/krum/weaponm/database/ParserUtils.java:175-217 | every number outside escape sequences in the span, in order, or NumberFormat when one does not fit |
| ParserUtils.CollectAt | src/main/java/krum/weaponm/database/ParserUtils.java:181-212 | one character of findIntegers' scan keeps the collected values equal to the parsed runs so far |
| ParserUtils.PrintableRunsWellFormed | src/main/java/krum/weaponm/database/ParserUtils.java:256-296 | every run findPrintables returns is non-empty and made of characters 32..125 |
| ParserUtils.FirstPrintableIsFirstRun | src/main/java/krum/weaponm/database/ParserUtils.java:219-296 | findPrintable returns the first run findPrintables returns, and throws exactly when there is none |
| ParserUtils.FindPrintable | src/main/java/krum/weaponm/database/ParserUtils.java:219-253 | the span's first printable run outside escapes, IllegalArgument when there is none; the run is non-empty and printable |
| ParserUtils.FindPrintables | src/main/java/krum/weaponm/database/ParserUtils.java:256-296 | every printable run outside escape sequences in the span, in order |
| ParserUtils.StripHasNoEscape | src/main/java/krum/weaponm/database/ParserUtils.java:298-318 | the stripped text contains no ESC |
| ParserUtils.StripWithoutEscape | src/main/java/krum/weaponm/database/ParserUtils.java:298-318 | text without ESC passes through unchanged |
| ParserUtils.StripIdempotent | src/main/java/krum/weaponm/database/ParserUtils.java:298-318 | stripping twice gives the same text as stripping once |
| ParserUtils.StripAppend | src/main/java/krum/weaponm/database/ParserUtils.java:301-316 | the stripper works one character at a time, carrying only whether it is inside an escape |
| ParserUtils.StripEndStateAppend | src/main/java/krum/weaponm/database/ParserUtils.java:301-316 | the escape state after s + [c] is the state after c, started from the state after s |
| ParserUtils.StripAnsi | src/main/java/krum/weaponm/database/ParserUtils.java:298-318 | the input with ESC and everything up to and including the next letter removed |
| ParserUtils.StripBackspacesExample | src/main/java/krum/weaponm/database/ParserUtils.java:356-357 | "ABCXX" with two backspace sequences and "D" reads as "ABCD"; a backspace at the start throws IndexOutOfBounds |
| ParserUtils.UnbackspaceNoBackspace | src/main/java/krum/weaponm/database/ParserUtils.java:325-336 | input without backspaces comes back unchanged |
| ParserUtils.StripBackspaces | src/main/java/krum/weaponm/database/ParserUtils.java:325-336 | each backspace removes itself, the two characters after it and the character before it; with nothing before it the call throws |
| ParserUtils.ToIntArray | src/main/java/krum/weaponm/database/ParserUtils.java:338-346 | an array of the list's length holding its values in order |
| GameStatistics.IndexOf | src/main/java/krum/weaponm/database/GameStats.java:83 | String.indexOf: the first position of the character, or -1 exactly when it does not occur |
| GameStatistics.PrefixBefore | src/main/java/krum/weaponm/database/GameStats.java:82-84 | substring(0, indexOf(c)): the text before the first c, IndexOutOfBounds exactly when c does not occur |
| GameStatistics.Merged | src/main/java/krum/weaponm/database/GameStats.java:49 | putAll: the keys of both maps, the new values winning, the other old values kept |
| GameStatistics.MergeIdempotent | src/main/java/krum/weaponm/database/GameStats.java:43-51 | after an accepted update the same map is accepted again and merging it again changes nothing |
| GameStatistics.MergeLocksStartDay | src/main/java/krum/weaponm/database/GameStats.java:43-51 | once a Start Day is stored, a map with a different or missing Start Day is refused |
| GameStatistics.GameStats.constructor | src/main/java/krum/weaponm/database/GameStats.java:16-18 | the stats start empty |
| GameStatistics.GameStats.GetStat | src/main/java/krum/weaponm/database/GameStats.java:26-28 | the stored value, null exactly for a stat never seen |
| GameStatistics.GameStats.IsEmpty | src/main/java/krum/weaponm/database/GameStats.java:33-35 | true exactly when no stat is stored |
| GameStatistics.GameStats.UpdateAll | src/main/java/krum/weaponm/database/GameStats.java:43-51 | DatabaseIntegrity and no change when the stored Start Day differs from the new one; otherwise the maps are merged |
| GameStatistics.GameStats.IntStat | src/main/java/krum/weaponm/database/GameStats.java:448-452 | Integer.parseInt of the stored value; NumberFormat for a missing stat or a bad number |
| GameStatistics.GameStats.OptionalPercentStat | src/main/java/krum/weaponm/database/GameStats.java:500-504 | 0 for "N/A", else Integer.parseInt of the value |
| GameStatistics.GameStats.BoolStat | src/main/java/krum/weaponm/database/GameStats.java:65-67 | Boolean.parseBoolean of the value: true only for a stored "true" in any letter case |
| GameStatistics.PrefixOfWritten | src/main/java/krum/weaponm/database/GameStats.java:81-84 | the number the game writes before a separator is the text substring(0, indexOf) recovers |
| GameStatistics.GameStats.UnitStat | src/main/java/krum/weaponm/database/GameStats.java:81-84 | the number before the first space of the stat; NullPointer for a missing stat, IndexOutOfBounds when there is no space |
| GameStatistics.GameStats.PercentStat | src/main/java/krum/weaponm/database/GameStats.java:182-185 | the number before the first '%' of the stat; NullPointer for a missing stat, IndexOutOfBounds when there is no '%' |
| GameStatistics.GameStats.CostStat | src/main/java/krum/weaponm/database/GameStats.java:300-303 | the thousands-separated number before the first space of the stat; NullPointer for a missing stat, IndexOutOfBounds when there is no space |
| GameStatistics.UnitStatReadsNumber | src/main/java/krum/weaponm/database/GameStats.java:81-84 | a stat written as a number, a space and a unit reads back that number |
| GameStatistics.PercentStatReadsNumber | src/main/java/krum/weaponm/database/GameStats.java:182-185 | a stat written as a number and '%' reads back that number |
| GameStatistics.CostStatReadsNumber | src/main/java/krum/weaponm/database/GameStats.java:300-303 | a cost written as a number, a space and a unit reads back that number |
| GameStatistics.CostStatExample | src/main/java/krum/weaponm/database/GameStats.java:300-303 | a Max Bank Credits of "5,000 credits" reads as 5000 |
| SearchNodes.NewNode | src/main/java/krum/weaponm/script/BreadthFirstSearch.java:201-206 | the origin node has distance 0; any other node is one past its parent |
| SearchNodes.PathShape | src/main/java/krum/weaponm/script/BreadthFirstSearch.java:155-182 | walking the parent chain of a node at distance d visits d + 1 sectors, from the root to the node, each step along an outbound warp of the previous sector |
| SearchNodes.AncestorAtLast | src/main/java/krum/weaponm/script/BreadthFirstSearch.java:199-206 | the ancestor one step nearer the origin is the parent |
| SearchNodes.AncestorAtParent | src/main/java/krum/weaponm/script/BreadthFirstSearch.java:199-206 | ancestors nearer the origin than the node are the parent's ancestors |
| NodeMatchers.AllAndNone | src/main/java/krum/weaponm/script/NodeMatcher.java:17-30 | ALL matches every node and NONE, built as complement(ALL), matches none |
| NodeMatchers.SectorMatcher | src/main/java/krum/weaponm/script/NodeMatcher.java:54-61 | matches exactly the nodes whose sector has the given number |
| NodeMatchers.AtDistanceMatcher | src/main/java/krum/weaponm/script/NodeMatcher.java:76-83 | matches exactly the nodes at the given distance |
| NodeMatchers.StockMatchers | src/main/java/krum/weaponm/script/NodeMatcher.java:32-52 | NOT_AVOIDED matches unavoided sectors and UNEXPLORED unexplored ones |
| NodeMatchers.IntersectionOf | src/main/java/krum/weaponm/script/NodeMatcher.java:88-96 | NullPointer exactly when an argument is null; otherwise matches where both match |
| NodeMatchers.UnionOf | src/main/java/krum/weaponm/script/NodeMatcher.java:101-109 | NullPointer exactly when an argument is null; otherwise matches where either matches |
| NodeMatchers.ComplementOf | src/main/java/krum/weaponm/script/NodeMatcher.java:114-122 | NullPointer exactly when the argument is null; otherwise matches where it does not |
| NodeMatchers.DoubleComplement | src/main/java/krum/weaponm/script/NodeMatcher.java:114-122 | complementing twice matches the same nodes as the original |
| NodeMatchers.DeMorgan | src/main/java/krum/weaponm/script/NodeMatcher.java:101-122 | the complement of a union matches like the intersection of the complements |
| NodeMatchers.CustomMatcher | src/main/java/krum/weaponm/script/NodeMatcher.java:7-15 | a script's own matcher matches exactly what its test accepts, and the combinators treat it like any other matcher |
| Capacities.CandidateBounds | src/main/java/krum/weaponm/database/DataParser.java:874-878 | for a selling port the estimate is a positive multiple of 10, the smallest one strictly above 100 * level / (percent + 1) |
| Capacities.RoundUp | src/main/java/krum/weaponm/database/DataParser.java:877 | cap + 10 - cap % 10 is the next multiple of 10 strictly above cap |
| Capacities.DivBounds | src/main/java/krum/weaponm/database/DataParser.java:876 | Euclidean division brackets n between two multiples of d |
| Capacities.MultiplyMonotone | src/main/java/krum/weaponm/database/DataParser.java:876 | multiplying by a non-negative number keeps order |
| Capacities.CandidateSmallest | src/main/java/krum/weaponm/database/DataParser.java:873-878 | no multiple of 10 below the estimate shows the reported percentage: the estimate is the least capacity that could |
| Capacities.BelowNextMultiple | src/main/java/krum/weaponm/database/DataParser.java:876 | n lies below the next multiple of cap |
| Capacities.MultiplesApart | src/main/java/krum/weaponm/database/DataParser.java:877-878 | two different multiples of 10 are at least 10 apart |
| Capacities.CandidateOdd | src/main/java/krum/weaponm/database/DataParser.java:876-878 | a buying port's estimate is the selling estimate with its sign turned |
| Capacities.QuotNegate | src/main/java/krum/weaponm/database/DataParser.java:876 | Java's truncating division commutes with negation |
| Capacities.RemNegate | src/main/java/krum/weaponm/database/DataParser.java:878 | Java's remainder commutes with negation |
| Capacities.CandidateSign | src/main/java/krum/weaponm/database/DataParser.java:876-878 | the estimate is never zero and has the level's sign |
| Capacities.CandidateExample | src/main/java/krum/weaponm/database/DataParser.java:876-878 | 2510 units at 97% estimate a capacity of 2570, and -2510 units -2570 |
| Capacities.Raise | src/main/java/krum/weaponm/database/DataParser.java:883-886 | a capacity only changes to the estimate, and only when the estimate's magnitude is larger |
| Capacities.NewCapacity | src/main/java/krum/weaponm/database/DataParser.java:864-891 | a capacity's magnitude never shrinks; it changes only for a non-zero level, to the level at 100% and to the estimate otherwise; afterwards it shows the reported percentage or is at least the estimate |
| Capacities.NewCapacityAsWritten | src/main/java/krum/weaponm/database/DataParser.java:864-891 | with the test at line 870 as written, the magnitude still never shrinks |
| Capacities.StaleCapacityExample | src/main/java/krum/weaponm/database/DataParser.java:870 | as written a capacity of 1000 survives a report of 50 units at 0%, which it cannot show; the corrected test raises it to 5010 |
| Capacities.Upgrade | src/main/java/krum/weaponm/database/DataParser.java:883-889 | PORT_UPGRADED reports the increase exactly when a known (non-zero) capacity grows |
| Sectors.Insert | src/main/java/krum/weaponm/database/Sector.java:167 | the insertion step of Arrays.sort adds exactly one element and keeps the others |
| Sectors.InsertAscending | src/main/java/krum/weaponm/database/Sector.java:167 | inserting into an ascending list keeps it ascending |
| Sectors.InsertMember | src/main/java/krum/weaponm/database/Sector.java:167 | insertion adds nothing but the inserted element |
| Sectors.AscendingCons | src/main/java/krum/weaponm/database/Sector.java:167 | a head no larger than an ascending tail gives an ascending list |
| Sectors.SortSeq | src/main/java/krum/weaponm/database/Sector.java:167 | Arrays.sort keeps the same elements with the same multiplicities |
| Sectors.SortPair | src/main/java/krum/weaponm/database/Sector.java:167 | two elements come out in ascending order |
| Sectors.SortSeqAscending | src/main/java/krum/weaponm/database/Sector.java:163-170 | Arrays.sort leaves the list ascending, as getWarpsOut documents |
| Sectors.SortSeqSameMembers | src/main/java/krum/weaponm/database/Sector.java:167 | sorting neither adds nor drops a sector |
| Sectors.Later | src/main/java/krum/weaponm/database/Sector.java:377-381 | getScanDate's choice: null only when both dates are null, otherwise one of them and no earlier than either |
| Sectors.Sector.constructor | src/main/java/krum/weaponm/database/Sector.java:20-62 | a new sector has its number, no warps (both lists flagged sorted), no flags, UNKNOWN densities, no anomaly, no dates and no fighters |
| Sectors.Sector.GetNumWarpsOut | src/main/java/krum/weaponm/database/Sector.java:79-81 | the larger of the density scan's warp count and the number of known warps |
| Sectors.Sector.HasWarpTo | src/main/java/krum/weaponm/database/Sector.java:107-112 | true exactly when the sector is among the known outbound warps |
| Sectors.Sector.HasWarpFrom | src/main/java/krum/weaponm/database/Sector.java:118-123 | true exactly when the sector is among the known inbound warps |
| Sectors.Sector.AppendWarpOut | src/main/java/krum/weaponm/database/Sector.java:125-134 | a new warp is appended only when the sector is not fully mapped and the warp is not known; then the sector becomes fully mapped at 6 warps or at the density count, and the sorted flag is cleared exactly when the new warp is below the last one; only the outbound list, its flag and fullyMapped may change |
| Sectors.Sector.AddWarpFrom | src/main/java/krum/weaponm/database/Sector.java:139-146 | the inbound list gains the sector once, appended at the end, and the sorted flag is cleared exactly when it is below the last entry; only the inbound list and its flag may change |
| Sectors.Sector.ReplaceWarpsOutAsWritten | src/main/java/krum/weaponm/database/Sector.java:148-155 | as written the list is skipped whenever the old list is sorted and of the same length, and a new list is flagged sorted without being sorted; a skipped list leaves everything as it was; only the outbound list, its flag, explored and fullyMapped may change |
| Sectors.Sector.ReplaceWarpsOut | src/main/java/krum/weaponm/database/Sector.java:148-162 | the outbound warps become the reported ones, sorted, unless they are already exactly those; the sector is then explored and fully mapped; otherwise nothing changes; only the outbound list, its flag, explored and fullyMapped may change |
| Sectors.Sector.GetWarpsOut | src/main/java/krum/weaponm/database/Sector.java:165-171 | a copy of the outbound warps in ascending order, the same multiset as before; a sorted list is not touched; only the outbound list and its flag may change |
| Sectors.Sector.GetWarpsIn | src/main/java/krum/weaponm/database/Sector.java:192-198 | a copy of the inbound warps in ascending order, the same multiset as before; a sorted list is not touched; only the inbound list and its flag may change |
| Sectors.Sector.SetDensityData | src/main/java/krum/weaponm/database/Sector.java:249-256 | the four density readings and their date are replaced; the sector becomes fully mapped when the warp count equals the known warps; nothing else may change |
| Sectors.Sector.SetNebula | src/main/java/krum/weaponm/database/Sector.java:316-318 | a null nebula is ignored, any other replaces the old one; only the nebula may change |
| Sectors.Sector.SetFighters | src/main/java/krum/weaponm/database/Sector.java:417-424 | nothing changes when count, owner and mode are the same; otherwise they are replaced and the date is cleared for zero fighters and stamped otherwise; only the four fighter fields may change |
| Sectors.Sector.GetScanDate | src/main/java/krum/weaponm/database/Sector.java:377-381 | the later of the holo and density dates, or whichever one exists |
| Sectors.Sector.ToString | src/main/java/krum/weaponm/database/Sector.java:509-511 | the sector number in decimal: for every Java int number, Integer.parseInt of the text gives the number back |
| Sectors.ReplaceWarpsOutAsWrittenExample | src/main/java/krum/weaponm/database/Sector.java:150 | a sector with warps 2 and 3 told it warps to 2 and 4 keeps 2 and 3, and a new list 4, 2 is flagged sorted |
| Sectors.ReplaceWarpsOutExample | src/main/java/krum/weaponm/database/Sector.java:148-162 | the corrected replacement on the same inputs stores 2 and 4 |
| Databases.TraderKey | src/main/java/krum/weaponm/database/Database.java:281-282 | the index key is the first six characters of a longer name, or the whole of a shorter one, and always begins the name |
| Databases.TraderKeyOfPrefix | src/main/java/krum/weaponm/database/Database.java:302-311 | a prefix of at least six characters finds the same key as the full name; a shorter one only finds itself |
| Databases.View | src/main/java/krum/weaponm/database/Sector.java:165-171 | the search sees a sector's number, flags and exactly its known outbound warps |
| Databases.With | src/main/java/krum/weaponm/database/Sector.java:139-146 | addWarpFrom's list gains the sector and nothing else, and loses nothing |
| Databases.MirroredAfterSet | src/main/java/krum/weaponm/database/Sector.java:148-162 | once every target of setWarpsOut recorded the warp, every warp out is still mirrored by a warp in |
| Databases.MirroredAfterAdd | src/main/java/krum/weaponm/database/Sector.java:125-137 | once the target of addWarpTo recorded the warp, every warp out is still mirrored by a warp in |
| Databases.MirroredAfterRow | src/main/java/krum/weaponm/database/Database.java:95-100 | one sector of restoreTransients' loop extends the mirror by that sector's warps, or shows one of them out of range |
| Databases.MirroredInRange | src/main/java/krum/weaponm/database/Database.java:95-100 | when every warp out is mirrored, every warp out leads into the sector array |
| Databases.Database.constructor | src/main/java/krum/weaponm/database/Database.java:22-63 | a new database has no sectors, an UNKNOWN Stardock, no class 0 ports, empty indexes and You as its trader |
| Databases.Database.IsInitialized | src/main/java/krum/weaponm/database/Database.java:110-112 | true exactly when the sector array exists |
| Databases.Database.Initialize | src/main/java/krum/weaponm/database/Database.java:117-125 | a second call changes nothing; otherwise the number of sectors from the game stats gives that many new sectors numbered 1..N without warps, or the parse error or NegativeArraySize and no array |
| Databases.Database.Install | src/main/java/krum/weaponm/database/Database.java:119 | the array holds exactly the sectors made, and no warp exists yet to be mirrored |
| Databases.Database.NewSectors | src/main/java/krum/weaponm/database/Database.java:120-122 | n fresh sectors, sector i + 1 at index i, each unexplored and without warps |
| Databases.Database.GetNumSectors | src/main/java/krum/weaponm/database/Database.java:387-389 | UNKNOWN before initialize, else the number of sectors |
| Databases.Database.GetSector | src/main/java/krum/weaponm/database/Database.java:222-224 | sector n, NullPointer before initialize and IndexOutOfBounds outside 1..N |
| Databases.Database.SetStardockSector | src/main/java/krum/weaponm/database/Database.java:164-166 | only the Stardock sector number changes |
| Databases.Database.GetStardockSector | src/main/java/krum/weaponm/database/Database.java:159-162 | null while unknown, otherwise the sector with that number or getSector's error |
| Databases.Database.IsFedSpace | src/main/java/krum/weaponm/database/Sector.java:498-500 | sectors 1 to 10 and the Stardock sector are FedSpace |
| Databases.Database.AddZeroSector | src/main/java/krum/weaponm/database/Database.java:185-187 | the sector is appended once; the list never holds a sector twice |
| Databases.Database.GetZeroSectors | src/main/java/krum/weaponm/database/Database.java:171-183 | the sectors of the class 0 ports in the order found, or getSector's error for one out of range |
| Databases.Database.GetShip | src/main/java/krum/weaponm/database/Database.java:239-241 | the ship filed under that number, null exactly when none is |
| Databases.Database.PutShip | src/main/java/krum/weaponm/database/Database.java:243-245 | the ship is filed under its number; nothing else changes |
| Databases.Database.RemoveShip | src/main/java/krum/weaponm/database/Database.java:247-250 | the number is no longer filed; nothing else changes |
| Databases.Database.GetOrCreateShipType | src/main/java/krum/weaponm/database/Database.java:255-266 | the type filed under the name, or a new unknown type added to the set and filed under it |
| Databases.Database.GetOrCreateTrader | src/main/java/krum/weaponm/database/Database.java:280-297 | the trader filed under the name's key, renamed when the given name is longer; or a new trader with that name, added and filed under its key; no other trader is renamed |
| Databases.Database.LengthenName | src/main/java/krum/weaponm/database/Database.java:284 | a filed trader takes a longer name with the same key, and the index stays consistent |
| Databases.Database.AddTrader | src/main/java/krum/weaponm/database/Database.java:290-295 | a new trader with the name, added to the set and filed under its key |
| Databases.Database.FileTrader | src/main/java/krum/weaponm/database/Database.java:292-293 | the trader is added to the set and filed under its key; the index stays consistent |
| Databases.Database.GetTrader | src/main/java/krum/weaponm/database/Database.java:302-312 | found exactly when a trader is filed under the name's key and the name begins that trader's name |
| Databases.Database.GetOrCreateCorp | src/main/java/krum/weaponm/database/Database.java:314-324 | the corporation with that number, created with no members when new |
| Databases.Database.AddWarpTo | src/main/java/krum/weaponm/database/Sector.java:125-137 | when the sector takes the warp its target records a warp back, keeping every warp mirrored; a target outside the array throws after the sector took the warp |
| Databases.Database.SetWarpsOut | src/main/java/krum/weaponm/database/Sector.java:148-162 | unless the sector already holds exactly these warps it takes them sorted, becomes explored and fully mapped, and every target records a warp back; an out-of-range target throws |
| Databases.Database.RecordTargets | src/main/java/krum/weaponm/database/Sector.java:156-159 | once the sector took its new warps, every target records a warp back, keeping every warp mirrored |
| Databases.Database.RecordWarpsFrom | src/main/java/krum/weaponm/database/Sector.java:156-159 | each target in order records a warp from the sector; IndexOutOfBounds exactly when a target is outside the array |
| Databases.Database.MirrorRow | src/main/java/krum/weaponm/database/Database.java:97-99 | each warp of one sector in order is recorded into its target; IndexOutOfBounds exactly when one is outside the array |
| Databases.Database.MirrorSector | src/main/java/krum/weaponm/database/Database.java:95-100 | one sector's warps are sorted, then mirrored into their targets |
| Databases.Database.MirrorWarps | src/main/java/krum/weaponm/database/Database.java:94-101 | every warp out of every sector is mirrored by a warp in, or the call throws exactly when some warp leads outside the array |
| Databases.Database.RestoreTransients | src/main/java/krum/weaponm/database/Database.java:66-102 | the ship type and trader indexes are rebuilt, every entry filed under its own name or key, and every warp is mirrored once the sectors exist |
| Databases.Database.RebuildIndexes | src/main/java/krum/weaponm/database/Database.java:68-78 | both indexes are rebuilt from the sets; nothing else changes |
| Databases.Database.NameIndex | src/main/java/krum/weaponm/database/Database.java:68-71 | every ship type is filed by its name, and every entry is a type of the set filed under its own name |
| Databases.Database.KeyIndex | src/main/java/krum/weaponm/database/Database.java:73-78 | every trader is filed by its key, and every entry is a trader of the set filed under its own key |
| Databases.Database.Views | src/main/java/krum/weaponm/database/Database.java:424-434 | the sectors as the search sees them, sector k+1 at index k |
| Databases.Database.ViewsAreSectors | src/main/java/krum/weaponm/database/Database.java:424-434 | the search's courses are exactly the courses along the database's known warps |
| Databases.Database.PlotCourse | src/main/java/krum/weaponm/database/Database.java:424-446 | an origin below 1 is an IllegalArgument before the array is read; then NullPointer before initialize, IllegalArgument for an origin past the last sector, IndexOutOfBounds for a stored warp outside the universe; otherwise a returned course starts at from, ends at to and follows known warps, and with ignoreAvoids no course exists when null is returned |
| Databases.Database.PlotCourseOn | src/main/java/krum/weaponm/database/Database.java:424-446 | the search from 'from' for sector 'to': IllegalArgument for an origin outside the array, a course along warps when found, and none at all when not found through every sector |
| Databases.Database.SetLastCimPortsDate | src/main/java/krum/weaponm/database/Database.java:371-373 | only the last CIM ports date changes |
| BreadthFirstSearches.OriginNode | src/main/java/krum/weaponm/script/BreadthFirstSearch.java:48 | the origin node stands for the origin sector, has no parent and distance 0 |
| BreadthFirstSearches.Included | src/main/java/krum/weaponm/script/BreadthFirstSearch.java:43 | the included array has one slot per sector |
| BreadthFirstSearches.IncludedSpec | src/main/java/krum/weaponm/script/BreadthFirstSearch.java:51-84 | a sector's slot is filled exactly when a node for that sector is listed, and then holds that node |
| BreadthFirstSearches.IncludedAppend | src/main/java/krum/weaponm/script/BreadthFirstSearch.java:76-85 | listing one more node fills only that node's sector slot |
| BreadthFirstSearches.TreeAdd | src/main/java/krum/weaponm/script/BreadthFirstSearch.java:73-86 | adding a fresh warp target of a listed node, as a child of it, keeps the search a tree over the sectors rooted at the origin |
| BreadthFirstSearches.AddNodes | src/main/java/krum/weaponm/script/BreadthFirstSearch.java:73 | a child made from a warp of a listed node is a node of the graph rooted at the origin |
| BreadthFirstSearches.AddDistinct | src/main/java/krum/weaponm/script/BreadthFirstSearch.java:71-72 | a sector not yet considered appears at most once in the listing |
| BreadthFirstSearches.AddSorted | src/main/java/krum/weaponm/script/BreadthFirstSearch.java:67-86 | the listing stays ordered by distance when a child of the node being expanded is appended |
| BreadthFirstSearches.ConsideredMember | src/main/java/krum/weaponm/script/BreadthFirstSearch.java:71 | once every warp of a sector has been considered, each of them is marked considered |
| BreadthFirstSearches.SortedBound | src/main/java/krum/weaponm/script/BreadthFirstSearch.java:67-68 | the nodes listed before the expansion of node i are at most one step further than node i |
| BreadthFirstSearches.GrowsByOne | src/main/java/krum/weaponm/script/BreadthFirstSearch.java:72 | marking a sector considered only adds marks |
| BreadthFirstSearches.AllConsideredGrows | src/main/java/krum/weaponm/script/BreadthFirstSearch.java:72 | marks that cover a sector's warps still cover them after more marking |
| BreadthFirstSearches.ExpandedGrows | src/main/java/krum/weaponm/script/BreadthFirstSearch.java:67-90 | nodes whose warps were all considered stay so as the search grows |
| BreadthFirstSearches.SearchingReject | src/main/java/krum/weaponm/script/BreadthFirstSearch.java:83-88 | a child that the inclusion matcher rejects is marked considered and nothing else changes |
| BreadthFirstSearches.MatchingAdd | src/main/java/krum/weaponm/script/BreadthFirstSearch.java:83-86 | an appended child that the inclusion matcher accepts and the target matcher rejects keeps every listed node matched |
| BreadthFirstSearches.MatchingTarget | src/main/java/krum/weaponm/script/BreadthFirstSearch.java:74-80 | the child that matches the target is the target node |
| BreadthFirstSearches.CoversAdd | src/main/java/krum/weaponm/script/BreadthFirstSearch.java:72-86 | every considered sector that the inclusion matcher accepts is listed, after a child is appended |
| BreadthFirstSearches.AsWrittenAdd | src/main/java/krum/weaponm/script/BreadthFirstSearch.java:69-73 | as written, every added child is a child of a listed node through a warp of the origin sector |
| BreadthFirstSearches.SearchingAdd | src/main/java/krum/weaponm/script/BreadthFirstSearch.java:83-86 | appending an accepted, non-target child keeps the whole search invariant |
| BreadthFirstSearches.TargetAdd | src/main/java/krum/weaponm/script/BreadthFirstSearch.java:74-80 | appending the target child gives a finished search whose target node is that child |
| BreadthFirstSearches.SearchingFound | src/main/java/krum/weaponm/script/BreadthFirstSearch.java:90 | a search that runs out of nodes to expand is finished, with no target node |
| BreadthFirstSearches.Consider | src/main/java/krum/weaponm/script/BreadthFirstSearch.java:71-88 | one warp considered: skipped if already considered, otherwise stop on the target, append an accepted child, and stop when the array is full, keeping the invariant |
| BreadthFirstSearches.ConsiderFresh | src/main/java/krum/weaponm/script/BreadthFirstSearch.java:72-88 | the same for a warp not yet considered |
| BreadthFirstSearches.KeepConsidered | src/main/java/krum/weaponm/script/BreadthFirstSearch.java:74-88 | the branches that leave the listing as it was: a target not included, a rejected child, or an append past the end of the array |
| BreadthFirstSearches.TargetConsidered | src/main/java/krum/weaponm/script/BreadthFirstSearch.java:74-81 | the branch that includes the target and stops |
| BreadthFirstSearches.AddConsidered | src/main/java/krum/weaponm/script/BreadthFirstSearch.java:83-87 | the branch that appends an accepted child and stops when the array is full |
| BreadthFirstSearches.ExpandParent | src/main/java/krum/weaponm/script/BreadthFirstSearch.java:67-90 | expanding one parent considers the warps of that parent (corrected) or of the origin (as written), keeping the invariant |
| BreadthFirstSearches.ExpandingNext | src/main/java/krum/weaponm/script/BreadthFirstSearch.java:68 | the node being expanded stays at its place while its warps are considered |
| BreadthFirstSearches.ExpandingStep | src/main/java/krum/weaponm/script/BreadthFirstSearch.java:70-89 | the expansion invariant holds after one more warp |
| BreadthFirstSearches.ExpandingStop | src/main/java/krum/weaponm/script/BreadthFirstSearch.java:81-87 | a return from inside the warp loop ends the expansion with its outcome |
| BreadthFirstSearches.ExpandingDone | src/main/java/krum/weaponm/script/BreadthFirstSearch.java:70-89 | after the last warp the parent is fully expanded and the search goes on |
| BreadthFirstSearches.ClosedWhenExpanded | src/main/java/krum/weaponm/script/BreadthFirstSearch.java:67-90 | with everything included, the fully expanded nodes have all their warp targets listed |
| BreadthFirstSearches.Explore | src/main/java/krum/weaponm/script/BreadthFirstSearch.java:40-91 | IllegalArgument exactly for a negative limit or an origin outside the sectors; the origin matching the target gives only the origin (or nothing); otherwise a tree ordered by distance of accepted, distinct nodes; when everything is included, the target may be included and none was found, the corrected search that did not fill its array is closed under warps, and the search as written is closed only at the origin's own warps |
| BreadthFirstSearches.OriginTrees | src/main/java/krum/weaponm/script/BreadthFirstSearch.java:61-64 | the empty search and the search holding only the origin are trees, and priming with an accepted origin establishes the invariant |
| BreadthFirstSearches.OriginTree | src/main/java/krum/weaponm/script/BreadthFirstSearch.java:48-63 | the empty search and the search holding only the origin are trees |
| BreadthFirstSearches.Run | src/main/java/krum/weaponm/script/BreadthFirstSearch.java:67-90 | the expansion loop keeps the invariant and ends with a search result; an overrun of the node array happens only as written with a one-node array |
| BreadthFirstSearches.RunningNext | src/main/java/krum/weaponm/script/BreadthFirstSearch.java:67-68 | during the loop the last listed node is at most one step further than the node being expanded |
| BreadthFirstSearches.RunningStep | src/main/java/krum/weaponm/script/BreadthFirstSearch.java:67 | the loop invariant holds for the next parent |
| BreadthFirstSearches.StoppedResult | src/main/java/krum/weaponm/script/BreadthFirstSearch.java:81-87 | a return from inside the loop gives a search result |
| BreadthFirstSearches.ExhaustedResult | src/main/java/krum/weaponm/script/BreadthFirstSearch.java:67-90 | a loop that runs out of parents gives a search result; when everything is included and the target may be included, the corrected search is closed under warps and the search as written has all of the origin's warps listed |
| BreadthFirstSearches.IncludesSector | src/main/java/krum/weaponm/script/BreadthFirstSearch.java:117-119 | an index error for a sector outside the array, otherwise whether the slot is filled |
| BreadthFirstSearches.GetNode | src/main/java/krum/weaponm/script/BreadthFirstSearch.java:127-129 | an index error for a sector outside the array, and a node exactly when the sector is included |
| BreadthFirstSearches.IncludedMeansListed | src/main/java/krum/weaponm/script/BreadthFirstSearch.java:107-129 | a sector is included exactly when it is among the listed nodes, and its node is the listed one |
| BreadthFirstSearches.PathIsCourse | src/main/java/krum/weaponm/script/BreadthFirstSearch.java:190-206 | the parent chain of a node is a course along warps from its root to it |
| BreadthFirstSearches.Walk | src/main/java/krum/weaponm/script/BreadthFirstSearch.java:178-181 | walking up the parents fills the course from the node's distance down to the origin |
| BreadthFirstSearches.PlotCourseAsWritten | src/main/java/krum/weaponm/script/BreadthFirstSearch.java:174-185 | as written: an index error outside the array, null for a sector not included, and a null dereference for an included one |
| BreadthFirstSearches.PlotCourse | src/main/java/krum/weaponm/script/BreadthFirstSearch.java:174-185 | a course from the origin to the destination, one entry longer than the destination's distance, exactly when it is included; an index error outside the array |
| BreadthFirstSearches.IncludedNodeShape | src/main/java/krum/weaponm/script/BreadthFirstSearch.java:127-129 | the node of an included sector belongs to it and descends from the origin node along warps |
| BreadthFirstSearches.ClosedTreeHoldsCourse | src/main/java/krum/weaponm/script/BreadthFirstSearch.java:67-90 | in a tree closed under warps, every sector reachable from the origin is included |
| BreadthFirstSearches.CoursePrefix | src/main/java/krum/weaponm/script/BreadthFirstSearch.java:174-185 | dropping the last step of a course gives a course to the previous sector |
| BreadthFirstSearches.ClosedStep | src/main/java/krum/weaponm/script/BreadthFirstSearch.java:67-90 | in a closed tree, a warp target of an included sector is included |
| BreadthFirstSearches.NumbersCount | src/main/java/krum/weaponm/script/BreadthFirstSearch.java:71-72 | distinct nodes name as many sectors as there are nodes |
| BreadthFirstSearches.RangeCount | src/main/java/krum/weaponm/script/BreadthFirstSearch.java:43 | there are n sector numbers from 1 to n |
| BreadthFirstSearches.FullTreeListsAll | src/main/java/krum/weaponm/script/BreadthFirstSearch.java:43-44 | a listing as long as the sector array names every sector |
| BreadthFirstSearches.NotFoundMeansNoCourse | src/main/java/krum/weaponm/script/BreadthFirstSearch.java:40-91 | a complete search from the origin that includes everything and finds no target means no course to the target exists |
| BreadthFirstSearches.Chain | src/main/java/krum/weaponm/script/BreadthFirstSearch.java:69 | three sectors, 1 to 2 to 3 |
| BreadthFirstSearches.ChainAsWrittenExample | src/main/java/krum/weaponm/script/BreadthFirstSearch.java:69 | as written, a search from 1 for 3 along the chain finds no target |
| BreadthFirstSearches.ChainExample | src/main/java/krum/weaponm/script/BreadthFirstSearch.java:69 | corrected, it finds 3 and plots the course 1, 2, 3 |
| BreadthFirstSearches.ChainAsWrittenStaysNear | src/main/java/krum/weaponm/script/BreadthFirstSearch.java:69 | as written, only the origin and its own warps are ever listed |
| BreadthFirstSearches.ChainReachesThree | src/main/java/krum/weaponm/script/BreadthFirstSearch.java:67-90 | any closed or full tree over the chain lists sector 3 |
| BreadthFirstSearches.ChainCourse | src/main/java/krum/weaponm/script/BreadthFirstSearch.java:174-185 | the only course from 1 to 3 along the chain is 1, 2, 3 |
| BreadthFirstSearches.Pair | src/main/java/krum/weaponm/script/BreadthFirstSearch.java:44 | two sectors, 1 to 2 |
| BreadthFirstSearches.OverrunExample | src/main/java/krum/weaponm/script/BreadthFirstSearch.java:44-87 | with limit 1, as written the search writes past its one-slot array; corrected it returns the origin alone |
| BreadthFirstSearches.PairNeedsTwo | src/main/java/krum/weaponm/script/BreadthFirstSearch.java:44 | a tree over the pair with the origin's warps included holds two nodes, so a one-slot array cannot hold it |
| DataParsing.TimeRoundTrip | src/main/java/krum/weaponm/database/DataParser.java:331 | a prompt's clock time in seconds lies within one day and gives back its hours, minutes and seconds |
| DataParsing.ComputerPromptAfter | src/main/java/krum/weaponm/database/DataParser.java:357-364 | the computer prompt is the citadel computer prompt exactly when the current prompt was the citadel or its computer |
| DataParsing.SectorChange | src/main/java/krum/weaponm/database/DataParser.java:335-339 | a location notice only when the sector differs, naming the old sector or none and the new one |
| DataParsing.SectorChangeAsWritten | src/main/java/krum/weaponm/database/DataParser.java:353-356 | as written the computer prompt's notice fails exactly when your old location is unknown |
| DataParsing.SectorChangeAgrees | src/main/java/krum/weaponm/database/DataParser.java:335-356 | once your location is known, the computer prompt and the command prompt report the same notice |
| DataParsing.UnknownLocationExample | src/main/java/krum/weaponm/database/DataParser.java:351-355 | with no known location the computer prompt throws, where the command prompt reports the move |
| DataParsing.ProductOf | src/main/java/krum/weaponm/database/DataParser.java:455-469 | 'F', 'O' and 'E' name fuel ore, organics and equipment, any other letter UNKNOWN |
| DataParsing.Traded | src/main/java/krum/weaponm/database/DataParser.java:501 | buying adds the units to the hold and selling takes them away |
| DataParsing.TradeRoundTrip | src/main/java/krum/weaponm/database/DataParser.java:501 | buying and then selling the same units gives the cargo back |
| DataParsing.Change | src/main/java/krum/weaponm/database/DataParser.java:422-425 | a property notice only when the value differs, carrying the old and the new value |
| DataParsing.ChangeIdempotent | src/main/java/krum/weaponm/database/DataParser.java:419-426 | reporting the same value twice notifies only once |
| DataParsing.StatEntry | src/main/java/krum/weaponm/database/DataParser.java:159-162 | a stats line parses exactly when its first '=' comes after the leading character |
| DataParsing.StatEntryRoundTrip | src/main/java/krum/weaponm/database/DataParser.java:159-163 | a line built from a key without '=' and any value gives back that key and value |
| DataParsing.IndexOfFirst | src/main/java/krum/weaponm/database/DataParser.java:160 | indexOf gives the first occurrence of the character |
| DataParsing.NewCapacities | src/main/java/krum/weaponm/database/DataParser.java:864-891 | each of the three capacities after a report is that product's capacity estimate |
| DataParsing.Upgrades | src/main/java/krum/weaponm/database/DataParser.java:883-889 | at most one upgrade notice per product |
| DataParsing.UpgradesMeaning | src/main/java/krum/weaponm/database/DataParser.java:883-889 | every upgrade notice names the port, a product whose known nonzero capacity grew, and by how much its magnitude grew |
| DataParsing.FirstReportNoUpgrades | src/main/java/krum/weaponm/database/DataParser.java:887-889 | the first report on a port, with every capacity unknown, fires no upgrade |
| DataParsing.NewPairs | src/main/java/krum/weaponm/database/DataParser.java:262-269 | at most one pair per reported warp |
| DataParsing.NewPairsMembers | src/main/java/krum/weaponm/database/DataParser.java:262-269 | the recorded pairs are exactly the reported warps the sector did not know, so nothing is recorded when all are known |
| DataParsing.NewPairsPrefix | src/main/java/krum/weaponm/database/DataParser.java:262-269 | reading further into a report only adds pairs at the end |
| DataParsing.NewPairsStep | src/main/java/krum/weaponm/database/DataParser.java:264-268 | one more warp adds its pair exactly when the sector lacked it |
| DataParsing.NewReportDiffers | src/main/java/krum/weaponm/database/DataParser.java:271-272 | a report that records a pair differs from the sector's warps, so replacing them is a real change |
| DataParsing.GrowsTrans | src/main/java/krum/weaponm/database/DataParser.java:286 | warp lists that only grew twice only grew |
| DataParsing.GrowsByRow | src/main/java/krum/weaponm/database/DataParser.java:286 | lengthening one sector's warp list only grows the lists |
| DataParsing.Steps | src/main/java/krum/weaponm/database/DataParser.java:281-284 | the hops of a course pair each sector with the next one |
| DataParsing.CoveredStep | src/main/java/krum/weaponm/database/DataParser.java:281-291 | a hop extends the part of the course whose warps are listed or recorded |
| DataParsing.HopAccounted | src/main/java/krum/weaponm/database/DataParser.java:285-290 | a hop either was listed or is recorded, and only new warps are recorded |
| DataParsing.FreshStep | src/main/java/krum/weaponm/database/DataParser.java:285-289 | a hop the sector did not list before the course is a fresh record |
| DataParsing.WarpCost | src/main/java/krum/weaponm/database/DataParser.java:599-618 | a blind warp costs one turn, any other move the ship type's turns per warp, and nothing while that is unknown |
| DataParsing.CimLevels | src/main/java/krum/weaponm/database/DataParser.java:204-207 | a product's level is its reported quantity, negated under a '-' column |
| DataParsing.CimPercents | src/main/java/krum/weaponm/database/DataParser.java:240-243 | the percentages are the numbers after each quantity |
| DataParsing.CimLevelsSign | src/main/java/krum/weaponm/database/DataParser.java:204-207 | a positive quantity is stored negative exactly for a product the class inferred from the columns buys, and positive exactly for one it sells |
| DataParsing.Reported | src/main/java/krum/weaponm/database/DataParser.java:237-247 | after a line the port is AVAILABLE, its status date changes only when its status did, and an UNKNOWN class is inferred from the columns |
| DataParsing.SkipRange | src/main/java/krum/weaponm/database/DataParser.java:212-225 | skipping keeps one state per sector |
| DataParsing.SkipRangeStep | src/main/java/krum/weaponm/database/DataParser.java:220-225 | the blocking loop skips one more sector at a time |
| DataParsing.SkipRangeEmpty | src/main/java/krum/weaponm/database/DataParser.java:212 | a loop with no sectors blocks nothing |
| DataParsing.SkipRangeBeyond | src/main/java/krum/weaponm/database/DataParser.java:213 | sectors past the map are not there to block |
| DataParsing.SkipRangeIdempotent | src/main/java/krum/weaponm/database/DataParser.java:214-215 | blocking again, however much later, keeps the status and the date a port was first blocked |
| DataParsing.SkipRangeJoin | src/main/java/krum/weaponm/database/DataParser.java:212-225 | blocking two adjacent ranges is blocking their union |
| DataParsing.ContinuedReportSkips | src/main/java/krum/weaponm/database/DataParser.java:219-227 | lines that continue a report block exactly the sectors between the previous line and the last that are not listed |
| DataParsing.ReportBlocksUnlisted | src/main/java/krum/weaponm/database/DataParser.java:210-227 | over a whole report every sector before its last line that is not listed is blocked, and no listed one |
| DataParsing.DataParser.constructor | src/main/java/krum/weaponm/database/DataParser.java:39-68 | no stats, no prompt, no displayed sector, the CIM report mark at Integer.MAX_VALUE, no warp buffer and no move under way |
| DataParsing.DataParser.Reset | src/main/java/krum/weaponm/database/DataParser.java:86-93 | the stats read so far, the prompt and the displayed sector are forgotten |
| DataParsing.DataParser.OnCommandPrompt | src/main/java/krum/weaponm/database/DataParser.java:328-342 | an index error for an unknown sector; otherwise you are in the sector, the move is notified only when it is one, and COMMAND_PROMPT fires with the time |
| DataParsing.DataParser.OnComputerPrompt | src/main/java/krum/weaponm/database/DataParser.java:347-365 | the same for the computer prompt, which becomes the citadel computer prompt after the citadel |
| DataParsing.DataParser.OnMajorPrompt | src/main/java/krum/weaponm/database/DataParser.java:368-386 | the prompt is recorded as current and its event fires |
| DataParsing.DataParser.OnLeavingMajorPrompt | src/main/java/krum/weaponm/database/DataParser.java:389-391 | no major prompt is current |
| DataParsing.DataParser.GetCurrentPrompt | src/main/java/krum/weaponm/database/DataParser.java:393-395 | the current major prompt |
| DataParsing.DataParser.OnWarpTarget | src/main/java/krum/weaponm/database/DataParser.java:1406-1411 | a warp to the sector is under way |
| DataParsing.DataParser.OnMkeyWarpTarget | src/main/java/krum/weaponm/database/DataParser.java:1415-1422 | the typed target with its backspaces applied: nothing for empty input, otherwise a warp to the number it parses to, a NumberFormat error otherwise |
| DataParsing.DataParser.OnTransWarpTarget | src/main/java/krum/weaponm/database/DataParser.java:1425-1431 | a blind warp to the sector over the given hops |
| DataParsing.DataParser.OnTransWarpEngaged | src/main/java/krum/weaponm/database/DataParser.java:1434-1436 | the move is a transwarp |
| DataParsing.DataParser.OnCancelWarp | src/main/java/krum/weaponm/database/DataParser.java:1439-1446 | no move is under way |
| DataParsing.DataParser.OnInterdicted | src/main/java/krum/weaponm/database/DataParser.java:1449-1452 | no move is under way and INTERDICTED fires |
| DataParsing.DataParser.OnPlanetTrading | src/main/java/krum/weaponm/database/DataParser.java:440-443 | trading with a planet, with its event |
| DataParsing.DataParser.OnShipTrading | src/main/java/krum/weaponm/database/DataParser.java:446-449 | trading with the ship, with its event |
| DataParsing.DataParser.OnTradeInitPrompt | src/main/java/krum/weaponm/database/DataParser.java:452-472 | a new offer on the lettered product, buying when the prompt ends in 'y', with its event |
| DataParsing.DataParser.OnTradeUnits | src/main/java/krum/weaponm/database/DataParser.java:475-478 | the units traded, with their event |
| DataParsing.DataParser.OnFinalOffer | src/main/java/krum/weaponm/database/DataParser.java:482-485 | the final offer is under way, with its event |
| DataParsing.DataParser.OnTradeAccepted | src/main/java/krum/weaponm/database/DataParser.java:494-509 | ship trading moves the units into or out of the product's hold with a cargo notice, planet trading changes nothing, and an unknown product throws |
| DataParsing.DataParser.OnTurns | src/main/java/krum/weaponm/database/DataParser.java:990-998 | your turns are the reported ones, notified only on change, and nothing else of you changes |
| DataParsing.DataParser.OnCreditsReport | src/main/java/krum/weaponm/database/DataParser.java:1146-1154 | your credits are the reported ones, notified only on change |
| DataParsing.DataParser.OnCredits | src/main/java/krum/weaponm/database/DataParser.java:518-530 | the same, and CREDITS fires every time |
| DataParsing.DataParser.OnXp | src/main/java/krum/weaponm/database/DataParser.java:1331-1338 | your experience is the reported one, notified only on change |
| DataParsing.DataParser.OnAlign | src/main/java/krum/weaponm/database/DataParser.java:1236-1243 | your alignment is the reported one, notified only on change |
| DataParsing.DataParser.OnXpAlign | src/main/java/krum/weaponm/database/DataParser.java:908-925 | experience and then alignment, each notified only on change |
| DataParsing.DataParser.OnHolds | src/main/java/krum/weaponm/database/DataParser.java:1040-1048 | your ship's holds are the reported ones, notified only on change |
| DataParsing.DataParser.OnShields | src/main/java/krum/weaponm/database/DataParser.java:1067-1074 | your ship's shields are the reported ones, notified only on change |
| DataParsing.DataParser.OnFighters | src/main/java/krum/weaponm/database/DataParser.java:1077-1084 | your ship's fighters are the reported ones, notified only on change |
| DataParsing.DataParser.OnCargo | src/main/java/krum/weaponm/database/DataParser.java:1093-1100 | one hold takes the reported quantity and no other, notified only on change |
| DataParsing.DataParser.OnQuickSector | src/main/java/krum/weaponm/database/DataParser.java:1396-1398 | your ship is placed in the sector, or an index error for an unknown one |
| DataParsing.DataParser.OnGameStat | src/main/java/krum/weaponm/database/DataParser.java:158-164 | a well-formed stats line adds its key and value, and a malformed one throws and changes nothing |
| DataParsing.DataParser.OnEndStats | src/main/java/krum/weaponm/database/DataParser.java:167-186 | a different start day is a rebang that changes nothing; otherwise the stats are merged, the warp buffer sized for the longest course and the database initialised the first time |
| DataParsing.DataParser.AllocateWarps | src/main/java/krum/weaponm/database/DataParser.java:170 | a fresh, empty warp buffer of the given length |
| DataParsing.DataParser.UpdateStats | src/main/java/krum/weaponm/database/DataParser.java:169 | the collected stats are merged into the game stats unless the start day differs |
| DataParsing.DataParser.InitializeOnce | src/main/java/krum/weaponm/database/DataParser.java:171-174 | the database is initialised and notified exactly once |
| DataParsing.DataParser.Record | src/main/java/krum/weaponm/database/DataParser.java:265-267 | one pair is appended to the pending ones, or the buffer overflows |
| DataParsing.DataParser.RecordWarp | src/main/java/krum/weaponm/database/DataParser.java:264-268 | a warp the sector lacks is recorded |
| DataParsing.DataParser.RecordNewAt | src/main/java/krum/weaponm/database/DataParser.java:262-269 | one turn of the recording loop records the new pair of the next warp |
| DataParsing.DataParser.RecordNew | src/main/java/krum/weaponm/database/DataParser.java:261-269 | every reported warp the sector lacks is recorded, in order, or the buffer overflows |
| DataParsing.DataParser.ReportWarps | src/main/java/krum/weaponm/database/DataParser.java:271-275 | once anything is pending the sorted report becomes the sector's warps and the pending pairs are notified and forgotten; the warp lists stay mirrored |
| DataParsing.DataParser.OnSectorWarps | src/main/java/krum/weaponm/database/DataParser.java:699-715 | the warps of the displayed sector: new ones recorded, the report installed and notified when any is pending, and a NullPointer with no sector on display |
| DataParsing.DataParser.OnCimSectorInfo | src/main/java/krum/weaponm/database/DataParser.java:251-276 | an index error for an unknown sector; otherwise it is explored and its warps are reported as for the sector display |
| DataParsing.DataParser.ExploreAndReport | src/main/java/krum/weaponm/database/DataParser.java:255-275 | the sector is explored and its warps reported |
| DataParsing.DataParser.Explore | src/main/java/krum/weaponm/database/DataParser.java:256-259 | the sector is explored, with SECTOR_UPDATED the first time |
| DataParsing.DataParser.OnCimCoursePlot | src/main/java/krum/weaponm/database/DataParser.java:279-297 | every hop of the course becomes a warp of its sector, the hops not listed before are recorded, COURSE_PLOT fires and the recorded pairs are notified |
| DataParsing.DataParser.PlotHops | src/main/java/krum/weaponm/database/DataParser.java:281-291 | the hops one by one, stopping at the first that throws, with the lists only growing |
| DataParsing.DataParser.CourseStep | src/main/java/krum/weaponm/database/DataParser.java:282-290 | one hop, from a sector looked up by number |
| DataParsing.DataParser.Hop | src/main/java/krum/weaponm/database/DataParser.java:284-290 | a warp the sector did not list is added and recorded |
| DataParsing.DataParser.Extend | src/main/java/krum/weaponm/database/DataParser.java:286 | adding a warp only grows the lists |
| DataParsing.DataParser.RecordBeside | src/main/java/krum/weaponm/database/DataParser.java:287-289 | recording a pair leaves the warp lists as they are |
| DataParsing.DataParser.Publish | src/main/java/krum/weaponm/database/DataParser.java:272-274 | the sector takes the report as its warps and the pending pairs are notified |
| DataParsing.DataParser.Flush | src/main/java/krum/weaponm/database/DataParser.java:293-296 | the pending pairs are notified and the buffer emptied |
| DataParsing.DataParser.OnSectorHeader | src/main/java/krum/weaponm/database/DataParser.java:584-637 | an index error for an unknown sector; otherwise it is explored and holo-scanned now, a move to it arrives with its location, turn and ore changes and notices, and any move is forgotten |
| DataParsing.DataParser.EndMove | src/main/java/krum/weaponm/database/DataParser.java:591-634 | a move under way ends, arriving when this sector was its target |
| DataParsing.DataParser.Enter | src/main/java/krum/weaponm/database/DataParser.java:586-588 | the sector is explored and holo-scanned now, and the warp lists stay |
| DataParsing.DataParser.Arrive | src/main/java/krum/weaponm/database/DataParser.java:592-626 | your location, then the turns and, after a transwarp, the fuel ore of the move |
| DataParsing.DataParser.MoveYou | src/main/java/krum/weaponm/database/DataParser.java:594-596 | you are in the sector, with the location notice |
| DataParsing.DataParser.ChargeTurns | src/main/java/krum/weaponm/database/DataParser.java:599-618 | the turns the move costs are deducted and notified when known |
| DataParsing.DataParser.BurnOre | src/main/java/krum/weaponm/database/DataParser.java:620-625 | a transwarp burns three fuel ore per hop, notified |
| DataParsing.DataParser.Attach | src/main/java/krum/weaponm/database/DataParser.java:730 | the sector takes the port, which names it |
| DataParsing.DataParser.OnSectorPort | src/main/java/krum/weaponm/database/DataParser.java:718-743 | a NullPointer with no sector on display; otherwise the sector's port, created if missing as Stardock or of the shown class, filed under class 0 or as Stardock, converted to Stardock keeping its readings, and named once |
| DataParsing.DataParser.ClassifyPort | src/main/java/krum/weaponm/database/DataParser.java:721-741 | the port placed, the class 0 and Stardock indexes filed, Stardock converted |
| DataParsing.DataParser.ConvertStardock | src/main/java/krum/weaponm/database/DataParser.java:737-740 | the port becomes a Stardock with the same class, readings and report date and no name |
| DataParsing.DataParser.FileZero | src/main/java/krum/weaponm/database/DataParser.java:733 | filing a class 0 sector leaves the sectors and ports as they are |
| DataParsing.DataParser.FileStardock | src/main/java/krum/weaponm/database/DataParser.java:736 | recording the Stardock sector leaves the sectors and ports as they are |
| DataParsing.DataParser.NamePort | src/main/java/krum/weaponm/database/DataParser.java:742 | the port is named once, and nothing else changes |
| DataParsing.DataParser.PlacePort | src/main/java/krum/weaponm/database/DataParser.java:721-731 | the sector's port, a new one of the shown class or Stardock when it had none |
| DataParsing.DataParser.SkipSector | src/main/java/krum/weaponm/database/DataParser.java:213-216 | a port of a class other than 0 is blocked |
| DataParsing.DataParser.SkipPorts | src/main/java/krum/weaponm/database/DataParser.java:212-217 | the ports of the range are blocked, stopping with an index error at the first sector past the map |
| DataParsing.DataParser.SkipAt | src/main/java/krum/weaponm/database/DataParser.java:213-216 | one more sector of the range is blocked |
| DataParsing.DataParser.OnCimPortInfo | src/main/java/krum/weaponm/database/DataParser.java:199-248 | an index error for a short line; otherwise the skipped ports are blocked, the report date stamped for a new report, and the line's sector explored with its port filled with the readings |
| DataParsing.DataParser.CimLine | src/main/java/krum/weaponm/database/DataParser.java:208-248 | the line's sector becomes the last reported exactly when the blocking stayed inside the map, and its port is filled |
| DataParsing.DataParser.BlockAndMark | src/main/java/krum/weaponm/database/DataParser.java:210-227 | the blocking loops, then the last reported sector when they stayed inside the map |
| DataParsing.DataParser.ReportedUpTo | src/main/java/krum/weaponm/database/DataParser.java:227 | moving the mark changes nothing in the database |
| DataParsing.DataParser.ReportSector | src/main/java/krum/weaponm/database/DataParser.java:229-247 | an index error for an unknown sector; otherwise its port is filled |
| DataParsing.DataParser.BlockSkipped | src/main/java/krum/weaponm/database/DataParser.java:210-226 | a new report stamps the date and blocks from sector 1, a continued one from after the last reported sector |
| DataParsing.DataParser.StampCimReport | src/main/java/krum/weaponm/database/DataParser.java:211 | stamping the report date leaves the sectors and ports as they are |
| DataParsing.DataParser.ReportPort | src/main/java/krum/weaponm/database/DataParser.java:229-247 | the sector is explored, given a port if it has none, and the port filled |
| DataParsing.DataParser.NewPort | src/main/java/krum/weaponm/database/DataParser.java:232-236 | a sector without a port gets a blank one, with SECTOR_UPDATED |
| DataParsing.DataParser.PlaceBlank | src/main/java/krum/weaponm/database/DataParser.java:233-234 | a new port with nothing known |
| DataParsing.DataParser.FillPort | src/main/java/krum/weaponm/database/DataParser.java:237-247 | only that port's state changes |
| DataParsing.DataParser.MarkExplored | src/main/java/krum/weaponm/database/DataParser.java:230 | the sector is explored, and nothing else changes |
| DataParsing.DataParser.FillReport | src/main/java/krum/weaponm/database/DataParser.java:237-247 | the port takes the inferred class, the readings dated now, the capacity estimates with their upgrade notices, and AVAILABLE |
| DataParsing.DataParser.CalculateCapacities | src/main/java/krum/weaponm/database/DataParser.java:859-891 | each capacity becomes its estimate and an upgrade fires for every known capacity that grew |
| DataParsing.DataParser.Estimate | src/main/java/krum/weaponm/database/DataParser.java:865-886 | one product's estimate: taken only when it differs from the known capacity, with the growth of its magnitude |
| Parameters.Clamp | src/main/java/krum/weaponm/script/Parameter.java:262-271 | a value inside the range is kept, one above becomes the maximum and one below the minimum, so the result lies in the range |
| Parameters.ClampIdempotent | src/main/java/krum/weaponm/script/Parameter.java:262-271 | clamping a value that is already clamped into the same range gives it back unchanged |
| Parameters.IndexOf | src/main/java/krum/weaponm/script/Parameter.java:357-359 | -1 exactly when the value is no option, otherwise the first position holding it |
| Parameters.IndexOfDistinct | src/main/java/krum/weaponm/script/Parameter.java:357-359 | among distinct options, the index of the i-th option is i |
| Parameters.WithOption | src/main/java/krum/weaponm/script/Parameter.java:399-402 | the options after adding hold the new one and every old one, and nothing else |
| Parameters.WithOptionDistinct | src/main/java/krum/weaponm/script/Parameter.java:399-402 | adding an option never makes a duplicate |
| Parameters.Parameter.OfInteger | src/main/java/krum/weaponm/script/Parameter.java:36-43 | an integer parameter holding the value, bounded by the whole int range |
| Parameters.Parameter.OfBoolean | src/main/java/krum/weaponm/script/Parameter.java:66-71 | a boolean parameter holding the value |
| Parameters.Parameter.OfString | src/main/java/krum/weaponm/script/Parameter.java:79-84 | a string parameter holding the value |
| Parameters.Parameter.OfOptions | src/main/java/krum/weaponm/script/Parameter.java:117-123 | an option parameter over the options, with the selected one |
| Parameters.Parameter.FromArray | src/main/java/krum/weaponm/script/Parameter.java:93-108 | an index error when the selected index is outside the array; otherwise an option parameter over a fixed-size list with that option selected |
| Parameters.Parameter.FromList | src/main/java/krum/weaponm/script/Parameter.java:117-123 | IllegalArgument exactly when the selected value is not an option; otherwise that value is selected |
| Parameters.Parameter.FromListFirst | src/main/java/krum/weaponm/script/Parameter.java:131-133 | an index error for an empty list; otherwise the first option is selected |
| Parameters.Parameter.SetMinValue | src/main/java/krum/weaponm/script/Parameter.java:146-154 | UnsupportedOperation for a non-integer; otherwise m is the minimum, a smaller maximum and a smaller value are raised to it |
| Parameters.Parameter.SetMaxValue | src/main/java/krum/weaponm/script/Parameter.java:166-174 | UnsupportedOperation for a non-integer; otherwise m is the maximum, a larger minimum and a larger value are lowered to it |
| Parameters.Parameter.GetMinValue | src/main/java/krum/weaponm/script/Parameter.java:219-221 | an integer parameter's minimum, never above its value |
| Parameters.Parameter.GetMaxValue | src/main/java/krum/weaponm/script/Parameter.java:226-228 | an integer parameter's maximum, never below its value |
| Parameters.Parameter.GetInteger | src/main/java/krum/weaponm/script/Parameter.java:249-252 | UnsupportedOperation for another kind; otherwise the value, which lies in the parameter's range |
| Parameters.Parameter.SetInteger | src/main/java/krum/weaponm/script/Parameter.java:262-271 | UnsupportedOperation for another kind; otherwise the value clamped to the range, so setting the value the parameter already holds changes nothing |
| Parameters.Parameter.GetBoolean | src/main/java/krum/weaponm/script/Parameter.java:307-310 | UnsupportedOperation for another kind, otherwise the value |
| Parameters.Parameter.SetBoolean | src/main/java/krum/weaponm/script/Parameter.java:317-320 | UnsupportedOperation for another kind, otherwise the new value |
| Parameters.Parameter.GetString | src/main/java/krum/weaponm/script/Parameter.java:327-330 | UnsupportedOperation for another kind, otherwise the value |
| Parameters.Parameter.SetString | src/main/java/krum/weaponm/script/Parameter.java:337-340 | UnsupportedOperation for another kind, otherwise the new value |
| Parameters.Parameter.GetOption | src/main/java/krum/weaponm/script/Parameter.java:347-350 | UnsupportedOperation for another kind; otherwise the selection, which is always one of the options |
| Parameters.Parameter.GetOptionIndex | src/main/java/krum/weaponm/script/Parameter.java:357-359 | a NullPointer for a parameter without options; otherwise the first position of the selection |
| Parameters.Parameter.GetOptions | src/main/java/krum/weaponm/script/Parameter.java:366-369 | UnsupportedOperation for another kind, otherwise the options |
| Parameters.Parameter.SetOptionIndex | src/main/java/krum/weaponm/script/Parameter.java:376-379 | UnsupportedOperation for another kind, an index error outside the list, otherwise that option is selected |
| Parameters.Parameter.SetOption | src/main/java/krum/weaponm/script/Parameter.java:387-391 | UnsupportedOperation for another kind, IllegalArgument for a value that is no option, otherwise it is selected |
| Parameters.Parameter.AddOption | src/main/java/krum/weaponm/script/Parameter.java:399-402 | UnsupportedOperation for another kind or for a new option on a fixed-size list; otherwise the option is added unless present |
| Scripts.LastIndexOf | src/main/java/krum/weaponm/script/Script.java:86 | -1 exactly when the character is absent, otherwise its last position |
| Scripts.ScriptName | src/main/java/krum/weaponm/script/Script.java:84-87 | the part of the class name after its last '.', the whole name without one |
| Scripts.DotsToBars | src/main/java/krum/weaponm/script/Script.java:104 | every '.' becomes '|' and the length stays |
| Scripts.BarsToDots | src/main/java/krum/weaponm/script/Script.java:104 | every '|' becomes '.' and the length stays |
| Scripts.BarsToDotsInverse | src/main/java/krum/weaponm/script/Script.java:104 | a package name without '|' comes back from its menu path |
| Scripts.MenuPath | src/main/java/krum/weaponm/script/Script.java:102-105 | an index error for a class in no package; otherwise a path without '.' that, with the script name, spans the class name |
| Scripts.MenuPathAndName | src/main/java/krum/weaponm/script/Script.java:102-105 | the menu path with its bars turned back into dots, a '.' and the script name give back the class name |
| Scripts.Registered | src/main/java/krum/weaponm/script/ScriptManager.java:72-77 | after registration the script listens for every given event, every other listener and event stays |
| Scripts.RegisteredStep | src/main/java/krum/weaponm/script/ScriptManager.java:73-76 | registering events one at a time |
| Scripts.Unregistered | src/main/java/krum/weaponm/script/ScriptManager.java:88-96 | after removal the script listens for none of the given events, the events left with no listener are dropped, and everything else stays |
| Scripts.UnregisteredStep | src/main/java/krum/weaponm/script/ScriptManager.java:89-95 | removing events one at a time |
| Scripts.UnloadStrandsTasks | src/main/java/krum/weaponm/script/ScriptManager.java:288-292 | as written an unloaded instance's timer tasks stay on record under a script that is no longer loaded |
| Scripts.UnloadDropsTasks | src/main/java/krum/weaponm/script/ScriptManager.java:284-299 | dropping the instance's own tasks with it keeps every recorded task's script loaded |
| Scripts.Script.constructor | src/main/java/krum/weaponm/script/Script.java:72-74 | a script of the class, attached to its manager, with no parameters and an empty burst, not initialized |
| Scripts.Script.RegisterParameter | src/main/java/krum/weaponm/script/Script.java:147-150 | a null parameter throws; otherwise it is added once |
| Scripts.Script.SetInitialized | src/main/java/krum/weaponm/script/Script.java:548-550 | the script is initialized |
| Scripts.Script.AppendBurst | src/main/java/krum/weaponm/script/Script.java:497-499 | the text is added at the end of the burst |
| Scripts.Script.ClearBurst | src/main/java/krum/weaponm/script/Script.java:504-506 | the burst is empty |
| Scripts.Script.SendBurst | src/main/java/krum/weaponm/script/Script.java:513-516 | the burst is sent and cleared, or the network lock refuses it and the burst is kept |
| Scripts.Script.CreateSectorParameter | src/main/java/krum/weaponm/script/Script.java:464-470 | a ScriptFailure before the database is initialized; otherwise an integer parameter bounded by 1 and the number of sectors |
| Scripts.ScriptManager.constructor | src/main/java/krum/weaponm/script/ScriptManager.java:35-68 | nothing loaded, no listeners, no lock and nothing sent |
| Scripts.ScriptManager.LoadScript | src/main/java/krum/weaponm/script/ScriptManager.java:221-273 | loadScript(Class, Script): a caller that is not loaded is ignored, an unrecognized class throws, a loaded class records the requirement, otherwise the instance is filed as loaded with its requirement |
| Scripts.ScriptManager.LoadScriptByName | src/main/java/krum/weaponm/script/ScriptManager.java:205-211 | loadScript(String, Script): an unknown class name throws before the caller is checked; a known one behaves as loadScript(Class, Script) |
| Scripts.ScriptManager.AddEventListener | src/main/java/krum/weaponm/script/ScriptManager.java:70-85 | ignored for a script not loaded; an initialized one listens at once, another one has the events kept pending |
| Scripts.ScriptManager.RemoveEventListener | src/main/java/krum/weaponm/script/ScriptManager.java:87-103 | an initialized script stops listening for the events, events left without listeners are dropped; otherwise the events leave its pending set |
| Scripts.ScriptManager.Drop | src/main/java/krum/weaponm/script/ScriptManager.java:109-111 | one event loses the listener and is dropped once it has none |
| Scripts.ScriptManager.RemoveAllEvents | src/main/java/krum/weaponm/script/ScriptManager.java:105-115 | an initialized script stops listening for every event; another one loses its pending registrations |
| Scripts.ScriptManager.ActivateEvents | src/main/java/krum/weaponm/script/ScriptManager.java:117-126 | an initialized script's pending events are registered and its pending entry dropped |
| Scripts.ScriptManager.ToSeq | src/main/java/krum/weaponm/script/ScriptManager.java:121-122 | the set's elements, in some order |
| Scripts.ScriptManager.WriteToNetwork | src/main/java/krum/weaponm/script/ScriptManager.java:182-188 | NetworkLocked while the network is locked against a loaded sender; the text is sent only for a loaded sender that may write |
| Scripts.ScriptManager.LockNetwork | src/main/java/krum/weaponm/script/ScriptManager.java:190-196 | NetworkLocked while another script holds the lock; otherwise a loaded script takes it |
| Scripts.ScriptManager.UnlockNetwork | src/main/java/krum/weaponm/script/ScriptManager.java:198-203 | NetworkLocked while another script holds the lock; otherwise it is released |
| Scripts.ScriptManager.ScheduleTask | src/main/java/krum/weaponm/script/ScriptManager.java:414-421 | a loaded script's task is filed under the script, and others are ignored |
| Scripts.ScriptManager.UnloadScriptAsWritten | src/main/java/krum/weaponm/script/ScriptManager.java:284-335 | as written the instance leaves the loaded map, its listeners and the lock, but its timer tasks stay on record |
| Scripts.ScriptManager.UnloadScript | src/main/java/krum/weaponm/script/ScriptManager.java:284-335 | a class not loaded is ignored; otherwise the instance's timer tasks are cancelled and it leaves the loaded map, its listeners and the lock |
| Scripts.ScriptManager.CancelRequirement | src/main/java/krum/weaponm/script/ScriptManager.java:341-348 | the caller no longer requires the class, which is unloaded once nothing requires it |
| Emulation.Slots | src/main/java/krum/weaponm/emulation/EmulationParser.java:273-284 | the parameters the first pass counts: blanks and digit runs, in order |
| Emulation.SlotValue | src/main/java/krum/weaponm/emulation/EmulationParser.java:294-299 | a blank reads as 1, a number as its decimal value, and a run that reaches the end stays 0 |
| Emulation.ParamValues | src/main/java/krum/weaponm/emulation/EmulationParser.java:290-307 | NumberFormat exactly when some number does not fit an int; otherwise one value per counted parameter |
| Emulation.DigitRun | src/main/java/krum/weaponm/emulation/EmulationParser.java:291-296 | a run of digits ended by another character is one parameter, and that character goes with it |
| Emulation.DigitRunOpen | src/main/java/krum/weaponm/emulation/EmulationParser.java:291-296 | an open run continues to the first non-digit |
| Emulation.SkipOthers | src/main/java/krum/weaponm/emulation/EmulationParser.java:298-305 | characters that are neither digits nor ';' are skipped |
| Emulation.ExtractParams | src/main/java/krum/weaponm/emulation/EmulationParser.java:269-308 | the counting pass and the parsing pass together give the parameters of the sequence |
| Emulation.ParseParams | src/main/java/krum/weaponm/emulation/EmulationParser.java:286-307 | the parsing pass fills exactly the counted slots with the parameters |
| Emulation.Sgr | src/main/java/krum/weaponm/emulation/EmulationParser.java:79-121 | 0 resets, 1 and 2 set and clear bright, 4, 5 and 7 set underline, blink and inverse, 30-37 and 40-47 pick the colors, and anything else changes nothing |
| Emulation.SgrAllAppend | src/main/java/krum/weaponm/emulation/EmulationParser.java:79-122 | applying two lists of parameters is applying one after the other |
| Emulation.ResetForgets | src/main/java/krum/weaponm/emulation/EmulationParser.java:81-83 | after a 0 parameter the attributes do not depend on what came before |
| Emulation.ColorsInRange | src/main/java/krum/weaponm/emulation/EmulationParser.java:99-118 | the colors stay among the eight when they start there |
| Emulation.NextTabStop | src/main/java/krum/weaponm/emulation/EmulationParser.java:211-214 | the next multiple of 4 after the column |
| Emulation.EmulationParser.constructor | src/main/java/krum/weaponm/emulation/EmulationParser.java:38-48 | default attributes and the cursor, its saved position and both marks at the bottom row |
| Emulation.EmulationParser.Reset | src/main/java/krum/weaponm/emulation/EmulationParser.java:50-57 | the cursor, its saved position and both marks back at the bottom row |
| Emulation.EmulationParser.LiteralText | src/main/java/krum/weaponm/emulation/EmulationParser.java:60-74 | the cursor advances by the text's length, to the next row when it reaches the last column exactly |
| Emulation.EmulationParser.SetAttributes | src/main/java/krum/weaponm/emulation/EmulationParser.java:77-123 | a NumberFormat error leaves the attributes; otherwise each parameter is applied in order |
| Emulation.EmulationParser.CursorUp | src/main/java/krum/weaponm/emulation/EmulationParser.java:126-131 | up by the distance, never above the page mark |
| Emulation.EmulationParser.CursorDown | src/main/java/krum/weaponm/emulation/EmulationParser.java:134-142 | down by the distance, with the furthest line following |
| Emulation.EmulationParser.CursorLeft | src/main/java/krum/weaponm/emulation/EmulationParser.java:145-150 | left by the distance, stopping at column 0 |
| Emulation.EmulationParser.CursorRight | src/main/java/krum/weaponm/emulation/EmulationParser.java:153-158 | right by the distance, stopping at the last column |
| Emulation.EmulationParser.CursorPosition | src/main/java/krum/weaponm/emulation/EmulationParser.java:161-182 | row and column counted from 1 and rows from the page mark, clamped into the columns and below the page mark |
| Emulation.EmulationParser.SaveCursor | src/main/java/krum/weaponm/emulation/EmulationParser.java:185-187 | the saved position is the cursor |
| Emulation.EmulationParser.RestoreCursor | src/main/java/krum/weaponm/emulation/EmulationParser.java:190-194 | the saved position comes back unless it lies above the page mark |
| Emulation.EmulationParser.CarriageReturn | src/main/java/krum/weaponm/emulation/EmulationParser.java:197-199 | the cursor goes to column 0 |
| Emulation.EmulationParser.LineFeed | src/main/java/krum/weaponm/emulation/EmulationParser.java:202-208 | one row down, with the furthest line following |
| Emulation.EmulationParser.Tab | src/main/java/krum/weaponm/emulation/EmulationParser.java:211-214 | to the next tab stop, stopping at the last column |
| Emulation.EmulationParser.Backspace | src/main/java/krum/weaponm/emulation/EmulationParser.java:217-220 | one column left, stopping at column 0 |
| Emulation.EmulationParser.ClearLine | src/main/java/krum/weaponm/emulation/EmulationParser.java:229-239 | a cursor past the last column makes a negative array size |
| Emulation.EmulationParser.ClearScreen | src/main/java/krum/weaponm/emulation/EmulationParser.java:242-247 | a new page starts on a new row below everything, and the cursor goes there |
| Ansi.IsValidAttribute | src/main/java/krum/weaponm/script/ANSI.java:66-76 | exactly the parameters the emulation parser's SGR handler acts on |
| Ansi.SetText | src/main/java/krum/weaponm/script/ANSI.java:46-64 | IllegalArgument exactly when some attribute is invalid; otherwise ESC '[', the attributes separated by ';' (0 for none) and 'm' |
| Ansi.SetTextReset | src/main/java/krum/weaponm/script/ANSI.java:81-83 | the reset text is the SGR sequence of no attributes |
| Ansi.MoveCursor | src/main/java/krum/weaponm/script/ANSI.java:91-95 | IllegalArgument exactly for a negative distance or a direction outside A to D; otherwise ESC '[', the distance and the direction |
| Ansi.Texts | src/main/java/krum/weaponm/script/ANSI.java:56-60 | one digit run per attribute written |
| Ansi.BeginIrrelevant | src/main/java/krum/weaponm/emulation/EmulationParser.java:287-305 | where no number is open, where the last one began does not matter to the parse |
| Ansi.JoinShape | src/main/java/krum/weaponm/script/ANSI.java:56-60 | the joined text ends with the last number, after the others and a ';' |
| Ansi.JoinPieces | src/main/java/krum/weaponm/script/ANSI.java:56-60 | where the joined numbers lie in a text holding them |
| Ansi.JoinedSlots | src/main/java/krum/weaponm/script/ANSI.java:56-62 | a ';'-separated list of numbers ended by a letter reads as one parameter per number |
| Ansi.TextsValues | src/main/java/krum/weaponm/emulation/EmulationParser.java:294 | numbers that fit an int parse back to themselves |
| Ansi.SequenceRoundTrip | src/main/java/krum/weaponm/script/ANSI.java:50-63 | the emulation parser reads back a list of numbers written between ESC '[' and a final letter |
| Ansi.ReadSequence | src/main/java/krum/weaponm/script/ANSI.java:50-63 | a text that is such a sequence reads back as its numbers |
| Ansi.SetTextRoundTrip | src/main/java/krum/weaponm/script/ANSI.java:46-64 | the emulation parser reads setText's attributes back, or a single 0 for none |
| Ansi.MoveCursorRoundTrip | src/main/java/krum/weaponm/script/ANSI.java:91-95 | the emulation parser reads moveCursor's distance back, and the cursor handlers move by it |
| Ansi.SetTextResetDefaults | src/main/java/krum/weaponm/script/ANSI.java:81-83 | the reset text restores the default attributes whatever came before |
| AnsiConversion.Reference | src/main/java/krum/weaponm/network/AnsiConverter.java:21-23 | "&#", the character's code in decimal, ";" |
| AnsiConversion.Escape | src/main/java/krum/weaponm/network/AnsiConverter.java:16-36 | pattern metacharacters get a backslash, CR and LF their reference followed by themselves, '<' an escaped entity, printable ASCII stays, anything else its reference |
| AnsiConversion.ConvertedAppend | src/main/java/krum/weaponm/network/AnsiConverter.java:14-37 | the conversion works character by character, so it distributes over concatenation |
| AnsiConversion.ConvertedSnoc | src/main/java/krum/weaponm/network/AnsiConverter.java:14-37 | one more character adds its escape at the end |
| AnsiConversion.EscapePrintable | src/main/java/krum/weaponm/network/AnsiConverter.java:16-36 | every escape is printable ASCII apart from a kept CR or LF |
| AnsiConversion.ConvertedPrintable | src/main/java/krum/weaponm/network/AnsiConverter.java:12-39 | the whole pattern text is printable ASCII apart from kept CRs and LFs |
| AnsiConversion.ConvertedLength | src/main/java/krum/weaponm/network/AnsiConverter.java:12-39 | no character is dropped: the output is at least as long as the input |
| AnsiConversion.ConvertedCollision | src/main/java/krum/weaponm/network/AnsiConverter.java:26-31 | the conversion is not reversible: '<' and the text of its escape convert alike |
| AnsiConversion.Converter.constructor | src/main/java/krum/weaponm/network/AnsiConverter.java:10 | the shared buffer starts empty |
| AnsiConversion.Converter.Convert | src/main/java/krum/weaponm/network/AnsiConverter.java:12-39 | an empty text when the int sum off + len is not above off (len <= 0, or the sum wrapped around); the converted characters off to off + len - 1 when they lie in the text; otherwise IndexOutOfBounds, with the escapes of the characters before the first bad position left in the shared buffer |
| JavaInt.AddInt32 | src/main/java/krum/weaponm/network/AnsiConverter.java:14 | Java's int addition: an int equal to the sum modulo 2^32, and the sum itself when that fits |
| AnsiConversion.Converter.Append | src/main/java/krum/weaponm/network/AnsiConverter.java:16-36 | one character's escape is added to the buffer |
| Formatting.Clamp | src/main/java/krum/weaponm/gui/IntegerFormatter.java:22-23 | a value below the minimum becomes the minimum and one above the maximum becomes the maximum |
| Formatting.StringToValue | src/main/java/krum/weaponm/gui/IntegerFormatter.java:19-29 | text that does not parse keeps the field's value; otherwise the number clamped into the bounds |
| Formatting.ValueToString | src/main/java/krum/weaponm/gui/IntegerFormatter.java:32-35 | "0" for no value, otherwise text that parses back to the value |
| Formatting.ReadsBack | src/main/java/krum/weaponm/gui/IntegerFormatter.java:34 | an int's decimal text parses back to it |
| Formatting.RoundTrip | src/main/java/krum/weaponm/gui/IntegerFormatter.java:19-35 | a value within the bounds survives being shown and read back |
| Formatting.ReadIdempotent | src/main/java/krum/weaponm/gui/IntegerFormatter.java:19-35 | showing a read value and reading it again changes nothing |
| Formatting.EmptyFieldReadsZero | src/main/java/krum/weaponm/gui/IntegerFormatter.java:33 | an empty field reads back as 0 clamped into the bounds |
| Login.Check | src/main/java/krum/weaponm/gui/LoginOptionsDialog.java:390-446 | a form is accepted exactly when the host is given and known, the port parses within 1 to 65535, the game letter is valid, the name and password match their patterns, and auto-login has a name; the first failing check gives its field and message |
| Login.GameChoices | src/main/java/krum/weaponm/gui/LoginOptionsDialog.java:96-103 | the 25 letters A to Z without Q, in order |
| Login.LoginOptions.constructor | src/main/java/krum/weaponm/database/LoginOptions.java:11-16 | no host, port 23, game A, no name, no password, no auto-login |
| Login.LoginOptions.SaveFields | src/main/java/krum/weaponm/gui/LoginOptionsDialog.java:390-454 | a rejected form leaves the options as they were; an accepted one writes all six settings |
| Login.ResaveAccepted | src/main/java/krum/weaponm/gui/LoginOptionsDialog.java:390-454 | a form made from saved settings passes the checks again with the same port |

## Left out

- User interface, dialogs, logging and the map window: the model has no screen. Where a check in `LoginOptionsDialog.saveFields` moves the focus, the model returns the field that failed instead.
- Network I/O: the writes at DataParser.java:120, 147 and 541, and the sockets behind them, are left out. A script's network writes become values that the script manager lets through or refuses.
- Persistence: saving and loading are left out. Only `restoreTransients`, which rebuilds the inbound warps, is modelled.
- Dates and clocks: each `new Date()` stamp is a parameter or a ghost value. `parseShortDate` and `parseLongDate` are left out, because they depend on `SimpleDateFormat`.
- Floating point: `psyProbeReport` (DataParser.java:533-536 and 1087-1090), the float constructor and float accessors of `Parameter` (Parameter.java:51-58, 186-214 and 278-300), ship odds and planet interest rates are left out.
- Concurrency: locking, the Swing thread hand-off and timers are left out. Timer tasks are kept only as a map from script to its tasks.
- Java `int` overflow: values are unbounded integers. The source's own clamps, such as `Integer.MIN_VALUE` and `Integer.MAX_VALUE` for parameters, are written out.
- DataParsing: handlers take the values that the lexer and `ParserUtils` would extract, not the raw matched text. The text patterns belong to the lexer, and the lexer is not part of this model.
- DataParsing: handlers that read counts require them to be non-negative, as the lexer only matches digit runs. The CIM handlers require `lastCimPortSector >= 0` and keep it. It starts at `Integer.MAX_VALUE`, and only sector numbers are stored in it.
- DataParsing: when a handler fails part way (for example, an index outside the universe), the model states only the error. It does not state the partially updated state that the Java code leaves behind.
- DataParsing: handlers require the database's warp mirror to hold (`Holds`), because every path that builds the database keeps it.
- DataParsing: these handlers only fire events or store values that nothing else reads, and are left out: `nebulaName` (640-643), the `portStatus` handlers (646-658), the `sectorFighters` handlers (661-696), `portReport` (825-857), `infoTraderName` (897-905), `infoTimesBlownUp` (928-931), the corporation and ship info handlers, and `noRoutePrompt` (1455-1458).
- Databases: notes (Database.java:195-220), planet types, bosses, aliens, rank name resolution (Database.java:334-365 and 449-481) and the last log date are left out. Rank resolution depends on an automaton library that is not part of this model.
- Databases.Database.PlotCourse: the "no course" case is proved only when avoided sectors are ignored. With avoids, the model states only that a returned course is a real path.
- Databases: `getZeroSectors`, `getShipTypes` and the other collection getters return copies in an order that Java's `HashSet` and `Set.toArray` choose. The model states their contents, not their order.
- GameStatistics: the many named getters of `GameStats` are modelled as the four patterns they follow (integer, unit-suffixed, percent and cost), with the stat key as a parameter.
- Parameters: an option parameter's option list is a value in the model, so the aliasing between the list that a caller passes and the one stored is not modelled.
- Scripts: the unload cascade through dependent scripts (ScriptManager.java:317-332), `unloadAll` (359-401) and `reset` (406-412) are left out. Only the unload bookkeeping for one script is modelled.
- Scripts: `loadScript` with its reflection and initialization, `findScriptClasses`, and `fireEvent` with its shuffled dispatch order (ScriptManager.java:128-173) are left out.
- Emulation: the screen buffer and the packed character attributes are abstract. The model tracks the cursor, the page mark, the last line and the SGR colours and flags. It does not model the writes to the buffer, the bell (223-226), `sectorNumber` (250-252) or `unknownEscape` (255-257).
- Emulation: the terminal is assumed to have at least one column. Cursor coordinates are unbounded integers and do not wrap.
- ParserUtils: `Character.isDigit` and `Character.isLetter` (`JavaInt.IsDigit`, `JavaInt.IsLetter`) are modelled for ASCII only, so a non-ASCII digit or letter does not start a number or end an escape sequence in the model.
- Emulation: `Character.isDigit` in `extractParams` (EmulationParser.java:291-296) is modelled for ASCII digits only.
- AnsiConversion: the model works on Dafny characters, not UTF-16 code units. A character outside the Basic Multilingual Plane becomes two `&#…;` references in Java (AnsiConverter.java:21-23) and one in the model.
- OnCimPortInfo: for a line with fewer than 7 numbers the model states only the IndexOutOfBounds error and no change. Unless an earlier read already fails (no number at all, or a '-' indicator whose level is missing, DataParser.java:203-208), Java has by then blocked the skipped ports, moved `lastCimPortSector`, marked the sector explored, created its port and set its class (DataParser.java:210-237) before the read of a missing number throws at line 241; that partial update is not modelled.
- BreadthFirstSearches.Explore and Databases.Database.PlotCourse: the search requires every stored warp to lie inside the universe (`ValidSectors`), and `PlotCourse` returns IndexOutOfBounds (after its origin checks) whenever any stored warp lies outside it. Java throws only when the search actually reaches such a warp (BreadthFirstSearch.java:71-73) and otherwise returns the course; a search that never reaches the bad warp is not modelled.
- Records.Trader.SetName and Records.Trader.SetSector: they take a non-null name and sector number. Java's `setName(null)` and `setSector(null)` store null; the model's `name` is an `Option`, but these setters do not take `None`.
- Login: the host-name lookup is a parameter of `SaveFields`, which stands in for the DNS answer. Only the six options that `saveFields` writes are modelled.

## Findings

| source | as written | input that shows it | evidently intended | confidence | as-written member | corrected member |
|---|---|---|---|---|---|---|
| src/main/java/krum/weaponm/script/BreadthFirstSearch.java:69 | every dequeued node expands the origin's warps, not its own | chain 1→2→3, search from 1 for sector 3: the target is never found | expand the warps of the node being dequeued | not executed | BreadthFirstSearches.ChainAsWrittenExample | BreadthFirstSearches.ChainExample |
| src/main/java/krum/weaponm/script/BreadthFirstSearch.java:158 | the parent walk loops while `distance >= 0`, so it steps from the origin to its null parent | any destination that the search included | stop once the origin has been added | not executed | BreadthFirstSearches.PlotCourseAsWritten | BreadthFirstSearches.PlotCourse |
| src/main/java/krum/weaponm/script/BreadthFirstSearch.java:87 | the "array full" test runs only after an add, so with limit 1 the second add writes past the one-slot array | limit 1, an origin with one included warp | stop adding once the node array is full | not executed | BreadthFirstSearches.OverrunExample | BreadthFirstSearches.Explore |
| src/main/java/krum/weaponm/database/Sector.java:150 | the replacement is skipped when the lengths match and the list is flagged sorted, and the new list is flagged sorted without sorting it | known warps [2,3], then told [2,4]: [2,3] is kept; a new sector told [4,2] is flagged sorted | compare the contents and sort the new list | not executed | Sectors.Sector.ReplaceWarpsOutAsWritten | Sectors.Sector.ReplaceWarpsOut |
| src/main/java/krum/weaponm/database/DataParser.java:870 | compares `level / capacity`, which integer division makes 0 or 1, with a percent | level 50 at 0 percent with capacity 1000: 1000 is kept although 5010 follows from the reading | compare `level * 100 / capacity` with the percent | not executed | Capacities.NewCapacityAsWritten | Capacities.NewCapacity |
| src/main/java/krum/weaponm/database/DataParser.java:355 | the computer prompt reads the old sector's number without checking that a sector is known | the first computer prompt while your location is unknown | check for no sector, as the command prompt does | not executed | DataParsing.SectorChangeAsWritten | DataParsing.SectorChange |
| src/main/java/krum/weaponm/script/ScriptManager.java:288 | `timerTasks` is keyed by script instance but looked up by class, so a script's timer tasks are never cancelled | a loaded script with a scheduled task that is then unloaded | look the tasks up by the instance | not executed | Scripts.ScriptManager.UnloadScriptAsWritten | Scripts.ScriptManager.UnloadScript |

The lemmas `Sectors.ReplaceWarpsOutAsWrittenExample`, `Capacities.StaleCapacityExample`, `DataParsing.UnknownLocationExample` and `Scripts.UnloadStrandsTasks` show the inputs above. `BreadthFirstSearches.PairNeedsTwo` and `Scripts.UnloadDropsTasks` prove the corrected behaviour. The rest of the model uses the corrected members. `DataParsing.DataParser.OnComputerPrompt` goes through `DataParsing.SectorChange`.
