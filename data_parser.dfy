/**
 * DataParser: the lexer's events update the database and notify scripts and
 * the user interface.
 *
 * Each handler takes what the lexer's match yields once ParserUtils has read
 * it (the integers, a printable run, a character at a fixed offset), not the
 * raw character sequence. Notifications, script events and property changes
 * alike, are appended to the ghost `log` in the order they are fired.
 */
module DataParsing {
  import opened Wrappers
  import opened Constants
  import opened JavaInt
  import opened Records
  import opened Ports
  import opened Sectors
  import opened GameStatistics
  import opened Databases
  import opened Capacities
  import ParserUtils

  /** The script events the modelled handlers fire; the major prompts double as the current prompt. */
  datatype ScriptEvent =
    | CommandPrompt | ComputerPrompt | CitadelComputerPrompt | PlanetPrompt | CitadelPrompt | StardockPrompt
    | PortUpgraded | CoursePlot | TradeInitPrompt | TradingUnits | TradeAccepted | PlanetTrading | ShipTrading
    | FinalOffer | CreditsEvent | Interdicted

  /** The user-interface properties the modelled handlers report. */
  datatype Property =
    | SectorUpdated | ShipSector | YouTurns | YouCredits | YouXp | YouAlign | ShipCargo | ShipHolds
    | ShipShields | ShipFighters

  datatype Notice =
    | Fired(event: ScriptEvent, args: seq<int>)
    | Changed(property: Property, oldValue: Option<int>, newValue: int)
    | Discovered(pairs: seq<(int, int)>)
    | DatabaseInitialized

  // ---------------------------------------------------------------------
  // Prompts

  /** The seconds since midnight of a prompt's clock. */
  function Time(h: int, m: int, s: int): int
  {
    h * 3600 + m * 60 + s
  }

  /** A clock reading is recovered from its time in seconds. */
  lemma TimeRoundTrip(h: int, m: int, s: int)
    requires 0 <= h < 24 && 0 <= m < 60 && 0 <= s < 60
    ensures 0 <= Time(h, m, s) < 86400
    ensures Time(h, m, s) / 3600 == h && Time(h, m, s) % 3600 / 60 == m && Time(h, m, s) % 60 == s
  {
    var r := m * 60 + s;
    assert Time(h, m, s) == h * 3600 + r && 0 <= r < 3600;
    assert r / 60 == m && r % 60 == s;
  }

  /** The prompt computerPrompt enters: the citadel computer from the citadel or its computer. */
  function ComputerPromptAfter(current: Option<ScriptEvent>): (r: ScriptEvent)
    ensures r == CitadelComputerPrompt || r == ComputerPrompt
    ensures r == CitadelComputerPrompt <==> current == Some(CitadelPrompt) || current == Some(CitadelComputerPrompt)
  {
    if current == Some(CitadelPrompt) || current == Some(CitadelComputerPrompt) then CitadelComputerPrompt
    else ComputerPrompt
  }

  /** What a prompt reports when it finds you in sector `to`: nothing unless you moved. */
  function SectorChange(from: Option<int>, to: int): (r: seq<Notice>)
    ensures r == [] <==> from == Some(to)
    ensures r != [] ==> r == [Changed(ShipSector, from, to)]
  {
    if from == Some(to) then [] else [Changed(ShipSector, from, to)]
  }

  /**
   * The notice as computerPrompt writes it at line 355: the old sector's
   * number is read without the null check commandPrompt makes.
   */
  function SectorChangeAsWritten(from: Option<int>, to: int): (r: Result<seq<Notice>>)
    ensures r.Err? <==> from == None
  {
    if from == Some(to) then Ok([])
    else if from.None? then Err(NullPointer)
    else Ok([Changed(ShipSector, from, to)])
  }

  /** Once your location is known the two agree. */
  lemma SectorChangeAgrees(from: Option<int>, to: int)
    requires from.Some?
    ensures SectorChangeAsWritten(from, to) == Ok(SectorChange(from, to))
  {
  }

  /**
   * The first computer prompt while your location is unknown (a fresh
   * database entered at the citadel) throws after you were moved, so neither
   * the prompt nor its event is recorded.
   */
  lemma UnknownLocationExample()
    ensures SectorChangeAsWritten(None, 1) == Err(NullPointer)
    ensures SectorChange(None, 1) == [Changed(ShipSector, None, 1)]
  {
  }

  // ---------------------------------------------------------------------
  // Trading

  /** The product named by the letter at the trading prompt, UNKNOWN for any other letter. */
  function ProductOf(c: char): (p: int)
    ensures p == FUEL_ORE <==> c == 'F'
    ensures p == ORGANICS <==> c == 'O'
    ensures p == EQUIPMENT <==> c == 'E'
    ensures p == UNKNOWN <==> c != 'F' && c != 'O' && c != 'E'
  {
    match c
    case 'F' => FUEL_ORE
    case 'O' => ORGANICS
    case 'E' => EQUIPMENT
    case _ => UNKNOWN
  }

  /** The cargo after an accepted trade: bought units come in, sold units go out. */
  function Traded(cargo: int, units: int, buying: bool): (r: int)
    ensures buying ==> r - cargo == units
    ensures !buying ==> cargo - r == units
  {
    if buying then cargo + units else cargo - units
  }

  /** Buying and then selling the same units restores the cargo. */
  lemma TradeRoundTrip(cargo: int, units: int)
    ensures Traded(Traded(cargo, units, true), units, false) == cargo
  {
  }

  // ---------------------------------------------------------------------
  // Reports that notify only on change

  /** The property change a report fires: only when the value differs from the stored one. */
  function Change(p: Property, from: int, to: int): (r: seq<Notice>)
    ensures r == [] <==> from == to
    ensures r != [] ==> r == [Changed(p, Some(from), to)]
  {
    if from == to then [] else [Changed(p, Some(from), to)]
  }

  /** Reporting the same value again fires nothing more. */
  lemma ChangeIdempotent(p: Property, a: int, b: int)
    ensures Change(p, a, b) + Change(p, b, b) == Change(p, a, b)
  {
  }

  // ---------------------------------------------------------------------
  // Game stats lines

  /**
   * A stats line "{LD}key=value": the key runs from after the leading
   * character to the first '=', the value is everything after it; a line
   * whose '=' is missing or comes first throws.
   */
  function StatEntry(stat: string): (r: Result<(string, string)>)
    ensures r.Ok? <==> IndexOf(stat, '=') >= 1
  {
    var eq := IndexOf(stat, '=');
    if eq < 1 then Err(IndexOutOfBounds) else Ok((stat[1..eq], stat[eq + 1..]))
  }

  /** A line built from a key without '=' gives back that key and value. */
  lemma StatEntryRoundTrip(lead: char, key: string, value: string)
    requires lead != '=' && '=' !in key
    ensures StatEntry([lead] + key + "=" + value) == Ok((key, value))
  {
    var stat := [lead] + key + "=" + value;
    IndexOfFirst(stat, '=', |key| + 1);
    assert stat[1..|key| + 1] == key;
    assert stat[|key| + 2..] == value;
  }

  lemma IndexOfFirst(s: string, c: char, i: nat)
    requires i < |s| && s[i] == c && forall k :: 0 <= k < i ==> s[k] != c
    ensures IndexOf(s, c) == i
  {
  }

  // ---------------------------------------------------------------------
  // Capacity estimates for a whole report

  /** The three capacities after a report. */
  function NewCapacities(levels: seq<int>, percents: seq<int>, caps: seq<int>): (r: seq<int>)
    requires |levels| == 3 && |percents| == 3 && |caps| == 3
    requires forall i :: 0 <= i < 3 ==> percents[i] >= 0
    ensures |r| == 3
    ensures forall i :: 0 <= i < 3 ==> r[i] == NewCapacity(levels[i], percents[i], caps[i])
  {
    seq(3, i requires 0 <= i < 3 => NewCapacity(levels[i], percents[i], caps[i]))
  }

  /** The PORT_UPGRADED events for the first n products of a report on the port in `sector`. */
  function Upgrades(sector: int, levels: seq<int>, percents: seq<int>, caps: seq<int>, n: nat): (r: seq<Notice>)
    requires n <= |levels| == |percents| == |caps|
    requires forall i :: 0 <= i < |percents| ==> percents[i] >= 0
    ensures |r| <= n
  {
    if n == 0 then []
    else
      var u := Upgrade(levels[n - 1], percents[n - 1], caps[n - 1]);
      Upgrades(sector, levels, percents, caps, n - 1) + (if u > 0 then [Fired(PortUpgraded, [sector, n - 1, u])] else [])
  }

  /**
   * Every PORT_UPGRADED event names a product whose known capacity grew, by
   * the amount its magnitude grew.
   */
  lemma {:induction false} UpgradesMeaning(sector: int, levels: seq<int>, percents: seq<int>, caps: seq<int>, n: nat, e: Notice)
    requires n <= |levels| == |percents| == |caps|
    requires forall i :: 0 <= i < |percents| ==> percents[i] >= 0
    requires e in Upgrades(sector, levels, percents, caps, n)
    ensures e.Fired? && e.event == PortUpgraded && |e.args| == 3 && e.args[0] == sector
    ensures 0 <= e.args[1] < n && caps[e.args[1]] != 0 && e.args[2] > 0
    ensures Abs(NewCapacity(levels[e.args[1]], percents[e.args[1]], caps[e.args[1]])) == Abs(caps[e.args[1]]) + e.args[2]
  {
    var u := Upgrade(levels[n - 1], percents[n - 1], caps[n - 1]);
    if e in Upgrades(sector, levels, percents, caps, n - 1) {
      UpgradesMeaning(sector, levels, percents, caps, n - 1, e);
    } else {
      assert u > 0 && e == Fired(PortUpgraded, [sector, n - 1, u]);
    }
  }

  /** A first report on a port (all capacities unknown) fires no upgrade. */
  lemma {:induction false} FirstReportNoUpgrades(sector: int, levels: seq<int>, percents: seq<int>, caps: seq<int>, n: nat)
    requires n <= |levels| == |percents| == |caps|
    requires forall i :: 0 <= i < |percents| ==> percents[i] >= 0
    requires forall i :: 0 <= i < |caps| ==> caps[i] == 0
    ensures Upgrades(sector, levels, percents, caps, n) == []
  {
    if n > 0 {
      FirstReportNoUpgrades(sector, levels, percents, caps, n - 1);
    }
  }

  // ---------------------------------------------------------------------
  // Warp discovery

  /** The pairs (s, w) for the reported warps w that s does not know yet, in report order. */
  function NewPairs(s: int, known: seq<int>, warps: seq<int>): (r: seq<(int, int)>)
    ensures |r| <= |warps|
  {
    if warps == [] then []
    else
      var w := warps[|warps| - 1];
      NewPairs(s, known, warps[..|warps| - 1]) + (if w in known then [] else [(s, w)])
  }

  /** The new pairs are exactly the reported warps that s does not know. */
  lemma {:induction false} NewPairsMembers(s: int, known: seq<int>, warps: seq<int>)
    ensures forall p :: p in NewPairs(s, known, warps) ==> p.0 == s && p.1 in warps && p.1 !in known
    ensures forall w :: w in warps && w !in known ==> (s, w) in NewPairs(s, known, warps)
    ensures NewPairs(s, known, warps) == [] <==> forall w :: w in warps ==> w in known
  {
    if warps != [] {
      var init := warps[..|warps| - 1];
      NewPairsMembers(s, known, init);
      assert warps == init + [warps[|warps| - 1]];
    }
  }

  /** Reading more of a report only adds pairs at the end. */
  lemma {:induction false} NewPairsPrefix(s: int, known: seq<int>, warps: seq<int>, i: nat)
    requires i <= |warps|
    ensures NewPairs(s, known, warps[..i]) <= NewPairs(s, known, warps)
  {
    if i < |warps| {
      var init := warps[..|warps| - 1];
      NewPairsPrefix(s, known, init, i);
      assert init[..i] == warps[..i];
    } else {
      assert warps[..i] == warps;
    }
  }

  /** The new pairs of one more reported warp. */
  lemma NewPairsStep(s: int, known: seq<int>, warps: seq<int>, i: nat)
    requires i < |warps|
    ensures NewPairs(s, known, warps[..i + 1]) ==
      NewPairs(s, known, warps[..i]) + (if warps[i] in known then [] else [(s, warps[i])])
  {
    assert warps[..i + 1][..i] == warps[..i];
  }

  /** A new pair names a warp the known list lacks, so the sorted report differs from that list. */
  lemma NewReportDiffers(s: int, known: seq<int>, warps: seq<int>)
    ensures NewPairs(s, known, warps) != [] ==> known != SortSeq(warps)
  {
    var np := NewPairs(s, known, warps);
    if np != [] {
      NewPairsMembers(s, known, warps);
      assert np[0] in np;
      SortSeqSameMembers(warps, np[0].1);
    }
  }

  /** Warp lists that kept their number of rows, each row only lengthened at its end. */
  ghost predicate Grows(a: seq<seq<int>>, b: seq<seq<int>>)
  {
    |a| == |b| && forall k :: 0 <= k < |a| ==> a[k] <= b[k]
  }

  /** Warp lists that only grew, twice, only grew. */
  lemma GrowsTrans(a: seq<seq<int>>, b: seq<seq<int>>, c: seq<seq<int>>)
    requires Grows(a, b) && Grows(b, c)
    ensures Grows(a, c)
  {
    forall k | 0 <= k < |a|
      ensures a[k] <= c[k]
    {
      assert c[k][..|a[k]|] == b[k][..|a[k]|] == a[k];
    }
  }

  /** Lengthening one row of the warp lists only grows them. */
  lemma GrowsByRow(outs: seq<seq<int>>, j: int, row: seq<int>)
    requires 0 <= j < |outs| && outs[j] <= row
    ensures Grows(outs, outs[j := row])
  {
  }

  /** The hops of a plotted course: each sector paired with the next. */
  function Steps(course: seq<int>): (r: seq<(int, int)>)
    ensures |r| == if |course| == 0 then 0 else |course| - 1
    ensures forall i :: 0 <= i < |r| ==> r[i] == (course[i], course[i + 1])
  {
    if |course| <= 1 then [] else seq(|course| - 1, i requires 0 <= i < |course| - 1 => (course[i], course[i + 1]))
  }

  lemma AppendAssoc<T>(a: seq<T>, b: seq<T>, c: seq<T>)
    ensures (a + b) + c == a + (b + c) && a + [] == a
  {
  }

  /** Hop j of the course starts in range and is listed or recorded. */
  ghost predicate HopCovered(course: seq<int>, j: int, outs: seq<seq<int>>, found: seq<(int, int)>)
    requires 0 <= j && j + 1 < |course|
  {
    1 <= course[j] <= |outs| && (course[j + 1] in outs[course[j] - 1] || (course[j], course[j + 1]) in found)
  }

  /** Every hop of the course before n starts in range and is listed or recorded. */
  ghost predicate Covered(course: seq<int>, n: int, outs: seq<seq<int>>, found: seq<(int, int)>)
  {
    forall j :: 0 <= j < n && j + 1 < |course| ==> HopCovered(course, j, outs, found)
  }

  /** Every recorded pair is a hop of the course its sector did not list. */
  ghost predicate Fresh(course: seq<int>, outs: seq<seq<int>>, found: seq<(int, int)>)
  {
    forall p :: p in found ==> p in Steps(course) && 1 <= p.0 <= |outs| && p.1 !in outs[p.0 - 1]
  }

  /** Hop i of the course extends the covered prefix by one, whatever the lists gained meanwhile. */
  lemma {:induction false} CoveredStep(course: seq<int>, i: int, before: seq<seq<int>>, after: seq<seq<int>>,
                                       found: seq<(int, int)>, found': seq<(int, int)>)
    requires Covered(course, i, before, found) && 0 <= i && i + 1 < |course|
    requires Grows(before, after)
    requires found <= found'
    requires 1 <= course[i] <= |after| && (course[i + 1] in after[course[i] - 1] || (course[i], course[i + 1]) in found')
    ensures Covered(course, i + 1, after, found')
  {
    forall j | 0 <= j < i + 1 && j + 1 < |course|
      ensures HopCovered(course, j, after, found')
    {
      if j < i {
        assert HopCovered(course, j, before, found);
        var row := before[course[j] - 1];
        if course[j + 1] in row {
          assert after[course[j] - 1][..|row|] == row;
        } else {
          assert (course[j], course[j + 1]) in found;
        }
      }
    }
  }

  /** Hop i either found its warp listed or recorded it: the course's bookkeeping moves one hop on. */
  lemma HopAccounted(course: seq<int>, i: int, outs: seq<seq<int>>, now: seq<seq<int>>, now': seq<seq<int>>,
                     found: seq<(int, int)>, found': seq<(int, int)>, recorded: bool)
    requires 0 <= i && i + 1 < |course| && 1 <= course[i] <= |outs|
    requires Fresh(course, outs, found) && Covered(course, i, now, found) && Grows(outs, now) && Grows(now, now')
    requires recorded ==> found' == found + [(course[i], course[i + 1])] && course[i + 1] !in now[course[i] - 1]
    requires !recorded ==> found' == found && course[i + 1] in now'[course[i] - 1]
    ensures Fresh(course, outs, found') && Covered(course, i + 1, now', found')
  {
    if recorded {
      FreshStep(course, i, outs, now, found);
    }
    CoveredStep(course, i, now, now', found, found');
  }

  /** A hop its sector did not list, once the lists only grew from outs, is a fresh record. */
  lemma {:induction false} FreshStep(course: seq<int>, i: int, outs: seq<seq<int>>, before: seq<seq<int>>, found: seq<(int, int)>)
    requires Fresh(course, outs, found) && 0 <= i && i + 1 < |course| && 1 <= course[i] <= |outs|
    requires Grows(outs, before)
    requires course[i + 1] !in before[course[i] - 1]
    ensures Fresh(course, outs, found + [(course[i], course[i + 1])])
  {
    var row := outs[course[i] - 1];
    assert before[course[i] - 1][..|row|] == row;
    assert Steps(course)[i] == (course[i], course[i + 1]);
  }

  /**
   * The turns a completed move costs: one for a blind warp, otherwise the
   * ship type's turns per warp, or nothing while that is unknown.
   */
  function WarpCost(mode: MoveMode, turnsPerWarp: Option<int>): (r: Option<int>)
    ensures mode == BWarp ==> r == Some(1)
    ensures mode != BWarp ==> (r.Some? <==> turnsPerWarp.Some? && turnsPerWarp.value != UNKNOWN)
    ensures r.Some? && mode != BWarp ==> r == turnsPerWarp
  {
    if mode == BWarp then Some(1)
    else if turnsPerWarp.Some? && turnsPerWarp.value != UNKNOWN then turnsPerWarp
    else None
  }

  /** The notices of an arrival: the new location, the turns when they were deducted, the ore of a transwarp. */
  function ArrivalNotices(mode: MoveMode, from: int, to: int, turns: int, cost: Option<int>, ore: int, distance: int): seq<Notice>
  {
    [Changed(ShipSector, Some(from), to)]
    + (if cost.Some? then [Changed(YouTurns, Some(turns), turns - cost.value)] else [])
    + (if mode == TWarp then [Changed(ShipCargo, Some(FUEL_ORE), ore - distance * 3)] else [])
  }

  // ---------------------------------------------------------------------
  // CIM port reports

  /**
   * The quantities of a CIM port line: the numbers are the sector, then a
   * quantity and a percentage per product; a '-' in a product's column
   * marks a product the port buys, whose quantity is stored negated.
   */
  function CimLevels(numbers: seq<int>, selling: seq<char>): (r: seq<int>)
    requires |numbers| >= 7 && |selling| == 3
    ensures |r| == 3
    ensures forall i :: 0 <= i < 3 ==> r[i] == (if selling[i] == '-' then -numbers[2 * i + 1] else numbers[2 * i + 1])
  {
    seq(3, i requires 0 <= i < 3 => if selling[i] == '-' then -numbers[2 * i + 1] else numbers[2 * i + 1])
  }

  function CimPercents(numbers: seq<int>): (r: seq<int>)
    requires |numbers| >= 7
    ensures r == [numbers[2], numbers[4], numbers[6]]
  {
    [numbers[2], numbers[4], numbers[6]]
  }

  /**
   * On a line whose columns are all ' ', 'S' or '-', a positive quantity is
   * stored negative exactly for a product the port class inferred from
   * those columns buys.
   */
  lemma CimLevelsSign(numbers: seq<int>, selling: seq<char>, i: int)
    requires |numbers| >= 7 && |selling| == 3 && IsProduct(i)
    requires selling[i] in {' ', 'S', '-'} && numbers[2 * i + 1] > 0
    ensures CimLevels(numbers, selling)[i] < 0 <==> BuysClass(IndicatorClass(selling), i) == Ok(true)
    ensures CimLevels(numbers, selling)[i] > 0 <==> SellsClass(IndicatorClass(selling), i) == Ok(true)
  {
    IndicatorClassRoundTrip(selling, i);
    BuysIsNotSells(IndicatorClass(selling), i);
  }

  /** A port's trading class and status, as the CIM reports change them. */
  datatype PortState = PortState(tradingClass: int, status: Option<PortStatus>, statusDate: Option<Date>)

  /** setStatus: the status date is restamped only when the status changes. */
  function WithStatus(q: PortState, status: PortStatus, now: Date): (r: PortState)
  {
    q.(status := Some(status), statusDate := if q.status == Some(status) then q.statusDate else Some(now))
  }

  /**
   * The reported port after its line: a class still UNKNOWN is inferred
   * from the selling columns, and the port becomes AVAILABLE. None stands
   * for a port created by the line.
   */
  function Reported(q: Option<PortState>, selling: seq<char>, now: Date): (r: PortState)
    requires |selling| == 3
    ensures r.status == Some(Available)
    ensures q.Some? && q.value.status == Some(Available) ==> r.statusDate == q.value.statusDate
    ensures (q.None? || q.value.status != Some(Available)) ==> r.statusDate == Some(now)
    ensures q.Some? && q.value.tradingClass != UNKNOWN ==> r.tradingClass == q.value.tradingClass
    ensures (q.None? || q.value.tradingClass == UNKNOWN) ==> r.tradingClass == IndicatorClass(selling)
  {
    var blank := PortState(UNKNOWN, None, None);
    var p := if q.Some? then q.value else blank;
    WithStatus(p.(tradingClass := if p.tradingClass == UNKNOWN then IndicatorClass(selling) else p.tradingClass), Available, now)
  }

  /** A sector's port after a CIM report skipped it: a port of a class other than 0 is blocked. */
  function Skip(q: Option<PortState>, now: Date): Option<PortState>
  {
    if q.Some? && q.value.tradingClass != 0 then Some(WithStatus(q.value, Blocked, now)) else q
  }

  /** The ports of sectors lo..hi-1 skipped; the state of sector k+1's port sits at index k. */
  function SkipRange(ps: seq<Option<PortState>>, lo: int, hi: int, now: Date): (r: seq<Option<PortState>>)
    ensures |r| == |ps|
  {
    seq(|ps|, k requires 0 <= k < |ps| => if lo <= k + 1 < hi then Skip(ps[k], now) else ps[k])
  }

  /** Skipping a range extends by one sector at a time. */
  lemma SkipRangeStep(ps: seq<Option<PortState>>, lo: int, t: int, now: Date)
    requires lo <= t && 1 <= t <= |ps|
    ensures SkipRange(ps, lo, t + 1, now) == SkipRange(ps, lo, t, now)[t - 1 := Skip(SkipRange(ps, lo, t, now)[t - 1], now)]
  {
  }

  /** An empty range skips nothing. */
  lemma SkipRangeEmpty(ps: seq<Option<PortState>>, lo: int, hi: int, now: Date)
    requires hi <= lo
    ensures SkipRange(ps, lo, hi, now) == ps
  {
    assert forall k :: 0 <= k < |ps| ==> SkipRange(ps, lo, hi, now)[k] == ps[k];
  }

  /** Sectors past the end of the states are not there to skip. */
  lemma SkipRangeBeyond(ps: seq<Option<PortState>>, lo: int, t: int, hi: int, now: Date)
    requires |ps| < t <= hi
    ensures SkipRange(ps, lo, t, now) == SkipRange(ps, lo, hi, now)
  {
  }

  /**
   * Skipping is idempotent: a port skipped again, however much later, keeps
   * its blocked status and the date it was first blocked.
   */
  lemma SkipRangeIdempotent(ps: seq<Option<PortState>>, lo: int, hi: int, now: Date, later: Date)
    ensures SkipRange(SkipRange(ps, lo, hi, now), lo, hi, later) == SkipRange(ps, lo, hi, now)
  {
  }

  /** Skipping two adjacent ranges is skipping their union. */
  lemma SkipRangeJoin(ps: seq<Option<PortState>>, a: int, b: int, c: int, now: Date)
    requires a <= b <= c
    ensures SkipRange(SkipRange(ps, a, b, now), b, c, now) == SkipRange(ps, a, c, now)
  {
  }

  /** The first sector a CIM line for s skips, after the line for last: a new report starts when s <= last. */
  function SkipStart(last: int, s: int): int
  {
    if s <= last then 1 else last + 1
  }

  /** Whether the blocking loops of a line on sector s, after a line on sector last, reach a sector beyond the n sectors. */
  predicate SkipFails(last: int, s: int, n: int)
  {
    SkipStart(last, s) < s && s - 1 > n
  }

  /** Whether one of the lines of a report, read line by line after a line for last, skips sector t. */
  predicate Skipped(last: int, report: seq<int>, t: int)
    decreases |report|
  {
    report != [] && (SkipStart(last, report[0]) <= t < report[0] || Skipped(report[0], report[1..], t))
  }

  predicate StrictlyAscending(report: seq<int>)
  {
    forall i, j :: 0 <= i < j < |report| ==> report[i] < report[j]
  }

  /** Lines that continue a report skip exactly the sectors between last and the final line that are not listed. */
  lemma {:induction false} ContinuedReportSkips(last: int, report: seq<int>, t: int)
    requires StrictlyAscending(report) && report != [] && last < report[0]
    ensures Skipped(last, report, t) <==> last < t < report[|report| - 1] && t !in report
    decreases |report|
  {
    var rest := report[1..];
    if rest != [] {
      ContinuedReportSkips(report[0], rest, t);
      assert rest[|rest| - 1] == report[|report| - 1];
      assert report == [report[0]] + rest;
    }
  }

  /**
   * A whole CIM port report, from a first line at or below the previous
   * report's last line: every sector below the final line that the report
   * does not list is skipped, so its port is blocked, and no listed sector is.
   */
  lemma ReportBlocksUnlisted(last: int, report: seq<int>, t: int)
    requires StrictlyAscending(report) && report != [] && 1 <= report[0] <= last
    ensures Skipped(last, report, t) <==> 1 <= t < report[|report| - 1] && t !in report
  {
    var rest := report[1..];
    if rest != [] {
      ContinuedReportSkips(report[0], rest, t);
      assert rest[|rest| - 1] == report[|report| - 1];
      assert Skipped(last, report, t) == (1 <= t < report[0] || Skipped(report[0], rest, t));
      assert report[0] < report[|report| - 1];
      assert report == [report[0]] + rest;
      if t in rest {
        var i :| 0 <= i < |rest| && rest[i] == t;
        assert report[i + 1] == t;
      } else if t != report[0] {
        assert t !in report;
      }
    }
  }

  // ---------------------------------------------------------------------
  // The parser

  class DataParser {
    const db: Database
    var gameStatsMap: map<string, string>
    var currentPrompt: Option<ScriptEvent>
    /** The sector being displayed, holo-scanned or probed. */
    var parsingSector: Sector?
    var lastCimPortSector: int
    // the trade in progress
    var planetTrading: bool
    var product: int
    var buying: bool
    var units: int
    var finalOffer: bool
    // warps discovered by the handler running now; sized once the game stats are known
    var newWarps: array?<(int, int)>
    var newWarpCount: nat
    // the move in progress
    var moveMode: Option<MoveMode>
    var moveTarget: int
    var moveDistance: int
    /** Everything fired so far, in order. */
    ghost var log: seq<Notice>

    constructor (db: Database)
      ensures this.db == db && gameStatsMap == map[] && currentPrompt == None && parsingSector == null
      ensures lastCimPortSector == INT_MAX && newWarps == null && newWarpCount == 0
      ensures moveMode == None && moveTarget == NULL_SECTOR && moveDistance == UNKNOWN && log == []
    {
      this.db := db;
      gameStatsMap, currentPrompt, parsingSector := map[], None, null;
      lastCimPortSector := INT_MAX;
      planetTrading, product, buying, units, finalOffer := false, 0, false, 0, false;
      newWarps, newWarpCount := null, 0;
      moveMode, moveTarget, moveDistance := None, NULL_SECTOR, UNKNOWN;
      log := [];
    }

    /** reset, after a connection: the stats read so far, the prompt and the displayed sector are forgotten. */
    method Reset()
      modifies this`gameStatsMap, this`currentPrompt, this`parsingSector
      ensures gameStatsMap == map[] && currentPrompt == None && parsingSector == null
    {
      gameStatsMap, currentPrompt, parsingSector := map[], None, null;
    }

    // -- prompts --------------------------------------------------------

    /** commandPrompt: hours, minutes, seconds and sector; you are now in that sector. */
    method OnCommandPrompt(numbers: seq<int>) returns (r: Result<()>)
      requires |numbers| == 4 && db.SectorsValid()
      modifies this`currentPrompt, this`log, db.you, db.you.ship
      ensures r.Err? <==> db.GetSector(numbers[3]).Err?
      ensures r.Err? ==> r.error == db.GetSector(numbers[3]).error && currentPrompt == old(currentPrompt) && log == old(log)
      ensures r.Ok? ==> db.you.GetSector() == Some(numbers[3]) && currentPrompt == Some(CommandPrompt)
      ensures r.Ok? ==> (log == old(log) + SectorChange(old(db.you.GetSector()), numbers[3]) +
        [Fired(CommandPrompt, [Time(numbers[0], numbers[1], numbers[2]), numbers[3]])])
    {
      var time := numbers[0] * 3600 + numbers[1] * 60 + numbers[2];
      var oldSector := db.you.GetSector();
      var newSector := db.GetSector(numbers[3]);
      if newSector.Err? {
        return Err(newSector.error);
      }
      if oldSector != Some(numbers[3]) {
        db.you.SetSector(numbers[3]);
        log := log + [Changed(ShipSector, oldSector, numbers[3])];
      }
      currentPrompt := Some(CommandPrompt);
      log := log + [Fired(CommandPrompt, [time, numbers[3]])];
      return Ok(());
    }

    /**
     * computerPrompt: like the command prompt, entering the citadel's
     * computer when reached from the citadel. The ship-sector notice is the
     * corrected one, which allows an unknown old location.
     */
    method OnComputerPrompt(numbers: seq<int>) returns (r: Result<()>)
      requires |numbers| == 4 && db.SectorsValid()
      modifies this`currentPrompt, this`log, db.you, db.you.ship
      ensures r.Err? <==> db.GetSector(numbers[3]).Err?
      ensures r.Err? ==> r.error == db.GetSector(numbers[3]).error && currentPrompt == old(currentPrompt) && log == old(log)
      ensures r.Ok? ==> db.you.GetSector() == Some(numbers[3]) && currentPrompt == Some(ComputerPromptAfter(old(currentPrompt)))
      ensures r.Ok? ==> (log == old(log) + SectorChange(old(db.you.GetSector()), numbers[3]) +
        [Fired(ComputerPromptAfter(old(currentPrompt)), [Time(numbers[0], numbers[1], numbers[2]), numbers[3]])])
    {
      var time := numbers[0] * 3600 + numbers[1] * 60 + numbers[2];
      var oldSector := db.you.GetSector();
      var newSector := db.GetSector(numbers[3]);
      if newSector.Err? {
        return Err(newSector.error);
      }
      if oldSector != Some(numbers[3]) {
        db.you.SetSector(numbers[3]);
        log := log + SectorChange(oldSector, numbers[3]);
      }
      if currentPrompt == Some(CitadelPrompt) || currentPrompt == Some(CitadelComputerPrompt) {
        currentPrompt := Some(CitadelComputerPrompt);
        log := log + [Fired(CitadelComputerPrompt, [time, numbers[3]])];
      } else {
        currentPrompt := Some(ComputerPrompt);
        log := log + [Fired(ComputerPrompt, [time, numbers[3]])];
      }
      return Ok(());
    }

    /** planetPrompt, citadelPrompt and stardockPrompt: the event fires and the prompt is recorded. */
    method OnMajorPrompt(prompt: ScriptEvent)
      requires prompt == PlanetPrompt || prompt == CitadelPrompt || prompt == StardockPrompt
      modifies this`currentPrompt, this`log
      ensures currentPrompt == Some(prompt) && log == old(log) + [Fired(prompt, [])]
    {
      currentPrompt := Some(prompt);
      log := log + [Fired(prompt, [])];
    }

    /** leavingMajorPrompt: no major prompt is showing. */
    method OnLeavingMajorPrompt()
      modifies this`currentPrompt
      ensures currentPrompt == None
    {
      currentPrompt := None;
    }

    function GetCurrentPrompt(): (r: Option<ScriptEvent>)
      reads this`currentPrompt
      ensures r == currentPrompt
    {
      currentPrompt
    }

    // -- move intent ----------------------------------------------------

    /** warpTarget: a warp to the sector is under way. */
    method OnWarpTarget(target: int)
      modifies this`moveMode, this`moveTarget
      ensures moveMode == Some(Warp) && moveTarget == target
    {
      moveMode := Some(Warp);
      moveTarget := target;
    }

    /**
     * mkeyWarpTarget: the typed sector, once backspaces are applied; empty
     * input changes nothing. The move is recorded before the number is
     * parsed, so unparseable input leaves a warp with the old target.
     */
    method OnMkeyWarpTarget(typed: string) returns (r: Result<()>)
      modifies this`moveMode, this`moveTarget
      ensures ParserUtils.Unbackspace(typed, 0, "").Err? ==> r.Err? && moveMode == old(moveMode) && moveTarget == old(moveTarget)
      ensures ParserUtils.Unbackspace(typed, 0, "") == Ok("") ==> r.Ok? && moveMode == old(moveMode) && moveTarget == old(moveTarget)
      ensures var input := ParserUtils.Unbackspace(typed, 0, "");
        input.Ok? && input.value != "" ==> (moveMode == Some(Warp) &&
          match ParseIntResult(input.value)
          case Ok(n) => r.Ok? && moveTarget == n
          case Err(e) => r == Err(e) && moveTarget == old(moveTarget))
    {
      var input := ParserUtils.StripBackspaces(typed);
      if input.Err? {
        return Err(input.error);
      }
      if |input.value| > 0 {
        moveMode := Some(Warp);
        var n := ParseIntResult(input.value);
        if n.Err? {
          return Err(n.error);
        }
        moveTarget := n.value;
      }
      return Ok(());
    }

    /** transWarpTarget: "Sector t is d hops away"; a blind warp until the transwarp drive engages. */
    method OnTransWarpTarget(numbers: seq<int>)
      requires |numbers| == 2
      modifies this`moveMode, this`moveTarget, this`moveDistance
      ensures moveMode == Some(BWarp) && moveTarget == numbers[0] && moveDistance == numbers[1]
    {
      moveMode := Some(BWarp);
      moveTarget := numbers[0];
      moveDistance := numbers[1];
    }

    method OnTransWarpEngaged()
      modifies this`moveMode
      ensures moveMode == Some(TWarp)
    {
      moveMode := Some(TWarp);
    }

    /** cancelWarp and cancelTransWarp: no move is under way. */
    method OnCancelWarp()
      modifies this`moveMode
      ensures moveMode == None
    {
      moveMode := None;
    }

    method OnInterdicted()
      modifies this`moveMode, this`log
      ensures moveMode == None && log == old(log) + [Fired(Interdicted, [])]
    {
      moveMode := None;
      log := log + [Fired(Interdicted, [])];
    }

    // -- trading --------------------------------------------------------

    method OnPlanetTrading()
      modifies this`planetTrading, this`log
      ensures planetTrading && log == old(log) + [Fired(PlanetTrading, [])]
    {
      log := log + [Fired(PlanetTrading, [])];
      planetTrading := true;
    }

    method OnShipTrading()
      modifies this`planetTrading, this`log
      ensures !planetTrading && log == old(log) + [Fired(ShipTrading, [])]
    {
      log := log + [Fired(ShipTrading, [])];
      planetTrading := false;
    }

    /** tradeInitPrompt: the product letter and the prompt's last character ('y' when you buy). */
    method OnTradeInitPrompt(productLetter: char, lastChar: char)
      modifies this`finalOffer, this`product, this`buying, this`log
      ensures !finalOffer && product == ProductOf(productLetter) && buying == (lastChar == 'y')
      ensures log == old(log) + [Fired(TradeInitPrompt, [product, if buying then 1 else 0])]
    {
      finalOffer := false;
      product := ProductOf(productLetter);
      buying := lastChar == 'y';
      log := log + [Fired(TradeInitPrompt, [product, if buying then 1 else 0])];
    }

    method OnTradeUnits(units: int)
      modifies this`units, this`log
      ensures this.units == units && log == old(log) + [Fired(TradingUnits, [units])]
    {
      this.units := units;
      log := log + [Fired(TradingUnits, [units])];
    }

    method OnFinalOffer()
      modifies this`finalOffer, this`log
      ensures finalOffer && log == old(log) + [Fired(FinalOffer, [])]
    {
      log := log + [Fired(FinalOffer, [])];
      finalOffer := true;
    }

    /**
     * tradeAccepted: in ship trading the traded product's hold gains the
     * units when you buy and loses them when you sell; planet trading is not
     * recorded. A product that was not recognised throws once your ship has
     * its detail block.
     */
    method OnTradeAccepted() returns (r: Result<()>)
      requires db.you.ship != null && db.you.ship.Valid()
      modifies db.you.ship, db.you.ship.details, this`log
      modifies if db.you.ship.details == null then {} else {db.you.ship.details.cargo}
      ensures db.you.ship.Valid()
      ensures planetTrading ==> r.Ok? && log == old(log) + [Fired(TradeAccepted, [])] && db.you.ship.Block() == old(db.you.ship.Block())
      ensures !planetTrading ==> (r.Err? <==> !(0 <= product < 4))
      ensures !planetTrading && r.Ok? ==>
        db.you.ship.GetCargo() == old(db.you.ship.GetCargo())[product := Traded(old(db.you.ship.GetCargo())[product], units, buying)] &&
        log == old(log) + [Changed(ShipCargo, Some(product), Traded(old(db.you.ship.GetCargo())[product], units, buying)),
                           Fired(TradeAccepted, [])]
    {
      if !planetTrading {
        var ship := db.you.ship;
        var oldCargo := ship.GetCargoItem(product);
        if oldCargo.Err? {
          return Err(oldCargo.error);
        }
        var newCargo := if buying then oldCargo.value + units else oldCargo.value - units;
        var stored := ship.SetCargo(product, newCargo);
        if stored.Err? {
          return Err(stored.error);
        }
        log := log + [Changed(ShipCargo, Some(product), newCargo)];
      }
      log := log + [Fired(TradeAccepted, [])];
      return Ok(());
    }

    // -- reports that notify only on change ------------------------------

    /** loginTurns, infoTurns and quickTurns. */
    method OnTurns(turns: int)
      requires db.you.isYou
      modifies db.you, this`log
      ensures db.you.turns == turns && db.you.credits == old(db.you.credits) && db.you.ship == old(db.you.ship)
      ensures db.you.xp == old(db.you.xp) && db.you.align == old(db.you.align)
      ensures log == old(log) + Change(YouTurns, old(db.you.turns), turns)
    {
      var oldTurns := db.you.turns;
      if oldTurns != turns {
        db.you.SetTurns(turns);
        log := log + [Changed(YouTurns, Some(oldTurns), turns)];
      }
    }

    /** infoCredits and quickCredits. */
    method OnCreditsReport(credits: int)
      requires db.you.isYou
      modifies db.you, this`log
      ensures db.you.credits == credits && db.you.turns == old(db.you.turns) && db.you.ship == old(db.you.ship)
      ensures db.you.xp == old(db.you.xp) && db.you.align == old(db.you.align)
      ensures log == old(log) + Change(YouCredits, old(db.you.credits), credits)
    {
      var oldCredits := db.you.credits;
      if oldCredits != credits {
        db.you.SetCredits(credits);
        log := log + [Changed(YouCredits, Some(oldCredits), credits)];
      }
    }

    /** credits, the line shown during a trade: a change is reported, and CREDITS fires every time. */
    method OnCredits(credits: int)
      requires db.you.isYou
      modifies db.you, this`log
      ensures db.you.credits == credits && db.you.turns == old(db.you.turns) && db.you.ship == old(db.you.ship)
      ensures log == old(log) + Change(YouCredits, old(db.you.credits), credits) + [Fired(CreditsEvent, [credits])]
    {
      OnCreditsReport(credits);
      log := log + [Fired(CreditsEvent, [credits])];
    }

    /** quickXP. */
    method OnXp(xp: int)
      modifies db.you, this`log
      ensures db.you.xp == xp && db.you.align == old(db.you.align) && db.you.ship == old(db.you.ship)
      ensures db.you.turns == old(db.you.turns) && db.you.credits == old(db.you.credits)
      ensures log == old(log) + Change(YouXp, old(db.you.xp), xp)
    {
      var oldXp := db.you.xp;
      if oldXp != xp {
        db.you.SetXp(xp);
        log := log + [Changed(YouXp, Some(oldXp), xp)];
      }
    }

    /** quickAlign. */
    method OnAlign(align: int)
      modifies db.you, this`log
      ensures db.you.align == align && db.you.xp == old(db.you.xp) && db.you.ship == old(db.you.ship)
      ensures db.you.turns == old(db.you.turns) && db.you.credits == old(db.you.credits)
      ensures log == old(log) + Change(YouAlign, old(db.you.align), align)
    {
      var oldAlign := db.you.align;
      if oldAlign != align {
        db.you.SetAlign(align);
        log := log + [Changed(YouAlign, Some(oldAlign), align)];
      }
    }

    /** infoXpAlign: experience first, then alignment. */
    method OnXpAlign(xp: int, align: int)
      modifies db.you, this`log
      ensures db.you.xp == xp && db.you.align == align && db.you.ship == old(db.you.ship)
      ensures log == old(log) + Change(YouXp, old(db.you.xp), xp) + Change(YouAlign, old(db.you.align), align)
    {
      OnXp(xp);
      OnAlign(align);
    }

    /** infoHolds and quickHolds. */
    method OnHolds(holds: int)
      requires db.you.ship != null && db.you.ship.Valid()
      modifies db.you.ship, db.you.ship.details, this`log
      ensures db.you.ship.Valid() && db.you.ship.GetHolds() == holds
      ensures db.you.ship.GetHolds() != old(db.you.ship.GetHolds()) ==> db.you.ship.details != null
      ensures log == old(log) + Change(ShipHolds, old(db.you.ship.GetHolds()), holds)
    {
      var ship := db.you.ship;
      var oldHolds := ship.GetHolds();
      if holds != oldHolds {
        ship.SetHolds(holds);
        log := log + [Changed(ShipHolds, Some(oldHolds), holds)];
      }
    }

    /** infoShields and quickShields. */
    method OnShields(shields: int)
      requires db.you.ship != null
      modifies db.you.ship, this`log
      ensures db.you.ship.shields == shields && db.you.ship.fighters == old(db.you.ship.fighters)
      ensures db.you.ship.details == old(db.you.ship.details)
      ensures log == old(log) + Change(ShipShields, old(db.you.ship.shields), shields)
    {
      var ship := db.you.ship;
      var oldShields := ship.shields;
      if oldShields != shields {
        ship.SetShields(shields);
        log := log + [Changed(ShipShields, Some(oldShields), shields)];
      }
    }

    /** infoFighters and quickFighters. */
    method OnFighters(fighters: int)
      requires db.you.ship != null
      modifies db.you.ship, this`log
      ensures db.you.ship.fighters == fighters && db.you.ship.shields == old(db.you.ship.shields)
      ensures db.you.ship.details == old(db.you.ship.details)
      ensures log == old(log) + Change(ShipFighters, old(db.you.ship.fighters), fighters)
    {
      var ship := db.you.ship;
      var oldFighters := ship.fighters;
      if fighters != oldFighters {
        ship.SetFighters(fighters);
        log := log + [Changed(ShipFighters, Some(oldFighters), fighters)];
      }
    }

    /**
     * infoInvOre, infoInvOrg, infoInvEqu and the quick inventory handlers:
     * one cargo slot, reported as (slot, new quantity) on change.
     */
    method OnCargo(item: int, quantity: int)
      requires 0 <= item < 4 && db.you.ship != null && db.you.ship.Valid()
      modifies db.you.ship, db.you.ship.details, this`log
      modifies if db.you.ship.details == null then {} else {db.you.ship.details.cargo}
      ensures db.you.ship.Valid() && db.you.ship.GetCargo() == old(db.you.ship.GetCargo())[item := quantity]
      ensures log == old(log) + (if old(db.you.ship.GetCargo())[item] == quantity then [] else [Changed(ShipCargo, Some(item), quantity)])
    {
      var ship := db.you.ship;
      var oldValue := ship.GetCargoItem(item);
      if oldValue.value != quantity {
        var stored := ship.SetCargo(item, quantity);
        log := log + [Changed(ShipCargo, Some(item), quantity)];
      }
    }

    /** quickSector: your ship is placed in the sector without any notice. */
    method OnQuickSector(sector: int) returns (r: Result<()>)
      requires db.you.ship != null && db.SectorsValid()
      modifies db.you.ship
      ensures r.Err? <==> db.GetSector(sector).Err?
      ensures r.Err? ==> r.error == db.GetSector(sector).error && db.you.ship.sector == old(db.you.ship.sector)
      ensures r.Ok? ==> db.you.ship.sector == Some(sector)
    {
      var s := db.GetSector(sector);
      if s.Err? {
        return Err(s.error);
      }
      db.you.ship.SetSector(Some(sector));
      return Ok(());
    }

    // -- game stats -------------------------------------------------------

    /** gameStat: one "{LD}key=value" line is remembered; a malformed line throws. */
    method OnGameStat(stat: string) returns (r: Result<()>)
      modifies this`gameStatsMap
      ensures r.Ok? <==> StatEntry(stat).Ok?
      ensures r.Ok? ==> gameStatsMap == old(gameStatsMap)[StatEntry(stat).value.0 := StatEntry(stat).value.1]
      ensures r.Err? ==> gameStatsMap == old(gameStatsMap)
    {
      var entry := StatEntry(stat);
      if entry.Err? {
        return Err(entry.error);
      }
      gameStatsMap := gameStatsMap[entry.value.0 := entry.value.1];
      return Ok(());
    }

    /**
     * endStats: the collected stats go to the database (a different start
     * day is a rebang), the warp buffer is sized for the longest course, and
     * the database is initialised the first time.
     */
    method OnEndStats() returns (r: Result<()>)
      requires db.Valid()
      modifies db.gameStats, db, this`newWarps, this`log
      ensures db.Valid()
      ensures !Accepts(old(db.gameStats.stats), gameStatsMap) ==>
        r == Err(DatabaseIntegrity) && db.gameStats.stats == old(db.gameStats.stats) && unchanged(db) && newWarps == old(newWarps)
      ensures Accepts(old(db.gameStats.stats), gameStatsMap) ==> db.gameStats.stats == Merged(old(db.gameStats.stats), gameStatsMap)
      ensures r.Ok? ==> Accepts(old(db.gameStats.stats), gameStatsMap) && db.gameStats.MaxCourseLength().Ok?
      ensures r.Ok? ==> newWarps != null && fresh(newWarps) && newWarps.Length == db.gameStats.MaxCourseLength().value
      ensures r.Ok? ==> db.sectors != null && (old(db.sectors) != null ==> db.sectors == old(db.sectors))
      ensures r.Ok? ==> log == old(log) + (if old(db.sectors) == null then [DatabaseInitialized] else [])
      ensures r.Err? ==> log == old(log)
    {
      var updated := UpdateStats();
      if updated.Err? {
        return updated;
      }
      var length := db.gameStats.MaxCourseLength();
      if length.Err? {
        return Err(length.error);
      }
      if length.value < 0 {
        return Err(NegativeArraySize);
      }
      AllocateWarps(length.value);
      r := InitializeOnce();
    }

    /** newWarps = new int[length][2]: a buffer for the longest course. */
    method AllocateWarps(length: nat)
      modifies this`newWarps
      ensures newWarps != null && fresh(newWarps) && newWarps.Length == length
    {
      newWarps := new (int, int)[length];
    }

    /** updateAll on the game stats with the collected values: the database itself is untouched. */
    method UpdateStats() returns (r: Result<()>)
      requires db.Valid()
      modifies db.gameStats
      ensures db.Valid()
      ensures r.Ok? <==> Accepts(old(db.gameStats.stats), gameStatsMap)
      ensures r.Err? ==> r.error == DatabaseIntegrity && db.gameStats.stats == old(db.gameStats.stats)
      ensures r.Ok? ==> db.gameStats.stats == Merged(old(db.gameStats.stats), gameStatsMap)
    {
      r := db.gameStats.UpdateAll(gameStatsMap);
    }

    /** The database is initialised, with DATABASE_INITIALIZED, unless it already was. */
    method InitializeOnce() returns (r: Result<()>)
      requires db.Valid()
      modifies db, this`log
      ensures db.Valid()
      ensures old(db.sectors) != null ==> r.Ok? && db.sectors == old(db.sectors) && log == old(log)
      ensures old(db.sectors) == null && r.Ok? ==> db.sectors != null && log == old(log) + [DatabaseInitialized]
      ensures old(db.sectors) == null && r.Err? ==> log == old(log)
    {
      if db.IsInitialized() {
        return Ok(());
      }
      r := db.Initialize();
      if r.Ok? {
        log := log + [DatabaseInitialized];
      }
    }

    // -- warps ---------------------------------------------------------------

    /** The warp buffer is never overrun, and holds nothing while unallocated. */
    ghost predicate BufferValid()
      reads this
    {
      (newWarps == null ==> newWarpCount == 0) && (newWarps != null ==> newWarpCount <= newWarps.Length)
    }

    /** The warps recorded and not yet reported. */
    ghost function Pending(): seq<(int, int)>
      requires BufferValid()
      reads this, newWarps
    {
      if newWarps == null then [] else newWarps[..newWarpCount]
    }

    /** Whether n more pairs fit in the buffer. */
    ghost predicate Fits(n: nat)
      reads this
    {
      n == 0 || (newWarps != null && newWarpCount + n <= newWarps.Length)
    }

    /** One newWarps[newWarpCount++] = pair: throws when the buffer is missing or full. */
    method Record(pair: (int, int)) returns (r: Result<()>)
      requires BufferValid()
      modifies newWarps, this`newWarpCount
      ensures BufferValid() && newWarps == old(newWarps)
      ensures r.Err? <==> !old(Fits(1))
      ensures r.Err? ==> r.error == (if newWarps == null then NullPointer else IndexOutOfBounds)
      ensures r.Err? ==> newWarpCount == old(newWarpCount) && Pending() == old(Pending())
      ensures r.Ok? ==> newWarpCount == old(newWarpCount) + 1 && Pending() == old(Pending()) + [pair]
    {
      if newWarps == null {
        return Err(NullPointer);
      }
      if newWarpCount == newWarps.Length {
        return Err(IndexOutOfBounds);
      }
      newWarps[newWarpCount] := pair;
      newWarpCount := newWarpCount + 1;
      return Ok(());
    }

    /** One turn of the recording loop: a warp s lacks is recorded. */
    method RecordWarp(s: Sector, w: int) returns (r: Result<()>)
      requires BufferValid()
      modifies newWarps, this`newWarpCount
      ensures BufferValid() && newWarps == old(newWarps)
      ensures r.Err? <==> w !in s.warpsOut && !old(Fits(1))
      ensures r.Ok? ==> Pending() == old(Pending()) + (if w in s.warpsOut then [] else [(s.number, w)])
      ensures r.Ok? ==> newWarpCount == old(newWarpCount) + (if w in s.warpsOut then 0 else 1)
    {
      var has := s.HasWarpTo(w);
      if has {
        assert old(Pending()) + [] == Pending();
        return Ok(());
      }
      r := Record((s.number, w));
    }

    /** RecordNew's loop from warps[..i] to warps[..i + 1], the buffer having held base and count0 before it. */
    method RecordNewAt(s: Sector, warps: seq<int>, i: nat, ghost base: seq<(int, int)>, ghost count0: int)
      returns (r: Result<()>)
      requires BufferValid() && i < |warps|
      requires Pending() == base + NewPairs(s.number, s.warpsOut, warps[..i])
      requires newWarpCount == count0 + |NewPairs(s.number, s.warpsOut, warps[..i])|
      modifies newWarps, this`newWarpCount
      ensures BufferValid() && newWarps == old(newWarps)
      ensures r.Ok? ==> Pending() == base + NewPairs(s.number, s.warpsOut, warps[..i + 1])
      ensures r.Ok? ==> newWarpCount == count0 + |NewPairs(s.number, s.warpsOut, warps[..i + 1])|
      ensures r.Err? ==> (|NewPairs(s.number, s.warpsOut, warps)| > 0 &&
        (newWarps == null || count0 + |NewPairs(s.number, s.warpsOut, warps)| > newWarps.Length))
    {
      r := RecordWarp(s, warps[i]);
      NewPairsStep(s.number, s.warpsOut, warps, i);
      if r.Err? {
        NewPairsPrefix(s.number, s.warpsOut, warps, i + 1);
        return;
      }
      AppendAssoc(base, NewPairs(s.number, s.warpsOut, warps[..i]),
                  if warps[i] in s.warpsOut then [] else [(s.number, warps[i])]);
    }

    /** The recording loop of sectorWarps and cimSectorInfo: every reported warp s lacks is recorded. */
    method RecordNew(s: Sector, warps: seq<int>) returns (r: Result<()>)
      requires BufferValid()
      modifies newWarps, this`newWarpCount
      ensures BufferValid() && newWarps == old(newWarps)
      ensures r.Ok? <==> old(Fits(|NewPairs(s.number, s.warpsOut, warps)|))
      ensures r.Ok? ==> Pending() == old(Pending()) + NewPairs(s.number, s.warpsOut, warps)
    {
      ghost var np := NewPairs(s.number, s.warpsOut, warps);
      for i := 0 to |warps|
        invariant BufferValid() && newWarps == old(newWarps)
        invariant Pending() == old(Pending()) + NewPairs(s.number, s.warpsOut, warps[..i])
        invariant newWarpCount == old(newWarpCount) + |NewPairs(s.number, s.warpsOut, warps[..i])|
      {
        r := RecordNewAt(s, warps, i, old(Pending()), old(newWarpCount));
        if r.Err? {
          return;
        }
      }
      assert warps[..|warps|] == warps;
      return Ok(());
    }

    /**
     * The end of sectorWarps and cimSectorInfo: once anything is pending,
     * the report becomes s's warps out and the pending pairs are reported
     * as WARPS_DISCOVERED.
     */
    method ReportWarps(s: Sector, warps: seq<int>, ghost outs: seq<seq<int>>, ghost ins: seq<seq<int>>)
      returns (r: Result<()>, ghost outs': seq<seq<int>>, ghost ins': seq<seq<int>>)
      requires BufferValid() && db.Holds(outs, ins) && s in db.SectorSet()
      modifies newWarps, this`newWarpCount, this`log, db.SectorSet()
      ensures BufferValid() && db.Holds(outs', ins') && newWarps == old(newWarps) && (old(s.explored) ==> s.explored)
      ensures r.Err? ==> log == old(log)
      ensures var np := NewPairs(s.number, outs[s.number - 1], warps);
        !old(Fits(|np|)) ==> r.Err?
      ensures var np := NewPairs(s.number, outs[s.number - 1], warps);
        old(Fits(|np|)) && np != [] ==> (r.Ok? <==> forall w :: w in warps ==> 1 <= w <= |outs|)
      ensures var pairs := old(Pending()) + NewPairs(s.number, outs[s.number - 1], warps);
        r.Ok? ==> (newWarpCount == 0 &&
          (pairs == [] ==> outs' == outs && ins' == ins && log == old(log)) &&
          (pairs != [] ==> outs' == outs[s.number - 1 := SortSeq(warps)] && log == old(log) + [Discovered(pairs)]))
      ensures MirroredUpTo(outs, ins, |outs|) && r.Ok? ==> MirroredUpTo(outs', ins', |outs'|)
    {
      outs', ins' := outs, ins;
      db.RowOf(s, outs, ins);
      NewReportDiffers(s.number, outs[s.number - 1], warps);
      ghost var pairs := Pending() + NewPairs(s.number, outs[s.number - 1], warps);
      r := RecordNew(s, warps);
      if r.Err? {
        return;
      }
      assert Pending() == pairs;
      if newWarpCount > 0 {
        r, outs', ins' := Publish(s, warps, outs, ins);
      }
    }

    /** sectorWarps: the warps of the sector on display; with no sector on display it throws. */
    method OnSectorWarps(warps: seq<int>, ghost outs: seq<seq<int>>, ghost ins: seq<seq<int>>)
      returns (r: Result<()>, ghost outs': seq<seq<int>>, ghost ins': seq<seq<int>>)
      requires BufferValid() && db.Holds(outs, ins) && (parsingSector != null ==> parsingSector in db.SectorSet())
      modifies newWarps, this`newWarpCount, this`log, db.SectorSet()
      ensures BufferValid() && db.Holds(outs', ins')
      ensures r.Err? ==> log == old(log)
      ensures parsingSector == null ==> (outs' == outs && log == old(log) && newWarpCount == old(newWarpCount) &&
        (r.Err? <==> warps != [] || old(newWarpCount) > 0) && (r.Err? ==> r.error == NullPointer))
      ensures parsingSector != null ==>
        var np := NewPairs(parsingSector.number, outs[parsingSector.number - 1], warps);
        var pairs := old(Pending()) + np;
        (!old(Fits(|np|)) ==> r.Err?) &&
        (old(Fits(|np|)) && np != [] ==> (r.Ok? <==> forall w :: w in warps ==> 1 <= w <= |outs|)) &&
        (r.Ok? ==> (newWarpCount == 0 &&
          (pairs == [] ==> outs' == outs && log == old(log)) &&
          (pairs != [] ==> outs' == outs[parsingSector.number - 1 := SortSeq(warps)] && log == old(log) + [Discovered(pairs)])))
      ensures MirroredUpTo(outs, ins, |outs|) && r.Ok? ==> MirroredUpTo(outs', ins', |outs'|)
    {
      outs', ins' := outs, ins;
      if parsingSector == null {
        if warps != [] || newWarpCount > 0 {
          return Err(NullPointer), outs, ins;
        }
        return Ok(()), outs, ins;
      }
      var s := parsingSector;
      r, outs', ins' := ReportWarps(s, warps, outs, ins);
      assert s == parsingSector;
    }

    /**
     * cimSectorInfo: a sector number followed by its warps. The sector is
     * explored from now on (SECTOR_UPDATED the first time), then its warps
     * are reported as for sectorWarps.
     */
    method OnCimSectorInfo(numbers: seq<int>, ghost outs: seq<seq<int>>, ghost ins: seq<seq<int>>)
      returns (r: Result<()>, ghost outs': seq<seq<int>>, ghost ins': seq<seq<int>>)
      requires BufferValid() && db.Holds(outs, ins)
      modifies newWarps, this`newWarpCount, this`log, db.SectorSet()
      ensures BufferValid() && db.Holds(outs', ins')
      ensures |numbers| == 0 || !(1 <= numbers[0] <= |outs|) ==> r == Err(IndexOutOfBounds) && outs' == outs && log == old(log)
      ensures |numbers| > 0 && 1 <= numbers[0] <= |outs| ==>
        WarpsReported(db.sectors[numbers[0] - 1], numbers[1..], outs, outs', r)
      ensures MirroredUpTo(outs, ins, |outs|) && r.Ok? ==> MirroredUpTo(outs', ins', |outs'|)
    {
      outs', ins' := outs, ins;
      if |numbers| == 0 {
        return Err(IndexOutOfBounds), outs, ins;
      }
      var sector := db.GetSector(numbers[0]);
      if sector.Err? {
        return Err(sector.error), outs, ins;
      }
      db.RowOf(sector.value, outs, ins);
      assert sector.value.number == numbers[0] && db.sectors[numbers[0] - 1] == sector.value;
      r, outs', ins' := ExploreAndReport(sector.value, numbers[1..], outs, ins);
    }

    /**
     * The outcome of cimSectorInfo on sector s reporting warps, the warp lists
     * going from outs to outs': s is explored, with SECTOR_UPDATED the first
     * time; a report whose new pairs do not fit the buffer throws; otherwise
     * it throws exactly when a reported warp is outside the map, and on
     * success the pending pairs are reported as WARPS_DISCOVERED and s takes
     * the report, sorted, as its warps out.
     */
    twostate predicate WarpsReported(s: Sector, warps: seq<int>, outs: seq<seq<int>>, outs': seq<seq<int>>, new r: Result<()>)
      reads this, s
      requires old(BufferValid()) && 1 <= s.number <= |outs|
    {
      var explored := if old(s.explored) then [] else [Changed(SectorUpdated, None, s.number)];
      var np := NewPairs(s.number, outs[s.number - 1], warps);
      var pairs := old(Pending()) + np;
      s.explored &&
      (r.Err? ==> log == old(log) + explored) &&
      (!old(Fits(|np|)) ==> r.Err?) &&
      (old(Fits(|np|)) && np != [] ==> (r.Ok? <==> forall w :: w in warps ==> 1 <= w <= |outs|)) &&
      (r.Ok? ==> (newWarpCount == 0 &&
        (pairs == [] ==> outs' == outs && log == old(log) + explored) &&
        (pairs != [] ==> outs' == outs[s.number - 1 := SortSeq(warps)] && log == old(log) + explored + [Discovered(pairs)])))
    }

    /** cimSectorInfo once its sector is found. */
    method ExploreAndReport(s: Sector, warps: seq<int>, ghost outs: seq<seq<int>>, ghost ins: seq<seq<int>>)
      returns (r: Result<()>, ghost outs': seq<seq<int>>, ghost ins': seq<seq<int>>)
      requires BufferValid() && db.Holds(outs, ins) && s in db.SectorSet()
      modifies newWarps, this`newWarpCount, this`log, db.SectorSet()
      ensures BufferValid() && db.Holds(outs', ins')
      ensures WarpsReported(s, warps, outs, outs', r)
      ensures MirroredUpTo(outs, ins, |outs|) && r.Ok? ==> MirroredUpTo(outs', ins', |outs'|)
    {
      Explore(s, outs, ins);
      r, outs', ins' := ReportWarps(s, warps, outs, ins);
    }

    /** The sector is explored from now on, with SECTOR_UPDATED the first time. */
    method Explore(s: Sector, ghost outs: seq<seq<int>>, ghost ins: seq<seq<int>>)
      requires db.Holds(outs, ins) && s in db.SectorSet()
      modifies s, this`log
      ensures db.Holds(outs, ins) && s.explored && s.port == old(s.port) && s.holoDate == old(s.holoDate)
      ensures log == old(log) + if old(s.explored) then [] else [Changed(SectorUpdated, None, s.number)]
    {
      if !s.explored {
        s.explored := true;
        log := log + [Changed(SectorUpdated, None, s.number)];
      }
    }

    /**
     * cimCoursePlot: every hop of the course becomes a warp of its first
     * sector, and a hop that sector did not list is recorded; COURSE_PLOT
     * fires with the course, then the recorded pairs are reported. `found`
     * is what this course recorded.
     */
    method OnCimCoursePlot(course: seq<int>, ghost outs: seq<seq<int>>, ghost ins: seq<seq<int>>)
      returns (r: Result<()>, ghost outs': seq<seq<int>>, ghost ins': seq<seq<int>>, ghost found: seq<(int, int)>)
      requires BufferValid() && db.Holds(outs, ins)
      modifies newWarps, this`newWarpCount, this`log, db.SectorSet()
      ensures BufferValid() && db.Holds(outs', ins') && Grows(outs, outs')
      ensures Fresh(course, outs, found)
      ensures (forall i :: 0 <= i < |course| ==> 1 <= course[i] <= |outs|) && old(Fits(|Steps(course)|)) ==> r.Ok?
      ensures r.Ok? ==> Covered(course, |course| - 1, outs', found)
      ensures r.Ok? ==> (newWarpCount == 0 &&
        log == old(log) + [Fired(CoursePlot, course)] + (if old(Pending()) + found == [] then [] else [Discovered(old(Pending()) + found)]))
      ensures r.Err? ==> log == old(log)
      ensures MirroredUpTo(outs, ins, |outs|) && r.Ok? ==> MirroredUpTo(outs', ins', |outs'|)
    {
      r, outs', ins', found := PlotHops(course, outs, ins);
      if r.Err? {
        return;
      }
      log := log + [Fired(CoursePlot, course)];
      if newWarpCount > 0 {
        log := log + [Discovered(newWarps[..newWarpCount])];
        newWarpCount := 0;
      }
    }

    /** The loop of cimCoursePlot: its hops one by one, stopping at the first that throws. */
    method PlotHops(course: seq<int>, ghost outs: seq<seq<int>>, ghost ins: seq<seq<int>>)
      returns (r: Result<()>, ghost outs': seq<seq<int>>, ghost ins': seq<seq<int>>, ghost found: seq<(int, int)>)
      requires BufferValid() && db.Holds(outs, ins)
      modifies newWarps, this`newWarpCount, db.SectorSet()
      ensures BufferValid() && db.Holds(outs', ins') && Grows(outs, outs') && newWarps == old(newWarps)
      ensures Fresh(course, outs, found)
      ensures (forall i :: 0 <= i < |course| ==> 1 <= course[i] <= |outs|) && old(Fits(|Steps(course)|)) ==> r.Ok?
      ensures r.Ok? ==> Covered(course, |course| - 1, outs', found) && Pending() == old(Pending()) + found
      ensures MirroredUpTo(outs, ins, |outs|) && r.Ok? ==> MirroredUpTo(outs', ins', |outs'|)
    {
      outs', ins', found := outs, ins, [];
      ghost var pending := Pending();
      var i := 0;
      while i < |course| - 1
        invariant 0 <= i <= |Steps(course)|
        invariant BufferValid() && db.Holds(outs', ins') && newWarps == old(newWarps) && Grows(outs, outs')
        invariant Pending() == pending + found && |found| <= i
        invariant Fresh(course, outs, found) && Covered(course, i, outs', found)
        invariant (forall j :: 0 <= j < |course| ==> 1 <= course[j] <= |outs|) && old(Fits(|Steps(course)|)) ==> Fits(|Steps(course)| - i)
        invariant MirroredUpTo(outs, ins, |outs|) ==> MirroredUpTo(outs', ins', |outs'|)
      {
        ghost var before, found0 := outs', found;
        var recorded;
        r, outs', ins', recorded := CourseStep(course, i, before, ins');
        GrowsTrans(outs, before, outs');
        if r.Err? {
          return;
        }
        if recorded {
          found := found + [(course[i], course[i + 1])];
          AppendAssoc(pending, found0, [(course[i], course[i + 1])]);
        } else {
          AppendAssoc(pending, found0, []);
        }
        HopAccounted(course, i, outs, before, outs', found0, found, recorded);
        i := i + 1;
      }
      r := Ok(());
    }

    /** Hop i of the course: getSector on its start, then the hop. */
    method CourseStep(course: seq<int>, i: int, ghost now: seq<seq<int>>, ghost ins: seq<seq<int>>)
      returns (r: Result<()>, ghost now': seq<seq<int>>, ghost ins': seq<seq<int>>, recorded: bool)
      requires 0 <= i && i + 1 < |course|
      requires BufferValid() && db.Holds(now, ins)
      modifies newWarps, this`newWarpCount, db.SectorSet()
      ensures BufferValid() && db.Holds(now', ins') && newWarps == old(newWarps) && Grows(now, now')
      ensures newWarpCount == old(newWarpCount) + (if recorded then 1 else 0)
      ensures Pending() == old(Pending()) + (if recorded then [(course[i], course[i + 1])] else [])
      ensures (1 <= course[i] <= |now| && 1 <= course[i + 1] <= |now|) && old(Fits(1)) ==> r.Ok?
      ensures recorded ==> r.Ok?
      ensures r.Ok? ==> (1 <= course[i] <= |now| &&
        (recorded ==> course[i + 1] !in now[course[i] - 1]) && (!recorded ==> course[i + 1] in now'[course[i] - 1]))
      ensures MirroredUpTo(now, ins, |now|) && r.Ok? ==> MirroredUpTo(now', ins', |now'|)
    {
      now', ins', recorded := now, ins, false;
      var s := db.GetSector(course[i]);
      if s.Err? {
        return Err(s.error), now', ins', false;
      }
      r, now', ins', recorded := Hop(s.value, course[i + 1], now, ins);
    }

    /** One hop s -> t of a plotted course: addWarpTo, and a record of the pair when s did not list t. */
    method Hop(s: Sector, t: int, ghost outs: seq<seq<int>>, ghost ins: seq<seq<int>>)
      returns (r: Result<()>, ghost outs': seq<seq<int>>, ghost ins': seq<seq<int>>, recorded: bool)
      requires BufferValid() && db.Holds(outs, ins) && s in db.SectorSet()
      modifies newWarps, this`newWarpCount, db.SectorSet()
      ensures BufferValid() && db.Holds(outs', ins') && newWarps == old(newWarps) && |outs'| == |outs|
      ensures Grows(outs, outs')
      ensures Pending() == old(Pending()) + (if recorded then [(s.number, t)] else [])
      ensures newWarpCount == old(newWarpCount) + (if recorded then 1 else 0)
      ensures recorded ==> r.Ok? && t !in outs[s.number - 1]
      ensures r.Ok? && !recorded ==> t in outs[s.number - 1]
      ensures r.Ok? ==> t in outs'[s.number - 1] || recorded
      ensures (t in outs[s.number - 1] || 1 <= t <= |outs|) && old(Fits(1)) ==> r.Ok?
      ensures MirroredUpTo(outs, ins, |outs|) && r.Ok? ==> MirroredUpTo(outs', ins', |outs'|)
    {
      db.RowOf(s, outs, ins);
      outs', ins', recorded := outs, ins, false;
      var has := s.HasWarpTo(t);
      if has {
        return Ok(()), outs, ins, false;
      }
      r, outs', ins' := Extend(s, t, outs, ins);
      if r.Err? {
        return;
      }
      r := RecordBeside((s.number, t), outs', ins');
      recorded := r.Ok?;
    }

    /** addWarpTo seen from a course: the warp lists only grow, and only a target outside the array throws. */
    method Extend(s: Sector, t: int, ghost outs: seq<seq<int>>, ghost ins: seq<seq<int>>)
      returns (r: Result<()>, ghost outs': seq<seq<int>>, ghost ins': seq<seq<int>>)
      requires db.Holds(outs, ins) && s in db.SectorSet()
      modifies db.SectorSet()
      ensures db.Holds(outs', ins') && |outs'| == |outs|
      ensures Grows(outs, outs')
      ensures r.Err? ==> t !in outs[s.number - 1] && !(1 <= t <= |outs|)
      ensures MirroredUpTo(outs, ins, |outs|) && r.Ok? ==> MirroredUpTo(outs', ins', |outs'|)
    {
      db.RowOf(s, outs, ins);
      r, outs', ins' := db.AddWarpTo(s, t, outs, ins);
      GrowsByRow(outs, s.number - 1, outs'[s.number - 1]);
    }

    /** Record, seen from the database: the warp lists stay as they are. */
    method RecordBeside(pair: (int, int), ghost outs: seq<seq<int>>, ghost ins: seq<seq<int>>) returns (r: Result<()>)
      requires BufferValid() && db.Holds(outs, ins)
      modifies newWarps, this`newWarpCount
      ensures BufferValid() && db.Holds(outs, ins) && newWarps == old(newWarps)
      ensures r.Err? <==> !old(Fits(1))
      ensures r.Err? ==> Pending() == old(Pending()) && newWarpCount == old(newWarpCount)
      ensures r.Ok? ==> Pending() == old(Pending()) + [pair] && newWarpCount == old(newWarpCount) + 1
    {
      r := Record(pair);
    }

    /** s takes the report as its warps out, then the pending pairs are reported and forgotten. */
    method Publish(s: Sector, warps: seq<int>, ghost outs: seq<seq<int>>, ghost ins: seq<seq<int>>)
      returns (r: Result<()>, ghost outs': seq<seq<int>>, ghost ins': seq<seq<int>>)
      requires BufferValid() && newWarpCount > 0 && db.Holds(outs, ins) && s in db.SectorSet()
      modifies this`log, this`newWarpCount, db.SectorSet()
      ensures BufferValid() && db.Holds(outs', ins') && (old(s.explored) ==> s.explored)
      ensures old(s.warpsOut) != SortSeq(warps) ==> (r.Ok? <==> forall w :: w in warps ==> 1 <= w <= |outs|)
      ensures r.Err? ==> log == old(log) && newWarpCount == old(newWarpCount)
      ensures r.Ok? ==> newWarpCount == 0 && outs' == outs[s.number - 1 := SortSeq(warps)] && log == old(log) + [Discovered(old(Pending()))]
      ensures MirroredUpTo(outs, ins, |outs|) && r.Ok? ==> MirroredUpTo(outs', ins', |outs'|)
    {
      db.RowOf(s, outs, ins);
      r, outs', ins' := db.SetWarpsOut(s, warps, outs, ins);
      if r.Err? {
        return;
      }
      Flush(outs', ins');
    }

    /** The pending pairs are reported with DISCOVERED and the buffer emptied. */
    method Flush(ghost outs: seq<seq<int>>, ghost ins: seq<seq<int>>)
      requires BufferValid() && newWarpCount > 0 && db.Holds(outs, ins)
      modifies this`log, this`newWarpCount
      ensures BufferValid() && db.Holds(outs, ins) && newWarpCount == 0
      ensures log == old(log) + [Discovered(old(Pending()))]
    {
      log := log + [Discovered(newWarps[..newWarpCount])];
      newWarpCount := 0;
    }
    // -- arriving in a sector ----------------------------------------------

    /** Your ship's cargo, all zero while there is no ship. */
    ghost function YourCargo(): seq<int>
      reads db.you, db.you.ship
      reads if db.you.ship == null then {} else {db.you.ship.details}
      reads if db.you.ship == null || db.you.ship.details == null then {} else {db.you.ship.details.cargo}
      requires db.you.ship != null ==> db.you.ship.Valid()
    {
      if db.you.ship == null then [0, 0, 0, 0] else db.you.ship.GetCargo()
    }

    /** The turns per warp of your ship's type, when there is a ship with a type. */
    ghost function YourTurnsPerWarp(): Option<int>
      reads db.you, db.you.ship
      reads if db.you.ship == null || db.you.ship.shipType == null then {} else {db.you.ship.shipType}
    {
      if db.you.ship == null || db.you.ship.shipType == null then None
      else Some(db.you.ship.shipType.value.turnsPerWarp)
    }

    /** Everything of your ship that an arrival may change. */
    ghost function ShipFrame(): (r: set<object>)
      reads db.you, db.you.ship
      ensures forall o :: o in r ==> !(o is Sector) && !(o is array<Sector>)
    {
      if db.you.ship == null then {}
      else if db.you.ship.details == null then {db.you.ship}
      else {db.you.ship, db.you.ship.details, db.you.ship.details.cargo}
    }

    /**
     * sectorHeader: the sector is explored and holo-scanned now; when a move
     * is under way it ends here, and if this sector was its target you
     * arrive: your location, your turns and, after a transwarp, your fuel
     * ore change, each with its notice. Any other sector is only logged by
     * the source, and the move is forgotten either way.
     */
    method OnSectorHeader(sector: int, now: Date, ghost outs: seq<seq<int>>, ghost ins: seq<seq<int>>) returns (r: Result<()>)
      requires db.Holds(outs, ins) && db.you.isYou && (db.you.ship != null ==> db.you.ship.Valid())
      modifies this`parsingSector, this`moveMode, this`log, db.SectorSet(), db.you, ShipFrame()
      ensures db.Holds(outs, ins)
      ensures r.Err? <==> !(1 <= sector <= |outs|)
      ensures r.Err? ==> r == Err(IndexOutOfBounds) && parsingSector == old(parsingSector) && moveMode == old(moveMode) && log == old(log)
      ensures r.Ok? ==> parsingSector == db.sectors[sector - 1] && parsingSector.explored && parsingSector.holoDate == Some(now) && moveMode == None
      ensures db.you.ship != null ==> db.you.ship.Valid()
      ensures r.Ok? && old(moveMode).Some? && old(moveTarget) == sector ==>
        var cost := WarpCost(old(moveMode).value, old(YourTurnsPerWarp()));
        var ore := old(YourCargo())[FUEL_ORE];
        db.you.GetSector() == Some(sector) &&
        db.you.turns == (if cost.Some? then old(db.you.turns) - cost.value else old(db.you.turns)) &&
        YourCargo() == (if old(moveMode) == Some(TWarp) then old(YourCargo())[FUEL_ORE := ore - moveDistance * 3] else old(YourCargo())) &&
        log == old(log) + ArrivalNotices(old(moveMode).value, old(db.you.GetSectorNumber()), sector, old(db.you.turns), cost, ore, moveDistance)
      ensures !(r.Ok? && old(moveMode).Some? && old(moveTarget) == sector) ==>
        log == old(log) && db.you.turns == old(db.you.turns) && db.you.ship == old(db.you.ship) && YourCargo() == old(YourCargo())
    {
      var s := db.GetSector(sector);
      if s.Err? {
        return Err(s.error);
      }
      parsingSector := s.value;
      Enter(s.value, now, outs, ins);
      EndMove(sector, outs, ins);
      return Ok(());
    }

    /** The movement half of sectorHeader: a move under way ends, arriving when this sector was its target. */
    method EndMove(sector: int, ghost outs: seq<seq<int>>, ghost ins: seq<seq<int>>)
      requires db.Holds(outs, ins) && db.you.isYou && (db.you.ship != null ==> db.you.ship.Valid())
      modifies this`moveMode, this`log, db.you, ShipFrame()
      ensures db.Holds(outs, ins) && moveMode == None && (db.you.ship != null ==> db.you.ship.Valid())
      ensures old(moveMode).Some? && old(moveTarget) == sector ==>
        var cost := WarpCost(old(moveMode).value, old(YourTurnsPerWarp()));
        var ore := old(YourCargo())[FUEL_ORE];
        db.you.GetSector() == Some(sector) &&
        db.you.turns == (if cost.Some? then old(db.you.turns) - cost.value else old(db.you.turns)) &&
        YourCargo() == (if old(moveMode) == Some(TWarp) then old(YourCargo())[FUEL_ORE := ore - moveDistance * 3] else old(YourCargo())) &&
        log == old(log) + ArrivalNotices(old(moveMode).value, old(db.you.GetSectorNumber()), sector, old(db.you.turns), cost, ore, moveDistance)
      ensures !(old(moveMode).Some? && old(moveTarget) == sector) ==>
        log == old(log) && db.you.turns == old(db.you.turns) && db.you.ship == old(db.you.ship) && YourCargo() == old(YourCargo())
    {
      if moveMode.Some? {
        if moveTarget == sector {
          Arrive(sector);
          assert db.Holds(outs, ins);
        }
        moveMode := None;
      }
    }

    /** setExplored(true) and setHoloDate(now): the warp lists stay as they are. */
    method Enter(s: Sector, now: Date, ghost outs: seq<seq<int>>, ghost ins: seq<seq<int>>)
      requires db.Holds(outs, ins) && s in db.SectorSet()
      modifies s
      ensures db.Holds(outs, ins) && s.explored && s.holoDate == Some(now) && s.port == old(s.port)
    {
      s.explored := true;
      s.holoDate := Some(now);
    }

    /** The arrival half of sectorHeader, for the mode of the move under way. */
    method Arrive(sector: int)
      requires moveMode.Some? && db.you.isYou && (db.you.ship != null ==> db.you.ship.Valid())
      modifies this`log, db.you, ShipFrame()
      ensures db.you.ship != null && db.you.ship.Valid() && db.you.GetSector() == Some(sector)
      ensures var cost := WarpCost(moveMode.value, old(YourTurnsPerWarp()));
        var ore := old(YourCargo())[FUEL_ORE];
        db.you.turns == (if cost.Some? then old(db.you.turns) - cost.value else old(db.you.turns)) &&
        YourCargo() == (if moveMode == Some(TWarp) then old(YourCargo())[FUEL_ORE := ore - moveDistance * 3] else old(YourCargo())) &&
        log == old(log) + ArrivalNotices(moveMode.value, old(db.you.GetSectorNumber()), sector, old(db.you.turns), cost, ore, moveDistance)
    {
      ghost var notices := log + [Changed(ShipSector, Some(db.you.GetSectorNumber()), sector)];
      MoveYou(sector);
      assert log == notices;
      ChargeTurns();
      if moveMode == Some(TWarp) {
        BurnOre();
      }
    }

    /** you.setSector(sector) and SHIP_SECTOR from the old location number. */
    method MoveYou(sector: int)
      requires db.you.ship != null ==> db.you.ship.Valid()
      modifies this`log, db.you, ShipFrame()
      ensures db.you.ship != null && db.you.ship.Valid() && db.you.GetSector() == Some(sector)
      ensures db.you.turns == old(db.you.turns) && YourCargo() == old(YourCargo()) && YourTurnsPerWarp() == old(YourTurnsPerWarp())
      ensures old(db.you.ship) != null ==> ShipFrame() == old(ShipFrame())
      ensures old(db.you.ship) == null ==> fresh(db.you.ship) && db.you.ship.details == null
      ensures log == old(log) + [Changed(ShipSector, Some(old(db.you.GetSectorNumber())), sector)]
    {
      var oldSector := db.you.GetSectorNumber();
      db.you.SetSector(sector);
      log := log + [Changed(ShipSector, Some(oldSector), sector)];
    }

    /** The turn deduction of an arrival, with YOU_TURNS whenever turns were deducted. */
    method ChargeTurns()
      requires moveMode.Some? && db.you.isYou && db.you.ship != null && db.you.ship.Valid()
      modifies this`log, db.you
      ensures db.you.ship == old(db.you.ship) && db.you.ship.Valid() && db.you.GetSector() == old(db.you.GetSector())
      ensures ShipFrame() == old(ShipFrame()) && YourCargo() == old(YourCargo())
      ensures var cost := WarpCost(moveMode.value, YourTurnsPerWarp());
        db.you.turns == (if cost.Some? then old(db.you.turns) - cost.value else old(db.you.turns)) &&
        log == old(log) + (if cost.Some? then [Changed(YouTurns, Some(old(db.you.turns)), old(db.you.turns) - cost.value)] else [])
    {
      var ship := db.you.ship;
      var oldTurns := db.you.turns;
      if moveMode == Some(BWarp) {
        db.you.SetTurns(oldTurns - 1);
        log := log + [Changed(YouTurns, Some(oldTurns), oldTurns - 1)];
      } else if ship.shipType != null {
        var turnsPerWarp := ship.shipType.value.turnsPerWarp;
        if turnsPerWarp != UNKNOWN {
          db.you.SetTurns(oldTurns - turnsPerWarp);
          log := log + [Changed(YouTurns, Some(oldTurns), oldTurns - turnsPerWarp)];
        }
      }
    }

    /** A transwarp burns three fuel ore per hop, with SHIP_CARGO for the new amount. */
    method BurnOre()
      requires db.you.ship != null && db.you.ship.Valid()
      modifies this`log, ShipFrame()
      ensures db.you.ship != null && db.you.ship.Valid() && db.you.GetSector() == old(db.you.GetSector())
      ensures var ore := old(YourCargo())[FUEL_ORE];
        YourCargo() == old(YourCargo())[FUEL_ORE := ore - moveDistance * 3] &&
        log == old(log) + [Changed(ShipCargo, Some(FUEL_ORE), ore - moveDistance * 3)]
    {
      var ship := db.you.ship;
      var oldOre := ship.GetCargoItem(FUEL_ORE);
      var newOre := oldOre.value - moveDistance * 3;
      var _ := ship.SetCargo(FUEL_ORE, newOre);
      log := log + [Changed(ShipCargo, Some(FUEL_ORE), newOre)];
    }

    // -- ports of sectors -----------------------------------------------------

    /** The ports of the database's sectors. */
    ghost function Ports(): set<Port>
      reads db`sectors, db.sectors, db.SectorSet()
    {
      if db.sectors == null then {} else set k | 0 <= k < db.sectors.Length && db.sectors[k].port != null :: db.sectors[k].port
    }

    /** Every port sits in the sector it names and holds its three readings. */
    ghost predicate PortsPlaced()
      reads db`sectors, db.sectors, db.SectorSet(), Ports()
    {
      db.sectors != null ==>
        forall k :: 0 <= k < db.sectors.Length && db.sectors[k].port != null ==>
          db.sectors[k].port.sector == k + 1 && db.sectors[k].port.Valid()
    }

    /** setPort: s takes p, which names s; the warp lists stay as they are. */
    method Attach(s: Sector, p: Port, ghost outs: seq<seq<int>>, ghost ins: seq<seq<int>>)
      requires db.Holds(outs, ins) && s in db.SectorSet() && PortsPlaced() && p.sector == s.number && p.Valid()
      modifies s
      ensures db.Holds(outs, ins) && PortsPlaced() && s.port == p && s.explored == old(s.explored)
    {
      db.RowOf(s, outs, ins);
      s.port := p;
    }

    /**
     * sectorPort: the port line of a sector display. A sector seen without a
     * port gets one, Stardock for class 9 and otherwise a port of the shown
     * class; class 0 files the sector among the class 0 ports, class 9 makes
     * it the Stardock sector and turns a plain port into Stardock (which
     * forgets its name); finally the name is set once. Without a sector
     * display before it the source throws.
     */
    method OnSectorPort(name: string, portClass: int, ghost outs: seq<seq<int>>, ghost ins: seq<seq<int>>) returns (r: Result<()>)
      requires db.Holds(outs, ins) && db.IndexesValid() && PortsPlaced()
      requires parsingSector != null ==> parsingSector in db.SectorSet()
      modifies db, if parsingSector == null then {} else {parsingSector}
      modifies if parsingSector == null || parsingSector.port == null then {} else {parsingSector.port}
      ensures db.Holds(outs, ins) && db.IndexesValid() && PortsPlaced()
      ensures r.Err? <==> parsingSector == null
      ensures r.Err? ==> r == Err(NullPointer) && db.Snapshot() == old(db.Snapshot())
      ensures r.Ok? ==>
        var p := parsingSector.port;
        var kept := old(parsingSector.port) != null && (portClass != 9 || old(parsingSector.port.GetPortClass()) == 9);
        p != null && p.sector == parsingSector.number &&
        (kept ==> p == old(parsingSector.port) && p.tradingClass == old(p.tradingClass) &&
                  p.name == (if old(p.name).None? then Some(name) else old(p.name))) &&
        (!kept ==> fresh(p) && p.name == Some(name)) &&
        (old(parsingSector.port) == null && portClass != 9 ==> !p.isStardock && p.tradingClass == portClass) &&
        (portClass == 9 ==> p.GetPortClass() == 9) &&
        db.Snapshot() == old(db.Snapshot()).(
          stardockSector := if portClass == 9 then parsingSector.number else old(db.stardockSector),
          zeroSectors := if portClass != 0 || parsingSector.number in old(db.zeroSectors) then old(db.zeroSectors)
                         else old(db.zeroSectors) + [parsingSector.number])
      ensures r.Ok? && old(parsingSector.port) != null && portClass == 9 && old(parsingSector.port.GetPortClass()) != 9 ==>
        parsingSector.port.tradingClass == old(parsingSector.port.tradingClass) &&
        parsingSector.port.reportDate == old(parsingSector.port.reportDate) &&
        parsingSector.port.levels[..] == old(parsingSector.port.levels[..]) &&
        parsingSector.port.percents[..] == old(parsingSector.port.percents[..]) &&
        parsingSector.port.capacities[..] == old(parsingSector.port.capacities[..])
    {
      var s := parsingSector;
      if s == null {
        return Err(NullPointer);
      }
      ClassifyPort(s, portClass, outs, ins);
      NamePort(s, name, outs, ins);
      return Ok(());
    }

    /** sectorPort up to the name: the port placed, the class 0 and Stardock indexes filed, Stardock converted. */
    method ClassifyPort(s: Sector, portClass: int, ghost outs: seq<seq<int>>, ghost ins: seq<seq<int>>)
      requires db.Holds(outs, ins) && db.IndexesValid() && PortsPlaced() && s in db.SectorSet()
      modifies db, s
      ensures db.Holds(outs, ins) && db.IndexesValid() && PortsPlaced() && s in db.SectorSet()
      ensures var p := s.port;
        var kept := old(s.port) != null && (portClass != 9 || old(s.port.GetPortClass()) == 9);
        p != null && p.sector == s.number &&
        (kept ==> p == old(s.port)) &&
        (!kept ==> fresh(p) && p.name == None) &&
        (old(s.port) == null && portClass != 9 ==> !p.isStardock && p.tradingClass == portClass) &&
        (portClass == 9 ==> p.GetPortClass() == 9) &&
        db.Snapshot() == old(db.Snapshot()).(
          stardockSector := if portClass == 9 then s.number else old(db.stardockSector),
          zeroSectors := if portClass != 0 || s.number in old(db.zeroSectors) then old(db.zeroSectors)
                         else old(db.zeroSectors) + [s.number])
      ensures old(s.port) != null && portClass == 9 && old(s.port.GetPortClass()) != 9 ==>
        s.port.tradingClass == old(s.port.tradingClass) && s.port.reportDate == old(s.port.reportDate) &&
        s.port.levels[..] == old(s.port.levels[..]) && s.port.percents[..] == old(s.port.percents[..]) &&
        s.port.capacities[..] == old(s.port.capacities[..])
    {
      var p := PlacePort(s, portClass, outs, ins);
      if portClass == 0 {
        FileZero(s.number, outs, ins);
      } else if portClass == 9 {
        FileStardock(s.number, outs, ins);
        if p.GetPortClass() != 9 {
          ConvertStardock(s, outs, ins);
        }
      }
    }

    /** The port of s replaced by a Stardock made from it: the same class, readings and report date, no name. */
    method ConvertStardock(s: Sector, ghost outs: seq<seq<int>>, ghost ins: seq<seq<int>>)
      requires db.Holds(outs, ins) && PortsPlaced() && s in db.SectorSet() && s.port != null
      modifies s
      ensures db.Holds(outs, ins) && PortsPlaced()
      ensures var p := s.port;
        fresh(p) && p.sector == s.number && p.name == None && p.GetPortClass() == 9 &&
        p.tradingClass == old(s.port.tradingClass) && p.reportDate == old(s.port.reportDate) &&
        p.levels[..] == old(s.port.levels[..]) && p.percents[..] == old(s.port.percents[..]) &&
        p.capacities[..] == old(s.port.capacities[..])
    {
      db.RowOf(s, outs, ins);
      var p := new Port.StardockFrom(s.port);
      Attach(s, p, outs, ins);
    }

    /** addZeroSector, seen from the sectors: they and their ports stay as they are. */
    method FileZero(n: int, ghost outs: seq<seq<int>>, ghost ins: seq<seq<int>>)
      requires db.Holds(outs, ins) && db.IndexesValid() && PortsPlaced()
      modifies db
      ensures db.Holds(outs, ins) && db.IndexesValid() && PortsPlaced()
      ensures db.Snapshot() == old(db.Snapshot()).(zeroSectors := if n in old(db.zeroSectors) then old(db.zeroSectors) else old(db.zeroSectors) + [n])
      ensures db.sectors == old(db.sectors)
    {
      db.AddZeroSector(n);
    }

    /** setStardockSector, seen from the sectors: they and their ports stay as they are. */
    method FileStardock(n: int, ghost outs: seq<seq<int>>, ghost ins: seq<seq<int>>)
      requires db.Holds(outs, ins) && db.IndexesValid() && PortsPlaced()
      modifies db
      ensures db.Holds(outs, ins) && db.IndexesValid() && PortsPlaced()
      ensures db.Snapshot() == old(db.Snapshot()).(stardockSector := n)
      ensures db.sectors == old(db.sectors)
    {
      db.SetStardockSector(n);
    }

    /** setName on the port of s: write-once, and nothing else of any sector or port changes. */
    method NamePort(s: Sector, name: string, ghost outs: seq<seq<int>>, ghost ins: seq<seq<int>>)
      requires db.Holds(outs, ins) && db.IndexesValid() && PortsPlaced() && s in db.SectorSet() && s.port != null
      modifies s.port
      ensures db.Holds(outs, ins) && db.IndexesValid() && PortsPlaced()
      ensures s.port.name == if old(s.port.name) == None then Some(name) else old(s.port.name)
      ensures s.port.tradingClass == old(s.port.tradingClass) && s.port.reportDate == old(s.port.reportDate)
    {
      s.port.SetName(name);
    }

    /** The first half of sectorPort: the sector's port, created for a sector seen without one. */
    method PlacePort(s: Sector, portClass: int, ghost outs: seq<seq<int>>, ghost ins: seq<seq<int>>) returns (p: Port)
      requires db.Holds(outs, ins) && s in db.SectorSet() && PortsPlaced()
      modifies s
      ensures db.Holds(outs, ins) && PortsPlaced() && s.port == p && p.sector == s.number
      ensures old(s.port) != null ==> p == old(s.port)
      ensures old(s.port) == null ==> (fresh(p) && fresh(p.levels) && fresh(p.percents) && fresh(p.capacities) &&
        p.name == None && (portClass == 9 ==> p.isStardock) && (portClass != 9 ==> !p.isStardock && p.tradingClass == portClass))
    {
      db.RowOf(s, outs, ins);
      if s.port != null {
        return s.port;
      }
      if portClass == 9 {
        p := new Port.Stardock(s.number);
      } else {
        p := new Port(s.number);
        p.SetTradingClass(portClass);
      }
      Attach(s, p, outs, ins);
    }

    // -- CIM port reports ------------------------------------------------------

    /** A port's class and status; None for no port. */
    ghost function StateOf(p: Port?): Option<PortState>
      reads if p == null then {} else {p}
    {
      if p == null then None else Some(PortState(p.tradingClass, p.status, p.statusDate))
    }

    /** The state of every sector's port, sector k+1's at index k. */
    ghost function PortStates(): (r: seq<Option<PortState>>)
      requires db.sectors != null
      reads db`sectors, db.sectors, db.SectorSet(), Ports()
      ensures |r| == db.sectors.Length && forall k :: 0 <= k < |r| ==> r[k] == StateOf(db.sectors[k].port)
    {
      var a: array<Sector> := db.sectors;
      seq(a.Length, k requires 0 <= k < a.Length reads a, a[..], (if 0 <= k < a.Length && a[k].port != null then {a[k].port} else {}) => StateOf(a[k].port))
    }

    /** The body of a blocking loop of cimPortInfo for one sector: a port of a class other than 0 is blocked. */
    method SkipSector(s: Sector, now: Date, ghost outs: seq<seq<int>>, ghost ins: seq<seq<int>>)
      requires db.Holds(outs, ins) && PortsPlaced() && s in db.SectorSet()
      modifies if s.port == null then {} else {s.port}
      ensures db.Holds(outs, ins) && PortsPlaced()
      ensures PortStates() == old(PortStates())[s.number - 1 := Skip(old(PortStates())[s.number - 1], now)]
    {
      db.RowOf(s, outs, ins);
      if s.port != null && s.port.tradingClass != 0 {
        s.port.SetStatus(Blocked, now);
      }
    }

    /** A blocking loop of cimPortInfo: sectors lo..hi-1, stopping at the first that getSector throws for. */
    method SkipPorts(lo: int, hi: int, now: Date, ghost outs: seq<seq<int>>, ghost ins: seq<seq<int>>) returns (r: Result<()>)
      requires 1 <= lo && db.Holds(outs, ins) && PortsPlaced()
      modifies Ports()
      ensures db.Holds(outs, ins) && PortsPlaced()
      ensures r.Err? <==> lo < hi && hi - 1 > |outs|
      ensures r.Err? ==> r == Err(IndexOutOfBounds)
      ensures PortStates() == SkipRange(old(PortStates()), lo, hi, now)
    {
      ghost var ps := PortStates();
      var t := lo;
      while t < hi
        invariant lo <= t <= (if lo < hi then hi else lo) && (lo < t ==> t - 1 <= |outs|)
        invariant db.Holds(outs, ins) && PortsPlaced() && Ports() == old(Ports())
        invariant PortStates() == SkipRange(ps, lo, t, now)
      {
        r := SkipAt(t, lo, ps, now, outs, ins);
        if r.Err? {
          SkipRangeBeyond(ps, lo, t, hi, now);
          return;
        }
        t := t + 1;
      }
      if hi <= lo {
        SkipRangeEmpty(ps, lo, lo, now);
        SkipRangeEmpty(ps, lo, hi, now);
      }
      return Ok(());
    }

    /** One turn of a blocking loop: getSector(t), then the sector's port is blocked. */
    method SkipAt(t: int, lo: int, ghost ps: seq<Option<PortState>>, now: Date, ghost outs: seq<seq<int>>, ghost ins: seq<seq<int>>)
      returns (r: Result<()>)
      requires 1 <= lo <= t && db.Holds(outs, ins) && PortsPlaced() && |ps| == |outs|
      requires PortStates() == SkipRange(ps, lo, t, now)
      modifies Ports()
      ensures db.Holds(outs, ins) && PortsPlaced() && Ports() == old(Ports())
      ensures r.Err? <==> t > |outs|
      ensures r.Err? ==> r == Err(IndexOutOfBounds) && PortStates() == old(PortStates())
      ensures r.Ok? ==> PortStates() == SkipRange(ps, lo, t + 1, now)
    {
      var sector := db.GetSector(t);
      if sector.Err? {
        return Err(sector.error);
      }
      SkipSector(sector.value, now, outs, ins);
      SkipRangeStep(ps, lo, t, now);
      return Ok(());
    }

    /** The port holds a report's readings and dated it now; its capacities were caps before. */
    ghost predicate Filled(p: Port, levels: seq<int>, percents: seq<int>, caps: seq<int>, now: Date)
      reads p, p.levels, p.percents, p.capacities
    {
      |levels| == 3 && |percents| == 3 && |caps| == 3 && (forall i :: 0 <= i < 3 ==> percents[i] >= 0) &&
      p.levels[..] == levels && p.percents[..] == percents && p.reportDate == Some(now) &&
      p.capacities[..] == NewCapacities(levels, percents, caps)
    }

    /** The port of sector n, if it has one. */
    ghost function PortAt(n: int): set<Port>
      reads db`sectors, db.sectors, db.SectorSet()
    {
      if db.sectors != null && 1 <= n <= db.sectors.Length && db.sectors[n - 1].port != null then {db.sectors[n - 1].port} else {}
    }

    /** The reading arrays of the port of sector n; empty when there is none. */
    ghost function ReadingsAt(n: int): set<array<int>>
      reads db`sectors, db.sectors, db.SectorSet()
    {
      if db.sectors != null && 1 <= n <= db.sectors.Length && db.sectors[n - 1].port != null then
        var p := db.sectors[n - 1].port;
        {p.levels, p.percents, p.capacities}
      else {}
    }

    /**
     * cimPortInfo: one line of a CIM port report, `numbers` being sector,
     * level, percent, level, percent, level, percent and `selling` the column
     * before each level. A sector at or before the last reported one begins a
     * new report: the CIM date is stamped and every port before it is
     * blocked; otherwise the ports between the last reported sector and this
     * one are blocked. Then the sector is explored, given a port if it had
     * none (SECTOR_UPDATED), and its port takes the class the columns show,
     * the levels (negated under '-'), the percents, new capacities and the
     * AVAILABLE status.
     */
    method OnCimPortInfo(numbers: seq<int>, selling: seq<char>, now: Date, ghost outs: seq<seq<int>>, ghost ins: seq<seq<int>>)
      returns (r: Result<()>)
      requires db.Holds(outs, ins) && PortsPlaced() && |selling| == 3 && lastCimPortSector >= 0
      requires forall i :: 0 <= i < |numbers| ==> numbers[i] >= 0
      modifies this`lastCimPortSector, this`log, db, db.SectorSet(), Ports()
      modifies if |numbers| >= 7 then ReadingsAt(numbers[0]) else {}
      ensures db.Holds(outs, ins) && PortsPlaced() && lastCimPortSector >= 0
      ensures |numbers| < 7 ==> (r == Err(IndexOutOfBounds) && lastCimPortSector == old(lastCimPortSector) &&
        log == old(log) && PortStates() == old(PortStates()) && db.Snapshot() == old(db.Snapshot()))
      ensures |numbers| >= 7 ==>
        var s := numbers[0];
        var skipped := SkipRange(old(PortStates()), SkipStart(old(lastCimPortSector), s), s, now);
        (r.Err? <==> !(1 <= s <= |outs|)) &&
        (r.Err? ==> r == Err(IndexOutOfBounds) && log == old(log) && PortStates() == skipped) &&
        db.Snapshot() == (if s <= old(lastCimPortSector) then old(db.Snapshot()).(lastCimPortsDate := Some(now)) else old(db.Snapshot())) &&
        lastCimPortSector == (if SkipFails(old(lastCimPortSector), s, |outs|) then old(lastCimPortSector) else s)
      ensures |numbers| >= 7 && r.Ok? ==>
        var s := numbers[0];
        PortFilledFrom(s, old(PortOf(s)), old(CapsOf(s)), SkipRange(old(PortStates()), SkipStart(old(lastCimPortSector), s), s, now),
                       old(log), CimLevels(numbers, selling), CimPercents(numbers), selling, now)
    {
      if |numbers| < 7 {
        return Err(IndexOutOfBounds);
      }
      var percents := CimPercents(numbers);
      assert forall i :: 0 <= i < 3 ==> percents[i] >= 0;
      r := CimLine(numbers[0], CimLevels(numbers, selling), percents, selling, now, outs, ins);
    }

    /**
     * cimPortInfo for a line on sector s once its readings are known: s
     * becomes the last reported sector exactly when the blocking loops stay
     * inside the map.
     */
    method CimLine(s: int, levels: seq<int>, percents: seq<int>, selling: seq<char>, now: Date,
                   ghost outs: seq<seq<int>>, ghost ins: seq<seq<int>>) returns (r: Result<()>)
      requires db.Holds(outs, ins) && PortsPlaced() && lastCimPortSector >= 0 && s >= 0
      requires |levels| == 3 && |percents| == 3 && |selling| == 3 && forall i :: 0 <= i < 3 ==> percents[i] >= 0
      modifies this`lastCimPortSector, this`log, db, db.SectorSet(), Ports(), ReadingsAt(s)
      ensures db.Holds(outs, ins) && PortsPlaced() && lastCimPortSector >= 0
      ensures lastCimPortSector == if SkipFails(old(lastCimPortSector), s, |outs|) then old(lastCimPortSector) else s
      ensures var last := old(lastCimPortSector);
        var skipped := SkipRange(old(PortStates()), SkipStart(last, s), s, now);
        (r.Err? <==> !(1 <= s <= |outs|)) &&
        (r.Err? ==> r == Err(IndexOutOfBounds) && log == old(log) && PortStates() == skipped) &&
        db.Snapshot() == (if s <= last then old(db.Snapshot()).(lastCimPortsDate := Some(now)) else old(db.Snapshot()))
      ensures r.Ok? ==>
        PortFilledFrom(s, old(PortOf(s)), old(CapsOf(s)), SkipRange(old(PortStates()), SkipStart(old(lastCimPortSector), s), s, now),
                       old(log), levels, percents, selling, now)
    {
      ghost var last := lastCimPortSector;
      ghost var skipped := SkipRange(PortStates(), SkipStart(last, s), s, now);
      ghost var stamped := if s <= last then db.Snapshot().(lastCimPortsDate := Some(now)) else db.Snapshot();
      ghost var port, caps := PortOf(s), CapsOf(s);
      r := BlockAndMark(s, now, outs, ins);
      if r.Err? {
        return;
      }
      assert PortStates() == skipped && db.Snapshot() == stamped;
      r := ReportSector(s, levels, percents, selling, now, outs, ins);
    }

    /** The blocking loops, then lastCimPortSector = s once they stayed inside the map. */
    method BlockAndMark(s: int, now: Date, ghost outs: seq<seq<int>>, ghost ins: seq<seq<int>>) returns (r: Result<()>)
      requires db.Holds(outs, ins) && PortsPlaced() && lastCimPortSector >= 0 && s >= 0
      modifies this`lastCimPortSector, db, Ports()
      ensures db.Holds(outs, ins) && PortsPlaced() && db.sectors == old(db.sectors) && lastCimPortSector >= 0
      ensures r.Err? <==> SkipFails(old(lastCimPortSector), s, |outs|)
      ensures r.Err? ==> r == Err(IndexOutOfBounds) && lastCimPortSector == old(lastCimPortSector)
      ensures r.Ok? ==> lastCimPortSector == s
      ensures db.Snapshot() ==
        if s <= old(lastCimPortSector) then old(db.Snapshot()).(lastCimPortsDate := Some(now)) else old(db.Snapshot())
      ensures PortStates() == SkipRange(old(PortStates()), SkipStart(old(lastCimPortSector), s), s, now)
      ensures PortOf(s) == old(PortOf(s)) && CapsOf(s) == old(CapsOf(s)) && ReadingsAt(s) == old(ReadingsAt(s))
    {
      r := BlockSkipped(s, lastCimPortSector, now, outs, ins);
      if r.Ok? {
        ReportedUpTo(s, outs, ins);
      }
    }

    /** lastCimPortSector = s, seen from the database: nothing there changes. */
    method ReportedUpTo(s: int, ghost outs: seq<seq<int>>, ghost ins: seq<seq<int>>)
      requires db.Holds(outs, ins) && PortsPlaced()
      modifies this`lastCimPortSector
      ensures db.Holds(outs, ins) && PortsPlaced() && lastCimPortSector == s
      ensures PortStates() == old(PortStates()) && db.Snapshot() == old(db.Snapshot())
    {
      lastCimPortSector := s;
    }

    /** The report on sector s once the blocking loops are done: getSector throws for a sector out of range. */
    method ReportSector(s: int, levels: seq<int>, percents: seq<int>, selling: seq<char>, now: Date,
                        ghost outs: seq<seq<int>>, ghost ins: seq<seq<int>>) returns (r: Result<()>)
      requires db.Holds(outs, ins) && PortsPlaced()
      requires |levels| == 3 && |percents| == 3 && |selling| == 3 && forall i :: 0 <= i < 3 ==> percents[i] >= 0
      modifies this`log, db.SectorSet(), PortAt(s), ReadingsAt(s)
      ensures db.Holds(outs, ins) && PortsPlaced() && db.Snapshot() == old(db.Snapshot())
      ensures r.Err? <==> !(1 <= s <= |outs|)
      ensures r.Err? ==> r == Err(IndexOutOfBounds) && log == old(log) && PortStates() == old(PortStates())
      ensures r.Ok? ==> PortFilledFrom(s, old(PortOf(s)), old(CapsOf(s)), old(PortStates()), old(log), levels, percents, selling, now)
    {
      var sector := db.GetSector(s);
      if sector.Err? {
        return Err(sector.error);
      }
      db.RowOf(sector.value, outs, ins);
      assert sector.value.number == s && db.sectors[s - 1] == sector.value;
      ReportPort(sector.value, levels, percents, selling, now, outs, ins);
      return Ok(());
    }

    /**
     * The blocking half of cimPortInfo for a line on sector s: a new report
     * (s at or before the last reported sector) stamps the CIM date and
     * blocks from sector 1, a continued one from the sector after the last
     * reported one; getSector throws for the first sector beyond the map.
     */
    method BlockSkipped(s: int, last: int, now: Date, ghost outs: seq<seq<int>>, ghost ins: seq<seq<int>>) returns (r: Result<()>)
      requires db.Holds(outs, ins) && PortsPlaced() && last >= 0
      modifies db, Ports()
      ensures db.Holds(outs, ins) && PortsPlaced() && db.sectors == old(db.sectors)
      ensures r.Err? <==> SkipFails(last, s, |outs|)
      ensures r.Err? ==> r == Err(IndexOutOfBounds)
      ensures db.Snapshot() == if s <= last then old(db.Snapshot()).(lastCimPortsDate := Some(now)) else old(db.Snapshot())
      ensures PortStates() == SkipRange(old(PortStates()), SkipStart(last, s), s, now)
    {
      if s <= last {
        StampCimReport(now, outs, ins);
        r := SkipPorts(1, s, now, outs, ins);
      } else {
        r := SkipPorts(last + 1, s, now, outs, ins);
      }
    }

    /** setLastCimPortsDate, seen from the sectors: they and their ports stay as they are. */
    method StampCimReport(now: Date, ghost outs: seq<seq<int>>, ghost ins: seq<seq<int>>)
      requires db.Holds(outs, ins) && PortsPlaced()
      modifies db
      ensures db.Holds(outs, ins) && PortsPlaced()
      ensures db.Snapshot() == old(db.Snapshot()).(lastCimPortsDate := Some(now)) && db.sectors == old(db.sectors)
      ensures Ports() == old(Ports()) && PortStates() == old(PortStates())
    {
      db.SetLastCimPortsDate(now);
    }

    /** The port of sector n; null when it has none or there is no sector n. */
    ghost function PortOf(n: int): Port?
      reads db`sectors, db.sectors, db.SectorSet()
    {
      if db.sectors != null && 1 <= n <= db.sectors.Length then db.sectors[n - 1].port else null
    }

    /** The capacities of sector n's port, taken as zero when it has none. */
    ghost function CapsOf(n: int): seq<int>
      reads db`sectors, db.sectors, db.SectorSet(), ReadingsAt(n)
    {
      if PortOf(n) == null then [0, 0, 0] else PortOf(n).capacities[..]
    }

    /**
     * Sector n after the report of a CIM port line, given what it had before
     * (its port, that port's capacities, the port states and the log): it is
     * explored, its port kept (or a new one when it had none, with
     * SECTOR_UPDATED), filled with the readings and dated now, its port
     * state reported, and an upgrade notice logged for every capacity that grew.
     */
    ghost predicate PortFilledFrom(n: int, port0: Port?, caps: seq<int>, states0: seq<Option<PortState>>, log0: seq<Notice>,
                                   levels: seq<int>, percents: seq<int>, selling: seq<char>, now: Date)
      reads this`log, db`sectors, db.sectors, db.SectorSet(), Ports(), ReadingsAt(n)
    {
      db.sectors != null && 1 <= n <= db.sectors.Length == |states0| && |selling| == 3 &&
      var s := db.sectors[n - 1];
      s.number == n && s.explored && s.port != null && (port0 != null ==> s.port == port0) &&
      PortStates() == states0[n - 1 := Some(Reported(states0[n - 1], selling, now))] &&
      Filled(s.port, levels, percents, caps, now) &&
      log == log0 + (if port0 == null then [Changed(SectorUpdated, None, n)] else []) + Upgrades(n, levels, percents, caps, 3)
    }

    /** The reported sector's half of cimPortInfo: explored, given a port if it has none, and the port filled in. */
    method ReportPort(s: Sector, levels: seq<int>, percents: seq<int>, selling: seq<char>, now: Date,
                      ghost outs: seq<seq<int>>, ghost ins: seq<seq<int>>)
      requires db.Holds(outs, ins) && PortsPlaced() && s in db.SectorSet()
      requires |levels| == 3 && |percents| == 3 && |selling| == 3 && forall i :: 0 <= i < 3 ==> percents[i] >= 0
      modifies s, this`log, if s.port == null then {} else {s.port, s.port.levels, s.port.percents, s.port.capacities}
      ensures db.Holds(outs, ins) && PortsPlaced() && db.sectors == old(db.sectors)
      ensures PortFilledFrom(s.number, old(s.port), if old(s.port) == null then [0, 0, 0] else old(s.port.capacities[..]),
                             old(PortStates()), old(log), levels, percents, selling, now)
    {
      if s.port == null {
        NewPort(s, outs, ins);
      }
      MarkExplored(s, outs, ins);
      FillPort(s, levels, percents, selling, now, outs, ins);
    }

    /** A sector reported without a port gets a blank one, with SECTOR_UPDATED. */
    method NewPort(s: Sector, ghost outs: seq<seq<int>>, ghost ins: seq<seq<int>>)
      requires db.Holds(outs, ins) && PortsPlaced() && s in db.SectorSet() && s.port == null
      modifies s, this`log
      ensures db.Holds(outs, ins) && PortsPlaced() && s.port != null && fresh(s.port)
      ensures fresh(s.port.levels) && fresh(s.port.percents) && fresh(s.port.capacities)
      ensures s.port.capacities[..] == [0, 0, 0] && s.explored == old(s.explored)
      ensures PortStates() == old(PortStates())[s.number - 1 := Some(PortState(UNKNOWN, None, None))]
      ensures log == old(log) + [Changed(SectorUpdated, None, s.number)]
    {
      log := log + [Changed(SectorUpdated, None, s.number)];
      PlaceBlank(s, outs, ins);
    }

    /** new Port(sector) and setPort: a port with nothing known yet. */
    method PlaceBlank(s: Sector, ghost outs: seq<seq<int>>, ghost ins: seq<seq<int>>)
      requires db.Holds(outs, ins) && PortsPlaced() && s in db.SectorSet() && s.port == null
      modifies s
      ensures db.Holds(outs, ins) && PortsPlaced() && s.port != null && fresh(s.port)
      ensures fresh(s.port.levels) && fresh(s.port.percents) && fresh(s.port.capacities)
      ensures s.port.capacities[..] == [0, 0, 0] && s.explored == old(s.explored)
      ensures PortStates() == old(PortStates())[s.number - 1 := Some(PortState(UNKNOWN, None, None))]
    {
      db.RowOf(s, outs, ins);
      ghost var before := PortStates();
      var p := new Port(s.number);
      Attach(s, p, outs, ins);
      assert PortStates() == before[s.number - 1 := StateOf(p)];
    }

    /** FillReport on the port of s, seen from the sectors: only that port's state changes. */
    method FillPort(s: Sector, levels: seq<int>, percents: seq<int>, selling: seq<char>, now: Date,
                    ghost outs: seq<seq<int>>, ghost ins: seq<seq<int>>)
      requires db.Holds(outs, ins) && PortsPlaced() && s in db.SectorSet() && s.port != null
      requires |levels| == 3 && |percents| == 3 && |selling| == 3 && forall i :: 0 <= i < 3 ==> percents[i] >= 0
      modifies s.port, s.port.levels, s.port.percents, s.port.capacities, this`log
      ensures db.Holds(outs, ins) && PortsPlaced()
      ensures PortStates() == old(PortStates())[s.number - 1 := Some(Reported(old(PortStates())[s.number - 1], selling, now))]
      ensures s.port.levels[..] == levels && s.port.percents[..] == percents && s.port.reportDate == Some(now)
      ensures s.port.capacities[..] == NewCapacities(levels, percents, old(s.port.capacities[..]))
      ensures log == old(log) + Upgrades(s.number, levels, percents, old(s.port.capacities[..]), 3)
    {
      db.RowOf(s, outs, ins);
      FillReport(s.port, levels, percents, selling, now);
    }

    /** setExplored(true), without an event: nothing else of any sector or port changes. */
    method MarkExplored(s: Sector, ghost outs: seq<seq<int>>, ghost ins: seq<seq<int>>)
      requires db.Holds(outs, ins) && PortsPlaced() && s in db.SectorSet()
      modifies s
      ensures db.Holds(outs, ins) && PortsPlaced() && s.explored && s.port == old(s.port)
      ensures PortStates() == old(PortStates())
    {
      db.RowOf(s, outs, ins);
      s.explored := true;
    }

    /** The port's half of cimPortInfo: class, readings, capacities and status. */
    method FillReport(p: Port, levels: seq<int>, percents: seq<int>, selling: seq<char>, now: Date)
      requires p.Valid() && |levels| == 3 && |percents| == 3 && |selling| == 3
      requires forall i :: 0 <= i < 3 ==> percents[i] >= 0
      modifies p, p.levels, p.percents, p.capacities, this`log
      ensures p.Valid()
      ensures PortState(p.tradingClass, p.status, p.statusDate) ==
        Reported(Some(PortState(old(p.tradingClass), old(p.status), old(p.statusDate))), selling, now)
      ensures p.levels[..] == levels && p.percents[..] == percents && p.reportDate == Some(now)
      ensures p.capacities[..] == NewCapacities(levels, percents, old(p.capacities[..]))
      ensures log == old(log) + Upgrades(p.sector, levels, percents, old(p.capacities[..]), 3)
    {
      p.SetTradingClassFromIndicators(selling);
      p.SetReport(levels, percents, now);
      CalculateCapacities(p);
      p.SetStatus(Available, now);
    }

    // -- port reports -------------------------------------------------------

    /**
     * calculateCapacities, with the consistency test at line 870 corrected:
     * each product's capacity becomes NewCapacity of its reading, and
     * PORT_UPGRADED fires for every known capacity that grew.
     */
    method CalculateCapacities(port: Port)
      requires port.Valid() && forall i :: 0 <= i < 3 ==> port.percents[i] >= 0
      modifies port.capacities, this`log
      ensures port.capacities[..] == NewCapacities(port.levels[..], port.percents[..], old(port.capacities[..]))
      ensures log == old(log) + Upgrades(port.sector, port.levels[..], port.percents[..], old(port.capacities[..]), 3)
    {
      var levels, percents, caps := port.levels[..], port.percents[..], port.capacities[..];
      for i := 0 to 3
        invariant port.levels[..] == levels && port.percents[..] == percents
        invariant forall k :: 0 <= k < 3 ==> port.capacities[k] == if k < i then NewCapacity(levels[k], percents[k], caps[k]) else caps[k]
        invariant log == old(log) + Upgrades(port.sector, levels, percents, caps, i)
      {
        var cap, grew, diff := Estimate(levels[i], percents[i], caps[i]);
        if grew {
          port.SetCapacity(i, cap);
          if caps[i] != 0 {
            log := log + [Fired(PortUpgraded, [port.sector, i, diff])];
          }
        }
      }
      assert port.capacities[..] == NewCapacities(levels, percents, caps);
    }

    /**
     * One product of calculateCapacities: a zero level teaches nothing, 100%
     * means the level is the capacity, a known capacity that shows the
     * percentage is kept, otherwise the estimate; only a larger magnitude is
     * taken.
     */
    static method Estimate(level: int, percent: int, known: int) returns (cap: int, grew: bool, diff: int)
      requires percent >= 0
      ensures grew <==> NewCapacity(level, percent, known) != known
      ensures grew ==> cap == NewCapacity(level, percent, known) && diff == Abs(cap) - Abs(known) > 0
      ensures grew && known != 0 ==> diff == Upgrade(level, percent, known)
      ensures !grew && known != 0 ==> Upgrade(level, percent, known) == 0
    {
      grew, cap, diff := false, known, 0;
      if level == 0 {
        return;
      }
      if percent == 100 {
        cap := level;
      } else if known != 0 && Quot(level * 100, known) == percent {
        return;
      } else {
        cap := Quot(level * 100, percent + 1);
        if level > 0 {
          cap := cap + (10 - Rem(cap, 10));
        } else {
          cap := cap - (10 + Rem(cap, 10));
        }
      }
      diff := Abs(cap) - Abs(known);
      grew := diff > 0;
      if !grew {
        cap, diff := known, 0;
      }
    }
  }
}
