/**
 * A sector of the universe: its outbound warps, the inbound warps mirrored
 * from its neighbours, the flags that say how much of that is known, and the
 * scan and fighter readings.
 *
 * The half of addWarpTo and setWarpsOut that reaches into other sectors
 * lives in the Databases module, which owns every sector.
 */
module Sectors {
  import opened Wrappers
  import opened Constants
  import opened Records
  import opened FighterModes
  import JavaInt
  import Ports

  // ---------------------------------------------------------------------
  // Arrays.sort on a warp list

  predicate Ascending(s: seq<int>)
  {
    forall i, j :: 0 <= i < j < |s| ==> s[i] <= s[j]
  }

  /** x put into place in s, ahead of the first element not smaller. */
  function Insert(x: int, s: seq<int>): (r: seq<int>)
    ensures multiset(r) == multiset(s) + multiset{x}
    ensures |r| == |s| + 1
  {
    if s == [] then [x]
    else if x <= s[0] then [x] + s
    else
      assert s == [s[0]] + s[1..];
      [s[0]] + Insert(x, s[1..])
  }

  lemma {:induction false} InsertAscending(x: int, s: seq<int>)
    requires Ascending(s)
    ensures Ascending(Insert(x, s))
  {
    if s != [] && x > s[0] {
      var t := s[1..];
      InsertAscending(x, t);
      var r := Insert(x, t);
      forall k | 0 <= k < |r|
        ensures s[0] <= r[k]
      {
        InsertMember(x, t, r[k]);
        if r[k] != x {
          var j :| 0 <= j < |t| && t[j] == r[k];
          assert s[j + 1] == r[k];
        }
      }
      AscendingCons(s[0], r);
    }
  }

  /** Insert adds x and nothing else. */
  lemma InsertMember(x: int, t: seq<int>, y: int)
    requires y in Insert(x, t)
    ensures y == x || y in t
  {
    assert y in multiset(Insert(x, t));
  }

  lemma AscendingCons(h: int, r: seq<int>)
    requires Ascending(r) && forall k :: 0 <= k < |r| ==> h <= r[k]
    ensures Ascending([h] + r)
  {
  }

  /** Arrays.sort: the same elements, ascending. */
  function SortSeq(s: seq<int>): (r: seq<int>)
    ensures multiset(r) == multiset(s) && |r| == |s|
  {
    if s == [] then []
    else
      assert s == s[..|s| - 1] + [s[|s| - 1]];
      Insert(s[|s| - 1], SortSeq(s[..|s| - 1]))
  }

  /** Sorting two elements. */
  lemma SortPair(a: int, b: int)
    ensures SortSeq([a, b]) == if a <= b then [a, b] else [b, a]
  {
    assert [a, b][..1] == [a];
    assert [a][..0] == [];
    assert SortSeq([a]) == Insert(a, []) == [a];
  }

  lemma {:induction false} SortSeqAscending(s: seq<int>)
    ensures Ascending(SortSeq(s))
  {
    if s != [] {
      SortSeqAscending(s[..|s| - 1]);
      InsertAscending(s[|s| - 1], SortSeq(s[..|s| - 1]));
    }
  }

  lemma SortSeqSameMembers(s: seq<int>, x: int)
    ensures x in SortSeq(s) <==> x in s
  {
    assert x in SortSeq(s) <==> x in multiset(SortSeq(s));
    assert x in s <==> x in multiset(s);
  }

  /** The readings a warp operation never touches. */
  datatype Readings = Readings(
    density: int, warpDensity: int, navhaz: int, anomaly: bool,
    densityDate: Option<Date>, holoDate: Option<Date>, avoided: bool, nebula: Option<string>,
    fighters: int, fighterOwner: Option<Owner>, fighterMode: Option<FighterMode>, fighterDate: Option<Date>)

  /** The later of two nullable dates, or whichever one exists. */
  function Later(holo: Option<Date>, density: Option<Date>): (r: Option<Date>)
    ensures r.None? <==> holo.None? && density.None?
    ensures r.Some? ==> (r == holo || r == density)
    ensures r.Some? && holo.Some? ==> r.value >= holo.value
    ensures r.Some? && density.Some? ==> r.value >= density.value
  {
    if holo.None? then density
    else if density.None? then holo
    else if density.value > holo.value then density else holo
  }

  class Sector {
    const number: int
    var warpsOut: seq<int>
    var warpsOutSorted: bool
    var warpsIn: seq<int>
    var warpsInSorted: bool
    var density: int
    var warpDensity: int
    var navhaz: int
    var anomaly: bool
    var densityDate: Option<Date>
    var holoDate: Option<Date>
    var fullyMapped: bool
    var explored: bool
    var avoided: bool
    var nebula: Option<string>
    var port: Ports.Port?
    var fighters: int
    var fighterOwner: Option<Owner>
    var fighterMode: Option<FighterMode>
    var fighterDate: Option<Date>

    /** The sorted flags are truthful: a list flagged sorted is ascending. */
    ghost predicate Valid()
      reads this`warpsOut, this`warpsOutSorted, this`warpsIn, this`warpsInSorted
    {
      (warpsOutSorted ==> Ascending(warpsOut)) && (warpsInSorted ==> Ascending(warpsIn))
    }

    constructor (number: int)
      ensures Valid() && this.number == number
      ensures warpsOut == [] && warpsIn == [] && warpsOutSorted && warpsInSorted
      ensures !fullyMapped && !explored && !avoided && port == null
      ensures density == UNKNOWN && warpDensity == UNKNOWN && navhaz == UNKNOWN && !anomaly
      ensures densityDate == None && holoDate == None && nebula == None
      ensures fighters == 0 && fighterOwner == None && fighterMode == None && fighterDate == None
    {
      this.number := number;
      warpsOut, warpsOutSorted, warpsIn, warpsInSorted := [], true, [], true;
      density, warpDensity, navhaz, anomaly := UNKNOWN, UNKNOWN, UNKNOWN, false;
      densityDate, holoDate := None, None;
      fullyMapped, explored, avoided := false, false, false;
      nebula, port := None, null;
      fighters, fighterOwner, fighterMode, fighterDate := 0, None, None, None;
    }

    function Scans(): Readings
      reads this`density, this`warpDensity, this`navhaz, this`anomaly, this`densityDate, this`holoDate
      reads this`avoided, this`nebula, this`fighters, this`fighterOwner, this`fighterMode, this`fighterDate
    {
      Readings(density, warpDensity, navhaz, anomaly, densityDate, holoDate, avoided, nebula,
               fighters, fighterOwner, fighterMode, fighterDate)
    }

    /** getNumWarpsOut: the larger of the density scan's warp count and the known warps. */
    function GetNumWarpsOut(): (r: int)
      reads this
      ensures r >= |warpsOut| && r >= warpDensity
      ensures r == |warpsOut| || r == warpDensity
    {
      if warpDensity < |warpsOut| then |warpsOut| else warpDensity
    }

    /** hasWarpTo: an index loop over the outbound warps. */
    method HasWarpTo(sector: int) returns (r: bool)
      ensures r <==> sector in warpsOut
    {
      var i := 0;
      while i < |warpsOut|
        invariant 0 <= i <= |warpsOut|
        invariant sector !in warpsOut[..i]
      {
        if warpsOut[i] == sector {
          return true;
        }
        assert warpsOut[..i + 1] == warpsOut[..i] + [warpsOut[i]];
        i := i + 1;
      }
      assert warpsOut[..i] == warpsOut;
      return false;
    }

    /** hasWarpFrom: an index loop over the inbound warps. */
    method HasWarpFrom(sector: int) returns (r: bool)
      ensures r <==> sector in warpsIn
    {
      var i := 0;
      while i < |warpsIn|
        invariant 0 <= i <= |warpsIn|
        invariant sector !in warpsIn[..i]
      {
        if warpsIn[i] == sector {
          return true;
        }
        assert warpsIn[..i + 1] == warpsIn[..i] + [warpsIn[i]];
        i := i + 1;
      }
      assert warpsIn[..i] == warpsIn;
      return false;
    }

    /**
     * The sector's own half of addWarpTo: nothing when the sector is fully
     * mapped or already has the warp; otherwise the warp is appended, and the
     * sector becomes fully mapped at six warps or at the density scan's count.
     */
    method AppendWarpOut(sector: int) returns (added: bool)
      requires Valid()
      modifies this`warpsOut, this`warpsOutSorted, this`fullyMapped
      ensures Valid()
      ensures added <==> !old(fullyMapped) && sector !in old(warpsOut)
      ensures added ==> warpsOut == old(warpsOut) + [sector]
      ensures added ==> fullyMapped == (|warpsOut| == 6 || |warpsOut| == warpDensity)
      ensures !added ==> warpsOut == old(warpsOut) && fullyMapped == old(fullyMapped)
      ensures !added ==> warpsOutSorted == old(warpsOutSorted)
      ensures added ==> warpsOutSorted == (old(warpsOutSorted) && (old(warpsOut) == [] || old(warpsOut)[|old(warpsOut)| - 1] <= sector))
      ensures warpsIn == old(warpsIn) && warpsInSorted == old(warpsInSorted) && explored == old(explored)
      ensures Scans() == old(Scans()) && port == old(port)
    {
      if fullyMapped {
        return false;
      }
      var has := HasWarpTo(sector);
      if has {
        return false;
      }
      warpsOut := warpsOut + [sector];
      if |warpsOut| > 1 && warpsOut[|warpsOut| - 1] < warpsOut[|warpsOut| - 2] {
        warpsOutSorted := false;
      }
      if |warpsOut| == 6 || |warpsOut| == warpDensity {
        fullyMapped := true;
      }
      return true;
    }

    /** addWarpFrom: appends the sector to the inbound list unless it is already there. */
    method AddWarpFrom(sector: int)
      requires Valid()
      modifies this`warpsIn, this`warpsInSorted
      ensures Valid() && sector in warpsIn
      ensures warpsIn == if sector in old(warpsIn) then old(warpsIn) else old(warpsIn) + [sector]
      ensures sector in old(warpsIn) ==> warpsInSorted == old(warpsInSorted)
      ensures sector !in old(warpsIn) ==> warpsInSorted == (old(warpsInSorted) && (old(warpsIn) == [] || old(warpsIn)[|old(warpsIn)| - 1] <= sector))
      ensures warpsOut == old(warpsOut) && warpsOutSorted == old(warpsOutSorted)
      ensures fullyMapped == old(fullyMapped) && explored == old(explored)
      ensures Scans() == old(Scans()) && port == old(port)
    {
      var has := HasWarpFrom(sector);
      if has {
        return;
      }
      warpsIn := warpsIn + [sector];
      if |warpsIn| > 1 && warpsIn[|warpsIn| - 1] < warpsIn[|warpsIn| - 2] {
        warpsInSorted := false;
      }
    }

    /**
     * The sector's own half of setWarpsOut, as written: nothing happens when
     * the new list merely has the same length as a list flagged sorted;
     * otherwise the list is stored as given and flagged sorted, explored and
     * fully mapped.
     */
    method ReplaceWarpsOutAsWritten(warps: seq<int>) returns (replaced: bool)
      modifies this`warpsOut, this`warpsOutSorted, this`explored, this`fullyMapped
      ensures replaced <==> !(|old(warpsOut)| == |warps| && old(warpsOutSorted))
      ensures replaced ==> warpsOut == warps && warpsOutSorted && explored && fullyMapped
      ensures !replaced ==> warpsOut == old(warpsOut) && explored == old(explored) && fullyMapped == old(fullyMapped)
      ensures !replaced ==> warpsOutSorted == old(warpsOutSorted)
      ensures warpsIn == old(warpsIn) && warpsInSorted == old(warpsInSorted) && Scans() == old(Scans())
    {
      if |warpsOut| == |warps| && warpsOutSorted {
        return false;
      }
      warpsOut := warps;
      warpsOutSorted := true;
      explored := true;
      fullyMapped := true;
      return true;
    }

    /**
     * The sector's own half of setWarpsOut, corrected: nothing happens only
     * when the stored list already holds exactly the new warps; otherwise the
     * warps are stored sorted, and the sector is explored and fully mapped.
     */
    method ReplaceWarpsOut(warps: seq<int>) returns (replaced: bool)
      requires Valid()
      modifies this`warpsOut, this`warpsOutSorted, this`explored, this`fullyMapped
      ensures Valid()
      ensures replaced <==> !(old(warpsOut) == SortSeq(warps) && old(warpsOutSorted))
      ensures replaced ==> warpsOut == SortSeq(warps) && warpsOutSorted && explored && fullyMapped
      ensures !replaced ==> warpsOut == old(warpsOut) && explored == old(explored) && fullyMapped == old(fullyMapped)
      ensures !replaced ==> warpsOutSorted == old(warpsOutSorted)
      ensures forall w :: w in warpsOut <==> w in warps
      ensures warpsIn == old(warpsIn) && warpsInSorted == old(warpsInSorted) && Scans() == old(Scans())
    {
      var sorted := SortSeq(warps);
      SortSeqAscending(warps);
      forall w
        ensures w in sorted <==> w in warps
      {
        SortSeqSameMembers(warps, w);
      }
      if warpsOut == sorted && warpsOutSorted {
        return false;
      }
      warpsOut := sorted;
      warpsOutSorted := true;
      explored := true;
      fullyMapped := true;
      return true;
    }

    /** getWarpsOut: sorts the stored list in place when it is flagged unsorted, and returns a copy. */
    method GetWarpsOut() returns (r: seq<int>)
      requires Valid()
      modifies this`warpsOut, this`warpsOutSorted
      ensures Valid() && warpsOutSorted && r == warpsOut
      ensures Ascending(r) && multiset(r) == multiset(old(warpsOut))
      ensures old(warpsOutSorted) ==> warpsOut == old(warpsOut)
      ensures warpsOut == SortSeq(old(warpsOut)) || warpsOut == old(warpsOut)
      ensures warpsIn == old(warpsIn) && warpsInSorted == old(warpsInSorted)
      ensures fullyMapped == old(fullyMapped) && explored == old(explored) && Scans() == old(Scans())
    {
      if !warpsOutSorted {
        SortSeqAscending(warpsOut);
        warpsOut := SortSeq(warpsOut);
        warpsOutSorted := true;
      }
      return warpsOut;
    }

    /** getWarpsIn: the same for the inbound list. */
    method GetWarpsIn() returns (r: seq<int>)
      requires Valid()
      modifies this`warpsIn, this`warpsInSorted
      ensures Valid() && warpsInSorted && r == warpsIn
      ensures Ascending(r) && multiset(r) == multiset(old(warpsIn))
      ensures old(warpsInSorted) ==> warpsIn == old(warpsIn)
      ensures warpsOut == old(warpsOut) && warpsOutSorted == old(warpsOutSorted)
      ensures fullyMapped == old(fullyMapped) && explored == old(explored) && Scans() == old(Scans())
    {
      if !warpsInSorted {
        SortSeqAscending(warpsIn);
        warpsIn := SortSeq(warpsIn);
        warpsInSorted := true;
      }
      return warpsIn;
    }

    /**
     * setDensityData: records a density scan taken now; the sector becomes
     * fully mapped when the scan's warp count equals the known warps.
     */
    method SetDensityData(density: int, warpDensity: int, navhaz: int, anomaly: bool, now: Date)
      modifies this`density, this`warpDensity, this`navhaz, this`anomaly, this`densityDate, this`fullyMapped
      ensures Scans() == old(Scans()).(density := density, warpDensity := warpDensity, navhaz := navhaz,
                                       anomaly := anomaly, densityDate := Some(now))
      ensures fullyMapped == (old(fullyMapped) || warpDensity == |warpsOut|)
      ensures warpsOut == old(warpsOut) && warpsIn == old(warpsIn) && explored == old(explored)
      ensures warpsOutSorted == old(warpsOutSorted) && warpsInSorted == old(warpsInSorted)
    {
      this.density := density;
      this.warpDensity := warpDensity;
      this.navhaz := navhaz;
      this.anomaly := anomaly;
      densityDate := Some(now);
      if warpDensity == |warpsOut| {
        fullyMapped := true;
      }
    }

    /** setNebula: a null name is ignored. */
    method SetNebula(nebula: Option<string>)
      modifies this`nebula
      ensures Scans() == if nebula.None? then old(Scans()) else old(Scans()).(nebula := nebula)
      ensures warpsOut == old(warpsOut) && warpsIn == old(warpsIn) && fullyMapped == old(fullyMapped)
    {
      if nebula.Some? {
        this.nebula := nebula;
      }
    }

    /**
     * setFighters: an identical (count, owner, mode) changes nothing, not even
     * the date; otherwise the date is cleared for zero fighters and set to now
     * for any other count.
     */
    method SetFighters(fighters: int, owner: Option<Owner>, mode: Option<FighterMode>, now: Date)
      modifies this`fighters, this`fighterOwner, this`fighterMode, this`fighterDate
      ensures old(this.fighters) == fighters && old(fighterOwner) == owner && old(fighterMode) == mode ==>
        Scans() == old(Scans())
      ensures !(old(this.fighters) == fighters && old(fighterOwner) == owner && old(fighterMode) == mode) ==>
        Scans() == old(Scans()).(fighters := fighters, fighterOwner := owner, fighterMode := mode,
                                 fighterDate := if fighters == 0 then None else Some(now))
      ensures warpsOut == old(warpsOut) && warpsIn == old(warpsIn) && fullyMapped == old(fullyMapped)
    {
      if this.fighters == fighters && fighterOwner == owner && fighterMode == mode {
        return;
      }
      this.fighters := fighters;
      fighterOwner := owner;
      fighterMode := mode;
      fighterDate := if fighters == 0 then None else Some(now);
    }

    /** getScanDate: the later of the holo and density dates, or whichever one exists. */
    function GetScanDate(): (r: Option<Date>)
      reads this
      ensures r == Later(holoDate, densityDate)
    {
      if holoDate.None? then densityDate
      else if densityDate.None? then holoDate
      else if densityDate.value > holoDate.value then densityDate else holoDate
    }

    /** toString: the sector number, written so that parsing it gives the number back. */
    function ToString(): (s: string)
      reads this
      ensures |s| > 0
      ensures JavaInt.IsInt32(number) ==> JavaInt.ParseInt(s) == Some(number)
    {
      if JavaInt.IsInt32(number) then
        JavaInt.ParseIntToString(number);
        JavaInt.IntToString(number)
      else
        JavaInt.IntToString(number)
    }
  }

  /**
   * The skip in setWarpsOut as written: a sector known to warp to 2 and 3,
   * told that it warps to 2 and 4, keeps 2 and 3; a new sector told that it
   * warps to 4 and 2 keeps that order yet flags it sorted.
   */
  method ReplaceWarpsOutAsWrittenExample() returns (kept: seq<int>, flaggedButUnsorted: bool)
    ensures kept == [2, 3]
    ensures flaggedButUnsorted
  {
    var s := new Sector(1);
    var _ := s.ReplaceWarpsOutAsWritten([2, 3]);
    var _ := s.ReplaceWarpsOutAsWritten([2, 4]);
    kept := s.warpsOut;
    var t := new Sector(5);
    var _ := t.ReplaceWarpsOutAsWritten([4, 2]);
    flaggedButUnsorted := t.warpsOutSorted && !(t.warpsOut[0] <= t.warpsOut[1]);
  }

  /** The corrected replacement on the same inputs: the new warps win, sorted. */
  method ReplaceWarpsOutExample() returns (kept: seq<int>, stored: seq<int>)
    ensures kept == [2, 4]
    ensures stored == [2, 4]
  {
    SortPair(2, 4);
    SortPair(4, 2);
    var s := new Sector(1);
    var _ := s.ReplaceWarpsOut([2, 3]);
    var _ := s.ReplaceWarpsOut([2, 4]);
    kept := s.warpsOut;
    var t := new Sector(5);
    var _ := t.ReplaceWarpsOut([4, 2]);
    stored := t.warpsOut;
  }
}
