/**
 * Ports and Stardock: what a port trades, inferred from its trading class
 * through two lookup tables, and the write-once and restamp-on-change rules of
 * its setters.
 *
 * A trading class 1..8 stands for a 3-bit selling mask: bit i is set when the
 * port sells product i (0 fuel ore, 1 organics, 2 equipment). Stardock is a
 * Port whose port class is always 9; Java's subclass becomes the `isStardock`
 * flag of the one Port class.
 */
module Ports {
  import opened Wrappers
  import opened Constants
  import opened JavaInt

  /** Trading class (less one) to selling mask. */
  const CLASS_TO_PRODUCT: seq<bv32> := [4, 2, 1, 3, 5, 6, 7, 0]
  /** Selling mask to trading class. */
  const PRODUCT_TO_CLASS: seq<int> := [8, 3, 2, 4, 1, 5, 6, 7]

  predicate IsProduct(p: int) { 0 <= p <= 2 }

  /** Java's `1 << product`. */
  function Bit(product: int): bv32
    requires IsProduct(product)
  {
    (1 as bv32) << product
  }

  /** The selling mask of a trading class 1..8. */
  function Mask(c: int): (m: bv32)
    requires 1 <= c <= 8
    ensures m < 8
  {
    CLASS_TO_PRODUCT[c - 1]
  }

  /** Whether a class 1..8 sells a product, read from its mask. */
  predicate SellsBit(c: int, p: int)
    requires 1 <= c <= 8 && IsProduct(p)
  {
    Mask(c) & Bit(p) != 0
  }

  /** The two tables are inverse bijections between classes 1..8 and masks 0..7. */
  lemma TablesInverse()
    ensures forall c :: 1 <= c <= 8 ==> PRODUCT_TO_CLASS[Mask(c) as int] == c
    ensures forall m :: 0 <= m < 8 ==> 1 <= PRODUCT_TO_CLASS[m] <= 8 && Mask(PRODUCT_TO_CLASS[m]) as int == m
  {
    forall c | 1 <= c <= 8
      ensures PRODUCT_TO_CLASS[Mask(c) as int] == c
    {
      if c == 1 {} else if c == 2 {} else if c == 3 {} else if c == 4 {}
      else if c == 5 {} else if c == 6 {} else if c == 7 {} else {}
    }
    forall m | 0 <= m < 8
      ensures 1 <= PRODUCT_TO_CLASS[m] <= 8 && Mask(PRODUCT_TO_CLASS[m]) as int == m
    {
      if m == 0 {} else if m == 1 {} else if m == 2 {} else if m == 3 {}
      else if m == 4 {} else if m == 5 {} else if m == 6 {} else {}
    }
  }

  /** The examples the source gives: class 7 (SSS) is mask 7, class 2 (BSB) mask 2, class 1 (BBS) mask 4. */
  lemma MaskExamples()
    ensures Mask(7) == 7 && Mask(2) == 2 && Mask(1) == 4
    ensures SellsBit(1, EQUIPMENT) && !SellsBit(1, FUEL_ORE) && !SellsBit(1, ORGANICS)
  {
  }

  /** sells(product) for a port of trading class c. */
  function SellsClass(c: int, product: int): (r: Result<bool>)
    ensures r.Err? <==> !IsProduct(product) || c > 8
    ensures !IsProduct(product) ==> r == Err(IllegalArgument)
    ensures IsProduct(product) && c < 1 ==> r == Ok(false)
  {
    if !IsProduct(product) then Err(IllegalArgument)
    else if c < 1 then Ok(false)
    else if c > 8 then Err(IndexOutOfBounds)
    else Ok(CLASS_TO_PRODUCT[c - 1] & Bit(product) != 0)
  }

  /** buys(product) for a port of trading class c. */
  function BuysClass(c: int, product: int): (r: Result<bool>)
    ensures r.Err? <==> !IsProduct(product) || c > 8
    ensures !IsProduct(product) ==> r == Err(IllegalArgument)
    ensures IsProduct(product) && c < 1 ==> r == Ok(false)
  {
    if !IsProduct(product) then Err(IllegalArgument)
    else if c < 1 then Ok(false)
    else if c > 8 then Err(IndexOutOfBounds)
    else Ok(!CLASS_TO_PRODUCT[c - 1] & Bit(product) != 0)
  }

  /** A port of a known class 1..8 buys exactly the products it does not sell. */
  lemma BuysIsNotSells(c: int, p: int)
    requires 1 <= c <= 8 && IsProduct(p)
    ensures SellsClass(c, p) == Ok(SellsBit(c, p))
    ensures BuysClass(c, p) == Ok(!SellsBit(c, p))
  {
    var m := Mask(c);
    assert Bit(p) == 1 || Bit(p) == 2 || Bit(p) == 4;
    assert (!m & Bit(p) != 0) == !(m & Bit(p) != 0);
  }

  // ---------------------------------------------------------------------
  // setTradingClass(char[])

  /** A port-report indicator that means the product is sold: ' ' or 'S'. */
  predicate IsSellIndicator(c: char) { c == ' ' || c == 'S' }

  /** The value of `1 << i` as an int. */
  function BitValue(i: int): (v: int)
    requires IsProduct(i)
    ensures v == Bit(i) as int
  {
    assert Bit(0) == 1 && Bit(1) == 2 && Bit(2) == 4;
    if i == 0 then 1 else if i == 1 then 2 else 4
  }

  /** The mask accumulated over the first n indicators. */
  function CodePrefix(indicators: seq<char>, n: nat): int
    requires n <= 3 && |indicators| >= 3
  {
    if n == 0 then 0
    else CodePrefix(indicators, n - 1) + if IsSellIndicator(indicators[n - 1]) then BitValue(n - 1) else 0
  }

  /** The three-bit code with bit 0, 1, 2 set exactly when a, b, c hold. */
  lemma ThreeBits(a: bool, b: bool, c: bool)
    ensures var m := (if a then 1 else 0) + (if b then 2 else 0) + (if c then 4 else 0);
      0 <= m < 8 &&
      (m as bv32 & 1 != 0) == a && (m as bv32 & 2 != 0) == b && (m as bv32 & 4 != 0) == c
  {
    if a {
      if b { if c { assert 7 as bv32 == 7; } else { assert 3 as bv32 == 3; } }
      else { if c { assert 5 as bv32 == 5; } else { assert 1 as bv32 == 1; } }
    } else {
      if b { if c { assert 6 as bv32 == 6; } else { assert 2 as bv32 == 2; } }
      else { if c { assert 4 as bv32 == 4; } else { assert 0 as bv32 == 0; } }
    }
  }

  /** Bit i of the full code is set exactly when indicator i means "sells". */
  lemma CodeBits(indicators: seq<char>)
    requires |indicators| >= 3
    ensures 0 <= CodePrefix(indicators, 3) < 8
    ensures forall i :: IsProduct(i) ==>
      ((CodePrefix(indicators, 3) as bv32 & Bit(i) != 0) <==> IsSellIndicator(indicators[i]))
  {
    var a, b, c := IsSellIndicator(indicators[0]), IsSellIndicator(indicators[1]), IsSellIndicator(indicators[2]);
    assert CodePrefix(indicators, 1) == if a then 1 else 0;
    assert CodePrefix(indicators, 2) == (if a then 1 else 0) + (if b then 2 else 0);
    assert CodePrefix(indicators, 3) == (if a then 1 else 0) + (if b then 2 else 0) + (if c then 4 else 0);
    ThreeBits(a, b, c);
    assert Bit(0) == 1 && Bit(1) == 2 && Bit(2) == 4;
  }

  /** The trading class setTradingClass(char[]) assigns for these indicators. */
  function IndicatorClass(indicators: seq<char>): int
    requires |indicators| >= 3
  {
    CodeBits(indicators);
    PRODUCT_TO_CLASS[CodePrefix(indicators, 3)]
  }

  /** A class inferred from indicators sells exactly the products marked ' ' or 'S'. */
  lemma IndicatorClassRoundTrip(indicators: seq<char>, p: int)
    requires |indicators| >= 3 && IsProduct(p)
    ensures 1 <= IndicatorClass(indicators) <= 8
    ensures SellsClass(IndicatorClass(indicators), p) == Ok(IsSellIndicator(indicators[p]))
  {
    TablesInverse();
    CodeBits(indicators);
    var code := CodePrefix(indicators, 3);
    assert Mask(IndicatorClass(indicators)) as int == code;
  }

  // ---------------------------------------------------------------------
  // canCrossTrade / canTripleTrade

  /** canCrossTrade for ports of classes c1 and c2. */
  function CrossTrade(c1: int, c2: int, product1: int, product2: int): (r: Result<bool>)
    ensures r == Err(IllegalArgument) <==> !IsProduct(product1) || !IsProduct(product2) || product1 == product2
    ensures r.Ok? && (c1 < 1 || c2 < 1) ==> !r.value
  {
    if !IsProduct(product1) || !IsProduct(product2) || product1 == product2 then Err(IllegalArgument)
    else if c1 < 1 || c2 < 1 then Ok(false)
    else if c1 > 8 || c2 > 8 then Err(IndexOutOfBounds)
    else
      var mask := Bit(product1) + Bit(product2);
      var p1 := CLASS_TO_PRODUCT[c1 - 1] & mask;
      var p2 := CLASS_TO_PRODUCT[c2 - 1] & mask;
      Ok(p1 != 0 && p2 != 0 && (p1 ^ p2) == mask)
  }

  /** Mask facts over the three products, as separate bits. */
  lemma CrossBits(x: bv32, y: bv32, a: bv32, b: bv32)
    requires x < 8 && y < 8
    requires (a == 1 || a == 2 || a == 4) && (b == 1 || b == 2 || b == 4) && a != b
    ensures var p1 := x & (a + b); var p2 := y & (a + b);
      (p1 != 0 && p2 != 0 && (p1 ^ p2) == a + b) <==>
      ((x & a != 0) != (y & a != 0) && (x & b != 0) != (y & b != 0) && (x & a != 0) != (x & b != 0))
  {
  }

  /**
   * Two ports can cross-trade two products exactly when each sells one of
   * them and buys the other, and the other port does the opposite.
   */
  lemma CrossTradeMeaning(c1: int, c2: int, p1: int, p2: int)
    requires 1 <= c1 <= 8 && 1 <= c2 <= 8 && IsProduct(p1) && IsProduct(p2) && p1 != p2
    ensures CrossTrade(c1, c2, p1, p2) == Ok(
      SellsBit(c1, p1) != SellsBit(c2, p1) &&
      SellsBit(c1, p2) != SellsBit(c2, p2) &&
      SellsBit(c1, p1) != SellsBit(c1, p2))
  {
    assert Bit(0) == 1 && Bit(1) == 2 && Bit(2) == 4;
    CrossBits(Mask(c1), Mask(c2), Bit(p1), Bit(p2));
  }

  /** canCrossTrade does not depend on which port asks. */
  lemma CrossTradeSymmetric(c1: int, c2: int, p1: int, p2: int)
    ensures CrossTrade(c1, c2, p1, p2) == CrossTrade(c2, c1, p1, p2)
  {
    if IsProduct(p1) && IsProduct(p2) && p1 != p2 && 1 <= c1 <= 8 && 1 <= c2 <= 8 {
      CrossTradeMeaning(c1, c2, p1, p2);
      CrossTradeMeaning(c2, c1, p1, p2);
    }
  }

  /** canTripleTrade for ports of classes c1 and c2. */
  function TripleTrade(c1: int, c2: int): (r: Result<bool>)
    ensures r.Err? <==> c1 >= 1 && c2 >= 1 && (c1 > 8 || c2 > 8)
    ensures r.Ok? && (c1 < 1 || c2 < 1) ==> !r.value
  {
    if c1 < 1 || c2 < 1 then Ok(false)
    else if c1 > 8 || c2 > 8 then Err(IndexOutOfBounds)
    else
      var p1 := CLASS_TO_PRODUCT[c1 - 1];
      var p2 := CLASS_TO_PRODUCT[c2 - 1];
      Ok(p1 != 0 && p2 != 0 && (p1 ^ p2) == 7)
  }

  lemma TripleBits(x: bv32, y: bv32)
    requires x < 8 && y < 8
    ensures (x != 0 && y != 0 && (x ^ y) == 7) <==>
      ((x & 1 != 0) != (y & 1 != 0) && (x & 2 != 0) != (y & 2 != 0) && (x & 4 != 0) != (y & 4 != 0) &&
       x != 0 && y != 0)
  {
  }

  /**
   * Two ports can triple-trade exactly when every product is sold by one of
   * them and bought by the other, and each sells at least one product.
   */
  lemma TripleTradeMeaning(c1: int, c2: int)
    requires 1 <= c1 <= 8 && 1 <= c2 <= 8
    ensures TripleTrade(c1, c2) == Ok(
      (forall p :: IsProduct(p) ==> SellsBit(c1, p) != SellsBit(c2, p)) &&
      (SellsBit(c1, 0) || SellsBit(c1, 1) || SellsBit(c1, 2)) &&
      (SellsBit(c2, 0) || SellsBit(c2, 1) || SellsBit(c2, 2)))
  {
    var x, y := Mask(c1), Mask(c2);
    assert Bit(0) == 1 && Bit(1) == 2 && Bit(2) == 4;
    TripleBits(x, y);
    assert x != 0 <==> (x & 1 != 0 || x & 2 != 0 || x & 4 != 0);
    assert y != 0 <==> (y & 1 != 0 || y & 2 != 0 || y & 4 != 0);
    assert (forall p :: IsProduct(p) ==> SellsBit(c1, p) != SellsBit(c2, p)) <==>
      (SellsBit(c1, 0) != SellsBit(c2, 0) && SellsBit(c1, 1) != SellsBit(c2, 1) && SellsBit(c1, 2) != SellsBit(c2, 2));
  }

  lemma TripleTradeSymmetric(c1: int, c2: int)
    ensures TripleTrade(c1, c2) == TripleTrade(c2, c1)
  {
    if 1 <= c1 <= 8 && 1 <= c2 <= 8 {
      var x, y := Mask(c1), Mask(c2);
      assert (x ^ y) == (y ^ x);
    }
  }

  // ---------------------------------------------------------------------
  // getProductString

  /** The letter getProductString writes for product i. */
  function ProductLetter(c: int, i: int): Result<char>
    requires IsProduct(i)
  {
    match SellsClass(c, i)
    case Ok(s) => Ok(if s then 'S' else 'B')
    case Err(e) => Err(e)
  }

  /** getProductString for a port of trading class c. */
  function ProductString(c: int): (r: Result<string>)
    ensures c == UNKNOWN <==> r == Ok("???")
    ensures r.Err? <==> c > 8
    ensures r.Ok? && c != UNKNOWN ==>
      |r.value| == 3 &&
      forall i :: 0 <= i < 3 ==> r.value[i] == (if SellsClass(c, i) == Ok(true) then 'S' else 'B')
  {
    if c == UNKNOWN then Ok("???")
    else if c > 8 then Err(IndexOutOfBounds)
    else Ok([ProductLetter(c, 0).value, ProductLetter(c, 1).value, ProductLetter(c, 2).value])
  }

  /** A class set from indicators prints those indicators back as 'S' and 'B'. */
  lemma ProductStringOfIndicators(indicators: seq<char>)
    requires |indicators| >= 3
    ensures ProductString(IndicatorClass(indicators)).Ok?
    ensures forall i :: 0 <= i < 3 ==>
      ProductString(IndicatorClass(indicators)).value[i] == if IsSellIndicator(indicators[i]) then 'S' else 'B'
  {
    IndicatorClassRoundTrip(indicators, 0);
    IndicatorClassRoundTrip(indicators, 1);
    IndicatorClassRoundTrip(indicators, 2);
  }

  // ---------------------------------------------------------------------
  // The port record

  class Port {
    /** The sector the port belongs to, by number. */
    const sector: int
    /** True for a Stardock. */
    const isStardock: bool
    var name: Option<string>
    var status: Option<PortStatus>
    var statusDate: Option<Date>
    const mcic: array<int>
    var tradingClass: int
    const levels: array<int>
    const percents: array<int>
    const capacities: array<int>
    var reportDate: Option<Date>
    var credits: int
    var creditsDate: Option<Date>
    var bustDate: Option<Date>

    ghost predicate Valid()
    {
      mcic.Length == 3 && levels.Length == 3 && percents.Length == 3 && capacities.Length == 3 &&
      levels != percents && levels != capacities && percents != capacities
    }

    /** A port seen for the first time: everything unknown, all readings zero. */
    constructor (sector: int)
      ensures Valid() && fresh(mcic) && fresh(levels) && fresh(percents) && fresh(capacities)
      ensures this.sector == sector && !isStardock
      ensures name == None && status == None && statusDate == None
      ensures tradingClass == UNKNOWN && credits == UNKNOWN && reportDate == None
      ensures creditsDate == None && bustDate == None
      ensures mcic[..] == [0, 0, 0] && levels[..] == [0, 0, 0] && percents[..] == [0, 0, 0] && capacities[..] == [0, 0, 0]
    {
      this.sector := sector;
      isStardock := false;
      name, status, statusDate := None, None, None;
      mcic := new int[3](_ => 0);
      tradingClass := UNKNOWN;
      levels := new int[3](_ => 0);
      percents := new int[3](_ => 0);
      capacities := new int[3](_ => 0);
      reportDate := None;
      credits := UNKNOWN;
      creditsDate, bustDate := None, None;
    }

    /** Stardock(Sector): Stardock found by normal discovery; its trading class is still unknown. */
    constructor Stardock(sector: int)
      ensures Valid() && fresh(mcic) && fresh(levels) && fresh(percents) && fresh(capacities)
      ensures this.sector == sector && isStardock
      ensures name == None && status == None && statusDate == None
      ensures tradingClass == UNKNOWN && credits == UNKNOWN && reportDate == None
      ensures creditsDate == None && bustDate == None
      ensures mcic[..] == [0, 0, 0] && levels[..] == [0, 0, 0] && percents[..] == [0, 0, 0] && capacities[..] == [0, 0, 0]
      ensures GetPortClass() == 9 && tradingClass != GetPortClass()
    {
      this.sector := sector;
      isStardock := true;
      name, status, statusDate := None, None, None;
      mcic := new int[3](_ => 0);
      tradingClass := UNKNOWN;
      levels := new int[3](_ => 0);
      percents := new int[3](_ => 0);
      capacities := new int[3](_ => 0);
      reportDate := None;
      credits := UNKNOWN;
      creditsDate, bustDate := None, None;
    }

    /**
     * Stardock(Port): replaces a port later found to be Stardock. The sector,
     * trading class, readings and report date are copied; the name, status
     * and credits are not.
     */
    constructor StardockFrom(port: Port)
      requires port.Valid()
      ensures Valid() && fresh(mcic) && fresh(levels) && fresh(percents) && fresh(capacities)
      ensures isStardock && sector == port.sector
      ensures tradingClass == port.tradingClass && reportDate == port.reportDate
      ensures levels[..] == port.levels[..] && percents[..] == port.percents[..] && capacities[..] == port.capacities[..]
      ensures name == None && status == None && statusDate == None && credits == UNKNOWN
      ensures creditsDate == None && bustDate == None
      ensures mcic[..] == [0, 0, 0]
      ensures GetPortClass() == 9
    {
      sector := port.sector;
      isStardock := true;
      name, status, statusDate := None, None, None;
      mcic := new int[3](_ => 0);
      tradingClass := port.tradingClass;
      levels := new int[3](i reads port.levels => if 0 <= i < 3 then port.levels[i] else 0);
      percents := new int[3](i reads port.percents => if 0 <= i < 3 then port.percents[i] else 0);
      capacities := new int[3](i reads port.capacities => if 0 <= i < 3 then port.capacities[i] else 0);
      reportDate := port.reportDate;
      credits := UNKNOWN;
      creditsDate, bustDate := None, None;
    }

    /** getPortClass: the trading class, except that Stardock is always class 9. */
    function GetPortClass(): (c: int)
      reads this`tradingClass
      ensures isStardock ==> c == 9
      ensures !isStardock ==> c == tradingClass
    {
      if isStardock then 9 else tradingClass
    }

    /** setName: write-once. */
    method SetName(name: string)
      modifies this`name
      ensures this.name == if old(this.name) == None then Some(name) else old(this.name)
      ensures tradingClass == old(tradingClass) && status == old(status) && statusDate == old(statusDate)
      ensures reportDate == old(reportDate) && credits == old(credits)
    {
      if this.name == None {
        this.name := Some(name);
      }
    }

    /** setStatus: the status date is restamped only when the status actually changes. */
    method SetStatus(status: PortStatus, now: Date)
      modifies this`status, this`statusDate
      ensures this.status == Some(status)
      ensures statusDate == if old(this.status) != Some(status) then Some(now) else old(statusDate)
      ensures name == old(name) && tradingClass == old(tradingClass) && reportDate == old(reportDate)
      ensures credits == old(credits)
    {
      if this.status != Some(status) {
        statusDate := Some(now);
        this.status := Some(status);
      }
    }

    method SetCapacity(product: int, capacity: int)
      requires Valid() && IsProduct(product)
      modifies capacities
      ensures capacities[..] == old(capacities[..])[product := capacity]
    {
      capacities[product] := capacity;
    }

    method SetCredits(credits: int, now: Date)
      modifies this`credits, this`creditsDate
      ensures this.credits == credits && creditsDate == Some(now)
      ensures name == old(name) && status == old(status) && tradingClass == old(tradingClass)
    {
      this.credits := credits;
      creditsDate := Some(now);
    }

    /** setReport(levels, percents): copies both readings and stamps the report date. */
    method SetReport(levels: seq<int>, percents: seq<int>, now: Date)
      requires Valid() && |levels| == 3 && |percents| == 3
      modifies this`reportDate, this.levels, this.percents
      ensures this.levels[..] == levels && this.percents[..] == percents && reportDate == Some(now)
      ensures capacities[..] == old(capacities[..])
      ensures name == old(name) && status == old(status) && statusDate == old(statusDate) && tradingClass == old(tradingClass)
    {
      this.levels[0], this.levels[1], this.levels[2] := levels[0], levels[1], levels[2];
      this.percents[0], this.percents[1], this.percents[2] := percents[0], percents[1], percents[2];
      reportDate := Some(now);
    }

    /** setTradingClass(int): write-once while the class is UNKNOWN. */
    method SetTradingClass(tradingClass: int)
      modifies this`tradingClass
      ensures this.tradingClass == if old(this.tradingClass) == UNKNOWN then tradingClass else old(this.tradingClass)
      ensures name == old(name) && status == old(status) && statusDate == old(statusDate)
      ensures reportDate == old(reportDate) && credits == old(credits)
    {
      if this.tradingClass == UNKNOWN {
        this.tradingClass := tradingClass;
      }
    }

    /**
     * setTradingClass(char[]): while the class is UNKNOWN, build the selling
     * mask from the indicators (bit i for ' ' or 'S') and map it to a class.
     */
    method SetTradingClassFromIndicators(indicators: seq<char>)
      requires |indicators| >= 3
      modifies this`tradingClass
      ensures tradingClass == if old(tradingClass) == UNKNOWN then IndicatorClass(indicators) else old(tradingClass)
      ensures name == old(name) && status == old(status) && statusDate == old(statusDate)
      ensures reportDate == old(reportDate) && credits == old(credits)
    {
      if tradingClass == UNKNOWN {
        var productCode := 0;
        var i := 0;
        while i < 3
          invariant 0 <= i <= 3
          invariant productCode == CodePrefix(indicators, i)
        {
          if indicators[i] == ' ' || indicators[i] == 'S' {
            productCode := productCode + BitValue(i);
          }
          i := i + 1;
        }
        CodeBits(indicators);
        tradingClass := PRODUCT_TO_CLASS[productCode];
      }
    }

    function Sells(product: int): (r: Result<bool>)
      reads this`tradingClass
      ensures r == SellsClass(tradingClass, product)
    {
      SellsClass(tradingClass, product)
    }

    function Buys(product: int): (r: Result<bool>)
      reads this`tradingClass
      ensures r == BuysClass(tradingClass, product)
    {
      BuysClass(tradingClass, product)
    }

    /** getMCIC(product): rejects anything but the three products. */
    function GetMcic(product: int): (r: Result<int>)
      requires Valid()
      reads this, mcic
      ensures r.Err? <==> !IsProduct(product)
      ensures r.Ok? ==> r.value == mcic[product]
    {
      if !IsProduct(product) then Err(IllegalArgument) else Ok(mcic[product])
    }

    /** getProductString, built one letter per product as the source does. */
    method GetProductString() returns (r: Result<string>)
      ensures r == ProductString(tradingClass)
    {
      if tradingClass == UNKNOWN {
        return Ok("???");
      }
      var sb := "";
      var i := 0;
      while i < 3
        invariant 0 <= i <= 3 && |sb| == i
        invariant forall k :: 0 <= k < i ==> ProductLetter(tradingClass, k) == Ok(sb[k])
      {
        var s := SellsClass(tradingClass, i);
        if s.Err? {
          return Err(s.error);
        }
        sb := sb + [if s.value then 'S' else 'B'];
        i := i + 1;
      }
      assert sb == [ProductLetter(tradingClass, 0).value, ProductLetter(tradingClass, 1).value, ProductLetter(tradingClass, 2).value];
      r := Ok(sb);
    }

    function CanCrossTrade(other: Port, product1: int, product2: int): (r: Result<bool>)
      reads this, other
      ensures r == CrossTrade(tradingClass, other.tradingClass, product1, product2)
    {
      CrossTrade(tradingClass, other.tradingClass, product1, product2)
    }

    function CanTripleTrade(other: Port): (r: Result<bool>)
      reads this, other
      ensures r == TripleTrade(tradingClass, other.tradingClass)
    {
      TripleTrade(tradingClass, other.tradingClass)
    }

    /** toString: "<name>, Class <c>" once named, else "Unidentified Class <c>". */
    function ToString(): (s: string)
      reads this
      ensures name.Some? ==> s == name.value + ", Class " + IntToString(GetPortClass())
      ensures name.None? ==> s == "Unidentified Class " + IntToString(GetPortClass())
    {
      match name
      case Some(n) => n + ", Class " + IntToString(GetPortClass())
      case None => "Unidentified Class " + IntToString(GetPortClass())
    }
  }
}
