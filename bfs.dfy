/**
 * Breadth-first search of the sector graph from an origin sector, including
 * sectors an include matcher accepts and stopping at the first sector a
 * target matcher accepts, with at most `limit` nodes (0 = no limit).
 *
 * The search is written once with a `corrected` switch: with it off, the
 * search expands the origin's warps for every parent, as the source does, and
 * can overrun its node array when the limit is 1; with it on, it expands each
 * parent's own warps and stops once the origin alone fills the limit.
 */
module BreadthFirstSearches {
  import opened Wrappers
  import opened JavaInt
  import opened SearchNodes
  import opened NodeMatchers

  /** sectors[k] is sector k+1, and every warp leads to a sector of the array. */
  predicate ValidSectors(sectors: seq<SectorView>)
  {
    forall k :: 0 <= k < |sectors| ==>
      sectors[k].number == k + 1 &&
      forall w :: w in sectors[k].warpsOut ==> 1 <= w <= |sectors|
  }

  /** The length of the ordered array: min(limit, sectors), where limit 0 means Integer.MAX_VALUE. */
  function Capacity(limit: int, n: nat): int
  {
    Min(if limit == 0 then INT_MAX else limit, n)
  }

  /** The state of a finished search: getNode per sector, getNodes, and getTargetNode. */
  datatype SearchTree = SearchTree(included: seq<Option<Node>>, ordered: seq<Node>, targetNode: Option<Node>)

  /** Why the search returned. */
  datatype Stop = OriginIsTarget | OriginRejected | TargetMatched | Full | Exhausted

  /** The origin node: the origin sector with no parent. */
  function OriginNode(sectors: seq<SectorView>, origin: int): (o: Node)
    requires 1 <= origin <= |sectors|
    ensures o.sector == sectors[origin - 1] && o.parent.None? && o.distance == 0
  {
    NewNode(sectors[origin - 1], None)
  }

  /**
   * The shape of a search tree: the nodes are distinct sectors of the graph,
   * listed in order of non-decreasing distance, the first is the origin, every
   * node's parent chain follows warps back to the origin, and `included`
   * indexes the listed nodes by sector.
   */
  predicate Tree(sectors: seq<SectorView>, origin: int, inc: seq<Option<Node>>, ord: seq<Node>)
  {
    1 <= origin <= |sectors| &&
    (|ord| > 0 ==> ord[0] == OriginNode(sectors, origin)) &&
    NodesOf(sectors, origin, ord) && Distinct(ord) && SortedByDistance(ord) &&
    inc == Included(|sectors|, ord)
  }

  predicate NodesOf(sectors: seq<SectorView>, origin: int, ord: seq<Node>)
    requires 1 <= origin <= |sectors|
  {
    forall k :: 0 <= k < |ord| ==>
      1 <= ord[k].sector.number <= |sectors| &&
      InGraph(sectors, ord[k]) && WellFormed(ord[k]) && FollowsWarps(ord[k]) &&
      Root(ord[k]) == OriginNode(sectors, origin)
  }

  /** Every node on the parent chain stands for the sector of the array with its number. */
  predicate InGraph(sectors: seq<SectorView>, n: Node)
  {
    1 <= n.sector.number <= |sectors| && n.sector == sectors[n.sector.number - 1] &&
    (n.parent.Some? ==> InGraph(sectors, n.parent.value))
  }

  predicate Distinct(ord: seq<Node>)
  {
    forall k1, k2 :: 0 <= k1 < k2 < |ord| ==> ord[k1].sector.number != ord[k2].sector.number
  }

  predicate SortedByDistance(ord: seq<Node>)
  {
    forall k1, k2 :: 0 <= k1 < k2 < |ord| ==> ord[k1].distance <= ord[k2].distance
  }

  /** The `included` array of n sectors after the nodes of `ord` were recorded in order. */
  function Included(n: nat, ord: seq<Node>): (inc: seq<Option<Node>>)
    ensures |inc| == n
  {
    if ord == [] then seq(n, _ => None)
    else
      var last := ord[|ord| - 1];
      var inc0 := Included(n, ord[..|ord| - 1]);
      if 1 <= last.sector.number <= n then inc0[last.sector.number - 1 := Some(last)] else inc0
  }

  lemma IncludedAppend(n: nat, ord: seq<Node>, child: Node)
    requires 1 <= child.sector.number <= n
    ensures Included(n, ord + [child]) == Included(n, ord)[child.sector.number - 1 := Some(child)]
  {
    assert (ord + [child])[..|ord|] == ord;
  }

  /** A sector is included exactly when a node for it is listed, and then it is that node. */
  lemma {:induction false} IncludedSpec(n: nat, ord: seq<Node>, s: int)
    requires Distinct(ord) && 0 <= s < n
    ensures Included(n, ord)[s].Some? <==> exists k :: 0 <= k < |ord| && ord[k].sector.number == s + 1
    ensures forall k :: 0 <= k < |ord| && ord[k].sector.number == s + 1 ==> Included(n, ord)[s] == Some(ord[k])
    decreases |ord|
  {
    if ord != [] {
      var front, last := ord[..|ord| - 1], ord[|ord| - 1];
      assert ord == front + [last];
      IncludedSpec(n, front, s);
      if last.sector.number == s + 1 {
        assert Included(n, ord)[s] == Some(last);
      } else {
        assert Included(n, ord)[s] == Included(n, front)[s];
        if Included(n, ord)[s].Some? {
          var k :| 0 <= k < |front| && front[k].sector.number == s + 1;
          assert ord[k] == front[k];
        }
        forall k | 0 <= k < |ord| && ord[k].sector.number == s + 1
          ensures Included(n, ord)[s] == Some(ord[k])
        {
          assert k < |front| && ord[k] == front[k];
        }
      }
    }
  }

  /**
   * Every listed node passed the inclusion matcher and failed the target
   * matcher, except a recorded target node, which is the last one listed.
   */
  predicate Matching(ord: seq<Node>, targetNode: Option<Node>, inclusion: NodeMatcher, target: NodeMatcher)
  {
    (targetNode.Some? ==> |ord| > 0 && targetNode.value == ord[|ord| - 1] && Matches(target, targetNode.value)) &&
    (forall k :: 0 <= k < |ord| && !(targetNode.Some? && k == |ord| - 1) ==>
      Matches(inclusion, ord[k]) && !Matches(target, ord[k]))
  }

  /** Appending a child of a listed node, for a sector not yet listed, keeps the tree shape. */
  lemma TreeAdd(sectors: seq<SectorView>, origin: int, inc: seq<Option<Node>>, ord: seq<Node>, i: int, w: int)
    requires ValidSectors(sectors) && Tree(sectors, origin, inc, ord)
    requires 0 <= i < |ord| && 1 <= w <= |sectors| && w in ord[i].sector.warpsOut
    requires forall k :: 0 <= k < |ord| ==> ord[k].sector.number != w
    requires ord[|ord| - 1].distance <= ord[i].distance + 1
    ensures var child := NewNode(sectors[w - 1], Some(ord[i]));
      Tree(sectors, origin, inc[w - 1 := Some(child)], ord + [child])
  {
    var child := NewNode(sectors[w - 1], Some(ord[i]));
    assert sectors[w - 1].number == w;
    SortedBound(ord, i);
    AddNodes(sectors, origin, ord, i, w);
    AddDistinct(ord, child);
    AddSorted(ord, child);
    IncludedAppend(|sectors|, ord, child);
  }

  lemma AddNodes(sectors: seq<SectorView>, origin: int, ord: seq<Node>, i: int, w: int)
    requires ValidSectors(sectors) && 1 <= origin <= |sectors| && NodesOf(sectors, origin, ord)
    requires 0 <= i < |ord| && 1 <= w <= |sectors| && w in ord[i].sector.warpsOut
    ensures NodesOf(sectors, origin, ord + [NewNode(sectors[w - 1], Some(ord[i]))])
  {
    var child := NewNode(sectors[w - 1], Some(ord[i]));
    var ord' := ord + [child];
    forall k | 0 <= k < |ord'|
      ensures 1 <= ord'[k].sector.number <= |sectors| &&
        InGraph(sectors, ord'[k]) && WellFormed(ord'[k]) && FollowsWarps(ord'[k]) &&
        Root(ord'[k]) == OriginNode(sectors, origin)
    {
      if k < |ord| {
        assert ord'[k] == ord[k];
      } else {
        assert ord'[k] == child;
        assert sectors[w - 1].number == w;
      }
    }
  }

  lemma AddDistinct(ord: seq<Node>, child: Node)
    requires Distinct(ord)
    requires forall k :: 0 <= k < |ord| ==> ord[k].sector.number != child.sector.number
    ensures Distinct(ord + [child])
  {
  }

  lemma AddSorted(ord: seq<Node>, child: Node)
    requires SortedByDistance(ord)
    requires forall k :: 0 <= k < |ord| ==> ord[k].distance <= child.distance
    ensures SortedByDistance(ord + [child])
  {
  }

  /** The loop invariant of the search, over the state of its three arrays. */
  predicate Searching(sectors: seq<SectorView>, origin: int, inclusion: NodeMatcher, target: NodeMatcher, corrected: bool,
                      inc: seq<Option<Node>>, ord: seq<Node>, con: seq<bool>)
  {
    Tree(sectors, origin, inc, ord) && |ord| >= 1 && |con| == |sectors| &&
    Matching(ord, None, inclusion, target) &&
    ConsideredCovers(inc, ord, con, inclusion) &&
    (!corrected ==> AsWrittenShape(sectors, origin, ord))
  }

  /**
   * Every listed sector has been considered, and a considered sector is left
   * out only by an include matcher other than ALL.
   */
  predicate ConsideredCovers(inc: seq<Option<Node>>, ord: seq<Node>, con: seq<bool>, inclusion: NodeMatcher)
  {
    |inc| == |con| &&
    (forall k :: 0 <= k < |ord| ==> 1 <= ord[k].sector.number <= |con| && con[ord[k].sector.number - 1]) &&
    (forall s :: 0 <= s < |con| && con[s] && inc[s].None? ==> inclusion != All)
  }

  /** As written, every node but the origin is one warp from the origin. */
  predicate AsWrittenShape(sectors: seq<SectorView>, origin: int, ord: seq<Node>)
    requires 1 <= origin <= |sectors|
  {
    forall k :: 1 <= k < |ord| ==>
      ord[k].distance == 1 && ord[k].sector.number in sectors[origin - 1].warpsOut
  }

  /** Every warp in `warps` has been considered. */
  predicate AllConsidered(warps: seq<int>, con: seq<bool>)
  {
    forall j :: 0 <= j < |warps| ==> 1 <= warps[j] <= |con| && con[warps[j] - 1]
  }

  /** Every warp of the first `upto` listed nodes has been considered. */
  predicate ExpandedUpTo(ord: seq<Node>, con: seq<bool>, upto: int)
  {
    forall k :: 0 <= k < upto && k < |ord| ==> AllConsidered(ord[k].sector.warpsOut, con)
  }

  lemma ConsideredMember(warps: seq<int>, con: seq<bool>, w: int)
    requires AllConsidered(warps, con) && w in warps
    ensures 1 <= w <= |con| && con[w - 1]
  {
    var j :| 0 <= j < |warps| && warps[j] == w;
  }

  /** In a sorted list whose last node is at most one past node i, so is every node. */
  lemma SortedBound(ord: seq<Node>, i: int)
    requires SortedByDistance(ord) && 0 <= i < |ord|
    requires ord[|ord| - 1].distance <= ord[i].distance + 1
    ensures forall k :: 0 <= k < |ord| ==> ord[k].distance <= ord[i].distance + 1
  {
    forall k | 0 <= k < |ord|
      ensures ord[k].distance <= ord[i].distance + 1
    {
      if k < |ord| - 1 {
        assert ord[k].distance <= ord[|ord| - 1].distance;
      }
    }
  }

  /** con' has every considered flag of con. */
  predicate Grows(con: seq<bool>, con': seq<bool>)
  {
    |con| == |con'| && forall s :: 0 <= s < |con| && con[s] ==> con'[s]
  }

  lemma GrowsByOne(con: seq<bool>, s: int)
    requires 0 <= s < |con|
    ensures Grows(con, con) && Grows(con, con[s := true]) && con[s := true][s]
  {
  }

  lemma AllConsideredGrows(warps: seq<int>, con: seq<bool>, con': seq<bool>)
    requires AllConsidered(warps, con) && Grows(con, con')
    ensures AllConsidered(warps, con')
  {
  }

  lemma ExpandedGrows(ord: seq<Node>, con: seq<bool>, ord': seq<Node>, con': seq<bool>, upto: int)
    requires ExpandedUpTo(ord, con, upto) && Grows(con, con')
    requires upto <= |ord| <= |ord'| && ord'[..|ord|] == ord
    ensures ExpandedUpTo(ord', con', upto)
  {
    forall k | 0 <= k < upto && k < |ord'|
      ensures AllConsidered(ord'[k].sector.warpsOut, con')
    {
      assert ord'[k] == ord[k];
      AllConsideredGrows(ord[k].sector.warpsOut, con, con');
    }
  }

  /** A considered child the include matcher rejects leaves the invariant intact. */
  lemma SearchingReject(sectors: seq<SectorView>, origin: int, inclusion: NodeMatcher, target: NodeMatcher, corrected: bool,
                        inc: seq<Option<Node>>, ord: seq<Node>, con: seq<bool>, w: int, child: Node)
    requires Searching(sectors, origin, inclusion, target, corrected, inc, ord, con)
    requires 1 <= w <= |sectors| && !Matches(inclusion, child)
    ensures Searching(sectors, origin, inclusion, target, corrected, inc, ord, con[w - 1 := true])
  {
    assert inclusion != All;
  }

  lemma MatchingAdd(ord: seq<Node>, child: Node, inclusion: NodeMatcher, target: NodeMatcher)
    requires Matching(ord, None, inclusion, target)
    requires Matches(inclusion, child) && !Matches(target, child)
    ensures Matching(ord + [child], None, inclusion, target)
  {
    var ord' := ord + [child];
    forall k | 0 <= k < |ord'|
      ensures Matches(inclusion, ord'[k]) && !Matches(target, ord'[k])
    {
      if k < |ord| { assert ord'[k] == ord[k]; }
    }
  }

  lemma MatchingTarget(ord: seq<Node>, child: Node, inclusion: NodeMatcher, target: NodeMatcher)
    requires Matching(ord, None, inclusion, target)
    requires Matches(target, child)
    ensures Matching(ord + [child], Some(child), inclusion, target)
  {
    var ord' := ord + [child];
    forall k | 0 <= k < |ord'| && k != |ord'| - 1
      ensures Matches(inclusion, ord'[k]) && !Matches(target, ord'[k])
    {
      assert ord'[k] == ord[k];
    }
  }

  lemma CoversAdd(inc: seq<Option<Node>>, ord: seq<Node>, con: seq<bool>, inclusion: NodeMatcher, child: Node)
    requires ConsideredCovers(inc, ord, con, inclusion) && 1 <= child.sector.number <= |con|
    ensures var s := child.sector.number - 1;
      ConsideredCovers(inc[s := Some(child)], ord + [child], con[s := true], inclusion)
  {
    var s := child.sector.number - 1;
    var ord', con' := ord + [child], con[s := true];
    forall k | 0 <= k < |ord'|
      ensures 1 <= ord'[k].sector.number <= |con'| && con'[ord'[k].sector.number - 1]
    {
      if k < |ord| { assert ord'[k] == ord[k]; }
    }
  }

  lemma AsWrittenAdd(sectors: seq<SectorView>, origin: int, ord: seq<Node>, w: int)
    requires ValidSectors(sectors) && 1 <= origin <= |sectors| && 1 <= w <= |sectors|
    requires |ord| >= 1 && ord[0] == OriginNode(sectors, origin)
    requires AsWrittenShape(sectors, origin, ord) && w in sectors[origin - 1].warpsOut
    ensures AsWrittenShape(sectors, origin, ord + [NewNode(sectors[w - 1], Some(ord[0]))])
  {
    var ord' := ord + [NewNode(sectors[w - 1], Some(ord[0]))];
    forall k | 1 <= k < |ord'|
      ensures ord'[k].distance == 1 && ord'[k].sector.number in sectors[origin - 1].warpsOut
    {
      if k < |ord| { assert ord'[k] == ord[k]; } else { assert sectors[w - 1].number == w; }
    }
  }

  /** The facts Consider needs about a fresh child: it is new, and as written it hangs off the origin. */
  predicate FreshChild(sectors: seq<SectorView>, origin: int, corrected: bool, ord: seq<Node>, con: seq<bool>, i: int, w: int)
    requires ValidSectors(sectors) && 1 <= origin <= |sectors| && 0 <= i < |ord|
  {
    1 <= w <= |sectors| && |con| == |sectors| && !con[w - 1] &&
    w in ord[i].sector.warpsOut &&
    ord[|ord| - 1].distance <= ord[i].distance + 1 &&
    (!corrected ==> i == 0)
  }

  /** A considered child the include matcher accepts is appended, keeping the invariant. */
  lemma SearchingAdd(sectors: seq<SectorView>, origin: int, inclusion: NodeMatcher, target: NodeMatcher, corrected: bool,
                     inc: seq<Option<Node>>, ord: seq<Node>, con: seq<bool>, i: int, w: int)
    requires ValidSectors(sectors) && 1 <= origin <= |sectors| && 0 <= i < |ord|
    requires Searching(sectors, origin, inclusion, target, corrected, inc, ord, con)
    requires FreshChild(sectors, origin, corrected, ord, con, i, w)
    requires var child := NewNode(sectors[w - 1], Some(ord[i]));
      Matches(inclusion, child) && !Matches(target, child)
    ensures var child := NewNode(sectors[w - 1], Some(ord[i]));
      Searching(sectors, origin, inclusion, target, corrected, inc[w - 1 := Some(child)], ord + [child], con[w - 1 := true])
  {
    var child := NewNode(sectors[w - 1], Some(ord[i]));
    TreeAdd(sectors, origin, inc, ord, i, w);
    MatchingAdd(ord, child, inclusion, target);
    CoversAdd(inc, ord, con, inclusion, child);
    if !corrected {
      AsWrittenAdd(sectors, origin, ord, w);
    }
  }

  /** The recorded target child, appended as the last node. */
  lemma TargetAdd(sectors: seq<SectorView>, origin: int, inclusion: NodeMatcher, target: NodeMatcher, corrected: bool,
                  inc: seq<Option<Node>>, ord: seq<Node>, con: seq<bool>, i: int, w: int)
    requires ValidSectors(sectors) && 1 <= origin <= |sectors| && 0 <= i < |ord|
    requires Searching(sectors, origin, inclusion, target, corrected, inc, ord, con)
    requires FreshChild(sectors, origin, corrected, ord, con, i, w)
    requires Matches(target, NewNode(sectors[w - 1], Some(ord[i])))
    ensures var child := NewNode(sectors[w - 1], Some(ord[i]));
      Found(sectors, origin, inclusion, target, corrected, inc[w - 1 := Some(child)], ord + [child], Some(child))
  {
    var child := NewNode(sectors[w - 1], Some(ord[i]));
    TreeAdd(sectors, origin, inc, ord, i, w);
    MatchingTarget(ord, child, inclusion, target);
    if !corrected {
      AsWrittenAdd(sectors, origin, ord, w);
    }
  }

  /** What holds of the arrays when the search stops early. */
  predicate Found(sectors: seq<SectorView>, origin: int, inclusion: NodeMatcher, target: NodeMatcher, corrected: bool,
                  inc: seq<Option<Node>>, ord: seq<Node>, targetNode: Option<Node>)
  {
    Tree(sectors, origin, inc, ord) &&
    Matching(ord, targetNode, inclusion, target) &&
    (!corrected ==> AsWrittenShape(sectors, origin, ord))
  }

  lemma SearchingFound(sectors: seq<SectorView>, origin: int, inclusion: NodeMatcher, target: NodeMatcher, corrected: bool,
                       inc: seq<Option<Node>>, ord: seq<Node>, con: seq<bool>)
    requires Searching(sectors, origin, inclusion, target, corrected, inc, ord, con)
    ensures Found(sectors, origin, inclusion, target, corrected, inc, ord, None)
  {
  }

  /** What considering one warp, or expanding one parent, came to. */
  datatype Outcome = Continue | Stopped(stop: Stop, targetNode: Option<Node>) | Overrun

  /** The room left in the `ordered` array: as written, a full array of one is not noticed. */
  predicate Room(corrected: bool, capacity: nat, ord: seq<Node>)
  {
    |ord| < capacity || (!corrected && |ord| == 1 && capacity == 1)
  }

  /** How an early stop left the arrays. */
  predicate StoppedWell(sectors: seq<SectorView>, origin: int, inclusion: NodeMatcher, target: NodeMatcher,
                        includeTarget: bool, corrected: bool, capacity: nat,
                        inc: seq<Option<Node>>, ord: seq<Node>, outcome: Outcome)
    requires outcome.Stopped?
  {
    (outcome.stop == TargetMatched || outcome.stop == Full) &&
    Found(sectors, origin, inclusion, target, corrected, inc, ord, outcome.targetNode) &&
    (outcome.targetNode.Some? ==> includeTarget) &&
    (outcome.stop == TargetMatched ==> includeTarget ==> outcome.targetNode.Some?) &&
    (outcome.stop == Full ==> |ord| == capacity >= 2 && outcome.targetNode.None?)
  }

  /** What Consider promises about the arrays it returns. */
  predicate Considered(sectors: seq<SectorView>, origin: int, inclusion: NodeMatcher, target: NodeMatcher,
                       includeTarget: bool, corrected: bool, capacity: nat,
                       ord: seq<Node>, con: seq<bool>, i: nat, w: int,
                       inc': seq<Option<Node>>, ord': seq<Node>, con': seq<bool>, outcome: Outcome)
    requires ValidSectors(sectors) && 1 <= origin <= |sectors| && i < |ord|
  {
    1 <= w <= |sectors| &&
    |ord| <= |ord'| <= capacity && ord'[..|ord|] == ord &&
    (outcome == Overrun ==> !corrected && capacity == 1) &&
    (outcome == Continue ==>
      Searching(sectors, origin, inclusion, target, corrected, inc', ord', con') &&
      Room(corrected, capacity, ord') &&
      ord'[|ord'| - 1].distance <= ord[i].distance + 1 &&
      Grows(con, con') && con'[w - 1]) &&
    (outcome.Stopped? ==>
      StoppedWell(sectors, origin, inclusion, target, includeTarget, corrected, capacity, inc', ord', outcome))
  }

  /**
   * One turn of the inner loop: warp w of parent ord[i] is considered unless
   * it already was; the child is recorded as the target, included, or left
   * out. The `ordered` array holds `capacity` nodes.
   */
  method Consider(sectors: seq<SectorView>, origin: int, inclusion: NodeMatcher, target: NodeMatcher,
                  includeTarget: bool, corrected: bool, capacity: nat,
                  inc: seq<Option<Node>>, ord: seq<Node>, con: seq<bool>, i: nat, w: int)
    returns (inc': seq<Option<Node>>, ord': seq<Node>, con': seq<bool>, outcome: Outcome)
    requires ValidSectors(sectors) && 1 <= origin <= |sectors|
    requires i < |ord| <= capacity && Room(corrected, capacity, ord)
    requires Searching(sectors, origin, inclusion, target, corrected, inc, ord, con)
    requires ord[|ord| - 1].distance <= ord[i].distance + 1
    requires w in (if corrected then ord[i].sector.warpsOut else sectors[origin - 1].warpsOut)
    requires !corrected && i >= 1 ==> AllConsidered(sectors[origin - 1].warpsOut, con)
    ensures Considered(sectors, origin, inclusion, target, includeTarget, corrected, capacity, ord, con, i, w,
                       inc', ord', con', outcome)
  {
    var parent := ord[i];
    assert 1 <= w <= |sectors| by {
      if corrected {
        assert parent.sector == sectors[parent.sector.number - 1];
      }
    }
    if !corrected && i >= 1 {
      // as written, a later parent only sees the origin's warps again
      ConsideredMember(sectors[origin - 1].warpsOut, con, w);
    }
    if con[w - 1] {
      GrowsByOne(con, w - 1);
      assert ord[..|ord|] == ord;
      return inc, ord, con, Continue;
    }
    inc', ord', con', outcome := ConsiderFresh(sectors, origin, inclusion, target, includeTarget, corrected, capacity,
                                               inc, ord, con, i, w);
  }

  /** Consider, for a warp not considered before. */
  method ConsiderFresh(sectors: seq<SectorView>, origin: int, inclusion: NodeMatcher, target: NodeMatcher,
                       includeTarget: bool, corrected: bool, capacity: nat,
                       inc: seq<Option<Node>>, ord: seq<Node>, con: seq<bool>, i: nat, w: int)
    returns (inc': seq<Option<Node>>, ord': seq<Node>, con': seq<bool>, outcome: Outcome)
    requires ValidSectors(sectors) && 1 <= origin <= |sectors|
    requires i < |ord| <= capacity && Room(corrected, capacity, ord)
    requires Searching(sectors, origin, inclusion, target, corrected, inc, ord, con)
    requires FreshChild(sectors, origin, corrected, ord, con, i, w)
    ensures Considered(sectors, origin, inclusion, target, includeTarget, corrected, capacity, ord, con, i, w,
                       inc', ord', con', outcome)
  {
    var child := NewNode(sectors[w - 1], Some(ord[i]));
    if Matches(target, child) {
      if !includeTarget {
        outcome := Stopped(TargetMatched, None);
      } else if |ord| == capacity {
        outcome := Overrun;
      } else {
        TargetConsidered(sectors, origin, inclusion, target, includeTarget, corrected, capacity, inc, ord, con, i, w);
        return inc[w - 1 := Some(child)], ord + [child], con[w - 1 := true], Stopped(TargetMatched, Some(child));
      }
    } else if Matches(inclusion, child) {
      if |ord| == capacity {
        outcome := Overrun;
      } else {
        inc', ord', con' := inc[w - 1 := Some(child)], ord + [child], con[w - 1 := true];
        outcome := if |ord'| == capacity then Stopped(Full, None) else Continue;
        AddConsidered(sectors, origin, inclusion, target, includeTarget, corrected, capacity, inc, ord, con, i, w, outcome);
        return;
      }
    } else {
      outcome := Continue;
    }
    KeepConsidered(sectors, origin, inclusion, target, includeTarget, corrected, capacity, inc, ord, con, i, w, outcome);
    return inc, ord, con[w - 1 := true], outcome;
  }

  /** The outcomes that list no new node: a target left out, an overrun, or a rejected child. */
  lemma KeepConsidered(sectors: seq<SectorView>, origin: int, inclusion: NodeMatcher, target: NodeMatcher,
                       includeTarget: bool, corrected: bool, capacity: nat,
                       inc: seq<Option<Node>>, ord: seq<Node>, con: seq<bool>, i: nat, w: int, outcome: Outcome)
    requires ValidSectors(sectors) && 1 <= origin <= |sectors|
    requires i < |ord| <= capacity && Room(corrected, capacity, ord)
    requires Searching(sectors, origin, inclusion, target, corrected, inc, ord, con)
    requires FreshChild(sectors, origin, corrected, ord, con, i, w)
    requires var child := NewNode(sectors[w - 1], Some(ord[i]));
      (outcome == Stopped(TargetMatched, None) && Matches(target, child) && !includeTarget) ||
      (outcome == Overrun && |ord| == capacity && (Matches(target, child) || Matches(inclusion, child))) ||
      (outcome == Continue && !Matches(target, child) && !Matches(inclusion, child))
    ensures Considered(sectors, origin, inclusion, target, includeTarget, corrected, capacity, ord, con, i, w,
                       inc, ord, con[w - 1 := true], outcome)
  {
    var child := NewNode(sectors[w - 1], Some(ord[i]));
    GrowsByOne(con, w - 1);
    assert ord[..|ord|] == ord;
    if outcome == Continue {
      SearchingReject(sectors, origin, inclusion, target, corrected, inc, ord, con, w, child);
    } else if outcome.Stopped? {
      SearchingFound(sectors, origin, inclusion, target, corrected, inc, ord, con);
    }
  }

  /** The target child, recorded as the last node. */
  lemma TargetConsidered(sectors: seq<SectorView>, origin: int, inclusion: NodeMatcher, target: NodeMatcher,
                         includeTarget: bool, corrected: bool, capacity: nat,
                         inc: seq<Option<Node>>, ord: seq<Node>, con: seq<bool>, i: nat, w: int)
    requires ValidSectors(sectors) && 1 <= origin <= |sectors|
    requires i < |ord| < capacity
    requires Searching(sectors, origin, inclusion, target, corrected, inc, ord, con)
    requires FreshChild(sectors, origin, corrected, ord, con, i, w)
    requires includeTarget && Matches(target, NewNode(sectors[w - 1], Some(ord[i])))
    ensures var child := NewNode(sectors[w - 1], Some(ord[i]));
      Considered(sectors, origin, inclusion, target, includeTarget, corrected, capacity, ord, con, i, w,
                 inc[w - 1 := Some(child)], ord + [child], con[w - 1 := true], Stopped(TargetMatched, Some(child)))
  {
    var child := NewNode(sectors[w - 1], Some(ord[i]));
    TargetAdd(sectors, origin, inclusion, target, corrected, inc, ord, con, i, w);
    assert (ord + [child])[..|ord|] == ord;
  }

  /** An included child, appended; the search stops if that fills the array. */
  lemma AddConsidered(sectors: seq<SectorView>, origin: int, inclusion: NodeMatcher, target: NodeMatcher,
                      includeTarget: bool, corrected: bool, capacity: nat,
                      inc: seq<Option<Node>>, ord: seq<Node>, con: seq<bool>, i: nat, w: int, outcome: Outcome)
    requires ValidSectors(sectors) && 1 <= origin <= |sectors|
    requires i < |ord| < capacity
    requires Searching(sectors, origin, inclusion, target, corrected, inc, ord, con)
    requires FreshChild(sectors, origin, corrected, ord, con, i, w)
    requires var child := NewNode(sectors[w - 1], Some(ord[i]));
      Matches(inclusion, child) && !Matches(target, child)
    requires outcome == if |ord| + 1 == capacity then Stopped(Full, None) else Continue
    ensures var child := NewNode(sectors[w - 1], Some(ord[i]));
      Considered(sectors, origin, inclusion, target, includeTarget, corrected, capacity, ord, con, i, w,
                 inc[w - 1 := Some(child)], ord + [child], con[w - 1 := true], outcome)
  {
    var child := NewNode(sectors[w - 1], Some(ord[i]));
    var inc', ord', con' := inc[w - 1 := Some(child)], ord + [child], con[w - 1 := true];
    GrowsByOne(con, w - 1);
    SearchingAdd(sectors, origin, inclusion, target, corrected, inc, ord, con, i, w);
    assert ord'[..|ord|] == ord;
    assert ord'[|ord'| - 1] == child;
    if outcome.Stopped? {
      SearchingFound(sectors, origin, inclusion, target, corrected, inc', ord', con');
    }
  }

  /** What ExpandParent promises about the arrays it returns. */
  predicate Expanded(sectors: seq<SectorView>, origin: int, inclusion: NodeMatcher, target: NodeMatcher,
                     includeTarget: bool, corrected: bool, capacity: nat,
                     ord: seq<Node>, i: nat,
                     inc': seq<Option<Node>>, ord': seq<Node>, con': seq<bool>, outcome: Outcome)
    requires ValidSectors(sectors) && 1 <= origin <= |sectors| && i < |ord|
  {
    |ord| <= |ord'| <= capacity && ord'[..|ord|] == ord &&
    (outcome == Overrun ==> !corrected && capacity == 1) &&
    (outcome == Continue ==>
      Searching(sectors, origin, inclusion, target, corrected, inc', ord', con') &&
      Room(corrected, capacity, ord') &&
      ord'[|ord'| - 1].distance <= ord[i].distance + 1 &&
      (corrected ==> ExpandedUpTo(ord', con', i + 1)) &&
      (!corrected ==> AllConsidered(sectors[origin - 1].warpsOut, con'))) &&
    (outcome.Stopped? ==>
      StoppedWell(sectors, origin, inclusion, target, includeTarget, corrected, capacity, inc', ord', outcome))
  }

  /**
   * The inner loop of the search: consider each warp of the parent (of the
   * origin, as written) that has not been considered yet.
   */
  method ExpandParent(sectors: seq<SectorView>, origin: int, inclusion: NodeMatcher, target: NodeMatcher,
                      includeTarget: bool, corrected: bool, capacity: nat,
                      inc: seq<Option<Node>>, ord: seq<Node>, con: seq<bool>, i: nat)
    returns (inc': seq<Option<Node>>, ord': seq<Node>, con': seq<bool>, outcome: Outcome)
    requires ValidSectors(sectors) && 1 <= origin <= |sectors|
    requires i < |ord| <= capacity && Room(corrected, capacity, ord)
    requires Searching(sectors, origin, inclusion, target, corrected, inc, ord, con)
    requires ord[|ord| - 1].distance <= ord[i].distance + 1
    requires corrected ==> ExpandedUpTo(ord, con, i)
    requires !corrected && i >= 1 ==> AllConsidered(sectors[origin - 1].warpsOut, con)
    ensures Expanded(sectors, origin, inclusion, target, includeTarget, corrected, capacity, ord, i,
                     inc', ord', con', outcome)
  {
    inc', ord', con' := inc, ord, con;
    var warps := if corrected then ord[i].sector.warpsOut else sectors[origin - 1].warpsOut;
    var j := 0;
    assert ord[..|ord|] == ord;
    while j < |warps|
      invariant j <= |warps|
      invariant Expanding(sectors, origin, inclusion, target, corrected, capacity, ord, con, i, warps[..j], inc', ord', con')
    {
      var w := warps[j];
      ExpandingNext(sectors, origin, inclusion, target, corrected, capacity, ord, con, i, warps[..j], inc', ord', con');
      ghost var inc0, ord0, con0 := inc', ord', con';
      var outcome';
      inc', ord', con', outcome' := Consider(sectors, origin, inclusion, target, includeTarget, corrected, capacity,
                                             inc', ord', con', i, w);
      if !outcome'.Continue? {
        ExpandingStop(sectors, origin, inclusion, target, includeTarget, corrected, capacity, ord, con, i, warps[..j],
                      inc0, ord0, con0, w, inc', ord', con', outcome');
        return inc', ord', con', outcome';
      }
      ExpandingStep(sectors, origin, inclusion, target, includeTarget, corrected, capacity, ord, con, i, warps, j,
                    inc0, ord0, con0, inc', ord', con');
      j := j + 1;
    }
    assert warps[..j] == warps;
    ExpandingDone(sectors, origin, inclusion, target, includeTarget, corrected, capacity, ord, con, i, inc', ord', con');
    outcome := Continue;
  }

  /** The invariant of the inner loop, after the warps in `done` were considered. */
  predicate Expanding(sectors: seq<SectorView>, origin: int, inclusion: NodeMatcher, target: NodeMatcher,
                      corrected: bool, capacity: nat, ord: seq<Node>, con: seq<bool>, i: nat, done: seq<int>,
                      inc': seq<Option<Node>>, ord': seq<Node>, con': seq<bool>)
    requires ValidSectors(sectors) && 1 <= origin <= |sectors| && i < |ord|
  {
    |ord| <= |ord'| <= capacity && ord'[..|ord|] == ord &&
    Room(corrected, capacity, ord') &&
    Searching(sectors, origin, inclusion, target, corrected, inc', ord', con') &&
    ord'[|ord'| - 1].distance <= ord[i].distance + 1 &&
    Grows(con, con') &&
    AllConsidered(done, con')
  }

  lemma ExpandingNext(sectors: seq<SectorView>, origin: int, inclusion: NodeMatcher, target: NodeMatcher,
                      corrected: bool, capacity: nat, ord: seq<Node>, con: seq<bool>, i: nat, done: seq<int>,
                      inc': seq<Option<Node>>, ord': seq<Node>, con': seq<bool>)
    requires ValidSectors(sectors) && 1 <= origin <= |sectors| && i < |ord|
    requires !corrected && i >= 1 ==> AllConsidered(sectors[origin - 1].warpsOut, con)
    requires Expanding(sectors, origin, inclusion, target, corrected, capacity, ord, con, i, done, inc', ord', con')
    ensures i < |ord'| && ord'[i] == ord[i]
    ensures !corrected && i >= 1 ==> AllConsidered(sectors[origin - 1].warpsOut, con')
  {
    assert ord'[..|ord|][i] == ord[i];
    if !corrected && i >= 1 {
      AllConsideredGrows(sectors[origin - 1].warpsOut, con, con');
    }
  }

  lemma ExpandingStep(sectors: seq<SectorView>, origin: int, inclusion: NodeMatcher, target: NodeMatcher,
                      includeTarget: bool, corrected: bool, capacity: nat, ord: seq<Node>, con: seq<bool>, i: nat,
                      warps: seq<int>, j: nat, inc0: seq<Option<Node>>, ord0: seq<Node>, con0: seq<bool>,
                      inc': seq<Option<Node>>, ord': seq<Node>, con': seq<bool>)
    requires ValidSectors(sectors) && 1 <= origin <= |sectors| && i < |ord| && j < |warps|
    requires Expanding(sectors, origin, inclusion, target, corrected, capacity, ord, con, i, warps[..j], inc0, ord0, con0)
    requires i < |ord0| && ord0[i] == ord[i]
    requires Considered(sectors, origin, inclusion, target, includeTarget, corrected, capacity, ord0, con0, i, warps[j],
                        inc', ord', con', Continue)
    ensures Expanding(sectors, origin, inclusion, target, corrected, capacity, ord, con, i, warps[..j + 1], inc', ord', con')
  {
    assert ord'[..|ord|] == ord by {
      assert ord'[..|ord0|] == ord0 && ord0[..|ord|] == ord;
    }
    AllConsideredGrows(warps[..j], con0, con');
    assert warps[..j + 1] == warps[..j] + [warps[j]];
  }

  lemma ExpandingStop(sectors: seq<SectorView>, origin: int, inclusion: NodeMatcher, target: NodeMatcher,
                      includeTarget: bool, corrected: bool, capacity: nat, ord: seq<Node>, con: seq<bool>, i: nat,
                      done: seq<int>, inc0: seq<Option<Node>>, ord0: seq<Node>, con0: seq<bool>, w: int,
                      inc': seq<Option<Node>>, ord': seq<Node>, con': seq<bool>, outcome: Outcome)
    requires ValidSectors(sectors) && 1 <= origin <= |sectors| && i < |ord|
    requires Expanding(sectors, origin, inclusion, target, corrected, capacity, ord, con, i, done, inc0, ord0, con0)
    requires i < |ord0| && ord0[i] == ord[i] && outcome != Continue
    requires Considered(sectors, origin, inclusion, target, includeTarget, corrected, capacity, ord0, con0, i, w,
                        inc', ord', con', outcome)
    ensures Expanded(sectors, origin, inclusion, target, includeTarget, corrected, capacity, ord, i,
                     inc', ord', con', outcome)
  {
    assert ord'[..|ord|] == ord by {
      assert ord'[..|ord0|] == ord0 && ord0[..|ord|] == ord;
    }
  }

  lemma ExpandingDone(sectors: seq<SectorView>, origin: int, inclusion: NodeMatcher, target: NodeMatcher,
                      includeTarget: bool, corrected: bool, capacity: nat, ord: seq<Node>, con: seq<bool>, i: nat,
                      inc': seq<Option<Node>>, ord': seq<Node>, con': seq<bool>)
    requires ValidSectors(sectors) && 1 <= origin <= |sectors| && i < |ord|
    requires corrected ==> ExpandedUpTo(ord, con, i)
    requires Expanding(sectors, origin, inclusion, target, corrected, capacity, ord, con, i,
                       if corrected then ord[i].sector.warpsOut else sectors[origin - 1].warpsOut, inc', ord', con')
    ensures Expanded(sectors, origin, inclusion, target, includeTarget, corrected, capacity, ord, i,
                     inc', ord', con', Continue)
  {
    if corrected {
      ExpandedGrows(ord, con, ord', con', i);
      assert ord'[i] == ord[i] by { assert ord'[..|ord|][i] == ord[i]; }
    }
  }

  /** Every warp out of every listed node leads to an included sector. */
  predicate Closed(inc: seq<Option<Node>>, ord: seq<Node>)
  {
    forall k, j :: 0 <= k < |ord| && 0 <= j < |ord[k].sector.warpsOut| ==>
      1 <= ord[k].sector.warpsOut[j] <= |inc| && inc[ord[k].sector.warpsOut[j] - 1].Some?
  }

  /** With ALL as the include matcher, every considered sector is included. */
  lemma ClosedWhenExpanded(inc: seq<Option<Node>>, ord: seq<Node>, con: seq<bool>, upto: int)
    requires ConsideredCovers(inc, ord, con, All) && ExpandedUpTo(ord, con, upto) && 0 <= upto <= |ord|
    ensures Closed(inc, ord[..upto])
  {
    forall k, j | 0 <= k < upto && 0 <= j < |ord[..upto][k].sector.warpsOut|
      ensures 1 <= ord[..upto][k].sector.warpsOut[j] <= |inc| && inc[ord[..upto][k].sector.warpsOut[j] - 1].Some?
    {
      assert ord[..upto][k] == ord[k];
      assert AllConsidered(ord[k].sector.warpsOut, con);
    }
  }

  /**
   * What every search returns: a tree of at most `capacity` nodes whose
   * nodes the matchers accepted, and a target node only when it was asked for.
   */
  predicate SearchResult(sectors: seq<SectorView>, origin: int, capacity: int, inclusion: NodeMatcher, target: NodeMatcher,
                         includeTarget: bool, corrected: bool, t: SearchTree)
  {
    Tree(sectors, origin, t.included, t.ordered) &&
    Matching(t.ordered, t.targetNode, inclusion, target) &&
    |t.ordered| <= capacity &&
    (t.targetNode.Some? ==> includeTarget) &&
    (!corrected ==> AsWrittenShape(sectors, origin, t.ordered))
  }

  /**
   * new BreadthFirstSearch(sectors, origin, limit, include, target,
   * includeTarget). With `corrected` off this is the search as written: it
   * expands the origin's warps for every parent, so it never reaches past one
   * warp from the origin, and with room for one node it runs off the end of
   * `ordered`. With `corrected` on it expands each parent's own warps and
   * stops when the origin alone fills the result.
   */
  method Explore(sectors: seq<SectorView>, origin: int, limit: int, inclusion: NodeMatcher, target: NodeMatcher,
                 includeTarget: bool, corrected: bool)
    returns (r: Result<SearchTree>)
    requires ValidSectors(sectors)
    ensures r == Err(IllegalArgument) <==> limit < 0 || origin < 1 || origin > |sectors|
    ensures r.Err? && r.error != IllegalArgument ==>
      r.error == IndexOutOfBounds && !corrected && Capacity(limit, |sectors|) == 1
    ensures r.Ok? ==>
      1 <= origin <= |sectors| &&
      SearchResult(sectors, origin, Capacity(limit, |sectors|), inclusion, target, includeTarget, corrected, r.value)
    ensures r.Ok? ==> var o := OriginNode(sectors, origin); var t := r.value;
      (Matches(target, o) ==>
        t.ordered == (if includeTarget then [o] else []) &&
        t.targetNode == (if includeTarget then Some(o) else None)) &&
      (!Matches(target, o) ==> (t.ordered != [] <==> Matches(inclusion, o)))
    ensures r.Ok? && includeTarget && inclusion.All? && r.value.targetNode.None? ==>
      ClosedWhenDone(corrected, Capacity(limit, |sectors|), r.value)
  {
    if limit < 0 || origin < 1 || origin > |sectors| {
      return Err(IllegalArgument);
    }
    var capacity := Capacity(limit, |sectors|);
    var inc: seq<Option<Node>> := seq(|sectors|, _ => None);
    var con: seq<bool> := seq(|sectors|, _ => false);
    var o := OriginNode(sectors, origin);
    OriginTrees(sectors, origin, inclusion, target, corrected);
    if Matches(target, o) {
      if includeTarget {
        return Ok(SearchTree(inc[origin - 1 := Some(o)], [o], Some(o)));
      }
      return Ok(SearchTree(inc, [], None));
    } else if !Matches(inclusion, o) {
      return Ok(SearchTree(inc, [], None));
    }
    // prime it with the origin node
    if corrected && capacity == 1 {
      return Ok(SearchTree(inc[origin - 1 := Some(o)], [o], None));
    }
    r := Run(sectors, origin, inclusion, target, includeTarget, corrected, capacity,
             inc[origin - 1 := Some(o)], [o], con[origin - 1 := true]);
  }

  /** The trees of no node and of the origin alone, and the primed search. */
  lemma OriginTrees(sectors: seq<SectorView>, origin: int, inclusion: NodeMatcher, target: NodeMatcher, corrected: bool)
    requires ValidSectors(sectors) && 1 <= origin <= |sectors|
    ensures var inc: seq<Option<Node>>, o := seq(|sectors|, _ => None), OriginNode(sectors, origin);
      Tree(sectors, origin, inc, []) && Tree(sectors, origin, inc[origin - 1 := Some(o)], [o]) &&
      (!corrected ==> AsWrittenShape(sectors, origin, [o])) &&
      (Matches(inclusion, o) && !Matches(target, o) ==>
        Searching(sectors, origin, inclusion, target, corrected,
                  inc[origin - 1 := Some(o)], [o], seq(|sectors|, _ => false)[origin - 1 := true]))
  {
    var inc: seq<Option<Node>>, o := seq(|sectors|, _ => None), OriginNode(sectors, origin);
    OriginTree(sectors, origin);
    if Matches(inclusion, o) && !Matches(target, o) {
      var con := seq(|sectors|, _ => false)[origin - 1 := true];
      assert Matching([o], None, inclusion, target);
      assert ConsideredCovers(inc[origin - 1 := Some(o)], [o], con, inclusion) by {
        forall s | 0 <= s < |con| && con[s]
          ensures s == origin - 1
        {
        }
      }
    }
  }

  lemma OriginTree(sectors: seq<SectorView>, origin: int)
    requires ValidSectors(sectors) && 1 <= origin <= |sectors|
    ensures var inc: seq<Option<Node>>, o := seq(|sectors|, _ => None), OriginNode(sectors, origin);
      Tree(sectors, origin, inc, []) && Tree(sectors, origin, inc[origin - 1 := Some(o)], [o])
  {
    var inc: seq<Option<Node>>, o := seq(|sectors|, _ => None), OriginNode(sectors, origin);
    assert inc == Included(|sectors|, []);
    assert sectors[origin - 1].number == origin;
    IncludedAppend(|sectors|, [], o);
    assert NodesOf(sectors, origin, [o]);
  }

  /** Closure of the search once it ran out of nodes to expand. */
  predicate ClosedWhenDone(corrected: bool, capacity: int, t: SearchTree)
  {
    (corrected && |t.ordered| < capacity ==> Closed(t.included, t.ordered)) &&
    (!corrected && (|t.ordered| < capacity || capacity == 1) ==> |t.ordered| >= 1 && Closed(t.included, t.ordered[..1]))
  }

  /** The outer loop of the search, from the primed arrays. */
  method Run(sectors: seq<SectorView>, origin: int, inclusion: NodeMatcher, target: NodeMatcher,
             includeTarget: bool, corrected: bool, capacity: nat,
             inc0: seq<Option<Node>>, ord0: seq<Node>, con0: seq<bool>)
    returns (r: Result<SearchTree>)
    requires ValidSectors(sectors) && 1 <= origin <= |sectors|
    requires |ord0| == 1 <= capacity && Room(corrected, capacity, ord0)
    requires Searching(sectors, origin, inclusion, target, corrected, inc0, ord0, con0)
    ensures r.Err? ==> r.error == IndexOutOfBounds && !corrected && capacity == 1
    ensures r.Ok? ==>
      SearchResult(sectors, origin, capacity, inclusion, target, includeTarget, corrected, r.value) &&
      r.value.ordered != []
    ensures r.Ok? && includeTarget && inclusion.All? && r.value.targetNode.None? ==>
      ClosedWhenDone(corrected, capacity, r.value)
  {
    var inc, ord, con := inc0, ord0, con0;
    var i := 0;
    while i < |ord|
      invariant i <= |ord| <= capacity
      invariant Running(sectors, origin, inclusion, target, corrected, capacity, inc, ord, con, i)
      decreases capacity - i
    {
      RunningNext(sectors, origin, inclusion, target, corrected, capacity, inc, ord, con, i);
      ghost var ordBefore := ord;
      var outcome;
      inc, ord, con, outcome := ExpandParent(sectors, origin, inclusion, target, includeTarget, corrected, capacity,
                                             inc, ord, con, i);
      match outcome
      case Overrun =>
        return Err(IndexOutOfBounds);
      case Stopped(_, targetNode) =>
        StoppedResult(sectors, origin, inclusion, target, includeTarget, corrected, capacity, inc, ord, outcome);
        return Ok(SearchTree(inc, ord, targetNode));
      case Continue =>
        RunningStep(sectors, origin, inclusion, target, includeTarget, corrected, capacity, ordBefore, i, inc, ord, con);
        i := i + 1;
    }
    ExhaustedResult(sectors, origin, inclusion, target, includeTarget, corrected, capacity, inc, ord, con);
    return Ok(SearchTree(inc, ord, None));
  }

  /** The invariant of the outer loop, before parent i is expanded. */
  predicate Running(sectors: seq<SectorView>, origin: int, inclusion: NodeMatcher, target: NodeMatcher,
                    corrected: bool, capacity: nat, inc: seq<Option<Node>>, ord: seq<Node>, con: seq<bool>, i: nat)
    requires ValidSectors(sectors) && 1 <= origin <= |sectors|
  {
    i <= |ord| && Room(corrected, capacity, ord) &&
    Searching(sectors, origin, inclusion, target, corrected, inc, ord, con) &&
    (i == 0 ==> |ord| == 1) &&
    (1 <= i ==> ord[|ord| - 1].distance <= ord[i - 1].distance + 1) &&
    (corrected ==> ExpandedUpTo(ord, con, i)) &&
    (!corrected && i >= 1 ==> AllConsidered(sectors[origin - 1].warpsOut, con))
  }

  lemma RunningNext(sectors: seq<SectorView>, origin: int, inclusion: NodeMatcher, target: NodeMatcher,
                    corrected: bool, capacity: nat, inc: seq<Option<Node>>, ord: seq<Node>, con: seq<bool>, i: nat)
    requires ValidSectors(sectors) && 1 <= origin <= |sectors| && i < |ord|
    requires Running(sectors, origin, inclusion, target, corrected, capacity, inc, ord, con, i)
    ensures ord[|ord| - 1].distance <= ord[i].distance + 1
  {
    if i >= 1 {
      assert ord[i - 1].distance <= ord[i].distance;
    }
  }

  lemma RunningStep(sectors: seq<SectorView>, origin: int, inclusion: NodeMatcher, target: NodeMatcher,
                    includeTarget: bool, corrected: bool, capacity: nat, ord0: seq<Node>, i: nat,
                    inc: seq<Option<Node>>, ord: seq<Node>, con: seq<bool>)
    requires ValidSectors(sectors) && 1 <= origin <= |sectors| && i < |ord0|
    requires Expanded(sectors, origin, inclusion, target, includeTarget, corrected, capacity, ord0, i, inc, ord, con, Continue)
    ensures Running(sectors, origin, inclusion, target, corrected, capacity, inc, ord, con, i + 1)
  {
    assert ord[i] == ord0[i] by { assert ord[..|ord0|] == ord0; }
  }

  lemma StoppedResult(sectors: seq<SectorView>, origin: int, inclusion: NodeMatcher, target: NodeMatcher,
                      includeTarget: bool, corrected: bool, capacity: nat,
                      inc: seq<Option<Node>>, ord: seq<Node>, outcome: Outcome)
    requires outcome.Stopped? && |ord| >= 1 && |ord| <= capacity
    requires StoppedWell(sectors, origin, inclusion, target, includeTarget, corrected, capacity, inc, ord, outcome)
    ensures var t := SearchTree(inc, ord, outcome.targetNode);
      SearchResult(sectors, origin, capacity, inclusion, target, includeTarget, corrected, t) &&
      (includeTarget && inclusion.All? && t.targetNode.None? ==> ClosedWhenDone(corrected, capacity, t))
  {
  }

  lemma ExhaustedResult(sectors: seq<SectorView>, origin: int, inclusion: NodeMatcher, target: NodeMatcher,
                        includeTarget: bool, corrected: bool, capacity: nat,
                        inc: seq<Option<Node>>, ord: seq<Node>, con: seq<bool>)
    requires ValidSectors(sectors) && 1 <= origin <= |sectors| && |ord| <= capacity
    requires Searching(sectors, origin, inclusion, target, corrected, inc, ord, con)
    requires corrected ==> ExpandedUpTo(ord, con, |ord|)
    requires !corrected ==> AllConsidered(sectors[origin - 1].warpsOut, con)
    ensures var t := SearchTree(inc, ord, None);
      SearchResult(sectors, origin, capacity, inclusion, target, includeTarget, corrected, t) &&
      (inclusion.All? ==> ClosedWhenDone(corrected, capacity, t))
  {
    if inclusion.All? {
      if corrected {
        ClosedWhenExpanded(inc, ord, con, |ord|);
        assert ord[..|ord|] == ord;
      } else {
        ClosedWhenExpanded(inc, ord, con, 1);
      }
    }
  }

  // ---------------------------------------------------------------------
  // Reading the result

  /** includesSector(sector): the array read fails outside 1..sectors. */
  function IncludesSector(t: SearchTree, sector: int): (r: Result<bool>)
    ensures r.Err? <==> sector < 1 || sector > |t.included|
    ensures r.Err? ==> r.error == IndexOutOfBounds
  {
    if 1 <= sector <= |t.included| then Ok(t.included[sector - 1].Some?) else Err(IndexOutOfBounds)
  }

  /** getNode(sector): the node included for the sector, or null. */
  function GetNode(t: SearchTree, sector: int): (r: Result<Option<Node>>)
    ensures r.Err? <==> sector < 1 || sector > |t.included|
    ensures r.Ok? ==> (r.value.Some? <==> IncludesSector(t, sector) == Ok(true))
  {
    if 1 <= sector <= |t.included| then Ok(t.included[sector - 1]) else Err(IndexOutOfBounds)
  }

  /** targetFound(). */
  predicate TargetFound(t: SearchTree)
  {
    t.targetNode.Some?
  }

  /**
   * In a search tree a sector is included exactly when a node for it is
   * listed in `ordered`, and getNode returns that node.
   */
  lemma IncludedMeansListed(sectors: seq<SectorView>, origin: int, t: SearchTree, sector: int)
    requires Tree(sectors, origin, t.included, t.ordered) && 1 <= sector <= |sectors|
    ensures IncludesSector(t, sector).Ok?
    ensures IncludesSector(t, sector).value <==> exists k :: 0 <= k < |t.ordered| && t.ordered[k].sector.number == sector
    ensures forall k :: 0 <= k < |t.ordered| && t.ordered[k].sector.number == sector ==>
      GetNode(t, sector) == Ok(Some(t.ordered[k]))
  {
    IncludedSpec(|sectors|, t.ordered, sector - 1);
  }

  /**
   * A course: it starts at the origin, ends at the destination, and each
   * sector after the first is reached by a warp out of the one before.
   */
  predicate Course(sectors: seq<SectorView>, start: int, dest: int, course: seq<int>)
  {
    |course| >= 1 && course[0] == start && course[|course| - 1] == dest &&
    forall k :: 1 <= k < |course| ==> Step(sectors, course[k - 1], course[k])
  }

  /** Sector b is one warp out of sector a. */
  predicate Step(sectors: seq<SectorView>, a: int, b: int)
  {
    1 <= a <= |sectors| && b in sectors[a - 1].warpsOut
  }

  /** The path of a node of the graph is a course from its root to it. */
  lemma {:induction false} PathIsCourse(sectors: seq<SectorView>, n: Node)
    requires InGraph(sectors, n) && WellFormed(n) && FollowsWarps(n)
    ensures Course(sectors, Root(n).sector.number, n.sector.number, Path(n))
  {
    PathShape(n);
    if n.parent.Some? {
      var p := n.parent.value;
      PathIsCourse(sectors, p);
      PathShape(p);
      var c := Path(n);
      forall k | 1 <= k < |c|
        ensures Step(sectors, c[k - 1], c[k])
      {
        if k < |c| - 1 {
          assert c[k - 1] == Path(p)[k - 1] && c[k] == Path(p)[k];
        } else {
          assert c[k - 1] == Path(p)[p.distance] == p.sector.number;
        }
      }
    }
  }

  /** The loop of plotCourse: walk the parent chain, filling the course from the back. */
  method Walk(n: Node) returns (course: seq<int>)
    requires WellFormed(n)
    ensures course == Path(n)
  {
    course := seq(n.distance + 1, _ => 0);
    var node := Some(n);
    while node.Some?
      invariant |course| == n.distance + 1
      invariant node.Some? ==>
        WellFormed(node.value) && node.value.distance <= n.distance &&
        Path(n) == Path(node.value) + course[node.value.distance + 1..]
      invariant node.None? ==> course == Path(n)
      decreases if node.Some? then node.value.distance + 1 else 0
    {
      var cur := node.value;
      PathShape(cur);
      ghost var before := course;
      course := course[cur.distance := cur.sector.number];
      assert course[cur.distance..] == [cur.sector.number] + before[cur.distance + 1..];
      if cur.parent.None? {
        assert course == course[cur.distance..];
      } else {
        PathShape(cur.parent.value);
      }
      node := cur.parent;
    }
  }

  /**
   * plotCourse(dest) as written: its loop runs while the node's distance is
   * at least 0, which every node's is, so after the origin it reads the
   * distance of the origin's null parent.
   */
  method PlotCourseAsWritten(sectors: seq<SectorView>, origin: int, t: SearchTree, dest: int)
    returns (r: Result<Option<seq<int>>>)
    requires Tree(sectors, origin, t.included, t.ordered)
    ensures r == Err(IndexOutOfBounds) <==> dest < 1 || dest > |sectors|
    ensures r == Ok(None) <==> IncludesSector(t, dest) == Ok(false)
    ensures IncludesSector(t, dest) == Ok(true) ==> r == Err(NullPointer)
  {
    var included := IncludesSector(t, dest);
    if included.Err? {
      return Err(IndexOutOfBounds);
    }
    if !included.value {
      return Ok(None);
    }
    var node := t.included[dest - 1].value;
    IncludedNodeShape(sectors, origin, t, dest);
    var course := Walk(node);
    return Err(NullPointer);
  }

  /** plotCourse(dest), with the walk stopping at the origin. */
  method PlotCourse(sectors: seq<SectorView>, origin: int, t: SearchTree, dest: int)
    returns (r: Result<Option<seq<int>>>)
    requires ValidSectors(sectors) && Tree(sectors, origin, t.included, t.ordered)
    ensures r.Err? <==> dest < 1 || dest > |sectors|
    ensures r.Err? ==> r.error == IndexOutOfBounds
    ensures r.Ok? ==> (r.value.Some? <==> IncludesSector(t, dest) == Ok(true))
    ensures r.Ok? && r.value.Some? ==>
      Course(sectors, origin, dest, r.value.value) &&
      |r.value.value| == t.included[dest - 1].value.distance + 1
  {
    var included := IncludesSector(t, dest);
    if included.Err? {
      return Err(IndexOutOfBounds);
    }
    if !included.value {
      return Ok(None);
    }
    var node := t.included[dest - 1].value;
    IncludedNodeShape(sectors, origin, t, dest);
    var course := Walk(node);
    PathIsCourse(sectors, node);
    PathShape(node);
    assert sectors[origin - 1].number == origin;
    return Ok(Some(course));
  }

  /** The node included for a sector is a listed node of that sector. */
  lemma IncludedNodeShape(sectors: seq<SectorView>, origin: int, t: SearchTree, dest: int)
    requires Tree(sectors, origin, t.included, t.ordered)
    requires 1 <= dest <= |sectors| && t.included[dest - 1].Some?
    ensures var n := t.included[dest - 1].value;
      n.sector.number == dest && InGraph(sectors, n) && WellFormed(n) && FollowsWarps(n) &&
      Root(n) == OriginNode(sectors, origin)
  {
    IncludedMeansListed(sectors, origin, t, dest);
    var k :| 0 <= k < |t.ordered| && t.ordered[k].sector.number == dest;
  }

  // ---------------------------------------------------------------------
  // Completeness of the corrected search

  /** Every sector a course from the origin reaches is included in a closed tree. */
  lemma {:induction false} ClosedTreeHoldsCourse(sectors: seq<SectorView>, origin: int, t: SearchTree,
                                                 dest: int, course: seq<int>)
    requires ValidSectors(sectors) && Tree(sectors, origin, t.included, t.ordered) && |t.ordered| >= 1
    requires Closed(t.included, t.ordered)
    requires Course(sectors, origin, dest, course)
    ensures 1 <= dest <= |sectors| && t.included[dest - 1].Some?
    decreases |course|
  {
    if |course| == 1 {
      assert t.ordered[0].sector.number == origin;
      IncludedMeansListed(sectors, origin, t, origin);
    } else {
      var prev := course[|course| - 2];
      var pre := course[..|course| - 1];
      CoursePrefix(sectors, origin, dest, course);
      ClosedTreeHoldsCourse(sectors, origin, t, prev, pre);
      ClosedStep(sectors, origin, t, prev, dest);
    }
  }

  /** A course without its last sector is a course to the sector before it. */
  lemma CoursePrefix(sectors: seq<SectorView>, origin: int, dest: int, course: seq<int>)
    requires Course(sectors, origin, dest, course) && |course| >= 2
    ensures Course(sectors, origin, course[|course| - 2], course[..|course| - 1])
    ensures Step(sectors, course[|course| - 2], dest)
  {
    var pre := course[..|course| - 1];
    forall k | 1 <= k < |pre|
      ensures Step(sectors, pre[k - 1], pre[k])
    {
      assert pre[k - 1] == course[k - 1] && pre[k] == course[k];
    }
  }

  /** In a closed tree, a warp out of an included sector leads to an included sector. */
  lemma ClosedStep(sectors: seq<SectorView>, origin: int, t: SearchTree, prev: int, dest: int)
    requires ValidSectors(sectors) && Tree(sectors, origin, t.included, t.ordered) && Closed(t.included, t.ordered)
    requires 1 <= prev <= |sectors| && t.included[prev - 1].Some? && Step(sectors, prev, dest)
    ensures 1 <= dest <= |sectors| && t.included[dest - 1].Some?
  {
    IncludedMeansListed(sectors, origin, t, prev);
    var m :| 0 <= m < |t.ordered| && t.ordered[m].sector.number == prev;
    var warps := t.ordered[m].sector.warpsOut;
    assert warps == sectors[prev - 1].warpsOut;
    var j :| 0 <= j < |warps| && warps[j] == dest;
  }

  /** The sector numbers of the listed nodes. */
  function Numbers(ord: seq<Node>): set<int>
  {
    set k | 0 <= k < |ord| :: ord[k].sector.number
  }

  lemma {:induction false} NumbersCount(ord: seq<Node>)
    requires Distinct(ord)
    ensures |Numbers(ord)| == |ord|
  {
    if ord != [] {
      var pre := ord[..|ord| - 1];
      var last := ord[|ord| - 1].sector.number;
      assert Distinct(pre);
      NumbersCount(pre);
      assert Numbers(ord) == Numbers(pre) + {last} by {
        forall x | x in Numbers(ord)
          ensures x in Numbers(pre) + {last}
        {
          var k :| 0 <= k < |ord| && ord[k].sector.number == x;
          if k < |ord| - 1 {
            assert pre[k] == ord[k];
          }
        }
        forall x | x in Numbers(pre)
          ensures x in Numbers(ord)
        {
          var k :| 0 <= k < |pre| && pre[k].sector.number == x;
          assert ord[k] == pre[k];
        }
      }
      assert last !in Numbers(pre);
    }
  }

  /** The sector numbers 1..n. */
  function Range(n: nat): (r: set<int>)
    ensures forall s :: s in r <==> 1 <= s <= n
  {
    if n == 0 then {} else Range(n - 1) + {n}
  }

  lemma {:induction false} RangeCount(n: nat)
    ensures |Range(n)| == n
  {
    if n > 0 {
      RangeCount(n - 1);
      assert n !in Range(n - 1);
    }
  }

  lemma SubsetCount(a: set<int>, b: set<int>)
    requires a <= b
    ensures |a| <= |b|
  {
    assert b == a + (b - a);
    assert a * (b - a) == {};
  }

  /** A tree that lists as many nodes as there are sectors lists every sector. */
  lemma FullTreeListsAll(sectors: seq<SectorView>, origin: int, t: SearchTree, dest: int)
    requires Tree(sectors, origin, t.included, t.ordered) && |t.ordered| == |sectors|
    requires 1 <= dest <= |sectors|
    ensures exists k :: 0 <= k < |t.ordered| && t.ordered[k].sector.number == dest
  {
    var ord := t.ordered;
    if forall k :: 0 <= k < |ord| ==> ord[k].sector.number != dest {
      var others := Range(|sectors|) - {dest};
      NumbersCount(ord);
      RangeCount(|sectors|);
      assert |others| == |sectors| - 1;
      assert Numbers(ord) <= others by {
        forall x | x in Numbers(ord)
          ensures x in others
        {
          var k :| 0 <= k < |ord| && ord[k].sector.number == x;
        }
      }
      SubsetCount(Numbers(ord), others);
    }
  }

  /**
   * An unlimited corrected search that includes every sector, stops at one
   * sector and finds no target proves that there is no course from the
   * origin to that sector.
   */
  lemma NotFoundMeansNoCourse(sectors: seq<SectorView>, origin: int, dest: int, t: SearchTree, course: seq<int>)
    requires ValidSectors(sectors) && |sectors| <= INT_MAX
    requires SearchResult(sectors, origin, Capacity(0, |sectors|), All, SectorIs(dest), true, true, t)
    requires ClosedWhenDone(true, Capacity(0, |sectors|), t)
    requires t.targetNode.None? && |t.ordered| >= 1
    ensures !Course(sectors, origin, dest, course)
  {
    if Course(sectors, origin, dest, course) {
      assert 1 <= dest <= |sectors| by {
        if |course| == 1 {
        } else {
          assert Step(sectors, course[|course| - 2], dest);
        }
      }
      if |t.ordered| < |sectors| {
        ClosedTreeHoldsCourse(sectors, origin, t, dest, course);
        IncludedMeansListed(sectors, origin, t, dest);
      } else {
        FullTreeListsAll(sectors, origin, t, dest);
      }
      var k :| 0 <= k < |t.ordered| && t.ordered[k].sector.number == dest;
    }
  }

  // ---------------------------------------------------------------------
  // Two small graphs on which the search as written goes wrong

  /** Three sectors in a row: 1 warps to 2 and 2 warps to 3. */
  function Chain(): (sectors: seq<SectorView>)
    ensures ValidSectors(sectors) && |sectors| == 3
  {
    [SectorView(1, false, false, [2]), SectorView(2, false, false, [3]), SectorView(3, false, false, [])]
  }

  /**
   * Searching the chain from sector 1 for sector 3, as Database.plotCourse
   * does: as written the search never looks past sector 2 and reports no
   * target.
   */
  method ChainAsWrittenExample() returns (asWritten: Result<SearchTree>)
    ensures asWritten.Ok? && !TargetFound(asWritten.value)
  {
    asWritten := Explore(Chain(), 1, 0, All, SectorIs(3), true, false);
    ChainAsWrittenStaysNear(asWritten.value.ordered);
  }

  /** Corrected, the same search finds sector 3, and the course to it is 1, 2, 3. */
  method ChainExample() returns (fixed: Result<SearchTree>, course: Result<Option<seq<int>>>)
    ensures fixed.Ok? && TargetFound(fixed.value)
    ensures course == Ok(Some([1, 2, 3]))
  {
    var sectors := Chain();
    fixed := Explore(sectors, 1, 0, All, SectorIs(3), true, true);
    if fixed.value.targetNode.None? {
      ChainReachesThree(fixed.value);
      assert false;
    }
    IncludedMeansListed(sectors, 1, fixed.value, 3);
    course := PlotCourse(sectors, 1, fixed.value, 3);
    ChainCourse(course.value.value);
  }

  /** As written, every node listed from sector 1 of the chain is sector 1 or sector 2. */
  lemma ChainAsWrittenStaysNear(ord: seq<Node>)
    requires |ord| >= 1 && ord[0] == OriginNode(Chain(), 1) && AsWrittenShape(Chain(), 1, ord)
    ensures forall k :: 0 <= k < |ord| ==> ord[k].sector.number != 3
  {
    forall k | 1 <= k < |ord|
      ensures ord[k].sector.number != 3
    {
      assert ord[k].sector.number in [2];
    }
  }

  /**
   * A tree over the chain that is closed under warps, or full, lists sector 3.
   */
  lemma ChainReachesThree(t: SearchTree)
    requires Tree(Chain(), 1, t.included, t.ordered) && 1 <= |t.ordered| <= 3
    requires |t.ordered| < 3 ==> Closed(t.included, t.ordered)
    ensures exists k :: 0 <= k < |t.ordered| && t.ordered[k].sector.number == 3
  {
    var sectors, ord := Chain(), t.ordered;
    if |ord| < 3 {
      assert ord[0].sector.warpsOut[0] == 2;
      IncludedMeansListed(sectors, 1, t, 2);
      var k :| 0 <= k < |ord| && ord[k].sector.number == 2;
      assert ord[k].sector.warpsOut[0] == 3;
      IncludedMeansListed(sectors, 1, t, 3);
    } else {
      assert ord[0].sector.number == 1;
      assert ord[2].sector.number == 3 || ord[1].sector.number == 3;
    }
  }

  /** The only course from 1 to 3 along the chain. */
  lemma ChainCourse(c: seq<int>)
    requires Course(Chain(), 1, 3, c)
    ensures c == [1, 2, 3]
  {
    assert Step(Chain(), c[0], c[1]);
    assert Step(Chain(), c[1], c[2]);
    forall k | 0 <= k < |c| - 1
      ensures c[k] != 3
    {
      assert Step(Chain(), c[k], c[k + 1]);
    }
  }

  /** Two sectors: 1 warps to 2. */
  function Pair(): (sectors: seq<SectorView>)
    ensures ValidSectors(sectors) && |sectors| == 2
  {
    [SectorView(1, false, false, [2]), SectorView(2, false, false, [])]
  }

  /**
   * A search with limit 1: as written it adds sector 2 past the end of its
   * one-node array; corrected it returns the origin alone.
   */
  method OverrunExample() returns (asWritten: Result<SearchTree>, fixed: Result<SearchTree>)
    ensures asWritten == Err(IndexOutOfBounds)
    ensures fixed.Ok? && fixed.value.ordered == [OriginNode(Pair(), 1)]
  {
    var sectors := Pair();
    asWritten := Explore(sectors, 1, 1, All, NONE, true, false);
    if asWritten.Ok? {
      PairNeedsTwo(asWritten.value);
      assert false;
    }
    fixed := Explore(sectors, 1, 1, All, NONE, true, true);
    AllAndNone(OriginNode(sectors, 1));
  }

  /** A tree over the pair in which the origin's warps are included holds two nodes. */
  lemma PairNeedsTwo(t: SearchTree)
    requires Tree(Pair(), 1, t.included, t.ordered) && |t.ordered| >= 1
    requires Closed(t.included, t.ordered[..1])
    ensures |t.ordered| >= 2
  {
    var ord := t.ordered;
    assert ord[..1][0].sector.warpsOut[0] == 2;
    IncludedMeansListed(Pair(), 1, t, 2);
    var k :| 0 <= k < |ord| && ord[k].sector.number == 2;
    assert k != 0;
  }
}
