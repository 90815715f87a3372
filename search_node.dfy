/**
 * The nodes of a breadth-first search over sectors. A node records the sector
 * it stands for, its distance from the origin and the node it was reached
 * from; the origin has no parent.
 */
module SearchNodes {
  import opened Wrappers

  /**
   * What a search and its matchers see of a sector: its number, the explored
   * and avoided flags, and its outbound warps as getWarpsOut returns them.
   */
  datatype SectorView = SectorView(number: int, explored: bool, avoided: bool, warpsOut: seq<int>)

  datatype Node = Node(sector: SectorView, distance: nat, parent: Option<Node>)

  /** Node(sector, parent): the origin is at distance 0, any other node one past its parent. */
  function NewNode(sector: SectorView, parent: Option<Node>): (n: Node)
    ensures n.sector == sector && n.parent == parent
    ensures n.distance == if parent.None? then 0 else parent.value.distance + 1
  {
    Node(sector, if parent.None? then 0 else parent.value.distance + 1, parent)
  }

  /** Every node on the parent chain was built by NewNode. */
  predicate WellFormed(n: Node)
  {
    match n.parent
    case None => n.distance == 0
    case Some(p) => n.distance == p.distance + 1 && WellFormed(p)
  }

  /** The sectors on the parent chain, from the origin to this node. */
  function Path(n: Node): seq<int>
  {
    match n.parent
    case None => [n.sector.number]
    case Some(p) => Path(p) + [n.sector.number]
  }

  /** The root of the parent chain. */
  function Root(n: Node): Node
  {
    match n.parent
    case None => n
    case Some(p) => Root(p)
  }

  /** Every step of the parent chain follows an outbound warp. */
  predicate FollowsWarps(n: Node)
  {
    match n.parent
    case None => true
    case Some(p) => n.sector.number in p.sector.warpsOut && FollowsWarps(p)
  }

  /**
   * The path of a well-formed node has one sector per unit of distance plus
   * the origin, starts at the root and ends at the node, and moves along
   * warps when the chain does.
   */
  lemma {:induction false} PathShape(n: Node)
    requires WellFormed(n)
    ensures |Path(n)| == n.distance + 1
    ensures Path(n)[0] == Root(n).sector.number
    ensures Path(n)[n.distance] == n.sector.number
    ensures FollowsWarps(n) ==> forall k :: 1 <= k <= n.distance ==> Path(n)[k] in AncestorAt(n, k - 1).sector.warpsOut
  {
    match n.parent
    case None =>
    case Some(p) =>
      PathShape(p);
      AncestorAtLast(n);
      forall k | 1 <= k <= n.distance
        ensures FollowsWarps(n) ==> Path(n)[k] in AncestorAt(n, k - 1).sector.warpsOut
      {
        if FollowsWarps(n) {
          if k <= p.distance {
            AncestorAtParent(n, k - 1);
            assert Path(n)[k] == Path(p)[k];
          } else {
            assert Path(n)[k] == n.sector.number;
          }
        }
      }
  }

  /** The ancestor of a well-formed node at distance j from the origin. */
  function AncestorAt(n: Node, j: nat): Node
    requires WellFormed(n) && j <= n.distance
    decreases n.distance
  {
    if j == n.distance then n else AncestorAt(n.parent.value, j)
  }

  lemma AncestorAtLast(n: Node)
    requires WellFormed(n) && n.parent.Some?
    ensures AncestorAt(n, n.distance - 1) == n.parent.value
  {
    var p := n.parent.value;
    assert AncestorAt(n, n.distance - 1) == AncestorAt(p, p.distance);
  }

  lemma AncestorAtParent(n: Node, j: nat)
    requires WellFormed(n) && n.parent.Some? && j < n.distance
    ensures AncestorAt(n, j) == AncestorAt(n.parent.value, j)
  {
  }
}
