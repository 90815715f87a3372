/**
 * Include and target criteria of a breadth-first search: the stock matchers
 * and the and/or/not combinators, as a small expression language over nodes.
 * A script's own NodeMatcher subclass is the `Custom` case, carrying its
 * matches(node) test as a function.
 */
module NodeMatchers {
  import opened Wrappers
  import opened SearchNodes

  datatype NodeMatcher =
    | All
    | NotAvoided
    | Unexplored
    | SectorIs(number: int)
    | AtDistance(distance: int)
    | Intersection(m0: NodeMatcher, m1: NodeMatcher)
    | Union(m0: NodeMatcher, m1: NodeMatcher)
    | Complement(m: NodeMatcher)
    | Custom(test: Node -> bool)

  /** matches(node) of each matcher. */
  predicate Matches(m: NodeMatcher, node: Node)
  {
    match m
    case All => true
    case NotAvoided => !node.sector.avoided
    case Unexplored => !node.sector.explored
    case SectorIs(n) => node.sector.number == n
    case AtDistance(d) => node.distance == d
    case Intersection(m0, m1) => Matches(m0, node) && Matches(m1, node)
    case Union(m0, m1) => Matches(m0, node) || Matches(m1, node)
    case Complement(m0) => !Matches(m0, node)
    case Custom(test) => test(node)
  }

  /** NONE is built as complement(ALL). */
  const NONE: NodeMatcher := Complement(All)

  lemma AllAndNone(node: Node)
    ensures Matches(All, node)
    ensures !Matches(NONE, node)
  {
  }

  /** sector(n): the node's sector number is n. */
  function SectorMatcher(n: int): (m: NodeMatcher)
    ensures forall node :: Matches(m, node) <==> node.sector.number == n
  {
    SectorIs(n)
  }

  /** atDistance(d): the node lies exactly d warps from the origin. */
  function AtDistanceMatcher(d: int): (m: NodeMatcher)
    ensures forall node :: Matches(m, node) <==> node.distance == d
  {
    AtDistance(d)
  }

  lemma StockMatchers(node: Node)
    ensures Matches(NotAvoided, node) <==> !node.sector.avoided
    ensures Matches(Unexplored, node) <==> !node.sector.explored
  {
  }

  /** intersection(m0, m1): a null argument throws; otherwise logical and. */
  function IntersectionOf(m0: Option<NodeMatcher>, m1: Option<NodeMatcher>): (r: Result<NodeMatcher>)
    ensures r.Err? <==> m0.None? || m1.None?
    ensures r.Err? ==> r.error == NullPointer
    ensures r.Ok? ==> forall node :: Matches(r.value, node) <==> Matches(m0.value, node) && Matches(m1.value, node)
  {
    if m0.None? || m1.None? then Err(NullPointer) else Ok(Intersection(m0.value, m1.value))
  }

  /** union(m0, m1): a null argument throws; otherwise logical or. */
  function UnionOf(m0: Option<NodeMatcher>, m1: Option<NodeMatcher>): (r: Result<NodeMatcher>)
    ensures r.Err? <==> m0.None? || m1.None?
    ensures r.Err? ==> r.error == NullPointer
    ensures r.Ok? ==> forall node :: Matches(r.value, node) <==> Matches(m0.value, node) || Matches(m1.value, node)
  {
    if m0.None? || m1.None? then Err(NullPointer) else Ok(Union(m0.value, m1.value))
  }

  /** complement(m): a null argument throws; otherwise logical not. */
  function ComplementOf(m: Option<NodeMatcher>): (r: Result<NodeMatcher>)
    ensures r.Err? <==> m.None?
    ensures r.Err? ==> r.error == NullPointer
    ensures r.Ok? ==> forall node :: Matches(r.value, node) <==> !Matches(m.value, node)
  {
    if m.None? then Err(NullPointer) else Ok(Complement(m.value))
  }

  /** Complementing twice gives back a matcher that matches the same nodes. */
  lemma DoubleComplement(m: NodeMatcher, node: Node)
    ensures Matches(ComplementOf(Some(ComplementOf(Some(m)).value)).value, node) == Matches(m, node)
  {
  }

  /** De Morgan: the complement of a union matches like the intersection of the complements. */
  lemma DeMorgan(m0: NodeMatcher, m1: NodeMatcher, node: Node)
    ensures Matches(Complement(Union(m0, m1)), node) == Matches(Intersection(Complement(m0), Complement(m1)), node)
  {
  }

  /** A script's own matcher matches exactly the nodes its test accepts, also under the combinators. */
  lemma CustomMatcher(test: Node -> bool, m: NodeMatcher, node: Node)
    ensures Matches(Custom(test), node) <==> test(node)
    ensures Matches(IntersectionOf(Some(Custom(test)), Some(m)).value, node) <==> test(node) && Matches(m, node)
    ensures Matches(ComplementOf(Some(Custom(test))).value, node) <==> !test(node)
  {
  }
}
