/**
 * Shared constants and enumerations of the game database.
 *
 * The repository's Constants interface is not part of this model. UNKNOWN is
 * taken to be -1, the value the repository's Scanner class gives its own
 * UNKNOWN; NULL_SECTOR is taken to be 0. The proofs rely only on UNKNOWN being
 * negative and on NULL_SECTOR not being a sector number (sectors are 1..N).
 */
module Constants {

  const UNKNOWN: int := -1
  const NULL_SECTOR: int := 0

  /** Product indices used by ports and cargo holds. */
  const FUEL_ORE: int := 0
  const ORGANICS: int := 1
  const EQUIPMENT: int := 2
  /** Cargo holds have a fourth slot, after the three products. */
  const COLONISTS: int := 3

  /** A port's status. */
  datatype PortStatus = Available | UnderConstruction | Destroyed | Blocked

  /** Kinds of pending move the reconciler can be waiting to see completed. */
  datatype MoveMode = Warp | BWarp | TWarp

  /** A timestamp; the clock itself is outside the model. */
  type Date = nat
}
