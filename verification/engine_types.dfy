/** Shared vocabulary of the engine: the closed resource and villager-state
    enumerations, the 2D vector and rectangle types, and the game constants
    that the hauling core depends on. */
module EngineTypes {

  /** An opaque entity handle of the component store. */
  type Entity = nat

  datatype Option<T> = None | Some(value: T)

  /** Resource kinds a storage can hold and a hauler can carry. */
  datatype GameResource = Wood | Stone

  /** Every resource kind, in the fixed order the model uses wherever the
      source iterates a resource-keyed hash map. */
  const AllResources: seq<GameResource> := [Wood, Stone]

  /** The four behavioural states a villager can be in. */
  datatype VillagerState = Idle | Loading | Carrying | Working

  /** Kinds of buildings that have a construction cost. */
  datatype BuildingType = Warehouse | House

  /** A point in world pixels. The source uses floats; the model keeps the
      integer-valued positions that spawns and tasks use, and does not
      represent the fractional positions of moving villagers. */
  datatype Vec2 = Vec2(x: int, y: int)

  /** An axis-aligned rectangle: top-left corner and size. */
  datatype Rect = Rect(x: int, y: int, width: int, height: int)

  /** Resource units a hauler moves per task. */
  const HaulerCapacity: int := 10

  /** Side of a tile in pixels (16.0 in the source). */
  const TileSize: int := 16

  lemma AllResourcesComplete(r: GameResource)
    ensures r in AllResources
    ensures |AllResources| == 2 && AllResources[0] != AllResources[1]
  {
  }
}
