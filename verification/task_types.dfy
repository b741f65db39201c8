/** The haul task record (src/game/tasks.rs). */
module TaskTypes {
  import opened EngineTypes

  /** One unit of hauling work: `HaulerCapacity` units of `resource` from the
      origin position to the destination position. The entity fields exist in
      the source but are never set to anything but `None`. */
  datatype HaulTask = HaulTask(
    origin: Option<Entity>,
    originPosition: Option<Vec2>,
    destination: Option<Entity>,
    destinationPosition: Option<Vec2>,
    resource: GameResource)
  {
    /** Both endpoints are known, so a hauler can be dispatched. */
    predicate HasEndpoints()
    {
      originPosition.Some? && destinationPosition.Some?
    }
  }
}
