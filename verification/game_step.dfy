/** One simulation tick (`update_game` of src/game/step.rs). */
module GameStep {
  import opened Collision
  import opened Ecs
  import opened Tasks
  import opened BuildingsStep
  import opened CollisionDetection

  /** `update_game`: task assignment, then building resolution, then the
      body and trigger collision passes; villager movement, which runs
      between assignment and buildings in the source, is not part of this
      model. After a tick every collision component records exactly
      whether its box overlaps a peer's, and construction ledgers have only
      been retired once finished, so `HouseNeverFinishedByHauling` applies
      to any run of ticks. */
  method UpdateGame(w: World)
    requires w.Valid()
    modifies w`openTasks, w`haulTasks, w`tags, w`constructions, w`storages, w`backpacks, w`ongoing,
             w`bodies, w`triggers
    ensures w.Valid()
    ensures BodiesSettled(w.boxes, w.bodies)
    ensures TriggersSettled(w.boxes, w.triggers)
    ensures LedgersOnlyRetired(old(w.constructions), w.constructions)
  {
    UpdateTasks(w);
    UpdateBuildings(w);
    DetectBodyCollisions(w);
    assert BodiesSettled(w.boxes, w.bodies);
    DetectTriggerCollisions(w);
  }
}
