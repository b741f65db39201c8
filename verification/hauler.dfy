/** Pickup and delivery on the hauler (src/game/villagers/hauler.rs). */
module Hauler {
  import opened EngineTypes
  import opened VillagerTypes
  import opened TaskTypes
  import opened Ecs
  import opened VillagerStates

  /** The item a hauler's task stands for: a full load of the task's
      resource, or nothing when the hauler has no task. */
  function TaskLoad(haulTasks: map<Entity, HaulTask>, h: Entity): (item: Option<GameItem>)
    ensures h in haulTasks <==> item.Some?
    ensures item.Some? ==> item.value.resource == haulTasks[h].resource && item.value.amount == HaulerCapacity
  {
    if h in haulTasks then Some(NewGameItem(haulTasks[h].resource, HaulerCapacity)) else None
  }

  /** `receive_resource`: the backpack is replaced by one holding the task's
      load (or nothing, without a task), the task itself is only read, and
      the hauler moves from Loading to Carrying even when it had no task. */
  method ReceiveResource(w: World, h: Entity) returns (item: Option<GameItem>)
    requires w.Valid() && h in w.tags.loading
    modifies w`backpacks, w`tags
    ensures w.Valid()
    ensures item == TaskLoad(w.haulTasks, h)
    ensures w.backpacks == old(w.backpacks)[h := Backpack(item)]
    ensures w.tags == LoadingChanged(old(w.tags), h, Carrying)
  {
    item := None;
    if h in w.haulTasks {
      item := Some(NewGameItem(w.haulTasks[h].resource, HaulerCapacity));
    }
    w.backpacks := w.backpacks[h := Backpack(item)];
    LoadingChangeStateTo(w, h, Carrying);
  }

  /** `deliver_resource`: reports a full load of the task's resource whatever
      the backpack held, empties the backpack, removes the task (which must
      exist, the source unwraps the removal) and moves the hauler from
      Carrying to Idle. */
  method DeliverResource(w: World, h: Entity) returns (item: Option<GameItem>)
    requires w.Valid() && h in w.tags.carrying && h in w.haulTasks
    modifies w`backpacks, w`haulTasks, w`tags
    ensures w.Valid()
    ensures item == Some(GameItem(old(w.haulTasks[h]).resource, HaulerCapacity))
    ensures w.backpacks == old(w.backpacks)[h := DefaultBackpack()]
    ensures w.haulTasks == old(w.haulTasks) - {h}
    ensures w.tags == CarryingChanged(old(w.tags), h, Idle)
  {
    item := None;
    if h in w.haulTasks {
      item := Some(NewGameItem(w.haulTasks[h].resource, HaulerCapacity));
    }
    w.backpacks := w.backpacks[h := Backpack(None)];
    w.haulTasks := w.haulTasks - {h};
    CarryingChangeStateTo(w, h, Idle);
  }
}
