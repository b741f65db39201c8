/** The open-task stack and hauler assignment (src/game/tasks.rs). The one
    `OpenTasks` entity is the world's `openTasks` field; tasks are pushed on
    and popped off its end. */
module Tasks {
  import opened EngineTypes
  import opened VillagerTypes
  import opened TaskTypes
  import opened Ecs
  import opened VillagerStates

  /** The fixed task the UI button enqueues: a load of wood from (304, 48)
      to (304, 248), with no entity recorded at either end. */
  function DemoTask(): (t: HaulTask)
    ensures t.resource == Wood && t.HasEndpoints()
    ensures t.originPosition == Some(Vec2(304, 48)) && t.destinationPosition == Some(Vec2(304, 248))
    ensures t.origin.None? && t.destination.None?
  {
    HaulTask(None, Some(Vec2(304, 48)), None, Some(Vec2(304, 248)), Wood)
  }

  /** `give_haul_task_to_idle`: push the demo task. */
  method GiveHaulTaskToIdle(w: World)
    modifies w`openTasks
    ensures w.openTasks == old(w.openTasks) + [DemoTask()]
  {
    w.openTasks := w.openTasks + [DemoTask()];
  }

  /** The task `generate_haul_task` builds: the given positions and resource,
      no entity at either end. */
  function NewHaulTask(originPosition: Option<Vec2>, destinationPosition: Vec2, resource: GameResource): (t: HaulTask)
    ensures t.originPosition == originPosition && t.destinationPosition == Some(destinationPosition)
    ensures t.resource == resource && t.origin.None? && t.destination.None?
  {
    HaulTask(None, originPosition, None, Some(destinationPosition), resource)
  }

  /** `generate_haul_task`: push exactly one task at the end, earlier tasks
      untouched. The origin is optional: construction task generation passes
      `None` when no storage with a sprite and no ledger has a full load
      left after its reservation. */
  method GenerateHaulTask(w: World, originPosition: Option<Vec2>, destinationPosition: Vec2, resource: GameResource)
    modifies w`openTasks
    ensures w.openTasks == old(w.openTasks) + [NewHaulTask(originPosition, destinationPosition, resource)]
  {
    w.openTasks := w.openTasks + [NewHaulTask(originPosition, destinationPosition, resource)];
  }

  /** A hauler that is idle and has no task: the only kind that may be given
      one. */
  ghost predicate Assignable(haulers: set<Entity>, idle: set<Entity>, haulTasks: map<Entity, HaulTask>, e: Entity)
  {
    e in haulers && e in idle && e !in haulTasks
  }

  /** `order[i]` is the first assignable hauler in `order`. */
  ghost predicate FirstAssignableAt(order: seq<Entity>, haulers: set<Entity>, idle: set<Entity>, haulTasks: map<Entity, HaulTask>, i: int)
  {
    0 <= i < |order| && Assignable(haulers, idle, haulTasks, order[i])
    && forall j :: 0 <= j < i ==> !Assignable(haulers, idle, haulTasks, order[j])
  }

  /** The first assignable hauler in query order, if any. */
  ghost function FirstAssignable(order: seq<Entity>, haulers: set<Entity>, idle: set<Entity>, haulTasks: map<Entity, HaulTask>)
    : (m: Option<Entity>)
    ensures m.Some? ==> Assignable(haulers, idle, haulTasks, m.value)
    ensures m.Some? ==> exists i :: FirstAssignableAt(order, haulers, idle, haulTasks, i) && order[i] == m.value
    ensures m.None? <==> forall i :: 0 <= i < |order| ==> !Assignable(haulers, idle, haulTasks, order[i])
  {
    if order == [] then None
    else if Assignable(haulers, idle, haulTasks, order[0]) then Some(order[0])
    else
      var m := FirstAssignable(order[1..], haulers, idle, haulTasks);
      if m.Some? then
        var i :| FirstAssignableAt(order[1..], haulers, idle, haulTasks, i) && order[1..][i] == m.value;
        assert FirstAssignableAt(order, haulers, idle, haulTasks, i + 1);
        m
      else m
  }

  /** The selection loop of `find_idle_hauler_for_task`: keep the first idle
      hauler without a task that the query yields. */
  method SelectIdleHauler(order: seq<Entity>, haulers: set<Entity>, idle: set<Entity>, haulTasks: map<Entity, HaulTask>)
    returns (selected: Option<Entity>)
    ensures selected == FirstAssignable(order, haulers, idle, haulTasks)
  {
    selected := None;
    var i := 0;
    while i < |order|
      invariant 0 <= i <= |order|
      invariant selected.None? ==> forall j :: 0 <= j < i ==> !Assignable(haulers, idle, haulTasks, order[j])
      invariant selected.Some? ==> selected == FirstAssignable(order, haulers, idle, haulTasks)
    {
      var e := order[i];
      if selected.None? && e in haulers && e in idle && e !in haulTasks {
        FirstAssignableIsFirstMatch(order, haulers, idle, haulTasks, i);
        selected := Some(e);
      }
      i := i + 1;
    }
  }

  /** When every entity before index `i` is unassignable and `order[i]` is
      assignable, it is the first one. */
  lemma {:induction false} FirstAssignableIsFirstMatch(order: seq<Entity>, haulers: set<Entity>, idle: set<Entity>,
                                                      haulTasks: map<Entity, HaulTask>, i: nat)
    requires i < |order| && Assignable(haulers, idle, haulTasks, order[i])
    requires forall j :: 0 <= j < i ==> !Assignable(haulers, idle, haulTasks, order[j])
    ensures FirstAssignable(order, haulers, idle, haulTasks) == Some(order[i])
  {
    if i > 0 {
      FirstAssignableIsFirstMatch(order[1..], haulers, idle, haulTasks, i - 1);
    }
  }

  /** Attach `task` to the idle hauler `h` and move it from Idle to
      Loading. */
  method AttachTask(w: World, h: Entity, task: HaulTask)
    requires w.Valid() && h in w.haulers && h in w.tags.idle
    modifies w`haulTasks, w`tags
    ensures w.Valid()
    ensures w.haulTasks == old(w.haulTasks)[h := task]
    ensures w.tags == IdleChanged(old(w.tags), h, Loading)
  {
    w.haulTasks := w.haulTasks[h := task];
    assert w.ComponentsListed();
    IdleChangeStateTo(w, h, Loading);
  }

  /** `haul_list.pop()`: the most recently pushed task, removed from the
      stack, or nothing when the stack is empty. */
  method PopTask(w: World) returns (popped: Option<HaulTask>)
    requires w.Valid()
    modifies w`openTasks
    ensures w.Valid()
    ensures old(w.openTasks) == [] ==> popped.None? && w.openTasks == []
    ensures old(w.openTasks) != [] ==>
              popped == Some(old(w.openTasks)[|old(w.openTasks)| - 1]) && w.openTasks == old(w.openTasks)[..|old(w.openTasks)| - 1]
    ensures popped.Some? ==> old(w.openTasks) == w.openTasks + [popped.value]
  {
    popped := None;
    if w.openTasks != [] {
      popped := Some(w.openTasks[|w.openTasks| - 1]);
      w.openTasks := w.openTasks[..|w.openTasks| - 1];
    }
  }

  /** The part of `find_idle_hauler_for_task` after a hauler `h` was
      selected: pop the most recent task and, when it has both positions,
      attach it to `h`, which moves from Idle to Loading. */
  method ServeHauler(w: World, h: Entity)
    requires w.Valid() && Assignable(w.haulers, w.tags.idle, w.haulTasks, h)
    modifies w`openTasks, w`haulTasks, w`tags
    ensures w.Valid()
    ensures w.openTasks == if old(w.openTasks) == [] then [] else old(w.openTasks)[..|old(w.openTasks)| - 1]
    ensures if old(w.openTasks) != [] && old(w.openTasks)[|old(w.openTasks)| - 1].HasEndpoints()
            then w.haulTasks == old(w.haulTasks)[h := old(w.openTasks)[|old(w.openTasks)| - 1]]
                 && w.tags == IdleChanged(old(w.tags), h, Loading)
            else w.haulTasks == old(w.haulTasks) && w.tags == old(w.tags)
  {
    var popped := PopTask(w);
    if popped.Some? {
      var task := popped.value;
      if task.originPosition.Some? && task.destinationPosition.Some? {
        AttachTask(w, h, task);
      }
    }
  }

  /** `find_idle_hauler_for_task`: when some idle hauler has no task, pop the
      most recently pushed task (LIFO). A popped task with both positions is
      attached to that hauler, which goes from Idle to Loading; a popped task
      missing a position is dropped, and nobody changes. With no such hauler,
      nothing changes at all. */
  method FindIdleHaulerForTask(w: World)
    requires w.Valid()
    modifies w`openTasks, w`haulTasks, w`tags
    ensures w.Valid()
    ensures var sel := FirstAssignable(old(w.order), old(w.haulers), old(w.tags.idle), old(w.haulTasks));
      && (sel.None? || old(w.openTasks) == [] ==> w.openTasks == old(w.openTasks))
      && (sel.Some? ==> w.openTasks == if old(w.openTasks) == [] then [] else old(w.openTasks)[..|old(w.openTasks)| - 1])
      && (if sel.Some? && old(w.openTasks) != [] && old(w.openTasks)[|old(w.openTasks)| - 1].HasEndpoints()
          then w.haulTasks == old(w.haulTasks)[sel.value := old(w.openTasks)[|old(w.openTasks)| - 1]]
               && sel.value !in old(w.haulTasks)
               && w.tags == IdleChanged(old(w.tags), sel.value, Loading)
          else w.haulTasks == old(w.haulTasks) && w.tags == old(w.tags))
  {
    var selected := SelectIdleHauler(w.order, w.haulers, w.tags.idle, w.haulTasks);
    if selected.Some? {
      ServeHauler(w, selected.value);
    }
  }

  /** `update_tasks`. */
  method UpdateTasks(w: World)
    requires w.Valid()
    modifies w`openTasks, w`haulTasks, w`tags
    ensures w.Valid()
  {
    FindIdleHaulerForTask(w);
  }
}
