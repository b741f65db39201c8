# Colony hauling core, modelled in Dafny

This project models the hauling core of a small colony simulation written in
Rust on the hecs entity-component store. The core is the set of rules that:

- turn construction requirements into haul tasks on a LIFO stack of open tasks;
- give a task to the first idle hauler that has none;
- let a hauler whose trigger box overlaps a building pick up a load from a
  storage, or hand its load over at a storage or a construction (as written,
  the hand-over empties the backpack and credits no building; see
  "## Findings");
- tell when a construction is finished;
- report per-resource totals and task counts to the telemetry labels.

The hecs `World` is the class `Ecs.World`. It has one field per component
kind, each a map or set keyed by entity. `order` is the query order, and the
four villager state markers (Idle, Loading, Carrying, Working) are sets.
Every world operation is a method with `modifies` frames on the fields it
touches. Its `ensures` give the new component maps in terms of pure
functions: `StockAfterPickup`, `IdleChanged`, `Marked`, `GeneratedTasks`,
`StorageTotals`, `Relabelled` and others. Lemmas then state what the source
promises about those functions: a pickup lowers stock by exactly the load,
task generation is one-shot, task counts per building, exclusivity of the
state markers, the meaning of the "finished" test, and the telemetry totals
as sums of stock. They also state what the hand-over as written does: a
drop-off loses the load, and hauling never finishes a construction. The
intended deposit and delivery (`StockAfterDropOff`, `LedgerAfterDelivery`)
are modelled beside it, with their conservation lemmas.

One Dafny module per source file:

- `EngineTypes`, `Collision` and `CollisionDetection` model the engine.
- `VillagerTypes`, `VillagerStates` and `Hauler` model villagers.
- `BuildingTypes`, `BuildingsStep`, `ConstructionTasks`, `WarehouseSpawn` and
  `HouseSpawn` model buildings.
- `TaskTypes` and `Tasks` model the task stack.
- `UiTypes` and `UiStep` model telemetry.
- `Ecs` is the world and `GameStep` is the tick.

Positions are integers. The source uses `f32`; the model keeps the
integer-valued positions that spawns and tasks use, which the core compares
for equality and tests against boxes with inclusive `+ width - 1` edges. Where
the source iterates a hash map, the model fixes an order: resources in the
order `[Wood, Stone]`, entities in query order.

## Model

| member | source | states |
|---|---|---|
| EngineTypes.AllResourcesComplete | src/engine/enums.rs:1-6 | The resource enumeration has exactly the two distinct kinds Wood and Stone, so a fold over `AllResources` visits every key of a resource map once |
| Collision.NewTrigger | src/engine/collision.rs:21-25 | A new trigger component is not colliding and has no partner |
| Collision.NewBody | src/engine/collision.rs:10-14 | The default body component is not colliding and has no partner |
| Collision.IsPointInsideBox | src/engine/collision.rs:33-38 | With the inclusive `+ width - 1` edges, a point is inside exactly when it lies in the half-open ranges `x .. x+width` and `y .. y+height` |
| Collision.AreBoxesColliding | src/engine/collision.rs:40-48 | Two boxes collide exactly when their half-open cell ranges meet on both axes |
| Collision.PointInsideIsUnitBoxCollision | src/engine/collision.rs:33-48 | A point is inside a box (inclusive edges `x .. x+w-1`, `y .. y+h-1`) exactly when the 1x1 box at the point collides with it |
| Collision.CollidingIsSymmetric | src/engine/collision.rs:40-48 | Box overlap is symmetric in its two arguments |
| Collision.SelfCollisionIffNonEmpty | src/engine/collision.rs:40-48 | A box collides with itself exactly when its width and height are both at least 1 |
| Collision.CollectOverlaps | src/engine/collision.rs:51-64 | The nested pair loop records only true partners: distinct, both with a box and the pass's component, boxes overlapping. Every entity of the query order that has such a partner is recorded |
| CollisionDetection.TriggerOutcome | src/engine/collision.rs:94-103 | The trigger write loop sets `colliding` exactly when the entity was paired, with that partner, and otherwise no partner |
| CollisionDetection.BodyOutcome | src/engine/collision.rs:66-75 | The same rule for body components |
| CollisionDetection.PairedWhenPartnered | src/engine/collision.rs:51-64 | Since every boxed entity is in the query order, every entity with some partner is paired |
| CollisionDetection.TriggerOutcomesAreConsistent | src/engine/collision.rs:94-103 | After the write loop, `colliding` holds exactly when `other_trigger` is Some, and a recorded partner is a real partner: not the entity itself, carrying a box and a trigger, boxes overlapping |
| CollisionDetection.TriggerOutcomesMeanPartners | src/engine/collision.rs:78-104 | A trigger is colliding exactly when its entity has an overlapping trigger peer. An entity without a box, or without such a peer, ends non-colliding |
| CollisionDetection.BodyOutcomesAreConsistent | src/engine/collision.rs:66-75 | After the write loop, `colliding` holds exactly when `other_body` is Some, and the partner is a real body partner |
| CollisionDetection.BodyOutcomesMeanPartners | src/engine/collision.rs:50-76 | A body is colliding exactly when its entity has an overlapping body peer |
| CollisionDetection.OverlapPartners | src/engine/collision.rs:51-64 | Over all entities: every recorded partner is a partner, and every entity with a partner is recorded |
| CollisionDetection.WriteTriggerOutcomes | src/engine/collision.rs:94-103 | Every trigger-carrying entity, and no other, gets the component its pairing determines |
| CollisionDetection.TriggerPass | src/engine/collision.rs:78-104 | Both trigger loops together: the keys are kept; colliding iff a partner is recorded iff the entity has an overlapping trigger peer; and any recorded partner is a real one |
| CollisionDetection.DetectTriggerCollisions | src/engine/collision.rs:78-104 | `detect_trigger_collisions` writes only trigger components, keeps their set of entities, and leaves each colliding exactly when its box overlaps another trigger-carrying entity's box, with a real partner recorded |
| CollisionDetection.WriteBodyOutcomes | src/engine/collision.rs:66-75 | Every body-carrying entity, and no other, gets the component its pairing determines |
| CollisionDetection.BodyPass | src/engine/collision.rs:50-76 | Both body loops together, with the same guarantees as the trigger pass |
| CollisionDetection.DetectBodyCollisions | src/engine/collision.rs:50-76 | `detect_body_collisions` writes only body components and considers only body-carrying boxes; each body ends colliding exactly when it has an overlapping body peer |
| VillagerTypes.NewGameItem | src/game/villagers/datatypes.rs:77-81 | `GameItem::new` stores the resource and amount unchanged |
| VillagerTypes.DefaultBackpack | src/game/villagers/datatypes.rs:83-86 | The default backpack holds no item |
| VillagerTypes.CloneItem | src/game/villagers/datatypes.rs:88-92 | `clone_item` returns the stored item unchanged |
| VillagerTypes.IdleChanged | src/game/villagers/datatypes.rs:32-41 | Leaving Idle: the entity loses Idle and gains Loading or Working for those targets; any other target adds nothing; every other entity's markers are unchanged |
| VillagerTypes.LoadingChanged | src/game/villagers/datatypes.rs:46-55 | Leaving Loading: the entity loses Loading and gains Idle or Carrying for those targets; any other target adds nothing; every other entity's markers are unchanged |
| VillagerTypes.CarryingChanged | src/game/villagers/datatypes.rs:60-68 | Leaving Carrying: the entity loses Carrying and gains Idle only for that target; every other entity's markers are unchanged |
| VillagerTypes.SupportedTransitionsKeepOneState | src/game/villagers/datatypes.rs:33-68 | On the hauler cycle Idle to Loading (or Working), Loading to Carrying or Idle, and Carrying to Idle, the markers stay exclusive and the entity holds exactly the target marker |
| VillagerTypes.UnsupportedTransitionsLeaveNoState | src/game/villagers/datatypes.rs:33-68 | Any other target keeps the markers exclusive but leaves the entity with no state marker at all |
| VillagerStates.ChangesKeepExclusive | src/game/villagers/datatypes.rs:33-68 | Every `change_state_to` keeps the markers exclusive and never tags an entity that had no marker |
| VillagerStates.IdleChangeStateTo | src/game/villagers/datatypes.rs:33-41 | Requires the Idle marker to be present, because the source unwraps its removal. The markers become `IdleChanged` of the old ones, and the world invariant is kept |
| VillagerStates.LoadingChangeStateTo | src/game/villagers/datatypes.rs:47-55 | Requires the Loading marker; the markers become `LoadingChanged` of the old ones |
| VillagerStates.CarryingChangeStateTo | src/game/villagers/datatypes.rs:61-68 | Requires the Carrying marker; the markers become `CarryingChanged` of the old ones |
| Hauler.TaskLoad | src/game/villagers/hauler.rs:53-57 | A hauler with a task stands for a full load (`HAULER_CAPACITY`) of the task's resource, and a hauler without one for nothing |
| Hauler.ReceiveResource | src/game/villagers/hauler.rs:49-65 | Returns the task's full load, or None without a task. The backpack is replaced by one holding exactly that value. The task is only read. The hauler moves Loading to Carrying even without a task |
| Hauler.DeliverResource | src/game/villagers/hauler.rs:67-84 | Returns a full load of the task's resource, whatever the backpack held. The backpack is emptied and the task removed (it must exist). The hauler moves Carrying to Idle |
| BuildingTypes.TotalIsSumOfAmounts | src/game/buildings/step.rs:312-316 | The total of a resource map is its Wood amount plus its Stone amount |
| BuildingTypes.StorageHasRequiredResource | src/game/buildings/step.rs:259-273 | A storage that answers yes lists the resource, and its stock covers the amount plus what is reserved |
| BuildingTypes.IsStorageEmpty | src/game/buildings/step.rs:312-316 | A map counts as empty exactly when its Wood and Stone amounts (absent keys as zero) sum to at most zero |
| BuildingTypes.StorageHasRequiredResourceSpec | src/game/buildings/step.rs:259-273 | Availability holds iff the resource is on hand and on-hand minus reserved (0 when the reserved key is absent) covers the amount; it is false when the key is absent |
| BuildingTypes.AvailabilityMonotone | src/game/buildings/step.rs:259-273 | A storage that can supply an amount can supply any smaller amount |
| BuildingTypes.Withdrawn | src/game/buildings/step.rs:281-283 | A withdrawal lowers only the item's resource, by the item's amount, and keeps the keys |
| BuildingTypes.Deposited | src/game/buildings/step.rs:292-296 | A deposit adds to the existing entry or inserts the key with the item's amount; other keys are untouched |
| BuildingTypes.RequiredAfterDelivery | src/game/buildings/step.rs:303-310 | A delivery lowers an existing requirement by the item's amount with no clamp. A resource the ledger does not list is ignored, and no key is added |
| BuildingTypes.TotalsMoveByAmount | src/game/buildings/step.rs:275-310 | Conservation: a withdrawal lowers total stock by exactly the amount, a deposit raises it by exactly the amount, and a delivery lowers a ledger's total by the amount |
| BuildingTypes.WithdrawDepositInverse | src/game/buildings/step.rs:275-301 | Withdrawal and deposit of the same item undo each other |
| BuildingTypes.WithdrawalCanGoNegative | src/game/buildings/step.rs:281 | No lower bound: taking ten wood from a stock of five leaves minus five |
| BuildingTypes.IsStorageEmptyMeaning | src/game/buildings/step.rs:312-316 | An empty map counts as finished, as does one with no positive entry; with no negative entry, finished iff every entry is zero |
| BuildingTypes.FinishedWithResourceStillMissing | src/game/buildings/step.rs:312-316 | Because only the sum is tested, a ledger with a surplus of one resource counts as finished while another resource is still required |
| BuildingTypes.CheckStorageEmpty | src/game/buildings/step.rs:312-316 | The running-sum loop answers exactly "sum of the values is at most zero" |
| BuildingTypes.ConstructionCost | src/game/buildings/utils.rs:5-18 | House costs exactly `{Wood: 50}`, Warehouse exactly `{Wood: 70, Stone: 30}`, and every amount is positive and a multiple of `HAULER_CAPACITY` |
| BuildingTypes.TaskCount | src/game/buildings/step.rs:237-239 | The number of iterations of `0..amount / HAULER_CAPACITY`: the truncated quotient, none when it is not positive, and the largest whole number of loads that fits a positive amount |
| BuildingTypes.CostSplitsIntoWholeTasks | src/game/buildings/utils.rs:8-14 | For every building type, the truncating task count times the capacity is exactly the cost, so truncation loses nothing |
| Tasks.DemoTask | src/game/tasks.rs:32-44 | The button's task is Wood from (304, 48) to (304, 248), with no entity at either end |
| Tasks.GiveHaulTaskToIdle | src/game/tasks.rs:32-44 | Exactly that one task is appended to the open-task stack |
| Tasks.NewHaulTask | src/game/tasks.rs:46-63 | The built task carries the origin, the destination and the resource, with no entities; the origin is optional, as the caller at src/game/buildings/step.rs:253 passes it |
| Tasks.GenerateHaulTask | src/game/tasks.rs:46-63 | The stack grows by exactly that one task at the end, and earlier tasks are unchanged |
| Tasks.FirstAssignable | src/game/tasks.rs:69-76 | The first hauler in query order that is Idle and has no task, or None exactly when there is none |
| Tasks.SelectIdleHauler | src/game/tasks.rs:69-76 | The selection loop keeps the first Idle hauler without a task |
| Tasks.FirstAssignableIsFirstMatch | src/game/tasks.rs:70-75 | An assignable hauler with no assignable hauler before it is the one selected |
| Tasks.AttachTask | src/game/tasks.rs:86-90 | The task is attached to the hauler, which moves Idle to Loading |
| Tasks.PopTask | src/game/tasks.rs:78-84 | LIFO pop: returns the most recently pushed task and shrinks the stack by one, or returns None and leaves an empty stack empty |
| Tasks.ServeHauler | src/game/tasks.rs:78-91 | Pops one task. A popped task with both positions is attached and the hauler moves Idle to Loading. A task missing a position is dropped, and nobody changes |
| Tasks.FindIdleHaulerForTask | src/game/tasks.rs:65-93 | With no Idle hauler free of a task, or an empty stack, the stack is unchanged. Otherwise the last task is popped. Only the first free hauler, which had no task, can receive it, so no hauler is double-assigned and at most one hauler changes |
| Tasks.UpdateTasks | src/game/tasks.rs:28-30 | Runs the assignment step and keeps the world invariant |
| Ecs.World.NewEntity | src/game/buildings/warehouse.rs:42 | Spawning yields an entity never seen before, appended to the query order |
| BuildingsStep.StockAfterPickup | src/game/buildings/step.rs:275-287 | Only the named storage's stock changes, and no reservation changes |
| BuildingsStep.StockAfterDropOff | src/game/buildings/step.rs:292-296 | The storage map the body of `add_to_storage`'s branch would produce (intended half of the drop-off finding): only the named storage's stock changes, and no reservation changes |
| BuildingsStep.PickupConservesStock | src/game/buildings/step.rs:275-287 | A pickup lowers the storage's total and the resource's stock by exactly the load, and the intended deposit of the same load (`StockAfterDropOff`) would restore the storage map |
| BuildingsStep.DropOffConservesStock | src/game/buildings/step.rs:292-296 | Intended half of the drop-off finding: the deposit the branch body would make raises the storage's total and the resource's stock by exactly the load |
| BuildingsStep.RemoveFromStorage | src/game/buildings/step.rs:275-287 | Returns true iff the building has a storage listing the resource; the storages become `StockAfterPickup` of the old ones, and nothing changes otherwise |
| BuildingsStep.AddToStorage | src/game/buildings/step.rs:289-301 | As written: the lookup of a `&mut StorageSpace` component finds none, so the call returns false and every storage is unchanged |
| BuildingsStep.DepositIntoStorage | src/game/buildings/step.rs:289-301 | As intended, with the lookup naming `StorageSpace`: returns true iff the building has a storage, and the storages become `StockAfterDropOff` of the old ones |
| BuildingsStep.LedgerAfterDelivery | src/game/buildings/step.rs:306-308 | The ledger map the body of `place_construction_resource`'s branch would produce (intended half of the delivery finding): only the named construction's ledger changes, by `RequiredAfterDelivery` |
| BuildingsStep.PlaceConstructionResource | src/game/buildings/step.rs:303-310 | As written: the lookup of a `&mut ConstructionStorage` component finds none, so every ledger is unchanged |
| BuildingsStep.DeliverIntoLedger | src/game/buildings/step.rs:303-310 | As intended, with the lookup naming `ConstructionStorage`: the ledgers become `LedgerAfterDelivery` of the old ones |
| BuildingsStep.LedgerAfterDeliveries | src/game/buildings/step.rs:303-310 | A run of intended deliveries keeps the set of ledgers |
| BuildingsStep.Loads | src/game/buildings/step.rs:239 | n copies of one full load |
| BuildingsStep.WoodLoadsLowerHouse | src/game/buildings/step.rs:306-308 | With the intended delivery, n full Wood loads leave a house needing exactly `50 - 10n` Wood |
| BuildingsStep.HouseFinishedByIntendedDeliveries | src/game/buildings/step.rs:306-316 | With the intended delivery, the five loads generated for a house finish it and four do not |
| BuildingsStep.LedgersOnlyRetiredTrans | src/game/buildings/step.rs:29-36 | Two steps that add no ledger, change no requirement and drop only finished ledgers compose into one such step |
| BuildingsStep.NeverFinishedByHauling | src/game/buildings/step.rs:303-310 | Over any run of such steps, a construction that starts unfinished keeps its ledger and its requirements and is never finished |
| BuildingsStep.HouseNeverFinishedByHauling | src/game/buildings/step.rs:303-310 | As written, a house ledger (`{Wood: 50}`) stays present and unfinished over any run of steps that only retire finished ledgers |
| BuildingsStep.ObservedState | src/game/buildings/step.rs:99-107 | The Idle, then Loading, then Carrying test never reports Working, and reports nothing exactly when none of the three markers is present |
| BuildingsStep.ObservedStateIsTheState | src/game/buildings/step.rs:58-66 | With exclusive markers the reported state is the villager's only state, and Loading or Carrying is reported exactly when that marker is present |
| BuildingsStep.BuildingPosition | src/game/buildings/step.rs:126-144 | The building's sprite position, or the zero vector when it has no sprite |
| BuildingsStep.DeliverToConstruction | src/game/buildings/step.rs:155-161 | The backpack, task and marker change as in `deliver_resource`, and every ledger is unchanged, because `place_construction_resource` credits nothing |
| BuildingsStep.ArriveAtConstruction | src/game/buildings/step.rs:142-164 | For an unfinished construction, a Carrying hauler heading to this building gives up its load and task and goes Idle; in every other case nothing changes; no ledger changes in any case |
| BuildingsStep.ConstructionHandleHauler | src/game/buildings/step.rs:120-165 | A ledger summing to at most zero is only removed, and no ongoing marker is inserted. Otherwise a Carrying hauler whose destination is the building's position loses backpack and task and goes Idle, while the ledger is unchanged. Any other case changes nothing |
| BuildingsStep.PickUpFromStorage | src/game/buildings/step.rs:195-201 | The storage loses a full load of the task's resource, the backpack holds it, and the hauler goes Loading to Carrying |
| BuildingsStep.DropOffAtStorage | src/game/buildings/step.rs:203-209 | The backpack is emptied, the task removed, and the hauler goes Carrying to Idle, while every storage is unchanged, because `add_to_storage` credits nothing |
| BuildingsStep.StorageHandleHauler | src/game/buildings/step.rs:167-213 | Acts in two cases only: a Loading hauler at its origin picks up (the storage loses the load), and a Carrying hauler at its destination gives up its load, task and marker while no storage changes. Any other state or position changes nothing |
| BuildingsStep.CollidedPairs | src/game/buildings/step.rs:41-53 | The recorded pairs are buildings of the pass (with or without a ledger) whose trigger is colliding with that partner, and every such building of the query order is recorded |
| BuildingsStep.CollectCollided | src/game/buildings/step.rs:82-94 | The collecting loop yields exactly `CollidedPairs` |
| BuildingsStep.StorageHandleCollision | src/game/buildings/step.rs:99-116 | One recorded pair of the storage pass: a villager observed Loading at its task's origin picks up, one observed Carrying at its destination gives up its load with no storage changing, and otherwise (no marker observed included) nothing changes. Storage keys and reservations are kept, and no task is created |
| BuildingsStep.ConstructionHandleCollision | src/game/buildings/step.rs:58-75 | One recorded pair of the construction pass: with a marker observed, a finished ledger is removed, and otherwise a villager observed Carrying to the building gives up its load while no ledger changes; with no marker observed, or in any other case, nothing changes. Ledgers are only retired once finished, and no requirement or `tasks_generated` flag changes |
| BuildingsStep.CheckStorageCollidedWithEntity | src/game/buildings/step.rs:79-118 | The storage pass keeps the set of storages and every reservation, and creates no task |
| BuildingsStep.CheckConstructionCollidedWithEntity | src/game/buildings/step.rs:38-77 | The construction pass only removes ledgers, and only finished ones; it changes no requirement, flips no generation flag, creates no task and inserts no ongoing marker |
| BuildingsStep.CollectFinished | src/game/buildings/step.rs:376-383 | The listed buildings are exactly the finished constructions of the query order |
| BuildingsStep.RetireFinished | src/game/buildings/step.rs:385-395 | Listed buildings lose their ledger and gain the ongoing marker; all other ledgers are untouched |
| BuildingsStep.CheckConstructionResources | src/game/buildings/step.rs:373-398 | Exactly the constructions whose ledger sums to at most zero lose the ledger and become ongoing; every other ledger is unchanged |
| BuildingsStep.FlagsKeepTasksGenerated | src/game/buildings/step.rs:225-228 | Removing ledgers and keeping flags preserves "every eligible construction has had its tasks generated" |
| BuildingsStep.ResolveArrivals | src/game/buildings/step.rs:31-32 | The two collision passes keep storages and reservations, only remove tasks and finished ledgers, change no requirement, and keep task generation complete |
| BuildingsStep.GenerateStep | src/game/buildings/step.rs:30 | Generation inside the step: the ledgers become `Marked` and exactly `GeneratedTasks` of the listed jobs are appended, so afterwards no construction awaits its tasks |
| BuildingsStep.FinishStep | src/game/buildings/step.rs:33 | The resource check inside the step: a ledger is removed exactly when it is finished, the ongoing markers gain exactly the finished buildings, the kept ledgers are unchanged, and no finished ledger is left |
| BuildingsStep.UpdateBuildings | src/game/buildings/step.rs:29-36 | After a building step, ledgers were only retired once finished and no requirement changed, every eligible construction has its tasks generated, no construction is left finished, and open tasks were only appended |
| ConstructionTasks.SupplyOf | src/game/buildings/step.rs:242-244 | The origin query's view of the world: storages with sprites, in query order, excluding constructions |
| ConstructionTasks.FirstOrigin | src/game/buildings/step.rs:240-252 | The sprite position of the first non-construction storage that can supply a full load, or None exactly when no storage can |
| ConstructionTasks.FirstOriginIsFirstMatch | src/game/buildings/step.rs:245-251 | A supplier with none before it is the origin chosen |
| ConstructionTasks.FindOrigin | src/game/buildings/step.rs:240-252 | The origin loop computes `FirstOrigin` |
| ConstructionTasks.Jobs | src/game/buildings/step.rs:218-231 | The listed (destination, requirements) pairs are empty exactly when no construction with a sprite and no placement awaits its tasks |
| ConstructionTasks.Marked | src/game/buildings/step.rs:225-228 | After listing, every awaiting construction has its flag set, requirements are kept, and none awaits any more |
| ConstructionTasks.MarkedWithin | src/game/buildings/step.rs:222-230 | The ledgers with exactly the visited awaiting constructions marked keep their keys |
| ConstructionTasks.MarkOneMore | src/game/buildings/step.rs:224-229 | Visiting one more entity marks it when it awaits tasks |
| ConstructionTasks.MarkedWhenAllVisited | src/game/buildings/step.rs:218-231 | Once every construction is visited, the marks are `Marked` |
| ConstructionTasks.MarkPending | src/game/buildings/step.rs:218-231 | The listing loop yields `Jobs` and leaves the ledgers `Marked` |
| ConstructionTasks.Repeat | src/game/buildings/step.rs:239 | n copies of one task |
| ConstructionTasks.ResourceTasks | src/game/buildings/step.rs:237-254 | One resource yields `TaskCount(amount)` identical tasks to the destination from the chosen origin |
| ConstructionTasks.GenerateResourceTasks | src/game/buildings/step.rs:237-254 | The stack grows by exactly those tasks |
| ConstructionTasks.GenerateBuildingTasks | src/game/buildings/step.rs:236-255 | The stack grows by one building's tasks, resource by resource |
| ConstructionTasks.GenerateJobTasks | src/game/buildings/step.rs:233-256 | The stack grows by every listed building's tasks, in listing order |
| ConstructionTasks.MarkConstructions | src/game/buildings/step.rs:218-231 | The world's ledgers become `Marked` and the jobs are `Jobs` |
| ConstructionTasks.GenerateConstructionHaulTasks | src/game/buildings/step.rs:215-257 | Marks every awaiting construction and appends exactly its tasks, changing no stock and no reservation |
| ConstructionTasks.BuildingTaskShape | src/game/buildings/step.rs:240-253 | Every generated task goes to the building's sprite position, starts at the first supplier of its resource (or nowhere), names no entity, and carries a listed resource |
| ConstructionTasks.BuildingTaskCount | src/game/buildings/step.rs:236-239 | A building yields the truncated Wood loads plus the truncated Stone loads |
| ConstructionTasks.CostInLoads | src/game/buildings/utils.rs:8-14 | A house yields five tasks and a warehouse ten |
| ConstructionTasks.SecondGenerationAddsNothing | src/game/buildings/step.rs:225-229 | Generation is one-shot: after marking, a second pass lists nothing and pushes no task |
| WarehouseSpawn.InitialStock | src/game/buildings/warehouse.rs:19-22 | A non-empty warehouse starts with exactly `{Wood: 150}`, an empty one with nothing |
| WarehouseSpawn.TileBox | src/game/buildings/warehouse.rs:33-40 | The collision box sits at the spawn position, covers it, and is one tile wide and high |
| WarehouseSpawn.SpawnFinishedWarehouse | src/game/buildings/warehouse.rs:18-53 | A fresh entity with the Building, Warehouse and Storage tags, that stock and no reservation, sprite and box at the position, and a non-colliding trigger. It has no ledger and no placement, so the storage pass handles it |
| WarehouseSpawn.SpawnedWarehouseSupplies | src/game/buildings/warehouse.rs:19-26 | A spawned warehouse can supply a wood load exactly when it is not empty; an empty one supplies nothing |
| HouseSpawn.NewHouseLedger | src/game/buildings/house.rs:30-33 | Tasks not generated yet, and requirements equal to the House cost `{Wood: 50}` |
| HouseSpawn.SpawnFinishedHouse | src/game/buildings/house.rs:18-45 | A fresh entity with the Building and House tags, the new ledger, sprite and box at the position, and a non-colliding trigger; no storage and no placement |
| HouseSpawn.SpawnHousePlacement | src/game/buildings/house.rs:47-82 | The same, plus a placement marker at the position; no storage |
| HouseSpawn.SpawnedHouseAwaitsTasks | src/game/buildings/house.rs:35-42 | A spawned house awaits task generation exactly when it has no placement marker |
| HouseSpawn.HousesSupplyNothing | src/game/buildings/house.rs:73-81 | A building without a storage is never chosen as a task origin |
| UiStep.AddItems | src/game/ui/step.rs:38-46 | Folding one storage in: keys are the union, and each amount is the sum |
| UiStep.TotalsAreStock | src/game/ui/step.rs:32-48 | A resource is a key of the totals exactly when some storage lists it, and its value is the sum of that resource's stock over all storages; ledgers never contribute |
| UiStep.StockOfUpdate | src/game/ui/step.rs:32-48 | Changing one storage shifts the summed stock by exactly that storage's change |
| UiStep.PickupLowersReportedStock | src/game/ui/step.rs:32-48 | A hauler's pickup lowers the reported total by exactly the load, for that resource only |
| UiStep.DropOffRaisesReportedStock | src/game/ui/step.rs:32-48 | Intended half of the drop-off finding: with the intended deposit, a drop-off would raise the reported total by exactly the load |
| UiStep.CarriedOfUpdate | src/game/villagers/hauler.rs:67-84 | Changing one backpack shifts the carried amount of a resource by exactly that backpack's change |
| UiStep.DropOffLosesLoad | src/game/buildings/step.rs:203-209 | As written, a drop-off that empties a full backpack and changes no storage lowers the resource held in storages and backpacks together by `HAULER_CAPACITY` |
| UiStep.IntendedDropOffConservesHeld | src/game/buildings/step.rs:292-296 | With the intended deposit, the same drop-off leaves the resource held in storages and backpacks together unchanged |
| UiStep.AddStorageItems | src/game/ui/step.rs:38-46 | The inner loop computes `AddItems` |
| UiStep.AggregateStorage | src/game/ui/step.rs:32-48 | The outer loop computes `StorageTotals` |
| UiStep.Relabelled | src/game/ui/step.rs:57-83 | Only visible labels of the pass's kind show the new value; all other labels, kinds and visibility flags are unchanged |
| UiStep.RelabelVisible | src/game/ui/step.rs:60-82 | The label loop computes `Relabelled` |
| UiStep.UpdateGlobalStorage | src/game/ui/step.rs:31-84 | The singleton, when present, is replaced wholesale by the fresh totals, and the visible storage labels show them |
| UiStep.UpdateIdleHaulTaskCount | src/game/ui/step.rs:86-121 | Visible idle-count labels show the number of open tasks |
| UiStep.UpdateActiveHaulTaskCount | src/game/ui/step.rs:123-156 | Visible active-count labels show the number of haulers with a task |
| UiStep.UpdateUi | src/game/ui/step.rs:24-28 | The three updates in order; the singleton holds the fresh totals |
| GameStep.UpdateGame | src/game/step.rs:14-20 | One tick keeps the world invariant, only retires finished ledgers without changing any requirement, and afterwards every body and every trigger reports exactly whether its box overlaps a peer's |

## Findings

| source | as written | input that shows it | evidently intended | confidence | as-written member | corrected member |
|---|---|---|---|---|---|---|
| src/game/buildings/step.rs:290 | `add_to_storage` looks up a component of type `&mut StorageSpace`. Every other lookup in the program names the component type itself (`get_mut::<StorageSpace>` at src/game/buildings/step.rs:276, `get::<HaulTask>` at :146). No entity carries a `&mut StorageSpace` component, so the lookup always fails: the call returns false and no storage gains the load | A warehouse with `{Wood: 150}` and a Carrying hauler holding 10 Wood whose task ends at the warehouse's position. `deliver_resource` empties the backpack, removes the task and sets the hauler Idle, and the stock stays `{Wood: 150}`: 10 Wood vanish | `get_mut::<StorageSpace>`: the storage gains the load (`{Wood: 160}`), and the stock held in storages and backpacks is conserved | high (read from the code; not executed) | UiStep.DropOffLosesLoad | UiStep.IntendedDropOffConservesHeld |
| src/game/buildings/step.rs:304 | `place_construction_resource` looks up a component of type `&mut ConstructionStorage`, which no entity carries, so no ledger ever changes | A house ledger `{Wood: 50}` receiving any number of full Wood loads stays at 50. Its sum never reaches zero, so the house is never finished by hauling | `get_mut::<ConstructionStorage>`: each load lowers the requirement, and the five loads generated for a house finish it | high (read from the code; not executed) | BuildingsStep.HouseNeverFinishedByHauling | BuildingsStep.HouseFinishedByIntendedDeliveries |

The handlers model the program as written. `AddToStorage` and
`PlaceConstructionResource` change nothing, so a drop-off or a delivery
empties the hauler's backpack and credits no building. `DepositIntoStorage`,
`DeliverIntoLedger`, `StockAfterDropOff`, `LedgerAfterDelivery` and their
lemmas are the intended behaviour. They are proved on their own and are not
called by the handlers.

## Left out

- Villager movement and idle wander (`update_villagers`, `update_loading_state`, `update_carrying_state`, `move_villager`): they use `f32` normalisation and randomness. `GameStep.UpdateGame` skips that step, and arrival is the collision pass reporting an overlap.
- Rendering, fonts, `measure_text_ex` and label text formatting: a label holds the value it would show instead of its text and offset.
- Mouse, keyboard and camera input, button callbacks, and placement hover (`update_construction_hover`, `place_hovering_building`): device-driven UI.
- Tilemap generation and startup: random or I/O. The open-task stack is a world field, as the one `OpenTasks` entity startup spawns.
- The `f32` `work_required` of `OngoingConstruction`: the model keeps only the marker.
- `i32` overflow: amounts and coordinates are unbounded integers.
- hecs query and `HashMap` iteration orders are fixed: entities follow `order`, and resources follow `[Wood, Stone]`.
- `println` logging.
- `unwrap`s that cannot fail on a valid world are not modelled as errors. The ones that can fail, a missing marker or task, are preconditions.
- Only the first `GlobalStorage` is updated; the model keeps it as an optional singleton.
- The sprite atlas coordinates and the placement's `building_rect` are not modelled: only positions are compared.
- Fractional positions: moving villagers have non-integer sprite positions, copied into their collision boxes, so the source's box tests can run on fractional coordinates (a box at x = 15.5 does not overlap one at x = 0 of width 16). The model represents integer positions only, and the box tests on fractional ones are not captured.
- Tasks.NewHaulTask: takes the origin as `Option<Vec2>`, where src/game/tasks.rs:48 declares a plain `Vector2` and always stores `Some` of it (src/game/tasks.rs:57). Its only caller in the core passes an `Option` (src/game/buildings/step.rs:253), so the source disagrees with itself; the model follows the caller and the `HaulTask` field type (src/game/tasks.rs:21). For a present origin the task is the one tasks.rs builds.
- Tasks.GenerateHaulTask: takes the optional origin for the same reason, and pushes the task `Tasks.NewHaulTask` builds.
- BuildingsStep.ResolveArrivals: states only what the two collision passes keep (storage keys and reservations, only finished ledgers removed with requirements and flags kept, tasks only removed, generation complete), not their combined effect over the collected pairs.
- BuildingsStep.CheckStorageCollidedWithEntity: states only frame facts (storage keys, reservations, no new tasks), not the combined effect of the handler calls over the collected pairs.
- BuildingsStep.CheckConstructionCollidedWithEntity: states only frame facts (only finished ledgers removed, requirements and flags kept, no new tasks), not the combined effect over the collected pairs.
- BuildingsStep.UpdateBuildings: states the invariants the step keeps (only finished ledgers retired, requirements kept, generation complete, no finished ledger left, tasks only appended), not the exact new state.
- Tasks.UpdateTasks: states only the world invariant; the exact effect is `FindIdleHaulerForTask`'s contract.
- UiStep.UpdateUi: states the new singleton but not the labels, which are the three relabellings in sequence.
- GameStep.UpdateGame: states the invariant and the collision outcome, not the task and building effects, which are their own methods' contracts.
