/** The entity/component store the core runs on (a hecs `World`). Each
    component kind the core reads or writes is one field: a map from entity
    to component value, or a set of entities for a marker component. Entities
    are never despawned. `order` is the order in which queries visit
    entities; the source's order is whatever hecs yields, and every result of
    the model that depends on it ("the first idle hauler", "the first storage
    with stock") is stated relative to `order`. */
module Ecs {
  import opened EngineTypes
  import opened Collision
  import opened VillagerTypes
  import opened BuildingTypes
  import opened TaskTypes
  import opened UiTypes

  class World {
    // entity bookkeeping
    var order: seq<Entity>
    var nextId: nat

    // engine components
    var sprites: map<Entity, Vec2>              // Sprite.position
    var boxes: map<Entity, Rect>                // CollisionBox.rect
    var triggers: map<Entity, TriggerCollision>
    var bodies: map<Entity, BodyCollision>

    // building components
    var buildings: set<Entity>                  // Building tag
    var warehouses: set<Entity>                 // Warehouse tag
    var houses: set<Entity>                     // House tag
    var storageTags: set<Entity>                // Storage tag
    var storages: map<Entity, StorageSpace>
    var constructions: map<Entity, ConstructionStorage>
    var placements: map<Entity, Vec2>           // ConstructionPlacement.position
    var ongoing: set<Entity>                    // OngoingConstruction

    // villager components
    var haulers: set<Entity>                    // Hauler tag
    var tags: StateTags                         // Idle/Loading/Carrying/Working markers
    var haulTasks: map<Entity, HaulTask>
    var backpacks: map<Entity, Backpack>

    // singletons and UI
    var openTasks: seq<HaulTask>                // the one OpenTasks.haul_list
    var globalStorage: Option<map<GameResource, int>>
    var labels: map<Entity, UiLabel>

    /** The entities listed in `order`, as a set. */
    ghost var ids: set<Entity>

    /** Every entity that holds some component. */
    ghost function Components(): set<Entity>
      reads this
    {
      sprites.Keys + boxes.Keys + triggers.Keys + bodies.Keys
      + buildings + warehouses + houses + storageTags
      + storages.Keys + constructions.Keys + placements.Keys + ongoing
      + haulers + tags.All() + haulTasks.Keys + backpacks.Keys + labels.Keys
    }

    /** Query order lists each spawned entity once, every entity in it was
        allocated below `nextId`, and `ids` is the set of its entries. */
    ghost predicate OrderListed()
      reads this`order, this`nextId, this`ids
    {
      && (forall i :: 0 <= i < |order| ==> order[i] < nextId)
      && (forall i, j :: 0 <= i < j < |order| ==> order[i] != order[j])
      && (forall e :: e in ids <==> e in order)
    }

    /** Every component belongs to a listed entity (one conjunct per
        component kind, so that an update of one kind leaves the others'
        conjuncts untouched). */
    ghost predicate ComponentsListed()
      reads this`ids,
             this`sprites, this`boxes, this`triggers, this`bodies,
             this`buildings, this`warehouses, this`houses, this`storageTags,
             this`storages, this`constructions, this`placements, this`ongoing,
             this`haulers, this`tags, this`haulTasks, this`backpacks, this`labels
    {
      && sprites.Keys <= ids && boxes.Keys <= ids && triggers.Keys <= ids && bodies.Keys <= ids
      && buildings <= ids && warehouses <= ids && houses <= ids && storageTags <= ids
      && storages.Keys <= ids && constructions.Keys <= ids && placements.Keys <= ids && ongoing <= ids
      && haulers <= ids && tags.All() <= ids && haulTasks.Keys <= ids && backpacks.Keys <= ids
      && labels.Keys <= ids
    }

    /** The store's invariant: query order lists each spawned entity once,
        every component belongs to a listed entity, no villager carries two
        state markers, and every villager with a state marker has the
        backpack that pickup and delivery exchange. */
    ghost predicate Valid()
      reads this`order, this`nextId, this`ids,
             this`sprites, this`boxes, this`triggers, this`bodies,
             this`buildings, this`warehouses, this`houses, this`storageTags,
             this`storages, this`constructions, this`placements, this`ongoing,
             this`haulers, this`tags, this`haulTasks, this`backpacks, this`labels
    {
      && OrderListed()
      && ComponentsListed()
      && tags.Exclusive()
      && tags.All() <= backpacks.Keys
    }

    lemma ComponentsAreListed(e: Entity)
      requires Valid() && e in Components()
      ensures e in order
    {
    }

    /** An empty world with the `OpenTasks` singleton holding no task. */
    constructor ()
      ensures Valid()
      ensures order == [] && Components() == {} && openTasks == []
      ensures globalStorage.None?
    {
      order, nextId, ids := [], 0, {};
      sprites, boxes, triggers, bodies := map[], map[], map[], map[];
      buildings, warehouses, houses, storageTags := {}, {}, {}, {};
      storages, constructions, placements, ongoing := map[], map[], map[], {};
      haulers, tags, haulTasks, backpacks := {}, StateTags({}, {}, {}, {}), map[], map[];
      openTasks, globalStorage, labels := [], None, map[];
    }

    /** Allocates a new entity and appends it to the query order. */
    method NewEntity() returns (e: Entity)
      requires Valid()
      modifies this`order, this`nextId, this`ids
      ensures Valid()
      ensures order == old(order) + [e] && ids == old(ids) + {e} && e !in old(ids)
    {
      e := nextId;
      assert e !in order;
      order := order + [e];
      nextId := nextId + 1;
      ids := ids + {e};
    }
  }
}
