/** The two house constructors of src/game/buildings/house.rs: each spawns a
    building that carries the House cost as its construction ledger. */
module HouseSpawn {
  import opened EngineTypes
  import opened Collision
  import opened BuildingTypes
  import opened Ecs
  import opened ConstructionTasks
  import opened WarehouseSpawn

  /** The ledger a new house starts with: tasks not generated, the full House
      cost outstanding. */
  function NewHouseLedger(): (c: ConstructionStorage)
    ensures !c.tasksGenerated && c.required == ConstructionCost(House)
    ensures c.required.Keys == {Wood} && c.required[Wood] == 50
  {
    ConstructionStorage(false, ConstructionCost(House))
  }

  /** The Building and House tags and the ledger. */
  method MakeHouse(w: World, e: Entity)
    requires w.Valid() && e in w.ids
    modifies w`buildings, w`houses, w`constructions
    ensures w.Valid()
    ensures w.buildings == old(w.buildings) + {e} && w.houses == old(w.houses) + {e}
    ensures w.constructions == old(w.constructions)[e := NewHouseLedger()]
  {
    w.buildings, w.houses := w.buildings + {e}, w.houses + {e};
    w.constructions := w.constructions[e := NewHouseLedger()];
    assert w.ComponentsListed();
  }

  /** The components both constructors give the listed entity `e`. */
  method BuildHouse(w: World, e: Entity, position: Vec2)
    requires w.Valid() && e in w.ids
    modifies w`buildings, w`houses, w`constructions, w`sprites, w`boxes, w`triggers
    ensures w.Valid()
    ensures w.buildings == old(w.buildings) + {e} && w.houses == old(w.houses) + {e}
    ensures w.constructions == old(w.constructions)[e := NewHouseLedger()]
    ensures w.sprites == old(w.sprites)[e := position]
    ensures w.boxes == old(w.boxes)[e := TileBox(position)]
    ensures w.triggers == old(w.triggers)[e := NewTrigger()]
  {
    MakeHouse(w, e);
    PlaceOnTile(w, e, position);
  }

  /** `spawn_finished_house`: Building and House tags, a ledger, a sprite and
      a box at `position`, and a non-colliding trigger; no placement marker
      and no storage. */
  method SpawnFinishedHouse(w: World, position: Vec2) returns (e: Entity)
    requires w.Valid()
    modifies w`order, w`nextId, w`ids, w`buildings, w`houses, w`constructions,
             w`sprites, w`boxes, w`triggers
    ensures w.Valid()
    ensures e !in old(w.ids) && w.order == old(w.order) + [e]
    ensures w.buildings == old(w.buildings) + {e} && w.houses == old(w.houses) + {e}
    ensures w.constructions == old(w.constructions)[e := NewHouseLedger()]
    ensures w.sprites == old(w.sprites)[e := position]
    ensures w.boxes == old(w.boxes)[e := TileBox(position)]
    ensures w.triggers == old(w.triggers)[e := NewTrigger()]
    ensures e !in w.storages && e !in w.placements
  {
    e := w.NewEntity();
    BuildHouse(w, e, position);
  }

  /** The placement marker, at `position`. */
  method MarkPlacement(w: World, e: Entity, position: Vec2)
    requires w.Valid() && e in w.ids
    modifies w`placements
    ensures w.Valid()
    ensures w.placements == old(w.placements)[e := position]
  {
    w.placements := w.placements[e := position];
    assert w.ComponentsListed();
  }

  /** The components `spawn_house_placement` gives the listed entity `e`. */
  method BuildPlacedHouse(w: World, e: Entity, position: Vec2)
    requires w.Valid() && e in w.ids
    modifies w`buildings, w`houses, w`constructions, w`placements, w`sprites, w`boxes, w`triggers
    ensures w.Valid()
    ensures w.buildings == old(w.buildings) + {e} && w.houses == old(w.houses) + {e}
    ensures w.constructions == old(w.constructions)[e := NewHouseLedger()]
    ensures w.placements == old(w.placements)[e := position]
    ensures w.sprites == old(w.sprites)[e := position]
    ensures w.boxes == old(w.boxes)[e := TileBox(position)]
    ensures w.triggers == old(w.triggers)[e := NewTrigger()]
  {
    BuildHouse(w, e, position);
    MarkPlacement(w, e, position);
  }

  /** `spawn_house_placement`: the same components as a finished house plus
      a placement marker at `position`; no storage. */
  method SpawnHousePlacement(w: World, position: Vec2) returns (e: Entity)
    requires w.Valid()
    modifies w`order, w`nextId, w`ids, w`buildings, w`houses, w`constructions, w`placements,
             w`sprites, w`boxes, w`triggers
    ensures w.Valid()
    ensures e !in old(w.ids) && w.order == old(w.order) + [e]
    ensures w.buildings == old(w.buildings) + {e} && w.houses == old(w.houses) + {e}
    ensures w.constructions == old(w.constructions)[e := NewHouseLedger()]
    ensures w.placements == old(w.placements)[e := position]
    ensures w.sprites == old(w.sprites)[e := position]
    ensures w.boxes == old(w.boxes)[e := TileBox(position)]
    ensures w.triggers == old(w.triggers)[e := NewTrigger()]
    ensures e !in w.storages
  {
    e := w.NewEntity();
    BuildPlacedHouse(w, e, position);
  }

  /** A house with its new ledger and its sprite awaits task generation
      exactly when it carries no placement marker: at once after
      `spawn_finished_house`, only once the marker is gone after
      `spawn_house_placement`. */
  lemma SpawnedHouseAwaitsTasks(constructions: map<Entity, ConstructionStorage>, sprites: map<Entity, Vec2>,
                                placements: set<Entity>, e: Entity)
    requires e in constructions && constructions[e] == NewHouseLedger() && e in sprites
    ensures AwaitsTasks(constructions, sprites, placements, e) <==> e !in placements
  {
  }

  /** An entity without a storage, such as either kind of spawned house, is
      never the origin of a task. */
  lemma HousesSupplyNothing(v: SupplyView, e: Entity)
    requires e !in v.storages
    ensures forall r :: !CanSupply(v, r, e)
  {
  }
}
