/** `spawn_finished_warehouse` of src/game/buildings/warehouse.rs: a single
    spawn of a ready storage building. */
module WarehouseSpawn {
  import opened EngineTypes
  import opened Collision
  import opened BuildingTypes
  import opened Ecs
  import opened ConstructionTasks

  /** The stock a new warehouse starts with: 150 wood, or nothing when it is
      spawned empty. */
  function InitialStock(empty: bool): (items: map<GameResource, int>)
    ensures empty ==> items == map[]
    ensures !empty ==> items.Keys == {Wood} && items[Wood] == 150
  {
    if empty then map[] else map[Wood := 150]
  }

  /** The box every building is spawned with: one tile whose top-left corner
      is the spawn position. */
  function TileBox(position: Vec2): (r: Rect)
    ensures IsPointInsideBox(position, r)
    ensures r.width == TileSize && r.height == TileSize
  {
    Rect(position.x, position.y, TileSize, TileSize)
  }

  /** The sprite, box and non-colliding trigger every building spawn gives
      its new entity `e`, all at `position`. */
  method PlaceOnTile(w: World, e: Entity, position: Vec2)
    requires w.Valid() && e in w.ids
    modifies w`sprites, w`boxes, w`triggers
    ensures w.Valid()
    ensures w.sprites == old(w.sprites)[e := position]
    ensures w.boxes == old(w.boxes)[e := TileBox(position)]
    ensures w.triggers == old(w.triggers)[e := NewTrigger()]
  {
    w.sprites, w.boxes, w.triggers := w.sprites[e := position], w.boxes[e := TileBox(position)], w.triggers[e := NewTrigger()];
    assert w.ComponentsListed();
  }

  /** The Building, Warehouse and Storage tags and the storage component. */
  method MakeWarehouse(w: World, e: Entity, empty: bool)
    requires w.Valid() && e in w.ids
    modifies w`buildings, w`warehouses, w`storageTags, w`storages
    ensures w.Valid()
    ensures w.buildings == old(w.buildings) + {e} && w.warehouses == old(w.warehouses) + {e}
    ensures w.storageTags == old(w.storageTags) + {e}
    ensures w.storages == old(w.storages)[e := StorageSpace(InitialStock(empty), map[])]
  {
    w.buildings, w.warehouses, w.storageTags := w.buildings + {e}, w.warehouses + {e}, w.storageTags + {e};
    w.storages := w.storages[e := StorageSpace(InitialStock(empty), map[])];
    assert w.ComponentsListed();
  }

  /** The components of a warehouse, given to the listed entity `e`. */
  method BuildWarehouse(w: World, e: Entity, position: Vec2, empty: bool)
    requires w.Valid() && e in w.ids
    modifies w`buildings, w`warehouses, w`storageTags, w`storages, w`sprites, w`boxes, w`triggers
    ensures w.Valid()
    ensures w.buildings == old(w.buildings) + {e} && w.warehouses == old(w.warehouses) + {e}
    ensures w.storageTags == old(w.storageTags) + {e}
    ensures w.storages == old(w.storages)[e := StorageSpace(InitialStock(empty), map[])]
    ensures w.sprites == old(w.sprites)[e := position]
    ensures w.boxes == old(w.boxes)[e := TileBox(position)]
    ensures w.triggers == old(w.triggers)[e := NewTrigger()]
  {
    MakeWarehouse(w, e, empty);
    PlaceOnTile(w, e, position);
  }

  /** A new entity with the Building, Warehouse and Storage tags, its stock,
      no reservation, a sprite and a box at `position`, and a non-colliding
      trigger. It has no ledger, so the storage pass handles it. */
  method SpawnFinishedWarehouse(w: World, position: Vec2, empty: bool) returns (e: Entity)
    requires w.Valid()
    modifies w`order, w`nextId, w`ids, w`buildings, w`warehouses, w`storageTags, w`storages,
             w`sprites, w`boxes, w`triggers
    ensures w.Valid()
    ensures e !in old(w.ids) && w.order == old(w.order) + [e]
    ensures w.buildings == old(w.buildings) + {e} && w.warehouses == old(w.warehouses) + {e}
    ensures w.storageTags == old(w.storageTags) + {e}
    ensures w.storages == old(w.storages)[e := StorageSpace(InitialStock(empty), map[])]
    ensures w.sprites == old(w.sprites)[e := position]
    ensures w.boxes == old(w.boxes)[e := TileBox(position)]
    ensures w.triggers == old(w.triggers)[e := NewTrigger()]
    ensures e !in w.constructions && e !in w.placements
  {
    e := w.NewEntity();
    assert e !in w.constructions && e !in w.placements;
    BuildWarehouse(w, e, position, empty);
  }

  /** A warehouse as spawned is a task origin: unless it is empty it can
      supply a full load of wood, and an empty one supplies nothing. */
  lemma SpawnedWarehouseSupplies(v: SupplyView, e: Entity, empty: bool)
    requires e in v.storages && v.storages[e] == StorageSpace(InitialStock(empty), map[])
    requires e in v.sprites && e !in v.underConstruction
    ensures !empty <==> CanSupply(v, Wood, e)
    ensures empty ==> forall r :: !CanSupply(v, r, e)
  {
  }
}
