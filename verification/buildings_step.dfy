/** The per-tick building rules of src/game/buildings/step.rs: pickups from
    storage buildings, hand-overs at storages and constructions (which, as
    written, credit no building), the two collision-driven passes that hand
    a colliding hauler to its building, and the switch of finished
    constructions to ongoing work. The deposit and ledger delivery the
    hand-overs evidently intend are modelled beside them. */
module BuildingsStep {
  import opened EngineTypes
  import opened Collision
  import opened VillagerTypes
  import opened BuildingTypes
  import opened TaskTypes
  import opened Ecs
  import opened Hauler
  import opened ConstructionTasks

  /** The storage map after `remove_from_storage`: the building's stock of
      the item's resource drops by the item's amount when the building has
      a storage that lists the resource; otherwise nothing changes. */
  function StockAfterPickup(storages: map<Entity, StorageSpace>, b: Entity, item: GameItem): (m: map<Entity, StorageSpace>)
    ensures m.Keys == storages.Keys
    ensures forall x :: x in storages && x != b ==> m[x] == storages[x]
    ensures b in storages ==> m[b].reserved == storages[b].reserved
  {
    if b in storages && item.resource in storages[b].items then
      storages[b := storages[b].(items := Withdrawn(storages[b].items, item))]
    else storages
  }

  /** The storage map the body of `add_to_storage`'s branch would produce,
      were its lookup to succeed: a building with a storage gains the item;
      any other building is left alone. */
  function StockAfterDropOff(storages: map<Entity, StorageSpace>, b: Entity, item: GameItem): (m: map<Entity, StorageSpace>)
    ensures m.Keys == storages.Keys
    ensures forall x :: x in storages && x != b ==> m[x] == storages[x]
    ensures b in storages ==> m[b].reserved == storages[b].reserved
  {
    if b in storages then storages[b := storages[b].(items := Deposited(storages[b].items, item))]
    else storages
  }

  /** Pickup conserves stock: the building loses exactly what the hauler
      takes (possibly going below zero), and the intended deposit of the
      same item would put the storage back as it was. */
  lemma PickupConservesStock(storages: map<Entity, StorageSpace>, b: Entity, item: GameItem)
    requires b in storages && item.resource in storages[b].items
    ensures Total(StockAfterPickup(storages, b, item)[b].items) == Total(storages[b].items) - item.amount
    ensures StockAfterPickup(storages, b, item)[b].items[item.resource] == storages[b].items[item.resource] - item.amount
    ensures StockAfterDropOff(StockAfterPickup(storages, b, item), b, item) == storages
  {
    TotalsMoveByAmount(storages[b].items, item);
    WithdrawDepositInverse(storages[b].items, item);
  }

  /** The intended deposit conserves stock: the building would gain exactly
      what the hauler hands over. */
  lemma DropOffConservesStock(storages: map<Entity, StorageSpace>, b: Entity, item: GameItem)
    requires b in storages
    ensures Total(StockAfterDropOff(storages, b, item)[b].items) == Total(storages[b].items) + item.amount
    ensures StockAfterDropOff(storages, b, item)[b].items[item.resource]
            == Amount(storages[b].items, item.resource) + item.amount
  {
    TotalsMoveByAmount(storages[b].items, item);
  }

  /** `remove_from_storage`: true exactly when the building has a storage
      listing the resource, which then loses the item's amount. */
  method RemoveFromStorage(w: World, b: Entity, item: GameItem) returns (removed: bool)
    requires w.Valid()
    modifies w`storages
    ensures w.Valid()
    ensures removed <==> b in old(w.storages) && item.resource in old(w.storages)[b].items
    ensures w.storages == StockAfterPickup(old(w.storages), b, item)
  {
    removed := false;
    if b in w.storages {
      var storage := w.storages[b];
      if item.resource in storage.items {
        w.storages := w.storages[b := storage.(items := Withdrawn(storage.items, item))];
        removed := true;
      }
    }
  }

  /** `add_to_storage` as written (src/game/buildings/step.rs:289-301). Its
      lookup asks the store for a component of type `&mut StorageSpace`
      where every other lookup of the program names the component type
      itself; no entity carries a component of that type, so the lookup
      fails for every building, no storage gains anything and the call
      answers false. */
  method AddToStorage(w: World, b: Entity, item: GameItem) returns (added: bool)
    requires w.Valid()
    modifies w`storages
    ensures w.Valid()
    ensures !added
    ensures w.storages == old(w.storages)
  {
    added := false;
  }

  /** `add_to_storage` as evidently intended, with the lookup naming
      `StorageSpace`: true exactly when the building has a storage, which
      then gains the item. */
  method DepositIntoStorage(w: World, b: Entity, item: GameItem) returns (added: bool)
    requires w.Valid()
    modifies w`storages
    ensures w.Valid()
    ensures added <==> b in old(w.storages)
    ensures w.storages == StockAfterDropOff(old(w.storages), b, item)
  {
    added := false;
    if b in w.storages {
      var storage := w.storages[b];
      w.storages := w.storages[b := storage.(items := Deposited(storage.items, item))];
      added := true;
    }
  }

  /** The construction map the body of `place_construction_resource`'s
      branch would produce, were its lookup to succeed. */
  function LedgerAfterDelivery(constructions: map<Entity, ConstructionStorage>, b: Entity, item: GameItem)
    : (m: map<Entity, ConstructionStorage>)
    ensures m.Keys == constructions.Keys
    ensures forall x :: x in constructions && x != b ==> m[x] == constructions[x]
    ensures b in constructions ==>
              m[b].tasksGenerated == constructions[b].tasksGenerated
              && m[b].required == RequiredAfterDelivery(constructions[b].required, item)
  {
    if b in constructions then
      constructions[b := constructions[b].(required := RequiredAfterDelivery(constructions[b].required, item))]
    else constructions
  }

  /** `place_construction_resource` as written (src/game/buildings/step.rs:303-310).
      Its lookup asks for a component of type `&mut ConstructionStorage`,
      which no entity carries, so no ledger ever changes. */
  method PlaceConstructionResource(w: World, b: Entity, item: GameItem)
    requires w.Valid()
    modifies w`constructions
    ensures w.Valid()
    ensures w.constructions == old(w.constructions)
  {
  }

  /** `place_construction_resource` as evidently intended, with the lookup
      naming `ConstructionStorage`: the building's ledger, when it has one,
      subtracts the item from its requirement. */
  method DeliverIntoLedger(w: World, b: Entity, item: GameItem)
    requires w.Valid()
    modifies w`constructions
    ensures w.Valid()
    ensures w.constructions == LedgerAfterDelivery(old(w.constructions), b, item)
  {
    if b in w.constructions {
      var storage := w.constructions[b];
      w.constructions := w.constructions[b := storage.(required := RequiredAfterDelivery(storage.required, item))];
    }
  }

  /** The construction map after a sequence of deliveries into `b`, as
      `DeliverIntoLedger` would make them. */
  function LedgerAfterDeliveries(constructions: map<Entity, ConstructionStorage>, b: Entity, items: seq<GameItem>)
    : (m: map<Entity, ConstructionStorage>)
    ensures m.Keys == constructions.Keys
  {
    if items == [] then constructions
    else LedgerAfterDelivery(LedgerAfterDeliveries(constructions, b, items[..|items| - 1]), b, items[|items| - 1])
  }

  /** `n` copies of one item. */
  function Loads(item: GameItem, n: nat): (items: seq<GameItem>)
    ensures |items| == n
  {
    if n == 0 then [] else Loads(item, n - 1) + [item]
  }

  /** With the intended delivery, each full Wood load lowers a house's
      outstanding Wood by one load. */
  lemma {:induction false} WoodLoadsLowerHouse(constructions: map<Entity, ConstructionStorage>, b: Entity, n: nat)
    requires b in constructions && constructions[b].required == ConstructionCost(House)
    ensures var m := LedgerAfterDeliveries(constructions, b, Loads(GameItem(Wood, HaulerCapacity), n));
            b in m && m[b].required == map[Wood := 50 - n * HaulerCapacity]
  {
    if n > 0 {
      WoodLoadsLowerHouse(constructions, b, n - 1);
      assert Loads(GameItem(Wood, HaulerCapacity), n)[..n - 1] == Loads(GameItem(Wood, HaulerCapacity), n - 1);
    }
  }

  /** With the intended delivery, the five full Wood loads that task
      generation asks for finish a house ledger, and four do not. */
  lemma HouseFinishedByIntendedDeliveries(constructions: map<Entity, ConstructionStorage>, b: Entity)
    requires b in constructions && constructions[b].required == ConstructionCost(House)
    ensures !ConstructionFinished(LedgerAfterDeliveries(constructions, b, Loads(GameItem(Wood, HaulerCapacity), 4)), b)
    ensures ConstructionFinished(LedgerAfterDeliveries(constructions, b, Loads(GameItem(Wood, HaulerCapacity), 5)), b)
  {
    WoodLoadsLowerHouse(constructions, b, 4);
    WoodLoadsLowerHouse(constructions, b, 5);
    TotalIsSumOfAmounts(map[Wood := 10]);
    TotalIsSumOfAmounts(map[Wood := 0]);
  }

  /** The state the collision passes read off a villager's markers: Idle is
      tested first, then Loading, then Carrying; Working is not looked at. */
  function ObservedState(t: StateTags, v: Entity): (s: Option<VillagerState>)
    ensures s.Some? ==> s.value != Working
    ensures s.None? <==> v !in t.idle && v !in t.loading && v !in t.carrying
  {
    if v in t.idle then Some(Idle)
    else if v in t.loading then Some(Loading)
    else if v in t.carrying then Some(Carrying)
    else None
  }

  /** With exclusive markers the first-match chain reads the villager's one
      state, and `Some(Loading)` / `Some(Carrying)` mean the marker a
      pickup or delivery needs is there. */
  lemma ObservedStateIsTheState(t: StateTags, v: Entity)
    requires t.Exclusive()
    ensures ObservedState(t, v).Some? ==> t.HasOnly(v, ObservedState(t, v).value)
    ensures ObservedState(t, v) == Some(Loading) <==> v in t.loading
    ensures ObservedState(t, v) == Some(Carrying) <==> v in t.carrying
    ensures ObservedState(t, v).None? ==> v !in t.idle && v !in t.loading && v !in t.carrying
  {
  }

  /** Where the handlers take a building to be: its sprite position, or the
      origin when it has no sprite. */
  function BuildingPosition(sprites: map<Entity, Vec2>, b: Entity): (p: Vec2)
    ensures b in sprites ==> p == sprites[b]
    ensures b !in sprites ==> p == Vec2(0, 0)
  {
    if b in sprites then sprites[b] else Vec2(0, 0)
  }

  /** The hauler has a task whose origin position is `p`. */
  predicate StartsAt(haulTasks: map<Entity, HaulTask>, h: Entity, p: Vec2)
  {
    h in haulTasks && haulTasks[h].originPosition == Some(p)
  }

  /** The hauler has a task whose destination position is `p`. */
  predicate HeadsTo(haulTasks: map<Entity, HaulTask>, h: Entity, p: Vec2)
  {
    h in haulTasks && haulTasks[h].destinationPosition == Some(p)
  }

  /** A construction whose ledger sums to at most zero. */
  predicate ConstructionFinished(constructions: map<Entity, ConstructionStorage>, b: Entity)
  {
    b in constructions && IsStorageEmpty(constructions[b].required)
  }

  /** Between `before` and `after` no ledger is added, none changes its
      requirements, and one disappears only when it was finished. */
  ghost predicate LedgersOnlyRetired(before: map<Entity, ConstructionStorage>, after: map<Entity, ConstructionStorage>)
  {
    && after.Keys <= before.Keys
    && (forall b :: b in after ==> after[b].required == before[b].required)
    && (forall b :: b in before && b !in after ==> ConstructionFinished(before, b))
  }

  /** Two steps that only retire finished ledgers make one such step. */
  lemma LedgersOnlyRetiredTrans(a: map<Entity, ConstructionStorage>, b: map<Entity, ConstructionStorage>,
                                c: map<Entity, ConstructionStorage>)
    requires LedgersOnlyRetired(a, b) && LedgersOnlyRetired(b, c)
    ensures LedgersOnlyRetired(a, c)
  {
    forall e | e in a && e !in c ensures ConstructionFinished(a, e) {
      if e in b {
        assert ConstructionFinished(b, e);
        assert b[e].required == a[e].required;
      }
    }
  }

  /** Over any run of steps that only retire finished ledgers, a
      construction whose ledger starts unfinished keeps its ledger and its
      requirements for good: hauling never finishes it. */
  lemma {:induction false} NeverFinishedByHauling(history: seq<map<Entity, ConstructionStorage>>, b: Entity)
    requires |history| > 0 && b in history[0] && !IsStorageEmpty(history[0][b].required)
    requires forall i :: 0 <= i < |history| - 1 ==> LedgersOnlyRetired(history[i], history[i + 1])
    ensures forall i :: 0 <= i < |history| ==>
              b in history[i] && history[i][b].required == history[0][b].required && !ConstructionFinished(history[i], b)
  {
    if |history| > 1 {
      var n := |history| - 1;
      NeverFinishedByHauling(history[..n], b);
      assert forall i :: 0 <= i < n ==> history[..n][i] == history[i];
      assert LedgersOnlyRetired(history[n - 1], history[n]);
    }
  }

  /** A house starts with 50 Wood outstanding, so under the program as
      written no number of ticks ever finishes it. */
  lemma HouseNeverFinishedByHauling(history: seq<map<Entity, ConstructionStorage>>, b: Entity)
    requires |history| > 0 && b in history[0] && history[0][b].required == ConstructionCost(House)
    requires forall i :: 0 <= i < |history| - 1 ==> LedgersOnlyRetired(history[i], history[i + 1])
    ensures forall i :: 0 <= i < |history| ==> b in history[i] && !ConstructionFinished(history[i], b)
  {
    TotalIsSumOfAmounts(ConstructionCost(House));
    NeverFinishedByHauling(history, b);
  }

  /** The delivery branch of `construction_handle_hauler`: the hauler hands
      over a full load of its task's resource, empties its backpack, drops
      its task and goes Idle; the load is passed to
      `PlaceConstructionResource`, which leaves every ledger as it was. */
  method DeliverToConstruction(w: World, b: Entity, h: Entity)
    requires w.Valid() && h in w.tags.carrying && h in w.haulTasks
    modifies w`constructions, w`backpacks, w`haulTasks, w`tags
    ensures w.Valid()
    ensures w.constructions == old(w.constructions)
    ensures w.backpacks == old(w.backpacks)[h := DefaultBackpack()]
    ensures w.haulTasks == old(w.haulTasks) - {h}
    ensures w.tags == CarryingChanged(old(w.tags), h, Idle)
  {
    var item := DeliverResource(w, h);
    if item.Some? {
      PlaceConstructionResource(w, b, item.value);
    }
  }

  /** The branch of `construction_handle_hauler` for an unfinished
      construction: only a Carrying hauler whose task ends here delivers,
      and no ledger changes either way. */
  method ArriveAtConstruction(w: World, b: Entity, h: Entity, state: VillagerState)
    requires w.Valid()
    requires state == Carrying ==> h in w.tags.carrying
    modifies w`constructions, w`backpacks, w`haulTasks, w`tags
    ensures w.Valid()
    ensures w.constructions == old(w.constructions)
    ensures state == Carrying && HeadsTo(old(w.haulTasks), h, BuildingPosition(w.sprites, b)) ==>
              && w.backpacks == old(w.backpacks)[h := DefaultBackpack()]
              && w.haulTasks == old(w.haulTasks) - {h}
              && w.tags == CarryingChanged(old(w.tags), h, Idle)
    ensures !(state == Carrying && HeadsTo(old(w.haulTasks), h, BuildingPosition(w.sprites, b))) ==>
              && w.backpacks == old(w.backpacks) && w.haulTasks == old(w.haulTasks) && w.tags == old(w.tags)
  {
    var position := BuildingPosition(w.sprites, b);
    var isDestination := HeadsTo(w.haulTasks, h, position);
    if state == Carrying && isDestination {
      DeliverToConstruction(w, b, h);
    }
  }

  /** `construction_handle_hauler`. A finished construction only loses its
      ledger (no ongoing-construction marker is added). Otherwise a Carrying
      hauler whose task ends at the building hands over a full load: its
      backpack is emptied, its task removed and it goes Idle, while the
      ledger stays as it was (see `PlaceConstructionResource`). In every
      other case nothing changes. */
  method ConstructionHandleHauler(w: World, b: Entity, h: Entity, state: VillagerState)
    requires w.Valid()
    requires state == Carrying ==> h in w.tags.carrying
    modifies w`constructions, w`backpacks, w`haulTasks, w`tags
    ensures w.Valid()
    ensures ConstructionFinished(old(w.constructions), b) ==>
              && w.constructions == old(w.constructions) - {b}
              && w.backpacks == old(w.backpacks) && w.haulTasks == old(w.haulTasks) && w.tags == old(w.tags)
    ensures !ConstructionFinished(old(w.constructions), b) && state == Carrying
            && HeadsTo(old(w.haulTasks), h, BuildingPosition(w.sprites, b)) ==>
              && w.constructions == old(w.constructions)
              && w.backpacks == old(w.backpacks)[h := DefaultBackpack()]
              && w.haulTasks == old(w.haulTasks) - {h}
              && w.tags == CarryingChanged(old(w.tags), h, Idle)
    ensures !ConstructionFinished(old(w.constructions), b)
            && !(state == Carrying && HeadsTo(old(w.haulTasks), h, BuildingPosition(w.sprites, b))) ==>
              && w.constructions == old(w.constructions)
              && w.backpacks == old(w.backpacks) && w.haulTasks == old(w.haulTasks) && w.tags == old(w.tags)
  {
    var finished := false;
    if b in w.constructions {
      finished := CheckStorageEmpty(w.constructions[b].required);
    }
    if finished {
      w.constructions := w.constructions - {b};
    } else {
      ArriveAtConstruction(w, b, h, state);
    }
  }

  /** The Loading branch of `storage_handle_hauler`: the hauler takes a full
      load of its task's resource, which the storage loses. */
  method PickUpFromStorage(w: World, b: Entity, h: Entity)
    requires w.Valid() && h in w.tags.loading && h in w.haulTasks
    modifies w`storages, w`backpacks, w`tags
    ensures w.Valid()
    ensures var item := GameItem(w.haulTasks[h].resource, HaulerCapacity);
      && w.storages == StockAfterPickup(old(w.storages), b, item)
      && w.backpacks == old(w.backpacks)[h := Backpack(Some(item))]
      && w.tags == LoadingChanged(old(w.tags), h, Carrying)
  {
    var item := ReceiveResource(w, h);
    if item.Some? {
      var _ := RemoveFromStorage(w, b, item.value);
    }
  }

  /** The Carrying branch of `storage_handle_hauler`: the hauler empties its
      backpack, drops its task and goes Idle; the load is passed to
      `AddToStorage`, which leaves every storage as it was, so the load is
      lost. */
  method DropOffAtStorage(w: World, b: Entity, h: Entity)
    requires w.Valid() && h in w.tags.carrying && h in w.haulTasks
    modifies w`storages, w`backpacks, w`haulTasks, w`tags
    ensures w.Valid()
    ensures w.storages == old(w.storages)
    ensures w.backpacks == old(w.backpacks)[h := DefaultBackpack()]
    ensures w.haulTasks == old(w.haulTasks) - {h}
    ensures w.tags == CarryingChanged(old(w.tags), h, Idle)
  {
    var item := DeliverResource(w, h);
    if item.Some? {
      var _ := AddToStorage(w, b, item.value);
    }
  }

  /** `storage_handle_hauler`. A Loading hauler whose task starts at the
      building picks up a full load of the task's resource, which the
      storage loses, and goes Carrying (keeping its task). A Carrying
      hauler whose task ends at the building empties its backpack, loses
      its task and goes Idle, and no storage gains the load (see
      `AddToStorage`). In every other case nothing changes. */
  method StorageHandleHauler(w: World, b: Entity, h: Entity, state: VillagerState)
    requires w.Valid()
    requires state == Loading ==> h in w.tags.loading
    requires state == Carrying ==> h in w.tags.carrying
    modifies w`storages, w`backpacks, w`haulTasks, w`tags
    ensures w.Valid()
    ensures state == Loading && StartsAt(old(w.haulTasks), h, BuildingPosition(w.sprites, b)) ==>
              var item := GameItem(old(w.haulTasks)[h].resource, HaulerCapacity);
              && w.storages == StockAfterPickup(old(w.storages), b, item)
              && w.backpacks == old(w.backpacks)[h := Backpack(Some(item))]
              && w.haulTasks == old(w.haulTasks)
              && w.tags == LoadingChanged(old(w.tags), h, Carrying)
    ensures state == Carrying && HeadsTo(old(w.haulTasks), h, BuildingPosition(w.sprites, b)) ==>
              && w.storages == old(w.storages)
              && w.backpacks == old(w.backpacks)[h := DefaultBackpack()]
              && w.haulTasks == old(w.haulTasks) - {h}
              && w.tags == CarryingChanged(old(w.tags), h, Idle)
    ensures !(state == Loading && StartsAt(old(w.haulTasks), h, BuildingPosition(w.sprites, b)))
            && !(state == Carrying && HeadsTo(old(w.haulTasks), h, BuildingPosition(w.sprites, b))) ==>
              && w.storages == old(w.storages)
              && w.backpacks == old(w.backpacks) && w.haulTasks == old(w.haulTasks) && w.tags == old(w.tags)
  {
    var position := BuildingPosition(w.sprites, b);
    var isOrigin := StartsAt(w.haulTasks, h, position);
    var isDestination := HeadsTo(w.haulTasks, h, position);
    if state == Loading && isOrigin {
      PickUpFromStorage(w, b, h);
    } else if state == Carrying && isDestination {
      DropOffAtStorage(w, b, h);
    }
  }

  /** A building the first loop of a collision pass records: it carries the
      Building tag and a trigger, has (or, for the storage pass, lacks) a
      construction ledger, and its trigger reports a partner. */
  predicate CollidedBuilding(buildings: set<Entity>, triggers: map<Entity, TriggerCollision>,
                             underConstruction: set<Entity>, withLedger: bool, b: Entity)
  {
    b in buildings && b in triggers && (b in underConstruction <==> withLedger)
    && triggers[b].colliding && triggers[b].otherTrigger.Some?
  }

  /** The (building, villager) pairs a collision pass collects, in query
      order. */
  function CollidedPairs(order: seq<Entity>, buildings: set<Entity>, triggers: map<Entity, TriggerCollision>,
                         underConstruction: set<Entity>, withLedger: bool): (ps: seq<(Entity, Entity)>)
    ensures forall k :: 0 <= k < |ps| ==>
              CollidedBuilding(buildings, triggers, underConstruction, withLedger, ps[k].0)
              && triggers[ps[k].0].otherTrigger == Some(ps[k].1) && ps[k].0 in order
    ensures forall i :: 0 <= i < |order| && CollidedBuilding(buildings, triggers, underConstruction, withLedger, order[i])
              ==> exists k :: 0 <= k < |ps| && ps[k].0 == order[i]
  {
    if order == [] then []
    else
      var e := order[|order| - 1];
      var earlier := CollidedPairs(order[..|order| - 1], buildings, triggers, underConstruction, withLedger);
      var ps := if CollidedBuilding(buildings, triggers, underConstruction, withLedger, e)
        then earlier + [(e, triggers[e].otherTrigger.value)] else earlier;
      assert forall k :: 0 <= k < |earlier| ==> ps[k] == earlier[k];
      assert forall i :: 0 <= i < |order| - 1 ==> order[..|order| - 1][i] == order[i];
      assert CollidedBuilding(buildings, triggers, underConstruction, withLedger, e) ==> ps[|earlier|].0 == e;
      ps
  }

  /** The collecting loop of both collision passes. */
  method CollectCollided(order: seq<Entity>, buildings: set<Entity>, triggers: map<Entity, TriggerCollision>,
                         underConstruction: set<Entity>, withLedger: bool) returns (ps: seq<(Entity, Entity)>)
    ensures ps == CollidedPairs(order, buildings, triggers, underConstruction, withLedger)
  {
    ps := [];
    var i := 0;
    while i < |order|
      invariant 0 <= i <= |order|
      invariant ps == CollidedPairs(order[..i], buildings, triggers, underConstruction, withLedger)
    {
      var e := order[i];
      if e in buildings && e in triggers && (e in underConstruction <==> withLedger) {
        var trigger := triggers[e];
        if trigger.colliding && trigger.otherTrigger.Some? {
          ps := ps + [(e, trigger.otherTrigger.value)];
        }
      }
      assert order[..i + 1][..i] == order[..i];
      i := i + 1;
    }
    assert order[..i] == order;
  }

  /** The second loop's body in `check_storage_collided_with_entity`: read
      the villager's state and, when it has one of the three hauler
      markers, hand it to `StorageHandleHauler`. A villager observed
      Loading at its task's origin picks up, one observed Carrying at its
      task's destination gives up its load without any storage gaining it,
      and in every other case (no marker observed included) nothing
      changes. */
  method StorageHandleCollision(w: World, building: Entity, villager: Entity)
    requires w.Valid()
    modifies w`storages, w`backpacks, w`haulTasks, w`tags
    ensures w.Valid()
    ensures w.storages.Keys == old(w.storages.Keys)
    ensures forall b :: b in w.storages ==> w.storages[b].reserved == old(w.storages)[b].reserved
    ensures w.haulTasks.Keys <= old(w.haulTasks.Keys)
    ensures ObservedState(old(w.tags), villager) == Some(Loading)
            && StartsAt(old(w.haulTasks), villager, BuildingPosition(w.sprites, building)) ==>
              var item := GameItem(old(w.haulTasks)[villager].resource, HaulerCapacity);
              && w.storages == StockAfterPickup(old(w.storages), building, item)
              && w.backpacks == old(w.backpacks)[villager := Backpack(Some(item))]
              && w.haulTasks == old(w.haulTasks)
              && w.tags == LoadingChanged(old(w.tags), villager, Carrying)
    ensures ObservedState(old(w.tags), villager) == Some(Carrying)
            && HeadsTo(old(w.haulTasks), villager, BuildingPosition(w.sprites, building)) ==>
              && w.storages == old(w.storages)
              && w.backpacks == old(w.backpacks)[villager := DefaultBackpack()]
              && w.haulTasks == old(w.haulTasks) - {villager}
              && w.tags == CarryingChanged(old(w.tags), villager, Idle)
    ensures !(ObservedState(old(w.tags), villager) == Some(Loading)
              && StartsAt(old(w.haulTasks), villager, BuildingPosition(w.sprites, building)))
            && !(ObservedState(old(w.tags), villager) == Some(Carrying)
                 && HeadsTo(old(w.haulTasks), villager, BuildingPosition(w.sprites, building))) ==>
              && w.storages == old(w.storages)
              && w.backpacks == old(w.backpacks) && w.haulTasks == old(w.haulTasks) && w.tags == old(w.tags)
  {
    var state := ObservedState(w.tags, villager);
    if state.Some? {
      ObservedStateIsTheState(w.tags, villager);
      StorageHandleHauler(w, building, villager, state.value);
    }
  }

  /** The second loop's body in `check_construction_collided_with_entity`:
      with a hauler marker observed, a finished construction loses its
      ledger, and otherwise a villager observed Carrying to this building
      gives up its load while the ledger stays as it was. With no marker
      observed, or in any other case, nothing changes. Either way ledgers
      are only retired once finished. */
  method ConstructionHandleCollision(w: World, building: Entity, villager: Entity)
    requires w.Valid()
    modifies w`constructions, w`backpacks, w`haulTasks, w`tags
    ensures w.Valid()
    ensures w.constructions.Keys <= old(w.constructions.Keys)
    ensures forall b :: b in w.constructions ==> w.constructions[b].tasksGenerated == old(w.constructions)[b].tasksGenerated
    ensures w.haulTasks.Keys <= old(w.haulTasks.Keys)
    ensures ObservedState(old(w.tags), villager).Some? && ConstructionFinished(old(w.constructions), building) ==>
              && w.constructions == old(w.constructions) - {building}
              && w.backpacks == old(w.backpacks) && w.haulTasks == old(w.haulTasks) && w.tags == old(w.tags)
    ensures !ConstructionFinished(old(w.constructions), building) && ObservedState(old(w.tags), villager) == Some(Carrying)
            && HeadsTo(old(w.haulTasks), villager, BuildingPosition(w.sprites, building)) ==>
              && w.constructions == old(w.constructions)
              && w.backpacks == old(w.backpacks)[villager := DefaultBackpack()]
              && w.haulTasks == old(w.haulTasks) - {villager}
              && w.tags == CarryingChanged(old(w.tags), villager, Idle)
    ensures ObservedState(old(w.tags), villager).None?
            || (!ConstructionFinished(old(w.constructions), building)
                && !(ObservedState(old(w.tags), villager) == Some(Carrying)
                     && HeadsTo(old(w.haulTasks), villager, BuildingPosition(w.sprites, building)))) ==>
              && w.constructions == old(w.constructions)
              && w.backpacks == old(w.backpacks) && w.haulTasks == old(w.haulTasks) && w.tags == old(w.tags)
    ensures LedgersOnlyRetired(old(w.constructions), w.constructions)
  {
    var state := ObservedState(w.tags, villager);
    if state.Some? {
      ObservedStateIsTheState(w.tags, villager);
      ConstructionHandleHauler(w, building, villager, state.value);
    }
  }

  /** `check_storage_collided_with_entity`: every colliding building without
      a ledger hands its partner, if that partner has an Idle, Loading or
      Carrying marker, to `StorageHandleHauler`. Storages keep their
      buildings and their reservations, and no task is created. */
  method CheckStorageCollidedWithEntity(w: World)
    requires w.Valid()
    modifies w`storages, w`backpacks, w`haulTasks, w`tags
    ensures w.Valid()
    ensures w.storages.Keys == old(w.storages.Keys)
    ensures forall b :: b in w.storages ==> w.storages[b].reserved == old(w.storages)[b].reserved
    ensures w.haulTasks.Keys <= old(w.haulTasks.Keys)
  {
    var pairs := CollectCollided(w.order, w.buildings, w.triggers, w.constructions.Keys, false);
    var k := 0;
    while k < |pairs|
      invariant 0 <= k <= |pairs|
      invariant w.Valid()
      invariant w.storages.Keys == old(w.storages.Keys)
      invariant forall b :: b in w.storages ==> w.storages[b].reserved == old(w.storages)[b].reserved
      invariant w.haulTasks.Keys <= old(w.haulTasks.Keys)
    {
      StorageHandleCollision(w, pairs[k].0, pairs[k].1);
      k := k + 1;
    }
  }

  /** `check_construction_collided_with_entity`: the same over colliding
      buildings that have a ledger, handled by `ConstructionHandleHauler`.
      Ledgers are only removed, never added; the tasks-generated flags stay
      as they were; and no ongoing-construction marker is added. */
  method CheckConstructionCollidedWithEntity(w: World)
    requires w.Valid()
    modifies w`constructions, w`backpacks, w`haulTasks, w`tags
    ensures w.Valid()
    ensures w.constructions.Keys <= old(w.constructions.Keys)
    ensures forall b :: b in w.constructions ==> w.constructions[b].tasksGenerated == old(w.constructions)[b].tasksGenerated
    ensures w.haulTasks.Keys <= old(w.haulTasks.Keys)
    ensures w.ongoing == old(w.ongoing)
    ensures LedgersOnlyRetired(old(w.constructions), w.constructions)
  {
    var pairs := CollectCollided(w.order, w.buildings, w.triggers, w.constructions.Keys, true);
    var k := 0;
    while k < |pairs|
      invariant 0 <= k <= |pairs|
      invariant w.Valid()
      invariant w.constructions.Keys <= old(w.constructions.Keys)
      invariant forall b :: b in w.constructions ==> w.constructions[b].tasksGenerated == old(w.constructions)[b].tasksGenerated
      invariant w.haulTasks.Keys <= old(w.haulTasks.Keys)
      invariant LedgersOnlyRetired(old(w.constructions), w.constructions)
    {
      ghost var before := w.constructions;
      ConstructionHandleCollision(w, pairs[k].0, pairs[k].1);
      LedgersOnlyRetiredTrans(old(w.constructions), before, w.constructions);
      k := k + 1;
    }
  }

  /** The collecting loop of `check_construction_resources`: the entities
      of `order` whose ledger passes the finished test. */
  method CollectFinished(order: seq<Entity>, constructions: map<Entity, ConstructionStorage>)
    returns (finished: seq<Entity>)
    ensures forall k :: 0 <= k < |finished| ==> ConstructionFinished(constructions, finished[k])
    ensures forall e :: e in order && ConstructionFinished(constructions, e) ==> e in finished
  {
    finished := [];
    var i := 0;
    while i < |order|
      invariant 0 <= i <= |order|
      invariant forall k :: 0 <= k < |finished| ==> ConstructionFinished(constructions, finished[k])
      invariant forall j :: 0 <= j < i && ConstructionFinished(constructions, order[j]) ==> order[j] in finished
    {
      var e := order[i];
      if e in constructions {
        var empty := CheckStorageEmpty(constructions[e].required);
        if empty {
          finished := finished + [e];
        }
      }
      i := i + 1;
    }
  }

  /** The second loop of `check_construction_resources` over values: each
      listed construction loses its ledger and gains the ongoing marker. */
  method RetireFinished(constructions: map<Entity, ConstructionStorage>, ongoing: set<Entity>, finished: seq<Entity>)
    returns (remaining: map<Entity, ConstructionStorage>, started: set<Entity>)
    ensures forall b :: b in remaining <==> b in constructions && b !in finished
    ensures forall b :: b in remaining ==> remaining[b] == constructions[b]
    ensures forall b :: b in started <==> b in ongoing || b in finished
  {
    remaining, started := constructions, ongoing;
    var k := 0;
    while k < |finished|
      invariant 0 <= k <= |finished|
      invariant forall b :: b in remaining <==> b in constructions && b !in finished[..k]
      invariant forall b :: b in remaining ==> remaining[b] == constructions[b]
      invariant forall b :: b in started <==> b in ongoing || b in finished[..k]
    {
      assert finished[..k + 1] == finished[..k] + [finished[k]];
      remaining := remaining - {finished[k]};
      started := started + {finished[k]};
      k := k + 1;
    }
    assert finished[..k] == finished;
  }

  /** `check_construction_resources`: exactly the constructions whose ledger
      sums to at most zero lose the ledger and gain the ongoing-construction
      marker; every other ledger is untouched. */
  method CheckConstructionResources(w: World)
    requires w.Valid()
    modifies w`constructions, w`ongoing
    ensures w.Valid()
    ensures forall b :: b in w.constructions <==> b in old(w.constructions) && !ConstructionFinished(old(w.constructions), b)
    ensures forall b :: b in w.constructions ==> w.constructions[b] == old(w.constructions)[b]
    ensures forall b :: b in w.ongoing <==> b in old(w.ongoing) || ConstructionFinished(old(w.constructions), b)
  {
    var finished := CollectFinished(w.order, w.constructions);
    forall b | ConstructionFinished(w.constructions, b) ensures b in finished {
      assert b in w.ids;
    }
    var remaining, started := RetireFinished(w.constructions, w.ongoing, finished);
    w.constructions, w.ongoing := remaining, started;
    assert w.ComponentsListed();
  }

  /** No construction awaits its tasks. */
  ghost predicate AllTasksGenerated(constructions: map<Entity, ConstructionStorage>, sprites: map<Entity, Vec2>,
                                    placements: set<Entity>)
  {
    forall b :: !AwaitsTasks(constructions, sprites, placements, b)
  }

  /** Removing ledgers and changing requirements, while keeping every
      tasks-generated flag, leaves no construction awaiting its tasks. */
  lemma FlagsKeepTasksGenerated(before: map<Entity, ConstructionStorage>, after: map<Entity, ConstructionStorage>,
                                sprites: map<Entity, Vec2>, placements: set<Entity>)
    requires AllTasksGenerated(before, sprites, placements)
    requires after.Keys <= before.Keys
    requires forall b :: b in after ==> after[b].tasksGenerated == before[b].tasksGenerated
    ensures AllTasksGenerated(after, sprites, placements)
  {
    forall b ensures !AwaitsTasks(after, sprites, placements, b) {
      assert !AwaitsTasks(before, sprites, placements, b);
    }
  }

  /** The two collision-driven passes of `update_buildings`, storage pass
      first. */
  method ResolveArrivals(w: World)
    requires w.Valid()
    modifies w`storages, w`constructions, w`backpacks, w`haulTasks, w`tags
    ensures w.Valid()
    ensures w.storages.Keys == old(w.storages.Keys)
    ensures forall b :: b in w.storages ==> w.storages[b].reserved == old(w.storages)[b].reserved
    ensures w.constructions.Keys <= old(w.constructions.Keys)
    ensures forall b :: b in w.constructions ==> w.constructions[b].tasksGenerated == old(w.constructions)[b].tasksGenerated
    ensures w.haulTasks.Keys <= old(w.haulTasks.Keys)
    ensures AllTasksGenerated(old(w.constructions), w.sprites, w.placements.Keys)
            ==> AllTasksGenerated(w.constructions, w.sprites, w.placements.Keys)
    ensures LedgersOnlyRetired(old(w.constructions), w.constructions)
  {
    ghost var before := w.constructions;
    CheckStorageCollidedWithEntity(w);
    CheckConstructionCollidedWithEntity(w);
    if AllTasksGenerated(before, w.sprites, w.placements.Keys) {
      FlagsKeepTasksGenerated(before, w.constructions, w.sprites, w.placements.Keys);
    }
  }

  /** Task generation inside `update_buildings`: the exact effect of
      `generate_construction_haul_tasks`, and what the later steps rely on
      (no construction awaits its tasks, tasks are only pushed). */
  method GenerateStep(w: World)
    requires w.Valid()
    modifies w`constructions, w`openTasks
    ensures w.Valid()
    ensures w.constructions == Marked(old(w.constructions), w.sprites, w.placements.Keys)
    ensures w.openTasks == old(w.openTasks)
                           + GeneratedTasks(Jobs(w.order, old(w.constructions), w.sprites, w.placements.Keys), SupplyOf(w))
    ensures w.constructions.Keys == old(w.constructions.Keys)
    ensures AllTasksGenerated(w.constructions, w.sprites, w.placements.Keys)
    ensures old(w.openTasks) <= w.openTasks
    ensures LedgersOnlyRetired(old(w.constructions), w.constructions)
  {
    GenerateConstructionHaulTasks(w);
  }

  /** The finished-construction check inside `update_buildings`: the exact
      effect of `check_construction_resources`, and what the step relies on
      (no finished ledger is left, generation stays complete). */
  method FinishStep(w: World)
    requires w.Valid()
    modifies w`constructions, w`ongoing
    ensures w.Valid()
    ensures forall b :: b in w.constructions <==> b in old(w.constructions) && !ConstructionFinished(old(w.constructions), b)
    ensures forall b :: b in w.ongoing <==> b in old(w.ongoing) || ConstructionFinished(old(w.constructions), b)
    ensures w.constructions.Keys <= old(w.constructions.Keys)
    ensures forall b :: b in w.constructions ==> w.constructions[b] == old(w.constructions)[b]
    ensures forall b :: !ConstructionFinished(w.constructions, b)
    ensures old(w.ongoing) <= w.ongoing
    ensures AllTasksGenerated(old(w.constructions), w.sprites, w.placements.Keys)
            ==> AllTasksGenerated(w.constructions, w.sprites, w.placements.Keys)
    ensures LedgersOnlyRetired(old(w.constructions), w.constructions)
  {
    ghost var before := w.constructions;
    CheckConstructionResources(w);
    if AllTasksGenerated(before, w.sprites, w.placements.Keys) {
      FlagsKeepTasksGenerated(before, w.constructions, w.sprites, w.placements.Keys);
    }
  }

  /** `update_buildings`: task generation, the storage pass, the
      construction pass, then the finished-construction check. Afterwards no
      construction awaits its tasks and none is finished, ledgers are only
      ever retired once finished and never change their requirements, and
      the open-task stack only grows at its end. */
  method UpdateBuildings(w: World)
    requires w.Valid()
    modifies w`constructions, w`openTasks, w`storages, w`backpacks, w`haulTasks, w`tags, w`ongoing
    ensures w.Valid()
    ensures w.constructions.Keys <= old(w.constructions.Keys)
    ensures AllTasksGenerated(w.constructions, w.sprites, w.placements.Keys)
    ensures forall b :: !ConstructionFinished(w.constructions, b)
    ensures old(w.openTasks) <= w.openTasks
    ensures LedgersOnlyRetired(old(w.constructions), w.constructions)
  {
    GenerateStep(w);
    ghost var generated := w.constructions;
    ResolveArrivals(w);
    ghost var resolved := w.constructions;
    FinishStep(w);
    LedgersOnlyRetiredTrans(old(w.constructions), generated, resolved);
    LedgersOnlyRetiredTrans(old(w.constructions), resolved, w.constructions);
  }
}
