/** The telemetry pass of src/game/ui/step.rs: the per-resource totals over
    every storage, written into the `GlobalStorage` singleton and onto the
    visible storage labels, and the two task counts written onto their
    visible labels. */
module UiStep {
  import opened EngineTypes
  import opened VillagerTypes
  import opened BuildingTypes
  import opened UiTypes
  import opened Ecs
  import opened BuildingsStep

  /** The accumulator after one storage's stock is folded in: each resource
      of the stock is added to the running total, or inserted when the
      total does not list it yet. */
  function AddItems(acc: map<GameResource, int>, items: map<GameResource, int>): (m: map<GameResource, int>)
    ensures m.Keys == acc.Keys + items.Keys
    ensures forall r :: Amount(m, r) == Amount(acc, r) + Amount(items, r)
  {
    map r | r in acc.Keys + items.Keys :: Amount(acc, r) + Amount(items, r)
  }

  /** The accumulator after the storages of `order` (in that order) are
      folded in. Construction ledgers are not an argument: they never
      contribute. */
  function StorageTotals(order: seq<Entity>, storages: map<Entity, StorageSpace>): map<GameResource, int>
  {
    if order == [] then map[]
    else
      var last := order[|order| - 1];
      var earlier := StorageTotals(order[..|order| - 1], storages);
      if last in storages then AddItems(earlier, storages[last].items) else earlier
  }

  /** A resource's stock summed over the storages of `order`, a storage
      counted once per listing. */
  function StockOf(order: seq<Entity>, storages: map<Entity, StorageSpace>, r: GameResource): int
  {
    if order == [] then 0
    else
      var last := order[|order| - 1];
      StockOf(order[..|order| - 1], storages, r) + (if last in storages then Amount(storages[last].items, r) else 0)
  }

  /** Some storage of `order` lists `r` in its stock. */
  ghost predicate Listed(order: seq<Entity>, storages: map<Entity, StorageSpace>, r: GameResource)
  {
    exists i :: 0 <= i < |order| && order[i] in storages && r in storages[order[i]].items
  }

  /** The aggregated totals: a resource is a key exactly when some storage
      lists it, and its value is its stock summed over all storages. */
  lemma {:induction false} TotalsAreStock(order: seq<Entity>, storages: map<Entity, StorageSpace>)
    ensures forall r :: r in StorageTotals(order, storages) <==> Listed(order, storages, r)
    ensures forall r :: Amount(StorageTotals(order, storages), r) == StockOf(order, storages, r)
  {
    if order != [] {
      var prefix := order[..|order| - 1];
      var last := order[|order| - 1];
      TotalsAreStock(prefix, storages);
      forall r ensures r in StorageTotals(order, storages) <==> Listed(order, storages, r) {
        if Listed(prefix, storages, r) {
          var i :| 0 <= i < |prefix| && prefix[i] in storages && r in storages[prefix[i]].items;
          assert order[i] == prefix[i];
        }
        if Listed(order, storages, r) {
          var i :| 0 <= i < |order| && order[i] in storages && r in storages[order[i]].items;
          if i < |prefix| {
            assert prefix[i] == order[i];
          }
        }
        if last in storages && r in storages[last].items {
          assert order[|order| - 1] == last;
        }
      }
    }
  }

  /** A storage listed once in `order` shifts the summed stock of a resource
      by exactly the shift in its own stock. */
  lemma {:induction false} StockOfUpdate(order: seq<Entity>, storages: map<Entity, StorageSpace>, b: Entity,
                                          s: StorageSpace, r: GameResource)
    requires forall i, j :: 0 <= i < j < |order| ==> order[i] != order[j]
    requires b in storages
    ensures StockOf(order, storages[b := s], r)
            == StockOf(order, storages, r) + (if b in order then Amount(s.items, r) - Amount(storages[b].items, r) else 0)
  {
    if order != [] {
      var prefix := order[..|order| - 1];
      StockOfUpdate(prefix, storages, b, s, r);
      if order[|order| - 1] == b {
        assert b !in prefix;
      }
      assert b in order <==> b in prefix || order[|order| - 1] == b;
    }
  }

  /** A hauler's pickup lowers the stock the telemetry reports by exactly
      the load, for the resource taken and for no other. */
  lemma PickupLowersReportedStock(order: seq<Entity>, storages: map<Entity, StorageSpace>, b: Entity, item: GameItem,
                                  r: GameResource)
    requires forall i, j :: 0 <= i < j < |order| ==> order[i] != order[j]
    requires b in order && b in storages && item.resource in storages[b].items
    ensures StockOf(order, StockAfterPickup(storages, b, item), r)
            == StockOf(order, storages, r) - (if r == item.resource then item.amount else 0)
  {
    StockOfUpdate(order, storages, b, StockAfterPickup(storages, b, item)[b], r);
    assert StockAfterPickup(storages, b, item) == storages[b := StockAfterPickup(storages, b, item)[b]];
  }

  /** With the intended deposit (`DepositIntoStorage`), a hauler's drop-off
      would raise the stock the telemetry reports by exactly the load; as
      written the reported stock does not move (`AddToStorage`). */
  lemma DropOffRaisesReportedStock(order: seq<Entity>, storages: map<Entity, StorageSpace>, b: Entity, item: GameItem,
                                   r: GameResource)
    requires forall i, j :: 0 <= i < j < |order| ==> order[i] != order[j]
    requires b in order && b in storages
    ensures StockOf(order, StockAfterDropOff(storages, b, item), r)
            == StockOf(order, storages, r) + (if r == item.resource then item.amount else 0)
  {
    StockOfUpdate(order, storages, b, StockAfterDropOff(storages, b, item)[b], r);
    assert StockAfterDropOff(storages, b, item) == storages[b := StockAfterDropOff(storages, b, item)[b]];
  }

  /** What one backpack holds of a resource. */
  function Load(b: Backpack, r: GameResource): int
  {
    if b.item.Some? && b.item.value.resource == r then b.item.value.amount else 0
  }

  /** A resource's amount carried in the backpacks of `order`. */
  function CarriedOf(order: seq<Entity>, backpacks: map<Entity, Backpack>, r: GameResource): int
  {
    if order == [] then 0
    else
      var last := order[|order| - 1];
      CarriedOf(order[..|order| - 1], backpacks, r) + (if last in backpacks then Load(backpacks[last], r) else 0)
  }

  /** A resource held anywhere: in the storages or in the backpacks of
      `order`. */
  function HeldOf(order: seq<Entity>, storages: map<Entity, StorageSpace>, backpacks: map<Entity, Backpack>,
                  r: GameResource): int
  {
    StockOf(order, storages, r) + CarriedOf(order, backpacks, r)
  }

  /** A backpack listed once in `order` shifts the carried amount of a
      resource by exactly the shift in its own load. */
  lemma {:induction false} CarriedOfUpdate(order: seq<Entity>, backpacks: map<Entity, Backpack>, h: Entity,
                                           b: Backpack, r: GameResource)
    requires forall i, j :: 0 <= i < j < |order| ==> order[i] != order[j]
    requires h in backpacks
    ensures CarriedOf(order, backpacks[h := b], r)
            == CarriedOf(order, backpacks, r) + (if h in order then Load(b, r) - Load(backpacks[h], r) else 0)
  {
    if order != [] {
      var prefix := order[..|order| - 1];
      CarriedOfUpdate(prefix, backpacks, h, b, r);
      if order[|order| - 1] == h {
        assert h !in prefix;
      }
      assert h in order <==> h in prefix || order[|order| - 1] == h;
    }
  }

  /** As written, a drop-off at a storage empties the hauler's backpack and
      leaves every storage as it was (`StorageHandleHauler`): the resource
      held in storages and backpacks together falls by the full load. */
  lemma DropOffLosesLoad(order: seq<Entity>, storages: map<Entity, StorageSpace>, backpacks: map<Entity, Backpack>,
                         h: Entity, r: GameResource)
    requires forall i, j :: 0 <= i < j < |order| ==> order[i] != order[j]
    requires h in order && h in backpacks && backpacks[h] == Backpack(Some(GameItem(r, HaulerCapacity)))
    ensures HeldOf(order, storages, backpacks[h := DefaultBackpack()], r) == HeldOf(order, storages, backpacks, r) - HaulerCapacity
  {
    CarriedOfUpdate(order, backpacks, h, DefaultBackpack(), r);
  }

  /** With the intended deposit (`DepositIntoStorage`) the same drop-off
      only moves the load from the backpack into the storage: the resource
      held in storages and backpacks together is unchanged. */
  lemma IntendedDropOffConservesHeld(order: seq<Entity>, storages: map<Entity, StorageSpace>,
                                     backpacks: map<Entity, Backpack>, b: Entity, h: Entity, r: GameResource)
    requires forall i, j :: 0 <= i < j < |order| ==> order[i] != order[j]
    requires b in order && b in storages
    requires h in order && h in backpacks && backpacks[h] == Backpack(Some(GameItem(r, HaulerCapacity)))
    ensures HeldOf(order, StockAfterDropOff(storages, b, GameItem(r, HaulerCapacity)), backpacks[h := DefaultBackpack()], r)
            == HeldOf(order, storages, backpacks, r)
  {
    CarriedOfUpdate(order, backpacks, h, DefaultBackpack(), r);
    DropOffRaisesReportedStock(order, storages, b, GameItem(r, HaulerCapacity), r);
  }

  /** A map with the keys and values `AddItems` promises is `AddItems`. */
  lemma AddItemsByKey(acc: map<GameResource, int>, items: map<GameResource, int>, res: map<GameResource, int>)
    requires forall r :: r in res <==> r in acc || r in items
    requires forall r :: r in res ==> res[r] == Amount(acc, r) + Amount(items, r)
    ensures res == AddItems(acc, items)
  {
  }

  /** The inner loop of the aggregation: fold one storage's stock into the
      accumulator, resource by resource. */
  method AddStorageItems(acc: map<GameResource, int>, items: map<GameResource, int>) returns (res: map<GameResource, int>)
    ensures res == AddItems(acc, items)
  {
    res := acc;
    var j := 0;
    while j < |AllResources|
      invariant 0 <= j <= |AllResources|
      invariant forall r :: r in res <==> r in acc || (r in items && r in AllResources[..j])
      invariant forall r :: r in res ==> res[r] == Amount(acc, r) + (if r in AllResources[..j] then Amount(items, r) else 0)
    {
      var r := AllResources[j];
      assert r !in AllResources[..j];
      if r in items {
        if r in res {
          res := res[r := res[r] + items[r]];
        } else {
          res := res[r := items[r]];
        }
      }
      assert AllResources[..j + 1] == AllResources[..j] + [r];
      j := j + 1;
    }
    assert AllResources[..j] == AllResources;
    forall r { AllResourcesComplete(r); }
    AddItemsByKey(acc, items, res);
  }

  /** The aggregation loop of `update_global_storage`: every storage, in
      query order. */
  method AggregateStorage(order: seq<Entity>, storages: map<Entity, StorageSpace>) returns (totals: map<GameResource, int>)
    ensures totals == StorageTotals(order, storages)
  {
    totals := map[];
    var i := 0;
    while i < |order|
      invariant 0 <= i <= |order|
      invariant totals == StorageTotals(order[..i], storages)
    {
      var e := order[i];
      assert order[..i + 1][..i] == order[..i];
      if e in storages {
        totals := AddStorageItems(totals, storages[e].items);
      }
      i := i + 1;
    }
    assert order[..i] == order;
  }

  /** The labels after an update pass for `kind`: visible labels of that
      kind show `value`; every other label, and every tag and visibility
      flag, is left alone. */
  function Relabelled(labels: map<Entity, UiLabel>, kind: LabelKind, value: LabelValue): (m: map<Entity, UiLabel>)
    ensures m.Keys == labels.Keys
    ensures forall e :: e in m ==> m[e].kind == labels[e].kind && m[e].visible == labels[e].visible
    ensures forall e :: e in m && labels[e].kind == kind && labels[e].visible ==> m[e].shown == value
    ensures forall e :: e in m && !(labels[e].kind == kind && labels[e].visible) ==> m[e] == labels[e]
  {
    map e | e in labels :: if labels[e].kind == kind && labels[e].visible then labels[e].(shown := value) else labels[e]
  }

  /** The label loop shared by the three updates: visit the labels in
      query order and rewrite the visible ones of `kind`. */
  method RelabelVisible(order: seq<Entity>, labels: map<Entity, UiLabel>, kind: LabelKind, value: LabelValue)
    returns (m: map<Entity, UiLabel>)
    requires forall e :: e in labels ==> e in order
    ensures m == Relabelled(labels, kind, value)
  {
    m := labels;
    var i := 0;
    while i < |order|
      invariant 0 <= i <= |order|
      invariant m.Keys == labels.Keys
      invariant forall e :: e in m ==>
                  m[e] == if e in order[..i] && labels[e].kind == kind && labels[e].visible
                          then labels[e].(shown := value) else labels[e]
    {
      var e := order[i];
      if e in m && m[e].kind == kind && m[e].visible {
        m := m[e := m[e].(shown := value)];
      }
      assert order[..i + 1] == order[..i] + [e];
      i := i + 1;
    }
    assert order[..i] == order;
  }

  /** `update_global_storage`: the singleton, when it exists, is replaced
      wholesale by the fresh totals, and the visible storage labels show
      them. */
  method UpdateGlobalStorage(w: World)
    requires w.Valid()
    modifies w`globalStorage, w`labels
    ensures w.Valid()
    ensures w.globalStorage == if old(w.globalStorage).Some? then Some(StorageTotals(w.order, w.storages)) else None
    ensures w.labels == Relabelled(old(w.labels), GlobalStorageLabel, Totals(StorageTotals(w.order, w.storages)))
  {
    var current := AggregateStorage(w.order, w.storages);
    if w.globalStorage.Some? {
      w.globalStorage := Some(current);
    }
    var labels := RelabelVisible(w.order, w.labels, GlobalStorageLabel, Totals(current));
    w.labels := labels;
  }

  /** `update_idle_haul_task_count`: visible idle-count labels show the
      number of tasks waiting on the open-task stack. */
  method UpdateIdleHaulTaskCount(w: World)
    requires w.Valid()
    modifies w`labels
    ensures w.Valid()
    ensures w.labels == Relabelled(old(w.labels), IdleTaskCountLabel, Count(|w.openTasks|))
  {
    var labels := RelabelVisible(w.order, w.labels, IdleTaskCountLabel, Count(|w.openTasks|));
    w.labels := labels;
  }

  /** `update_active_haul_task_count`: visible active-count labels show the
      number of haulers with a task attached. */
  method UpdateActiveHaulTaskCount(w: World)
    requires w.Valid()
    modifies w`labels
    ensures w.Valid()
    ensures w.labels == Relabelled(old(w.labels), ActiveTaskCountLabel, Count(|w.haulTasks.Keys|))
  {
    var labels := RelabelVisible(w.order, w.labels, ActiveTaskCountLabel, Count(|w.haulTasks.Keys|));
    w.labels := labels;
  }

  /** `update_ui`: active count, idle count, then the storage totals. */
  method UpdateUi(w: World)
    requires w.Valid()
    modifies w`globalStorage, w`labels
    ensures w.Valid()
    ensures w.globalStorage == if old(w.globalStorage).Some? then Some(StorageTotals(w.order, w.storages)) else None
  {
    UpdateActiveHaulTaskCount(w);
    UpdateIdleHaulTaskCount(w);
    UpdateGlobalStorage(w);
  }
}
