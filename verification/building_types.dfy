/** Building components (src/game/buildings/datatypes.rs), the construction
    cost table (src/game/buildings/utils.rs) and the pure inventory rules of
    src/game/buildings/step.rs: the availability test, withdrawal, deposit,
    delivery into a construction ledger and the "finished" test. */
module BuildingTypes {
  import opened EngineTypes
  import opened VillagerTypes

  /** A storage building's inventory: stock on hand and stock reserved for
      tasks. Nothing in the source ever writes `reserved`. */
  datatype StorageSpace = StorageSpace(items: map<GameResource, int>, reserved: map<GameResource, int>)

  /** A building under construction: what it still needs, and whether its
      haul tasks have been generated. */
  datatype ConstructionStorage = ConstructionStorage(tasksGenerated: bool, required: map<GameResource, int>)

  /** The quantity a resource-keyed map holds for `r`, 0 when absent. */
  function Amount(m: map<GameResource, int>, r: GameResource): int
  {
    if r in m then m[r] else 0
  }

  /** Sum of the values stored under the keys `rs` (each key counted once
      per occurrence in `rs`). */
  function SumOver(m: map<GameResource, int>, rs: seq<GameResource>): int
  {
    if rs == [] then 0 else Amount(m, rs[0]) + SumOver(m, rs[1..])
  }

  /** Sum of all values of a resource-keyed map. */
  function Total(m: map<GameResource, int>): int
  {
    SumOver(m, AllResources)
  }

  lemma TotalIsSumOfAmounts(m: map<GameResource, int>)
    ensures Total(m) == Amount(m, Wood) + Amount(m, Stone)
  {
    assert AllResources[1..] == [Stone] && [Stone][1..] == [];
    assert SumOver(m, [Stone]) == Amount(m, Stone) + SumOver(m, []);
  }

  /** `storage_has_required_resource`: the resource must be present on hand,
      and what is on hand minus what is reserved (nothing, when the reserved
      key is absent) must cover `amount`. */
  function StorageHasRequiredResource(s: StorageSpace, r: GameResource, amount: int): (has: bool)
    ensures has ==> r in s.items && s.items[r] >= amount + Amount(s.reserved, r)
  {
    if r in s.items then
      if r in s.reserved then s.items[r] - s.reserved[r] >= amount
      else s.items[r] >= amount
    else false
  }

  lemma StorageHasRequiredResourceSpec(s: StorageSpace, r: GameResource, amount: int)
    ensures StorageHasRequiredResource(s, r, amount)
            <==> r in s.items && s.items[r] - Amount(s.reserved, r) >= amount
    ensures r !in s.items ==> !StorageHasRequiredResource(s, r, amount)
  {
  }

  /** Availability is downward closed in the amount asked for. */
  lemma AvailabilityMonotone(s: StorageSpace, r: GameResource, amount: int, smaller: int)
    requires smaller <= amount && StorageHasRequiredResource(s, r, amount)
    ensures StorageHasRequiredResource(s, r, smaller)
  {
  }

  /** The stock change of `remove_from_storage` when the key is present:
      subtract the item's amount, with no lower bound. */
  function Withdrawn(items: map<GameResource, int>, item: GameItem): (m: map<GameResource, int>)
    requires item.resource in items
    ensures m.Keys == items.Keys
    ensures m[item.resource] == items[item.resource] - item.amount
    ensures forall r :: r in items && r != item.resource ==> m[r] == items[r]
  {
    items[item.resource := items[item.resource] - item.amount]
  }

  /** The stock change in the body of `add_to_storage`'s branch: add to the
      existing entry, or insert the key with the item's amount. */
  function Deposited(items: map<GameResource, int>, item: GameItem): (m: map<GameResource, int>)
    ensures m.Keys == items.Keys + {item.resource}
    ensures m[item.resource] == Amount(items, item.resource) + item.amount
    ensures forall r :: r in items && r != item.resource ==> m[r] == items[r]
  {
    if item.resource in items then items[item.resource := items[item.resource] + item.amount]
    else items[item.resource := item.amount]
  }

  /** The ledger change in the body of `place_construction_resource`'s
      branch: an existing
      requirement drops by the item's amount (no clamp at zero); a resource
      the ledger does not list is ignored. */
  function RequiredAfterDelivery(required: map<GameResource, int>, item: GameItem): (m: map<GameResource, int>)
    ensures m.Keys == required.Keys
    ensures item.resource in required ==> m[item.resource] == required[item.resource] - item.amount
    ensures item.resource !in required ==> m == required
    ensures forall r :: r in required && r != item.resource ==> m[r] == required[r]
  {
    if item.resource in required then required[item.resource := required[item.resource] - item.amount]
    else required
  }

  /** Every change to one key shifts `SumOver` by that change times the
      number of times the key is listed. */
  lemma {:induction false} SumOverUpdate(m: map<GameResource, int>, rs: seq<GameResource>, r: GameResource, v: int)
    requires forall k :: 0 <= k < |rs| ==> rs[k] != r
    ensures SumOver(m[r := v], rs) == SumOver(m, rs)
  {
    if rs != [] {
      SumOverUpdate(m, rs[1..], r, v);
    }
  }

  lemma {:induction false} SumOverShift(m: map<GameResource, int>, rs: seq<GameResource>, r: GameResource, d: int)
    requires r in rs
    requires forall i, j :: 0 <= i < j < |rs| ==> rs[i] != rs[j]
    ensures SumOver(m[r := Amount(m, r) + d], rs) == SumOver(m, rs) + d
  {
    if rs[0] == r {
      SumOverUpdate(m, rs[1..], r, Amount(m, r) + d);
    } else {
      SumOverShift(m, rs[1..], r, d);
    }
  }

  /** Adding one more key at the end of the list adds its amount: the
      step of a running sum over the keys. */
  lemma {:induction false} SumOverAppend(m: map<GameResource, int>, rs: seq<GameResource>, r: GameResource)
    ensures SumOver(m, rs + [r]) == SumOver(m, rs) + Amount(m, r)
  {
    if rs == [] {
      assert [r][1..] == [];
    } else {
      assert (rs + [r])[1..] == rs[1..] + [r];
      SumOverAppend(m, rs[1..], r);
    }
  }

  /** Conservation of the inventory arithmetic: a withdrawal lowers the total
      stock by exactly the item's amount, a deposit raises it by exactly the
      item's amount, and a delivery lowers a ledger's total by the amount
      when the resource is listed. */
  lemma TotalsMoveByAmount(m: map<GameResource, int>, item: GameItem)
    ensures item.resource in m ==> Total(Withdrawn(m, item)) == Total(m) - item.amount
    ensures Total(Deposited(m, item)) == Total(m) + item.amount
    ensures item.resource in m ==> Total(RequiredAfterDelivery(m, item)) == Total(m) - item.amount
  {
    var r := item.resource;
    AllResourcesComplete(r);
    SumOverShift(m, AllResources, r, -item.amount);
    SumOverShift(m, AllResources, r, item.amount);
    assert Deposited(m, item) == m[r := Amount(m, r) + item.amount];
    if r in m {
      assert Withdrawn(m, item) == m[r := Amount(m, r) + -item.amount];
    }
  }

  /** Withdrawal and deposit of the same item undo each other on a stock
      that already lists the resource. */
  lemma WithdrawDepositInverse(m: map<GameResource, int>, item: GameItem)
    requires item.resource in m
    ensures Deposited(Withdrawn(m, item), item) == m
    ensures Withdrawn(Deposited(m, item), item) == m
  {
  }

  /** Nothing bounds a withdrawal: ten units taken from a stock of five leave
      it at minus five. */
  lemma WithdrawalCanGoNegative()
    ensures Withdrawn(map[Wood := 5], GameItem(Wood, HaulerCapacity)) == map[Wood := -5]
  {
  }

  /** `is_storage_empty`: the values are added up and the map counts as empty
      when the sum is at most zero. */
  function IsStorageEmpty(required: map<GameResource, int>): (empty: bool)
    ensures empty <==> Amount(required, Wood) + Amount(required, Stone) <= 0
  {
    TotalIsSumOfAmounts(required);
    Total(required) <= 0
  }

  /** What the "finished" test means for a ledger: an empty map is finished;
      a ledger with no positive entry is finished; and when no entry is
      negative, it is finished exactly when every entry is zero. */
  lemma IsStorageEmptyMeaning(required: map<GameResource, int>)
    ensures required == map[] ==> IsStorageEmpty(required)
    ensures (forall r :: r in required ==> required[r] <= 0) ==> IsStorageEmpty(required)
    ensures (forall r :: r in required ==> required[r] >= 0)
            ==> (IsStorageEmpty(required) <==> forall r :: r in required ==> required[r] == 0)
  {
    TotalIsSumOfAmounts(required);
    if (forall r :: r in required ==> required[r] >= 0) && IsStorageEmpty(required) {
      assert Amount(required, Wood) >= 0 && Amount(required, Stone) >= 0;
      forall r | r in required ensures required[r] == 0 {
        assert r == Wood || r == Stone;
      }
    }
  }

  /** Because the test looks at the sum only, a ledger whose surplus of one
      resource outweighs a missing other resource counts as finished. */
  lemma FinishedWithResourceStillMissing()
    ensures IsStorageEmpty(map[Wood := -10, Stone := 10])
    ensures map[Wood := -10, Stone := 10][Stone] > 0
  {
    TotalIsSumOfAmounts(map[Wood := -10, Stone := 10]);
  }

  /** `is_storage_empty` as the source computes it: a running count over
      the entries of the map, then the comparison with zero. */
  method CheckStorageEmpty(list: map<GameResource, int>) returns (empty: bool)
    ensures empty == IsStorageEmpty(list)
  {
    var count := 0;
    var i := 0;
    while i < |AllResources|
      invariant 0 <= i <= |AllResources|
      invariant count == SumOver(list, AllResources[..i])
    {
      var r := AllResources[i];
      if r in list {
        count := count + list[r];
      }
      SumOverAppend(list, AllResources[..i], r);
      assert AllResources[..i + 1] == AllResources[..i] + [r];
      i := i + 1;
    }
    assert AllResources[..i] == AllResources;
    empty := count <= 0;
  }

  /** `get_building_construction_cost`: a freshly built map per building
      type. */
  function ConstructionCost(bt: BuildingType): (cost: map<GameResource, int>)
    ensures bt == House ==> cost.Keys == {Wood} && cost[Wood] == 50
    ensures bt == Warehouse ==> cost.Keys == {Wood, Stone} && cost[Wood] == 70 && cost[Stone] == 30
    ensures forall r :: r in cost ==> cost[r] > 0 && cost[r] % HaulerCapacity == 0
  {
    match bt
    case Warehouse => map[Wood := 70, Stone := 30]
    case House => map[Wood := 50]
  }

  /** Rust's integer division, which truncates toward zero. */
  function TruncDiv(a: int, b: int): int
    requires b > 0
  {
    if a >= 0 then a / b else -((-a) / b)
  }

  /** Number of iterations of `for _ in 0..(amount / HAULER_CAPACITY)`: the
      truncated quotient, and none when it is not positive. */
  function TaskCount(amount: int): (n: nat)
    ensures n == (if TruncDiv(amount, HaulerCapacity) > 0 then TruncDiv(amount, HaulerCapacity) else 0)
    ensures n * HaulerCapacity <= (if amount > 0 then amount else 0) < (n + 1) * HaulerCapacity
  {
    if amount <= 0 then 0 else amount / HaulerCapacity
  }

  /** For every building the generated tasks carry exactly the cost: the
      truncating task count loses nothing. */
  lemma CostSplitsIntoWholeTasks(bt: BuildingType, r: GameResource)
    requires r in ConstructionCost(bt)
    ensures TaskCount(ConstructionCost(bt)[r]) * HaulerCapacity == ConstructionCost(bt)[r]
  {
  }
}
