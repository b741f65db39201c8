/** `generate_construction_haul_tasks` of src/game/buildings/step.rs: every
    placed construction whose tasks have not been generated yet is marked,
    and one haul task per full hauler load of each required resource is
    pushed onto the open-task stack, with the construction as destination
    and the first storage able to supply a full load as origin. */
module ConstructionTasks {
  import opened EngineTypes
  import opened BuildingTypes
  import opened TaskTypes
  import opened Ecs
  import opened Tasks

  /** What the origin query reads of the world: the query order, the
      storage and sprite components, and which entities have a ledger. */
  datatype SupplyView = SupplyView(
    order: seq<Entity>,
    storages: map<Entity, StorageSpace>,
    sprites: map<Entity, Vec2>,
    underConstruction: set<Entity>)

  function SupplyOf(w: World): (v: SupplyView)
    reads w
    ensures v.order == w.order && v.storages == w.storages && v.sprites == w.sprites
    ensures v.underConstruction == w.constructions.Keys
  {
    SupplyView(w.order, w.storages, w.sprites, w.constructions.Keys)
  }

  /** `e` is a storage the origin query accepts for `r`: it has a storage and
      a sprite, no ledger, and a full load of `r` available. */
  predicate CanSupply(v: SupplyView, r: GameResource, e: Entity)
  {
    e in v.storages && e in v.sprites && e !in v.underConstruction
    && StorageHasRequiredResource(v.storages[e], r, HaulerCapacity)
  }

  /** `v.order[i]` is the first storage in query order that can supply `r`. */
  ghost predicate FirstSupplierAt(v: SupplyView, r: GameResource, i: int)
  {
    0 <= i < |v.order| && CanSupply(v, r, v.order[i])
    && forall j :: 0 <= j < i ==> !CanSupply(v, r, v.order[j])
  }

  /** The origin every task for `r` gets: the position of the first storage
      in query order that can supply a full load, or none. */
  ghost function FirstOrigin(v: SupplyView, r: GameResource): (o: Option<Vec2>)
    ensures o.Some? ==> exists i :: FirstSupplierAt(v, r, i) && o.value == v.sprites[v.order[i]]
    ensures o.None? <==> forall i :: 0 <= i < |v.order| ==> !CanSupply(v, r, v.order[i])
    decreases |v.order|
  {
    if v.order == [] then None
    else if CanSupply(v, r, v.order[0]) then Some(v.sprites[v.order[0]])
    else
      var rest := v.(order := v.order[1..]);
      var o := FirstOrigin(rest, r);
      if o.Some? then
        var i :| FirstSupplierAt(rest, r, i) && o.value == rest.sprites[rest.order[i]];
        assert FirstSupplierAt(v, r, i + 1);
        o
      else
        assert forall i :: 1 <= i < |v.order| ==> v.order[i] == rest.order[i - 1];
        o
  }

  /** When no earlier storage can supply `r` and `order[i]` can, it is the
      origin. */
  lemma {:induction false} FirstOriginIsFirstMatch(v: SupplyView, r: GameResource, i: nat)
    requires i < |v.order| && CanSupply(v, r, v.order[i])
    requires forall j :: 0 <= j < i ==> !CanSupply(v, r, v.order[j])
    ensures FirstOrigin(v, r) == Some(v.sprites[v.order[i]])
    decreases i
  {
    if i > 0 {
      FirstOriginIsFirstMatch(v.(order := v.order[1..]), r, i - 1);
    }
  }

  /** The origin loop of `generate_construction_haul_tasks`: keep the
      position of the first storage that can supply a full load. */
  method FindOrigin(w: World, r: GameResource) returns (origin: Option<Vec2>)
    ensures origin == FirstOrigin(SupplyOf(w), r)
  {
    ghost var v := SupplyOf(w);
    origin := None;
    var i := 0;
    while i < |w.order|
      invariant 0 <= i <= |w.order|
      invariant origin.None? ==> forall j :: 0 <= j < i ==> !CanSupply(v, r, w.order[j])
      invariant origin.Some? ==> origin == FirstOrigin(v, r)
    {
      var e := w.order[i];
      if e in w.storages && e in w.sprites && e !in w.constructions {
        if StorageHasRequiredResource(w.storages[e], r, HaulerCapacity) && origin.None? {
          FirstOriginIsFirstMatch(v, r, i);
          origin := Some(w.sprites[e]);
        }
      }
      i := i + 1;
    }
  }

  /** A construction the first loop lists: it has a sprite, no placement
      marker, and its tasks have not been generated. */
  predicate AwaitsTasks(constructions: map<Entity, ConstructionStorage>, sprites: map<Entity, Vec2>,
                        placements: set<Entity>, e: Entity)
  {
    e in constructions && e in sprites && e !in placements && !constructions[e].tasksGenerated
  }

  /** The (destination, requirements) pairs the first loop lists, in query
      order; empty exactly when no entity of the order awaits tasks. */
  function Jobs(order: seq<Entity>, constructions: map<Entity, ConstructionStorage>, sprites: map<Entity, Vec2>,
                placements: set<Entity>): (js: seq<(Vec2, map<GameResource, int>)>)
    ensures |js| <= |order|
    ensures js == [] <==> forall i :: 0 <= i < |order| ==> !AwaitsTasks(constructions, sprites, placements, order[i])
  {
    if order == [] then []
    else
      var e := order[|order| - 1];
      var earlier := Jobs(order[..|order| - 1], constructions, sprites, placements);
      assert forall i :: 0 <= i < |order| - 1 ==> order[..|order| - 1][i] == order[i];
      earlier + (if AwaitsTasks(constructions, sprites, placements, e) then [(sprites[e], constructions[e].required)] else [])
  }

  /** The ledgers after the first loop: every construction that awaited its
      tasks is flagged, the others are untouched, and no requirement
      changes. */
  function Marked(constructions: map<Entity, ConstructionStorage>, sprites: map<Entity, Vec2>, placements: set<Entity>)
    : (m: map<Entity, ConstructionStorage>)
    ensures m.Keys == constructions.Keys
    ensures forall e :: e in m ==> m[e].required == constructions[e].required && m[e].tasksGenerated
                                   == (constructions[e].tasksGenerated || AwaitsTasks(constructions, sprites, placements, e))
    ensures forall e :: !AwaitsTasks(m, sprites, placements, e)
  {
    map e | e in constructions ::
      if AwaitsTasks(constructions, sprites, placements, e) then constructions[e].(tasksGenerated := true)
      else constructions[e]
  }

  /** The ledgers once the constructions in `done` have been visited: those
      that awaited their tasks are flagged. */
  function MarkedWithin(constructions: map<Entity, ConstructionStorage>, sprites: map<Entity, Vec2>,
                        placements: set<Entity>, done: set<Entity>): (m: map<Entity, ConstructionStorage>)
    ensures m.Keys == constructions.Keys
  {
    map e | e in constructions ::
      if e in done && AwaitsTasks(constructions, sprites, placements, e) then constructions[e].(tasksGenerated := true)
      else constructions[e]
  }

  /** Visiting one more entity flags it when it awaits its tasks (again
      harmlessly if it was visited before). */
  lemma MarkOneMore(constructions: map<Entity, ConstructionStorage>, sprites: map<Entity, Vec2>,
                    placements: set<Entity>, done: set<Entity>, e: Entity)
    ensures MarkedWithin(constructions, sprites, placements, done + {e})
            == if AwaitsTasks(constructions, sprites, placements, e)
               then MarkedWithin(constructions, sprites, placements, done)[e := constructions[e].(tasksGenerated := true)]
               else MarkedWithin(constructions, sprites, placements, done)
  {
  }

  /** Once every construction has been visited, the ledgers are `Marked`. */
  lemma MarkedWhenAllVisited(constructions: map<Entity, ConstructionStorage>, sprites: map<Entity, Vec2>,
                             placements: set<Entity>, done: set<Entity>)
    requires constructions.Keys <= done
    ensures MarkedWithin(constructions, sprites, placements, done) == Marked(constructions, sprites, placements)
  {
  }

  /** The first loop of `generate_construction_haul_tasks` over values: list
      every construction that awaits its tasks and flag it. */
  method MarkPending(order: seq<Entity>, constructions: map<Entity, ConstructionStorage>, sprites: map<Entity, Vec2>,
                     placements: set<Entity>) returns (jobs: seq<(Vec2, map<GameResource, int>)>, marked: map<Entity, ConstructionStorage>)
    requires forall e :: e in constructions ==> e in order
    ensures jobs == Jobs(order, constructions, sprites, placements)
    ensures marked == Marked(constructions, sprites, placements)
  {
    jobs := [];
    marked := constructions;
    ghost var done: set<Entity> := {};
    var i := 0;
    while i < |order|
      invariant 0 <= i <= |order|
      invariant jobs == Jobs(order[..i], constructions, sprites, placements)
      invariant marked == MarkedWithin(constructions, sprites, placements, done)
      invariant forall j :: 0 <= j < i ==> order[j] in done
    {
      var e := order[i];
      assert order[..i + 1][..i] == order[..i];
      MarkOneMore(constructions, sprites, placements, done, e);
      if AwaitsTasks(constructions, sprites, placements, e) {
        jobs := jobs + [(sprites[e], constructions[e].required)];
        marked := marked[e := constructions[e].(tasksGenerated := true)];
      }
      done := done + {e};
      i := i + 1;
    }
    assert order[..i] == order;
    MarkedWhenAllVisited(constructions, sprites, placements, done);
  }

  /** `n` copies of `t`. */
  function Repeat(t: HaulTask, n: nat): (ts: seq<HaulTask>)
    ensures |ts| == n
    ensures forall k :: 0 <= k < n ==> ts[k] == t
  {
    if n == 0 then [] else Repeat(t, n - 1) + [t]
  }

  /** The tasks pushed for one resource of one construction: one per full
      load, all alike. */
  function ResourceTasks(dest: Vec2, required: map<GameResource, int>, r: GameResource, origin: Option<Vec2>)
    : (ts: seq<HaulTask>)
    ensures |ts| == TaskCount(Amount(required, r))
    ensures forall k :: 0 <= k < |ts| ==> ts[k] == NewHaulTask(origin, dest, r)
  {
    Repeat(NewHaulTask(origin, dest, r), TaskCount(Amount(required, r)))
  }

  /** The tasks pushed for one construction, resource by resource in the
      order `rs`. */
  ghost function BuildingTasks(dest: Vec2, required: map<GameResource, int>, rs: seq<GameResource>, v: SupplyView)
    : seq<HaulTask>
  {
    if rs == [] then []
    else BuildingTasks(dest, required, rs[..|rs| - 1], v) + ResourceTasks(dest, required, rs[|rs| - 1], FirstOrigin(v, rs[|rs| - 1]))
  }

  /** The tasks pushed for a list of constructions, in list order. */
  ghost function GeneratedTasks(jobs: seq<(Vec2, map<GameResource, int>)>, v: SupplyView): seq<HaulTask>
  {
    if jobs == [] then []
    else GeneratedTasks(jobs[..|jobs| - 1], v) + BuildingTasks(jobs[|jobs| - 1].0, jobs[|jobs| - 1].1, AllResources, v)
  }

  /** The innermost loop: `amount / HAULER_CAPACITY` (truncating) tasks for
      one resource, each with the origin the query finds. */
  method GenerateResourceTasks(w: World, dest: Vec2, required: map<GameResource, int>, r: GameResource)
    requires r in required
    modifies w`openTasks
    ensures w.openTasks == old(w.openTasks) + ResourceTasks(dest, required, r, FirstOrigin(SupplyOf(w), r))
  {
    ghost var start := w.openTasks;
    ghost var origin := FirstOrigin(SupplyOf(w), r);
    var taskCount := TruncDiv(required[r], HaulerCapacity);
    var n := 0;
    while n < taskCount
      invariant 0 <= n <= TaskCount(required[r])
      invariant w.openTasks == start + Repeat(NewHaulTask(origin, dest, r), n)
    {
      var m := FindOrigin(w, r);
      GenerateHaulTask(w, m, dest, r);
      n := n + 1;
    }
  }

  /** The loop over the resources of one construction. */
  method GenerateBuildingTasks(w: World, dest: Vec2, required: map<GameResource, int>)
    modifies w`openTasks
    ensures w.openTasks == old(w.openTasks) + BuildingTasks(dest, required, AllResources, SupplyOf(w))
  {
    ghost var start := w.openTasks;
    var k := 0;
    while k < |AllResources|
      invariant 0 <= k <= |AllResources|
      invariant w.openTasks == start + BuildingTasks(dest, required, AllResources[..k], SupplyOf(w))
    {
      var r := AllResources[k];
      if r in required {
        GenerateResourceTasks(w, dest, required, r);
      }
      assert AllResources[..k + 1][..k] == AllResources[..k];
      k := k + 1;
    }
    assert AllResources[..k] == AllResources;
  }

  /** The loop over the listed constructions. */
  method GenerateJobTasks(w: World, jobs: seq<(Vec2, map<GameResource, int>)>)
    modifies w`openTasks
    ensures w.openTasks == old(w.openTasks) + GeneratedTasks(jobs, SupplyOf(w))
  {
    ghost var start := w.openTasks;
    var j := 0;
    while j < |jobs|
      invariant 0 <= j <= |jobs|
      invariant w.openTasks == start + GeneratedTasks(jobs[..j], SupplyOf(w))
    {
      GenerateBuildingTasks(w, jobs[j].0, jobs[j].1);
      assert jobs[..j + 1][..j] == jobs[..j];
      j := j + 1;
    }
    assert jobs[..j] == jobs;
  }

  /** The first loop over the world: the ledgers are flagged in place. */
  method MarkConstructions(w: World) returns (jobs: seq<(Vec2, map<GameResource, int>)>)
    requires w.Valid()
    modifies w`constructions
    ensures w.Valid()
    ensures w.constructions == Marked(old(w.constructions), w.sprites, w.placements.Keys)
    ensures jobs == Jobs(w.order, old(w.constructions), w.sprites, w.placements.Keys)
  {
    var marked;
    jobs, marked := MarkPending(w.order, w.constructions, w.sprites, w.placements.Keys);
    w.constructions := marked;
    assert w.ComponentsListed();
  }

  /** `generate_construction_haul_tasks`: flag every construction awaiting
      its tasks and push its tasks. Stock, reservations and placements are
      not touched. */
  method GenerateConstructionHaulTasks(w: World)
    requires w.Valid()
    modifies w`constructions, w`openTasks
    ensures w.Valid()
    ensures w.constructions == Marked(old(w.constructions), w.sprites, w.placements.Keys)
    ensures w.openTasks == old(w.openTasks)
                           + GeneratedTasks(Jobs(w.order, old(w.constructions), w.sprites, w.placements.Keys), SupplyOf(w))
  {
    var jobs := MarkConstructions(w);
    GenerateJobTasks(w, jobs);
  }

  /** Every generated task for one construction goes to that construction,
      starts at the origin the query finds for its resource, names no
      entity, and carries one of the listed resources. */
  lemma {:induction false} BuildingTaskShape(dest: Vec2, required: map<GameResource, int>, rs: seq<GameResource>, v: SupplyView)
    ensures forall t :: t in BuildingTasks(dest, required, rs, v) ==>
              t.destinationPosition == Some(dest) && t.originPosition == FirstOrigin(v, t.resource)
              && t.origin.None? && t.destination.None? && t.resource in rs
  {
    if rs != [] {
      BuildingTaskShape(dest, required, rs[..|rs| - 1], v);
    }
  }

  /** One task per full load of each resource: the count is the sum of the
      truncated quotients. */
  lemma BuildingTaskCount(dest: Vec2, required: map<GameResource, int>, v: SupplyView)
    ensures |BuildingTasks(dest, required, AllResources, v)|
            == TaskCount(Amount(required, Wood)) + TaskCount(Amount(required, Stone))
  {
    assert AllResources[..|AllResources| - 1] == [Wood] && [Wood][..0] == [];
    assert BuildingTasks(dest, required, [Wood], v) == ResourceTasks(dest, required, Wood, FirstOrigin(v, Wood));
  }

  /** A house needs five loads of wood; a warehouse seven of wood and three
      of stone. */
  lemma CostInLoads(dest: Vec2, v: SupplyView)
    ensures |BuildingTasks(dest, ConstructionCost(House), AllResources, v)| == 5
    ensures |BuildingTasks(dest, ConstructionCost(Warehouse), AllResources, v)| == 10
  {
    BuildingTaskCount(dest, ConstructionCost(House), v);
    BuildingTaskCount(dest, ConstructionCost(Warehouse), v);
  }

  /** Generation is one-shot: once the ledgers are marked, a second pass
      finds nothing to list and pushes no task. */
  lemma SecondGenerationAddsNothing(order: seq<Entity>, constructions: map<Entity, ConstructionStorage>,
                                    sprites: map<Entity, Vec2>, placements: set<Entity>, v: SupplyView)
    ensures Jobs(order, Marked(constructions, sprites, placements), sprites, placements) == []
    ensures GeneratedTasks(Jobs(order, Marked(constructions, sprites, placements), sprites, placements), v) == []
  {
  }
}
