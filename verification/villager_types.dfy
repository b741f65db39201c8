/** Villager value types (src/game/villagers/datatypes.rs): the carried item,
    the backpack, and the four state marker tags. The source keeps each
    marker as a separate component, so the model keeps the set of entities
    that carry each marker; a `change_state_to` is a function from the old
    marker sets to the new ones. */
module VillagerTypes {
  import opened EngineTypes

  datatype GameItem = GameItem(resource: GameResource, amount: int)

  /** `GameItem::new`. */
  function NewGameItem(resource: GameResource, amount: int): (item: GameItem)
    ensures item.resource == resource && item.amount == amount
  {
    GameItem(resource, amount)
  }

  /** What a hauler carries; replaced wholesale on pickup and delivery. */
  datatype Backpack = Backpack(item: Option<GameItem>)

  /** `Backpack::default()`: an empty backpack. */
  function DefaultBackpack(): (b: Backpack)
    ensures b.item.None?
  {
    Backpack(None)
  }

  /** `Backpack::clone_item`. */
  function CloneItem(b: Backpack): (item: Option<GameItem>)
    ensures item == b.item
  {
    b.item
  }

  /** The entities that carry each state marker component. */
  datatype StateTags = StateTags(idle: set<Entity>, loading: set<Entity>, carrying: set<Entity>, working: set<Entity>)
  {
    /** Every entity with some marker. */
    function All(): set<Entity>
    {
      idle + loading + carrying + working
    }

    /** No entity carries two markers. */
    ghost predicate Exclusive()
    {
      idle !! loading && idle !! carrying && idle !! working
      && loading !! carrying && loading !! working && carrying !! working
    }

    /** The state an entity is in, as a `VillagerState`, if it has a marker. */
    ghost predicate HasOnly(e: Entity, s: VillagerState)
    {
      (e in idle <==> s == Idle) && (e in loading <==> s == Loading)
      && (e in carrying <==> s == Carrying) && (e in working <==> s == Working)
    }

    /** `e` has no marker at all. */
    ghost predicate Untagged(e: Entity)
    {
      e !in All()
    }
  }

  /** The markers of every entity other than `e` agree in `t` and `u`. */
  ghost predicate OthersAgree(t: StateTags, u: StateTags, e: Entity)
  {
    t.idle - {e} == u.idle - {e} && t.loading - {e} == u.loading - {e}
    && t.carrying - {e} == u.carrying - {e} && t.working - {e} == u.working - {e}
  }

  /** `IdleState::change_state_to`: insert the Loading or Working marker for
      those targets, then remove the Idle marker (which must be present, the
      source unwraps the removal). */
  function IdleChanged(t: StateTags, e: Entity, target: VillagerState): (u: StateTags)
    requires e in t.idle
    ensures e !in u.idle
    ensures target == Loading ==> e in u.loading
    ensures target == Working ==> e in u.working
    ensures t.carrying == u.carrying
    ensures target != Loading ==> u.loading == t.loading
    ensures target != Working ==> u.working == t.working
    ensures OthersAgree(t, u, e)
  {
    match target
    case Loading => t.(idle := t.idle - {e}, loading := t.loading + {e})
    case Working => t.(idle := t.idle - {e}, working := t.working + {e})
    case _ => t.(idle := t.idle - {e})
  }

  /** `LoadingState::change_state_to`: insert Idle or Carrying for those
      targets, then remove Loading (which must be present). */
  function LoadingChanged(t: StateTags, e: Entity, target: VillagerState): (u: StateTags)
    requires e in t.loading
    ensures e !in u.loading
    ensures target == Idle ==> e in u.idle
    ensures target == Carrying ==> e in u.carrying
    ensures t.working == u.working
    ensures target != Idle ==> u.idle == t.idle
    ensures target != Carrying ==> u.carrying == t.carrying
    ensures OthersAgree(t, u, e)
  {
    match target
    case Idle => t.(loading := t.loading - {e}, idle := t.idle + {e})
    case Carrying => t.(loading := t.loading - {e}, carrying := t.carrying + {e})
    case _ => t.(loading := t.loading - {e})
  }

  /** `CarryingState::change_state_to`: insert Idle for that target only,
      then remove Carrying (which must be present). */
  function CarryingChanged(t: StateTags, e: Entity, target: VillagerState): (u: StateTags)
    requires e in t.carrying
    ensures e !in u.carrying
    ensures target == Idle ==> e in u.idle
    ensures target != Idle ==> u.idle == t.idle
    ensures u.loading == t.loading && u.working == t.working
    ensures OthersAgree(t, u, e)
  {
    if target == Idle then t.(carrying := t.carrying - {e}, idle := t.idle + {e})
    else t.(carrying := t.carrying - {e})
  }

  /** The hauler cycle Idle -> Loading -> Carrying -> Idle keeps every
      villager in exactly one state: the moved entity ends in the target
      state alone. */
  lemma SupportedTransitionsKeepOneState(t: StateTags, e: Entity)
    requires t.Exclusive()
    ensures e in t.idle ==> IdleChanged(t, e, Loading).Exclusive() && IdleChanged(t, e, Loading).HasOnly(e, Loading)
    ensures e in t.idle ==> IdleChanged(t, e, Working).Exclusive() && IdleChanged(t, e, Working).HasOnly(e, Working)
    ensures e in t.loading ==> LoadingChanged(t, e, Carrying).Exclusive() && LoadingChanged(t, e, Carrying).HasOnly(e, Carrying)
    ensures e in t.loading ==> LoadingChanged(t, e, Idle).Exclusive() && LoadingChanged(t, e, Idle).HasOnly(e, Idle)
    ensures e in t.carrying ==> CarryingChanged(t, e, Idle).Exclusive() && CarryingChanged(t, e, Idle).HasOnly(e, Idle)
  {
  }

  /** Any other target still keeps the markers exclusive, but leaves the
      entity with no marker at all: it drops out of every state query. */
  lemma UnsupportedTransitionsLeaveNoState(t: StateTags, e: Entity)
    requires t.Exclusive()
    ensures e in t.idle ==> (forall s :: s in {Idle, Carrying} ==> IdleChanged(t, e, s).Exclusive() && IdleChanged(t, e, s).Untagged(e))
    ensures e in t.loading ==> (forall s :: s in {Loading, Working} ==> LoadingChanged(t, e, s).Exclusive() && LoadingChanged(t, e, s).Untagged(e))
    ensures e in t.carrying ==> (forall s :: s != Idle ==> CarryingChanged(t, e, s).Exclusive() && CarryingChanged(t, e, s).Untagged(e))
  {
  }
}
