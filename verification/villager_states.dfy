/** The `change_state_to` operations of src/game/villagers/datatypes.rs as
    updates of the world's marker components. */
module VillagerStates {
  import opened EngineTypes
  import opened VillagerTypes
  import opened Ecs

  /** Every `change_state_to` keeps the markers exclusive and never tags an
      entity that had no marker before. */
  lemma ChangesKeepExclusive(t: StateTags, e: Entity, target: VillagerState)
    requires t.Exclusive()
    ensures e in t.idle ==> IdleChanged(t, e, target).Exclusive() && IdleChanged(t, e, target).All() <= t.All()
    ensures e in t.loading ==> LoadingChanged(t, e, target).Exclusive() && LoadingChanged(t, e, target).All() <= t.All()
    ensures e in t.carrying ==> CarryingChanged(t, e, target).Exclusive() && CarryingChanged(t, e, target).All() <= t.All()
  {
  }

  /** `IdleState::change_state_to`. */
  method IdleChangeStateTo(w: World, e: Entity, target: VillagerState)
    requires w.Valid() && e in w.tags.idle
    modifies w`tags
    ensures w.Valid()
    ensures w.tags == IdleChanged(old(w.tags), e, target)
  {
    ChangesKeepExclusive(w.tags, e, target);
    w.tags := IdleChanged(w.tags, e, target);
  }

  /** `LoadingState::change_state_to`. */
  method LoadingChangeStateTo(w: World, e: Entity, target: VillagerState)
    requires w.Valid() && e in w.tags.loading
    modifies w`tags
    ensures w.Valid()
    ensures w.tags == LoadingChanged(old(w.tags), e, target)
  {
    ChangesKeepExclusive(w.tags, e, target);
    w.tags := LoadingChanged(w.tags, e, target);
  }

  /** `CarryingState::change_state_to`. */
  method CarryingChangeStateTo(w: World, e: Entity, target: VillagerState)
    requires w.Valid() && e in w.tags.carrying
    modifies w`tags
    ensures w.Valid()
    ensures w.tags == CarryingChanged(old(w.tags), e, target)
  {
    ChangesKeepExclusive(w.tags, e, target);
    w.tags := CarryingChanged(w.tags, e, target);
  }
}
