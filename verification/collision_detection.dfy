/** The two collision passes of src/engine/collision.rs over the world: collect
    the overlapping pairs among the entities carrying a box and the pass's
    component, then write each such component's `colliding` flag and
    partner. */
module CollisionDetection {
  import opened EngineTypes
  import opened Collision
  import opened Ecs

  /** What the writing loop of the trigger pass stores for `e`. */
  function TriggerOutcome(pairs: map<Entity, Entity>, e: Entity): (t: TriggerCollision)
    ensures t.colliding <==> e in pairs
    ensures t.otherTrigger == if e in pairs then Some(pairs[e]) else None
  {
    if e in pairs then TriggerCollision(true, Some(pairs[e])) else NewTrigger()
  }

  /** What the writing loop of the body pass stores for `e`. */
  function BodyOutcome(pairs: map<Entity, Entity>, e: Entity): (b: BodyCollision)
    ensures b.colliding <==> e in pairs
    ensures b.otherBody == if e in pairs then Some(pairs[e]) else None
  {
    if e in pairs then BodyCollision(true, Some(pairs[e])) else NewBody()
  }

  /** Every entity with a box is listed in `order`, so the pairs the
      collecting loop found cover every entity that has a partner at all. */
  lemma PairedWhenPartnered(order: seq<Entity>, boxes: map<Entity, Rect>, tagged: set<Entity>,
                            pairs: map<Entity, Entity>)
    requires forall x :: x in boxes ==> x in order
    requires forall a, b :: 0 <= a < |order| && 0 <= b < |order| && Partner(boxes, tagged, order[a], order[b])
               ==> order[a] in pairs
    ensures forall e, f {:trigger Partner(boxes, tagged, e, f)} :: Partner(boxes, tagged, e, f) ==> e in pairs
  {
    forall e, f | Partner(boxes, tagged, e, f) ensures e in pairs {
      var a :| 0 <= a < |order| && order[a] == e;
      var b :| 0 <= b < |order| && order[b] == f;
      assert Partner(boxes, tagged, order[a], order[b]);
    }
  }

  /** The trigger components the writing loop leaves behind, stated from
      the pairs the collecting loop found. */
  lemma TriggerOutcomesAreConsistent(boxes: map<Entity, Rect>, tagged: set<Entity>,
         pairs: map<Entity, Entity>, written: map<Entity, TriggerCollision>)
    requires forall x :: x in pairs ==> Partner(boxes, tagged, x, pairs[x])
    requires written.Keys == tagged && forall e :: e in tagged ==> written[e] == TriggerOutcome(pairs, e)
    ensures forall e :: e in written ==> (written[e].colliding <==> written[e].otherTrigger.Some?)
    ensures forall e :: e in written && written[e].otherTrigger.Some? ==>
              Partner(boxes, tagged, e, written[e].otherTrigger.value)
  {
  }

  lemma TriggerOutcomesMeanPartners(boxes: map<Entity, Rect>, tagged: set<Entity>,
         pairs: map<Entity, Entity>, written: map<Entity, TriggerCollision>)
    requires forall x :: x in pairs ==> Partner(boxes, tagged, x, pairs[x])
    requires forall e, f {:trigger Partner(boxes, tagged, e, f)} :: Partner(boxes, tagged, e, f) ==> e in pairs
    requires written.Keys == tagged && forall e :: e in tagged ==> written[e] == TriggerOutcome(pairs, e)
    ensures forall e :: e in written ==>
              (written[e].colliding <==> HasPartner(boxes, tagged, e))
  {
    forall e | e in written && written[e].colliding ensures HasPartner(boxes, tagged, e) {
      assert Partner(boxes, tagged, e, pairs[e]);
    }
  }

  /** The body components the writing loop leaves behind. */
  lemma BodyOutcomesAreConsistent(boxes: map<Entity, Rect>, tagged: set<Entity>,
         pairs: map<Entity, Entity>, written: map<Entity, BodyCollision>)
    requires forall x :: x in pairs ==> Partner(boxes, tagged, x, pairs[x])
    requires written.Keys == tagged && forall e :: e in tagged ==> written[e] == BodyOutcome(pairs, e)
    ensures forall e :: e in written ==> (written[e].colliding <==> written[e].otherBody.Some?)
    ensures forall e :: e in written && written[e].otherBody.Some? ==>
              Partner(boxes, tagged, e, written[e].otherBody.value)
  {
  }

  lemma BodyOutcomesMeanPartners(boxes: map<Entity, Rect>, tagged: set<Entity>,
         pairs: map<Entity, Entity>, written: map<Entity, BodyCollision>)
    requires forall x :: x in pairs ==> Partner(boxes, tagged, x, pairs[x])
    requires forall e, f {:trigger Partner(boxes, tagged, e, f)} :: Partner(boxes, tagged, e, f) ==> e in pairs
    requires written.Keys == tagged && forall e :: e in tagged ==> written[e] == BodyOutcome(pairs, e)
    ensures forall e :: e in written ==>
              (written[e].colliding <==> HasPartner(boxes, tagged, e))
  {
    forall e | e in written && written[e].colliding ensures HasPartner(boxes, tagged, e) {
      assert Partner(boxes, tagged, e, pairs[e]);
    }
  }

  /** The collecting loop, with its result stated over all entities: every
      recorded partner is a partner, and every entity that has one is
      recorded. */
  method OverlapPartners(order: seq<Entity>, boxes: map<Entity, Rect>, tagged: set<Entity>)
    returns (pairs: map<Entity, Entity>)
    requires forall x :: x in boxes ==> x in order
    ensures forall x :: x in pairs ==> Partner(boxes, tagged, x, pairs[x])
    ensures forall e, f {:trigger Partner(boxes, tagged, e, f)} :: Partner(boxes, tagged, e, f) ==> e in pairs
  {
    pairs := CollectOverlaps(order, boxes, tagged);
    PairedWhenPartnered(order, boxes, tagged, pairs);
  }

  /** The writing loop of the trigger pass: every entity of `tagged` gets the
      component its pairing determines. */
  method WriteTriggerOutcomes(pairs: map<Entity, Entity>, tagged: set<Entity>)
    returns (written: map<Entity, TriggerCollision>)
    ensures written.Keys == tagged
    ensures forall e :: e in written ==> written[e] == TriggerOutcome(pairs, e)
  {
    written := map[];
    var todo := tagged;
    while todo != {}
      invariant todo <= tagged && written.Keys == tagged - todo
      invariant forall e :: e in written ==> written[e] == TriggerOutcome(pairs, e)
      decreases todo
    {
      var e :| e in todo;
      written := written[e := TriggerOutcome(pairs, e)];
      todo := todo - {e};
    }
  }

  /** Both loops of the trigger pass over values: collect the overlapping pairs,
      then compute the new component of every entity in `tagged`. */
  method TriggerPass(order: seq<Entity>, boxes: map<Entity, Rect>, tagged: set<Entity>)
    returns (written: map<Entity, TriggerCollision>)
    requires forall x :: x in boxes ==> x in order
    ensures written.Keys == tagged
    ensures forall e :: e in written ==> (written[e].colliding <==> written[e].otherTrigger.Some?)
    ensures forall e :: e in written ==> (written[e].colliding <==> HasPartner(boxes, tagged, e))
    ensures forall e :: e in written && written[e].otherTrigger.Some? ==>
              Partner(boxes, tagged, e, written[e].otherTrigger.value)
  {
    var pairs := OverlapPartners(order, boxes, tagged);
    written := WriteTriggerOutcomes(pairs, tagged);
    TriggerOutcomesAreConsistent(boxes, tagged, pairs, written);
    TriggerOutcomesMeanPartners(boxes, tagged, pairs, written);
  }

  /** `detect_trigger_collisions`: only trigger components change; each one
      records whether its entity's box overlaps the box of another
      trigger-carrying entity, and which one. An entity without a box, or
      without an overlapping peer, ends non-colliding with no partner. */
  method DetectTriggerCollisions(w: World)
    requires w.Valid()
    modifies w`triggers
    ensures w.Valid()
    ensures w.triggers.Keys == old(w.triggers.Keys)
    ensures forall e :: e in w.triggers ==> (w.triggers[e].colliding <==> w.triggers[e].otherTrigger.Some?)
    ensures forall e :: e in w.triggers ==>
              (w.triggers[e].colliding <==> HasPartner(w.boxes, w.triggers.Keys, e))
    ensures forall e :: e in w.triggers && w.triggers[e].otherTrigger.Some? ==>
              Partner(w.boxes, w.triggers.Keys, e, w.triggers[e].otherTrigger.value)
  {
    assert forall x :: x in w.boxes ==> x in w.order;
    var written := TriggerPass(w.order, w.boxes, w.triggers.Keys);
    w.triggers := written;
  }

  /** The writing loop of the body pass: every entity of `tagged` gets the
      component its pairing determines. */
  method WriteBodyOutcomes(pairs: map<Entity, Entity>, tagged: set<Entity>)
    returns (written: map<Entity, BodyCollision>)
    ensures written.Keys == tagged
    ensures forall e :: e in written ==> written[e] == BodyOutcome(pairs, e)
  {
    written := map[];
    var todo := tagged;
    while todo != {}
      invariant todo <= tagged && written.Keys == tagged - todo
      invariant forall e :: e in written ==> written[e] == BodyOutcome(pairs, e)
      decreases todo
    {
      var e :| e in todo;
      written := written[e := BodyOutcome(pairs, e)];
      todo := todo - {e};
    }
  }

  /** Both loops of the body pass over values: collect the overlapping pairs,
      then compute the new component of every entity in `tagged`. */
  method BodyPass(order: seq<Entity>, boxes: map<Entity, Rect>, tagged: set<Entity>)
    returns (written: map<Entity, BodyCollision>)
    requires forall x :: x in boxes ==> x in order
    ensures written.Keys == tagged
    ensures forall e :: e in written ==> (written[e].colliding <==> written[e].otherBody.Some?)
    ensures forall e :: e in written ==> (written[e].colliding <==> HasPartner(boxes, tagged, e))
    ensures forall e :: e in written && written[e].otherBody.Some? ==>
              Partner(boxes, tagged, e, written[e].otherBody.value)
  {
    var pairs := OverlapPartners(order, boxes, tagged);
    written := WriteBodyOutcomes(pairs, tagged);
    BodyOutcomesAreConsistent(boxes, tagged, pairs, written);
    BodyOutcomesMeanPartners(boxes, tagged, pairs, written);
  }

  /** `detect_body_collisions`: the same rule over the entities that carry a
      body component; only body components change. */
  method DetectBodyCollisions(w: World)
    requires w.Valid()
    modifies w`bodies
    ensures w.Valid()
    ensures w.bodies.Keys == old(w.bodies.Keys)
    ensures forall e :: e in w.bodies ==> (w.bodies[e].colliding <==> w.bodies[e].otherBody.Some?)
    ensures forall e :: e in w.bodies ==>
              (w.bodies[e].colliding <==> HasPartner(w.boxes, w.bodies.Keys, e))
    ensures forall e :: e in w.bodies && w.bodies[e].otherBody.Some? ==>
              Partner(w.boxes, w.bodies.Keys, e, w.bodies[e].otherBody.value)
  {
    assert forall x :: x in w.boxes ==> x in w.order;
    var written := BodyPass(w.order, w.boxes, w.bodies.Keys);
    w.bodies := written;
  }

  /** Every body component records exactly whether its entity's box
      overlaps another body-carrying entity's box. */
  ghost predicate BodiesSettled(boxes: map<Entity, Rect>, bodies: map<Entity, BodyCollision>)
  {
    forall e :: e in bodies ==> (bodies[e].colliding <==> HasPartner(boxes, bodies.Keys, e))
  }

  /** Every trigger component records exactly whether its entity's box
      overlaps another trigger-carrying entity's box. */
  ghost predicate TriggersSettled(boxes: map<Entity, Rect>, triggers: map<Entity, TriggerCollision>)
  {
    forall e :: e in triggers ==> (triggers[e].colliding <==> HasPartner(boxes, triggers.Keys, e))
  }
}
