/** Collision components and the geometry of axis-aligned boxes
    (src/engine/collision.rs). Box edges are inclusive: a box at `x` of width
    `w` covers the columns `x .. x + w - 1`. */
module Collision {
  import opened EngineTypes

  /** Result of the trigger (sensor) pass for one entity. */
  datatype TriggerCollision = TriggerCollision(colliding: bool, otherTrigger: Option<Entity>)

  /** Result of the body (blocking) pass for one entity. */
  datatype BodyCollision = BodyCollision(colliding: bool, otherBody: Option<Entity>)

  /** `TriggerCollision::new`: nobody overlaps yet. */
  function NewTrigger(): (t: TriggerCollision)
    ensures !t.colliding && t.otherTrigger.None?
  {
    TriggerCollision(false, None)
  }

  /** `BodyCollision::default()`: nobody overlaps yet. */
  function NewBody(): (b: BodyCollision)
    ensures !b.colliding && b.otherBody.None?
  {
    BodyCollision(false, None)
  }

  /** The last column and row a box covers. */
  function Right(b: Rect): int { b.x + b.width - 1 }
  function Bottom(b: Rect): int { b.y + b.height - 1 }

  /** `is_point_inside_box`: the inclusive last column and row make the
      covered cells the half-open ranges `x .. x+width` and `y .. y+height`. */
  function IsPointInsideBox(p: Vec2, b: Rect): (inside: bool)
    ensures inside <==> b.x <= p.x < b.x + b.width && b.y <= p.y < b.y + b.height
  {
    b.x <= p.x <= Right(b) && b.y <= p.y <= Bottom(b)
  }

  /** Two boxes collide when each starts no later than the other ends, on
      both axes: their half-open ranges of cells meet on both axes. */
  function AreBoxesColliding(b1: Rect, b2: Rect): (colliding: bool)
    ensures colliding <==> b2.x < b1.x + b1.width && b1.x < b2.x + b2.width
                           && b2.y < b1.y + b1.height && b1.y < b2.y + b2.height
  {
    Right(b1) >= b2.x && b1.x <= Right(b2) && Bottom(b1) >= b2.y && b1.y <= Bottom(b2)
  }

  /** A point is inside a box exactly when the 1x1 box at that point collides
      with it. */
  lemma PointInsideIsUnitBoxCollision(p: Vec2, b: Rect)
    ensures IsPointInsideBox(p, b) <==> AreBoxesColliding(Rect(p.x, p.y, 1, 1), b)
  {
  }

  lemma CollidingIsSymmetric(b1: Rect, b2: Rect)
    ensures AreBoxesColliding(b1, b2) <==> AreBoxesColliding(b2, b1)
  {
  }

  /** A box of positive size overlaps itself; a box with no width or no
      height overlaps nothing, itself included. */
  lemma SelfCollisionIffNonEmpty(b: Rect)
    ensures AreBoxesColliding(b, b) <==> b.width >= 1 && b.height >= 1
  {
  }

  /** `f` is an admissible partner of `e` in a pass over the entities that
      carry a box and the pass's collision component (`tagged`). */
  ghost predicate Partner(boxes: map<Entity, Rect>, tagged: set<Entity>, e: Entity, f: Entity)
  {
    e != f && e in boxes && f in boxes && e in tagged && f in tagged
    && AreBoxesColliding(boxes[e], boxes[f])
  }

  /** `e` overlaps some admissible partner. */
  ghost predicate HasPartner(boxes: map<Entity, Rect>, tagged: set<Entity>, e: Entity)
  {
    exists f :: Partner(boxes, tagged, e, f)
  }

  /** The pair-collecting half of `detect_body_collisions` and
      `detect_trigger_collisions`: every ordered pair of distinct entities that
      carry a box and the pass's component is tested, and an overlapping pair
      records each entity as the other's partner (a later pair overwrites an
      earlier one). `order` is the world's query order. */
  method CollectOverlaps(order: seq<Entity>, boxes: map<Entity, Rect>, tagged: set<Entity>)
    returns (pairs: map<Entity, Entity>)
    ensures forall e :: e in pairs ==> Partner(boxes, tagged, e, pairs[e])
    ensures forall a, b :: 0 <= a < |order| && 0 <= b < |order| && Partner(boxes, tagged, order[a], order[b])
              ==> order[a] in pairs
  {
    pairs := map[];
    var i := 0;
    while i < |order|
      invariant 0 <= i <= |order|
      invariant forall e :: e in pairs ==> Partner(boxes, tagged, e, pairs[e])
      invariant forall a, b :: 0 <= a < i && 0 <= b < |order| && Partner(boxes, tagged, order[a], order[b])
                  ==> order[a] in pairs
    {
      var e1 := order[i];
      var j := 0;
      while j < |order|
        invariant 0 <= j <= |order|
        invariant forall e :: e in pairs ==> Partner(boxes, tagged, e, pairs[e])
        invariant forall a, b :: 0 <= a < i && 0 <= b < |order| && Partner(boxes, tagged, order[a], order[b])
                    ==> order[a] in pairs
        invariant forall b :: 0 <= b < j && Partner(boxes, tagged, e1, order[b]) ==> e1 in pairs
      {
        var e2 := order[j];
        if e1 in boxes && e1 in tagged && e2 in boxes && e2 in tagged
           && e1 != e2 && AreBoxesColliding(boxes[e1], boxes[e2]) {
          pairs := pairs[e1 := e2][e2 := e1];
        }
        j := j + 1;
      }
      i := i + 1;
    }
  }
}
