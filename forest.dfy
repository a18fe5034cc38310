/**
 * Placement in the forest theme: rejection sampling of a point inside the five
 * foliage ellipses, at a minimum distance from every object already on the tree.
 */
module Forest {
  import opened Types
  import opened Spawn

  function Sq(v: real): real {
    v * v
  }

  /** The weighted squared distance of `p` from the centre `(cx, cy)` is below `bound`. */
  predicate InEllipse(p: Point, cx: real, cy: real, sx: real, sy: real, bound: real) {
    Sq((p.x - cx) * sx) + Sq((p.y - cy) * sy) < bound
  }

  /** The five weighted foliage ellipses, in percent of the play area. */
  predicate InCanopy(p: Point) {
    InEllipse(p, 15.0, 55.0, 1.8, 1.2, 1100.0) ||
    InEllipse(p, 30.0, 45.0, 1.6, 1.2, 1300.0) ||
    InEllipse(p, 85.0, 55.0, 1.8, 1.2, 1100.0) ||
    InEllipse(p, 70.0, 45.0, 1.6, 1.2, 1300.0) ||
    InEllipse(p, 50.0, 30.0, 1.4, 1.2, 1500.0)
  }

  /**
   * An existing object is too close when its distance, with the horizontal offset scaled
   * by 1.6, is below 12; the square root is compared as a square. An object without
   * `startY` makes the source's distance NaN, which is never too close.
   */
  predicate TooCloseTo(o: Entity, p: Point) {
    o.startY.Some? && Sq((o.startX - p.x) * 1.6) + Sq(o.startY.value - p.y) < 144.0
  }

  predicate Separated(existing: seq<Entity>, p: Point) {
    forall i :: 0 <= i < |existing| ==> !TooCloseTo(existing[i], p)
  }

  /** A sampled point is taken when it is in the canopy and clear of every existing object. */
  predicate Acceptable(existing: seq<Entity>, p: Point) {
    InCanopy(p) && Separated(existing, p)
  }

  /** The candidate point of one attempt: x in 12..88, y in 15..65. */
  function SamplePoint(u: Point): (p: Point)
    requires Unit(u.x) && Unit(u.y)
    ensures 12.0 <= p.x < 88.0 && 15.0 <= p.y < 65.0
  {
    Point(u.x * 76.0 + 12.0, u.y * 50.0 + 15.0)
  }

  /** No sample is acceptable among `existing`: a placement with these draws finds no spot. */
  ghost predicate NoFit(existing: seq<Entity>, samples: seq<Point>)
    requires forall k :: 0 <= k < |samples| ==> Unit(samples[k].x) && Unit(samples[k].y)
  {
    forall k :: 0 <= k < |samples| ==> !Acceptable(existing, SamplePoint(samples[k]))
  }

  /** `p` is the first acceptable sample among `existing`. */
  ghost predicate FirstFit(existing: seq<Entity>, samples: seq<Point>, p: Point)
    requires forall k :: 0 <= k < |samples| ==> Unit(samples[k].x) && Unit(samples[k].y)
  {
    exists k :: 0 <= k < |samples| && p == SamplePoint(samples[k]) && Acceptable(existing, p) &&
      forall j :: 0 <= j < k ==> !Acceptable(existing, SamplePoint(samples[j]))
  }

  /** Where a forest object sits. */
  function Pos(o: Entity): Point {
    Point(o.startX, match o.startY case Some(y) => y case None => 0.0)
  }

  /** A forest object: it hangs at `spot`, has no lane and no course to run. */
  function ForestEntity(id: nat, look: Look, isTarget: bool, spot: Point, d: Dice, now: int): (o: Entity)
    requires 12.0 <= spot.x < 88.0 && 15.0 <= spot.y < 65.0
    ensures Placed(Forest, o) && Pos(o) == spot && o.id == id && o.spawnTime == Some(now)
    ensures o.letter == look.display && o.originalLetterId == look.source.id
    ensures o.isTarget == isTarget && o.isBonus == BonusFlag(isTarget, d.bonus)
  {
    Entity(id, look.display, look.source.id, isTarget, BonusFlag(isTarget, d.bonus),
           spot.x, Some(spot.y), 0.0, 0.0, None, Some(now))
  }

  /** The inner loop over existing objects, which stops at the first one too close. */
  method TooClose(existing: seq<Entity>, p: Point) returns (close: bool)
    ensures close <==> !Separated(existing, p)
  {
    close := false;
    var i := 0;
    while i < |existing|
      invariant 0 <= i <= |existing|
      invariant forall k :: 0 <= k < i ==> !TooCloseTo(existing[k], p)
    {
      if TooCloseTo(existing[i], p) {
        close := true;
        break;
      }
      i := i + 1;
    }
  }

  /**
   * The sampling loop of `createForestObject`: at most 50 attempts; the first acceptable
   * sample wins. `attempts` is the number of samples drawn.
   */
  method Place(existing: seq<Entity>, samples: seq<Point>) returns (spot: Option<Point>, attempts: nat)
    requires |samples| == PlacementAttempts
    requires forall k :: 0 <= k < |samples| ==> Unit(samples[k].x) && Unit(samples[k].y)
    ensures 1 <= attempts <= PlacementAttempts
    ensures spot.Some? ==> spot.value == SamplePoint(samples[attempts - 1]) && Acceptable(existing, spot.value)
    ensures spot.Some? ==> forall k :: 0 <= k < attempts - 1 ==> !Acceptable(existing, SamplePoint(samples[k]))
    ensures spot.None? <==> forall k :: 0 <= k < PlacementAttempts ==> !Acceptable(existing, SamplePoint(samples[k]))
  {
    attempts := 0;
    spot := None;
    while spot.None? && attempts < PlacementAttempts
      invariant 0 <= attempts <= PlacementAttempts
      invariant spot.Some? ==> 1 <= attempts && spot.value == SamplePoint(samples[attempts - 1]) &&
                               Acceptable(existing, spot.value)
      invariant forall k :: 0 <= k < (if spot.Some? then attempts - 1 else attempts) ==>
                  !Acceptable(existing, SamplePoint(samples[k]))
    {
      attempts := attempts + 1;
      var test := SamplePoint(samples[attempts - 1]);
      if !InCanopy(test) {
        continue;
      }
      var close := TooClose(existing, test);
      if !close {
        spot := Some(test);
      }
    }
  }
}
