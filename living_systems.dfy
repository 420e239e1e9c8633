/** The mob systems (src/modules/living/systems.rs): steering toward the
    desired position and the Idle / WalkTo / Attack desire machine. The
    per-desire update timer becomes a `fired` flag per entity and the random
    generator becomes one `Draw` per entity. */
module LivingSystems {
  import opened PhysicsComponents
  import opened World

  // ---------------------------------------------------------------------
  // update_mob_direction

  /** The self direction a mob's desire asks for: toward the target in x
      and y (as `normalize` gives it) when walking, with z left as it was;
      no motion for any other intention. */
  function MobDirection(normalize: Vec2 -> Vec2, desire: Desire, sp: SelfPhysical, t: Vec3): (r: SelfPhysical)
    ensures desire.intention != WalkTo ==> r == sp.(direction := ZERO3)
    ensures desire.intention == WalkTo ==>
      var n := normalize(Vec2(desire.position.x - t.x, desire.position.y - t.y));
      r == sp.(direction := Vec3(n.x, n.y, sp.direction.z))
  {
    match desire.intention
    case WalkTo =>
      var n := normalize(Vec2(desire.position.x - t.x, desire.position.y - t.y));
      sp.(direction := sp.direction.(x := n.x, y := n.y))
    case _ => sp.(direction := ZERO3)
  }

  function Sign(r: real): int { if r > 0.0 then 1 else if r < 0.0 then -1 else 0 }

  /** `normalize` keeps the sign of each component of a non-zero vector, as
      dividing by its positive length does. */
  ghost predicate KeepsSigns(normalize: Vec2 -> Vec2)
  {
    forall v :: v != ZERO2 ==> Sign(normalize(v).x) == Sign(v.x) && Sign(normalize(v).y) == Sign(v.y)
  }

  /** A walking mob that is not on its target heads for it: on each axis it
      moves toward the target's side, and not at all on an axis where it is
      level with it. */
  lemma MobHeadsForTarget(normalize: Vec2 -> Vec2, desire: Desire, sp: SelfPhysical, t: Vec3)
    requires KeepsSigns(normalize)
    requires desire.intention == WalkTo
    requires desire.position.x != t.x || desire.position.y != t.y
    ensures var r := MobDirection(normalize, desire, sp, t);
      && Sign(r.direction.x) == Sign(desire.position.x - t.x)
      && Sign(r.direction.y) == Sign(desire.position.y - t.y)
      && r.direction.z == sp.direction.z && r.speed == sp.speed
  {
    var v := Vec2(desire.position.x - t.x, desire.position.y - t.y);
    assert Sign(normalize(v).x) == Sign(v.x) && Sign(normalize(v).y) == Sign(v.y);
  }

  function MobDirectionEntity(normalize: Vec2 -> Vec2, e: Entity): Entity
  {
    if e.desire.Some? && e.selfPhysical.Some? && e.translation.Some? then
      e.(selfPhysical := Some(MobDirection(normalize, e.desire.value, e.selfPhysical.value, e.translation.value)))
    else e
  }

  method UpdateMobDirection(normalize: Vec2 -> Vec2, a: array<Entity>)
    modifies a
    ensures forall k :: 0 <= k < a.Length ==> a[k] == MobDirectionEntity(normalize, old(a[k]))
  {
    ForEach(a, e => MobDirectionEntity(normalize, e));
  }

  // ---------------------------------------------------------------------
  // check_aggression_zone

  /** The pair visit of check_aggression_zone, whose loop body is empty. */
  function KeepPair(a: Entity, b: Entity): (Entity, Entity)
  {
    (a, b)
  }

  predicate SameEntity(e': Entity, e: Entity) { e' == e }

  /** A pass of empty visits leaves every entity as it was. */
  lemma AggressionPassChangesNothing(s: seq<Entity>)
    ensures AllPairs(s, 0, KeepPair) == s
  {
    AllPairsRespects(s, 0, KeepPair, SameEntity);
  }

  method CheckAggressionZone(a: array<Entity>)
    modifies a
    ensures a[..] == old(a[..])
  {
    ForEachPair(a, KeepPair);
    AggressionPassChangesNothing(old(a[..]));
  }

  // ---------------------------------------------------------------------
  // update_desire, change_desire

  /** One frame's random draws: the choice gen_range(0..2) returned and,
      for each position draw, how far into its range the drawn value lies. */
  datatype Draw = Draw(choice: nat, offsetX: real, offsetY: real)

  /** How far around its position an idle mob picks a walk target. */
  const WANDER: real := 100.0

  /** What the generator can produce here: a choice below 2 and offsets
      inside the width of the position ranges. */
  predicate ValidDraw(d: Draw)
  {
    d.choice < 2 && 0.0 <= d.offsetX < 2.0 * WANDER && 0.0 <= d.offsetY < 2.0 * WANDER
  }

  /** gen_range(lo..hi) for a draw `offset` into the range. */
  function GenRange(lo: real, hi: real, offset: real): (r: real)
    ensures 0.0 <= offset < hi - lo ==> lo <= r < hi
  {
    lo + offset
  }

  /** A timer-driven change of an idle mob's desire: stay idle at the origin
      or walk to a point drawn around its position. Choices other than 0
      and 1 change nothing. */
  function ChangeDesire(desire: Desire, t: Vec3, fired: bool, draw: Draw): (r: Desire)
    ensures !fired ==> r == desire
    ensures fired && draw.choice == 0 ==> r == Desire(Idle, ZERO2)
    ensures fired && draw.choice == 1 ==>
      && r.intention == WalkTo
      && r.position == Vec2(GenRange(t.x - WANDER, t.x + WANDER, draw.offsetX), GenRange(t.y - WANDER, t.y + WANDER, draw.offsetY))
    ensures fired && draw.choice == 1 && ValidDraw(draw) ==>
      t.x - WANDER <= r.position.x < t.x + WANDER && t.y - WANDER <= r.position.y < t.y + WANDER
    ensures fired && draw.choice >= 2 ==> r == desire
  {
    if !fired then desire
    else if draw.choice == 0 then Desire(Idle, ZERO2)
    else if draw.choice == 1 then
      Desire(WalkTo, Vec2(GenRange(t.x - WANDER, t.x + WANDER, draw.offsetX), GenRange(t.y - WANDER, t.y + WANDER, draw.offsetY)))
    else desire
  }

  /** The arrival test: the position lies in the half-open unit box around the target. */
  predicate Arrived(target: Vec2, t: Vec3)
  {
    target.x - 1.0 <= t.x < target.x + 1.0 && target.y - 1.0 <= t.y < target.y + 1.0
  }

  /** One frame of a mob's desire: an idle mob may get a new desire, a
      walking one becomes idle once it has arrived, an attacking one keeps
      its desire. */
  function NextDesire(desire: Desire, t: Vec3, fired: bool, draw: Draw): (r: Desire)
    ensures desire.intention == Attack ==> r == desire
    ensures desire.intention == WalkTo ==>
      (if Arrived(desire.position, t) then r == desire.(intention := Idle) else r == desire)
    ensures desire.intention == Idle ==> r == ChangeDesire(desire, t, fired, draw)
    ensures desire.intention == Idle && !fired ==> r == desire
    ensures desire.intention == Idle && fired && ValidDraw(draw) ==>
      || r == Desire(Idle, ZERO2)
      || (&& r.intention == WalkTo
          && t.x - WANDER <= r.position.x < t.x + WANDER && t.y - WANDER <= r.position.y < t.y + WANDER)
  {
    match desire.intention
    case Idle => ChangeDesire(desire, t, fired, draw)
    case WalkTo => if Arrived(desire.position, t) then desire.(intention := Idle) else desire
    case Attack => desire
  }

  /** A desire followed over frames at the given positions, timer results and draws. */
  function DesireRun(desire: Desire, ts: seq<Vec3>, fired: seq<bool>, draws: seq<Draw>): Desire
    requires |ts| == |fired| == |draws|
    decreases |ts|
  {
    if |ts| == 0 then desire
    else DesireRun(NextDesire(desire, ts[0], fired[0], draws[0]), ts[1..], fired[1..], draws[1..])
  }

  /** Nothing in update_desire ever leaves Attack. */
  lemma {:induction false} AttackIsKept(desire: Desire, ts: seq<Vec3>, fired: seq<bool>, draws: seq<Draw>)
    requires |ts| == |fired| == |draws|
    requires desire.intention == Attack
    ensures DesireRun(desire, ts, fired, draws) == desire
    decreases |ts|
  {
    if |ts| > 0 {
      AttackIsKept(NextDesire(desire, ts[0], fired[0], draws[0]), ts[1..], fired[1..], draws[1..]);
    }
  }

  /** And nothing ever enters it: a desire that is not Attack never becomes one. */
  lemma {:induction false} AttackNeverEntered(desire: Desire, ts: seq<Vec3>, fired: seq<bool>, draws: seq<Draw>)
    requires |ts| == |fired| == |draws|
    requires desire.intention != Attack
    ensures DesireRun(desire, ts, fired, draws).intention != Attack
    decreases |ts|
  {
    if |ts| > 0 {
      AttackNeverEntered(NextDesire(desire, ts[0], fired[0], draws[0]), ts[1..], fired[1..], draws[1..]);
    }
  }

  /** A mob that stands on its target, or one unit to the left of it, is idle
      one frame later; one exactly one unit to the right of it is not (the
      test is half-open). */
  lemma ArrivalIsHalfOpen(target: Vec2, t: Vec3, fired: bool, draw: Draw)
    ensures NextDesire(Desire(WalkTo, target), Vec3(target.x, target.y, t.z), fired, draw).intention == Idle
    ensures NextDesire(Desire(WalkTo, target), Vec3(target.x - 1.0, target.y, t.z), fired, draw).intention == Idle
    ensures NextDesire(Desire(WalkTo, target), Vec3(target.x + 1.0, target.y, t.z), fired, draw).intention == WalkTo
  {
  }

  function DesireEntity(e: Entity, fired: bool, draw: Draw): Entity
  {
    if e.desire.Some? && e.translation.Some? then
      e.(desire := Some(NextDesire(e.desire.value, e.translation.value, fired, draw)))
    else e
  }

  /** One frame of update_desire: entity k sees timer result fired[k] and draws draws[k]. */
  method UpdateDesire(a: array<Entity>, fired: seq<bool>, draws: seq<Draw>)
    requires |fired| == a.Length && |draws| == a.Length
    modifies a
    ensures forall k :: 0 <= k < a.Length ==> a[k] == DesireEntity(old(a[k]), fired[k], draws[k])
  {
    var i := 0;
    while i < a.Length
      invariant 0 <= i <= a.Length
      invariant forall k :: 0 <= k < i ==> a[k] == DesireEntity(old(a[k]), fired[k], draws[k])
      invariant forall k :: i <= k < a.Length ==> a[k] == old(a[k])
    {
      a[i] := DesireEntity(a[i], fired[i], draws[i]);
      i := i + 1;
    }
  }
}
