/** The per-frame physics systems (src/modules/physics/systems.rs): movement
    state and facing derived from motion, motion integration, and
    axis-separated collision blocking over all pairs of colliders. */
module PhysicsSystems {
  import opened PhysicsComponents
  import opened World

  /** The source's "x != 0 || y != 0" test on a direction; z is ignored. */
  predicate MovingXY(v: Vec3) { v.x != 0.0 || v.y != 0.0 }

  // ---------------------------------------------------------------------
  // update_movement_state_by_direction

  /** The movement state for a Physical and an optional SelfPhysical:
      DRAG while pushed, overridden by WALK when the actor moves itself and
      either outruns the push or is not pushed. */
  function MovementStateFor(p: Physical, sp: Option<SelfPhysical>): (r: MovementState)
    ensures r == WALK <==>
      sp.Some? && MovingXY(sp.value.direction) && (p.acceleration < sp.value.speed || !MovingXY(p.direction))
    ensures r == DRAG <==> r != WALK && MovingXY(p.direction)
    ensures r == IDLE <==> r != WALK && !MovingXY(p.direction)
    ensures sp.None? ==> r != WALK
  {
    var beingPushed := MovingXY(p.direction);
    var pushedState := if beingPushed then DRAG else IDLE;
    if sp.Some? && (p.acceleration < sp.value.speed || !beingPushed) && MovingXY(sp.value.direction) then WALK
    else pushedState
  }

  function MovementStateEntity(e: Entity): Entity
  {
    if e.movement.Some? && e.physical.Some? then
      e.(movement := Some(e.movement.value.(state := MovementStateFor(e.physical.value, e.selfPhysical))))
    else e
  }

  method UpdateMovementStateByDirection(a: array<Entity>)
    modifies a
    ensures forall k :: 0 <= k < a.Length ==> a[k] == MovementStateEntity(old(a[k]))
  {
    ForEach(a, MovementStateEntity);
  }

  // ---------------------------------------------------------------------
  // update_sideds_by_direction

  /** f32::trunc: the integer part, rounding toward zero. */
  function Trunc(r: real): int
  {
    if r >= 0.0 then r.Floor else -((-r).Floor)
  }

  /** A value truncated to two decimals; its sign is that of the input
      exactly when the input is at least 0.01 away from zero. */
  function Trunc2(r: real): (t: real)
    ensures t > 0.0 <==> r >= 0.01
    ensures t < 0.0 <==> r <= -0.01
    ensures t == 0.0 <==> -0.01 < r < 0.01
  {
    (Trunc(r * 100.0) as real) / 100.0
  }

  /** The direction the facing follows: the actor's own when it outruns the push. */
  function FacingSource(p: Physical, sp: Option<SelfPhysical>): (d: Vec3)
    ensures sp.Some? && p.acceleration < sp.value.speed ==> d == sp.value.direction
    ensures !(sp.Some? && p.acceleration < sp.value.speed) ==> d == p.direction
  {
    if sp.Some? && p.acceleration < sp.value.speed then sp.value.direction else p.direction
  }

  /** The side faced for direction d, X before Y; a direction whose two
      components are both below 0.01 in size keeps the current side. */
  function SideFor(d: Vec3, current: Side): (r: Side)
    ensures d.x >= 0.01 ==> r == RIGHT
    ensures d.x <= -0.01 ==> r == LEFT
    ensures -0.01 < d.x < 0.01 && d.y <= -0.01 ==> r == BOTTOM
    ensures -0.01 < d.x < 0.01 && d.y >= 0.01 ==> r == TOP
    ensures -0.01 < d.x < 0.01 && -0.01 < d.y < 0.01 ==> r == current
  {
    var x := Trunc2(d.x);
    var y := Trunc2(d.y);
    if x > 0.0 then RIGHT
    else if x < 0.0 then LEFT
    else if y < 0.0 then BOTTOM
    else if y > 0.0 then TOP
    else current
  }

  /** Horizontal facing wins: a direction with a visible X component never faces TOP or BOTTOM. */
  lemma HorizontalPriority(d: Vec3, current: Side)
    requires d.x >= 0.01 || d.x <= -0.01
    ensures SideFor(d, current) in {LEFT, RIGHT}
  {
  }

  /** Directions that agree to two decimals face the same side. */
  lemma FacingIgnoresNoise(d: Vec3, d': Vec3, current: Side)
    requires Trunc(d.x * 100.0) == Trunc(d'.x * 100.0) && Trunc(d.y * 100.0) == Trunc(d'.y * 100.0)
    ensures SideFor(d, current) == SideFor(d', current)
  {
  }

  function SidedEntity(e: Entity): Entity
  {
    if e.physical.Some? && e.sided.Some? then
      e.(sided := Some(SideFor(FacingSource(e.physical.value, e.selfPhysical), e.sided.value)))
    else e
  }

  method UpdateSidedsByDirection(a: array<Entity>)
    modifies a
    ensures forall k :: 0 <= k < a.Length ==> a[k] == SidedEntity(old(a[k]))
  {
    ForEach(a, SidedEntity);
  }

  // ---------------------------------------------------------------------
  // direction_react

  /** The largest finite f32, the upper bound of the source's clamp. */
  const F32_MAX: real := 340282346638528859811704183484516925440.0

  /** clamp(0, f32::MAX). */
  function Clamp(x: real): (r: real)
    ensures 0.0 <= r <= F32_MAX
    ensures 0.0 <= x <= F32_MAX ==> r == x
    ensures x < 0.0 ==> r == 0.0
  {
    if x < 0.0 then 0.0 else if x > F32_MAX then F32_MAX else x
  }

  /** A Physical and the entity's translation after integration. */
  datatype Motion = Motion(physical: Physical, translation: Vec3)

  /** The actor's own displacement this frame, when it moves and outruns the push. */
  function SelfDisplacement(dt: real, p: Physical, sp: Option<SelfPhysical>): Vec3
  {
    if sp.Some? && sp.value.speed > p.acceleration && sp.value.direction != ZERO3
    then Scale3(Scale3(sp.value.direction, dt), sp.value.speed)
    else ZERO3
  }

  /** One integration step. `norm` stands for normalize_or_zero, which needs
      a square root and is left to the caller. */
  function DirectionReact(dt: real, norm: Vec3 -> Vec3, p: Physical, sp: Option<SelfPhysical>, t: Vec3): (m: Motion)
    ensures p.direction == ZERO3 ==> m.physical == p && m.translation == Add3(t, SelfDisplacement(dt, p, sp))
    ensures p.direction != ZERO3 ==>
      && m.physical == Physical(norm(p.direction), p.weight, Clamp(p.acceleration - p.weight))
      && m.translation == Add3(Add3(t, SelfDisplacement(dt, p, sp)),
                               Scale3(Scale3(norm(p.direction), dt), p.acceleration))
    ensures p.direction != ZERO3 ==> 0.0 <= m.physical.acceleration
  {
    var t1 := Add3(t, SelfDisplacement(dt, p, sp));
    if p.direction != ZERO3 then
      var d := norm(p.direction);
      Motion(Physical(d, p.weight, Clamp(p.acceleration - p.weight)), Add3(t1, Scale3(Scale3(d, dt), p.acceleration)))
    else Motion(p, t1)
  }

  /** Without a push and without an actor that outruns it and moves, the entity stays put. */
  lemma IdleEntityStaysPut(dt: real, norm: Vec3 -> Vec3, p: Physical, sp: Option<SelfPhysical>, t: Vec3)
    requires p.direction == ZERO3
    requires !(sp.Some? && sp.value.speed > p.acceleration && sp.value.direction != ZERO3)
    ensures DirectionReact(dt, norm, p, sp, t) == Motion(p, t)
  {
  }

  /** `norm` keeps the zero vector at zero and every other vector away from it,
      as normalize_or_zero does. */
  ghost predicate NormalizesOrZero(norm: Vec3 -> Vec3)
  {
    norm(ZERO3) == ZERO3 && forall v :: v != ZERO3 ==> norm(v) != ZERO3
  }

  /** n integration steps with the same actor. */
  function Steps(n: nat, dt: real, norm: Vec3 -> Vec3, m: Motion, sp: Option<SelfPhysical>): Motion
    decreases n
  {
    if n == 0 then m else Steps(n - 1, dt, norm, DirectionReact(dt, norm, m.physical, sp, m.translation), sp)
  }

  /** The acceleration left after n decay steps of weight w. */
  function Decayed(n: nat, acc: real, w: real): real
    decreases n
  {
    if n == 0 then acc else Decayed(n - 1, Clamp(acc - w), w)
  }

  /** Integration keeps a push direction non-zero and its weight, and decays
      its acceleration once per step. */
  lemma {:induction false} StepsDecay(n: nat, dt: real, norm: Vec3 -> Vec3, m: Motion, sp: Option<SelfPhysical>)
    requires NormalizesOrZero(norm)
    requires m.physical.direction != ZERO3
    ensures Steps(n, dt, norm, m, sp).physical.direction != ZERO3
    ensures Steps(n, dt, norm, m, sp).physical.weight == m.physical.weight
    ensures Steps(n, dt, norm, m, sp).physical.acceleration == Decayed(n, m.physical.acceleration, m.physical.weight)
    decreases n
  {
    if n > 0 {
      var m1 := DirectionReact(dt, norm, m.physical, sp, m.translation);
      assert m1.physical.direction == norm(m.physical.direction) != ZERO3;
      StepsDecay(n - 1, dt, norm, m1, sp);
    }
  }

  /** max(0, acc - n * w). */
  function LinearDecay(n: nat, acc: real, w: real): real
  {
    if acc - (n as real) * w < 0.0 then 0.0 else acc - (n as real) * w
  }

  /** n decay steps of a non-negative weight leave max(0, acc - n * w). */
  lemma {:induction false} DecayedClosedForm(n: nat, acc: real, w: real)
    requires 0.0 <= w && 0.0 <= acc <= F32_MAX
    ensures Decayed(n, acc, w) == LinearDecay(n, acc, w)
    ensures 0.0 <= Decayed(n, acc, w) <= acc
    decreases n
  {
    if n > 0 {
      var k := (n - 1) as real;
      assert (n as real) * w == k * w + w;
      DecayedClosedForm(n - 1, Clamp(acc - w), w);
      if acc - w < 0.0 {
        assert k * w >= 0.0;
      }
    }
  }

  /** A push decays linearly: after n steps the acceleration is
      max(0, acceleration - n * weight), so it falls until it reaches 0 and
      stays there, never negative. */
  lemma PushDecays(n: nat, dt: real, norm: Vec3 -> Vec3, m: Motion, sp: Option<SelfPhysical>)
    requires NormalizesOrZero(norm)
    requires m.physical.direction != ZERO3
    requires 0.0 <= m.physical.weight && 0.0 <= m.physical.acceleration <= F32_MAX
    ensures Steps(n, dt, norm, m, sp).physical.acceleration == LinearDecay(n, m.physical.acceleration, m.physical.weight)
    ensures 0.0 <= Steps(n, dt, norm, m, sp).physical.acceleration <= m.physical.acceleration
  {
    StepsDecay(n, dt, norm, m, sp);
    DecayedClosedForm(n, m.physical.acceleration, m.physical.weight);
  }

  /** A push of 10 with weight 2.5 decays 10, 7.5, 5, 2.5, 0 and then stays at 0. */
  lemma PushThenRelease(dt: real, norm: Vec3 -> Vec3, t: Vec3)
    requires NormalizesOrZero(norm)
    ensures var m := Motion(Physical(Vec3(1.0, 0.0, 0.0), 2.5, 10.0), t);
      && Steps(1, dt, norm, m, None).physical.acceleration == 7.5
      && Steps(2, dt, norm, m, None).physical.acceleration == 5.0
      && Steps(3, dt, norm, m, None).physical.acceleration == 2.5
      && Steps(4, dt, norm, m, None).physical.acceleration == 0.0
      && Steps(5, dt, norm, m, None).physical.acceleration == 0.0
  {
    var m := Motion(Physical(Vec3(1.0, 0.0, 0.0), 2.5, 10.0), t);
    PushDecays(1, dt, norm, m, None);
    PushDecays(2, dt, norm, m, None);
    PushDecays(3, dt, norm, m, None);
    PushDecays(4, dt, norm, m, None);
    PushDecays(5, dt, norm, m, None);
  }

  function DirectionReactEntity(dt: real, norm: Vec3 -> Vec3, e: Entity): Entity
  {
    if e.physical.Some? && e.translation.Some? then
      var m := DirectionReact(dt, norm, e.physical.value, e.selfPhysical, e.translation.value);
      e.(physical := Some(m.physical), translation := Some(m.translation))
    else e
  }

  method DirectionReactSystem(dt: real, norm: Vec3 -> Vec3, a: array<Entity>)
    modifies a
    ensures forall k :: 0 <= k < a.Length ==> a[k] == DirectionReactEntity(dt, norm, old(a[k]))
  {
    ForEach(a, e => DirectionReactEntity(dt, norm, e));
  }

  // ---------------------------------------------------------------------
  // collider_direction_react, collide_self, collide, check_future

  /** Closed overlap of the intervals [lo1, hi1] and [lo2, hi2]. */
  predicate Meets(lo1: real, hi1: real, lo2: real, hi2: real) { lo1 <= hi2 && lo2 <= hi1 }

  /** Where a zone sits for an entity at translation t. */
  function ZonePos(t: Vec3, z: TransformZone): Vec2 { Vec2(t.x + z.offset.x, t.y + z.offset.y) }

  /** Would a collider placed at `future` touch or overlap the target's
      collider? A probe at exactly (0, 0) never collides. */
  function CheckFuture(future: Vec2, collider: Collider, targetTranslation: Vec3, target: Collider): (r: bool)
    ensures r <==>
      && future != ZERO2
      && var tp := ZonePos(targetTranslation, target.zone);
      && Meets(future.x, future.x + collider.zone.size.x, tp.x, tp.x + target.zone.size.x)
      && Meets(future.y, future.y + collider.zone.size.y, tp.y, tp.y + target.zone.size.y)
  {
    if future.x != 0.0 || future.y != 0.0 then
      var targetPos := ZonePos(targetTranslation, target.zone);
      var targetLen := Vec2(targetPos.x + target.zone.size.x, targetPos.y + target.zone.size.y);
      var colliderLen := Vec2(future.x + collider.zone.size.x, future.y + collider.zone.size.y);
      !(colliderLen.y < targetPos.y || future.y > targetLen.y ||
        colliderLen.x < targetPos.x || future.x > targetLen.x)
    else false
  }

  /** The X probe: the collider moved by d along X only. */
  predicate BlockedX(d: Vec3, c: Collider, t: Vec3, targetT: Vec3, target: Collider)
  {
    var pos := ZonePos(t, c.zone);
    CheckFuture(Vec2(d.x + pos.x, pos.y), c, targetT, target)
  }

  /** The Y probe: the collider moved by d along Y only. */
  predicate BlockedY(d: Vec3, c: Collider, t: Vec3, targetT: Vec3, target: Collider)
  {
    var pos := ZonePos(t, c.zone);
    CheckFuture(Vec2(pos.x, d.y + pos.y), c, targetT, target)
  }

  /** d with its X and Y components zeroed where blocked; z is kept. */
  function ZeroBlocked(d: Vec3, blockX: bool, blockY: bool): Vec3
  {
    Vec3(if blockX then 0.0 else d.x, if blockY then 0.0 else d.y, d.z)
  }

  /** collide: an entity without a SelfPhysical against one target. The X and
      Y probes both read the direction as it was on entry. */
  function Collide(p: Physical, c: Collider, t: Vec3, targetT: Vec3, target: Collider): (r: Physical)
    ensures r.weight == p.weight && r.acceleration == p.acceleration
    ensures r.direction == ZeroBlocked(p.direction, BlockedX(p.direction, c, t, targetT, target),
                                                    BlockedY(p.direction, c, t, targetT, target))
  {
    var pos := ZonePos(t, c.zone);
    var p1 := if CheckFuture(Vec2(p.direction.x + pos.x, pos.y), c, targetT, target)
              then p.(direction := p.direction.(x := 0.0)) else p;
    if CheckFuture(Vec2(pos.x, p1.direction.y + pos.y), c, targetT, target)
    then p1.(direction := p1.direction.(y := 0.0)) else p1
  }

  /** collide_self: the probes use the push and self directions added
      together, taken before anything is zeroed; a blocked axis is zeroed in
      both. */
  function CollideSelf(p: Physical, sp: SelfPhysical, c: Collider, t: Vec3, targetT: Vec3, target: Collider)
    : (r: (Physical, SelfPhysical))
    ensures var d := Add3(p.direction, sp.direction);
      var blockX := BlockedX(d, c, t, targetT, target);
      var blockY := BlockedY(d, c, t, targetT, target);
      && r.0 == p.(direction := ZeroBlocked(p.direction, blockX, blockY))
      && r.1 == sp.(direction := ZeroBlocked(sp.direction, blockX, blockY))
  {
    var direction := Add3(p.direction, sp.direction);
    var pos := ZonePos(t, c.zone);
    var (p1, sp1) := if CheckFuture(Vec2(direction.x + pos.x, pos.y), c, targetT, target)
                     then (p.(direction := p.direction.(x := 0.0)), sp.(direction := sp.direction.(x := 0.0)))
                     else (p, sp);
    if CheckFuture(Vec2(pos.x, direction.y + pos.y), c, targetT, target)
    then (p1.(direction := p1.direction.(y := 0.0)), sp1.(direction := sp1.direction.(y := 0.0)))
    else (p1, sp1)
  }

  /** Resolving against the same target twice is the same as once. */
  lemma CollideIdempotent(p: Physical, c: Collider, t: Vec3, targetT: Vec3, target: Collider)
    ensures var p1 := Collide(p, c, t, targetT, target);
      Collide(p1, c, t, targetT, target) == p1
  {
    var p1 := Collide(p, c, t, targetT, target);
    var blockX := BlockedX(p.direction, c, t, targetT, target);
    var blockY := BlockedY(p.direction, c, t, targetT, target);
    if !blockX { assert BlockedX(p1.direction, c, t, targetT, target) == blockX; }
    if !blockY { assert BlockedY(p1.direction, c, t, targetT, target) == blockY; }
  }

  lemma CollideSelfIdempotent(p: Physical, sp: SelfPhysical, c: Collider, t: Vec3, targetT: Vec3, target: Collider)
    ensures var r := CollideSelf(p, sp, c, t, targetT, target);
      CollideSelf(r.0, r.1, c, t, targetT, target) == r
  {
    var r := CollideSelf(p, sp, c, t, targetT, target);
    var d := Add3(p.direction, sp.direction);
    var d1 := Add3(r.0.direction, r.1.direction);
    if !BlockedX(d, c, t, targetT, target) { assert BlockedX(d1, c, t, targetT, target) == false; }
    if !BlockedY(d, c, t, targetT, target) { assert BlockedY(d1, c, t, targetT, target) == false; }
  }

  /** The query of collider_direction_react: a Transform and a Collider. */
  predicate IsCollider(e: Entity) { e.translation.Some? && e.collider.Some? }

  /** Resolves entity e, which has a Physical, against `other`. */
  function Resolve(e: Entity, other: Entity): Entity
    requires IsCollider(e) && IsCollider(other) && e.physical.Some?
  {
    var c, t := e.collider.value, e.translation.value;
    var tc, tt := other.collider.value, other.translation.value;
    if e.selfPhysical.Some? then
      var r := CollideSelf(e.physical.value, e.selfPhysical.value, c, t, tt, tc);
      e.(physical := Some(r.0), selfPhysical := Some(r.1))
    else e.(physical := Some(Collide(e.physical.value, c, t, tt, tc)))
  }

  /** The direction v' is v with none, one or both of its X and Y components zeroed. */
  predicate ZeroedVec(v': Vec3, v: Vec3)
  {
    (v'.x == v.x || v'.x == 0.0) && (v'.y == v.y || v'.y == 0.0) && v'.z == v.z
  }

  /** e' is e with at most some direction components zeroed: translation,
      collider, weights, speeds, accelerations and all else unchanged. */
  predicate ZeroedFrom(e': Entity, e: Entity)
  {
    && e'.(physical := e.physical, selfPhysical := e.selfPhysical) == e
    && e'.physical.Some? == e.physical.Some?
    && e'.selfPhysical.Some? == e.selfPhysical.Some?
    && (e.physical.Some? ==>
         e'.physical.value.(direction := e.physical.value.direction) == e.physical.value &&
         ZeroedVec(e'.physical.value.direction, e.physical.value.direction))
    && (e.selfPhysical.Some? ==>
         e'.selfPhysical.value.(direction := e.selfPhysical.value.direction) == e.selfPhysical.value &&
         ZeroedVec(e'.selfPhysical.value.direction, e.selfPhysical.value.direction))
  }

  /** One pair visit: the first entity is resolved when it has a Physical,
      otherwise the second when it has one; a pair without a Physical, or
      without two colliders, is left alone. */
  function ResolveCollision(a: Entity, b: Entity): (r: (Entity, Entity))
    ensures ZeroedFrom(r.0, a) && ZeroedFrom(r.1, b)
    ensures r.1 == b || r.0 == a
    ensures IsCollider(a) && IsCollider(b) && a.physical.Some? ==> r == (Resolve(a, b), b)
    ensures IsCollider(a) && IsCollider(b) && a.physical.None? && b.physical.Some? ==> r == (a, Resolve(b, a))
    ensures a.physical.None? && b.physical.None? ==> r == (a, b)
    ensures !(IsCollider(a) && IsCollider(b)) ==> r == (a, b)
  {
    if !(IsCollider(a) && IsCollider(b)) then (a, b)
    else if a.physical.Some? then (Resolve(a, b), b)
    else if b.physical.Some? then (a, Resolve(b, a))
    else (a, b)
  }

  /** Over a whole pass, every entity keeps its translation, its collider and
      everything else; only direction components can become zero. */
  lemma CollisionPassOnlyZeroes(s: seq<Entity>)
    ensures Related(AllPairs(s, 0, ResolveCollision), s, ZeroedFrom)
  {
    AllPairsRespects(s, 0, ResolveCollision, ZeroedFrom);
  }

  method ColliderDirectionReact(a: array<Entity>)
    modifies a
    ensures a[..] == AllPairs(old(a[..]), 0, ResolveCollision)
    ensures forall k :: 0 <= k < a.Length ==> ZeroedFrom(a[k], old(a[k]))
  {
    ForEachPair(a, ResolveCollision);
    CollisionPassOnlyZeroes(old(a[..]));
  }

  /** Sliding along a wall: a 16x10 collider at (-17, 0) moving (1, 1) next
      to a 16x10 collider at (0, 0) is blocked along X (the edges would
      touch) and keeps its Y motion. */
  lemma WallSlide()
    ensures var c := ColliderDefault();
      Collide(Physical(Vec3(1.0, 1.0, 0.0), 0.0, 1.0), c, Vec3(-17.0, 0.0, 0.0), ZERO3, c).direction == Vec3(0.0, 1.0, 0.0)
  {
  }

  /** Colliders that already overlap block both axes: at (0, 0) against (10, 0),
      both 16x10, a move of (1, 1) is zeroed in X and in Y. */
  lemma OverlapBlocksBoth()
    ensures var c := ColliderDefault();
      Collide(Physical(Vec3(1.0, 1.0, 0.0), 0.0, 1.0), c, ZERO3, Vec3(10.0, 0.0, 0.0), c).direction == ZERO3
  {
  }

  function Abs(r: real): real { if r < 0.0 then -r else r }

  /** Sliding along a wall in general: when the collider moved along X
      lands off (0, 0) and touches the target, while the collider moved along Y does not (it is
      apart from the target on X, or the Y move takes it clear on Y), the X
      motion is dropped and the Y motion kept. */
  lemma SlideAlongWall(p: Physical, c: Collider, t: Vec3, targetT: Vec3, target: Collider)
    requires var pos := ZonePos(t, c.zone); var tp := ZonePos(targetT, target.zone);
      && Vec2(pos.x + p.direction.x, pos.y) != ZERO2
      && Meets(pos.x + p.direction.x, pos.x + p.direction.x + c.zone.size.x, tp.x, tp.x + target.zone.size.x)
      && Meets(pos.y, pos.y + c.zone.size.y, tp.y, tp.y + target.zone.size.y)
    requires var pos := ZonePos(t, c.zone); var tp := ZonePos(targetT, target.zone);
      || !Meets(pos.x, pos.x + c.zone.size.x, tp.x, tp.x + target.zone.size.x)
      || !Meets(pos.y + p.direction.y, pos.y + p.direction.y + c.zone.size.y, tp.y, tp.y + target.zone.size.y)
    ensures Collide(p, c, t, targetT, target).direction == Vec3(0.0, p.direction.y, p.direction.z)
  {
  }

  /** Colliders that overlap by at least the move on each axis stop it on
      both axes, unless a probe lands exactly on (0, 0). */
  lemma OverlapStopsSmallMoves(p: Physical, c: Collider, t: Vec3, targetT: Vec3, target: Collider)
    requires var pos := ZonePos(t, c.zone); var tp := ZonePos(targetT, target.zone); var d := p.direction;
      && pos.x + Abs(d.x) <= tp.x + target.zone.size.x && tp.x <= pos.x + c.zone.size.x - Abs(d.x)
      && pos.y + Abs(d.y) <= tp.y + target.zone.size.y && tp.y <= pos.y + c.zone.size.y - Abs(d.y)
    requires var pos := ZonePos(t, c.zone);
      Vec2(pos.x + p.direction.x, pos.y) != ZERO2 && Vec2(pos.x, pos.y + p.direction.y) != ZERO2
    ensures Collide(p, c, t, targetT, target).direction == Vec3(0.0, 0.0, p.direction.z)
  {
  }

  /** A probe that lands exactly on (0, 0) is never blocked, so the same
      approach is stopped or not depending on where it happens: moving (1, 0)
      from (-1, 0) onto a collider at (0, 0) goes through, the same move from
      (4, 0) onto one at (5, 0) is stopped. */
  lemma OriginProbeNeverBlocks()
    ensures var c := ColliderDefault();
      var p := Physical(Vec3(1.0, 0.0, 0.0), 0.0, 1.0);
      && Collide(p, c, Vec3(-1.0, 0.0, 0.0), ZERO3, c).direction == Vec3(1.0, 0.0, 0.0)
      && Collide(p, c, Vec3(4.0, 0.0, 0.0), Vec3(5.0, 0.0, 0.0), c).direction == ZERO3
  {
  }
}
