/** The sprite systems (src/modules/physics/sprite_change/systems.rs): frame
    selection for animated mobs, the side table for static multi-sided
    sprites, and draw order from overlapping sprite zones. The frame timer
    is abstracted to `shouldIncrease`, true on a frame where it finished. */
module SpriteSystems {
  import opened PhysicsComponents
  import opened SpriteConsts
  import opened World
  import SC = SpriteComponents

  /** Animation state and sprite of one entity, as the helpers leave them. */
  datatype SpriteState = SpriteState(movement: SC.MultipleMovementState, sprite: AtlasSprite)

  // ---------------------------------------------------------------------
  // update_idle_sprite

  /** Idle animation over [start, end): an index outside it snaps to start,
      otherwise a timer tick advances it by one. */
  function UpdateIdleSprite(m: SC.MultipleMovementState, sprite: AtlasSprite, start: nat, end: nat,
                            shouldIncrease: bool, flipX: bool): (r: SpriteState)
    ensures !(start <= m.currentIndex < end) ==> r.movement.currentIndex == start
    ensures start <= m.currentIndex < end ==>
      r.movement.currentIndex == m.currentIndex + (if shouldIncrease then 1 else 0)
    ensures start <= end ==> start <= r.movement.currentIndex <= end
    ensures r.movement == m.(currentIndex := r.movement.currentIndex)
    ensures r.sprite == AtlasSprite(r.movement.currentIndex, flipX)
  {
    var index :=
      if m.currentIndex >= end || m.currentIndex < start then start
      else if shouldIncrease then m.currentIndex + 1
      else m.currentIndex;
    SpriteState(m.(currentIndex := index), AtlasSprite(index, flipX))
  }

  // ---------------------------------------------------------------------
  // update_walk_sprite

  /** Walk animation over the poses [start, end] with `idle` as the in-between
      frame. With autoFlipX each step from the idle frame mirrors the sprite;
      without it the two poses alternate through usedFirst and the mirror is
      fixed to flipX. */
  function UpdateWalkSprite(m: SC.MultipleMovementState, sprite: AtlasSprite, start: nat, end: nat, idle: nat,
                            shouldIncrease: bool, autoFlipX: bool, flipX: bool): (r: SpriteState)
    ensures start <= end ==> start <= r.movement.currentIndex <= end || r.movement.currentIndex == idle
    ensures r.sprite.index == r.movement.currentIndex
    ensures r.movement == m.(currentIndex := r.movement.currentIndex, usedFirst := r.movement.usedFirst)
    // an index that is neither a pose nor idle restarts the walk
    ensures !(start <= m.currentIndex <= end) && m.currentIndex != idle ==>
      && r.movement.currentIndex == start && r.movement.usedFirst
      && r.sprite.flipX == (if autoFlipX then !sprite.flipX else flipX)
    // without a tick a pose or the idle frame stays
    ensures (start <= m.currentIndex <= end || m.currentIndex == idle) && !shouldIncrease ==>
      r.movement.currentIndex == m.currentIndex && r.movement.usedFirst == m.usedFirst
    // a tick on a pose returns to idle
    ensures start <= m.currentIndex <= end && m.currentIndex != idle && shouldIncrease ==>
      r.movement.currentIndex == idle && r.movement.usedFirst == m.usedFirst
    // a tick on idle: mirrored restart, or the next of the two poses
    ensures m.currentIndex == idle && shouldIncrease && autoFlipX ==>
      r.movement.currentIndex == start && r.movement.usedFirst == m.usedFirst && r.sprite.flipX == !sprite.flipX
    ensures m.currentIndex == idle && shouldIncrease && !autoFlipX ==>
      r.movement.currentIndex == (if m.usedFirst then end else start) && r.movement.usedFirst == !m.usedFirst
    ensures !autoFlipX ==> r.sprite.flipX == flipX
    ensures autoFlipX && (start <= m.currentIndex <= end || m.currentIndex == idle) && !(m.currentIndex == idle && shouldIncrease) ==>
      r.sprite.flipX == sprite.flipX
  {
    var reset := (m.currentIndex < start || m.currentIndex > end) && m.currentIndex != idle;
    var (index, usedFirst, flip) :=
      if reset then (start, true, if autoFlipX then !sprite.flipX else sprite.flipX)
      else if shouldIncrease then
        if m.currentIndex == idle then
          if autoFlipX then (start, m.usedFirst, !sprite.flipX)
          else (if m.usedFirst then end else start, !m.usedFirst, sprite.flipX)
        else (idle, m.usedFirst, sprite.flipX)
      else (m.currentIndex, m.usedFirst, sprite.flipX);
    var flip' := if !autoFlipX then flipX else flip;
    SpriteState(m.(currentIndex := index, usedFirst := usedFirst), AtlasSprite(index, flip'))
  }

  /** n frames on which the timer fires, walking with fixed mirroring. */
  function WalkTicks(n: nat, st: SpriteState, start: nat, end: nat, idle: nat, flipX: bool): SpriteState
    decreases n
  {
    if n == 0 then st
    else WalkTicks(n - 1, UpdateWalkSprite(st.movement, st.sprite, start, end, idle, true, false, flipX),
                   start, end, idle, flipX)
  }

  /** The two-frame walk cycle: from the idle frame, every second tick is
      back on idle with usedFirst toggled once, so the pose shown in between
      alternates between end and start. */
  lemma {:induction false} WalkCycleAlternates(n: nat, st: SpriteState, start: nat, end: nat, idle: nat, flipX: bool)
    requires start <= end && !(start <= idle <= end)
    requires st.movement.currentIndex == idle
    ensures WalkTicks(2 * n, st, start, end, idle, flipX).movement.currentIndex == idle
    ensures WalkTicks(2 * n, st, start, end, idle, flipX).movement.usedFirst == (st.movement.usedFirst != (n % 2 == 1))
    ensures WalkTicks(2 * n + 1, st, start, end, idle, flipX).movement.currentIndex ==
      if st.movement.usedFirst != (n % 2 == 1) then end else start
    decreases n
  {
    var st1 := UpdateWalkSprite(st.movement, st.sprite, start, end, idle, true, false, flipX);
    var st2 := UpdateWalkSprite(st1.movement, st1.sprite, start, end, idle, true, false, flipX);
    assert WalkTicks(2 * n + 1, st, start, end, idle, flipX) == WalkTicks(2 * n, st1, start, end, idle, flipX);
    if n > 0 {
      assert WalkTicks(2 * n, st, start, end, idle, flipX) == WalkTicks(2 * (n - 1), st2, start, end, idle, flipX);
      assert WalkTicks(2 * n + 1, st, start, end, idle, flipX) == WalkTicks(2 * (n - 1) + 1, st2, start, end, idle, flipX);
      WalkCycleAlternates(n - 1, st2, start, end, idle, flipX);
    }
  }

  /** Consecutive walk poses differ when the walk range has two frames. */
  lemma WalkPosesDiffer(n: nat, st: SpriteState, start: nat, end: nat, idle: nat, flipX: bool)
    requires start < end && !(start <= idle <= end)
    requires st.movement.currentIndex == idle
    ensures WalkTicks(2 * n + 1, st, start, end, idle, flipX).movement.currentIndex !=
            WalkTicks(2 * (n + 1) + 1, st, start, end, idle, flipX).movement.currentIndex
  {
    WalkCycleAlternates(n, st, start, end, idle, flipX);
    WalkCycleAlternates(n + 1, st, start, end, idle, flipX);
  }

  // ---------------------------------------------------------------------
  // update_movement_sided_sprite

  /** The first idle frame of a side's row, and the end of its idle range. */
  function IdleStart(side: Side): nat
  {
    match side
    case TOP => MOB_TOP_IDLE_START
    case BOTTOM => MOB_BOTTOM_IDLE_START
    case LEFT | RIGHT => MOB_SIDE_IDLE_START
  }

  function IdleEnd(side: Side): nat
  {
    match side
    case TOP => MOB_TOP_IDLE_END
    case BOTTOM => MOB_BOTTOM_IDLE_END
    case LEFT | RIGHT => MOB_SIDE_IDLE_END
  }

  function WalkStart(side: Side): nat
  {
    match side
    case TOP => MOB_TOP_WALK_START
    case BOTTOM => MOB_BOTTOM_WALK_START
    case LEFT | RIGHT => MOB_SIDE_WALK_START
  }

  function WalkEnd(side: Side): nat
  {
    match side
    case TOP => MOB_TOP_WALK_END
    case BOTTOM => MOB_BOTTOM_WALK_END
    case LEFT | RIGHT => MOB_SIDE_WALK_END
  }

  /** One mob's frame for its state and side: the idle range of the side's
      row, or its walk range with the row's first idle frame in between;
      the top and bottom walks mirror on every step from the idle frame and
      on a restart from an index outside the walk and off the idle frame,
      RIGHT mirrors the side row; a dragged mob keeps its frame. */
  function MovementSidedSprite(side: Side, m: SC.MultipleMovementState, sprite: AtlasSprite,
                               shouldIncrease: bool): (r: SpriteState)
    ensures m.state == DRAG ==> r == SpriteState(m, sprite)
    ensures m.state == IDLE ==>
      r == UpdateIdleSprite(m, sprite, IdleStart(side), IdleEnd(side), shouldIncrease, side == RIGHT)
    ensures m.state == WALK ==>
      r == UpdateWalkSprite(m, sprite, WalkStart(side), WalkEnd(side), IdleStart(side), shouldIncrease,
                            side in {TOP, BOTTOM}, side == RIGHT)
    ensures m.state == IDLE ==>
      && IdleStart(side) <= r.movement.currentIndex <= IdleEnd(side)
      && r.sprite.flipX == (side == RIGHT)
    ensures m.state == WALK ==>
      WalkStart(side) <= r.movement.currentIndex <= WalkEnd(side) || r.movement.currentIndex == IdleStart(side)
    ensures m.state == WALK && side in {LEFT, RIGHT} ==> r.sprite.flipX == (side == RIGHT)
    ensures m.state != DRAG ==>
      && InRow(r.movement.currentIndex, IdleStart(side), WalkEnd(side))
      && r.sprite.index == r.movement.currentIndex
      && r.movement.state == m.state
  {
    match m.state
    case IDLE =>
      (match side
       case TOP => UpdateIdleSprite(m, sprite, MOB_TOP_IDLE_START, MOB_TOP_IDLE_END, shouldIncrease, false)
       case BOTTOM => UpdateIdleSprite(m, sprite, MOB_BOTTOM_IDLE_START, MOB_BOTTOM_IDLE_END, shouldIncrease, false)
       case LEFT => UpdateIdleSprite(m, sprite, MOB_SIDE_IDLE_START, MOB_SIDE_IDLE_END, shouldIncrease, false)
       case RIGHT => UpdateIdleSprite(m, sprite, MOB_SIDE_IDLE_START, MOB_SIDE_IDLE_END, shouldIncrease, true))
    case WALK =>
      (match side
       case TOP => UpdateWalkSprite(m, sprite, MOB_TOP_WALK_START, MOB_TOP_WALK_END, MOB_TOP_IDLE_START,
                                    shouldIncrease, true, false)
       case BOTTOM => UpdateWalkSprite(m, sprite, MOB_BOTTOM_WALK_START, MOB_BOTTOM_WALK_END, MOB_BOTTOM_IDLE_START,
                                       shouldIncrease, true, false)
       case LEFT => UpdateWalkSprite(m, sprite, MOB_SIDE_WALK_START, MOB_SIDE_WALK_END, MOB_SIDE_IDLE_START,
                                     shouldIncrease, false, false)
       case RIGHT => UpdateWalkSprite(m, sprite, MOB_SIDE_WALK_START, MOB_SIDE_WALK_END, MOB_SIDE_IDLE_START,
                                      shouldIncrease, false, true))
    case DRAG => SpriteState(m, sprite)
  }

  function MovementSidedSpriteEntity(shouldIncrease: bool, e: Entity): Entity
  {
    if e.sided.Some? && e.sprite.Some? && e.movement.Some? then
      var r := MovementSidedSprite(e.sided.value, e.movement.value, e.sprite.value, shouldIncrease);
      e.(movement := Some(r.movement), sprite := Some(r.sprite))
    else e
  }

  method UpdateMovementSidedSprite(shouldIncrease: bool, a: array<Entity>)
    modifies a
    ensures forall k :: 0 <= k < a.Length ==> a[k] == MovementSidedSpriteEntity(shouldIncrease, old(a[k]))
  {
    ForEach(a, e => MovementSidedSpriteEntity(shouldIncrease, e));
  }

  // ---------------------------------------------------------------------
  // update_sided_sprite

  /** The frame of a static multi-sided sprite: one frame per side, the
      left and right sides sharing a frame told apart by mirroring. */
  function SidedSprite(side: Side, sprite: AtlasSprite): (r: AtlasSprite)
    ensures side == TOP ==> r.index == GENERAL_TOP
    ensures side == BOTTOM ==> r.index == GENERAL_BOTTOM
    ensures side in {LEFT, RIGHT} ==> r.index == GENERAL_SIDE
    ensures r.flipX <==> side == RIGHT
    ensures r.index < GENERAL_SPRITE_SHEET_COLS * GENERAL_SPRITE_SHEET_ROWS
  {
    match side
    case TOP => sprite.(index := GENERAL_TOP, flipX := false)
    case BOTTOM => sprite.(index := GENERAL_BOTTOM, flipX := false)
    case LEFT => sprite.(index := GENERAL_SIDE, flipX := false)
    case RIGHT => sprite.(index := GENERAL_SIDE, flipX := true)
  }

  /** Different sides never show the same picture. */
  lemma SidedSpriteInjective(s1: Side, s2: Side, sprite: AtlasSprite)
    requires s1 != s2
    ensures SidedSprite(s1, sprite) != SidedSprite(s2, sprite)
  {
  }

  function SidedSpriteEntity(e: Entity): Entity
  {
    if e.sided.Some? && e.sprite.Some? && e.movement.None? then
      e.(sprite := Some(SidedSprite(e.sided.value, e.sprite.value)))
    else e
  }

  method UpdateSidedSprite(a: array<Entity>)
    modifies a
    ensures forall k :: 0 <= k < a.Length ==> a[k] == SidedSpriteEntity(old(a[k]))
  {
    ForEach(a, SidedSpriteEntity);
  }

  // ---------------------------------------------------------------------
  // overlap_sprite_zones

  /** The depth step the source puts between two overlapping sprites. */
  const Z_STEP: real := 0.1

  predicate HasSpriteZone(e: Entity) { e.translation.Some? && e.spriteZone.Some? }

  function SpriteZonePos(e: Entity): Vec2
    requires HasSpriteZone(e)
  {
    var t, z := e.translation.value, e.spriteZone.value.zone;
    Vec2(t.x + z.offset.x, t.y + z.offset.y)
  }

  /** Closed overlap of two sprite zones, as the source writes it. */
  predicate ZonesOverlap(a: Entity, b: Entity)
    requires HasSpriteZone(a) && HasSpriteZone(b)
  {
    var aPos, bPos := SpriteZonePos(a), SpriteZonePos(b);
    var aLen := Vec2(aPos.x + a.spriteZone.value.zone.size.x, aPos.y + a.spriteZone.value.zone.size.y);
    var bLen := Vec2(bPos.x + b.spriteZone.value.zone.size.x, bPos.y + b.spriteZone.value.zone.size.y);
    !(aLen.y < bPos.y || aPos.y > bLen.y || aLen.x < bPos.x || aPos.x > bLen.x)
  }

  /** The overlap test does not depend on the order of the pair. */
  lemma ZonesOverlapSymmetric(a: Entity, b: Entity)
    requires HasSpriteZone(a) && HasSpriteZone(b)
    ensures ZonesOverlap(a, b) == ZonesOverlap(b, a)
  {
  }

  function SetDepth(e: Entity, z: real): Entity
    requires e.translation.Some?
  {
    e.(translation := Some(e.translation.value.(z := z)))
  }

  /** e' differs from e at most in the depth of its translation. */
  predicate OnlyDepthChanged(e': Entity, e: Entity)
  {
    && e'.translation.Some? == e.translation.Some?
    && e'.(translation := e.translation) == e
    && (e.translation.Some? ==> e'.translation.value.(z := e.translation.value.z) == e.translation.value)
  }

  /** One pair visit: of two overlapping zones, the one lower on the screen
      (smaller zone y) is put just in front of the other. */
  function OverlapPair(a: Entity, b: Entity): (r: (Entity, Entity))
    ensures OnlyDepthChanged(r.0, a) && OnlyDepthChanged(r.1, b)
    ensures !(HasSpriteZone(a) && HasSpriteZone(b) && ZonesOverlap(a, b)) ==> r == (a, b)
    ensures HasSpriteZone(a) && HasSpriteZone(b) && ZonesOverlap(a, b) ==>
      if SpriteZonePos(a).y < SpriteZonePos(b).y
      then r.1 == b && r.0.translation.value.z == b.translation.value.z + Z_STEP
      else r.0 == a && r.1.translation.value.z == a.translation.value.z + Z_STEP
    ensures HasSpriteZone(a) && HasSpriteZone(b) && ZonesOverlap(a, b) ==>
      (r.0.translation.value.z > r.1.translation.value.z) == (SpriteZonePos(a).y < SpriteZonePos(b).y)
  {
    if HasSpriteZone(a) && HasSpriteZone(b) && ZonesOverlap(a, b) then
      if SpriteZonePos(a).y < SpriteZonePos(b).y then (SetDepth(a, b.translation.value.z + Z_STEP), b)
      else (a, SetDepth(b, a.translation.value.z + Z_STEP))
    else (a, b)
  }

  /** A whole pass changes depths only. */
  lemma OverlapPassOnlyDepths(s: seq<Entity>)
    ensures Related(AllPairs(s, 0, OverlapPair), s, OnlyDepthChanged)
  {
    AllPairsRespects(s, 0, OverlapPair, OnlyDepthChanged);
  }

  method OverlapSpriteZones(a: array<Entity>)
    modifies a
    ensures a[..] == AllPairs(old(a[..]), 0, OverlapPair)
    ensures forall k :: 0 <= k < a.Length ==> OnlyDepthChanged(a[k], old(a[k]))
  {
    ForEachPair(a, OverlapPair);
    OverlapPassOnlyDepths(old(a[..]));
  }

  function ZonedAt(y: real, z: real): Entity
  {
    Entity(Some(Vec3(0.0, y, z)), None, None, None, Some(SpriteZoneDefault()), None, None, None, None)
  }

  /** Zones at y = 5 and y = 10 (both 16x16) overlap; the one at y = 5 is
      drawn in front of the other. */
  lemma DepthOrderExample(za: real, zb: real)
    ensures OverlapPair(ZonedAt(5.0, za), ZonedAt(10.0, zb)) == (ZonedAt(5.0, zb + Z_STEP), ZonedAt(10.0, zb))
  {
  }
}
