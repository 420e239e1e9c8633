/** The older revision of the physics systems (src/game/general/physics/mod.rs),
    kept beside the current one so the two can be compared. Its Physical and
    SelfPhysical components and their per-identifier defaults are the same as
    the current ones and are used from PhysicsComponents. Its MultipleSided
    marker is modelled as the presence of a side. */
module LegacyPhysics {
  import opened PhysicsComponents
  import opened World
  import opened PhysicsSystems
  import SpriteSystems

  // ---------------------------------------------------------------------
  // update_sprites, update_atlas_sprites

  /** The older sheet's frame for a side: frame 0 for both horizontal sides,
      mirrored for LEFT, then 1 for BOTTOM and 2 for TOP. */
  function LegacyFrame(side: Side, sprite: AtlasSprite): AtlasSprite
  {
    match side
    case RIGHT => sprite.(index := 0, flipX := false)
    case LEFT => sprite.(index := 0, flipX := true)
    case BOTTOM => sprite.(index := 1, flipX := false)
    case TOP => sprite.(index := 2, flipX := false)
  }

  /** The sprite picked from the facing direction, X before Y; a direction
      whose two components are both below 0.01 in size leaves it as it was. */
  function UpdateAtlasSprites(p: Physical, sp: Option<SelfPhysical>, sprite: AtlasSprite): (r: AtlasSprite)
    ensures var d := FacingSource(p, sp);
      && (d.x >= 0.01 ==> r == sprite.(index := 0, flipX := false))
      && (d.x <= -0.01 ==> r == sprite.(index := 0, flipX := true))
      && (-0.01 < d.x < 0.01 && d.y <= -0.01 ==> r == sprite.(index := 1, flipX := false))
      && (-0.01 < d.x < 0.01 && d.y >= 0.01 ==> r == sprite.(index := 2, flipX := false))
      && (-0.01 < d.x < 0.01 && -0.01 < d.y < 0.01 ==> r == sprite)
    ensures r.index <= 2 || r == sprite
  {
    var d := FacingSource(p, sp);
    var x := Trunc2(d.x);
    var y := Trunc2(d.y);
    if x > 0.0 then sprite.(index := 0, flipX := false)
    else if x < 0.0 then sprite.(index := 0, flipX := true)
    else if y < 0.0 then sprite.(index := 1, flipX := false)
    else if y > 0.0 then sprite.(index := 2, flipX := false)
    else sprite
  }

  /** The two revisions agree on the side an actor faces: the older sprite
      is the older sheet's frame for the side the current revision picks,
      and both leave things as they were for a direction too small to see.
      Only the mirroring of the horizontal frame is reversed between the
      older sheet and the current general sheet. */
  lemma SpriteFollowsSide(p: Physical, sp: Option<SelfPhysical>, sprite: AtlasSprite, current: Side)
    ensures var d := FacingSource(p, sp);
      if -0.01 < d.x < 0.01 && -0.01 < d.y < 0.01
      then UpdateAtlasSprites(p, sp, sprite) == sprite && SideFor(d, current) == current
      else UpdateAtlasSprites(p, sp, sprite) == LegacyFrame(SideFor(d, current), sprite)
    ensures forall side :: side in {LEFT, RIGHT} ==>
      LegacyFrame(side, sprite).flipX != SpriteSystems.SidedSprite(side, sprite).flipX
  {
  }

  function LegacySpriteEntity(e: Entity): Entity
  {
    if e.physical.Some? && e.sided.Some? && e.sprite.Some? then
      e.(sprite := Some(UpdateAtlasSprites(e.physical.value, e.selfPhysical, e.sprite.value)))
    else e
  }

  /** Every entity with a Physical and a side gets its sprite from its
      facing; such an entity without a sprite is a fatal error in the
      source, so the store must have none. */
  method UpdateSprites(a: array<Entity>)
    requires forall k :: 0 <= k < a.Length && a[k].physical.Some? && a[k].sided.Some? ==> a[k].sprite.Some?
    modifies a
    ensures forall k :: 0 <= k < a.Length ==> a[k] == LegacySpriteEntity(old(a[k]))
    ensures forall k :: 0 <= k < a.Length && old(a[k]).physical.Some? && old(a[k]).sided.Some? ==>
      a[k].sprite == Some(UpdateAtlasSprites(old(a[k]).physical.value, old(a[k]).selfPhysical, old(a[k]).sprite.value))
  {
    ForEach(a, LegacySpriteEntity);
  }

  // ---------------------------------------------------------------------
  // direction_react

  /** A Physical and the translation, for an entity that may lack a Transform. */
  datatype LegacyMotion = LegacyMotion(physical: Physical, translation: Option<Vec3>)

  /** The actor's own displacement: added whenever it outruns the push. */
  function LegacySelfDisplacement(dt: real, p: Physical, sp: Option<SelfPhysical>): Vec3
  {
    if sp.Some? && sp.value.speed > p.acceleration
    then Scale3(Scale3(sp.value.direction, dt), sp.value.speed)
    else ZERO3
  }

  /** One integration step of the older revision: the push direction is
      always normalised and the acceleration always decays, with or without
      a Transform; with one, the actor's displacement and then the push's
      (with the acceleration before decay) are added. */
  function LegacyDirectionReact(dt: real, norm: Vec3 -> Vec3, p: Physical, sp: Option<SelfPhysical>,
                                t: Option<Vec3>): (m: LegacyMotion)
    ensures m.physical == Physical(norm(p.direction), p.weight, Clamp(p.acceleration - p.weight))
    ensures m.translation.Some? == t.Some?
    ensures t.Some? ==>
      m.translation.value ==
        Add3(Add3(t.value, LegacySelfDisplacement(dt, p, sp)), Scale3(Scale3(norm(p.direction), dt), p.acceleration))
  {
    var d := norm(p.direction);
    var physical := Physical(d, p.weight, Clamp(p.acceleration - p.weight));
    if t.Some? then
      var t1 := Add3(t.value, LegacySelfDisplacement(dt, p, sp));
      LegacyMotion(physical, Some(Add3(t1, Scale3(Scale3(d, dt), p.acceleration))))
    else LegacyMotion(physical, None)
  }

  /** n steps of the older integration with the same actor. */
  function LegacySteps(n: nat, dt: real, norm: Vec3 -> Vec3, m: LegacyMotion, sp: Option<SelfPhysical>): LegacyMotion
    decreases n
  {
    if n == 0 then m else LegacySteps(n - 1, dt, norm, LegacyDirectionReact(dt, norm, m.physical, sp, m.translation), sp)
  }

  /** The older revision decays every entity's acceleration every step,
      pushed or not: after n steps it is max(0, acceleration - n * weight). */
  lemma LegacyAlwaysDecays(n: nat, dt: real, norm: Vec3 -> Vec3, m: LegacyMotion, sp: Option<SelfPhysical>)
    requires 0.0 <= m.physical.weight && 0.0 <= m.physical.acceleration <= F32_MAX
    ensures LegacySteps(n, dt, norm, m, sp).physical.acceleration ==
      LinearDecay(n, m.physical.acceleration, m.physical.weight)
    ensures LegacySteps(n, dt, norm, m, sp).physical.weight == m.physical.weight
    ensures LegacySteps(n, dt, norm, m, sp).translation.Some? == m.translation.Some?
  {
    LegacyStepsDecayed(n, dt, norm, m, sp);
    DecayedClosedForm(n, m.physical.acceleration, m.physical.weight);
  }

  lemma {:induction false} LegacyStepsDecayed(n: nat, dt: real, norm: Vec3 -> Vec3, m: LegacyMotion, sp: Option<SelfPhysical>)
    ensures LegacySteps(n, dt, norm, m, sp).physical.acceleration ==
      Decayed(n, m.physical.acceleration, m.physical.weight)
    ensures LegacySteps(n, dt, norm, m, sp).physical.weight == m.physical.weight
    ensures LegacySteps(n, dt, norm, m, sp).translation.Some? == m.translation.Some?
    decreases n
  {
    if n > 0 {
      LegacyStepsDecayed(n - 1, dt, norm, LegacyDirectionReact(dt, norm, m.physical, sp, m.translation), sp);
    }
  }

  /** For a pushed entity with a Transform the two revisions take the same step. */
  lemma RevisionsAgreeWhenPushed(dt: real, norm: Vec3 -> Vec3, p: Physical, sp: Option<SelfPhysical>, t: Vec3)
    requires p.direction != ZERO3
    ensures var m := DirectionReact(dt, norm, p, sp, t);
      LegacyDirectionReact(dt, norm, p, sp, Some(t)) == LegacyMotion(m.physical, Some(m.translation))
  {
    if sp.Some? && sp.value.direction == ZERO3 {
      assert Scale3(Scale3(sp.value.direction, dt), sp.value.speed) == ZERO3;
    }
  }

  /** Without a push the revisions move the entity alike, but only the older
      one decays the acceleration: they disagree exactly when a decay step
      changes it. */
  lemma RevisionsDifferWhenUnpushed(dt: real, norm: Vec3 -> Vec3, p: Physical, sp: Option<SelfPhysical>, t: Vec3)
    requires NormalizesOrZero(norm)
    requires p.direction == ZERO3
    ensures var m := DirectionReact(dt, norm, p, sp, t);
      var l := LegacyDirectionReact(dt, norm, p, sp, Some(t));
      && l.translation == Some(m.translation)
      && m.physical == p
      && (l.physical == m.physical <==> Clamp(p.acceleration - p.weight) == p.acceleration)
  {
    if sp.Some? && sp.value.direction == ZERO3 {
      assert Scale3(Scale3(sp.value.direction, dt), sp.value.speed) == ZERO3;
    }
    var t1 := Add3(t, LegacySelfDisplacement(dt, p, sp));
    assert Scale3(Scale3(norm(p.direction), dt), p.acceleration) == ZERO3;
    assert Add3(t1, ZERO3) == t1;
  }

  function LegacyDirectionReactEntity(dt: real, norm: Vec3 -> Vec3, e: Entity): Entity
  {
    if e.physical.Some? then
      var m := LegacyDirectionReact(dt, norm, e.physical.value, e.selfPhysical, e.translation);
      e.(physical := Some(m.physical), translation := m.translation)
    else e
  }

  method LegacyDirectionReactSystem(dt: real, norm: Vec3 -> Vec3, a: array<Entity>)
    modifies a
    ensures forall k :: 0 <= k < a.Length ==> a[k] == LegacyDirectionReactEntity(dt, norm, old(a[k]))
  {
    ForEach(a, e => LegacyDirectionReactEntity(dt, norm, e));
  }
}
