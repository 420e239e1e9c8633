/** Component datatypes of the physics module and the identifier tables that
    give each level entity its starting components
    (src/modules/physics/components.rs). Vectors are `real`; f32 rounding is
    not modelled. */
module PhysicsComponents {

  datatype Option<T> = None | Some(value: T)

  datatype Vec2 = Vec2(x: real, y: real)
  datatype Vec3 = Vec3(x: real, y: real, z: real)

  const ZERO2 := Vec2(0.0, 0.0)
  const ZERO3 := Vec3(0.0, 0.0, 0.0)

  function Add3(a: Vec3, b: Vec3): Vec3 { Vec3(a.x + b.x, a.y + b.y, a.z + b.z) }
  function Scale3(v: Vec3, k: real): Vec3 { Vec3(v.x * k, v.y * k, v.z * k) }

  /** Facing of a multi-sided entity. */
  datatype Side = BOTTOM | LEFT | RIGHT | TOP
  /** Animation mode of an entity. */
  datatype MovementState = IDLE | WALK | DRAG

  const DEFAULT_SIDE: Side := BOTTOM
  const DEFAULT_MOVEMENT_STATE: MovementState := IDLE

  lemma EnumDefaults()
    ensures DEFAULT_SIDE == BOTTOM && DEFAULT_MOVEMENT_STATE == IDLE
  {
  }

  /** The older MultipleMovementState of this file, whose Default is derived. */
  datatype MultipleMovementState = MultipleMovementState(currentIndex: nat, state: MovementState, usedFirst: bool)

  function MultipleMovementStateDefault(): (m: MultipleMovementState)
    ensures m.currentIndex == 0 && m.state == DEFAULT_MOVEMENT_STATE && !m.usedFirst
  {
    MultipleMovementState(0, DEFAULT_MOVEMENT_STATE, false)
  }

  /** Pushed motion: a direction, a damping weight and the push's acceleration. */
  datatype Physical = Physical(direction: Vec3, weight: real, acceleration: real)

  /** Actor-willed motion: a direction and a base speed. */
  datatype SelfPhysical = SelfPhysical(direction: Vec3, speed: real)

  /** An axis-aligned box given by its size and its offset from the entity's translation. */
  datatype TransformZone = TransformZone(size: Vec2, offset: Vec2)

  datatype Collider = Collider(zone: TransformZone)
  datatype SpriteZone = SpriteZone(zone: TransformZone)

  predicate PositiveZone(z: TransformZone) { z.size.x > 0.0 && z.size.y > 0.0 }

  function PhysicalDefault(): Physical { Physical(ZERO3, 0.0, 0.0) }

  function PhysicalFrom(identifier: string): (p: Physical)
    ensures p.direction == ZERO3 && p.acceleration == 0.0
    ensures identifier == "Player" ==> p.weight == 2.5
    ensures identifier != "Player" ==> p == PhysicalDefault()
  {
    if identifier == "Player" then PhysicalDefault().(weight := 2.5)
    else PhysicalDefault()
  }

  function ColliderDefault(): Collider { Collider(TransformZone(Vec2(16.0, 10.0), ZERO2)) }

  function ColliderFrom(identifier: string): (c: Collider)
    ensures PositiveZone(c.zone)
    ensures identifier == "Player" ==> c.zone == TransformZone(Vec2(16.0, 4.5), Vec2(0.0, -8.0))
    ensures identifier == "Rock" ==> c.zone == TransformZone(Vec2(28.0, 20.0), Vec2(-6.0, -8.0))
    ensures identifier != "Player" && identifier != "Rock" ==> c == ColliderDefault()
  {
    if identifier == "Player" then Collider(TransformZone(Vec2(16.0, 4.5), Vec2(0.0, -8.0)))
    else if identifier == "Rock" then Collider(TransformZone(Vec2(28.0, 20.0), Vec2(-6.0, -8.0)))
    else ColliderDefault()
  }

  function SpriteZoneDefault(): SpriteZone { SpriteZone(TransformZone(Vec2(16.0, 16.0), ZERO2)) }

  /** The sprite-zone table of this file; the live table, which also knows
      "Elf", is SpriteComponents.SpriteZoneFrom. */
  function SpriteZoneFrom(identifier: string): (s: SpriteZone)
    ensures PositiveZone(s.zone)
    ensures identifier == "Player" ==> s.zone == TransformZone(Vec2(16.0, 32.0), Vec2(0.0, -8.0))
    ensures identifier == "Rock" ==> s.zone == TransformZone(Vec2(32.0, 32.0), Vec2(-6.0, -8.0))
    ensures identifier != "Player" && identifier != "Rock" ==> s == SpriteZoneDefault()
  {
    if identifier == "Player" then SpriteZone(TransformZone(Vec2(16.0, 32.0), Vec2(0.0, -8.0)))
    else if identifier == "Rock" then SpriteZone(TransformZone(Vec2(32.0, 32.0), Vec2(-6.0, -8.0)))
    else SpriteZoneDefault()
  }

  function SelfPhysicalDefault(): SelfPhysical { SelfPhysical(ZERO3, 1.0) }

  function SelfPhysicalFrom(identifier: string): (s: SelfPhysical)
    ensures s.direction == ZERO3
    ensures s.speed == (if identifier == "Player" then 50.0 else 1.0)
    ensures s.speed > 0.0
  {
    if identifier == "Player" then SelfPhysicalDefault().(speed := 50.0)
    else SelfPhysicalDefault()
  }
}
