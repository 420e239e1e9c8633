/** Components of the sprite-change module
    (src/modules/physics/sprite_change/components.rs): the per-entity
    animation state and the sprite-zone table the systems use. The Side and
    MovementState enums this file declares are the same as those of
    PhysicsComponents and are used from there. */
module SpriteComponents {
  import opened PhysicsComponents
  import opened SpriteConsts

  /** The configuration of an engine timer: its duration in seconds and whether it repeats. */
  datatype Timer = Timer(duration: real, repeating: bool)

  /** Animation state of a mob: the frame shown, the mode, which of the two
      walk poses comes next, and the frame timer. */
  datatype MultipleMovementState = MultipleMovementState(
    currentIndex: nat, state: MovementState, usedFirst: bool, defaultDuration: real, timer: Timer)

  function MultipleMovementStateDefault(): (m: MultipleMovementState)
    ensures m.currentIndex == MOB_BOTTOM_IDLE_START && m.state == IDLE && !m.usedFirst
    ensures m.defaultDuration == 0.2
    ensures m.timer.duration == m.defaultDuration && m.timer.repeating
    ensures MOB_BOTTOM_IDLE_START <= m.currentIndex < MOB_BOTTOM_IDLE_END
  {
    MultipleMovementState.MultipleMovementState(MOB_BOTTOM_IDLE_START, IDLE, false, 0.2, Timer(0.2, true))
  }

  /** The live sprite-zone table: "Player" and "Elf" share a zone. */
  function SpriteZoneFrom(identifier: string): (s: SpriteZone)
    ensures PositiveZone(s.zone)
    ensures identifier == "Player" || identifier == "Elf" ==>
      s.zone == TransformZone(Vec2(16.0, 32.0), Vec2(0.0, -8.0))
    ensures identifier == "Rock" ==> s.zone == TransformZone(Vec2(32.0, 32.0), Vec2(-6.0, -8.0))
    ensures identifier !in {"Player", "Elf", "Rock"} ==> s == SpriteZoneDefault()
    ensures identifier != "Elf" ==> s == PhysicsComponents.SpriteZoneFrom(identifier)
  {
    if identifier == "Player" || identifier == "Elf" then SpriteZone(TransformZone(Vec2(16.0, 32.0), Vec2(0.0, -8.0)))
    else if identifier == "Rock" then SpriteZone(TransformZone(Vec2(32.0, 32.0), Vec2(-6.0, -8.0)))
    else SpriteZoneDefault()
  }
}
