# age-discovery physics, sprite and mob model

A Dafny model of the per-frame game logic of *age-discovery*, a top-down 2D
game built on the Bevy engine. The model covers:

- **Physics systems.** Each entity's movement state (IDLE / WALK / DRAG) and
  facing side are derived from its pushed motion (`Physical`) and its own
  motion (`SelfPhysical`). The translation is integrated with a decaying
  push. Collisions are resolved per axis over every pair of colliders.
- **Sprite systems.** Frames are picked from a mob sprite sheet: an idle
  cycle over a range of frames and a walk cycle that alternates two poses
  around an idle frame. Static multi-sided sprites use a side table. Draw
  order is decided by overlapping sprite zones.
- **Mob systems.** Steering toward a desired position, and the
  Idle / WalkTo / Attack desire machine.
- **The older physics revision** in `src/game/general/physics/mod.rs`, with
  lemmas that compare it to the current one.
- **The component types, their defaults and the per-identifier tables** that
  give level entities their starting components, plus the sprite-sheet
  constants.

**Entity store.** The engine keeps components in its own tables and hands
each system the entities that carry what it queries. Here an entity is a
record with an optional slot per component (`World.Entity`), and a store is
an `array<Entity>`. Every system is a method over that array.
`World.ForEach` is the engine's per-entity query loop. `World.ForEachPair`
is its loop over unordered pairs (i < j, in index order). Each per-entity or
per-pair step is a function, and each method is proved equal to a fold of
that function over the old array contents. The properties of the frame are
proved about those functions and carried over to the methods by generic
preservation lemmas.

**Numbers.** Positions, directions, weights and depths are `real`.
`f32::trunc` is real truncation toward zero, and `clamp(0, f32::MAX)` keeps
the upper bound `F32_MAX`.

**Inputs.** Everything that the engine supplies is a parameter:

- the frame time `dt`;
- `normalize_or_zero` (`norm`) and `normalize`;
- whether a timer finished this frame (`shouldIncrease`; `fired` per entity);
- the random draws: the `gen_range(0..2)` choice, and for each position draw
  its offset into the range, so `gen_range(lo..hi)` is `lo + offset`.

**Collision edge cases.** The X and Y probes are tested separately, against
the box as it stands on the other axis. When the X probe, not at (0, 0), touches
the target and the Y probe misses it, the X motion is dropped and the Y motion kept
(`PhysicsSystems.SlideAlongWall`; `PhysicsSystems.WallSlide` is one case,
a box 1 unit left of a wall moving (1, 1)). Colliders that overlap by at least the move on each axis lose both
components, unless a probe lands on (0, 0)
(`PhysicsSystems.OverlapStopsSmallMoves`; `PhysicsSystems.OverlapBlocksBoth`
is one case). `check_future` never reports a collision for a probe at exactly (0, 0), so
the same approach is stopped or let through depending on absolute position
(`PhysicsSystems.OriginProbeNeverBlocks`). The model keeps this as written.

## Model

| member | source | states |
|---|---|---|
| PhysicsComponents.EnumDefaults | src/modules/physics/components.rs:12-25 | the default side is BOTTOM and the default movement state IDLE |
| PhysicsComponents.MultipleMovementStateDefault | src/modules/physics/components.rs:32-37 | the older derived default: frame 0, IDLE, first pose not used |
| PhysicsComponents.PhysicalFrom | src/modules/physics/components.rs:51-58 | every entity starts unpushed with zero acceleration; "Player" has weight 2.5, any other identifier gets the default (the older revision, src/game/general/physics/mod.rs:18-25, has the same table) |
| PhysicsComponents.ColliderFrom | src/modules/physics/components.rs:69-83 | "Player" 16×4.5 at (0, −8), "Rock" 28×20 at (−6, −8), else the 16×10 default; every collider has positive size |
| PhysicsComponents.SpriteZoneFrom | src/modules/physics/components.rs:88-102 | this file's table: "Player" 16×32 at (0, −8), "Rock" 32×32 at (−6, −8), else 16×16 at 0; sizes positive |
| PhysicsComponents.SelfPhysicalFrom | src/modules/physics/components.rs:110-126 | no initial own motion; speed 50 for "Player", 1 otherwise, always positive (the older revision, src/game/general/physics/mod.rs:33-49, has the same table) |
| SpriteConsts.WalkFollowsIdle | src/modules/physics/sprite_change/consts.rs:12-28 | in every row the walk range begins right after the idle range |
| SpriteConsts.WalkRangeWidths | src/modules/physics/sprite_change/consts.rs:15-28 | top and bottom walks are one frame, the side walk two |
| SpriteConsts.IdleStartsAtRowStarts | src/modules/physics/sprite_change/consts.rs:9-24 | the bottom, side and top idle ranges start at frames 0, COLS and 2·COLS, the first frame of rows 0, 1 and 2 of the sheet |
| SpriteConsts.RowsDisjoint | src/modules/physics/sprite_change/consts.rs:12-28 | no frame belongs to two rows |
| SpriteConsts.MobFramesOnSheet | src/modules/physics/sprite_change/consts.rs:9-28 | each row's frames lie in that row of the 5×3 sheet |
| SpriteConsts.GeneralFramesOnSheet | src/modules/physics/sprite_change/consts.rs:3-7 | the three general frames are distinct and on the 3×1 sheet |
| SpriteComponents.MultipleMovementStateDefault | src/modules/physics/sprite_change/components.rs:44-51 | a new mob shows the first bottom idle frame, IDLE, with a repeating 0.2 s frame timer |
| SpriteComponents.SpriteZoneFrom | src/modules/physics/sprite_change/components.rs:67-75 | the live table: "Elf" shares "Player"'s 16×32 zone; otherwise it agrees with the older table |
| World.ForEach | src/modules/physics/systems.rs:10 | every entity is replaced by the step applied to it, and nothing else changes |
| World.PairStep | src/modules/physics/systems.rs:76-89 | one pair visit changes only the two entities of the pair |
| World.ForEachPair | src/modules/physics/systems.rs:75-76 | the store ends as the fold of the step over all pairs i < j in index order |
| World.RowPairsRespects | src/modules/physics/systems.rs:75-76 | the visits of one row keep every entity related to its old value by any reflexive, transitive relation each visit keeps |
| World.AllPairsRespects | src/modules/physics/systems.rs:75-76 | likewise for a whole pass over all pairs |
| PhysicsSystems.MovementStateFor | src/modules/physics/systems.rs:11-21 | WALK iff a SelfPhysical moves in x/y and it outruns the push or there is none; else DRAG iff pushed in x/y; else IDLE |
| PhysicsSystems.UpdateMovementStateByDirection | src/modules/physics/systems.rs:7-24 | every entity with a movement state and a Physical gets the state above; others are untouched |
| PhysicsSystems.Trunc2 | src/modules/physics/systems.rs:38-39 | truncation to two decimals is positive, negative or zero exactly when the value is ≥ 0.01, ≤ −0.01 or in between |
| PhysicsSystems.FacingSource | src/modules/physics/systems.rs:30-36 | the facing follows the own direction iff a SelfPhysical outruns the push, else the push direction |
| PhysicsSystems.SideFor | src/modules/physics/systems.rs:38-52 | X decides before Y: RIGHT, LEFT, BOTTOM, TOP at the ±0.01 thresholds; a direction below 0.01 on both axes keeps the side |
| PhysicsSystems.HorizontalPriority | src/modules/physics/systems.rs:41-46 | a visible X component always gives LEFT or RIGHT |
| PhysicsSystems.FacingIgnoresNoise | src/modules/physics/systems.rs:38-39 | directions that agree to two decimals face the same side |
| PhysicsSystems.UpdateSidedsByDirection | src/modules/physics/systems.rs:26-54 | each entity with a Physical and a side faces as above; others are untouched |
| PhysicsSystems.Clamp | src/modules/physics/systems.rs:69 | the result lies in [0, F32_MAX], equals the input there, and is 0 below it |
| PhysicsSystems.DirectionReact | src/modules/physics/systems.rs:59-70 | a zero push leaves the Physical untouched; otherwise the direction is normalised, the push displacement uses the acceleration before decay, the new acceleration is max(0, acceleration − weight); the own displacement is added only when moving and outrunning the push |
| PhysicsSystems.IdleEntityStaysPut | src/modules/physics/systems.rs:60-70 | without a push and without own motion that outruns it, nothing changes |
| PhysicsSystems.StepsDecay | src/modules/physics/systems.rs:66-69 | over n steps a push stays non-zero, keeps its weight, and its acceleration decays once per step |
| PhysicsSystems.DecayedClosedForm | src/modules/physics/systems.rs:69 | n decays of a non-negative weight leave max(0, acceleration − n·weight), never more than the start |
| PhysicsSystems.PushDecays | src/modules/physics/systems.rs:66-69 | a push's acceleration after n frames is max(0, acceleration − n·weight) |
| PhysicsSystems.PushThenRelease | src/modules/physics/systems.rs:66-69 | a push of 10 with weight 2.5 decays 7.5, 5, 2.5, 0, 0 |
| PhysicsSystems.DirectionReactSystem | src/modules/physics/systems.rs:56-72 | every entity with a Physical and a Transform takes one step; others are untouched |
| PhysicsSystems.CheckFuture | src/modules/physics/systems.rs:123-142 | a probe collides iff it is not at (0, 0) and its box meets the target's (closed intervals, touching counts) on both axes |
| PhysicsSystems.Collide | src/modules/physics/systems.rs:110-121 | X and Y of the push are zeroed exactly where the X or Y probe of the entry direction collides; z, weight and acceleration are kept |
| PhysicsSystems.CollideSelf | src/modules/physics/systems.rs:92-108 | probes use push plus own direction taken before any zeroing; a blocked axis is zeroed in both, nothing else changes |
| PhysicsSystems.CollideIdempotent | src/modules/physics/systems.rs:110-121 | resolving against the same target twice is the same as once |
| PhysicsSystems.CollideSelfIdempotent | src/modules/physics/systems.rs:92-108 | likewise for an entity with a SelfPhysical |
| PhysicsSystems.ResolveCollision | src/modules/physics/systems.rs:77-89 | the first entity is resolved when it has a Physical, otherwise the second when it has one; a pair with no Physical or outside the query is untouched; at most one entity changes and only by zeroed direction components |
| PhysicsSystems.CollisionPassOnlyZeroes | src/modules/physics/systems.rs:74-90 | after a full pass every entity differs from before at most by zeroed X/Y direction components |
| PhysicsSystems.ColliderDirectionReact | src/modules/physics/systems.rs:74-90 | the store ends as the pass over all pairs, and every entity only lost direction components |
| PhysicsSystems.SlideAlongWall | src/modules/physics/systems.rs:110-142 | whenever the X probe, not at (0, 0), touches the target and the Y probe misses it (apart on X, or clear on Y after the move), the X motion is zeroed and the Y and Z motion kept |
| PhysicsSystems.WallSlide | src/modules/physics/systems.rs:110-142 | one instance: a 16×10 box at (−17, 0) moving (1, 1) beside one at (0, 0) keeps only its Y motion |
| PhysicsSystems.OverlapStopsSmallMoves | src/modules/physics/systems.rs:110-142 | boxes that overlap by at least the size of the move on each axis zero both components when neither probe lands on (0, 0) |
| PhysicsSystems.OverlapBlocksBoth | src/modules/physics/systems.rs:110-142 | one instance: 16×10 boxes at (0, 0) and (10, 0) zero a move of (1, 1) on both axes |
| PhysicsSystems.OriginProbeNeverBlocks | src/modules/physics/systems.rs:125-141 | the same approach is let through onto (0, 0) and stopped elsewhere |
| SpriteSystems.UpdateIdleSprite | src/modules/physics/sprite_change/systems.rs:102-114 | an index outside [start, end) snaps to start; otherwise it advances by one exactly on a tick; it stays in [start, end]; the sprite shows it with the given mirroring |
| SpriteSystems.UpdateWalkSprite | src/modules/physics/sprite_change/systems.rs:68-100 | the index ends in [start, end] or on idle; a stray index restarts at start with first pose used (mirrored when auto-flipping); without a tick nothing moves; a tick on a pose returns to idle; a tick on idle goes to end if the first pose was used, else start, toggling it, or mirrors in auto-flip mode; without auto-flip the mirroring is the given one |
| SpriteSystems.WalkCycleAlternates | src/modules/physics/sprite_change/systems.rs:79-93 | from idle, every second tick is back on idle with the pose flag toggled once, so the poses shown alternate end, start, … |
| SpriteSystems.WalkPosesDiffer | src/modules/physics/sprite_change/systems.rs:79-93 | consecutive poses of a two-frame walk differ |
| SpriteSystems.MovementSidedSprite | src/modules/physics/sprite_change/systems.rs:15-64 | IDLE is the idle step on the side's idle range, mirrored only for RIGHT; WALK is the walk step on the side's walk range with the row's first idle frame in between, auto-flipping for TOP and BOTTOM and fixed unmirrored for LEFT, mirrored for RIGHT; DRAG changes nothing; the frame stays in the side's row |
| SpriteSystems.UpdateMovementSidedSprite | src/modules/physics/sprite_change/systems.rs:6-66 | each entity with a side, a sprite and a movement state gets the frame above; others are untouched |
| SpriteSystems.SidedSprite | src/modules/physics/sprite_change/systems.rs:119-136 | TOP, BOTTOM and the shared side frame of the general sheet; mirrored iff RIGHT |
| SpriteSystems.SidedSpriteInjective | src/modules/physics/sprite_change/systems.rs:119-136 | different sides never show the same picture |
| SpriteSystems.UpdateSidedSprite | src/modules/physics/sprite_change/systems.rs:117-138 | only entities with a side and a sprite but no movement state change, by the table above |
| SpriteSystems.ZonesOverlapSymmetric | src/modules/physics/sprite_change/systems.rs:157-162 | the overlap test does not depend on the order of the pair |
| SpriteSystems.OverlapPair | src/modules/physics/sprite_change/systems.rs:143-169 | of two overlapping zones, the one lower on screen is set 0.1 in front of the other and the other is untouched; only depth changes; other pairs are untouched |
| SpriteSystems.OverlapPassOnlyDepths | src/modules/physics/sprite_change/systems.rs:140-171 | a full pass changes nothing but depths |
| SpriteSystems.OverlapSpriteZones | src/modules/physics/sprite_change/systems.rs:140-171 | the store ends as the pass over all pairs, and only depths changed |
| SpriteSystems.DepthOrderExample | src/modules/physics/sprite_change/systems.rs:157-168 | of 16×16 zones at y = 5 and y = 10, the lower one is drawn 0.1 in front |
| LegacyPhysics.UpdateAtlasSprites | src/game/general/physics/mod.rs:71-99 | X before Y at the ±0.01 thresholds: frame 0 unmirrored or mirrored, then 1 for down, 2 for up; a direction below 0.01 on both axes keeps the sprite |
| LegacyPhysics.SpriteFollowsSide | src/game/general/physics/mod.rs:71-99 | the older sprite is the older sheet's frame of the side the current revision faces; the horizontal mirroring is reversed between the two sheets |
| LegacyPhysics.UpdateSprites | src/game/general/physics/mod.rs:59-69 | every entity with a Physical and a side gets its sprite from its facing; one without a sprite is excluded by the precondition, as the source aborts |
| LegacyPhysics.LegacyDirectionReact | src/game/general/physics/mod.rs:101-117 | the direction is always normalised and the acceleration always decays, with or without a Transform; with one, the own displacement is added whenever it outruns the push, then the push displacement |
| LegacyPhysics.LegacyStepsDecayed | src/game/general/physics/mod.rs:109-114 | n steps decay the acceleration n times and keep weight and Transform presence |
| LegacyPhysics.LegacyAlwaysDecays | src/game/general/physics/mod.rs:109-114 | after n steps every entity's acceleration is max(0, acceleration − n·weight), pushed or not |
| LegacyPhysics.RevisionsAgreeWhenPushed | src/game/general/physics/mod.rs:101-117 | for a pushed entity with a Transform the two revisions take the same step |
| LegacyPhysics.RevisionsDifferWhenUnpushed | src/game/general/physics/mod.rs:101-117 | without a push both move the entity alike; they disagree exactly when decay changes the acceleration |
| LegacyPhysics.LegacyDirectionReactSystem | src/game/general/physics/mod.rs:101-118 | every entity with a Physical takes one older step; others are untouched |
| LivingSystems.MobDirection | src/modules/living/systems.rs:11-19 | WalkTo writes the normalised target offset into x and y and keeps z; any other intention stops the mob |
| LivingSystems.MobHeadsForTarget | src/modules/living/systems.rs:12-15 | a walking mob that is not on its target moves toward the target's side on each axis, for any normalisation that keeps the signs of a non-zero vector |
| LivingSystems.UpdateMobDirection | src/modules/living/systems.rs:9-22 | every entity with a desire, a SelfPhysical and a Transform is steered; others are untouched |
| LivingSystems.AggressionPassChangesNothing | src/modules/living/systems.rs:24-29 | a pass that visits every pair and does nothing leaves the store as it was |
| LivingSystems.CheckAggressionZone | src/modules/living/systems.rs:24-29 | the store is unchanged |
| LivingSystems.GenRange | src/modules/living/systems.rs:56-57 | a draw inside the range's width gives a value in [lo, hi) |
| LivingSystems.ChangeDesire | src/modules/living/systems.rs:47-62 | nothing without a timer tick; choice 0 gives Idle at (0, 0); choice 1 gives WalkTo to a point in [x−100, x+100) × [y−100, y+100); other choices change nothing |
| LivingSystems.NextDesire | src/modules/living/systems.rs:31-45 | Attack is kept; WalkTo becomes Idle iff the position is in the half-open unit box around the target; Idle follows the timer and the draw |
| LivingSystems.AttackIsKept | src/modules/living/systems.rs:43 | over any run of frames an Attack desire never changes |
| LivingSystems.AttackNeverEntered | src/modules/living/systems.rs:31-62 | over any run of frames a desire that is not Attack never becomes one |
| LivingSystems.ArrivalIsHalfOpen | src/modules/living/systems.rs:38-41 | standing on the target or one unit to its left arrives; one unit to its right does not |
| LivingSystems.UpdateDesire | src/modules/living/systems.rs:31-46 | each entity with a desire and a Transform takes one desire step with its own timer result and draws; others are untouched |

## Left out

- Rendering, sound, input, the camera, level loading and the engine's
  scheduling are not modelled. The order of systems within a frame
  (`src/main.rs`) is not composed into a single frame step.
- f32 rounding: all arithmetic is on exact reals. Only the two-decimal
  truncation and the clamp's upper bound are modelled.
- `normalize_or_zero` and `normalize` are parameters, because their square
  root is not modelled. In the decay lemmas `norm` is only required to map
  zero to zero and everything else away from zero. The steering lemma only
  requires that `normalize` keeps the component signs of a non-zero vector.
- The engine's timers are booleans saying whether they finished this frame.
  Their durations and their ticking by the frame time are not modelled,
  beyond the default timer configuration.
- The random generator is a supplied draw per entity. Which entities consume
  draws from the shared stream, and in what order, is not modelled.
- The `Changed<Physical>` / `Changed<SelfPhysical>` filters of
  `update_movement_state_by_direction` and `update_sideds_by_direction` are
  not modelled: the systems run over every matching entity. An unchanged
  entity would get the same result again.
- Mutable aliasing of the engine's component references is not modelled;
  each system works on entity values in an array.
- Desire's update timer and the `AggressionZone` component are not entity
  fields: the timer is an input, and the aggression pass does nothing with
  the zone. `src/modules/living/components.rs` as shipped does not declare
  Desire or Intention; their shape follows their use in `src/modules/living/systems.rs`.
- The older revision imports `MultipleSided` from `crate::game::general`,
  but `src/game/general/mod.rs` declares only `Name`, so that marker's
  declaration is not available; it is modelled as the entity having a side.
- LegacyPhysics.UpdateSprites: the abort on a MultipleSided entity without a
  sprite is a precondition, not a modelled error path.
- LivingSystems.MobDirection: `normalize` of a zero offset (a walking mob
  exactly on its target, which a draw of offset 100 produces) gives NaN in
  the source, so the mob's direction and then its translation become NaN.
  The model does not represent NaN: it applies whatever `normalize` returns,
  and `MobHeadsForTarget` assumes nothing about the zero offset.
