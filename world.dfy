/** The entity store the systems run over. The engine keeps components in
    its own tables and hands each system the entities that carry the
    components the system asks for; here every entity is one record with an
    optional slot per component, and the store is an array of entities.
    `ForEach` plays the engine's per-entity query loop and `ForEachPair` its
    loop over all unordered pairs (i < j, in index order). */
module World {
  import opened PhysicsComponents
  import SpriteComponents

  /** The engine's texture-atlas sprite: the frame shown and whether it is mirrored. */
  datatype AtlasSprite = AtlasSprite(index: nat, flipX: bool)

  /** What a mob wants to do. Desire and Intention are declared in a revision
      of src/modules/living/components.rs that is not part of this model;
      their shape follows their use in src/modules/living/systems.rs. */
  datatype Intention = Idle | WalkTo | Attack
  datatype Desire = Desire(intention: Intention, position: Vec2)

  /** One entity: each slot holds a component or None. `translation` is the
      Transform's translation (rotation and scale are never read). */
  datatype Entity = Entity(
    translation: Option<Vec3>,
    physical: Option<Physical>,
    selfPhysical: Option<SelfPhysical>,
    collider: Option<Collider>,
    spriteZone: Option<SpriteZone>,
    sided: Option<Side>,
    movement: Option<SpriteComponents.MultipleMovementState>,
    sprite: Option<AtlasSprite>,
    desire: Option<Desire>)

  /** Applies `f` to every entity, in order. */
  method ForEach(a: array<Entity>, f: Entity -> Entity)
    modifies a
    ensures forall k :: 0 <= k < a.Length ==> a[k] == f(old(a[k]))
  {
    var i := 0;
    while i < a.Length
      invariant 0 <= i <= a.Length
      invariant forall k :: 0 <= k < i ==> a[k] == f(old(a[k]))
      invariant forall k :: i <= k < a.Length ==> a[k] == old(a[k])
    {
      a[i] := f(a[i]);
      i := i + 1;
    }
  }

  /** One pair visit: `step` gets the two entities and gives both back, changed or not. */
  function PairStep(s: seq<Entity>, i: nat, j: nat, step: (Entity, Entity) -> (Entity, Entity)): (r: seq<Entity>)
    requires i < j < |s|
    ensures |r| == |s|
    ensures forall k :: 0 <= k < |s| && k != i && k != j ==> r[k] == s[k]
    ensures r[i] == step(s[i], s[j]).0 && r[j] == step(s[i], s[j]).1
  {
    var p := step(s[i], s[j]);
    s[i := p.0][j := p.1]
  }

  /** The visits of pairs (i, j), (i, j + 1), ..., (i, |s| - 1), in that order. */
  function RowPairs(s: seq<Entity>, i: nat, j: nat, step: (Entity, Entity) -> (Entity, Entity)): (r: seq<Entity>)
    requires i < j <= |s|
    ensures |r| == |s|
    decreases |s| - j
  {
    if j == |s| then s else RowPairs(PairStep(s, i, j, step), i, j + 1, step)
  }

  /** The visits of every pair whose first index is at least i, in index order. */
  function AllPairs(s: seq<Entity>, i: nat, step: (Entity, Entity) -> (Entity, Entity)): (r: seq<Entity>)
    requires i <= |s|
    ensures |r| == |s|
    decreases |s| - i
  {
    if i == |s| then s else AllPairs(RowPairs(s, i, i + 1, step), i + 1, step)
  }

  /** Visits every unordered pair of entities once, first by first index, then by second. */
  method ForEachPair(a: array<Entity>, step: (Entity, Entity) -> (Entity, Entity))
    modifies a
    ensures a[..] == AllPairs(old(a[..]), 0, step)
  {
    var i := 0;
    while i < a.Length
      invariant 0 <= i <= a.Length
      invariant AllPairs(a[..], i, step) == AllPairs(old(a[..]), 0, step)
    {
      ghost var rowStart := a[..];
      var j := i + 1;
      while j < a.Length
        invariant i < j <= a.Length
        invariant RowPairs(a[..], i, j, step) == RowPairs(rowStart, i, i + 1, step)
      {
        ghost var before := a[..];
        var p := step(a[i], a[j]);
        a[i], a[j] := p.0, p.1;
        assert a[..] == PairStep(before, i, j, step);
        j := j + 1;
      }
      i := i + 1;
    }
  }

  /** A relation between an entity after and before a step. */
  ghost predicate ReflexiveTransitive(R: (Entity, Entity) -> bool)
  {
    (forall e :: R(e, e)) && (forall x, y, z :: R(x, y) && R(y, z) ==> R(x, z))
  }

  /** `step` keeps both entities of a pair in relation R to what they were. */
  ghost predicate StepRespects(step: (Entity, Entity) -> (Entity, Entity), R: (Entity, Entity) -> bool)
  {
    forall x, y :: R(step(x, y).0, x) && R(step(x, y).1, y)
  }

  /** Pointwise R between two stores of the same size. */
  ghost predicate Related(r: seq<Entity>, s: seq<Entity>, R: (Entity, Entity) -> bool)
  {
    |r| == |s| && forall k :: 0 <= k < |s| ==> R(r[k], s[k])
  }

  lemma {:induction false} RowPairsRespects(s: seq<Entity>, i: nat, j: nat,
                                            step: (Entity, Entity) -> (Entity, Entity), R: (Entity, Entity) -> bool)
    requires i < j <= |s|
    requires ReflexiveTransitive(R) && StepRespects(step, R)
    ensures Related(RowPairs(s, i, j, step), s, R)
    decreases |s| - j
  {
    if j < |s| {
      var t := PairStep(s, i, j, step);
      RowPairsRespects(t, i, j + 1, step, R);
      var r := RowPairs(t, i, j + 1, step);
      forall k | 0 <= k < |s| ensures R(r[k], s[k]) {
        assert R(r[k], t[k]);
        assert R(t[k], s[k]);
      }
    }
  }

  /** A pass over all pairs keeps every entity in relation R to what it was,
      when each visit does and R is reflexive and transitive. */
  lemma {:induction false} AllPairsRespects(s: seq<Entity>, i: nat,
                                            step: (Entity, Entity) -> (Entity, Entity), R: (Entity, Entity) -> bool)
    requires i <= |s|
    requires ReflexiveTransitive(R) && StepRespects(step, R)
    ensures Related(AllPairs(s, i, step), s, R)
    decreases |s| - i
  {
    if i < |s| {
      var t := RowPairs(s, i, i + 1, step);
      RowPairsRespects(s, i, i + 1, step, R);
      AllPairsRespects(t, i + 1, step, R);
      var r := AllPairs(t, i + 1, step);
      forall k | 0 <= k < |s| ensures R(r[k], s[k]) {
        assert R(r[k], t[k]);
        assert R(t[k], s[k]);
      }
    }
  }
}
