/** The shared vocabulary of the simulation: points, facing directions, the
    class hierarchy of actors as a closed tag, the per-move view of the arena
    an actor is given, and the spawn/kill requests an actor hands back.

    The arena itself (it owns the live actors, computes overlaps and runs the
    frame loop) is not part of this model: an actor's `move` sees it only
    through a `Tick` value and answers with a sequence of `Request`s. */
module Arena {

  datatype Option<T> = None | Some(value: T)

  /** A pair of numbers, used (as in the source) both for a top-left position
      and for a (width, height) size. */
  datatype Point = Point(x: real, y: real)

  /** A position on the sprite sheet. */
  datatype Clip = Clip(sx: int, sy: int)

  datatype Dir = Left | Right

  /** Frames per second, the unit of every countdown. */
  const Fps := 30

  /** The actor classes of the game. Abstract classes (Actor, Enemy, Weapon)
      are tags too, so that "isinstance" is answered by walking up `Parent`. */
  datatype Kind =
    | Actor
    | Arthur
    | Enemy | Zombie | Plant | Eyeball | Magician | MagicProjectile
    | LegacyZombie
    | Weapon | Torch | Flame
    | BackgroundActor | BackgroundPlatform | BackgroundSolid | Grave | Ground
    | BackgroundLadder | BackgroundWinArea

  /** Nesting depth of a class below `Actor`. */
  function Depth(k: Kind): nat
  {
    match k
    case Actor => 0
    case Arthur | Enemy | LegacyZombie | Weapon | BackgroundActor => 1
    case Zombie | Plant | Eyeball | Magician | MagicProjectile => 2
    case Torch | Flame => 2
    case BackgroundPlatform | BackgroundSolid | BackgroundLadder => 2
    case Grave | Ground | BackgroundWinArea => 3
  }

  /** The direct superclass; `Actor` is the root. The hierarchy is well
      founded: a parent is always one level closer to the root. */
  function Parent(k: Kind): (p: Option<Kind>)
    ensures p.None? <==> k == Actor
    ensures p.Some? ==> Depth(p.value) + 1 == Depth(k)
  {
    match k
    case Actor => None
    case Arthur | Enemy | LegacyZombie | Weapon | BackgroundActor => Some(Actor)
    case Zombie | Plant | Eyeball | Magician | MagicProjectile => Some(Enemy)
    case Torch | Flame => Some(Weapon)
    case BackgroundPlatform | BackgroundSolid | BackgroundLadder => Some(BackgroundActor)
    case Grave | Ground => Some(BackgroundSolid)
    case BackgroundWinArea => Some(BackgroundLadder)
  }

  /** `isinstance(k, c)`: `c` is `k` or one of its superclasses. */
  function IsA(k: Kind, c: Kind): bool
    decreases Depth(k)
  {
    k == c || (Parent(k).Some? && IsA(Parent(k).value, c))
  }

  // The classes the actors test for, written out; the lemmas below show
  // each agrees with `IsA` (`ActorTestsAgree`, `BackgroundTestsAgree`).

  predicate IsEnemy(k: Kind)
  {
    k == Enemy || k == Zombie || k == Plant || k == Eyeball || k == Magician || k == MagicProjectile
  }

  predicate IsWeapon(k: Kind) { k == Weapon || k == Torch || k == Flame }

  predicate IsSolid(k: Kind) { k == BackgroundSolid || k == Grave || k == Ground }

  predicate IsPlatform(k: Kind) { k == BackgroundPlatform }

  predicate IsLadder(k: Kind) { k == BackgroundLadder || k == BackgroundWinArea }

  predicate IsBackground(k: Kind)
  {
    k == BackgroundActor || IsPlatform(k) || IsSolid(k) || IsLadder(k)
  }

  /** `is_jumpable`, resolved the way Python resolves a method: the nearest
      class on the way up that defines it wins. BackgroundActor defines it as
      False, BackgroundPlatform and BackgroundSolid override it with True.
      The result agrees with the class lattice: exactly the platforms and the
      solids (so Ground and Grave too) can be jumped off. */
  function IsJumpable(k: Kind): (r: bool)
    requires IsBackground(k)
    ensures r <==> IsPlatform(k) || IsSolid(k)
    decreases Depth(k)
  {
    if k == BackgroundPlatform || k == BackgroundSolid then true
    else if k == BackgroundActor then false
    else IsJumpable(Parent(k).value)
  }

  /** Another actor whose box overlaps the moving actor's box this frame. */
  datatype Other = Other(id: nat, kind: Kind, pos: Point, size: Point)

  /** What an actor's `move` can observe of the arena: the actors it collides
      with (in the arena's order), the keys held down, the world size, the
      frame counter, the position of the first Arthur among the live actors
      (for the Plant), and `blink`, the parity of the sub-cycle Arthur's first
      death window alternates on. */
  datatype Tick = Tick(
    collisions: seq<Other>,
    keys: set<string>,
    world: Point,
    count: nat,
    hero: Option<Point>,
    blink: bool)

  /** The actor an arena request is about. */
  datatype Target = Me | Collided(id: nat)

  /** A new actor, described by its class and constructor arguments. */
  datatype Spawned =
    | NewTorch(dir: Dir, at: Point)
    | NewFlame(anchor: Point)
    | NewEyeball(at: Point, velocity: Point)
    | NewMagician(at: Point)

  datatype Request = Kill(target: Target) | Spawn(actor: Spawned)

  /** The state an actor is left in by one move, with the requests the move
      made of the arena, in the order it made them. */
  datatype Outcome<S> = Outcome(state: S, requests: seq<Request>)

  /** Each written-out actor class test is `isinstance` on the lattice: it
      holds exactly for the class and its subclasses. */
  lemma ActorTestsAgree(k: Kind)
    ensures IsEnemy(k) <==> IsA(k, Enemy)
    ensures IsWeapon(k) <==> IsA(k, Weapon)
  {
    EnemyTest(k);
    WeaponTest(k);
  }

  /** The same for the background class tests. */
  lemma BackgroundTestsAgree(k: Kind)
    ensures IsSolid(k) <==> IsA(k, BackgroundSolid)
    ensures IsPlatform(k) <==> IsA(k, BackgroundPlatform)
    ensures IsLadder(k) <==> IsA(k, BackgroundLadder)
    ensures IsBackground(k) <==> IsA(k, BackgroundActor)
  {
    SolidTest(k);
    PlatformTest(k);
    LadderTest(k);
    BackgroundTest(k);
  }

  /** A class followed by its superclasses, nearest first. */
  function Lineage(k: Kind): seq<Kind>
  {
    match k
    case Actor => [Actor]
    case Arthur | Enemy | LegacyZombie | Weapon | BackgroundActor => [k, Actor]
    case Zombie | Plant | Eyeball | Magician | MagicProjectile => [k, Enemy, Actor]
    case Torch | Flame => [k, Weapon, Actor]
    case BackgroundPlatform | BackgroundSolid | BackgroundLadder => [k, BackgroundActor, Actor]
    case Grave | Ground => [k, BackgroundSolid, BackgroundActor, Actor]
    case BackgroundWinArea => [k, BackgroundLadder, BackgroundActor, Actor]
  }

  /** The lineage is the walk up `Parent`. */
  lemma LineageParent(k: Kind)
    ensures Lineage(k) == if k == Actor then [Actor] else [k] + Lineage(Parent(k).value)
  {
  }

  /** `isinstance` tests the lineage. */
  lemma {:induction false} LineageIsA(k: Kind, c: Kind)
    ensures IsA(k, c) <==> c in Lineage(k)
    decreases Depth(k)
  {
    LineageParent(k);
    if Parent(k).Some? {
      LineageIsA(Parent(k).value, c);
    }
  }

  lemma EnemyTest(k: Kind)
    ensures IsEnemy(k) <==> IsA(k, Enemy)
  {
    LineageIsA(k, Enemy);
    EnemyLineage(k);
  }

  lemma EnemyLineage(k: Kind)
    ensures IsEnemy(k) <==> Enemy in Lineage(k)
  {
  }

  lemma WeaponTest(k: Kind)
    ensures IsWeapon(k) <==> IsA(k, Weapon)
  {
    LineageIsA(k, Weapon);
    WeaponLineage(k);
  }

  lemma WeaponLineage(k: Kind)
    ensures IsWeapon(k) <==> Weapon in Lineage(k)
  {
  }

  lemma SolidTest(k: Kind)
    ensures IsSolid(k) <==> IsA(k, BackgroundSolid)
  {
    LineageIsA(k, BackgroundSolid);
    SolidLineage(k);
  }

  lemma SolidLineage(k: Kind)
    ensures IsSolid(k) <==> BackgroundSolid in Lineage(k)
  {
  }

  lemma PlatformTest(k: Kind)
    ensures IsPlatform(k) <==> IsA(k, BackgroundPlatform)
  {
    LineageIsA(k, BackgroundPlatform);
    PlatformLineage(k);
  }

  lemma PlatformLineage(k: Kind)
    ensures IsPlatform(k) <==> BackgroundPlatform in Lineage(k)
  {
  }

  lemma LadderTest(k: Kind)
    ensures IsLadder(k) <==> IsA(k, BackgroundLadder)
  {
    LineageIsA(k, BackgroundLadder);
    LadderLineage(k);
  }

  lemma LadderLineage(k: Kind)
    ensures IsLadder(k) <==> BackgroundLadder in Lineage(k)
  {
  }

  lemma BackgroundTest(k: Kind)
    ensures IsBackground(k) <==> IsA(k, BackgroundActor)
  {
    LineageIsA(k, BackgroundActor);
    BackgroundLineage(k);
  }

  lemma BackgroundLineage(k: Kind)
    ensures IsBackground(k) <==> BackgroundActor in Lineage(k)
  {
  }
}
