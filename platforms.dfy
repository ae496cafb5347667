/** Background geometry (src/actors/platforms.py): boxes drawn into the
    background image that other actors collide with, and the Grave, the one
    background actor with state of its own (it counts torch hits and
    summons a Magician on the fifteenth). */
module Platforms {
  import opened Arena

  /** Some actor the grave currently overlaps is a weapon. */
  predicate WeaponOverlaps(cs: seq<Other>)
  {
    exists i :: 0 <= i < |cs| && IsWeapon(cs[i].kind)
  }

  /** `check_if_hit`: the scan stops at the first weapon it meets. */
  method CheckIfHit(cs: seq<Other>) returns (hit: bool)
    ensures hit <==> WeaponOverlaps(cs)
  {
    var i := 0;
    while i < |cs|
      invariant 0 <= i <= |cs|
      invariant forall j :: 0 <= j < i ==> !IsWeapon(cs[j].kind)
    {
      if IsWeapon(cs[i].kind) {
        return true;
      }
      i := i + 1;
    }
    return false;
  }

  type BackgroundKind = k: Kind | IsBackground(k) && k != Grave witness BackgroundActor

  /** A background actor without state: BackgroundActor and its subclasses
      other than Grave. Its box is fixed at construction. */
  class Background {
    const kind: BackgroundKind
    const x: real
    const y: real
    const w: real
    const h: real

    constructor (kind: BackgroundKind, pos: Point, size: Point)
      ensures this.kind == kind && Pos() == pos && Size() == size
    {
      this.kind := kind;
      x, y := pos.x, pos.y;
      w, h := size.x, size.y;
    }

    function Pos(): Point { Point(x, y) }

    function Size(): Point { Point(w, h) }

    /** Background actors are already part of the background image. */
    function Sprite(): (s: Option<Clip>)
      ensures s.None?
    {
      None
    }

    predicate IsJumpable()
    {
      Arena.IsJumpable(kind)
    }

    /** `move` does nothing: no field can change (the method may modify
        nothing) and no request is made. */
    method Move(t: Tick) returns (reqs: seq<Request>)
      ensures reqs == []
    {
      reqs := [];
    }
  }

  // ---------------------------------------------------------------------
  // The Grave, as a value

  const MaxHitCooldown := 1 * Fps
  const HitsForMagician := 15

  datatype GraveState = GraveState(pos: Point, size: Point, timesHit: int, hitCooldown: int)

  function GraveInit(pos: Point, size: Point): (g: GraveState)
    ensures GraveValid(g)
  {
    GraveState(pos, size, 0, MaxHitCooldown)
  }

  ghost predicate GraveValid(g: GraveState)
  {
    0 <= g.timesHit < HitsForMagician && 0 <= g.hitCooldown <= MaxHitCooldown
  }

  /** A hit is counted on this move: the cooldown has run out and a weapon
      overlaps the grave. */
  predicate Counted(g: GraveState, t: Tick)
  {
    g.hitCooldown == 0 && WeaponOverlaps(t.collisions)
  }

  /** `Grave.move`. */
  function GraveStep(g: GraveState, t: Tick): Outcome<GraveState>
  {
    var g1 :=
      if g.hitCooldown == 0 then
        if WeaponOverlaps(t.collisions)
        then g.(hitCooldown := MaxHitCooldown, timesHit := g.timesHit + 1)
        else g
      else g.(hitCooldown := g.hitCooldown - 1);
    if g1.timesHit >= HitsForMagician
    then Outcome(g1.(timesHit := 0), [Spawn(NewMagician(Point(g.pos.x, g.pos.y - 32.0)))])
    else Outcome(g1, [])
  }

  /** One move of a valid grave: its box never changes; a counted hit
      restarts the full cooldown and adds one hit, otherwise a running
      cooldown drops by one and the hit count stays; the fifteenth hit resets
      the count to 0 and asks for exactly one Magician 32 pixels above the
      grave; and the grave stays valid, so the count is always in [0, 14]. */
  lemma {:induction false} GraveStepSpec(g: GraveState, t: Tick)
    requires GraveValid(g)
    ensures var r := GraveStep(g, t);
      && r.state.pos == g.pos && r.state.size == g.size
      && GraveValid(r.state)
      && (Counted(g, t) ==> r.state.hitCooldown == MaxHitCooldown
                            && r.state.timesHit == (g.timesHit + 1) % HitsForMagician)
      && (!Counted(g, t) ==> r.state.timesHit == g.timesHit
                             && r.state.hitCooldown == if g.hitCooldown == 0 then 0 else g.hitCooldown - 1)
      && (r.requests != [] <==> Counted(g, t) && g.timesHit == HitsForMagician - 1)
      && (r.requests != [] ==> r.requests == [Spawn(NewMagician(Point(g.pos.x, g.pos.y - 32.0)))])
  {
  }

  /** The grave after a sequence of moves (the requests dropped). */
  function GraveRun(g: GraveState, ticks: seq<Tick>): GraveState
    decreases |ticks|
  {
    if ticks == [] then g else GraveRun(GraveStep(g, ticks[0]).state, ticks[1..])
  }

  /** Right after a counted hit the cooldown is full, and during the next 30
      moves no hit can be counted, whatever overlaps the grave: two counted
      hits are at least 31 moves apart. */
  lemma {:induction false} NoHitWhileCoolingDown(g: GraveState, ticks: seq<Tick>)
    requires GraveValid(g) && g.hitCooldown == MaxHitCooldown
    requires |ticks| <= MaxHitCooldown
    ensures GraveRun(g, ticks).timesHit == g.timesHit
    ensures GraveRun(g, ticks).hitCooldown == MaxHitCooldown - |ticks|
    ensures forall k :: 0 <= k < |ticks| ==> !Counted(GraveRun(g, ticks[..k]), ticks[k])
  {
    CoolingDown(g, ticks);
  }

  lemma {:induction false} CoolingDown(g: GraveState, ticks: seq<Tick>)
    requires GraveValid(g) && |ticks| <= g.hitCooldown
    ensures GraveRun(g, ticks).timesHit == g.timesHit
    ensures GraveRun(g, ticks).hitCooldown == g.hitCooldown - |ticks|
    ensures GraveRun(g, ticks).pos == g.pos && GraveRun(g, ticks).size == g.size
    ensures forall k :: 0 <= k < |ticks| ==> !Counted(GraveRun(g, ticks[..k]), ticks[k])
    decreases |ticks|
  {
    if ticks != [] {
      var g1 := GraveStep(g, ticks[0]).state;
      assert g1 == g.(hitCooldown := g.hitCooldown - 1);
      CoolingDown(g1, ticks[1..]);
      forall k | 0 <= k < |ticks|
        ensures !Counted(GraveRun(g, ticks[..k]), ticks[k])
      {
        if k == 0 {
          assert ticks[..0] == [];
        } else {
          assert ticks[..k][1..] == ticks[1..][..k - 1];
          assert ticks[k] == ticks[1..][k - 1];
        }
      }
    }
  }

  // ---------------------------------------------------------------------
  // The Grave, as the object the source updates in place

  class Grave {
    const x: real
    const y: real
    const w: real
    const h: real
    var timesHit: int
    var hitCooldown: int

    function Snapshot(): GraveState
      reads this
    {
      GraveState(Point(x, y), Point(w, h), timesHit, hitCooldown)
    }

    constructor (pos: Point, size: Point)
      ensures Snapshot() == GraveInit(pos, size)
    {
      x, y := pos.x, pos.y;
      w, h := size.x, size.y;
      timesHit := 0;
      hitCooldown := MaxHitCooldown;
    }

    function Pos(): Point { Point(x, y) }

    function Size(): Point { Point(w, h) }

    function Sprite(): (s: Option<Clip>)
      ensures s.None?
    {
      None
    }

    /** Grave inherits BackgroundSolid's override. */
    predicate IsJumpable()
    {
      Arena.IsJumpable(Kind.Grave)
    }

    method Move(t: Tick) returns (reqs: seq<Request>)
      modifies this
      ensures Snapshot() == GraveStep(old(Snapshot()), t).state
      ensures reqs == GraveStep(old(Snapshot()), t).requests
    {
      if hitCooldown == 0 {
        var hit := CheckIfHit(t.collisions);
        if hit {
          hitCooldown := MaxHitCooldown;
          timesHit := timesHit + 1;
        }
      } else {
        hitCooldown := hitCooldown - 1;
      }
      reqs := [];
      if timesHit >= HitsForMagician {
        timesHit := 0;
        reqs := SpawnMagician();
      }
    }

    method SpawnMagician() returns (reqs: seq<Request>)
      ensures reqs == [Spawn(NewMagician(Point(x, y - 32.0)))]
    {
      reqs := [Spawn(NewMagician(Point(x, y - 32.0)))];
    }
  }
}
