/** The older Zombie of src/actors/zombie.py. Its countdown, walk and
    despawn are exactly those of the current Zombie (module Enemies, variant
    `Legacy`); it differs in standing on Ground only and in falling without a
    speed cap. It is a plain Actor, not an Enemy: weapons do not kill it and
    it does not hurt Arthur. */
module LegacyZombies {
  import opened Arena
  import opened Utilities
  import opened Enemies

  /** Only Ground stops the older zombie: with no Ground among the actors it
      touches, landing leaves it exactly as it was, whatever solids, graves
      or platforms it overlaps. */
  lemma {:induction false} IgnoresAllButGround(z: ZombieState, h: real, cs: seq<Other>)
    requires forall i :: 0 <= i < |cs| ==> cs[i].kind != Ground
    ensures ZombieLandAll(z, h, cs, Legacy) == z
    decreases |cs|
  {
    if cs != [] {
      IgnoresAllButGround(z, h, cs[..|cs| - 1]);
    }
  }

  /** The older zombie is not an enemy in the class lattice. */
  lemma NotAnEnemy()
    ensures !IsEnemy(LegacyZombie) && !IsA(LegacyZombie, Enemy) && IsA(LegacyZombie, Actor)
  {
  }

  /** Gravity is uncapped: a move adds exactly 2 to the vertical speed left
      by the landing, so a zombie that touches no Ground speeds up by 2
      every move. */
  lemma UncappedGravity(z: ZombieState, t: Tick)
    requires |z.countdown| == 3 && |z.start| == 3
    ensures var a := ZombieAdvance(z);
      ZombieStep(z, t, Legacy).state.dy
        == ZombieLandAll(a.state, ZombieSize(a.state.pose).y, t.collisions, Legacy).dy + 2.0
    ensures (forall i :: 0 <= i < |t.collisions| ==> t.collisions[i].kind != Ground)
            ==> ZombieStep(z, t, Legacy).state.dy == z.dy + 2.0
  {
    var a := ZombieAdvance(z);
    if forall i :: 0 <= i < |t.collisions| ==> t.collisions[i].kind != Ground {
      IgnoresAllButGround(a.state, ZombieSize(a.state.pose).y, t.collisions);
    }
  }

  /** In free fall (no Ground touched) the older zombie's vertical speed
      after `n` moves is `2 n` more than at the start, without bound. */
  lemma {:induction false} FreeFall(z: ZombieState, ticks: seq<Tick>)
    requires |z.countdown| == 3 && |z.start| == 3
    requires forall k, i :: 0 <= k < |ticks| && 0 <= i < |ticks[k].collisions| ==> ticks[k].collisions[i].kind != Ground
    ensures ZombieRun(z, ticks, Legacy).dy == z.dy + 2.0 * (|ticks| as real)
    decreases |ticks|
  {
    if ticks != [] {
      var init := ticks[..|ticks| - 1];
      FreeFall(z, init);
      var last := ticks[|ticks| - 1];
      UncappedGravity(ZombieRun(z, init, Legacy), last);
    }
  }

  // ---------------------------------------------------------------------
  // The older Zombie as the object the source updates in place

  class Zombie {
    var x: real
    var y: real
    const direction: Dir
    var dx: real
    var dy: real
    var distance: int
    var state: ZombiePose
    var spawnCountdown: seq<int>
    var spawnCountdownStart: seq<int>
    var walkAnimCountdown: int
    var despawned: bool

    function Snapshot(): ZombieState
      reads this
    {
      ZombieState(x, y, direction, dx, dy, distance, state,
                  spawnCountdown, spawnCountdownStart, walkAnimCountdown, despawned)
    }

    predicate Shaped()
      reads this
    {
      |spawnCountdown| == 3 && |spawnCountdownStart| == 3
    }

    /** `distance` and `k` are the values `randrange` draws. */
    constructor (pos: Point, direction: Dir, distance: int, k: seq<int>)
      requires ZombieDraw(distance, k)
      ensures Snapshot() == ZombieInit(pos, direction, distance, k)
    {
      x, y := pos.x, pos.y;
      this.direction := direction;
      dx, dy := 0.0, 0.0;
      this.distance := distance;
      walkAnimCountdown := WalkAnimStart;
      new;
      InitSpawn(k);
    }

    /** `_spawn`. */
    method InitSpawn(k: seq<int>)
      requires |k| == 3
      modifies this
      ensures Snapshot() == old(Snapshot()).(pose := Spawn1, countdown := StageLengths(k),
                                             start := StageLengths(k), despawned := false)
    {
      state := Spawn1;
      spawnCountdown := StageLengths(k);
      spawnCountdownStart := spawnCountdown;
      despawned := false;
    }

    function Pos(): Point
      reads this
    {
      Point(x, y)
    }

    function Size(): Point
      reads this
    {
      ZombieSize(state)
    }

    function Sprite(): Option<Clip>
      reads this
    {
      ZombieSprite(state, direction)
    }

    predicate IsDespawned()
      reads this
    {
      despawned
    }

    predicate IsOnGround()
      reads this
    {
      dy == 0.0
    }

    method Move(t: Tick) returns (reqs: seq<Request>)
      requires Shaped()
      modifies this
      ensures Snapshot() == ZombieStep(old(Snapshot()), t, Legacy).state
      ensures reqs == ZombieStep(old(Snapshot()), t, Legacy).requests
    {
      ghost var a := ZombieAdvance(Snapshot());
      reqs := Advance();
      assert Snapshot() == a.state && reqs == a.requests;

      var sz := Size();
      Land(sz.y, t.collisions);
      y := y + dy;
      dy := dy + ZombieGravity;
      x := Min(Max(x, 0.0), t.world.x - Size().x);
      y := Min(Max(y, 0.0), t.world.y - Size().y);
      assert Snapshot() == ZombieSettle(a.state, sz, t, Legacy);
      SetState();
    }

    /** The landing loop of `move`, for a zombie `h` high: Ground only. */
    method Land(h: real, cs: seq<Other>)
      modifies this
      ensures Snapshot() == ZombieLandAll(old(Snapshot()), h, cs, Legacy)
    {
      ghost var s1 := Snapshot();
      var i := 0;
      while i < |cs|
        invariant 0 <= i <= |cs|
        invariant Snapshot() == ZombieLandAll(s1, h, cs[..i], Legacy)
      {
        var other := cs[i];
        if other.kind == Ground {
          if y + h + 1.0 > other.pos.y && dy >= 0.0 {
            y := other.pos.y - h;
            dy := 0.0;
          }
        }
        assert cs[..i + 1][..i] == cs[..i];
        i := i + 1;
      }
      assert cs[..|cs|] == cs;
    }

    /** The first half of `move`: the spawn countdown, the walk, or the
        refill and the despawn. */
    method Advance() returns (reqs: seq<Request>)
      requires Shaped()
      modifies this
      ensures Snapshot() == ZombieAdvance(old(Snapshot())).state
      ensures reqs == ZombieAdvance(old(Snapshot())).requests
    {
      reqs := [];
      if distance > 0 {
        if spawnCountdown[0] > 0 {
          spawnCountdown := spawnCountdown[0 := spawnCountdown[0] - 1];
        } else if spawnCountdown[1] > 0 {
          spawnCountdown := spawnCountdown[1 := spawnCountdown[1] - 1];
        } else if spawnCountdown[2] > 0 {
          spawnCountdown := spawnCountdown[2 := spawnCountdown[2] - 1];
        } else {
          dx := if direction == Right then ZombieSpeed else -ZombieSpeed;
          x := x + dx;
          distance := distance - 3;
        }
      } else {
        dx := 0.0;
        if spawnCountdown[2] < spawnCountdownStart[2] {
          spawnCountdown := spawnCountdown[2 := spawnCountdown[2] + 1];
        } else if spawnCountdown[1] < spawnCountdownStart[1] {
          spawnCountdown := spawnCountdown[1 := spawnCountdown[1] + 1];
        } else if spawnCountdown[0] < spawnCountdownStart[0] {
          spawnCountdown := spawnCountdown[0 := spawnCountdown[0] + 1];
        } else {
          reqs := Despawn();
        }
      }
    }

    method SetState()
      requires Shaped()
      modifies this
      ensures Snapshot() == ZombieSetState(old(Snapshot()))
    {
      if despawned {
        state := Despawned;
      } else if dx != 0.0 {
        if walkAnimCountdown as real > (WalkAnimStart as real) * 2.0 / 3.0 {
          state := Walk1;
        } else if walkAnimCountdown as real > (WalkAnimStart as real) * 1.0 / 3.0 {
          state := Walk2;
        } else {
          state := Walk3;
        }
        walkAnimCountdown := (walkAnimCountdown - 1) % WalkAnimStart;
      } else if spawnCountdown[0] != 0 || spawnCountdown[1] != 0 || spawnCountdown[2] != 0 {
        if spawnCountdown[0] > 0 {
          state := Spawn1;
        } else if spawnCountdown[1] > 0 {
          state := Spawn2;
        } else if spawnCountdown[2] > 0 {
          state := Spawn3;
        }
      } else {
        state := Idle;
      }
    }

    /** `_despawn`. */
    method Despawn() returns (reqs: seq<Request>)
      modifies this
      ensures Snapshot() == old(Snapshot()).(despawned := true)
      ensures reqs == [Kill(Me)]
    {
      despawned := true;
      reqs := [Kill(Me)];
    }
  }
}
