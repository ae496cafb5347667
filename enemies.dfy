/** The enemies of src/actors/enemies.py: the Zombie that rises out of the
    ground, walks a drawn distance and sinks back; the Plant that turns
    towards Arthur and shoots; and the Eyeball it shoots. */
module Enemies {
  import opened Arena
  import opened Utilities

  // ---------------------------------------------------------------------
  // The three-stage spawn countdown, shared with the older zombie

  /** The counters drain in order 0, 1, 2 while the zombie rises, and are
      restored in order 2, 1, 0 while it sinks back. */
  function Drain(c: seq<int>): (r: seq<int>)
    requires |c| == 3
    ensures |r| == 3
  {
    if c[0] > 0 then c[0 := c[0] - 1]
    else if c[1] > 0 then c[1 := c[1] - 1]
    else if c[2] > 0 then c[2 := c[2] - 1]
    else c
  }

  /** No counter is left to drain. */
  predicate Drained(c: seq<int>)
    requires |c| == 3
  {
    c[0] <= 0 && c[1] <= 0 && c[2] <= 0
  }

  function Restore(c: seq<int>, start: seq<int>): (r: seq<int>)
    requires |c| == 3 && |start| == 3
    ensures |r| == 3
  {
    if c[2] < start[2] then c[2 := c[2] + 1]
    else if c[1] < start[1] then c[1 := c[1] + 1]
    else if c[0] < start[0] then c[0 := c[0] + 1]
    else c
  }

  /** Every counter is back at its start value. */
  predicate Restored(c: seq<int>, start: seq<int>)
    requires |c| == 3 && |start| == 3
  {
    c[2] >= start[2] && c[1] >= start[1] && c[0] >= start[0]
  }

  function Sum3(c: seq<int>): int
    requires |c| == 3
  {
    c[0] + c[1] + c[2]
  }

  /** The stage shape both phases keep: a later counter is only touched once
      every earlier one is empty, so while counter `i` is still running every
      later counter holds its start value. */
  ghost predicate Staged(c: seq<int>, start: seq<int>)
    requires |c| == 3 && |start| == 3
  {
    && (forall i :: 0 <= i < 3 ==> 0 <= c[i] <= start[i])
    && (forall i, j :: 0 <= i < j < 3 && c[i] > 0 ==> c[j] == start[j])
  }

  /** Draining takes exactly one frame off the first running stage, and
      restoring puts exactly one frame back on the last stage not yet full;
      both keep the stage shape. */
  lemma {:induction false} CountdownSteps(c: seq<int>, start: seq<int>)
    requires |c| == 3 && |start| == 3 && Staged(c, start)
    ensures !Drained(c) ==> Sum3(Drain(c)) == Sum3(c) - 1 && Staged(Drain(c), start)
    ensures !Drained(c) ==> forall i :: 0 <= i < 3 && Drain(c)[i] != c[i] ==>
              c[i] > 0 && forall j :: 0 <= j < i ==> c[j] == 0
    ensures !Restored(c, start) ==> Sum3(Restore(c, start)) == Sum3(c) + 1 && Staged(Restore(c, start), start)
    ensures !Restored(c, start) ==> forall i :: 0 <= i < 3 && Restore(c, start)[i] != c[i] ==>
              c[i] < start[i] && forall j :: i < j < 3 ==> c[j] == start[j]
    ensures Drained(c) <==> Sum3(c) == 0
    ensures Restored(c, start) <==> c == start
  {
    if !Drained(c) {
      DrainStep(c, start);
    }
    if !Restored(c, start) {
      RestoreStep(c, start);
    }
    if Restored(c, start) {
      assert c == [c[0], c[1], c[2]];
      assert start == [start[0], start[1], start[2]];
    }
  }

  lemma DrainStep(c: seq<int>, start: seq<int>)
    requires |c| == 3 && |start| == 3 && Staged(c, start) && !Drained(c)
    ensures Sum3(Drain(c)) == Sum3(c) - 1 && Staged(Drain(c), start)
    ensures forall i :: 0 <= i < 3 && Drain(c)[i] != c[i] ==> c[i] > 0 && forall j :: 0 <= j < i ==> c[j] == 0
  {
  }

  lemma RestoreStep(c: seq<int>, start: seq<int>)
    requires |c| == 3 && |start| == 3 && Staged(c, start) && !Restored(c, start)
    ensures Sum3(Restore(c, start)) == Sum3(c) + 1 && Staged(Restore(c, start), start)
    ensures forall i :: 0 <= i < 3 && Restore(c, start)[i] != c[i] ==> c[i] < start[i] && forall j :: i < j < 3 ==> c[j] == start[j]
  {
  }

  /** Which random draws `_spawn` and `__init__` can make: a distance in
      [150, 300] and stage lengths of 1 or 2, 1 or 2, and 1 to 3 seconds. */
  predicate ZombieDraw(distance: int, k: seq<int>)
  {
    150 <= distance <= 300 && |k| == 3 && 1 <= k[0] <= 2 && 1 <= k[1] <= 2 && 1 <= k[2] <= 3
  }

  function StageLengths(k: seq<int>): (c: seq<int>)
    requires |k| == 3
    ensures |c| == 3 && forall i :: 0 <= i < 3 ==> c[i] == k[i] * Fps
  {
    [k[0] * Fps, k[1] * Fps, k[2] * Fps]
  }

  // ---------------------------------------------------------------------
  // Zombie, as a value

  const ZombieSpeed := 3.0
  const ZombieGravity := 2.0
  const ZombieMaxDy := 8.0
  const WalkAnimStart := 1 * Fps

  datatype ZombiePose = Spawn1 | Spawn2 | Spawn3 | Walk1 | Walk2 | Walk3 | Idle | Despawned

  datatype ZombieState = ZombieState(
    x: real, y: real, direction: Dir, dx: real, dy: real,
    distance: int, pose: ZombiePose,
    countdown: seq<int>, start: seq<int>,
    walkAnim: int, despawned: bool)

  function ZombieInit(pos: Point, direction: Dir, distance: int, k: seq<int>): ZombieState
    requires ZombieDraw(distance, k)
  {
    ZombieState(pos.x, pos.y, direction, 0.0, 0.0, distance, Spawn1,
                StageLengths(k), StageLengths(k), WalkAnimStart, false)
  }

  /** The `_sizes` table; the states it lacks (Idle) are None. */
  function ZombieSizes(p: ZombiePose): Option<Point>
  {
    match p
    case Spawn1 => Some(Point(16.0, 9.0))
    case Spawn2 => Some(Point(24.0, 12.0))
    case Spawn3 => Some(Point(19.0, 24.0))
    case Walk1 => Some(Point(22.0, 31.0))
    case Walk2 => Some(Point(19.0, 32.0))
    case Walk3 => Some(Point(21.0, 31.0))
    case Despawned => Some(Point(0.0, 0.0))
    case Idle => None
  }

  function ZombieSize(p: ZombiePose): Point
  {
    if ZombieSizes(p).Some? then ZombieSizes(p).value else ZombieSizes(Walk3).value
  }

  /** The `_sprites` table; a present key can map to no image (Despawned),
      a missing key (Idle) is None. */
  function ZombieSprites(p: ZombiePose, d: Dir): Option<Option<Clip>>
  {
    match (p, d)
    case (Spawn1, Left) => Some(Some(Clip(512, 88)))
    case (Spawn2, Left) => Some(Some(Clip(533, 85)))
    case (Spawn3, Left) => Some(Some(Clip(562, 73)))
    case (Spawn1, Right) => Some(Some(Clip(778, 88)))
    case (Spawn2, Right) => Some(Some(Clip(748, 85)))
    case (Spawn3, Right) => Some(Some(Clip(725, 73)))
    case (Walk1, Left) => Some(Some(Clip(585, 66)))
    case (Walk2, Left) => Some(Some(Clip(610, 65)))
    case (Walk3, Left) => Some(Some(Clip(631, 66)))
    case (Walk1, Right) => Some(Some(Clip(699, 66)))
    case (Walk2, Right) => Some(Some(Clip(677, 65)))
    case (Walk3, Right) => Some(Some(Clip(654, 66)))
    case (Despawned, _) => Some(None)
    case (Idle, _) => None
  }

  function ZombieSprite(p: ZombiePose, d: Dir): Option<Clip>
  {
    if ZombieSprites(p, d).Some? then ZombieSprites(p, d).value else ZombieSprites(Walk3, d).value
  }

  /** The lookups fall back to the last walking frame for a state the tables
      lack (Idle); a despawned zombie is an empty box with no image; every
      other state has an image of its own. */
  lemma ZombieLooks(p: ZombiePose, d: Dir)
    ensures ZombieSizes(p).None? <==> p == Idle
    ensures ZombieSize(Idle) == ZombieSize(Walk3) && ZombieSprite(Idle, d) == ZombieSprite(Walk3, d)
    ensures ZombieSize(Despawned) == Point(0.0, 0.0)
    ensures ZombieSprite(p, d).None? <==> p == Despawned
  {
  }

  /** The first half of `move`: rise, walk, or sink back (and vanish). */
  function ZombieAdvance(z: ZombieState): (a: Outcome<ZombieState>)
    requires |z.countdown| == 3 && |z.start| == 3
    ensures |a.state.countdown| == 3 && a.state.start == z.start
    ensures a.state.y == z.y && a.state.dy == z.dy && a.state.pose == z.pose
    ensures a.state.walkAnim == z.walkAnim && a.state.direction == z.direction
  {
    if z.distance > 0 then
      if !Drained(z.countdown) then Outcome(z.(countdown := Drain(z.countdown)), [])
      else
        var dx := if z.direction == Right then ZombieSpeed else -ZombieSpeed;
        Outcome(z.(dx := dx, x := z.x + dx, distance := z.distance - 3), [])
    else
      var z1 := z.(dx := 0.0);
      if !Restored(z1.countdown, z1.start) then Outcome(z1.(countdown := Restore(z1.countdown, z1.start)), [])
      else Outcome(z1.(despawned := true), [Kill(Me)])
  }

  /** The zombie exists twice in the source: the current class of
      src/actors/enemies.py, and the older one of src/actors/zombie.py, which
      only differs in what it stands on and in having no cap on its falling
      speed. */
  datatype Variant = Current | Legacy

  /** What the zombie stands on: the current one on solids and platforms
      but not graves, the older one on Ground only. */
  predicate StandsOn(v: Variant, k: Kind)
  {
    match v
    case Current => (IsSolid(k) || IsPlatform(k)) && k != Grave
    case Legacy => k == Ground
  }

  /** Gravity: capped at 8 for the current zombie, uncapped for the older. */
  function ZombieFall(v: Variant, dy: real): real
  {
    match v
    case Current => Min(dy + ZombieGravity, ZombieMaxDy)
    case Legacy => dy + ZombieGravity
  }

  /** The snap onto one obstacle, for a zombie `h` high. */
  function ZombieLand(z: ZombieState, h: real, o: Other, v: Variant): ZombieState
  {
    if StandsOn(v, o.kind) && z.y + h + 1.0 > o.pos.y && z.dy >= 0.0
    then z.(y := o.pos.y - h, dy := 0.0)
    else z
  }

  /** Landing only ever changes the height and the vertical speed. */
  function ZombieLandAll(z: ZombieState, h: real, cs: seq<Other>, v: Variant): (r: ZombieState)
    ensures r == z.(y := r.y, dy := r.dy)
    decreases |cs|
  {
    if cs == [] then z else ZombieLand(ZombieLandAll(z, h, cs[..|cs| - 1], v), h, cs[|cs| - 1], v)
  }

  /** The walk frame by thirds of the walk countdown. */
  function WalkFrame(c: int): ZombiePose
  {
    if c as real > (WalkAnimStart as real) * 2.0 / 3.0 then Walk1
    else if c as real > (WalkAnimStart as real) * 1.0 / 3.0 then Walk2
    else Walk3
  }

  /** `_set_state`, by priority: despawned, walking, the first running
      stage, idle. */
  function ZombieSetState(z: ZombieState): (r: ZombieState)
    requires |z.countdown| == 3
    ensures r == z.(pose := r.pose, walkAnim := r.walkAnim)
  {
    var c := z.countdown;
    if z.despawned then z.(pose := Despawned)
    else if z.dx != 0.0 then z.(pose := WalkFrame(z.walkAnim), walkAnim := (z.walkAnim - 1) % WalkAnimStart)
    else if c[0] != 0 || c[1] != 0 || c[2] != 0 then
      z.(pose := if c[0] > 0 then Spawn1 else if c[1] > 0 then Spawn2 else if c[2] > 0 then Spawn3 else z.pose)
    else z.(pose := Idle)
  }

  /** The second half of `move` for a zombie in a box of size `sz`: land,
      fall, and stay inside the world. */
  function ZombieSettle(z: ZombieState, sz: Point, t: Tick, v: Variant): (r: ZombieState)
    ensures r == z.(x := r.x, y := r.y, dy := r.dy)
  {
    var z2 := ZombieLandAll(z, sz.y, t.collisions, v);
    var z3 := z2.(y := z2.y + z2.dy, dy := ZombieFall(v, z2.dy));
    z3.(x := Clamp(z3.x, 0.0, t.world.x - sz.x), y := Clamp(z3.y, 0.0, t.world.y - sz.y))
  }

  /** `Zombie.move`. The box used for landing and clamping is the one of the
      state the zombie was in at the start of the move. */
  function ZombieStep(z: ZombieState, t: Tick, v: Variant): (r: Outcome<ZombieState>)
    requires |z.countdown| == 3 && |z.start| == 3
    ensures |r.state.countdown| == 3 && r.state.start == z.start
  {
    var a := ZombieAdvance(z);
    Outcome(ZombieSetState(ZombieSettle(a.state, ZombieSize(a.state.pose), t, v)), a.requests)
  }

  /** The invariant every zombie keeps: the stage shape, start values of
      30 or 60 frames (the last stage up to 90), a distance left that a walk
      step of 3 can overshoot by at most 2, a walk counter in [0, 30], a
      horizontal speed of 0 or 3 in the facing direction (0 while still
      rising), the gravity cap (for the current zombie), and a despawned
      zombie is back underground. */
  ghost predicate ZombieValid(z: ZombieState, v: Variant)
  {
    && |z.countdown| == 3 && |z.start| == 3
    && z.start[0] in {30, 60} && z.start[1] in {30, 60} && z.start[2] in {30, 60, 90}
    && Staged(z.countdown, z.start)
    && -3 < z.distance <= 300
    && 0 <= z.walkAnim <= WalkAnimStart
    && (z.dx == 0.0 || z.dx == (if z.direction == Right then ZombieSpeed else -ZombieSpeed))
    && (z.distance > 0 && !Drained(z.countdown) ==> z.dx == 0.0)
    && (v == Current ==> z.dy <= ZombieMaxDy)
    && (z.despawned ==> z.distance <= 0 && z.countdown == z.start)
  }

  /** A new zombie is valid and its stage counters start at their start
      values, which are whole multiples of a second in the drawn ranges. */
  lemma ZombieInitValid(pos: Point, direction: Dir, distance: int, k: seq<int>, v: Variant)
    requires ZombieDraw(distance, k)
    ensures var z := ZombieInit(pos, direction, distance, k);
      && ZombieValid(z, v) && z.countdown == z.start
      && 150 <= z.distance <= 300
      && z.start[0] in {30, 60} && z.start[1] in {30, 60} && z.start[2] in {30, 60, 90}
  {
  }

  /** The landing snaps onto the last obstacle it stands on that was below
      the zombie's feet while it was not rising: the zombie either is left
      alone or ends up exactly on top of one such obstacle with no vertical
      speed, and if any such obstacle is within a pixel of its feet while it
      is not rising it does land. */
  lemma {:induction false} ZombieLandAllSpec(z: ZombieState, h: real, cs: seq<Other>, v: Variant)
    ensures var r := ZombieLandAll(z, h, cs, v);
      && ((r.y == z.y && r.dy == z.dy)
          || (r.dy == 0.0 && exists i :: 0 <= i < |cs| && StandsOn(v, cs[i].kind) && r.y == cs[i].pos.y - h))
    ensures z.dy >= 0.0 && (exists i :: 0 <= i < |cs| && StandsOn(v, cs[i].kind) && z.y + h + 1.0 > cs[i].pos.y)
            ==> ZombieLandAll(z, h, cs, v).dy == 0.0
    decreases |cs|
  {
    if cs != [] {
      var init, last := cs[..|cs| - 1], cs[|cs| - 1];
      ZombieLandAllSpec(z, h, init, v);
      var r0 := ZombieLandAll(z, h, init, v);
      var r := ZombieLand(r0, h, last, v);
      if r0.y == z.y && r0.dy == z.dy {
      } else {
        var i :| 0 <= i < |init| && StandsOn(v, init[i].kind) && r0.y == init[i].pos.y - h;
        assert cs[i] == init[i];
      }
      if r != r0 {
        assert r.y == cs[|cs| - 1].pos.y - h;
      }
      if z.dy >= 0.0 && (exists i :: 0 <= i < |cs| && StandsOn(v, cs[i].kind) && z.y + h + 1.0 > cs[i].pos.y) {
        var i :| 0 <= i < |cs| && StandsOn(v, cs[i].kind) && z.y + h + 1.0 > cs[i].pos.y;
        if i < |init| {
          assert init[i] == cs[i];
        }
      }
    }
  }

  /** One move of a valid zombie keeps it valid. */
  lemma ZombieStepValid(z: ZombieState, t: Tick, v: Variant)
    requires ZombieValid(z, v)
    ensures ZombieValid(ZombieStep(z, t, v).state, v)
  {
    var a := ZombieAdvance(z).state;
    AdvanceValid(z, v);
    var sz := ZombieSize(a.pose);
    SettleValid(a, sz, t, v);
    SetStateValid(ZombieSettle(a, sz, t, v), v);
  }

  lemma AdvanceValid(z: ZombieState, v: Variant)
    requires ZombieValid(z, v)
    ensures ZombieValid(ZombieAdvance(z).state, v)
  {
    CountdownSteps(z.countdown, z.start);
  }

  lemma SettleValid(z: ZombieState, sz: Point, t: Tick, v: Variant)
    requires ZombieValid(z, v)
    ensures ZombieValid(ZombieSettle(z, sz, t, v), v)
  {
  }

  lemma SetStateValid(z: ZombieState, v: Variant)
    requires ZombieValid(z, v)
    ensures ZombieValid(ZombieSetState(z), v)
  {
  }

  /** The choreography of one move, before landing and clamping: while the
      zombie is rising only the first running stage counter loses a frame
      and it does not move sideways; once every stage is empty it walks 3
      pixels in its direction and the distance left drops by 3; once the
      distance is used up it stops, the stages are refilled in reverse
      order, and when they are full it is despawned and asks to be removed.
      No other move asks for anything. */
  lemma ZombieAdvanceSpec(z: ZombieState, v: Variant)
    requires ZombieValid(z, v)
    ensures var a := ZombieAdvance(z);
      && (z.distance > 0 && !Drained(z.countdown) ==>
            a.state == z.(countdown := a.state.countdown) && a.state.dx == 0.0
            && Sum3(a.state.countdown) == Sum3(z.countdown) - 1)
      && (z.distance > 0 && Drained(z.countdown) ==>
            a.state.dx == (if z.direction == Right then 3.0 else -3.0)
            && a.state.x == z.x + a.state.dx && a.state.distance == z.distance - 3
            && a.state.countdown == z.countdown)
      && (z.distance <= 0 ==> a.state.dx == 0.0 && a.state.distance == z.distance && a.state.x == z.x)
      && (z.distance <= 0 && z.countdown != z.start ==>
            Sum3(a.state.countdown) == Sum3(z.countdown) + 1 && !a.state.despawned)
      && (a.requests != [] <==> z.distance <= 0 && z.countdown == z.start)
      && (a.requests != [] ==> a.requests == [Kill(Me)] && a.state.despawned)
  {
    CountdownSteps(z.countdown, z.start);
  }

  /** After any move of the current zombie the vertical speed is at most 8,
      and (for either zombie) when the world is at least as large as the box
      the zombie had at the start of the move, it lies inside the world. */
  lemma ZombieStepBounds(z: ZombieState, t: Tick, v: Variant)
    requires |z.countdown| == 3 && |z.start| == 3
    ensures var r := ZombieStep(z, t, v).state;
      && (v == Current ==> r.dy <= ZombieMaxDy)
      && (t.world.x >= ZombieSize(z.pose).x ==> 0.0 <= r.x <= t.world.x - ZombieSize(z.pose).x)
      && (t.world.y >= ZombieSize(z.pose).y ==> 0.0 <= r.y <= t.world.y - ZombieSize(z.pose).y)
  {
    var a := ZombieAdvance(z);
    assert a.state.pose == z.pose;
  }

  /** The pose after a move follows the priority of `_set_state`: a
      despawned zombie shows Despawned; a walking one one of the three walk
      frames, chosen by the third of the walk countdown, which then counts
      down modulo 30; a stopped one whose stages are not all empty the first
      running stage; and otherwise Idle. */
  lemma ZombiePoseSpec(z: ZombieState)
    requires |z.countdown| == 3 && 0 <= z.walkAnim <= WalkAnimStart
    requires forall i :: 0 <= i < 3 ==> z.countdown[i] >= 0
    ensures var r := ZombieSetState(z);
      && (z.despawned ==> r.pose == Despawned)
      && (!z.despawned && z.dx != 0.0 ==>
            r.pose in {Walk1, Walk2, Walk3}
            && (r.pose == Walk1 <==> z.walkAnim > 20)
            && (r.pose == Walk3 <==> z.walkAnim <= 10)
            && 0 <= r.walkAnim < WalkAnimStart
            && r.walkAnim == (if z.walkAnim == 0 then WalkAnimStart - 1 else z.walkAnim - 1))
      && (!z.despawned && z.dx == 0.0 && !Drained(z.countdown) ==>
            exists i :: 0 <= i < 3 && FirstRunning(i, z.countdown, r.pose))
      && (!z.despawned && z.dx == 0.0 && Drained(z.countdown) ==> r.pose == Idle)
  {
    if !z.despawned && z.dx == 0.0 && !Drained(z.countdown) {
      var c := z.countdown;
      if c[0] > 0 {
        assert FirstRunning(0, c, ZombieSetState(z).pose);
      } else if c[1] > 0 {
        assert FirstRunning(1, c, ZombieSetState(z).pose);
      } else {
        assert FirstRunning(2, c, ZombieSetState(z).pose);
      }
    }
  }

  /** Stage `i` is the first one still running and `p` is its pose. */
  predicate FirstRunning(i: int, c: seq<int>, p: ZombiePose)
    requires 0 <= i < 3 && |c| == 3
  {
    c[i] > 0 && p == [Spawn1, Spawn2, Spawn3][i] && forall j :: 0 <= j < i ==> c[j] == 0
  }

  /** How many moves a zombie has left before the move that removes it:
      the stage frames still to drain, one move per 3 pixels still to walk,
      and the full refill plus the despawn move; or, once it has stopped,
      the frames still to refill plus the despawn move. */
  ghost function MovesLeft(z: ZombieState): int
    requires |z.countdown| == 3 && |z.start| == 3
  {
    if z.distance > 0 then Sum3(z.countdown) + (z.distance + 2) / 3 + Sum3(z.start) + 1
    else Sum3(z.start) - Sum3(z.countdown) + 1
  }

  /** Every move of a zombie that has not despawned brings it exactly one
      move closer to despawning: the move despawns it (and asks for its
      removal) exactly when one move was left. */
  lemma ZombieProgress(z: ZombieState, t: Tick, v: Variant)
    requires ZombieValid(z, v) && !z.despawned
    ensures MovesLeft(z) >= 1
    ensures var r := ZombieStep(z, t, v);
      && (r.state.despawned <==> MovesLeft(z) == 1)
      && (r.requests == [Kill(Me)] <==> MovesLeft(z) == 1)
      && (MovesLeft(z) > 1 ==> r.requests == [] && MovesLeft(r.state) == MovesLeft(z) - 1)
  {
    CountdownSteps(z.countdown, z.start);
    ZombieAdvanceSpec(z, v);
    AdvanceDecides(z, t, v);
    if z.distance > 0 && Drained(z.countdown) {
      assert Sum3(z.countdown) == 0;
      if z.distance - 3 > 0 {
        assert (z.distance - 3 + 2) / 3 == (z.distance + 2) / 3 - 1;
      } else {
        assert (z.distance + 2) / 3 == 1;
      }
    }
  }

  /** The second half of a move only settles and poses the zombie: its
      progress and its requests are those of the first half. */
  lemma AdvanceDecides(z: ZombieState, t: Tick, v: Variant)
    requires |z.countdown| == 3 && |z.start| == 3
    ensures var r := ZombieStep(z, t, v); var a := ZombieAdvance(z);
      && r.requests == a.requests && r.state.distance == a.state.distance
      && r.state.countdown == a.state.countdown && r.state.despawned == a.state.despawned
  {
  }

  /** The zombie after a sequence of moves (requests dropped). */
  function ZombieRun(z: ZombieState, ticks: seq<Tick>, v: Variant): (r: ZombieState)
    requires |z.countdown| == 3 && |z.start| == 3
    ensures |r.countdown| == 3 && r.start == z.start
    decreases |ticks|
  {
    if ticks == [] then z else ZombieStep(ZombieRun(z, ticks[..|ticks| - 1], v), ticks[|ticks| - 1], v).state
  }

  /** Fewer moves than it has left leave a zombie valid, not despawned, and
      exactly that many moves closer to its end. */
  lemma {:induction false} ZombieCountsDown(z: ZombieState, ticks: seq<Tick>, v: Variant)
    requires ZombieValid(z, v) && !z.despawned
    requires |ticks| < MovesLeft(z)
    ensures var r := ZombieRun(z, ticks, v);
      ZombieValid(r, v) && !r.despawned && MovesLeft(r) == MovesLeft(z) - |ticks|
    decreases |ticks|
  {
    if ticks != [] {
      var init := ticks[..|ticks| - 1];
      ZombieCountsDown(z, init, v);
      var r0 := ZombieRun(z, init, v);
      ZombieProgress(r0, ticks[|ticks| - 1], v);
      ZombieStepValid(r0, ticks[|ticks| - 1], v);
    }
  }

  /** The whole life of a zombie, whatever it meets: it asks for nothing
      during its first `MovesLeft - 1` moves and asks for its removal on the
      next one. */
  lemma ZombieLifetime(z: ZombieState, ticks: seq<Tick>, v: Variant)
    requires ZombieValid(z, v) && !z.despawned
    requires |ticks| == MovesLeft(z)
    ensures forall k :: 0 <= k < |ticks| - 1 ==>
              !ZombieRun(z, ticks[..k], v).despawned
              && ZombieStep(ZombieRun(z, ticks[..k], v), ticks[k], v).requests == []
    ensures ZombieStep(ZombieRun(z, ticks[..|ticks| - 1], v), ticks[|ticks| - 1], v).requests == [Kill(Me)]
  {
    forall k | 0 <= k < |ticks|
      ensures ZombieValid(ZombieRun(z, ticks[..k], v), v) && !ZombieRun(z, ticks[..k], v).despawned
      ensures MovesLeft(ZombieRun(z, ticks[..k], v)) == MovesLeft(z) - k
    {
      ZombieCountsDown(z, ticks[..k], v);
    }
    forall k | 0 <= k < |ticks|
      ensures k < |ticks| - 1 ==> ZombieStep(ZombieRun(z, ticks[..k], v), ticks[k], v).requests == []
      ensures k == |ticks| - 1 ==> ZombieStep(ZombieRun(z, ticks[..k], v), ticks[k], v).requests == [Kill(Me)]
    {
      ZombieProgress(ZombieRun(z, ticks[..k], v), ticks[k], v);
    }
  }

  /** For a new zombie the moves it has left are twice the total stage
      length, plus one per 3 pixels of its distance, plus one. */
  lemma ZombieLifetimeFromSpawn(pos: Point, direction: Dir, distance: int, k: seq<int>)
    requires ZombieDraw(distance, k)
    ensures MovesLeft(ZombieInit(pos, direction, distance, k))
            == 2 * (k[0] + k[1] + k[2]) * Fps + (distance + 2) / 3 + 1
  {
  }

  // ---------------------------------------------------------------------
  // The Zombie as the object the source updates in place

  class Zombie {
    var x: real
    var y: real
    const direction: Dir
    var dx: real
    var dy: real
    var distance: int
    var state: ZombiePose
    var spawnCountdown: seq<int>
    var spawnCountdownStart: seq<int>
    var walkAnimCountdown: int
    var despawned: bool

    function Snapshot(): ZombieState
      reads this
    {
      ZombieState(x, y, direction, dx, dy, distance, state,
                  spawnCountdown, spawnCountdownStart, walkAnimCountdown, despawned)
    }

    predicate Shaped()
      reads this
    {
      |spawnCountdown| == 3 && |spawnCountdownStart| == 3
    }

    /** `distance` and `k` are the values `randrange` draws. */
    constructor (pos: Point, direction: Dir, distance: int, k: seq<int>)
      requires ZombieDraw(distance, k)
      ensures Snapshot() == ZombieInit(pos, direction, distance, k)
    {
      x, y := pos.x, pos.y;
      this.direction := direction;
      dx, dy := 0.0, 0.0;
      this.distance := distance;
      walkAnimCountdown := WalkAnimStart;
      new;
      InitSpawn(k);
    }

    /** `_spawn`: the first stage, the drawn stage lengths and their copy. */
    method InitSpawn(k: seq<int>)
      requires |k| == 3
      modifies this
      ensures Snapshot() == old(Snapshot()).(pose := Spawn1, countdown := StageLengths(k),
                                             start := StageLengths(k), despawned := false)
    {
      state := Spawn1;
      spawnCountdown := StageLengths(k);
      spawnCountdownStart := spawnCountdown;
      despawned := false;
    }

    function Pos(): Point
      reads this
    {
      Point(x, y)
    }

    function Size(): Point
      reads this
    {
      ZombieSize(state)
    }

    function Sprite(): Option<Clip>
      reads this
    {
      ZombieSprite(state, direction)
    }

    predicate IsDespawned()
      reads this
    {
      despawned
    }

    predicate IsOnGround()
      reads this
    {
      dy == 0.0
    }

    method Move(t: Tick) returns (reqs: seq<Request>)
      requires Shaped()
      modifies this
      ensures Snapshot() == ZombieStep(old(Snapshot()), t, Current).state
      ensures reqs == ZombieStep(old(Snapshot()), t, Current).requests
    {
      ghost var a := ZombieAdvance(Snapshot());
      reqs := Advance();
      assert Snapshot() == a.state && reqs == a.requests;

      var sz := Size();
      Land(sz.y, t.collisions);
      y := y + dy;
      dy := Min(dy + ZombieGravity, ZombieMaxDy);
      x := Min(Max(x, 0.0), t.world.x - Size().x);
      y := Min(Max(y, 0.0), t.world.y - Size().y);
      assert Snapshot() == ZombieSettle(a.state, sz, t, Current);
      SetState();
    }

    /** The landing loop of `move`, for a zombie `h` high. */
    method Land(h: real, cs: seq<Other>)
      modifies this
      ensures Snapshot() == ZombieLandAll(old(Snapshot()), h, cs, Current)
    {
      ghost var s1 := Snapshot();
      var i := 0;
      while i < |cs|
        invariant 0 <= i <= |cs|
        invariant Snapshot() == ZombieLandAll(s1, h, cs[..i], Current)
      {
        var other := cs[i];
        if (IsSolid(other.kind) || IsPlatform(other.kind)) && other.kind != Grave {
          if y + h + 1.0 > other.pos.y && dy >= 0.0 {
            y := other.pos.y - h;
            dy := 0.0;
          }
        }
        assert cs[..i + 1][..i] == cs[..i];
        i := i + 1;
      }
      assert cs[..|cs|] == cs;
    }

    /** The first half of `move`: the spawn countdown, the walk, or the
        refill and the despawn. */
    method Advance() returns (reqs: seq<Request>)
      requires Shaped()
      modifies this
      ensures Snapshot() == ZombieAdvance(old(Snapshot())).state
      ensures reqs == ZombieAdvance(old(Snapshot())).requests
    {
      reqs := [];
      if distance > 0 {
        if spawnCountdown[0] > 0 {
          spawnCountdown := spawnCountdown[0 := spawnCountdown[0] - 1];
        } else if spawnCountdown[1] > 0 {
          spawnCountdown := spawnCountdown[1 := spawnCountdown[1] - 1];
        } else if spawnCountdown[2] > 0 {
          spawnCountdown := spawnCountdown[2 := spawnCountdown[2] - 1];
        } else {
          dx := if direction == Right then ZombieSpeed else -ZombieSpeed;
          x := x + dx;
          distance := distance - 3;
        }
      } else {
        dx := 0.0;
        if spawnCountdown[2] < spawnCountdownStart[2] {
          spawnCountdown := spawnCountdown[2 := spawnCountdown[2] + 1];
        } else if spawnCountdown[1] < spawnCountdownStart[1] {
          spawnCountdown := spawnCountdown[1 := spawnCountdown[1] + 1];
        } else if spawnCountdown[0] < spawnCountdownStart[0] {
          spawnCountdown := spawnCountdown[0 := spawnCountdown[0] + 1];
        } else {
          reqs := Despawn();
        }
      }
    }

    method SetState()
      requires Shaped()
      modifies this
      ensures Snapshot() == ZombieSetState(old(Snapshot()))
    {
      if despawned {
        state := Despawned;
      } else if dx != 0.0 {
        if walkAnimCountdown as real > (WalkAnimStart as real) * 2.0 / 3.0 {
          state := Walk1;
        } else if walkAnimCountdown as real > (WalkAnimStart as real) * 1.0 / 3.0 {
          state := Walk2;
        } else {
          state := Walk3;
        }
        walkAnimCountdown := (walkAnimCountdown - 1) % WalkAnimStart;
      } else if spawnCountdown[0] != 0 || spawnCountdown[1] != 0 || spawnCountdown[2] != 0 {
        if spawnCountdown[0] > 0 {
          state := Spawn1;
        } else if spawnCountdown[1] > 0 {
          state := Spawn2;
        } else if spawnCountdown[2] > 0 {
          state := Spawn3;
        }
      } else {
        state := Idle;
      }
    }

    /** `_despawn`: mark the zombie and ask the arena to remove it. */
    method Despawn() returns (reqs: seq<Request>)
      modifies this
      ensures Snapshot() == old(Snapshot()).(despawned := true)
      ensures reqs == [Kill(Me)]
    {
      despawned := true;
      reqs := [Kill(Me)];
    }
  }

  // ---------------------------------------------------------------------
  // Plant, as a value

  const PlantMinCount := 1
  const PlantMaxCount := 10

  datatype PlantPose = PlantIdle | Shooting(stage: int)

  datatype PlantState = PlantState(pos: Point, direction: Dir, pose: PlantPose, countdown: int, start: int)

  /** The values one move of a plant is given from outside: the arena's
      view, the countdown `randint` would draw if it fires, and the Eyeball
      velocity the aiming code would compute if it fires. */
  datatype PlantInput = PlantInput(tick: Tick, draw: int, velocity: Point)

  /** `randint(1 * FPS, 10 * FPS)`. */
  predicate PlantDraw(n: int)
  {
    PlantMinCount * Fps <= n <= PlantMaxCount * Fps
  }

  function PlantInit(pos: Point): PlantState
  {
    PlantState(pos, Right, PlantIdle, PlantMaxCount, PlantMaxCount)
  }

  function PlantSize(): Point
  {
    Point(16.0, 32.0)
  }

  /** The `_sprites` table: None for a state it lacks. */
  function PlantSprites(p: PlantPose, d: Dir): Option<Clip>
  {
    match (p, d)
    case (PlantIdle, Left) => Some(Clip(564, 207))
    case (PlantIdle, Right) => Some(Clip(726, 207))
    case (Shooting(n), Left) =>
      if 1 <= n <= 4 then Some(Clip(582 + 18 * (n - 1), 207)) else None
    case (Shooting(n), Right) =>
      if 1 <= n <= 4 then Some(Clip(708 - 18 * (n - 1), 207)) else None
  }

  function PlantSprite(p: PlantPose, d: Dir): Clip
  {
    if PlantSprites(p, d).Some? then PlantSprites(p, d).value else PlantSprites(PlantIdle, Right).value
  }

  /** The shooting pose by which quarter of the current countdown is left. */
  function ShootingStage(countdown: int, start: int): int
  {
    var f := start as real / 4.0;
    if countdown as real > f * 3.0 then 1
    else if countdown as real > f * 2.0 then 2
    else if countdown as real > f then 3
    else 4
  }

  /** `Plant.move`: with no hero in the arena nothing at all happens;
      otherwise turn towards the hero, count down or fire, and pick the
      pose. */
  function PlantStep(p: PlantState, in_: PlantInput): Outcome<PlantState>
  {
    match in_.tick.hero
    case None => Outcome(p, [])
    case Some(hero) =>
      var dir := if p.pos.x < hero.x then Right else Left;
      var fired := p.countdown <= 0;
      var cd := if fired then in_.draw else p.countdown - 1;
      var start := if fired then in_.draw else p.start;
      Outcome(PlantState(p.pos, dir, Shooting(ShootingStage(cd, start)), cd, start),
              if fired then [Spawn(NewEyeball(p.pos, in_.velocity))] else [])
  }

  /** What one move of a plant does: with no hero, nothing; otherwise it
      faces Right exactly when it is left of the hero, it never moves, it
      fires exactly one Eyeball from its own position exactly when its
      countdown has run out, and then restarts the countdown at the drawn
      value; otherwise the countdown drops by one. */
  lemma PlantStepSpec(p: PlantState, in_: PlantInput)
    ensures var r := PlantStep(p, in_);
      && (in_.tick.hero.None? ==> r.state == p && r.requests == [])
      && (in_.tick.hero.Some? ==>
            && r.state.pos == p.pos
            && (r.state.direction == Right <==> p.pos.x < in_.tick.hero.value.x)
            && (r.requests != [] <==> p.countdown <= 0)
            && (r.requests != [] ==> r.requests == [Spawn(NewEyeball(p.pos, in_.velocity))]
                                     && r.state.countdown == in_.draw && r.state.start == in_.draw)
            && (r.requests == [] ==> r.state.countdown == p.countdown - 1 && r.state.start == p.start)
            && r.state.pose.Shooting? && 1 <= r.state.pose.stage <= 4)
  {
  }

  /** The countdown stays within its current start, which is the initial 10
      or a drawn value in [30, 300]. */
  ghost predicate PlantValid(p: PlantState)
  {
    0 <= p.countdown <= p.start && (p.start == PlantMaxCount || PlantDraw(p.start))
  }

  lemma PlantStepValid(p: PlantState, in_: PlantInput)
    requires PlantValid(p) && PlantDraw(in_.draw)
    ensures PlantValid(PlantStep(p, in_).state)
  {
  }

  /** As the countdown runs down the pose only moves forward, from
      Shooting1 just after a shot with a positive countdown to Shooting4 at
      the last quarter. */
  lemma ShootingStageAdvances(cd1: int, cd2: int, start: int)
    requires 0 <= cd2 <= cd1
    ensures ShootingStage(cd2, start) >= ShootingStage(cd1, start)
    ensures start > 0 ==> ShootingStage(start, start) == 1
    ensures ShootingStage(0, start) == 4 || start < 0
    ensures 1 <= ShootingStage(cd1, start) <= 4
  {
  }

  /** The plant after a sequence of moves (requests dropped). */
  function PlantRun(p: PlantState, ins: seq<PlantInput>): PlantState
    decreases |ins|
  {
    if ins == [] then p else PlantRun(PlantStep(p, ins[0]).state, ins[1..])
  }

  /** A plant with `n` frames on its countdown does not fire during its next
      `n` moves, whether or not the hero is there; right after a shot that is
      the drawn countdown, so two shots are at least 31 moves apart. */
  lemma {:induction false} PlantHoldsFire(p: PlantState, ins: seq<PlantInput>)
    requires |ins| <= p.countdown
    ensures PlantRun(p, ins).countdown >= p.countdown - |ins|
    ensures forall k :: 0 <= k < |ins| ==> PlantStep(PlantRun(p, ins[..k]), ins[k]).requests == []
    decreases |ins|
  {
    if ins != [] {
      var p1 := PlantStep(p, ins[0]).state;
      PlantHoldsFire(p1, ins[1..]);
      forall k | 0 <= k < |ins|
        ensures PlantStep(PlantRun(p, ins[..k]), ins[k]).requests == []
      {
        if k == 0 {
          assert ins[..0] == [];
        } else {
          assert ins[..k][1..] == ins[1..][..k - 1];
          assert ins[k] == ins[1..][k - 1];
        }
      }
    }
  }

  /** Each shooting pose has its own image in both directions, and a pose
      the table lacks shows a plant facing right at rest. */
  lemma PlantLooks(p: PlantPose, d: Dir)
    ensures PlantSprites(p, d).None? <==> p.Shooting? && !(1 <= p.stage <= 4)
    ensures PlantSprites(p, d).None? ==> PlantSprite(p, d) == Clip(726, 207)
    ensures forall n, m :: 1 <= n < m <= 4 ==> PlantSprite(Shooting(n), d) != PlantSprite(Shooting(m), d)
  {
  }

  /** `get_hero`: the first Arthur among the live actors. */
  method GetHero(actors: seq<Other>) returns (hero: Option<Other>)
    ensures hero.None? <==> forall i :: 0 <= i < |actors| ==> actors[i].kind != Arthur
    ensures hero.Some? ==> exists i :: 0 <= i < |actors| && actors[i] == hero.value && hero.value.kind == Arthur
                                        && forall j :: 0 <= j < i ==> actors[j].kind != Arthur
  {
    var i := 0;
    while i < |actors|
      invariant 0 <= i <= |actors|
      invariant forall j :: 0 <= j < i ==> actors[j].kind != Arthur
    {
      if actors[i].kind == Arthur {
        return Some(actors[i]);
      }
      i := i + 1;
    }
    return None;
  }

  class Plant {
    const x: real
    const y: real
    var state: PlantPose
    var direction: Dir
    var shootCountdown: int
    var currentStartShootCountdown: int

    function Snapshot(): PlantState
      reads this
    {
      PlantState(Point(x, y), direction, state, shootCountdown, currentStartShootCountdown)
    }

    constructor (pos: Point)
      ensures Snapshot() == PlantInit(pos)
    {
      x, y := pos.x, pos.y;
      state, direction := PlantIdle, Right;
      shootCountdown := PlantMaxCount;
      currentStartShootCountdown := shootCountdown;
    }

    function Pos(): Point
      reads this
    {
      Point(x, y)
    }

    function Size(): Point
    {
      PlantSize()
    }

    function Sprite(): Clip
      reads this
    {
      PlantSprite(state, direction)
    }

    method Move(in_: PlantInput) returns (reqs: seq<Request>)
      modifies this
      ensures Snapshot() == PlantStep(old(Snapshot()), in_).state
      ensures reqs == PlantStep(old(Snapshot()), in_).requests
    {
      reqs := [];
      if in_.tick.hero.None? {
        return;
      }
      var hero := in_.tick.hero.value;
      direction := if x < hero.x then Right else Left;
      reqs := Shoot(in_);
      SetState();
    }

    method Shoot(in_: PlantInput) returns (reqs: seq<Request>)
      modifies this
      ensures old(shootCountdown) <= 0 ==>
                reqs == [Spawn(NewEyeball(Pos(), in_.velocity))]
                && Snapshot() == old(Snapshot()).(countdown := in_.draw, start := in_.draw)
      ensures old(shootCountdown) > 0 ==> reqs == [] && Snapshot() == old(Snapshot()).(countdown := old(shootCountdown) - 1)
    {
      if shootCountdown > 0 {
        shootCountdown := shootCountdown - 1;
        reqs := [];
      } else {
        reqs := [Spawn(NewEyeball(Pos(), in_.velocity))];
        shootCountdown := in_.draw;
        currentStartShootCountdown := shootCountdown;
      }
    }

    method SetState()
      modifies this
      ensures Snapshot() == old(Snapshot()).(pose := Shooting(ShootingStage(shootCountdown, currentStartShootCountdown)))
    {
      var shootFrames := currentStartShootCountdown as real / 4.0;
      if shootCountdown as real > shootFrames * 3.0 {
        state := Shooting(1);
      } else if shootCountdown as real > shootFrames * 2.0 {
        state := Shooting(2);
      } else if shootCountdown as real > shootFrames {
        state := Shooting(3);
      } else {
        state := Shooting(4);
      }
    }
  }

  // ---------------------------------------------------------------------
  // Eyeball

  datatype EyeballState = EyeballState(pos: Point, velocity: Point)

  function EyeballStep(e: EyeballState): EyeballState
  {
    e.(pos := Point(e.pos.x + e.velocity.x, e.pos.y + e.velocity.y))
  }

  function EyeballSprite(e: EyeballState): Clip
  {
    if e.velocity.x < 0.0 then Clip(575, 51) else Clip(721, 51)
  }

  function EyeballSize(): Point
  {
    Point(10.0, 11.0)
  }

  function EyeballRun(e: EyeballState, n: nat): EyeballState
    decreases n
  {
    if n == 0 then e else EyeballRun(EyeballStep(e), n - 1)
  }

  /** An eyeball flies in a straight line at constant velocity: after `n`
      moves it is `n` velocities away from where it was fired, and it keeps
      the image of its horizontal direction. */
  lemma {:induction false} EyeballFlight(e: EyeballState, n: nat)
    ensures EyeballRun(e, n).velocity == e.velocity
    ensures EyeballRun(e, n).pos == Point(e.pos.x + (n as real) * e.velocity.x, e.pos.y + (n as real) * e.velocity.y)
    ensures EyeballSprite(EyeballRun(e, n)) == EyeballSprite(e)
    decreases n
  {
    if n > 0 {
      EyeballFlight(EyeballStep(e), n - 1);
      var m := n as real;
      assert m * e.velocity.x == e.velocity.x + (m - 1.0) * e.velocity.x;
      assert m * e.velocity.y == e.velocity.y + (m - 1.0) * e.velocity.y;
    }
  }

  class Eyeball {
    var x: real
    var y: real
    const dx: real
    const dy: real

    function Snapshot(): EyeballState
      reads this
    {
      EyeballState(Point(x, y), Point(dx, dy))
    }

    /** The arena registration the source does here is the plant's spawn
        request. */
    constructor (pos: Point, movement: Point)
      ensures Snapshot() == EyeballState(pos, movement)
    {
      x, y := pos.x, pos.y;
      dx, dy := movement.x, movement.y;
    }

    function Pos(): Point
      reads this
    {
      Point(x, y)
    }

    function Size(): Point
    {
      EyeballSize()
    }

    function Sprite(): Clip
      reads this
    {
      EyeballSprite(Snapshot())
    }

    /** The eyeball never asks for anything: it is not removed by its own
        move. */
    method Move(t: Tick) returns (reqs: seq<Request>)
      modifies this
      ensures Snapshot() == EyeballStep(old(Snapshot()))
      ensures reqs == []
    {
      x := x + dx;
      y := y + dy;
      reqs := [];
    }
  }
}
