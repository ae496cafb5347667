/** Arthur's weapons (src/actors/weapons.py): the thrown Torch, which flies
    on a parabola, and the Flame it leaves where it lands. */
module Weapons {
  import opened Arena
  import opened Utilities

  // ---------------------------------------------------------------------
  // Torch, as a value

  const TorchSpeed := 8.0
  const TorchThrow := -10.0
  const TorchGravity := 2.0
  const TorchMaxDy := 8.0

  datatype TorchState = TorchState(x: real, y: real, direction: Dir, dx: real, dy: real, animCount: int)

  function TorchInit(direction: Dir, pos: Point): TorchState
  {
    TorchState(pos.x, pos.y, direction,
               if direction == Right then TorchSpeed else -TorchSpeed, TorchThrow, 0)
  }

  /** Which of the two animation frames is shown: they swap every 8 moves. */
  function TorchFrame(animCount: int): int
  {
    (animCount / 8) % 2
  }

  function TorchSize(animCount: int): Point
  {
    if TorchFrame(animCount) == 0 then Point(14.0, 13.0) else Point(13.0, 14.0)
  }

  function TorchSprite(animCount: int): Clip
  {
    if TorchFrame(animCount) == 0 then Clip(0, 896) else Clip(19, 896)
  }

  /** Ground and platforms make the torch burst into a flame. */
  predicate Ignites(k: Kind)
  {
    k == Ground || IsPlatform(k)
  }

  /** Where a torch at `s` that lands on `o` leaves its flame: its own
      horizontal centre, on the top edge of `o`. */
  function FlameSpot(s: TorchState, o: Other): Point
  {
    Point(s.x + TorchSize(s.animCount).x / 2.0, o.pos.y)
  }

  /** `o` makes a torch at `s` burst into a flame at `a`. */
  predicate LightsAt(s: TorchState, o: Other, a: Point)
  {
    !IsEnemy(o.kind) && Ignites(o.kind) && a == FlameSpot(s, o)
  }

  /** What touching one other actor asks of the arena, for a torch at `s`. */
  function TorchHit(s: TorchState, o: Other): seq<Request>
  {
    if IsEnemy(o.kind) then [Kill(Collided(o.id)), Kill(Me)]
    else if Ignites(o.kind) then
      [Spawn(NewFlame(FlameSpot(s, o))), Kill(Me)]
    else if IsSolid(o.kind) then [Kill(Me)]
    else []
  }

  /** The requests of the collision loop, in the order of the collisions. */
  function TorchHits(s: TorchState, cs: seq<Other>): seq<Request>
    decreases |cs|
  {
    if cs == [] then [] else TorchHits(s, cs[..|cs| - 1]) + TorchHit(s, cs[|cs| - 1])
  }

  /** `Torch.move`: fly, collide, fall out of the world, accelerate, animate. */
  function TorchStep(s: TorchState, t: Tick): Outcome<TorchState>
  {
    var s1 := s.(x := s.x + s.dx, y := s.y + s.dy);
    var hits := TorchHits(s1, t.collisions);
    var fell := if s1.y > t.world.y then [Kill(Me)] else [];
    Outcome(TorchFly(s), hits + fell)
  }

  /** The state a move leaves the torch in: whatever it touches, it flies
      by its velocity, accelerates and animates. */
  function TorchFly(s: TorchState): TorchState
  {
    var s1 := s.(x := s.x + s.dx, y := s.y + s.dy);
    s1.(dy := Min(s1.dy + TorchGravity, TorchMaxDy), animCount := s1.animCount + 1)
  }

  /** Every move first adds the velocity to the position, then lets gravity
      act with the cap: the horizontal speed never changes and the vertical
      one never exceeds 8. */
  lemma TorchStepMotion(s: TorchState, t: Tick)
    ensures var r := TorchStep(s, t).state;
      && r.x == s.x + s.dx && r.y == s.y + s.dy
      && r.dx == s.dx && r.direction == s.direction
      && r.dy <= TorchMaxDy
      && (s.dy + TorchGravity <= TorchMaxDy ==> r.dy == s.dy + TorchGravity)
  {
  }

  /** What one collision asks for: an overlapped enemy is killed; ground
      or a platform (that is not an enemy) makes a flame at the torch's
      horizontal centre on the other's top edge; and the torch kills itself
      on an enemy, a solid or a platform. */
  lemma TorchHitSpec(s: TorchState, o: Other)
    ensures forall id :: Kill(Collided(id)) in TorchHit(s, o) <==> o.id == id && IsEnemy(o.kind)
    ensures forall a :: Spawn(NewFlame(a)) in TorchHit(s, o) <==>
              LightsAt(s, o, a)
    ensures Kill(Me) in TorchHit(s, o) <==> IsEnemy(o.kind) || IsSolid(o.kind) || IsPlatform(o.kind)
  {
  }

  /** Which actors the collision loop kills, whatever the order of the
      collisions: exactly the overlapping enemies. */
  lemma {:induction false} TorchKillsEnemies(s: TorchState, cs: seq<Other>)
    ensures forall id :: Kill(Collided(id)) in TorchHits(s, cs) <==>
              exists i :: 0 <= i < |cs| && cs[i].id == id && IsEnemy(cs[i].kind)
    decreases |cs|
  {
    if cs != [] {
      var init, last := cs[..|cs| - 1], cs[|cs| - 1];
      TorchKillsEnemies(s, init);
      TorchHitSpec(s, last);
      forall id ensures Kill(Collided(id)) in TorchHits(s, cs) <==>
                        exists i :: 0 <= i < |cs| && cs[i].id == id && IsEnemy(cs[i].kind)
      {
        if Kill(Collided(id)) in TorchHits(s, init) {
          var i :| 0 <= i < |init| && init[i].id == id && IsEnemy(init[i].kind);
          assert cs[i] == init[i];
        }
        if exists i :: 0 <= i < |cs| && cs[i].id == id && IsEnemy(cs[i].kind) {
          var i :| 0 <= i < |cs| && cs[i].id == id && IsEnemy(cs[i].kind);
          if i < |init| { assert init[i] == cs[i]; }
        }
      }
    }
  }

  /** Which flames the collision loop spawns: one exactly at the torch's
      horizontal centre on the top edge of each ground or platform touched
      (that is not an enemy), and no other. */
  lemma {:induction false} TorchIgnites(s: TorchState, cs: seq<Other>)
    ensures forall a :: Spawn(NewFlame(a)) in TorchHits(s, cs) <==>
              exists i :: 0 <= i < |cs| && LightsAt(s, cs[i], a)
    decreases |cs|
  {
    if cs != [] {
      var init, last := cs[..|cs| - 1], cs[|cs| - 1];
      TorchIgnites(s, init);
      TorchHitSpec(s, last);
      forall a ensures Spawn(NewFlame(a)) in TorchHits(s, cs) <==>
                       exists i :: 0 <= i < |cs| && LightsAt(s, cs[i], a)
      {
        if Spawn(NewFlame(a)) in TorchHits(s, init) {
          var i :| 0 <= i < |init| && LightsAt(s, init[i], a);
          assert cs[i] == init[i];
        }
        if exists i :: 0 <= i < |cs| && LightsAt(s, cs[i], a) {
          var i :| 0 <= i < |cs| && LightsAt(s, cs[i], a);
          if i < |init| { assert init[i] == cs[i]; }
        }
      }
    }
  }

  /** The torch asks for its own removal in the collision loop exactly when
      it touches an enemy or any background solid or platform. */
  lemma {:induction false} TorchStopped(s: TorchState, cs: seq<Other>)
    ensures Kill(Me) in TorchHits(s, cs) <==>
              exists i :: 0 <= i < |cs| && (IsEnemy(cs[i].kind) || IsSolid(cs[i].kind) || IsPlatform(cs[i].kind))
    decreases |cs|
  {
    if cs != [] {
      var init, last := cs[..|cs| - 1], cs[|cs| - 1];
      TorchStopped(s, init);
      TorchHitSpec(s, last);
      if Kill(Me) in TorchHits(s, init) {
        var i :| 0 <= i < |init| && (IsEnemy(init[i].kind) || IsSolid(init[i].kind) || IsPlatform(init[i].kind));
        assert cs[i] == init[i];
      }
      if exists i :: 0 <= i < |cs| && (IsEnemy(cs[i].kind) || IsSolid(cs[i].kind) || IsPlatform(cs[i].kind)) {
        var i :| 0 <= i < |cs| && (IsEnemy(cs[i].kind) || IsSolid(cs[i].kind) || IsPlatform(cs[i].kind));
        if i < |init| { assert init[i] == cs[i]; }
      }
    }
  }

  /** A torch that ends the move below the bottom of the world asks to be
      removed, whatever it touched. */
  lemma TorchFallsOut(s: TorchState, t: Tick)
    requires s.y + s.dy > t.world.y
    ensures Kill(Me) in TorchStep(s, t).requests
  {
  }

  /** The two frames are each other's transpose, and they swap every 8 moves. */
  lemma TorchFramesAlternate(animCount: nat)
    ensures TorchFrame(animCount + 8) != TorchFrame(animCount)
    ensures TorchFrame(animCount + 16) == TorchFrame(animCount)
    ensures TorchSize(animCount + 8) == Point(TorchSize(animCount).y, TorchSize(animCount).x)
    ensures TorchSprite(animCount + 8) != TorchSprite(animCount)
  {
    assert (animCount + 8) / 8 == animCount / 8 + 1;
    assert (animCount + 16) / 8 == animCount / 8 + 2;
  }

  /** The torch after a sequence of moves (requests dropped). */
  function TorchRun(s: TorchState, ticks: seq<Tick>): TorchState
    decreases |ticks|
  {
    if ticks == [] then s else TorchRun(TorchStep(s, ticks[0]).state, ticks[1..])
  }

  /** Over any number of moves the horizontal speed stays what the throw
      gave it, the animation counter counts the moves, and the vertical
      speed never exceeds the cap once it is within it. */
  lemma {:induction false} TorchFlight(s: TorchState, ticks: seq<Tick>)
    ensures TorchRun(s, ticks).dx == s.dx
    ensures TorchRun(s, ticks).animCount == s.animCount + |ticks|
    ensures s.dy <= TorchMaxDy ==> TorchRun(s, ticks).dy <= TorchMaxDy
    decreases |ticks|
  {
    if ticks != [] {
      TorchStepMotion(s, ticks[0]);
      TorchFlight(TorchStep(s, ticks[0]).state, ticks[1..]);
    }
  }

  /** The torch after `n` moves, whatever they touch. */
  function Flown(s: TorchState, n: nat): TorchState
    decreases n
  {
    if n == 0 then s else Flown(TorchFly(s), n - 1)
  }

  /** A run of moves is a flight of as many moves: what the torch touches
      never changes its course. */
  lemma {:induction false} RunIsFlight(s: TorchState, ticks: seq<Tick>)
    ensures TorchRun(s, ticks) == Flown(s, |ticks|)
    decreases |ticks|
  {
    if ticks != [] {
      RunIsFlight(TorchFly(s), ticks[1..]);
    }
  }

  /** After `n` moves (whatever they touch, by `RunIsFlight`) the torch is
      `n` times its horizontal speed away from where it started. */
  lemma {:induction false} TorchDistance(s: TorchState, n: nat)
    ensures Flown(s, n).x == s.x + (n as real) * s.dx
    decreases n
  {
    if n > 0 {
      var s1 := TorchFly(s);
      var x := Flown(s1, n - 1).x;
      assert x == s1.x + ((n - 1) as real) * s1.dx by {
        TorchDistance(s1, n - 1);
      }
      OneMore(s.x, s.dx, s1.x, x, n - 1);
    }
  }

  /** One move at speed `d` followed by `m` more is `m + 1` moves. */
  lemma OneMore(x0: real, d: real, x1: real, x: real, m: nat)
    requires x1 == x0 + d && x == x1 + (m as real) * d
    ensures x == x0 + ((m + 1) as real) * d
  {
  }

  // ---------------------------------------------------------------------
  // Flame, as a value

  const FlameLife := 2 * Fps

  datatype FlameState = FlameState(start: Point, x: real, y: real, life: int, animCount: int)

  function FlameInit(anchor: Point): FlameState
  {
    FlameState(anchor, anchor.x, anchor.y, FlameLife, 0)
  }

  function FlameSize(animCount: int): Point
  {
    if animCount == 0 then Point(23.0, 23.0) else Point(32.0, 32.0)
  }

  function FlameSprite(animCount: int): Clip
  {
    if animCount == 0 then Clip(228, 744) else Clip(192, 736)
  }

  /** Every overlapping enemy is killed, in the order of the collisions. */
  function FlameKills(cs: seq<Other>): seq<Request>
    decreases |cs|
  {
    if cs == [] then []
    else FlameKills(cs[..|cs| - 1]) + (if IsEnemy(cs[|cs| - 1].kind) then [Kill(Collided(cs[|cs| - 1].id))] else [])
  }

  /** `Flame.move`: pick the frame from the frame counter, re-anchor, burn
      enemies, age. */
  function FlameStep(f: FlameState, t: Tick): Outcome<FlameState>
  {
    var anim := (t.count / 4) % 2;
    var sz := FlameSize(anim);
    var f1 := f.(animCount := anim, x := f.start.x - sz.x / 2.0, y := f.start.y - sz.y);
    var kills := FlameKills(t.collisions);
    if f1.life > 0 then Outcome(f1.(life := f1.life - 1), kills)
    else Outcome(f1, kills + [Kill(Me)])
  }

  /** After every move the flame's bottom-centre is its ground anchor,
      whichever frame is shown; the anchor never moves; the overlapping
      actors killed are exactly the enemies; the flame asks for its own
      removal exactly when its life has run out, and otherwise loses one
      frame of life. */
  lemma FlameStepSpec(f: FlameState, t: Tick)
    ensures var r := FlameStep(f, t);
      && r.state.start == f.start
      && r.state.x + FlameSize(r.state.animCount).x / 2.0 == f.start.x
      && r.state.y + FlameSize(r.state.animCount).y == f.start.y
      && r.state.animCount in {0, 1}
      && (Kill(Me) in r.requests <==> f.life <= 0)
      && r.state.life == (if f.life > 0 then f.life - 1 else f.life)
      && (forall id :: Kill(Collided(id)) in r.requests <==>
            exists i :: 0 <= i < |t.collisions| && t.collisions[i].id == id && IsEnemy(t.collisions[i].kind))
  {
    FlameKillsSpec(t.collisions);
  }

  lemma {:induction false} FlameKillsSpec(cs: seq<Other>)
    ensures Kill(Me) !in FlameKills(cs)
    ensures forall id :: Kill(Collided(id)) in FlameKills(cs) <==>
              exists i :: 0 <= i < |cs| && cs[i].id == id && IsEnemy(cs[i].kind)
    decreases |cs|
  {
    if cs != [] {
      var init := cs[..|cs| - 1];
      FlameKillsSpec(init);
      forall id ensures Kill(Collided(id)) in FlameKills(cs) <==>
                        exists i :: 0 <= i < |cs| && cs[i].id == id && IsEnemy(cs[i].kind)
      {
        if exists i :: 0 <= i < |cs| && cs[i].id == id && IsEnemy(cs[i].kind) {
          var i :| 0 <= i < |cs| && cs[i].id == id && IsEnemy(cs[i].kind);
          if i < |init| { assert init[i] == cs[i]; }
        }
        if Kill(Collided(id)) in FlameKills(init) {
          var i :| 0 <= i < |init| && init[i].id == id && IsEnemy(init[i].kind);
          assert cs[i] == init[i];
        }
      }
    }
  }

  /** The flame after a sequence of moves (requests dropped). */
  function FlameRun(f: FlameState, ticks: seq<Tick>): FlameState
    decreases |ticks|
  {
    if ticks == [] then f else FlameRun(FlameStep(f, ticks[0]).state, ticks[1..])
  }

  /** A flame with `life` frames left loses one per move and does not ask to
      be removed while it has life left. */
  lemma {:induction false} FlameAges(f: FlameState, ticks: seq<Tick>)
    requires |ticks| <= f.life
    ensures FlameRun(f, ticks).life == f.life - |ticks|
    ensures FlameRun(f, ticks).start == f.start
    ensures forall k :: 0 <= k < |ticks| ==> Kill(Me) !in FlameStep(FlameRun(f, ticks[..k]), ticks[k]).requests
    decreases |ticks|
  {
    if ticks != [] {
      var f1 := FlameStep(f, ticks[0]).state;
      FlameStepSpec(f, ticks[0]);
      FlameAges(f1, ticks[1..]);
      forall k | 0 <= k < |ticks|
        ensures Kill(Me) !in FlameStep(FlameRun(f, ticks[..k]), ticks[k]).requests
      {
        if k > 0 {
          assert ticks[..k][1..] == ticks[1..][..k - 1];
          assert ticks[k] == ticks[1..][k - 1];
        } else {
          assert ticks[..0] == [];
        }
      }
    }
  }

  /** A fresh flame lives 60 moves and asks for its removal on the 61st. */
  lemma FlameLifetime(anchor: Point, ticks: seq<Tick>)
    requires |ticks| == FlameLife + 1
    ensures forall k :: 0 <= k < FlameLife ==>
              Kill(Me) !in FlameStep(FlameRun(FlameInit(anchor), ticks[..k]), ticks[k]).requests
    ensures Kill(Me) in FlameStep(FlameRun(FlameInit(anchor), ticks[..FlameLife]), ticks[FlameLife]).requests
  {
    var f := FlameInit(anchor);
    var first := ticks[..FlameLife];
    FlameAges(f, first);
    forall k | 0 <= k < FlameLife
      ensures Kill(Me) !in FlameStep(FlameRun(f, ticks[..k]), ticks[k]).requests
    {
      assert first[..k] == ticks[..k];
      assert first[k] == ticks[k];
    }
    FlameStepSpec(FlameRun(f, first), ticks[FlameLife]);
  }

  // ---------------------------------------------------------------------
  // The objects the source updates in place

  class Torch {
    var x: real
    var y: real
    var direction: Dir
    var dx: real
    var dy: real
    var animCount: int

    function Snapshot(): TorchState
      reads this
    {
      TorchState(x, y, direction, dx, dy, animCount)
    }

    constructor (direction: Dir, pos: Point)
      ensures Snapshot() == TorchInit(direction, pos)
    {
      x, y := pos.x, pos.y;
      this.direction := direction;
      dx := if direction == Right then TorchSpeed else -TorchSpeed;
      dy := TorchThrow;
      animCount := 0;
    }

    function Pos(): Point
      reads this
    {
      Point(x, y)
    }

    function Size(): Point
      reads this
    {
      TorchSize(animCount)
    }

    function Sprite(): Clip
      reads this
    {
      TorchSprite(animCount)
    }

    method Move(t: Tick) returns (reqs: seq<Request>)
      modifies this
      ensures Snapshot() == TorchStep(old(Snapshot()), t).state
      ensures reqs == TorchStep(old(Snapshot()), t).requests
    {
      x := x + dx;
      y := y + dy;
      reqs := Collide(t.collisions);
      if y > t.world.y {
        reqs := reqs + [Kill(Me)];
      }
      dy := Min(dy + TorchGravity, TorchMaxDy);
      animCount := animCount + 1;
    }

    /** The collision loop of `move`, over the collisions in order. */
    method Collide(cs: seq<Other>) returns (reqs: seq<Request>)
      ensures reqs == TorchHits(Snapshot(), cs)
    {
      reqs := [];
      var i := 0;
      while i < |cs|
        invariant 0 <= i <= |cs|
        invariant reqs == TorchHits(Snapshot(), cs[..i])
      {
        var o := cs[i];
        var more: seq<Request>;
        if IsEnemy(o.kind) {
          more := [Kill(Collided(o.id)), Kill(Me)];
        } else if o.kind == Ground || IsPlatform(o.kind) {
          more := GroundCollision(o);
        } else if IsSolid(o.kind) {
          more := [Kill(Me)];
        } else {
          more := [];
        }
        assert cs[..i + 1][..i] == cs[..i];
        reqs := reqs + more;
        i := i + 1;
      }
      assert cs[..|cs|] == cs;
    }

    /** `_ground_collision`: a Flame on the ground's top edge, centred on
        the torch, and the torch's own removal. */
    method GroundCollision(other: Other) returns (reqs: seq<Request>)
      ensures reqs == [Spawn(NewFlame(Point(x + Size().x / 2.0, other.pos.y))), Kill(Me)]
    {
      var w := Size().x;
      var cx := x + w / 2.0;
      reqs := [Spawn(NewFlame(Point(cx, other.pos.y))), Kill(Me)];
    }
  }

  class Flame {
    const startX: real
    const startY: real
    var x: real
    var y: real
    var life: int
    var animCount: int

    function Snapshot(): FlameState
      reads this
    {
      FlameState(Point(startX, startY), x, y, life, animCount)
    }

    constructor (groundPos: Point)
      ensures Snapshot() == FlameInit(groundPos)
    {
      startX, startY := groundPos.x, groundPos.y;
      x, y := groundPos.x, groundPos.y;
      life := FlameLife;
      animCount := 0;
    }

    function Pos(): Point
      reads this
    {
      Point(x, y)
    }

    function Size(): Point
      reads this
    {
      FlameSize(animCount)
    }

    function Sprite(): Clip
      reads this
    {
      FlameSprite(animCount)
    }

    method Move(t: Tick) returns (reqs: seq<Request>)
      modifies this
      ensures Snapshot() == FlameStep(old(Snapshot()), t).state
      ensures reqs == FlameStep(old(Snapshot()), t).requests
    {
      animCount := (t.count / 4) % 2;
      var sz := Size();
      x := startX - sz.x / 2.0;
      y := startY - sz.y;

      var cs := t.collisions;
      reqs := [];
      var i := 0;
      while i < |cs|
        invariant 0 <= i <= |cs|
        invariant reqs == FlameKills(cs[..i])
      {
        if IsEnemy(cs[i].kind) {
          reqs := reqs + [Kill(Collided(cs[i].id))];
        }
        assert cs[..i + 1][..i] == cs[..i];
        i := i + 1;
      }
      assert cs[..|cs|] == cs;

      if life > 0 {
        life := life - 1;
      } else {
        reqs := reqs + [Kill(Me)];
      }
    }
  }
}
