/** Arthur as the object src/actors/arthur.py updates in place. Every
    method is proved to change the fields exactly as the matching function
    of module ArthurLogic says. */
module ArthurActor {
  import opened Arena
  import opened Utilities
  import L = ArthurLogic

  class Arthur {
    var x: real
    var y: real
    var dx: real
    var dy: real
    var maxDy: real
    var grabbing: bool
    var armour: bool
    var dead: bool
    var won: bool
    var torchCountdown: int
    var iframes: int
    var dyingCountdown: int
    var state: L.Look
    var direction: Dir
    var frog: bool
    var frogCount: int

    function Snapshot(): L.HeroState
      reads this
    {
      L.HeroState(x, y, dx, dy, maxDy, grabbing, armour, dead, won,
                  torchCountdown, iframes, dyingCountdown, state, direction, frog, frogCount)
    }

    constructor (pos: Point)
      ensures Snapshot() == L.HeroInit(pos)
    {
      x, y := pos.x, pos.y;
      dx, dy := 0.0, 0.0;
      maxDy := L.HumanMaxDy;
      grabbing, armour, dead, won := false, true, false, false;
      torchCountdown, iframes, dyingCountdown := 0, 0, L.StartDyingCountdown;
      state := L.Look(L.Idle, Right);
      direction := Right;
      frog, frogCount := false, L.MaxFrogCountdown;
    }

    function Pos(): Point
      reads this
    {
      Point(x, y)
    }

    function Size(): Point
      reads this
    {
      L.HeroSize(Snapshot())
    }

    function Sprite(): Option<Clip>
      reads this
    {
      L.HeroSprite(Snapshot())
    }

    predicate HasWon()
      reads this
    {
      won
    }

    predicate HasArmour()
      reads this
    {
      armour
    }

    method Move(t: Tick) returns (reqs: seq<Request>)
      modifies this
      ensures Snapshot() == L.HeroStep(old(Snapshot()), t).state
      ensures reqs == L.HeroStep(old(Snapshot()), t).requests
    {
      var keys := t.keys;
      reqs := Begin(keys);
      Run(keys);
      Physics(t);
      SetState(t);
      End(keys);
    }

    /** The start of `move`: the speed reset, death management and
        attacking. */
    method Begin(keys: set<string>) returns (reqs: seq<Request>)
      modifies this
      ensures Snapshot() == L.Prepare(old(Snapshot()), keys).state
      ensures reqs == L.Prepare(old(Snapshot()), keys).requests
    {
      dx := 0.0;
      var killed := ManageDeath();
      var torch := Attack(keys);
      reqs := killed + torch;
    }

    /** The middle of `move`: climbing, the collisions, the motion and the
        world bounds, with the size taken before climbing. */
    method Physics(t: Tick)
      modifies this
      ensures Snapshot() == L.Physics(old(Snapshot()), t)
    {
      ghost var s3 := Snapshot();
      var sz := Size();
      Climb(t);
      ghost var s4 := Snapshot();
      Collisions(t);
      ghost var s5 := Snapshot();
      x := x + dx;
      y := y + dy;
      ghost var s6 := Snapshot();
      assert s6 == L.Integrate(s5);
      StayInside(t, sz);
      assert s4 == L.LadderPhase(s3, t) && s5 == L.CollideAll(s4, t, t.collisions);
      assert Snapshot() == L.BoundsPhase(s6, t, L.HeroSize(s3));
    }

    /** Death management: the removal request, or the countdown. */
    method ManageDeath() returns (reqs: seq<Request>)
      modifies this
      ensures Snapshot() == L.DeathPhase(old(Snapshot())).state
      ensures reqs == L.DeathPhase(old(Snapshot())).requests
    {
      reqs := [];
      if dead && dyingCountdown == 0 {
        reqs := [Kill(Me)];
      } else if dead && dyingCountdown > 0 {
        dyingCountdown := dyingCountdown - 1;
      }
    }

    /** Attacking: the torch cooldown and the attack gate. */
    method Attack(keys: set<string>) returns (reqs: seq<Request>)
      modifies this
      ensures Snapshot() == L.TorchPhase(old(Snapshot()), keys).state
      ensures reqs == L.TorchPhase(old(Snapshot()), keys).requests
    {
      reqs := [];
      if torchCountdown == 0 {
        if L.Pressed(keys, L.AttackKeys) && iframes == 0 && !dead && !frog {
          reqs := UseTorch();
          torchCountdown := L.TorchCountdownStart;
        }
      } else {
        torchCountdown := torchCountdown - 1;
      }
    }

    /** Moving right and left. */
    method Run(keys: set<string>)
      modifies this
      ensures Snapshot() == L.RunPhase(old(Snapshot()), keys)
    {
      if !dead && !won {
        if L.Pressed(keys, L.RunLeftKeys) && !L.Pressed(keys, L.RunRightKeys) {
          dx := -L.Speed;
          direction := Left;
        }
        if L.Pressed(keys, L.RunRightKeys) && !L.Pressed(keys, L.RunLeftKeys) {
          dx := L.Speed;
          direction := Right;
        }
      }
    }

    /** Climbing. */
    method Climb(t: Tick)
      modifies this
      ensures Snapshot() == L.LadderPhase(old(Snapshot()), t)
    {
      var l := IsByLadder(t);
      if l.Some? && !frog {
        UseLadder(t, l.value);
      } else {
        grabbing := false;
      }
    }

    /** Falling out of the world, and the clamp into it. */
    method StayInside(t: Tick, sz: Point)
      modifies this
      ensures Snapshot() == L.BoundsPhase(old(Snapshot()), t, sz)
    {
      if y + sz.y > t.world.y {
        InstantDie();
      }
      x := Clamp(x, 0.0, t.world.x - sz.x);
      y := Clamp(y, 0.0, t.world.y - sz.y);
    }

    /** The collision loop of `move`. */
    method Collisions(t: Tick)
      modifies this
      ensures Snapshot() == L.CollideAll(old(Snapshot()), t, t.collisions)
    {
      ghost var s := Snapshot();
      var cs := t.collisions;
      var i := 0;
      while i < |cs|
        invariant 0 <= i <= |cs|
        invariant Snapshot() == L.CollideAll(s, t, cs[..i])
      {
        CollideWith(t, cs[i]);
        assert cs[..i + 1][..i] == cs[..i];
        i := i + 1;
      }
      assert cs[..|cs|] == cs;
    }

    /** One iteration of the collision loop. */
    method CollideWith(t: Tick, other: Other)
      modifies this
      ensures Snapshot() == L.Collide(old(Snapshot()), t, other)
    {
      if IsSolid(other.kind) {
        SolidCollision(t, other);
      } else if IsPlatform(other.kind) {
        PlatformCollision(t, other);
      } else if IsEnemy(other.kind) {
        Hurt(Some(other.kind));
      } else if other.kind == BackgroundWinArea {
        won := true;
      }
    }

    /** The end of `move`: gravity with the cap, invincibility and the frog
        countdown. */
    method End(keys: set<string>)
      modifies this
      ensures Snapshot() == L.EndPhase(old(Snapshot()), keys)
    {
      dy := Min(dy + L.Gravity, maxDy);
      var left := if iframes > 0 then iframes - 1 else iframes;
      var f, count := frog, frogCount;
      if "l" in keys {
        f, count := true, L.FrogCheatCount;
      }
      if f && count > 0 {
        frog, frogCount, maxDy := true, count - 1, L.FrogMaxDy;
      } else {
        frog, frogCount, maxDy := false, L.MaxFrogCountdown, L.HumanMaxDy;
      }
      iframes := left;
    }

    /** `is_on_ground`. */
    method IsOnGround(t: Tick) returns (b: bool)
      ensures b <==> L.OnGround(Snapshot(), t.collisions)
    {
      var cs := t.collisions;
      var i := 0;
      while i < |cs|
        invariant 0 <= i <= |cs|
        invariant forall j :: 0 <= j < i ==> !(IsBackground(cs[j].kind) && IsJumpable(cs[j].kind)
                                               && y < cs[j].pos.y && dy >= 0.0)
      {
        var other := cs[i];
        if IsBackground(other.kind) && IsJumpable(other.kind) {
          if y < other.pos.y && dy >= 0.0 {
            return true;
          }
        }
        i := i + 1;
      }
      return false;
    }

    /** `is_by_ladder`. */
    method IsByLadder(t: Tick) returns (l: Option<Other>)
      ensures l == L.FirstLadder(t.collisions)
    {
      var cs := t.collisions;
      var i := 0;
      while i < |cs|
        invariant 0 <= i <= |cs|
        invariant L.FirstLadder(cs[i..]) == L.FirstLadder(cs)
      {
        if IsLadder(cs[i].kind) {
          return Some(cs[i]);
        }
        assert cs[i..][1..] == cs[i + 1..];
        i := i + 1;
      }
      return None;
    }

    /** `set_state`; the look is worked out in `look` and `dir` and stored
        at the end. */
    method SetState(t: Tick)
      modifies this
      ensures Snapshot() == L.SetState(old(Snapshot()), t)
    {
      var keys := t.keys;
      var look := L.Look(L.Idle, direction);
      var dir := direction;
      if L.Pressed(keys, L.RunLeftKeys) || L.Pressed(keys, L.RunRightKeys) {
        look := L.Look(L.Running((t.count / 3) % 4 + 1), dir);
      }
      if L.Pressed(keys, L.RunLeftKeys) && L.Pressed(keys, L.RunRightKeys) {
        look := L.Look(L.Idle, Right);
        dir := Right;
      }
      if won {
        look := L.Look(L.Won, dir);
      } else if dead {
        look := L.Look(L.DeathPose(dyingCountdown, t.blink), dir);
      } else if frog && frogCount > 0 {
        if !(L.Pressed(keys, L.RunLeftKeys) || L.Pressed(keys, L.RunRightKeys)) {
          look := L.Look(L.FrogWalk(4), dir);
        } else {
          look := L.Look(L.FrogWalk((t.count / 5) % 4 + 1), dir);
        }
      } else if !armour && iframes > 0 {
        look := L.Look(L.Hurt, dir);
      } else if grabbing {
        if "ArrowUp" in keys || "ArrowDown" in keys {
          look := L.Look(L.Climbing, if (t.count / 4) % 2 == 0 then Right else Left);
        } else {
          look := L.Look(L.Climbing, Right);
        }
      } else {
        var ground := IsOnGround(t);
        if !ground {
          if dy > 0.0 {
            look := L.Look(L.JumpDown, dir);
          } else if dy < 0.0 {
            look := L.Look(L.JumpUp, dir);
          }
        }
      }
      state, direction := look, dir;
    }

    /** `jump`. */
    method Jump(t: Tick)
      modifies this
      ensures Snapshot() == L.Jump(old(Snapshot()), t)
    {
      var ground := IsOnGround(t);
      if L.Pressed(t.keys, L.JumpKeys) && ground && !grabbing {
        dy := L.JumpPower;
      }
    }

    /** `use_torch`: the torch to spawn, if any; Arthur does not change. */
    method UseTorch() returns (reqs: seq<Request>)
      ensures reqs == L.UseTorch(Snapshot())
    {
      reqs := [];
      if !grabbing && !won {
        var torchPos := Center(Pos(), Size());
        reqs := [Spawn(NewTorch(direction, torchPos))];
      }
    }

    /** `_solid_collision`. */
    method SolidCollision(t: Tick, other: Other)
      modifies this
      ensures Snapshot() == L.SolidCollision(old(Snapshot()), t, other)
    {
      var sz := Size();
      var w, h := sz.x, sz.y;
      var ox, oy := other.pos.x, other.pos.y;
      var ow, oh := other.size.x, other.size.y;
      if L.GraveOffset + y + h / 2.0 < oy && dy >= 0.0 {
        y := oy - h;
        dy := 0.0;
        if !dead {
          Jump(t);
        }
      } else if y + h > oy + oh && dy < 0.0 {
        y := oy + oh;
        dy := 0.0;
      } else if x < ox && dx >= 0.0 {
        x := ox - w;
        dx := 0.0;
      } else if x + w > ox + ow && dx < 0.0 {
        x := ox + ow;
        dx := 0.0;
      }
    }

    /** `_platform_collision`. */
    method PlatformCollision(t: Tick, other: Other)
      modifies this
      ensures Snapshot() == L.PlatformCollision(old(Snapshot()), t, other)
    {
      var h := Size().y;
      if y < other.pos.y && dy >= 0.0 && !grabbing {
        y := other.pos.y - h;
        dy := 0.0;
        if !dead {
          Jump(t);
        }
      }
    }

    /** `hurt`; `other` is the class of the enemy, None for a fall. */
    method Hurt(other: Option<Kind>)
      modifies this
      ensures Snapshot() == L.HurtBy(old(Snapshot()), other)
    {
      if iframes <= 0 && !dead && !won {
        KnockBack();
        Harm(other);
        iframes := L.InvincibilityFrames;
      }
    }

    method KnockBack()
      modifies this
      ensures Snapshot() == L.KnockedBack(old(Snapshot()))
    {
      dx := if direction == Right then -L.KnockBack else L.KnockBack;
      dy := L.KnockUp;
      frog := false;
    }

    method Harm(other: Option<Kind>)
      modifies this
      ensures Snapshot() == L.Harmed(old(Snapshot()), other)
    {
      if other == Some(MagicProjectile) {
        frog := true;
      } else {
        if armour {
          LoseArmour();
        } else {
          Die();
          maxDy := L.DyingMaxDy;
        }
      }
    }

    method LoseArmour()
      modifies this
      ensures Snapshot() == old(Snapshot()).(armour := false)
    {
      armour := false;
    }

    method Die()
      modifies this
      ensures Snapshot() == old(Snapshot()).(dead := true)
    {
      dead := true;
    }

    /** `instant_die`. */
    method InstantDie()
      modifies this
      ensures Snapshot() == L.InstantDie(old(Snapshot()))
    {
      armour := false;
      iframes := 0;
      Hurt(None);
    }

    /** `use_ladder`, with the ladder `is_by_ladder` found. */
    method UseLadder(t: Tick, ladder: Other)
      modifies this
      ensures Snapshot() == L.UseLadder(old(Snapshot()), t, ladder)
    {
      if dead || won {
        return;
      }
      var keys := t.keys;
      var grab := grabbing;
      if L.Pressed(keys, L.JumpKeys + L.RunRightKeys + L.RunLeftKeys) {
        grab := false;
      }
      if L.Pressed(keys, L.ClimbKeys) || L.Pressed(keys, L.DescendKeys) {
        grab := true;
      }
      if grab {
        var w := Size().x;
        var speed := 0.0;
        if L.Pressed(keys, L.DescendKeys) {
          speed := speed + L.ClimbSpeed;
        }
        if L.Pressed(keys, L.ClimbKeys) {
          speed := speed - L.ClimbSpeed;
        }
        x, dy := ladder.pos.x + ladder.size.x / 2.0 - w / 2.0, speed;
      }
      grabbing := grab;
    }
  }
}
