/** What Arthur's move guarantees (src/actors/arthur.py): the invariant it
    keeps, the falling cap, the attack cooldown, the death countdown, the
    world bounds, and the rules of each collision. */
module ArthurProps {
  import opened Arena
  import opened Utilities
  import opened ArthurLogic

  // ---------------------------------------------------------------------
  // Size and sprite

  /** Every box Arthur can have is at least 18 wide and 10 high, and the
      armour adds exactly 2 to the height. */
  lemma SizeTable(s: HeroState)
    ensures HeroSize(s).x >= 18.0 && HeroSize(s).y >= 10.0
    ensures HeroSize(s.(armour := false)) == Point(HeroSize(s.(armour := true)).x, HeroSize(s.(armour := true)).y - 2.0)
  {
  }

  /** A look missing from the tables is sized as IdleRight and drawn as an
      armoured IdleRight (the armourless shift applies only to looks in the
      list). */
  lemma UnlistedLook(s: HeroState)
    requires !InTable(s.look)
    ensures HeroSize(s) == HeroSize(s.(look := Look(Idle, Right)))
    ensures HeroSprite(s) == HeroSprite(s.(look := Look(Idle, Right), armour := true))
  {
  }

  /** Both sides of a look have the same size. */
  lemma SidesAlike(s: HeroState)
    ensures HeroSize(s) == HeroSize(s.(look := Look(s.look.pose, Left)))
  {
  }

  /** A living Arthur blinks while invincible: no image on even counts,
      one on odd ones, so the image alternates from frame to frame; a dead
      Arthur is always drawn. Without armour, the idle, running, jumping and
      climbing images sit 66 pixels lower on the sheet. */
  lemma SpriteBlinks(s: HeroState)
    ensures HeroSprite(s).None? <==> !s.dead && s.iframes > 0 && s.iframes % 2 == 0
    ensures !s.dead && s.iframes > 1 ==>
              (HeroSprite(s).None? <==> HeroSprite(s.(iframes := s.iframes - 1)).Some?)
    ensures HeroSprite(s).Some? && NoArmourLook(s.look) ==>
              HeroSprite(s.(armour := false)).value
                == Clip(HeroSprite(s.(armour := true)).value.sx, HeroSprite(s.(armour := true)).value.sy + 66)
  {
  }

  // ---------------------------------------------------------------------
  // Hurting

  /** `hurt`: ignored while invincible, dead or winning; otherwise Arthur is
      knocked back away from where he faces and upwards, becomes invincible
      for 90 frames, and: the frog spell turns him into a frog and costs
      nothing; any other hit costs the armour if he has it, and his life
      (with a slower fall) if not. */
  lemma HurtCases(s: HeroState, other: Option<Kind>)
    ensures var r := HurtBy(s, other);
      && (s.iframes > 0 || s.dead || s.won ==> r == s)
      && (s.iframes <= 0 && !s.dead && !s.won ==>
            && r.iframes == InvincibilityFrames
            && r.dx == (if s.direction == Right then -30.0 else 30.0) && r.dy == -10.0
            && (other == Some(MagicProjectile) ==> r.frog && r.armour == s.armour && !r.dead)
            && (other != Some(MagicProjectile) && s.armour ==> !r.frog && !r.armour && !r.dead)
            && (other != Some(MagicProjectile) && !s.armour ==> !r.frog && r.dead && r.maxDy == 3.0))
  {
  }

  /** `instant_die`: the armour is always lost, and Arthur dies unless he has
      already won (a winner who falls keeps his life). */
  lemma InstantDeath(s: HeroState)
    ensures var r := InstantDie(s);
      && !r.armour
      && (r.dead <==> s.dead || !s.won)
      && (!s.dead && !s.won ==> r.iframes == InvincibilityFrames && r.maxDy == DyingMaxDy)
  {
  }

  // ---------------------------------------------------------------------
  // Collisions

  /** Landing on a solid from above: Arthur's feet end on its top and he
      stops falling, except that a living Arthur holding a jump key off a
      ladder jumps straight away (landing makes him on the ground). */
  lemma LandOnSolid(s: HeroState, t: Tick, i: nat)
    requires i < |t.collisions| && IsSolid(t.collisions[i].kind)
    requires GraveOffset + s.y + HeroSize(s).y / 2.0 < t.collisions[i].pos.y && s.dy >= 0.0
    ensures var o := t.collisions[i]; var r := SolidCollision(s, t, o);
      && r.y + HeroSize(s).y == o.pos.y && r.x == s.x && r.dx == s.dx
      && r.dy == (if !s.dead && Pressed(t.keys, JumpKeys) && !s.grabbing then JumpPower else 0.0)
  {
    var o := t.collisions[i];
    SizeTable(s);
    var s1 := s.(y := o.pos.y - HeroSize(s).y, dy := 0.0);
    assert HeroSize(s1) == HeroSize(s);
    assert IsBackground(o.kind) && IsJumpable(o.kind);
    assert OnGround(s1, t.collisions);
  }

  /** The other three sides of a solid, tried in order when Arthur is not
      landing: rising into it from below puts his head at its bottom; moving
      (or standing) right into its left side puts him flush against it;
      moving left into its right side likewise. Each stops the motion along
      that axis; otherwise nothing changes. */
  lemma SolidSides(s: HeroState, t: Tick, o: Other)
    requires !(GraveOffset + s.y + HeroSize(s).y / 2.0 < o.pos.y && s.dy >= 0.0)
    ensures var r := SolidCollision(s, t, o); var sz := HeroSize(s);
      if s.y + sz.y > o.pos.y + o.size.y && s.dy < 0.0 then
        r == s.(y := o.pos.y + o.size.y, dy := 0.0)
      else if s.x < o.pos.x && s.dx >= 0.0 then
        r == s.(x := o.pos.x - sz.x, dx := 0.0) && r.x + sz.x == o.pos.x
      else if s.x + sz.x > o.pos.x + o.size.x && s.dx < 0.0 then
        r == s.(x := o.pos.x + o.size.x, dx := 0.0)
      else r == s
  {
  }

  /** Platforms are one-way: Arthur rising, on a ladder, or already at or
      below the platform's top passes through; otherwise he stands on it,
      and jumps at once if he holds a jump key and is alive. */
  lemma PlatformOneWay(s: HeroState, t: Tick, i: nat)
    requires i < |t.collisions| && IsPlatform(t.collisions[i].kind)
    ensures var o := t.collisions[i]; var r := PlatformCollision(s, t, o);
      && (s.dy < 0.0 || s.grabbing || s.y >= o.pos.y ==> r == s)
      && (s.dy >= 0.0 && !s.grabbing && s.y < o.pos.y ==>
            && r.y + HeroSize(s).y == o.pos.y && r.x == s.x
            && r.dy == (if !s.dead && Pressed(t.keys, JumpKeys) then JumpPower else 0.0))
  {
    var o := t.collisions[i];
    SizeTable(s);
    if s.dy >= 0.0 && !s.grabbing && s.y < o.pos.y {
      var s1 := s.(y := o.pos.y - HeroSize(s).y, dy := 0.0);
      assert HeroSize(s1) == HeroSize(s);
      assert IsBackground(o.kind) && IsJumpable(o.kind);
      assert OnGround(s1, t.collisions);
    }
  }

  /** No actor Arthur touches is the frog spell. */
  predicate NoSpell(cs: seq<Other>)
  {
    forall i :: 0 <= i < |cs| ==> cs[i].kind != MagicProjectile
  }

  /** One solid block or platform only moves Arthur and stops him. */
  lemma GeometryMoves(s: HeroState, t: Tick, o: Other)
    requires IsSolid(o.kind) || IsPlatform(o.kind)
    ensures var r := Collide(s, t, o); r == s.(x := r.x, y := r.y, dx := r.dx, dy := r.dy)
  {
    if IsSolid(o.kind) {
      var r := SolidCollision(s, t, o);
      assert r == s.(x := r.x, y := r.y, dx := r.dx, dy := r.dy);
    } else {
      var r := PlatformCollision(s, t, o);
      assert r == s.(x := r.x, y := r.y, dx := r.dx, dy := r.dy);
    }
  }

  /** What one collision can do to Arthur's health and form. */
  lemma CollideSpec(s: HeroState, t: Tick, o: Other)
    ensures var r := Collide(s, t, o);
      && (r.maxDy == s.maxDy || r.maxDy == DyingMaxDy)
      && (0 <= s.iframes <= InvincibilityFrames ==> 0 <= r.iframes <= InvincibilityFrames)
      && (s.dead ==> r.dead) && (s.won ==> r.won) && (!s.armour ==> !r.armour)
      && ((s.dead ==> !s.armour) ==> (r.dead ==> !r.armour))
      && (!s.dead && (s.armour || s.iframes > 0) ==> !r.dead && (r.armour || r.iframes > 0))
      && (s.iframes > 0 ==> r.armour == s.armour && r.dead == s.dead && r.frog == s.frog
                            && r.iframes == s.iframes && r.maxDy == s.maxDy)
      && (o.kind != MagicProjectile && r.frog ==> s.frog)
  {
    if IsSolid(o.kind) || IsPlatform(o.kind) {
      GeometryMoves(s, t, o);
    } else if IsEnemy(o.kind) {
      HurtCases(s, Some(o.kind));
    }
  }

  /** The collision loop: the falling cap is either kept or the dying one,
      death, victory and the armour's loss are permanent, a living Arthur
      with armour or invincibility survives any number of hits, invincibility
      makes every hit harmless, and only the frog spell makes a frog. */
  lemma {:induction false} CollideAllSpec(s: HeroState, t: Tick, cs: seq<Other>)
    ensures var r := CollideAll(s, t, cs);
      && (r.maxDy == s.maxDy || r.maxDy == DyingMaxDy)
      && (0 <= s.iframes <= InvincibilityFrames ==> 0 <= r.iframes <= InvincibilityFrames)
      && (s.dead ==> r.dead) && (s.won ==> r.won) && (!s.armour ==> !r.armour)
      && ((s.dead ==> !s.armour) ==> (r.dead ==> !r.armour))
      && (!s.dead && (s.armour || s.iframes > 0) ==> !r.dead && (r.armour || r.iframes > 0))
      && (s.iframes > 0 ==> r.armour == s.armour && r.dead == s.dead && r.frog == s.frog
                            && r.iframes == s.iframes && r.maxDy == s.maxDy)
      && (NoSpell(cs) && r.frog ==> s.frog)
    decreases |cs|
  {
    if cs != [] {
      var init := cs[..|cs| - 1];
      CollideAllSpec(s, t, init);
      assert NoSpell(cs) ==> NoSpell(init);
      CollideSpec(CollideAll(s, t, init), t, cs[|cs| - 1]);
    }
  }

  // ---------------------------------------------------------------------
  // One move

  /** The hero in the middle of a move, just before it is clamped into the
      world: after the run input, climbing, the collisions and the motion. */
  function Unclamped(s: HeroState, t: Tick): HeroState
  {
    Integrate(CollideAll(LadderPhase(RunPhase(Prepare(s, t.keys).state, t.keys), t), t, t.collisions))
  }

  /** This move takes Arthur's box below the bottom of the world. */
  predicate FallsOut(s: HeroState, t: Tick)
  {
    Unclamped(s, t).y + HeroSize(s).y > t.world.y
  }

  /** The move as the two halves around the clamp. */
  lemma StepHalves(s: HeroState, t: Tick)
    ensures var s3 := RunPhase(Prepare(s, t.keys).state, t.keys);
      && HeroSize(s3) == HeroSize(s)
      && HeroStep(s, t).state == EndPhase(SetState(BoundsPhase(Unclamped(s, t), t, HeroSize(s)), t), t.keys)
  {
  }

  /** What holds in the middle of a move, before the look and the end
      phase: the invariant, except that the cap may be either one. */
  ghost predicate MidValid(s: HeroState)
  {
    && 0 <= s.torchCountdown <= TorchCountdownStart
    && 0 <= s.iframes <= InvincibilityFrames
    && 0 <= s.dyingCountdown <= StartDyingCountdown
    && 0 <= s.frogCount < FrogCheatCount
    && (s.maxDy == FrogMaxDy || s.maxDy == HumanMaxDy)
    && (s.dead ==> !s.armour)
  }

  lemma {:induction false} MidValidBeforeClamp(s: HeroState, t: Tick)
    requires HeroValid(s)
    ensures MidValid(BoundsPhase(Unclamped(s, t), t, HeroSize(s)))
  {
    var s3 := RunPhase(Prepare(s, t.keys).state, t.keys);
    CollideAllSpec(LadderPhase(s3, t), t, t.collisions);
    InstantDeath(Unclamped(s, t));
  }

  lemma EndValid(s: HeroState, t: Tick)
    requires MidValid(s)
    ensures HeroValid(EndPhase(SetState(s, t), t.keys))
  {
  }

  /** Moves keep Arthur valid: starting from `HeroInit`, which is valid,
      every state Arthur reaches is. */
  lemma HeroStepValid(s: HeroState, t: Tick)
    requires HeroValid(s)
    ensures HeroValid(HeroStep(s, t).state)
  {
    StepHalves(s, t);
    MidValidBeforeClamp(s, t);
    EndValid(BoundsPhase(Unclamped(s, t), t, HeroSize(s)), t);
  }

  /** The gravity cap: after a move Arthur never falls faster than the cap
      he started it with (3 as a frog, 8 as a human). */
  lemma FallCap(s: HeroState, t: Tick)
    requires HeroValid(s)
    ensures HeroStep(s, t).state.dy <= s.maxDy
  {
    var m := BoundsPhase(Unclamped(s, t), t, HeroSize(s));
    assert m.maxDy == s.maxDy || m.maxDy == DyingMaxDy by {
      var s3 := RunPhase(Prepare(s, t.keys).state, t.keys);
      CollideAllSpec(LadderPhase(s3, t), t, t.collisions);
      InstantDeath(Unclamped(s, t));
    }
    StepHalves(s, t);
    EndCap(m, t);
  }

  /** The end of a move caps the fall at the cap Arthur has after the
      physics. */
  lemma EndCap(m: HeroState, t: Tick)
    ensures EndPhase(SetState(m, t), t.keys).dy <= m.maxDy
  {
  }

  /** Falling out of the world costs the armour and kills Arthur unless he
      has won; otherwise, an Arthur who starts a move alive and armoured is
      still alive at its end. */
  lemma DeathCauses(s: HeroState, t: Tick)
    ensures var r := HeroStep(s, t).state;
      && (FallsOut(s, t) ==> !r.armour && (r.dead || r.won))
      && (!s.dead && s.armour && !FallsOut(s, t) ==> !r.dead)
      && (s.dead ==> r.dead) && (s.won ==> r.won) && (!s.armour ==> !r.armour)
  {
    StepHalves(s, t);
    var s3 := RunPhase(Prepare(s, t.keys).state, t.keys);
    CollideAllSpec(LadderPhase(s3, t), t, t.collisions);
    InstantDeath(Unclamped(s, t));
  }

  /** While invincible and not falling out, nothing Arthur touches can hurt
      him: his armour, life and form are those he started the move with. */
  lemma InvincibleMove(s: HeroState, t: Tick)
    requires s.iframes > 0 && !FallsOut(s, t) && !("l" in t.keys)
    ensures var r := HeroStep(s, t).state;
      r.armour == s.armour && r.dead == s.dead && r.iframes == s.iframes - 1
      && (s.frog && s.frogCount > 0 ==> r.frog)
  {
    StepHalves(s, t);
    var s3 := RunPhase(Prepare(s, t.keys).state, t.keys);
    CollideAllSpec(LadderPhase(s3, t), t, t.collisions);
  }

  /** Arthur stays inside the world: after a move his box, with the size he
      had when the move started, lies within it (when it fits at all). */
  lemma StaysInWorld(s: HeroState, t: Tick)
    requires HeroSize(s).x <= t.world.x && HeroSize(s).y <= t.world.y
    ensures var r := HeroStep(s, t).state;
      0.0 <= r.x <= t.world.x - HeroSize(s).x && 0.0 <= r.y <= t.world.y - HeroSize(s).y
  {
    StepHalves(s, t);
  }

  /** Facing: holding both run keys turns Arthur right; one run key turns a
      living, not yet winning Arthur towards it; no run key keeps his
      direction. */
  lemma Facing(s: HeroState, t: Tick)
    ensures var r := HeroStep(s, t).state;
      var left := Pressed(t.keys, RunLeftKeys); var right := Pressed(t.keys, RunRightKeys);
      && (left && right ==> r.direction == Right)
      && (left && !right && !s.dead && !s.won ==> r.direction == Left)
      && (right && !left && !s.dead && !s.won ==> r.direction == Right)
      && (!left && !right ==> r.direction == s.direction)
  {
    StepHalves(s, t);
  }

  /** Arthur holds on to a ladder only while touching one, and never as a
      frog. Holding on centres him on the first ladder he touches (using
      the size he has while climbing). */
  lemma LadderGrip(s: HeroState, t: Tick)
    ensures var r := LadderPhase(s, t);
      && (r.grabbing ==> FirstLadder(t.collisions).Some? && !s.frog)
      && (r.grabbing && !s.dead && !s.won ==>
            var l := FirstLadder(t.collisions).value;
            r.x + HeroSize(s).x / 2.0 == l.pos.x + l.size.x / 2.0
            && (r.dy == 0.0 || r.dy == ClimbSpeed || r.dy == -ClimbSpeed))
  {
  }

  /** `use_ladder`: a climb or descend key grabs the ladder, a jump or run key
      without them lets go, and with neither the grip is kept; the descend
      key moves down 4, the climb key up 4, both cancel. Dead or winning,
      nothing changes. */
  lemma LadderKeys(s: HeroState, t: Tick, l: Other)
    ensures var r := UseLadder(s, t, l);
      var hold := Pressed(t.keys, ClimbKeys) || Pressed(t.keys, DescendKeys);
      var letGo := Pressed(t.keys, JumpKeys + RunRightKeys + RunLeftKeys);
      && (s.dead || s.won ==> r == s)
      && (!s.dead && !s.won ==>
            && (r.grabbing <==> hold || (!letGo && s.grabbing))
            && (r.grabbing ==> r.dy == (if Pressed(t.keys, DescendKeys) then ClimbSpeed else 0.0)
                                       - (if Pressed(t.keys, ClimbKeys) then ClimbSpeed else 0.0)))
  {
  }

  // ---------------------------------------------------------------------
  // Requests: the torch and the removal

  /** A request list holds a torch. */
  predicate ThrowsTorch(reqs: seq<Request>)
  {
    exists i :: 0 <= i < |reqs| && reqs[i].Spawn? && reqs[i].actor.NewTorch?
  }

  /** What a move asks of the arena, from the state it starts in: its
      removal when a dead Arthur's countdown has run out, then a torch from
      the centre of his box in his direction when the attack gate is open
      and he is neither on a ladder nor winning. Nothing else is ever asked. */
  lemma StepRequests(s: HeroState, t: Tick)
    ensures var reqs := HeroStep(s, t).requests;
      && reqs == (if s.dead && s.dyingCountdown == 0 then [Kill(Me)] else [])
                 + (if AttackGate(s, t.keys) && !s.grabbing && !s.won
                    then [Spawn(NewTorch(s.direction, Center(Pos(s), HeroSize(s))))] else [])
      && (Kill(Me) in reqs <==> s.dead && s.dyingCountdown == 0)
      && (ThrowsTorch(reqs) <==> AttackGate(s, t.keys) && !s.grabbing && !s.won)
  {
    var reqs := HeroStep(s, t).requests;
    var d := DeathPhase(ResetSpeed(s));
    assert UseTorch(d.state) == UseTorch(s) by {
      assert HeroSize(d.state) == HeroSize(s);
    }
    if ThrowsTorch(reqs) {
      assert AttackGate(s, t.keys) && !s.grabbing && !s.won;
    }
    if AttackGate(s, t.keys) && !s.grabbing && !s.won {
      assert reqs[|reqs| - 1].actor.NewTorch?;
    }
  }

  /** The torch cooldown: the gate restarts it at 10 (whether a torch could
      be thrown or not), otherwise it runs down to 0 and stays there. */
  lemma StepCooldown(s: HeroState, t: Tick)
    ensures HeroStep(s, t).state.torchCountdown
            == if s.torchCountdown == 0 then (if AttackGate(s, t.keys) then TorchCountdownStart else 0)
               else s.torchCountdown - 1
  {
    StepHalves(s, t);
  }

  lemma NoTorchWhileCooling(s: HeroState, t: Tick)
    requires s.torchCountdown > 0
    ensures !ThrowsTorch(HeroStep(s, t).requests)
    ensures HeroStep(s, t).state.torchCountdown == s.torchCountdown - 1
  {
    StepCooldown(s, t);
    StepRequests(s, t);
  }

  /** The cooldown after `n` moves that start with it at `c >= n` is
      `c - n`. */
  lemma {:induction false} CoolingDown(s: HeroState, ticks: seq<Tick>)
    requires |ticks| <= s.torchCountdown
    ensures HeroRun(s, ticks).torchCountdown == s.torchCountdown - |ticks|
    decreases |ticks|
  {
    if ticks != [] {
      var init := ticks[..|ticks| - 1];
      CoolingDown(s, init);
      StepCooldown(HeroRun(s, init), ticks[|ticks| - 1]);
    }
  }

  /** While the cooldown runs, no torch is thrown: none of `n` moves
      starting with the cooldown at `c >= n` throws one. */
  lemma NoTorchDuringCooldown(s: HeroState, ticks: seq<Tick>)
    requires |ticks| <= s.torchCountdown
    ensures forall k :: 0 <= k < |ticks| ==> !ThrowsTorch(HeroStep(HeroRun(s, ticks[..k]), ticks[k]).requests)
  {
    forall k | 0 <= k < |ticks|
      ensures !ThrowsTorch(HeroStep(HeroRun(s, ticks[..k]), ticks[k]).requests)
    {
      CoolingDown(s, ticks[..k]);
      NoTorchWhileCooling(HeroRun(s, ticks[..k]), ticks[k]);
    }
  }

  /** Torches are spaced out: after a move that throws one, none of the next
      10 moves throws another, so two torches are at least 11 moves apart. */
  lemma TorchesAreSpaced(s: HeroState, t: Tick, ticks: seq<Tick>)
    requires ThrowsTorch(HeroStep(s, t).requests) && |ticks| <= TorchCountdownStart
    ensures var r := HeroStep(s, t).state;
      forall k :: 0 <= k < |ticks| ==> !ThrowsTorch(HeroStep(HeroRun(r, ticks[..k]), ticks[k]).requests)
  {
    StepRequests(s, t);
    StepCooldown(s, t);
    NoTorchDuringCooldown(HeroStep(s, t).state, ticks);
  }

  /** The death countdown runs only once Arthur is dead, one per move, and
      stops at 0. */
  lemma StepDying(s: HeroState, t: Tick)
    ensures var r := HeroStep(s, t).state;
      && (s.dead ==> r.dead && r.dyingCountdown == if s.dyingCountdown > 0 then s.dyingCountdown - 1 else s.dyingCountdown)
      && (!s.dead ==> r.dyingCountdown == s.dyingCountdown)
  {
    StepHalves(s, t);
    DeathCauses(s, t);
  }

  /** A dead Arthur stays dead, and `n` moves take his countdown from
      `c >= n` to `c - n`. */
  lemma {:induction false} Dying(s: HeroState, ticks: seq<Tick>)
    requires s.dead && |ticks| <= s.dyingCountdown
    ensures HeroRun(s, ticks).dead
    ensures HeroRun(s, ticks).dyingCountdown == s.dyingCountdown - |ticks|
    decreases |ticks|
  {
    if ticks != [] {
      var init := ticks[..|ticks| - 1];
      Dying(s, init);
      StepDying(HeroRun(s, init), ticks[|ticks| - 1]);
    }
  }

  /** A dead Arthur with countdown `c` is not removed during his next `c`
      moves. */
  lemma NotYetRemoved(s: HeroState, ticks: seq<Tick>)
    requires s.dead && |ticks| <= s.dyingCountdown
    ensures forall k :: 0 <= k < |ticks| ==> Kill(Me) !in HeroStep(HeroRun(s, ticks[..k]), ticks[k]).requests
  {
    forall k | 0 <= k < |ticks|
      ensures Kill(Me) !in HeroStep(HeroRun(s, ticks[..k]), ticks[k]).requests
    {
      Dying(s, ticks[..k]);
      StepRequests(HeroRun(s, ticks[..k]), ticks[k]);
    }
  }

  /** The move after a dead Arthur's countdown has been used up removes him:
      from the move he dies in (countdown 150), removal comes on the 151st
      move. */
  lemma RemovedAtLast(s: HeroState, ticks: seq<Tick>, t: Tick)
    requires s.dead && |ticks| == s.dyingCountdown
    ensures Kill(Me) in HeroStep(HeroRun(s, ticks), t).requests
  {
    Dying(s, ticks);
    StepRequests(HeroRun(s, ticks), t);
  }

  // ---------------------------------------------------------------------
  // The frog

  /** The "l" key makes Arthur a frog for 15000 frames, falling at most 3
      per move; a frog whose countdown has run out, not hit by the spell
      again, turns back into a human with the human cap. */
  lemma FrogCountdown(s: HeroState, t: Tick)
    ensures var r := HeroStep(s, t).state;
      && ("l" in t.keys ==> r.frog && r.frogCount == FrogCheatCount - 1 && r.maxDy == FrogMaxDy)
      && (s.frogCount == 0 && !("l" in t.keys) && NoSpell(t.collisions) ==>
            !r.frog && r.frogCount == MaxFrogCountdown && r.maxDy == HumanMaxDy)
  {
    StepHalves(s, t);
    var s3 := RunPhase(Prepare(s, t.keys).state, t.keys);
    CollideAllSpec(LadderPhase(s3, t), t, t.collisions);
  }
}
