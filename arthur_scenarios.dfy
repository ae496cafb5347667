/** The scenarios of the unit tests at the end of src/actors/arthur.py,
    proved about the model. Each arena shows the same collisions, no keys
    and the same frame counter on every frame; the counter and the blink
    parity are left free. */
module ArthurScenarios {
  import opened Arena
  import opened Utilities
  import opened ArthurLogic
  import opened ArthurProps

  /** The same tick `n` times. */
  function Repeat(t: Tick, n: nat): (r: seq<Tick>)
    ensures |r| == n && forall i :: 0 <= i < n ==> r[i] == t
  {
    seq(n, _ => t)
  }

  lemma RunRepeat(s: HeroState, t: Tick, n: nat)
    ensures HeroRun(s, Repeat(t, n + 1)) == HeroStep(HeroRun(s, Repeat(t, n)), t).state
  {
    assert Repeat(t, n + 1)[..n] == Repeat(t, n);
  }

  /** With no key held, no action is pressed. */
  lemma NoKeys()
    ensures forall action :: !Pressed({}, action)
  {
    forall action ensures !Pressed({}, action) {
      assert {} * action == {};
    }
  }

  function Quiet(cs: seq<Other>, world: Point, count: nat, blink: bool): Tick
  {
    Tick(cs, {}, world, count, None, blink)
  }

  /** An everyday Arthur: alive, armoured, human, not invincible, with the
      torch ready, off ladders. */
  ghost predicate Plain(s: HeroState)
  {
    && !s.dead && !s.won && s.armour && !s.frog && !s.grabbing
    && s.iframes == 0 && s.torchCountdown == 0 && s.maxDy == HumanMaxDy
    && s.frogCount == MaxFrogCountdown && s.dyingCountdown == StartDyingCountdown
  }

  /** Only background geometry is touched: no enemy, ladder or win area. */
  predicate OnlyGeometry(cs: seq<Other>)
  {
    forall i :: 0 <= i < |cs| ==> IsSolid(cs[i].kind) || IsPlatform(cs[i].kind)
  }

  /** Background geometry only moves Arthur and stops him. */
  lemma {:induction false} GeometryOnlyMoves(s: HeroState, t: Tick, cs: seq<Other>)
    requires OnlyGeometry(cs)
    ensures var r := CollideAll(s, t, cs); r == s.(x := r.x, y := r.y, dx := r.dx, dy := r.dy)
    decreases |cs|
  {
    if cs != [] {
      GeometryOnlyMoves(s, t, cs[..|cs| - 1]);
      GeometryMoves(CollideAll(s, t, cs[..|cs| - 1]), t, cs[|cs| - 1]);
    }
  }


  /** The pose `set_state` picks for a plain Arthur with no key held. */
  function QuietPose(s: HeroState, cs: seq<Other>): Pose
  {
    if !OnGround(s, cs) && s.dy > 0.0 then JumpDown
    else if !OnGround(s, cs) && s.dy < 0.0 then JumpUp
    else Idle
  }

  /** The position a quiet move reaches before the clamp. */
  function QuietMotion(s: HeroState, t: Tick): HeroState
  {
    Integrate(CollideAll(s.(dx := 0.0), t, t.collisions))
  }

  /** A quiet move of a plain Arthur (no key held, only background geometry
      touched) that stays inside the world: he moves as the collisions left
      his speed, takes the idle or jumping look, and gravity adds 2 to his
      vertical speed, capped at 8. */
  lemma QuietStep(s: HeroState, t: Tick)
    requires Plain(s) && t.keys == {} && OnlyGeometry(t.collisions)
    requires var u := QuietMotion(s, t); var sz := HeroSize(s);
      0.0 <= u.x <= t.world.x - sz.x && 0.0 <= u.y <= t.world.y - sz.y
    ensures var u := QuietMotion(s, t);
      HeroStep(s, t).state == u.(dy := Min(u.dy + 2.0, 8.0), look := Look(QuietPose(u, t.collisions), s.direction))
  {
    NoKeys();
    var s0 := s.(dx := 0.0);
    assert Prepare(s, t.keys).state == s0;
    assert RunPhase(s0, t.keys) == s0;
    assert FirstLadder(t.collisions).None?;
    assert LadderPhase(s0, t) == s0;
    StepHalves(s, t);
    var u := QuietMotion(s, t);
    GeometryOnlyMoves(s0, t, t.collisions);
    assert Unclamped(s, t) == u;
    assert BoundsPhase(u, t, HeroSize(s)) == u;
    assert SetState(u, t) == u.(look := Look(QuietPose(u, t.collisions), s.direction));
  }

  /** Moves keep a quiet hero plain. */
  lemma QuietStaysPlain(s: HeroState, t: Tick)
    requires Plain(s) && t.keys == {} && OnlyGeometry(t.collisions)
    requires var u := QuietMotion(s, t); var sz := HeroSize(s);
      0.0 <= u.x <= t.world.x - sz.x && 0.0 <= u.y <= t.world.y - sz.y
    ensures Plain(HeroStep(s, t).state)
  {
    QuietStep(s, t);
    GeometryOnlyMoves(s.(dx := 0.0), t, t.collisions);
  }

  /** Falling in empty space: the speed grows by 2 per move from 0, so
      Arthur is at heights 100, 102, 106, 112 after one to four moves. */
  lemma Gravity(count: nat, blink: bool)
    ensures var t := Quiet([], Point(500.0, 500.0), count, blink);
      var s0 := HeroInit(Point(100.0, 100.0));
      var s1 := HeroStep(s0, t).state;
      var s2 := HeroStep(s1, t).state;
      var s3 := HeroStep(s2, t).state;
      var s4 := HeroStep(s3, t).state;
      && Pos(s1) == Point(100.0, 100.0) && Pos(s2) == Point(100.0, 102.0)
      && Pos(s3) == Point(100.0, 106.0) && Pos(s4) == Point(100.0, 112.0)
  {
    var t := Quiet([], Point(500.0, 500.0), count, blink);
    var s0 := HeroInit(Point(100.0, 100.0));
    QuietStep(s0, t);
    var s1 := HeroStep(s0, t).state;
    assert s1 == s0.(dy := 2.0);
    QuietStep(s1, t);
    var s2 := HeroStep(s1, t).state;
    assert s2 == s1.(y := 102.0, dy := 4.0, look := Look(JumpDown, Right));
    QuietStep(s2, t);
    var s3 := HeroStep(s2, t).state;
    assert s3 == s2.(y := 106.0, dy := 6.0);
    QuietStep(s3, t);
  }

  function FromUpTick(count: nat, blink: bool): Tick
  {
    Quiet([Other(1, BackgroundSolid, Point(242.0, 186.0), Point(16.0, 16.0))], Point(500.0, 500.0), count, blink)
  }

  lemma FromUpLanding(count: nat, blink: bool)
    ensures var s0 := HeroInit(Point(242.0, 158.0));
      QuietMotion(s0, FromUpTick(count, blink)) == s0.(y := 155.0)
  {
    NoKeys();
  }

  /** Standing 3 pixels too low over a solid block: the landing puts his
      feet on its top, at height 155. */
  lemma CollisionFromUp(s0: HeroState, t: Tick, count: nat, blink: bool)
    requires s0 == HeroInit(Point(242.0, 158.0)) && t == FromUpTick(count, blink)
    ensures Pos(HeroStep(s0, t).state) == Point(242.0, 155.0)
  {
    FromUpLanding(count, blink);
    QuietStep(s0, t);
  }

  function FromLeftTick(count: nat, blink: bool): Tick
  {
    Quiet([Other(1, Kind.Grave, Point(242.0, 186.0), Point(16.0, 16.0)),
           Other(2, BackgroundSolid, Point(0.0, 202.0), Point(500.0, 20.0))], Point(500.0, 500.0), count, blink)
  }

  lemma FromLeftPush(count: nat, blink: bool)
    ensures var s0 := HeroInit(Point(225.0, 171.0)); var t := FromLeftTick(count, blink);
      CollideAll(s0, t, t.collisions[..1]) == s0.(x := 222.0)
  {
    NoKeys();
  }

  lemma FromLeftGround(count: nat, blink: bool)
    ensures var s0 := HeroInit(Point(225.0, 171.0)); var t := FromLeftTick(count, blink);
      QuietMotion(s0, t) == s0.(x := 222.0)
  {
    NoKeys();
    var s0 := HeroInit(Point(225.0, 171.0));
    var t := FromLeftTick(count, blink);
    FromLeftPush(count, blink);
    assert t.collisions[..2][..1] == t.collisions[..1];
    assert t.collisions[..2] == t.collisions;
  }

  /** Standing on the ground against the left side of a grave: the grave
      pushes him flush against its left side, and the ground holds him at
      height 171. */
  lemma GraveFromLeft(s0: HeroState, t: Tick, count: nat, blink: bool)
    requires s0 == HeroInit(Point(225.0, 171.0)) && t == FromLeftTick(count, blink)
    ensures var r := HeroStep(s0, t).state;
      Pos(r) == Point(242.0 - HeroSize(r).x, 171.0)
  {
    FromLeftGround(count, blink);
    QuietStep(s0, t);
    FromLeftStands(s0.(x := 222.0), count, blink);
  }

  lemma FromLeftStands(s: HeroState, count: nat, blink: bool)
    requires s == HeroInit(Point(225.0, 171.0)).(x := 222.0)
    ensures OnGround(s, FromLeftTick(count, blink).collisions)
  {
    var cs := FromLeftTick(count, blink).collisions;
    assert IsBackground(cs[0].kind) && IsJumpable(cs[0].kind);
  }

  /** The platform of the two platform tests, and its quiet arena. */
  function Platform(count: nat, blink: bool): Tick
  {
    Quiet([Other(1, BackgroundPlatform, Point(622.0, 122.0), Point(100.0, 20.0))], Point(1000.0, 1000.0), count, blink)
  }

  /** A quiet move over the platform, worked out: Arthur lands on it when
      he is above its top and not rising; otherwise he moves by his speed. */
  function PlatformMove(s: HeroState): HeroState
  {
    var h := HeroSize(s).y;
    var u := if s.y < 122.0 && s.dy >= 0.0 then s.(dx := 0.0, y := 122.0 - h, dy := 0.0)
             else s.(dx := 0.0, y := s.y + s.dy);
    var on := u.y < 122.0 && u.dy >= 0.0;
    u.(dy := Min(u.dy + 2.0, 8.0),
       look := Look(if !on && u.dy > 0.0 then JumpDown else if !on && u.dy < 0.0 then JumpUp else Idle, s.direction))
  }

  lemma PlatformMotion(s: HeroState, count: nat, blink: bool)
    requires Plain(s)
    ensures var h := HeroSize(s).y;
      QuietMotion(s, Platform(count, blink))
        == if s.y < 122.0 && s.dy >= 0.0 then s.(dx := 0.0, y := 122.0 - h, dy := 0.0)
           else s.(dx := 0.0, y := s.y + s.dy)
  {
    NoKeys();
  }

  lemma PlatformStep(s: HeroState, count: nat, blink: bool)
    requires Plain(s) && 0.0 <= s.x <= 1000.0 - HeroSize(s).x
    requires var u := QuietMotion(s, Platform(count, blink)); 0.0 <= u.y <= 1000.0 - HeroSize(s).y
    ensures HeroStep(s, Platform(count, blink)).state == PlatformMove(s)
  {
    var t := Platform(count, blink);
    PlatformMotion(s, count, blink);
    QuietStep(s, t);
    var u := QuietMotion(s, t);
    assert OnGround(u, t.collisions) <==> u.y < 122.0 && u.dy >= 0.0 by {
      assert IsBackground(t.collisions[0].kind) && IsJumpable(t.collisions[0].kind);
    }
  }

  /** Arthur standing on the platform: his feet on its top, idle. */
  function OnPlatform(): HeroState
  {
    HeroInit(Point(678.0, 91.0)).(dy := 2.0)
  }

  /** Standing on the platform is a rest state: a move without keys leaves
      Arthur exactly as he was. */
  lemma RestsOnPlatform(count: nat, blink: bool)
    ensures HeroStep(OnPlatform(), Platform(count, blink)).state == OnPlatform()
  {
    PlatformMotion(OnPlatform(), count, blink);
    PlatformStep(OnPlatform(), count, blink);
  }

  lemma {:induction false} StaysOnPlatform(count: nat, blink: bool, n: nat)
    ensures HeroRun(OnPlatform(), Repeat(Platform(count, blink), n)) == OnPlatform()
  {
    if n > 0 {
      StaysOnPlatform(count, blink, n - 1);
      RunRepeat(OnPlatform(), Platform(count, blink), n - 1);
      RestsOnPlatform(count, blink);
    }
  }

  lemma DropOntoPlatform(count: nat, blink: bool)
    ensures HeroStep(HeroInit(Point(678.0, 118.0)), Platform(count, blink)).state == OnPlatform()
  {
    var s0 := HeroInit(Point(678.0, 118.0));
    PlatformMotion(s0, count, blink);
    PlatformStep(s0, count, blink);
  }

  /** Dropped onto the platform from 4 pixels above it, Arthur stands on it
      after the first move, and is still there after three. */
  lemma PlatformFromTop(count: nat, blink: bool)
    ensures var t := Platform(count, blink);
      && HeroStep(HeroInit(Point(678.0, 118.0)), t).state == OnPlatform()
      && Pos(HeroRun(HeroInit(Point(678.0, 118.0)), Repeat(t, 3))) == Point(678.0, 91.0)
  {
    var t := Platform(count, blink);
    var s0 := HeroInit(Point(678.0, 118.0));
    DropOntoPlatform(count, blink);
    RunRepeat(s0, t, 0);
    assert HeroRun(s0, Repeat(t, 0)) == s0;
    AfterRest(s0, t, count, blink, 1, 3);
  }

  /** The states of the jump through the platform from below. */
  function Rising(y: real, dy: real): HeroState
  {
    HeroInit(Point(678.0, y)).(dy := dy, look := Look(JumpUp, Right))
  }

  /** One move of the rise: below the top or rising, Arthur goes up by his
      speed, which gravity slows by 2. */
  lemma RisingStep(y: real, dy: real, count: nat, blink: bool)
    requires dy < 0.0 && 0.0 <= y + dy <= 970.0
    ensures HeroStep(Rising(y, dy), Platform(count, blink)).state == Rising(y + dy, dy + 2.0)
  {
    PlatformMotion(Rising(y, dy), count, blink);
    PlatformStep(Rising(y, dy), count, blink);
  }

  /** The rise: eight moves from height 152 at speed -15, through the
      platform, to height 88 falling at speed 1. */
  lemma {:induction false} Rise(count: nat, blink: bool)
    ensures var t := Platform(count, blink);
      HeroRun(HeroInit(Point(678.0, 152.0)).(dy := -15.0), Repeat(t, 8)) == Rising(88.0, 1.0)
  {
    var t := Platform(count, blink);
    var s0 := HeroInit(Point(678.0, 152.0)).(dy := -15.0);
    PlatformMotion(s0, count, blink);
    PlatformStep(s0, count, blink);
    assert HeroStep(s0, t).state == Rising(137.0, -13.0);
    RisingStep(137.0, -13.0, count, blink);
    RisingStep(124.0, -11.0, count, blink);
    RisingStep(113.0, -9.0, count, blink);
    RisingStep(104.0, -7.0, count, blink);
    RisingStep(97.0, -5.0, count, blink);
    RisingStep(92.0, -3.0, count, blink);
    RisingStep(89.0, -1.0, count, blink);
    RunRepeat(s0, t, 0);
    assert HeroRun(s0, Repeat(t, 0)) == s0;
    RunRepeat(s0, t, 1);
    RunRepeat(s0, t, 2);
    RunRepeat(s0, t, 3);
    RunRepeat(s0, t, 4);
    RunRepeat(s0, t, 5);
    RunRepeat(s0, t, 6);
    RunRepeat(s0, t, 7);
  }

  /** The landing: falling at speed 1 from height 88, Arthur lands with his
      jumping box (27 high, so at height 95); the next move, idle, his box
      is 31 high and he settles at height 91. */
  lemma Landing(count: nat, blink: bool)
    ensures var t := Platform(count, blink);
      HeroStep(HeroStep(Rising(88.0, 1.0), t).state, t).state == OnPlatform()
  {
    LandsJumping(count, blink);
    Settles(count, blink);
  }

  /** Arthur just after the landing, still with his jumping box. */
  function Landed(): HeroState
  {
    HeroInit(Point(678.0, 95.0)).(dy := 2.0)
  }

  lemma LandsJumping(count: nat, blink: bool)
    ensures HeroStep(Rising(88.0, 1.0), Platform(count, blink)).state == Landed()
  {
    PlatformMotion(Rising(88.0, 1.0), count, blink);
    PlatformStep(Rising(88.0, 1.0), count, blink);
  }

  lemma Settles(count: nat, blink: bool)
    ensures HeroStep(Landed(), Platform(count, blink)).state == OnPlatform()
  {
    PlatformMotion(Landed(), count, blink);
    PlatformStep(Landed(), count, blink);
  }

  /** Jumping up through the platform from below (speed -15 from height
      152): Arthur rises through it, slows down, lands on it and settles on
      its top on the tenth move, where he stays. */
  lemma PlatformFromBottom(count: nat, blink: bool)
    ensures var t := Platform(count, blink);
      var s0 := HeroInit(Point(678.0, 152.0)).(dy := -15.0);
      && HeroRun(s0, Repeat(t, 10)) == OnPlatform()
      && Pos(HeroRun(s0, Repeat(t, 20))) == Point(678.0, 91.0)
  {
    var t := Platform(count, blink);
    var s0 := HeroInit(Point(678.0, 152.0)).(dy := -15.0);
    Rise(count, blink);
    Landing(count, blink);
    RunRepeat(s0, t, 8);
    RunRepeat(s0, t, 9);
    AfterRest(s0, t, count, blink, 10, 20);
  }

  /** Once a run reaches the rest state, it stays there. */
  lemma {:induction false} AfterRest(s: HeroState, t: Tick, count: nat, blink: bool, m: nat, n: nat)
    requires t == Platform(count, blink) && m <= n
    requires HeroRun(s, Repeat(t, m)) == OnPlatform()
    ensures HeroRun(s, Repeat(t, n)) == OnPlatform()
    decreases n - m
  {
    if m < n {
      RunRepeat(s, t, m);
      RestsOnPlatform(count, blink);
      AfterRest(s, t, count, blink, m + 1, n);
    }
  }
}
