/** Arthur, the player (src/actors/arthur.py), as values: his state, the
    sprite and size tables, and one function per phase of `move`, composed
    in the order the source runs them. The object the source updates in
    place is the class in module ArthurActor. */
module ArthurLogic {
  import opened Arena
  import opened Utilities

  const Speed := 5.0
  const Gravity := 2.0
  const HumanMaxDy := 8.0
  const FrogMaxDy := 3.0
  const DyingMaxDy := 3.0
  const JumpPower := -10.0
  const ClimbSpeed := 4.0
  const KnockBack := 30.0
  const KnockUp := -10.0
  const GraveOffset := 3.0
  const TorchCountdownStart := 10
  const InvincibilityFrames := 90
  const StartDyingCountdown := 150
  const MaxFrogCountdown := 5 * Fps
  const FrogCheatCount := 15000

  // The keys bound to each action.
  const RunLeftKeys: set<string> := {"a", "ArrowLeft"}
  const RunRightKeys: set<string> := {"d", "ArrowRight"}
  const JumpKeys: set<string> := {"Spacebar", "left alt"}
  const ClimbKeys: set<string> := {"w", "ArrowUp"}
  const DescendKeys: set<string> := {"s", "ArrowDown"}
  const AttackKeys: set<string> := {"f", "left ctrl"}

  /** Some key bound to the action is held. */
  predicate Pressed(keys: set<string>, action: set<string>)
  {
    keys * action != {}
  }

  // ---------------------------------------------------------------------
  // State

  /** The animation states; the numbered ones carry their frame. */
  datatype Pose =
    | Idle | Running(frame: int) | JumpUp | JumpDown | Climbing | Hurt
    | Dead(stage: int) | Won | FrogWalk(frame: int)

  /** The `_state` string: a pose and the side it faces. */
  datatype Look = Look(pose: Pose, side: Dir)

  datatype HeroState = HeroState(
    x: real, y: real, dx: real, dy: real, maxDy: real,
    grabbing: bool, armour: bool, dead: bool, won: bool,
    torchCountdown: int, iframes: int, dyingCountdown: int,
    look: Look, direction: Dir, frog: bool, frogCount: int)

  function HeroInit(pos: Point): (r: HeroState)
    ensures HeroValid(r)
  {
    HeroState(pos.x, pos.y, 0.0, 0.0, HumanMaxDy,
              false, true, false, false,
              0, 0, StartDyingCountdown,
              Look(Idle, Right), Right, false, MaxFrogCountdown)
  }

  function Pos(s: HeroState): Point
  {
    Point(s.x, s.y)
  }

  // ---------------------------------------------------------------------
  // Sizes and sprites

  /** The looks the `_sizes` and `_sprites` tables have an entry for. */
  predicate InTable(l: Look)
  {
    match l.pose
    case Running(n) => 1 <= n <= 4
    case Dead(n) => 1 <= n <= 5
    case FrogWalk(n) => 1 <= n <= 4
    case _ => true
  }

  /** The `_sizes` table (the same for both sides). */
  function BaseSize(l: Look): Point
    requires InTable(l)
  {
    match l.pose
    case Idle => Point(20.0, 31.0)
    case Running(n) => [Point(23.0, 32.0), Point(18.0, 32.0), Point(19.0, 32.0), Point(24.0, 32.0)][n - 1]
    case JumpUp => Point(32.0, 27.0)
    case JumpDown => Point(27.0, 27.0)
    case Climbing => Point(21.0, 30.0)
    case Hurt => Point(25.0, 28.0)
    case Dead(n) => [Point(25.0, 28.0), Point(31.0, 28.0), Point(29.0, 25.0), Point(28.0, 12.0), Point(28.0, 12.0)][n - 1]
    case Won => Point(32.0, 32.0)
    case FrogWalk(n) => [Point(25.0, 25.0), Point(29.0, 25.0), Point(20.0, 25.0), Point(20.0, 25.0)][n - 1]
  }

  /** `size()`: the table entry, IdleRight's for a look it lacks, and 2
      pixels shorter without the armour. */
  function HeroSize(s: HeroState): Point
  {
    var base := if InTable(s.look) then BaseSize(s.look) else BaseSize(Look(Idle, Right));
    if s.armour then base else Point(base.x, base.y - 2.0)
  }

  /** The `_sprites` table. */
  function SpriteOf(l: Look): Clip
    requires InTable(l)
  {
    var r := l.side == Right;
    match l.pose
    case Idle => if r then Clip(134, 609) else Clip(358, 609)
    case Running(n) =>
      if r then [Clip(5, 608), Clip(39, 608), Clip(72, 608), Clip(102, 608)][n - 1]
      else [Clip(484, 608), Clip(454, 608), Clip(421, 608), Clip(386, 608)][n - 1]
    case JumpUp => if r then Clip(160, 613) else Clip(320, 613)
    case JumpDown => if r then Clip(194, 613) else Clip(291, 613)
    case Climbing => if r then Clip(133, 642) else Clip(358, 642)
    case Hurt => if r then Clip(0, 740) else Clip(487, 740)
    case Dead(n) =>
      if r then [Clip(64, 740), Clip(96, 740), Clip(128, 743), Clip(160, 740), Clip(160, 756)][n - 1]
      else [Clip(423, 740), Clip(385, 740), Clip(354, 743), Clip(324, 740), Clip(324, 756)][n - 1]
    case Won => if r then Clip(256, 704) else Clip(224, 704)
    case FrogWalk(n) =>
      if r then [Clip(99, 903), Clip(128, 903), Clip(166, 903), Clip(198, 903)][n - 1]
      else [Clip(388, 903), Clip(355, 903), Clip(325, 903), Clip(294, 903)][n - 1]
  }

  /** `_no_armour_states`: the looks whose armourless image sits 66 pixels
      lower on the sheet. */
  predicate NoArmourLook(l: Look)
  {
    l.pose.Idle? || (l.pose.Running? && 1 <= l.pose.frame <= 4) || l.pose.JumpUp? || l.pose.JumpDown? || l.pose.Climbing?
  }

  /** `sprite()`: nothing on the even frames of a living Arthur's
      invincibility (he blinks); otherwise the table entry, IdleRight's for a
      look it lacks, moved down 66 without the armour. */
  function HeroSprite(s: HeroState): Option<Clip>
  {
    if !s.dead && s.iframes > 0 && s.iframes % 2 == 0 then None
    else
      var base := if InTable(s.look) then SpriteOf(s.look) else SpriteOf(Look(Idle, Right));
      Some(if !s.armour && NoArmourLook(s.look) then Clip(base.sx, base.sy + 66) else base)
  }

  // ---------------------------------------------------------------------
  // Queries on the arena

  /** `is_on_ground`: some jumpable background actor Arthur touches has its
      top below his top while he is not rising. */
  predicate OnGround(s: HeroState, cs: seq<Other>)
  {
    exists i :: 0 <= i < |cs| && IsBackground(cs[i].kind) && IsJumpable(cs[i].kind)
                && s.y < cs[i].pos.y && s.dy >= 0.0
  }

  /** `is_by_ladder`: the first ladder (or win area) Arthur touches. */
  function FirstLadder(cs: seq<Other>): (r: Option<Other>)
    ensures r.None? <==> forall i :: 0 <= i < |cs| ==> !IsLadder(cs[i].kind)
    ensures r.Some? ==> exists i :: 0 <= i < |cs| && cs[i] == r.value && IsLadder(r.value.kind)
                                    && forall j :: 0 <= j < i ==> !IsLadder(cs[j].kind)
    decreases |cs|
  {
    if cs == [] then None
    else if IsLadder(cs[0].kind) then Some(cs[0])
    else
      var r := FirstLadder(cs[1..]);
      assert forall i :: 1 <= i < |cs| ==> cs[i] == cs[1..][i - 1];
      r
  }

  // ---------------------------------------------------------------------
  // The actions `move` is made of

  /** `jump`. */
  function Jump(s: HeroState, t: Tick): (r: HeroState)
    ensures r == s.(dy := r.dy)
  {
    if Pressed(t.keys, JumpKeys) && OnGround(s, t.collisions) && !s.grabbing then s.(dy := JumpPower) else s
  }

  /** What a collision leaves alone: the ladder grip, the countdowns other
      than invincibility, the look and the facing direction. */
  predicate Untouched(r: HeroState, s: HeroState)
  {
    r.grabbing == s.grabbing && r.torchCountdown == s.torchCountdown
    && r.dyingCountdown == s.dyingCountdown && r.look == s.look
    && r.direction == s.direction && r.frogCount == s.frogCount
  }

  /** `hurt`, with the class of what hurt him (None when he fell out of the
      world). */
  function HurtBy(s: HeroState, other: Option<Kind>): (r: HeroState)
    ensures Untouched(r, s)
  {
    if s.iframes <= 0 && !s.dead && !s.won then Harmed(KnockedBack(s), other).(iframes := InvincibilityFrames)
    else s
  }

  /** The knock back of a hit: away from where Arthur faces, and upwards. */
  function KnockedBack(s: HeroState): (r: HeroState)
    ensures r == s.(dx := r.dx, dy := KnockUp, frog := false)
  {
    s.(dx := if s.direction == Right then -KnockBack else KnockBack, dy := KnockUp, frog := false)
  }

  /** The harm of a hit: the frog spell, else the armour, else the life. */
  function Harmed(s: HeroState, other: Option<Kind>): (r: HeroState)
    ensures r == s.(frog := r.frog, armour := r.armour, dead := r.dead, maxDy := r.maxDy)
  {
    if other == Some(MagicProjectile) then s.(frog := true)
    else if s.armour then s.(armour := false)
    else s.(dead := true, maxDy := DyingMaxDy)
  }

  /** `instant_die`. */
  function InstantDie(s: HeroState): (r: HeroState)
    ensures r.grabbing == s.grabbing && r.torchCountdown == s.torchCountdown
    ensures r.dyingCountdown == s.dyingCountdown && r.look == s.look
    ensures r.direction == s.direction && r.frogCount == s.frogCount && r.won == s.won
  {
    HurtBy(s.(armour := false, iframes := 0), None)
  }

  /** `_solid_collision`: land on top, bump the head, or be stopped from the
      left or from the right, whichever holds first. */
  function SolidCollision(s: HeroState, t: Tick, o: Other): (r: HeroState)
    ensures Untouched(r, s)
  {
    var sz := HeroSize(s);
    if GraveOffset + s.y + sz.y / 2.0 < o.pos.y && s.dy >= 0.0 then
      var s1 := s.(y := o.pos.y - sz.y, dy := 0.0);
      if !s1.dead then Jump(s1, t) else s1
    else if s.y + sz.y > o.pos.y + o.size.y && s.dy < 0.0 then s.(y := o.pos.y + o.size.y, dy := 0.0)
    else if s.x < o.pos.x && s.dx >= 0.0 then s.(x := o.pos.x - sz.x, dx := 0.0)
    else if s.x + sz.x > o.pos.x + o.size.x && s.dx < 0.0 then s.(x := o.pos.x + o.size.x, dx := 0.0)
    else s
  }

  /** `_platform_collision`: one-way, only from above. */
  function PlatformCollision(s: HeroState, t: Tick, o: Other): (r: HeroState)
    ensures Untouched(r, s)
  {
    if s.y < o.pos.y && s.dy >= 0.0 && !s.grabbing then
      var s1 := s.(y := o.pos.y - HeroSize(s).y, dy := 0.0);
      if !s1.dead then Jump(s1, t) else s1
    else s
  }

  /** One iteration of the collision loop. */
  function Collide(s: HeroState, t: Tick, o: Other): (r: HeroState)
    ensures Untouched(r, s)
  {
    if IsSolid(o.kind) then SolidCollision(s, t, o)
    else if IsPlatform(o.kind) then PlatformCollision(s, t, o)
    else if IsEnemy(o.kind) then HurtBy(s, Some(o.kind))
    else if o.kind == BackgroundWinArea then s.(won := true)
    else s
  }

  /** The collision loop over (a prefix of) the collisions. Collisions never
      touch the ladder grip, the countdowns other than invincibility, the
      look or the facing direction. */
  function CollideAll(s: HeroState, t: Tick, cs: seq<Other>): (r: HeroState)
    ensures r.grabbing == s.grabbing && r.torchCountdown == s.torchCountdown
    ensures r.dyingCountdown == s.dyingCountdown && r.look == s.look
    ensures r.direction == s.direction && r.frogCount == s.frogCount
    decreases |cs|
  {
    if cs == [] then s else Collide(CollideAll(s, t, cs[..|cs| - 1]), t, cs[|cs| - 1])
  }

  /** `use_ladder` with the ladder found: a jump or run key lets go, a climb
      or descend key grabs; holding on centres Arthur on the ladder and moves
      him 4 pixels per move up or down. */
  function UseLadder(s: HeroState, t: Tick, ladder: Other): (r: HeroState)
    ensures r == s.(grabbing := r.grabbing, x := r.x, dy := r.dy)
  {
    if s.dead || s.won then s
    else
      var keys := t.keys;
      var letGo := Pressed(keys, JumpKeys + RunRightKeys + RunLeftKeys);
      var hold := Pressed(keys, ClimbKeys) || Pressed(keys, DescendKeys);
      var grabbing := if hold then true else if letGo then false else s.grabbing;
      if grabbing then
        var down := if Pressed(keys, DescendKeys) then ClimbSpeed else 0.0;
        var up := if Pressed(keys, ClimbKeys) then ClimbSpeed else 0.0;
        s.(grabbing := true,
           x := ladder.pos.x + ladder.size.x / 2.0 - HeroSize(s).x / 2.0,
           dy := 0.0 + down - up)
      else s.(grabbing := false)
  }

  /** `use_torch`: a Torch thrown from the centre of Arthur's box, in the
      direction he faces, unless he is on a ladder or has won. */
  function UseTorch(s: HeroState): seq<Request>
  {
    if !s.grabbing && !s.won then [Spawn(NewTorch(s.direction, Center(Pos(s), HeroSize(s))))] else []
  }

  /** The stage of the death animation for a death countdown: five windows
      of 25 frames (the last one open-ended); in the first, the image
      alternates between Hurt and Dead1 on the `blink` sub-cycle. */
  function DeathPose(countdown: int, blink: bool): Pose
  {
    var window := StartDyingCountdown / 6;
    if countdown > window * 5 then (if blink then Dead(1) else Hurt)
    else if countdown > window * 4 then Dead(2)
    else if countdown > window * 3 then Dead(3)
    else if countdown > window * 2 then Dead(4)
    else Dead(5)
  }

  /** `set_state`: the running or idle default, then the first that applies
      of won, dead, frog, hurt without armour, on a ladder, in the air.
      Holding both run keys shows IdleRight and turns Arthur right. */
  function SetState(s: HeroState, t: Tick): (r: HeroState)
    ensures r == s.(look := r.look, direction := r.direction)
    ensures InTable(r.look)
  {
    var keys := t.keys;
    var left := Pressed(keys, RunLeftKeys);
    var right := Pressed(keys, RunRightKeys);
    var both := left && right;
    var dir := if both then Right else s.direction;
    var default :=
      if both then Look(Idle, Right)
      else if left || right then Look(Running((t.count / 3) % 4 + 1), s.direction)
      else Look(Idle, s.direction);
    var look :=
      if s.won then Look(Won, dir)
      else if s.dead then Look(DeathPose(s.dyingCountdown, t.blink), dir)
      else if s.frog && s.frogCount > 0 then
        (if !(left || right) then Look(FrogWalk(4), dir) else Look(FrogWalk((t.count / 5) % 4 + 1), dir))
      else if !s.armour && s.iframes > 0 then Look(Hurt, dir)
      else if s.grabbing then
        (if "ArrowUp" in keys || "ArrowDown" in keys
         then Look(Climbing, if (t.count / 4) % 2 == 0 then Right else Left)
         else Look(Climbing, Right))
      else if !OnGround(s, t.collisions) then
        (if s.dy > 0.0 then Look(JumpDown, dir) else if s.dy < 0.0 then Look(JumpUp, dir) else default)
      else default;
    s.(look := look, direction := dir)
  }

  // ---------------------------------------------------------------------
  // The phases of `move`, in order

  /** Death management: a dead Arthur whose countdown has run out asks to
      be removed; otherwise a dead Arthur's countdown runs down. */
  function DeathPhase(s: HeroState): (r: Outcome<HeroState>)
    ensures r.state == s.(dyingCountdown := r.state.dyingCountdown)
  {
    if s.dead && s.dyingCountdown == 0 then Outcome(s, [Kill(Me)])
    else if s.dead && s.dyingCountdown > 0 then Outcome(s.(dyingCountdown := s.dyingCountdown - 1), [])
    else Outcome(s, [])
  }

  /** The attack gate: the cooldown is over, an attack key is held, and
      Arthur is neither invincible, dead nor a frog. */
  predicate AttackGate(s: HeroState, keys: set<string>)
  {
    s.torchCountdown == 0 && Pressed(keys, AttackKeys) && s.iframes == 0 && !s.dead && !s.frog
  }

  /** Attacking: through the gate, throw a torch and restart the cooldown
      (even when no torch could be thrown); a running cooldown runs down. */
  function TorchPhase(s: HeroState, keys: set<string>): (r: Outcome<HeroState>)
    ensures r.state == s.(torchCountdown := r.state.torchCountdown)
  {
    if s.torchCountdown == 0 then
      if AttackGate(s, keys) then Outcome(s.(torchCountdown := TorchCountdownStart), UseTorch(s))
      else Outcome(s, [])
    else Outcome(s.(torchCountdown := s.torchCountdown - 1), [])
  }

  /** Running: exactly one of the two run keys sets the speed and the
      facing direction; a dead or winning Arthur does not run. */
  function RunPhase(s: HeroState, keys: set<string>): (r: HeroState)
    ensures r == s.(dx := r.dx, direction := r.direction)
  {
    if !s.dead && !s.won then
      var left := Pressed(keys, RunLeftKeys);
      var right := Pressed(keys, RunRightKeys);
      var s1 := if left && !right then s.(dx := -Speed, direction := Left) else s;
      if right && !left then s1.(dx := Speed, direction := Right) else s1
    else s
  }

  /** Climbing: use the first ladder touched, unless a frog; touching no
      ladder lets go. */
  function LadderPhase(s: HeroState, t: Tick): (r: HeroState)
    ensures r == s.(grabbing := r.grabbing, x := r.x, dy := r.dy)
  {
    var l := FirstLadder(t.collisions);
    if l.Some? && !s.frog then UseLadder(s, t, l.value) else s.(grabbing := false)
  }

  /** Falling out of the world kills at once; then the box is clamped into
      the world, with the size `sz` Arthur had before the collisions. */
  function BoundsPhase(s: HeroState, t: Tick, sz: Point): (r: HeroState)
    ensures r.grabbing == s.grabbing && r.torchCountdown == s.torchCountdown
    ensures r.dyingCountdown == s.dyingCountdown && r.look == s.look
    ensures r.direction == s.direction && r.frogCount == s.frogCount && r.won == s.won
  {
    var s1 := if s.y + sz.y > t.world.y then InstantDie(s) else s;
    s1.(x := Clamp(s1.x, 0.0, t.world.x - sz.x), y := Clamp(s1.y, 0.0, t.world.y - sz.y))
  }

  /** Gravity with the cap, invincibility running down, and the frog
      countdown ("l" turns Arthur into a frog for 15000 frames). */
  function EndPhase(s: HeroState, keys: set<string>): (r: HeroState)
    ensures r == s.(dy := r.dy, iframes := r.iframes, frog := r.frog, frogCount := r.frogCount, maxDy := r.maxDy)
  {
    var s1 := s.(dy := Min(s.dy + Gravity, s.maxDy));
    var s2 := if s1.iframes > 0 then s1.(iframes := s1.iframes - 1) else s1;
    var s3 := if "l" in keys then s2.(frog := true, frogCount := FrogCheatCount) else s2;
    if s3.frog && s3.frogCount > 0 then s3.(frogCount := s3.frogCount - 1, maxDy := FrogMaxDy)
    else s3.(frog := false, frogCount := MaxFrogCountdown, maxDy := HumanMaxDy)
  }

  /** The horizontal speed is recomputed every move. */
  function ResetSpeed(s: HeroState): (r: HeroState)
    ensures r == s.(dx := 0.0)
  {
    s.(dx := 0.0)
  }

  /** The first phases of `move`: death management and attacking, with the
      requests they make (the removal first, then the torch). */
  function Prepare(s: HeroState, keys: set<string>): (r: Outcome<HeroState>)
    ensures r.state == s.(dx := 0.0, dyingCountdown := r.state.dyingCountdown, torchCountdown := r.state.torchCountdown)
  {
    var d := DeathPhase(ResetSpeed(s));
    var a := TorchPhase(d.state, keys);
    Outcome(a.state, d.requests + a.requests)
  }

  /** The position advances by the speed. */
  function Integrate(s: HeroState): (r: HeroState)
    ensures r == s.(x := r.x, y := r.y)
  {
    s.(x := s.x + s.dx, y := s.y + s.dy)
  }

  /** Climbing, the collisions, the motion and the world bounds, after the
      run input; the bounds use the size Arthur has at this point. */
  function Physics(s: HeroState, t: Tick): (r: HeroState)
    ensures r.torchCountdown == s.torchCountdown && r.dyingCountdown == s.dyingCountdown
    ensures r.look == s.look && r.direction == s.direction && r.frogCount == s.frogCount
  {
    BoundsPhase(Integrate(CollideAll(LadderPhase(s, t), t, t.collisions)), t, HeroSize(s))
  }

  /** `Arthur.move`. */
  function HeroStep(s: HeroState, t: Tick): Outcome<HeroState>
  {
    var p := Prepare(s, t.keys);
    Outcome(EndPhase(SetState(Physics(RunPhase(p.state, t.keys), t), t), t.keys), p.requests)
  }

  /** The invariant Arthur keeps between moves: countdowns within their
      ranges, the falling cap of his current form, no falling faster than 8,
      a dead Arthur has lost his armour, and his look is in the tables. */
  ghost predicate HeroValid(s: HeroState)
  {
    && 0 <= s.torchCountdown <= TorchCountdownStart
    && 0 <= s.iframes <= InvincibilityFrames
    && 0 <= s.dyingCountdown <= StartDyingCountdown
    && 0 <= s.frogCount < FrogCheatCount
    && s.maxDy == (if s.frog then FrogMaxDy else HumanMaxDy)
    && s.dy <= HumanMaxDy
    && (s.dead ==> !s.armour)
    && InTable(s.look)
  }

  /** The hero after a sequence of moves (requests dropped). */
  function HeroRun(s: HeroState, ticks: seq<Tick>): HeroState
    decreases |ticks|
  {
    if ticks == [] then s else HeroStep(HeroRun(s, ticks[..|ticks| - 1]), ticks[|ticks| - 1]).state
  }
}
