/** What the session and the level loader of src/framework/gnggame.py
    promise: the session's bookkeeping invariant, how lives, game over and
    game won evolve tick by tick and over a whole game, and that the loader
    reads back any level written in the file format it expects. */
module GameProps {
  import opened Arena
  import opened PyStrings
  import opened Game

  // -------------------------------------------------------------------------
  // The session

  /** A new session satisfies the bookkeeping invariant. */
  lemma NewSessionValid(c: Config)
    requires c.size.Some? && c.heroStart.Some? && |c.heroStart.value| == 2
    ensures Valid(NewSession(c))
  {
  }

  /** Every tick keeps the session's bookkeeping invariant. */
  lemma TickValid(s: Session, v: TickView)
    requires Valid(s) && DrawInRange(v)
    ensures Valid(SessionTick(s, v))
  {
  }

  /** A tick spends a life exactly when the game is still running, the
      current Arthur is no longer in the arena and a life is left; the arena
      then holds the level's statics and a fresh Arthur, nothing else. Any
      other tick leaves the lives alone, so they never drop below zero. */
  lemma TickLives(s: Session, v: TickView)
    requires Valid(s) && DrawInRange(v)
    ensures var r := SessionTick(s, v);
      r.lives == s.lives - 1 <==> !s.gameOver && !s.gameWon && Hero(s.heroes) !in v.roster && s.lives > 0
    ensures var r := SessionTick(s, v); r.lives == s.lives || r.lives == s.lives - 1
    ensures var r := SessionTick(s, v);
      r.lives == s.lives - 1 ==> r.roster == StaticMembers(s.statics) + [Hero(s.heroes + 1)] && r.hero == Some(s.heroes + 1)
    ensures s.lives >= 0 ==> SessionTick(s, v).lives >= 0
  {
    if !s.gameOver && !s.gameWon {
      var s1 := CheckWon(SpawnWalker(WithRoster(s, v.roster), v), v.heroWon);
      assert HeroPresent(s1) <==> Hero(s.heroes) in v.roster by {
        if v.walker.Some? {
          assert s1.roster == v.roster + [WalkerAt(v.heroPos, v.walker.value)];
        }
      }
    }
  }

  /** The game becomes over exactly when, in a running game, the current
      Arthur is gone and no life is left; the hero is then dropped. */
  lemma GameOverWhen(s: Session, v: TickView)
    requires Valid(s) && DrawInRange(v) && !s.gameOver
    ensures var r := SessionTick(s, v);
      r.gameOver <==> !s.gameWon && Hero(s.heroes) !in v.roster && s.lives <= 0
    ensures SessionTick(s, v).gameOver ==> SessionTick(s, v).hero.None?
  {
    if !s.gameWon {
      var s1 := CheckWon(SpawnWalker(WithRoster(s, v.roster), v), v.heroWon);
      assert HeroPresent(s1) <==> Hero(s.heroes) in v.roster by {
        if v.walker.Some? {
          assert s1.roster == v.roster + [WalkerAt(v.heroPos, v.walker.value)];
        }
      }
    }
  }

  /** Game won latches `has_won()` of a running game; once the game is over
      or won, a tick only records the arena's actors. */
  lemma WonAndOverLatch(s: Session, v: TickView)
    requires DrawInRange(v)
    ensures !s.gameOver && !s.gameWon ==> (SessionTick(s, v).gameWon <==> v.heroWon)
    ensures s.gameOver || s.gameWon ==> SessionTick(s, v) == s.(roster := v.roster)
  {
  }

  /** In a running game whose Arthur is still there, a zombie drawn this tick
      joins the arena's actors beside him. */
  lemma WalkerJoins(s: Session, v: TickView)
    requires Valid(s) && DrawInRange(v) && !s.gameOver && !s.gameWon
    requires Hero(s.heroes) in v.roster && v.walker.Some?
    ensures SessionTick(s, v).roster == v.roster + [WalkerAt(v.heroPos, v.walker.value)]
  {
    var s1 := CheckWon(SpawnWalker(WithRoster(s, v.roster), v), v.heroWon);
    assert s1.roster == v.roster + [WalkerAt(v.heroPos, v.walker.value)];
    assert HeroPresent(s1);
  }

  /** Over a whole game the invariant holds, lives only go down (never below
      zero when they start at zero or more), and every Arthur created after
      the first one cost exactly one life: there are never more than
      `max_lives + 1` of them. */
  lemma {:induction false} RunBudget(s: Session, vs: seq<TickView>)
    requires Valid(s) && s.lives >= 0
    requires forall k :: 0 <= k < |vs| ==> DrawInRange(vs[k])
    ensures var r := SessionRun(s, vs);
      Valid(r) && 0 <= r.lives <= s.lives && r.heroes - s.heroes == s.lives - r.lives
    ensures SessionRun(s, vs).heroes <= 1 + s.maxLives
    decreases |vs|
  {
    if vs != [] {
      var init := vs[..|vs| - 1];
      RunBudget(s, init);
      var m := SessionRun(s, init);
      TickValid(m, vs[|vs| - 1]);
      TickLives(m, vs[|vs| - 1]);
    }
  }

  /** Once over, a game stays over with its lives and hero untouched. */
  lemma {:induction false} OverStaysOver(s: Session, vs: seq<TickView>)
    requires s.gameOver
    requires forall k :: 0 <= k < |vs| ==> DrawInRange(vs[k])
    ensures var r := SessionRun(s, vs); r.gameOver && r.lives == s.lives && r.hero == s.hero
    decreases |vs|
  {
    if vs != [] {
      OverStaysOver(s, vs[..|vs| - 1]);
    }
  }

  // -------------------------------------------------------------------------
  // Construction

  /** Without a file, construction needs both arguments and a start that is
      a pair, and then uses them with two lives and no static actors. */
  lemma SetupWithoutFile(size: Option<seq<int>>, start: Option<seq<int>>)
    ensures Setup(size, start, None).Ok? <==> size.Some? && start.Some? && |start.value| == 2
    ensures Setup(size, start, None).Ok? ==> Setup(size, start, None).value == Config(start, size, 2, [], [])
    ensures size.Some? && start.None? ==> Setup(size, start, None) == Err(NoHeroStart)
  {
  }

  /** With a file, construction uses the settings the file leaves on top of
      the arguments and checks them in order: a file that cannot be read,
      then no size, then no hero start, then a start that is not a pair. */
  lemma SetupWithFile(size: Option<seq<int>>, start: Option<seq<int>>, lines: seq<string>)
    ensures var l := LoadFile(Defaults(size, start), lines); var r := Setup(size, start, Some(lines));
      && (l.Err? ==> r == Err(BadFile(l.error)))
      && (l.Ok? && l.value.size.None? ==> r == Err(NoSize))
      && (l.Ok? && l.value.size.Some? && l.value.heroStart.None? ==> r == Err(NoHeroStart))
      && (l.Ok? && l.value.size.Some? && l.value.heroStart.Some? && |l.value.heroStart.value| != 2 ==>
            r == Err(StartNotAPoint))
      && (l.Ok? && l.value.size.Some? && l.value.heroStart.Some? && |l.value.heroStart.value| == 2 ==>
            r == Ok(l.value))
  {
  }
}
