/** The game session of src/framework/gnggame.py: the level file loader
    (`_manage_file`, read here from a sequence of lines), the construction
    checks, the lives / game-over / game-won bookkeeping done after each
    arena tick, `reset_game`, and the colour table the demo renderer uses
    for background actors. */
module Game {
  import opened Arena
  import opened PyStrings

  datatype Result<T, E> = Ok(value: T) | Err(error: E)

  /** A static actor a level file places, with the constructor arguments
      read for it. `PlacedBlock` is a background actor of class `kind`. */
  datatype Placed =
    | PlacedPlant(x: int, y: int)
    | PlacedZombie(x: int, y: int, direction: string)
    | PlacedMagician(x: int, y: int)
    | PlacedBlock(kind: Kind, x: int, y: int, w: int, h: int)

  /** The settings the loader fills in: the hero's start and the arena size
      (each the tuple of numbers read, if any), the number of lives, and the
      static enemies and platforms in file order. */
  datatype Config = Config(
    heroStart: Option<seq<int>>,
    size: Option<seq<int>>,
    lives: int,
    enemies: seq<Placed>,
    platforms: seq<Placed>)

  /** Why loading stops. Each one is an exception in the source, except
      `Unterminated`: a block without its closing line makes the source read
      empty lines forever. */
  datatype LoadError =
    | NotKeyValue     // `option, value = line.split(": ")` without exactly one ": "
    | NotAnInt        // `int(v)` of something that is not a base-10 literal
    | NotFourValues   // a platform entry without exactly four numbers
    | MissingValue    // an enemy entry with too few values (an IndexError)
    | NotWellFormed   // an `Enemies` or `Platforms` line whose value is not "["
    | Unterminated    // a block with no "]" line after it

  const DefaultLives := 2

  /** The settings before the file is read: what the constructor was passed,
      two lives, nothing placed. */
  function Defaults(size: Option<seq<int>>, start: Option<seq<int>>): Config
  {
    Config(start, size, DefaultLives, [], [])
  }

  /** A stripped line the loader skips: empty, or a comment. */
  predicate IsComment(t: string)
  {
    t == [] || t[0] == '#'
  }

  /** `option, value = line.split(": ")`: defined exactly when the line holds
      one separator, and then the line is the option, the separator and the
      value. */
  function KeyValue(line: string): (r: Option<(string, string)>)
    ensures r.None? <==> |Split(line, ": ")| != 2
    ensures r.Some? ==> r.value.0 + ": " + r.value.1 == line
    ensures r.Some? ==> !Occurs(r.value.0, ": ") && !Occurs(r.value.1, ": ")
  {
    var parts := Split(line, ": ");
    if |parts| == 2 then
      assert Join(parts, ": ") == parts[0] + ": " + parts[1];
      Some((parts[0], parts[1]))
    else None
  }

  /** Every line is stripped as it is read, at the top level
      (`line.strip()`) and inside a block (`f.readline().strip()`). */
  function StripAll(lines: seq<string>): (r: seq<string>)
    ensures |r| == |lines|
  {
    if lines == [] then [] else StripAll(lines[..|lines| - 1]) + [Strip(lines[|lines| - 1])]
  }

  /** The first of the stripped lines that is "]", if any. */
  function BlockEnd(ts: seq<string>): (r: Option<nat>)
    ensures r.Some? ==> r.value < |ts| && ts[r.value] == "]"
    ensures r.Some? ==> forall k :: 0 <= k < r.value ==> ts[k] != "]"
    ensures r.None? ==> forall k :: 0 <= k < |ts| ==> ts[k] != "]"
  {
    if ts == [] then None
    else if ts[0] == "]" then Some(0)
    else match BlockEnd(ts[1..])
      case None => None
      case Some(j) => Some(j + 1)
  }

  /** The two kinds of block a level file holds. */
  datatype Block = Enemies | Platforms

  /** An entry of the `Enemies` block. Plant and Magician read two numbers,
      Zombie two numbers and a direction; any other option places nothing.
      The values are read left to right, so a bad first number is reported
      before a missing second one. */
  function EnemyEntry(option: string, value: string): (r: Result<Option<Placed>, LoadError>)
    ensures option != "Plant" && option != "Zombie" && option != "Magician" ==> r == Ok(None)
    ensures r.Ok? && r.value.Some? ==> ParseInt(Split(value, ", ")[0]).Some?
  {
    var vals := Split(value, ", ");
    if option != "Plant" && option != "Zombie" && option != "Magician" then Ok(None)
    else match ParseInt(vals[0])
      case None => Err(NotAnInt)
      case Some(x) =>
        if |vals| < 2 then Err(MissingValue)
        else match ParseInt(vals[1])
          case None => Err(NotAnInt)
          case Some(y) =>
            if option == "Plant" then Ok(Some(PlacedPlant(x, y)))
            else if option == "Magician" then Ok(Some(PlacedMagician(x, y)))
            else if |vals| < 3 then Err(MissingValue)
            else Ok(Some(PlacedZombie(x, y, Strip(vals[2]))))
  }

  /** The class a platform entry names; the other background classes
      (`BackgroundSolid`, `BackgroundActor`) are not among the cases. */
  function PlatformKind(option: string): (r: Option<Kind>)
    ensures r.Some? ==> IsBackground(r.value) && r.value != BackgroundActor && r.value != BackgroundSolid
  {
    if option == "Ground" then Some(Ground)
    else if option == "BackgroundPlatform" then Some(BackgroundPlatform)
    else if option == "BackgroundLadder" then Some(BackgroundLadder)
    else if option == "Grave" then Some(Grave)
    else if option == "BackgroundWinArea" then Some(BackgroundWinArea)
    else None
  }

  /** `x, y, w, h = (int(v) for v in vals)`: the generator is read for at
      most five items, so a bad number among the first five is reported
      before a wrong count. */
  function FourInts(vals: seq<string>): (r: Result<seq<int>, LoadError>)
    ensures r.Ok? <==> |vals| == 4 && ParseInts(vals).Some?
    ensures r.Ok? ==> r.value == ParseInts(vals).value
  {
    var read := if |vals| < 5 then vals else vals[..5];
    match ParseInts(read)
    case None => Err(NotAnInt)
    case Some(ns) => if |vals| != 4 then Err(NotFourValues) else Ok(ns)
  }

  /** An entry of the `Platforms` block. The four numbers are read before the
      class is looked at, so an unknown class with bad numbers is an error,
      and an unknown class with good numbers places nothing. */
  function PlatformEntry(option: string, value: string): (r: Result<Option<Placed>, LoadError>)
    ensures r.Ok? ==> FourInts(Split(value, ", ")).Ok?
    ensures r.Ok? ==> (r.value.Some? <==> PlatformKind(option).Some?)
  {
    match FourInts(Split(value, ", "))
    case Err(e) => Err(e)
    case Ok(ns) =>
      match PlatformKind(option)
      case None => Ok(None)
      case Some(k) => Ok(Some(PlacedBlock(k, ns[0], ns[1], ns[2], ns[3])))
  }

  function Entry(b: Block, option: string, value: string): Result<Option<Placed>, LoadError>
  {
    if b == Enemies then EnemyEntry(option, value) else PlatformEntry(option, value)
  }

  function Listed(p: Option<Placed>): seq<Placed>
  {
    if p.Some? then [p.value] else []
  }

  /** The loop over a block's stripped lines: comments are skipped, every
      other line is an entry whose actor, if any, is appended to `acc`. */
  function BlockItems(b: Block, acc: seq<Placed>, items: seq<string>): (r: Result<seq<Placed>, LoadError>)
    ensures r.Ok? ==> acc <= r.value && |r.value| <= |acc| + |items|
    decreases |items|
  {
    if items == [] then Ok(acc)
    else if IsComment(items[0]) then BlockItems(b, acc, items[1..])
    else match KeyValue(items[0])
      case None => Err(NotKeyValue)
      case Some(kv) =>
        match Entry(b, kv.0, kv.1)
        case Err(e) => Err(e)
        case Ok(p) => BlockItems(b, acc + Listed(p), items[1..])
  }

  function Placements(c: Config, b: Block): seq<Placed>
  {
    if b == Enemies then c.enemies else c.platforms
  }

  function WithPlacements(c: Config, b: Block, ps: seq<Placed>): Config
  {
    if b == Enemies then c.(enemies := ps) else c.(platforms := ps)
  }

  /** `_manage_file`: the settings after reading the file's lines on top of
      `c`. */
  function LoadFile(c: Config, lines: seq<string>): Result<Config, LoadError>
  {
    Load(c, StripAll(lines))
  }

  /** The loader over the stripped lines `ts`. */
  function Load(c: Config, ts: seq<string>): Result<Config, LoadError>
    decreases |ts|, 0
  {
    if ts == [] then Ok(c)
    else if IsComment(ts[0]) then Load(c, ts[1..])
    else match KeyValue(ts[0])
      case None => Err(NotKeyValue)
      case Some(kv) => LoadOption(c, kv.0, kv.1, ts[1..])
  }

  /** One `option: value` line of the file, followed by `rest`. Options
      other than the five known ones are ignored. */
  function LoadOption(c: Config, option: string, value: string, rest: seq<string>): Result<Config, LoadError>
    decreases |rest|, 1
  {
    if option == "Hero_Start_Pos" || option == "Size" then
      match ParseInts(Split(value, ", "))
      case None => Err(NotAnInt)
      case Some(ns) =>
        Load(if option == "Size" then c.(size := Some(ns)) else c.(heroStart := Some(ns)), rest)
    else if option == "Lives" then
      match ParseInt(value)
      case None => Err(NotAnInt)
      case Some(n) => Load(c.(lives := n), rest)
    else if option == "Enemies" || option == "Platforms" then
      if value != "[" then Err(NotWellFormed)
      else match BlockEnd(rest)
        case None => Err(Unterminated)
        case Some(j) =>
          var b := if option == "Enemies" then Enemies else Platforms;
          match BlockItems(b, Placements(c, b), rest[..j])
          case Err(e) => Err(e)
          case Ok(ps) => Load(WithPlacements(c, b, ps), rest[j + 1..])
    else Load(c, rest)
  }

  /** `_manage_file`, reading and stripping the lines one by one as the
      source does, and collecting each block before reading its entries. */
  method ManageFile(c0: Config, lines: seq<string>) returns (r: Result<Config, LoadError>)
    ensures r == LoadFile(c0, lines)
  {
    var ts := StripLines(lines);
    var c := c0;
    var i := 0;
    while i < |ts|
      invariant 0 <= i <= |ts|
      invariant Load(c0, ts) == Load(c, ts[i..])
      decreases |ts| - i
    {
      assert ts[i..][1..] == ts[i + 1..];
      var line := ts[i];
      i := i + 1;
      if !IsComment(line) {
        var kv := KeyValue(line);
        if kv.None? {
          return Err(NotKeyValue);
        }
        var res := ApplyOption(c, kv.value.0, kv.value.1, ts, i);
        if res.Err? {
          return Err(res.error);
        }
        c, i := res.value.0, res.value.1;
      }
    }
    return Ok(c);
  }

  /** The lines of the file, each stripped, in order. */
  method StripLines(lines: seq<string>) returns (ts: seq<string>)
    ensures ts == StripAll(lines)
  {
    ts := [];
    for k := 0 to |lines|
      invariant ts == StripAll(lines[..k])
    {
      assert lines[..k + 1][..k] == lines[..k];
      ts := ts + [Strip(lines[k])];
    }
    assert lines[..|lines|] == lines;
  }

  /** The body of the `match option` for one line, the stripped lines being
      read from index `from` on: the new settings and the index reading
      resumes at. */
  method ApplyOption(c: Config, option: string, value: string, ts: seq<string>, from: nat)
    returns (r: Result<(Config, nat), LoadError>)
    requires from <= |ts|
    ensures r.Err? ==> LoadOption(c, option, value, ts[from..]) == Err(r.error)
    ensures r.Ok? ==> from <= r.value.1 <= |ts|
    ensures r.Ok? ==> LoadOption(c, option, value, ts[from..]) == Load(r.value.0, ts[r.value.1..])
  {
    if option == "Hero_Start_Pos" || option == "Size" {
      var ns := ParseInts(Split(value, ", "));
      if ns.None? {
        return Err(NotAnInt);
      }
      if option == "Size" {
        return Ok((c.(size := Some(ns.value)), from));
      }
      return Ok((c.(heroStart := Some(ns.value)), from));
    } else if option == "Lives" {
      var n := ParseInt(value);
      if n.None? {
        return Err(NotAnInt);
      }
      return Ok((c.(lives := n.value), from));
    } else if option == "Enemies" || option == "Platforms" {
      if value != "[" {
        return Err(NotWellFormed);
      }
      var b := if option == "Enemies" then Enemies else Platforms;
      var next, block := ReadBlock(ts, from);
      if next.None? {
        return Err(Unterminated);
      }
      var ps := ReadEntries(b, Placements(c, b), block);
      if ps.Err? {
        return Err(ps.error);
      }
      assert ts[from..][next.value - from..] == ts[next.value..];
      return Ok((WithPlacements(c, b, ps.value), next.value));
    }
    return Ok((c, from));
  }

  /** `while (l := f.readline().strip()) != "]": lines.append(l)` from index
      `from` on: the block's lines and the index after the "]", or nothing
      when the lines run out first. */
  method ReadBlock(ts: seq<string>, from: nat) returns (next: Option<nat>, block: seq<string>)
    requires from <= |ts|
    ensures next.None? <==> BlockEnd(ts[from..]).None?
    ensures next.Some? ==> var j := BlockEnd(ts[from..]).value;
      next.value == from + j + 1 && next.value <= |ts| && block == ts[from..][..j]
  {
    var i := from;
    block := [];
    while true
      invariant from <= i <= |ts|
      invariant block == ts[from..i]
      invariant forall k :: from <= k < i ==> ts[k] != "]"
      decreases |ts| - i
    {
      if i == |ts| {
        assert forall k :: 0 <= k < |ts[from..]| ==> ts[from..][k] != "]";
        return None, block;
      }
      var l := ts[i];
      if l == "]" {
        assert forall k :: 0 <= k < i - from ==> ts[from..][k] != "]";
        assert ts[from..][i - from] == "]";
        assert ts[from..][..i - from] == ts[from..i];
        return Some(i + 1), block;
      }
      assert ts[from..i + 1] == ts[from..i] + [l];
      block := block + [l];
      i := i + 1;
    }
  }

  /** The loop over a block's lines, appending each entry's actor. */
  method ReadEntries(b: Block, acc0: seq<Placed>, items: seq<string>) returns (r: Result<seq<Placed>, LoadError>)
    ensures r == BlockItems(b, acc0, items)
  {
    var acc := acc0;
    for k := 0 to |items|
      invariant BlockItems(b, acc0, items) == BlockItems(b, acc, items[k..])
    {
      assert items[k..][1..] == items[k + 1..];
      var l := items[k];
      if !IsComment(l) {
        var kv := KeyValue(l);
        if kv.None? {
          return Err(NotKeyValue);
        }
        var p := Entry(b, kv.value.0, kv.value.1);
        if p.Err? {
          return Err(p.error);
        }
        acc := acc + Listed(p.value);
      }
    }
    return Ok(acc);
  }

  // -------------------------------------------------------------------------
  // Construction

  datatype SetupError =
    | BadFile(reason: LoadError)   // the file could not be read as a level
    | NoSize                       // no size in the arguments nor in the file
    | NoHeroStart                  // no hero start in the arguments nor in the file
    | StartNotAPoint               // Arthur's constructor unpacks the start as (x, y)

  /** `__init__` up to the arena's construction: the arguments, overridden by
      the file when there is one, then the two presence checks, in order. */
  function Setup(size: Option<seq<int>>, start: Option<seq<int>>, file: Option<seq<string>>): (r: Result<Config, SetupError>)
    ensures r.Ok? ==> r.value.size.Some? && r.value.heroStart.Some? && |r.value.heroStart.value| == 2
    ensures file.None? ==> (r == Err(NoSize) <==> size.None?)
    ensures file.Some? && LoadFile(Defaults(size, start), file.value).Err? ==>
              r == Err(BadFile(LoadFile(Defaults(size, start), file.value).error))
  {
    var loaded := if file.Some? then LoadFile(Defaults(size, start), file.value) else Ok(Defaults(size, start));
    match loaded
    case Err(e) => Err(BadFile(e))
    case Ok(c) =>
      if c.size.None? then Err(NoSize)
      else if c.heroStart.None? then Err(NoHeroStart)
      else if |c.heroStart.value| != 2 then Err(StartNotAPoint)
      else Ok(c)
  }

  // -------------------------------------------------------------------------
  // The session

  /** What the session knows to be in the arena: an Arthur (numbered by
      creation, so a fresh one differs from the one that died), a static
      actor from the level, a zombie spawned near the hero, or any other
      actor. */
  datatype Member = Hero(generation: nat) | Static(entry: Placed) | Walker(at: Point, dir: Dir) | Transient(id: nat)

  /** The session fields of `GngGame`. `heroes` counts the Arthurs created;
      `hero` is the number of the current one, `None` once the game is
      over. */
  datatype Session = Session(
    start: Point,
    size: seq<int>,
    statics: seq<Placed>,
    lives: int,
    maxLives: int,
    heroes: nat,
    hero: Option<nat>,
    roster: seq<Member>,
    gameOver: bool,
    gameWon: bool)

  /** The static actors spawned, enemies first, in file order. */
  function StaticMembers(ps: seq<Placed>): (r: seq<Member>)
    ensures |r| == |ps| && forall k :: 0 <= k < |ps| ==> r[k] == Static(ps[k])
  {
    if ps == [] then [] else [Static(ps[0])] + StaticMembers(ps[1..])
  }

  /** The session right after `__init__`: the statics and one Arthur at the
      start position in the arena, as many lives as the level gives, and
      `_max_lives` equal to them. */
  function NewSession(c: Config): (r: Session)
    requires c.size.Some? && c.heroStart.Some? && |c.heroStart.value| == 2
    ensures r.lives == r.maxLives == c.lives && r.heroes == 1 && r.hero == Some(1)
    ensures r.roster == StaticMembers(c.enemies + c.platforms) + [Hero(1)]
    ensures !r.gameOver && !r.gameWon
  {
    var p := c.heroStart.value;
    Session(Point(p[0] as real, p[1] as real), c.size.value, c.enemies + c.platforms,
            c.lives, c.lives, 1, Some(1), StaticMembers(c.enemies + c.platforms) + [Hero(1)], false, false)
  }

  /** The session's bookkeeping holds together: there is a current Arthur
      exactly while the game is not over, it is the last one created, and
      every Arthur created after the first one cost a life. */
  ghost predicate Valid(s: Session)
  {
    (s.hero.Some? <==> !s.gameOver)
    && (s.hero.Some? ==> s.hero.value == s.heroes)
    && s.heroes >= 1
    && s.heroes + s.lives == 1 + s.maxLives
  }

  /** What the arena's own tick, which runs first, leaves for the session to
      look at: the actors now in the arena, whether the current Arthur has
      won and where he is, and the outcome of the zombie draw. */
  datatype TickView = TickView(roster: seq<Member>, heroWon: bool, heroPos: Point, walker: Option<WalkerDraw>)

  /** `randrange(500) == 0` came up, with the drawn side and distance. */
  datatype WalkerDraw = WalkerDraw(dir: Dir, offset: int)

  predicate DrawInRange(v: TickView)
  {
    v.walker.Some? ==> 50 <= v.walker.value.offset < 200
  }

  /** A zombie walking right appears to the hero's left, and one walking left
      to his right, at the drawn distance and at his height. */
  function WalkerAt(p: Point, d: WalkerDraw): (m: Member)
    ensures m.Walker? && m.dir == d.dir && m.at.y == p.y
    ensures d.dir == Right ==> m.at.x + d.offset as real == p.x
    ensures d.dir == Left ==> m.at.x - d.offset as real == p.x
  {
    match d.dir
    case Right => Walker(Point(p.x - d.offset as real, p.y), Right)
    case Left => Walker(Point(p.x + d.offset as real, p.y), Left)
  }

  predicate HeroPresent(s: Session)
  {
    s.hero.Some? && Hero(s.hero.value) in s.roster
  }

  function WithRoster(s: Session, roster: seq<Member>): Session
  {
    s.(roster := roster)
  }

  function SpawnWalker(s: Session, v: TickView): Session
  {
    if v.walker.Some? then s.(roster := s.roster + [WalkerAt(v.heroPos, v.walker.value)]) else s
  }

  function CheckWon(s: Session, heroWon: bool): Session
  {
    if heroWon then s.(gameWon := true) else s
  }

  /** `reset_game`: every actor is killed, the statics are spawned again, a
      life is spent and a fresh Arthur is spawned at the start. */
  function Reset(s: Session): (r: Session)
    ensures r.roster == StaticMembers(s.statics) + [Hero(s.heroes + 1)]
    ensures r.lives == s.lives - 1 && r.heroes == s.heroes + 1 && r.hero == Some(r.heroes)
    ensures r.gameOver == s.gameOver && r.gameWon == s.gameWon && r.maxLives == s.maxLives
  {
    s.(roster := StaticMembers(s.statics) + [Hero(s.heroes + 1)], lives := s.lives - 1,
       heroes := s.heroes + 1, hero := Some(s.heroes + 1))
  }

  function CheckHero(s: Session): Session
  {
    if HeroPresent(s) then s
    else if s.lives > 0 then Reset(s)
    else s.(gameOver := true, hero := None)
  }

  /** `tick` after the arena's own tick: nothing more once the game is over
      or won; otherwise the zombie draw, the win check and the death check,
      in that order. */
  function SessionTick(s: Session, v: TickView): Session
    requires DrawInRange(v)
  {
    var s1 := WithRoster(s, v.roster);
    if s.gameOver || s.gameWon then s1
    else CheckHero(CheckWon(SpawnWalker(s1, v), v.heroWon))
  }

  /** The session after a sequence of ticks. */
  function SessionRun(s: Session, vs: seq<TickView>): Session
    requires forall k :: 0 <= k < |vs| ==> DrawInRange(vs[k])
  {
    if vs == [] then s else SessionTick(SessionRun(s, vs[..|vs| - 1]), vs[|vs| - 1])
  }

  // -------------------------------------------------------------------------
  // GngGame as the object the source updates in place

  class GngGame {
    const start: Point
    const size: seq<int>
    const statics: seq<Placed>
    var currentLives: int
    var maxLives: int
    var heroes: nat
    var hero: Option<nat>
    var actors: seq<Member>
    var isOver: bool
    var isWon: bool

    function Snapshot(): Session
      reads this
    {
      Session(start, size, statics, currentLives, maxLives, heroes, hero, actors, isOver, isWon)
    }

    constructor (c: Config)
      requires c.size.Some? && c.heroStart.Some? && |c.heroStart.value| == 2
      ensures Snapshot() == NewSession(c)
    {
      var p := c.heroStart.value;
      start := Point(p[0] as real, p[1] as real);
      size := c.size.value;
      statics := c.enemies + c.platforms;
      currentLives, maxLives := c.lives, c.lives;
      heroes := 0;
      actors := [];
      isOver, isWon := false, false;
      hero := None;
      new;
      SpawnStaticActors();
      SpawnHero();
    }

    /** `GngGame(size, hero_start_pos, file_path)`: the file, when there is
        one, is read first; the construction fails as `Setup` does. */
    static method Create(size: Option<seq<int>>, start: Option<seq<int>>, file: Option<seq<string>>)
      returns (r: Result<GngGame, SetupError>)
      ensures r.Err? <==> Setup(size, start, file).Err?
      ensures r.Err? ==> r.error == Setup(size, start, file).error
      ensures r.Ok? ==> fresh(r.value) && r.value.Snapshot() == NewSession(Setup(size, start, file).value)
    {
      var c := Defaults(size, start);
      if file.Some? {
        var loaded := ManageFile(c, file.value);
        if loaded.Err? {
          return Err(BadFile(loaded.error));
        }
        c := loaded.value;
      }
      if c.size.None? {
        return Err(NoSize);
      }
      if c.heroStart.None? {
        return Err(NoHeroStart);
      }
      if |c.heroStart.value| != 2 {
        return Err(StartNotAPoint);
      }
      var g := new GngGame(c);
      return Ok(g);
    }

    function GetLives(): int reads this { currentLives }
    function GetMaxLives(): int reads this { maxLives }
    predicate GameOver() reads this { isOver }
    predicate GameWon() reads this { isWon }
    function GetHero(): Option<nat> reads this { hero }

    /** `_spawn_static_actors`. */
    method SpawnStaticActors()
      modifies this
      ensures Snapshot() == old(Snapshot()).(roster := old(actors) + StaticMembers(statics))
    {
      for k := 0 to |statics|
        invariant actors == old(actors) + StaticMembers(statics[..k])
        invariant Snapshot() == old(Snapshot()).(roster := actors)
      {
        StaticMembersSnoc(statics[..k], statics[k]);
        assert statics[..k + 1] == statics[..k] + [statics[k]];
        actors := actors + [Static(statics[k])];
      }
      assert statics[..|statics|] == statics;
    }

    /** `self._hero = Arthur(self._hero_start_pos)` and its spawn. */
    method SpawnHero()
      modifies this
      ensures Snapshot() == old(Snapshot()).(heroes := old(heroes) + 1, hero := Some(old(heroes) + 1),
                                             roster := old(actors) + [Hero(old(heroes) + 1)])
    {
      heroes := heroes + 1;
      hero := Some(heroes);
      actors := actors + [Hero(heroes)];
    }

    /** `_kill_all`. */
    method KillAll()
      modifies this
      ensures Snapshot() == old(Snapshot()).(roster := [])
    {
      actors := [];
    }

    method ResetGame()
      modifies this
      ensures Snapshot() == Reset(old(Snapshot()))
    {
      KillAll();
      SpawnStaticActors();
      currentLives := currentLives - 1;
      SpawnHero();
    }

    /** `tick`, given what the arena's own tick left behind. */
    method Tick(v: TickView)
      requires DrawInRange(v)
      modifies this
      ensures Snapshot() == SessionTick(old(Snapshot()), v)
    {
      actors := v.roster;
      if !isOver && !isWon {
        if v.walker.Some? {
          actors := actors + [WalkerAt(v.heroPos, v.walker.value)];
        }
        if v.heroWon {
          isWon := true;
        }
        if !(hero.Some? && Hero(hero.value) in actors) {
          if currentLives > 0 {
            ResetGame();
          } else {
            isOver := true;
            hero := None;
          }
        }
      }
    }
  }

  lemma StaticMembersSnoc(ps: seq<Placed>, p: Placed)
    ensures StaticMembers(ps + [p]) == StaticMembers(ps) + [Static(p)]
  {
  }

  // -------------------------------------------------------------------------
  // The demo renderer's colour table

  datatype Rgb = Rgb(r: int, g: int, b: int)

  /** `_type_colour`: the six background classes have their own colour;
      any other class name is black. */
  function TypeColour(name: string): (c: Rgb)
    ensures 0 <= c.r <= 255 && 0 <= c.g <= 255 && 0 <= c.b <= 255
    ensures c == Rgb(0, 0, 0) <==> name !in ColouredNames
  {
    match name
    case "Ground" => Rgb(0, 112, 37)
    case "Grave" => Rgb(60, 79, 69)
    case "BackgroundLadder" => Rgb(79, 41, 0)
    case "BackgroundPlatform" => Rgb(0, 138, 67)
    case "BackgroundSolid" => Rgb(30, 30, 30)
    case "BackgroundWinArea" => Rgb(0, 255, 255)
    case _ => Rgb(0, 0, 0)
  }

  const ColouredNames: set<string> :=
    {"Ground", "Grave", "BackgroundLadder", "BackgroundPlatform", "BackgroundSolid", "BackgroundWinArea"}

  /** `type(a).__name__` for each class; both zombie classes are named
      `Zombie`. */
  function ClassName(k: Kind): string
  {
    match k
    case Actor => "Actor"
    case Arthur => "Arthur"
    case Enemy => "Enemy"
    case Zombie | LegacyZombie => "Zombie"
    case Plant => "Plant"
    case Eyeball => "Eyeball"
    case Magician => "Magician"
    case MagicProjectile => "MagicProjectile"
    case Weapon => "Weapon"
    case Torch => "Torch"
    case Flame => "Flame"
    case BackgroundActor => "BackgroundActor"
    case BackgroundPlatform => "BackgroundPlatform"
    case BackgroundSolid => "BackgroundSolid"
    case Grave => "Grave"
    case Ground => "Ground"
    case BackgroundLadder => "BackgroundLadder"
    case BackgroundWinArea => "BackgroundWinArea"
  }
}
