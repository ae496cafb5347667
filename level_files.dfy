/** The level file format that `_manage_file` of src/framework/gnggame.py
    reads, written out as a function, and the proof that the loader reads
    any level written this way back to the settings it came from. */
module LevelFiles {
  import opened Arena
  import opened PyStrings
  import opened Game

  // -------------------------------------------------------------------------
  // Writing a level file

  function Shows(ns: seq<int>): (r: seq<string>)
    ensures |r| == |ns| && forall k :: 0 <= k < |ns| ==> r[k] == Show(ns[k])
  {
    seq(|ns|, k requires 0 <= k < |ns| => Show(ns[k]))
  }

  /** Numbers as level files write them: `1, 2, 3`. */
  function Numbers(ns: seq<int>): string
  {
    Join(Shows(ns), ", ")
  }

  /** A `key: value` line. */
  function Line(key: string, value: string): string
  {
    key + ": " + value
  }

  /** The option an entry line names. */
  function EntryKey(p: Placed): string
  {
    match p
    case PlacedPlant(_, _) => "Plant"
    case PlacedMagician(_, _) => "Magician"
    case PlacedZombie(_, _, _) => "Zombie"
    case PlacedBlock(k, _, _, _, _) => ClassName(k)
  }

  /** The values of an entry line: the position, then the direction of a
      zombie or the size of a platform. */
  function EntryValue(p: Placed): string
  {
    match p
    case PlacedPlant(x, y) => Numbers([x, y])
    case PlacedMagician(x, y) => Numbers([x, y])
    case PlacedZombie(x, y, d) => Join([Show(x), Show(y), d], ", ")
    case PlacedBlock(_, x, y, w, h) => Numbers([x, y, w, h])
  }

  /** The line a level file has for a static actor. */
  function EntryLine(p: Placed): string
  {
    Line(EntryKey(p), EntryValue(p))
  }

  function EntryLines(ps: seq<Placed>): (r: seq<string>)
    ensures |r| == |ps| && forall k :: 0 <= k < |ps| ==> r[k] == EntryLine(ps[k])
  {
    if ps == [] then [] else [EntryLine(ps[0])] + EntryLines(ps[1..])
  }

  function BlockName(b: Block): string
  {
    if b == Enemies then "Enemies" else "Platforms"
  }

  function BlockText(b: Block, ps: seq<Placed>): seq<string>
  {
    [Line(BlockName(b), "[")] + EntryLines(ps) + ["]"]
  }

  function Setting(key: string, v: Option<seq<int>>): seq<string>
  {
    if v.Some? then [Line(key, Numbers(v.value))] else []
  }

  /** A level file for the settings `c`. */
  function Render(c: Config): seq<string>
  {
    Setting("Hero_Start_Pos", c.heroStart)
    + (Setting("Size", c.size)
    + ([Line("Lives", Show(c.lives))]
    + (BlockText(Enemies, c.enemies) + BlockText(Platforms, c.platforms))))
  }

  /** A zombie direction the format can carry: no comma or colon, and no
      white space at either end. */
  predicate GoodDirection(d: string)
  {
    d != [] && !IsSpace(d[0]) && !IsSpace(d[|d| - 1])
    && forall j :: 0 <= j < |d| ==> d[j] != ',' && d[j] != ':'
  }

  /** The actors each block can hold: the three enemies, and the five
      platform classes the loader knows. */
  predicate Fits(b: Block, p: Placed)
  {
    if b == Enemies then p.PlacedPlant? || p.PlacedMagician? || (p.PlacedZombie? && GoodDirection(p.direction))
    else p.PlacedBlock? && PlatformKind(ClassName(p.kind)) == Some(p.kind)
  }

  predicate AllFit(b: Block, ps: seq<Placed>)
  {
    forall k :: 0 <= k < |ps| ==> Fits(b, ps[k])
  }

  /** Settings a level file can express. */
  predicate Writable(c: Config)
  {
    (c.heroStart.Some? ==> c.heroStart.value != [])
    && (c.size.Some? ==> c.size.value != [])
    && AllFit(Enemies, c.enemies) && AllFit(Platforms, c.platforms)
  }

  // -------------------------------------------------------------------------
  // Single lines

  predicate NoColon(s: string)
  {
    forall j :: 0 <= j < |s| ==> s[j] != ':'
  }

  /** A well-formed `key: value` line: neither part holds a colon, and the
      line neither starts nor ends with white space nor starts a comment. */
  predicate GoodLine(key: string, value: string)
  {
    key != [] && value != [] && !IsSpace(key[0]) && key[0] != '#' && !IsSpace(value[|value| - 1])
    && NoColon(key) && NoColon(value)
  }

  lemma LineStripped(key: string, value: string)
    requires GoodLine(key, value)
    ensures Strip(Line(key, value)) == Line(key, value)
    ensures !IsComment(Line(key, value)) && Line(key, value) != "]"
  {
    var line := Line(key, value);
    assert line[0] == key[0] && line[|line| - 1] == value[|value| - 1];
    StripFixed(line);
    assert line[|key|] == ':';
  }

  lemma LineSplit(key: string, value: string)
    requires GoodLine(key, value)
    ensures KeyValue(Line(key, value)) == Some((key, value))
  {
    var parts := [key, value];
    assert Join(parts, ": ") == Line(key, value) by {
      assert parts[1..] == [value];
    }
    assert FreeOf(parts, ':') by {
      forall k, j | 0 <= k < 2 && 0 <= j < |parts[k]|
        ensures parts[k][j] != ':'
      {
        if k == 0 { assert NoColon(key); } else { assert NoColon(value); }
      }
    }
    SplitJoin(parts, ": ");
  }

  /** `str(n)` holds only digits and a sign. */
  lemma ShowFree(n: int)
    ensures forall j :: 0 <= j < |Show(n)| ==> Show(n)[j] != ',' && Show(n)[j] != ':'
  {
    var d := Show(n);
    forall j | 0 <= j < |d|
      ensures d[j] != ',' && d[j] != ':'
    {
      assert IsDigit(d[j]) || d[j] == '-';
    }
  }

  lemma ShowsFree(ns: seq<int>, c: char)
    requires c == ',' || c == ':'
    ensures FreeOf(Shows(ns), c)
  {
    var parts := Shows(ns);
    forall k, j | 0 <= k < |parts| && 0 <= j < |parts[k]|
      ensures parts[k][j] != c
    {
      ShowFree(ns[k]);
    }
  }

  lemma ShowsParse(ns: seq<int>)
    ensures ParseInts(Shows(ns)) == Some(ns)
  {
    var parts := Shows(ns);
    forall k | 0 <= k < |ns|
      ensures ParseInt(parts[k]) == Some(ns[k])
    {
      ParseShow(ns[k]);
    }
    assert ParseInts(parts).Some?;
    assert ParseInts(parts).value == ns;
  }

  /** Written numbers are cut back at ", " into the pieces written. */
  lemma NumbersSplit(ns: seq<int>)
    requires ns != []
    ensures Split(Numbers(ns), ", ") == Shows(ns)
  {
    ShowsFree(ns, ',');
    SplitJoin(Shows(ns), ", ");
  }

  /** Written numbers can stand as the value of a line. */
  lemma NumbersValue(ns: seq<int>)
    requires ns != []
    ensures var t := Numbers(ns); t != [] && !IsSpace(t[|t| - 1]) && NoColon(t)
  {
    ShowsFree(ns, ':');
    JoinFree(Shows(ns), ", ", ':');
    JoinLast(Shows(ns), ", ");
  }

  /** Two written numbers are read back, one by one. */
  lemma TwoNumbers(x: int, y: int)
    ensures var vals := Split(Numbers([x, y]), ", ");
      |vals| == 2 && ParseInt(vals[0]) == Some(x) && ParseInt(vals[1]) == Some(y)
  {
    NumbersSplit([x, y]);
    ParseShow(x);
    ParseShow(y);
  }

  /** Four written numbers are read back together. */
  lemma FourNumbers(x: int, y: int, w: int, h: int)
    ensures FourInts(Split(Numbers([x, y, w, h]), ", ")) == Ok([x, y, w, h])
  {
    NumbersSplit([x, y, w, h]);
    ShowsParse([x, y, w, h]);
  }

  // -------------------------------------------------------------------------
  // Entry lines

  lemma ZombieParts(x: int, y: int, d: string)
    requires GoodDirection(d)
    ensures var parts := [Show(x), Show(y), d];
      FreeOf(parts, ',') && FreeOf(parts, ':') && parts[|parts| - 1] != []
  {
    var parts := [Show(x), Show(y), d];
    ShowFree(x);
    ShowFree(y);
    forall k, j | 0 <= k < 3 && 0 <= j < |parts[k]|
      ensures parts[k][j] != ',' && parts[k][j] != ':'
    {
    }
  }

  lemma ZombieSplit(x: int, y: int, d: string)
    requires GoodDirection(d)
    ensures Split(Join([Show(x), Show(y), d], ", "), ", ") == [Show(x), Show(y), d]
  {
    ZombieParts(x, y, d);
    SplitJoin([Show(x), Show(y), d], ", ");
  }

  lemma ZombieValue(x: int, y: int, d: string)
    requires GoodDirection(d)
    ensures var v := Join([Show(x), Show(y), d], ", "); v != [] && !IsSpace(v[|v| - 1]) && NoColon(v)
  {
    var parts := [Show(x), Show(y), d];
    ZombieParts(x, y, d);
    JoinFree(parts, ", ", ':');
    JoinLast(parts, ", ");
  }

  /** The platform classes the loader knows are named by capitalised words
      without a colon. */
  lemma PlatformNameShape(n: string)
    requires PlatformKind(n).Some?
    ensures n != [] && 'A' <= n[0] <= 'Z' && NoColon(n)
  {
  }

  lemma PairGood(key: string, x: int, y: int)
    requires key == "Plant" || key == "Magician"
    ensures GoodLine(key, Numbers([x, y]))
  {
    NumbersValue([x, y]);
  }

  lemma ZombieGood(x: int, y: int, d: string)
    requires GoodDirection(d)
    ensures GoodLine("Zombie", Join([Show(x), Show(y), d], ", "))
  {
    ZombieValue(x, y, d);
  }

  lemma BlockGood(k: Kind, x: int, y: int, w: int, h: int)
    requires PlatformKind(ClassName(k)) == Some(k)
    ensures GoodLine(ClassName(k), Numbers([x, y, w, h]))
  {
    NumbersValue([x, y, w, h]);
    PlatformNameShape(ClassName(k));
  }

  /** An entry's option and values make a well-formed line. */
  lemma EntryGood(b: Block, p: Placed)
    requires Fits(b, p)
    ensures GoodLine(EntryKey(p), EntryValue(p))
  {
    match p
    case PlacedPlant(x, y) => PairGood("Plant", x, y);
    case PlacedMagician(x, y) => PairGood("Magician", x, y);
    case PlacedZombie(x, y, d) => ZombieGood(x, y, d);
    case PlacedBlock(k, x, y, w, h) => BlockGood(k, x, y, w, h);
  }

  /** A line that is kept as it is and read as an option. */
  predicate Plain(l: string)
  {
    Strip(l) == l && !IsComment(l) && l != "]"
  }

  lemma EntryPlain(b: Block, p: Placed)
    requires Fits(b, p)
    ensures Plain(EntryLine(p))
  {
    EntryGood(b, p);
    LineStripped(EntryKey(p), EntryValue(p));
  }

  lemma EntryKeyValue(b: Block, p: Placed)
    requires Fits(b, p)
    ensures KeyValue(EntryLine(p)) == Some((EntryKey(p), EntryValue(p)))
  {
    EntryGood(b, p);
    LineSplit(EntryKey(p), EntryValue(p));
  }

  lemma PlantParsed(x: int, y: int)
    ensures EnemyEntry("Plant", Numbers([x, y])) == Ok(Some(PlacedPlant(x, y)))
  {
    TwoNumbers(x, y);
  }

  lemma MagicianParsed(x: int, y: int)
    ensures EnemyEntry("Magician", Numbers([x, y])) == Ok(Some(PlacedMagician(x, y)))
  {
    TwoNumbers(x, y);
  }

  lemma ZombieParsed(x: int, y: int, d: string)
    requires GoodDirection(d)
    ensures EnemyEntry("Zombie", Join([Show(x), Show(y), d], ", ")) == Ok(Some(PlacedZombie(x, y, d)))
  {
    ZombieSplit(x, y, d);
    ParseShow(x);
    ParseShow(y);
    StripFixed(d);
  }

  lemma BlockParsed(k: Kind, x: int, y: int, w: int, h: int)
    requires PlatformKind(ClassName(k)) == Some(k)
    ensures PlatformEntry(ClassName(k), Numbers([x, y, w, h])) == Ok(Some(PlacedBlock(k, x, y, w, h)))
  {
    FourNumbers(x, y, w, h);
  }

  /** An entry's values are read back as the actor they were written for. */
  lemma EntryParsed(b: Block, p: Placed)
    requires Fits(b, p)
    ensures Entry(b, EntryKey(p), EntryValue(p)) == Ok(Some(p))
  {
    match p
    case PlacedPlant(x, y) => PlantParsed(x, y);
    case PlacedMagician(x, y) => MagicianParsed(x, y);
    case PlacedZombie(x, y, d) => ZombieParsed(x, y, d);
    case PlacedBlock(k, x, y, w, h) => BlockParsed(k, x, y, w, h);
  }

  // -------------------------------------------------------------------------
  // Blocks

  /** One entry line of a block is read as its actor. */
  lemma EntryStep(b: Block, acc: seq<Placed>, p: Placed, rest: seq<string>)
    requires Fits(b, p)
    ensures BlockItems(b, acc, [EntryLine(p)] + rest) == BlockItems(b, acc + [p], rest)
  {
    var items := [EntryLine(p)] + rest;
    assert items[0] == EntryLine(p) && items[1..] == rest;
    assert !IsComment(EntryLine(p)) by {
      EntryPlain(b, p);
    }
    EntryKeyValue(b, p);
    EntryParsed(b, p);
  }

  lemma MovedFront(acc: seq<Placed>, ps: seq<Placed>)
    requires ps != []
    ensures acc + [ps[0]] + ps[1..] == acc + ps
  {
  }

  /** A block's entry lines are read back as its actors, in order. */
  lemma {:induction false} EntriesRead(b: Block, acc: seq<Placed>, ps: seq<Placed>)
    requires AllFit(b, ps)
    ensures BlockItems(b, acc, EntryLines(ps)) == Ok(acc + ps)
    decreases |ps|
  {
    if ps == [] {
      assert acc + ps == acc;
    } else {
      assert EntryLines(ps) == [EntryLine(ps[0])] + EntryLines(ps[1..]);
      EntryStep(b, acc, ps[0], EntryLines(ps[1..]));
      EntriesRead(b, acc + [ps[0]], ps[1..]);
      MovedFront(acc, ps);
    }
  }

  lemma EntriesOpen(b: Block, ps: seq<Placed>)
    requires AllFit(b, ps)
    ensures forall k :: 0 <= k < |ps| ==> EntryLines(ps)[k] != "]"
  {
    forall k | 0 <= k < |ps|
      ensures EntryLines(ps)[k] != "]"
    {
      EntryPlain(b, ps[k]);
    }
  }

  lemma BlockEndAfter(ls: seq<string>, rest: seq<string>)
    requires forall k :: 0 <= k < |ls| ==> ls[k] != "]"
    ensures BlockEnd(ls + ["]"] + rest) == Some(|ls|)
  {
    var ts := ls + ["]"] + rest;
    assert ts[|ls|] == "]";
    assert forall k :: 0 <= k < |ls| ==> ts[k] == ls[k];
  }

  lemma HeaderPlain(b: Block)
    ensures Plain(Line(BlockName(b), "["))
  {
    assert GoodLine(BlockName(b), "[");
    LineStripped(BlockName(b), "[");
  }

  lemma HeaderKeyValue(b: Block)
    ensures KeyValue(Line(BlockName(b), "[")) == Some((BlockName(b), "["))
  {
    assert GoodLine(BlockName(b), "[");
    LineSplit(BlockName(b), "[");
  }

  /** A line read as `key: value` hands the rest of the file to that
      option. */
  lemma LoadLine(c: Config, l: string, rest: seq<string>, key: string, value: string)
    requires !IsComment(l) && KeyValue(l) == Some((key, value))
    ensures Load(c, [l] + rest) == LoadOption(c, key, value, rest)
  {
    assert ([l] + rest)[0] == l && ([l] + rest)[1..] == rest;
  }

  /** The lines after a block's header: its entries are read up to the "]",
      and reading goes on after it. */
  lemma AroundClose<T>(ls: seq<T>, x: T, rest: seq<T>)
    ensures (ls + [x] + rest)[..|ls|] == ls && (ls + [x] + rest)[|ls| + 1..] == rest
  {
  }

  /** A block option whose lines up to the first "]" read as `ps`. */
  lemma BlockOption(c: Config, b: Block, open: string, ls: seq<string>, rest: seq<string>, ps: seq<Placed>)
    requires open == "["
    requires BlockEnd(ls + ["]"] + rest) == Some(|ls|)
    requires BlockItems(b, Placements(c, b), ls) == Ok(Placements(c, b) + ps)
    ensures LoadOption(c, BlockName(b), open, ls + ["]"] + rest)
            == Load(WithPlacements(c, b, Placements(c, b) + ps), rest)
  {
    AroundClose(ls, "]", rest);
    var name := BlockName(b);
    assert |name| == 7 || |name| == 9;
    assert (if name == "Enemies" then Enemies else Platforms) == b;
  }

  lemma BlockBody(c: Config, b: Block, ps: seq<Placed>, rest: seq<string>)
    requires AllFit(b, ps)
    ensures LoadOption(c, BlockName(b), "[", EntryLines(ps) + ["]"] + rest)
            == Load(WithPlacements(c, b, Placements(c, b) + ps), rest)
  {
    var ls := EntryLines(ps);
    EntriesOpen(b, ps);
    BlockEndAfter(ls, rest);
    EntriesRead(b, Placements(c, b), ps);
    BlockOption(c, b, "[", ls, rest, ps);
  }

  /** A whole block, header to "]", appends its actors, and reading goes on
      after it. */
  lemma BlockRead(c: Config, b: Block, ps: seq<Placed>, rest: seq<string>)
    requires AllFit(b, ps)
    ensures Load(c, BlockText(b, ps) + rest) == Load(WithPlacements(c, b, Placements(c, b) + ps), rest)
  {
    var h := Line(BlockName(b), "[");
    var after := EntryLines(ps) + ["]"] + rest;
    assert BlockText(b, ps) + rest == [h] + after;
    assert !IsComment(h) by {
      HeaderPlain(b);
    }
    HeaderKeyValue(b);
    LoadLine(c, h, after, BlockName(b), "[");
    BlockBody(c, b, ps, rest);
  }

  // -------------------------------------------------------------------------
  // Settings lines

  /** The two settings' names can start a line. */
  lemma SettingKey(key: string)
    requires key == "Hero_Start_Pos" || key == "Size"
    ensures key != [] && !IsSpace(key[0]) && key[0] != '#' && NoColon(key)
  {
  }

  lemma NumbersLine(key: string, ns: seq<int>)
    requires key == "Hero_Start_Pos" || key == "Size"
    requires ns != []
    ensures GoodLine(key, Numbers(ns))
  {
    SettingKey(key);
    NumbersValue(ns);
  }

  lemma SettingRead(c: Config, key: string, v: Option<seq<int>>, rest: seq<string>)
    requires key == "Hero_Start_Pos" || key == "Size"
    requires v.Some? ==> v.value != []
    ensures key == "Size" ==> Load(c, Setting(key, v) + rest) == Load(if v.Some? then c.(size := v) else c, rest)
    ensures key == "Hero_Start_Pos" ==>
      Load(c, Setting(key, v) + rest) == Load(if v.Some? then c.(heroStart := v) else c, rest)
  {
    if v.Some? {
      var l := Line(key, Numbers(v.value));
      assert Setting(key, v) + rest == [l] + rest;
      NumbersLine(key, v.value);
      assert !IsComment(l) by {
        LineStripped(key, Numbers(v.value));
      }
      LineSplit(key, Numbers(v.value));
      LoadLine(c, l, rest, key, Numbers(v.value));
      NumbersSplit(v.value);
      ShowsParse(v.value);
    } else {
      assert Setting(key, v) + rest == rest;
    }
  }

  lemma LivesGood(n: int)
    ensures GoodLine("Lives", Show(n))
  {
    ShowFree(n);
  }

  lemma LivesRead(c: Config, n: int, rest: seq<string>)
    ensures Load(c, [Line("Lives", Show(n))] + rest) == Load(c.(lives := n), rest)
  {
    LivesGood(n);
    assert !IsComment(Line("Lives", Show(n))) by {
      LineStripped("Lives", Show(n));
    }
    LineSplit("Lives", Show(n));
    LoadLine(c, Line("Lives", Show(n)), rest, "Lives", Show(n));
    ParseShow(n);
  }

  // -------------------------------------------------------------------------
  // Stripping a written file changes nothing

  predicate Stripped(ls: seq<string>)
  {
    StripAll(ls) == ls
  }

  lemma AppendLast<T>(a: seq<T>, b: seq<T>)
    requires b != []
    ensures (a + b)[..|a + b| - 1] == a + b[..|b| - 1] && (a + b)[|a + b| - 1] == b[|b| - 1]
  {
  }

  lemma {:induction false} StripAllAppend(a: seq<string>, b: seq<string>)
    ensures StripAll(a + b) == StripAll(a) + StripAll(b)
    decreases |b|
  {
    if b == [] {
      assert a + b == a;
    } else {
      var b0 := b[..|b| - 1];
      StripAllAppend(a, b0);
      AppendLast(a, b);
      var t := [Strip(b[|b| - 1])];
      calc {
        StripAll(a + b);
        StripAll(a + b0) + t;
        StripAll(a) + StripAll(b0) + t;
        StripAll(a) + (StripAll(b0) + t);
        StripAll(a) + StripAll(b);
      }
    }
  }

  lemma StrippedAppend(a: seq<string>, b: seq<string>)
    requires Stripped(a) && Stripped(b)
    ensures Stripped(a + b)
  {
    StripAllAppend(a, b);
  }

  lemma StrippedLine(l: string)
    requires Strip(l) == l
    ensures Stripped([l])
  {
    assert [l][..0] == [];
  }

  lemma {:induction false} EntriesStripped(b: Block, ps: seq<Placed>)
    requires AllFit(b, ps)
    ensures Stripped(EntryLines(ps))
    decreases |ps|
  {
    if ps != [] {
      assert EntryLines(ps) == [EntryLine(ps[0])] + EntryLines(ps[1..]);
      assert Stripped([EntryLine(ps[0])]) by {
        EntryPlain(b, ps[0]);
        StrippedLine(EntryLine(ps[0]));
      }
      EntriesStripped(b, ps[1..]);
      StrippedAppend([EntryLine(ps[0])], EntryLines(ps[1..]));
    }
  }

  lemma BlockStripped(b: Block, ps: seq<Placed>)
    requires AllFit(b, ps)
    ensures Stripped(BlockText(b, ps))
  {
    var h := [Line(BlockName(b), "[")];
    assert Stripped(h) by {
      HeaderPlain(b);
      StrippedLine(Line(BlockName(b), "["));
    }
    assert Stripped(["]"]) by {
      StripFixed("]");
      StrippedLine("]");
    }
    EntriesStripped(b, ps);
    StrippedAppend(h, EntryLines(ps));
    StrippedAppend(h + EntryLines(ps), ["]"]);
  }

  lemma SettingStripped(key: string, v: Option<seq<int>>)
    requires key == "Hero_Start_Pos" || key == "Size"
    requires v.Some? ==> v.value != []
    ensures Stripped(Setting(key, v))
  {
    if v.Some? {
      NumbersLine(key, v.value);
      LineStripped(key, Numbers(v.value));
      StrippedLine(Line(key, Numbers(v.value)));
    } else {
      assert StripAll([]) == [];
    }
  }

  lemma LivesStripped(n: int)
    ensures Stripped([Line("Lives", Show(n))])
  {
    LivesGood(n);
    LineStripped("Lives", Show(n));
    StrippedLine(Line("Lives", Show(n)));
  }

  lemma RenderStripped(c: Config)
    requires Writable(c)
    ensures StripAll(Render(c)) == Render(c)
  {
    var s1 := Setting("Hero_Start_Pos", c.heroStart);
    var s2 := Setting("Size", c.size);
    var lv := [Line("Lives", Show(c.lives))];
    var b1 := BlockText(Enemies, c.enemies);
    var b2 := BlockText(Platforms, c.platforms);
    SettingStripped("Hero_Start_Pos", c.heroStart);
    SettingStripped("Size", c.size);
    LivesStripped(c.lives);
    BlockStripped(Enemies, c.enemies);
    BlockStripped(Platforms, c.platforms);
    StrippedAppend(b1, b2);
    StrippedAppend(lv, b1 + b2);
    StrippedAppend(s2, lv + (b1 + b2));
    StrippedAppend(s1, s2 + (lv + (b1 + b2)));
  }

  // -------------------------------------------------------------------------
  // The round trip

  /** What a setting is after the file: the file's value when it has one,
      the constructor's argument otherwise. */
  function Override<T>(file: Option<T>, arg: Option<T>): Option<T>
  {
    if file.Some? then file else arg
  }

  /** The three settings lines at the head of a written file, read on top of
      the constructor's arguments: what the file sets wins, what it leaves
      out keeps the argument. */
  lemma SettingsRead(c: Config, size: Option<seq<int>>, start: Option<seq<int>>, rest: seq<string>)
    requires Writable(c)
    ensures Load(Defaults(size, start),
                 Setting("Hero_Start_Pos", c.heroStart) + (Setting("Size", c.size) + ([Line("Lives", Show(c.lives))] + rest)))
            == Load(Config(Override(c.heroStart, start), Override(c.size, size), c.lives, [], []), rest)
  {
    var s2 := Setting("Size", c.size);
    var lv := [Line("Lives", Show(c.lives))];
    var c0 := Defaults(size, start);
    var c1 := c0.(heroStart := Override(c.heroStart, start));
    var c2 := c1.(size := Override(c.size, size));
    SettingRead(c0, "Hero_Start_Pos", c.heroStart, s2 + (lv + rest));
    SettingRead(c1, "Size", c.size, lv + rest);
    LivesRead(c2, c.lives, rest);
  }

  /** The two blocks at the end of a written file. */
  lemma BlocksRead(c: Config)
    requires AllFit(Enemies, c.enemies) && AllFit(Platforms, c.platforms)
    ensures Load(Config(c.heroStart, c.size, c.lives, [], []),
                 BlockText(Enemies, c.enemies) + BlockText(Platforms, c.platforms)) == Ok(c)
  {
    var c3 := Config(c.heroStart, c.size, c.lives, [], []);
    var c4 := c3.(enemies := c.enemies);
    var b2 := BlockText(Platforms, c.platforms);
    BlockRead(c3, Enemies, c.enemies, b2);
    assert Placements(c3, Enemies) + c.enemies == c.enemies;
    assert WithPlacements(c3, Enemies, c.enemies) == c4;
    BlockRead(c4, Platforms, c.platforms, []);
    assert Placements(c4, Platforms) + c.platforms == c.platforms;
    assert WithPlacements(c4, Platforms, c.platforms) == c;
    assert b2 + [] == b2;
  }

  /** The loader reads any level file written in its format back to the
      settings it was written from, on top of whatever size and start the
      constructor was given: the file's settings override the arguments, and
      an argument the file does not set survives. */
  lemma LoadRenderOver(c: Config, size: Option<seq<int>>, start: Option<seq<int>>)
    requires Writable(c)
    ensures LoadFile(Defaults(size, start), Render(c))
            == Ok(c.(heroStart := Override(c.heroStart, start), size := Override(c.size, size)))
  {
    RenderStripped(c);
    var blocks := BlockText(Enemies, c.enemies) + BlockText(Platforms, c.platforms);
    SettingsRead(c, size, start, blocks);
    var c' := c.(heroStart := Override(c.heroStart, start), size := Override(c.size, size));
    BlocksRead(c');
  }

  /** In particular, with no arguments the loader gives back exactly the
      settings the file was written from. */
  lemma LoadRender(c: Config)
    requires Writable(c)
    ensures LoadFile(Defaults(None, None), Render(c)) == Ok(c)
  {
    LoadRenderOver(c, None, None);
    assert c.(heroStart := Override(c.heroStart, None), size := Override(c.size, None)) == c;
  }

  // -------------------------------------------------------------------------
  // Blank lines and comments

  /** The stripped lines without the blank and comment lines. */
  function Decomment(ts: seq<string>): seq<string>
    decreases |ts|
  {
    if ts == [] then [] else (if IsComment(ts[0]) then [] else [ts[0]]) + Decomment(ts[1..])
  }

  lemma {:induction false} DecommentAppend(a: seq<string>, b: seq<string>)
    ensures Decomment(a + b) == Decomment(a) + Decomment(b)
    decreases |a|
  {
    if a == [] {
      assert a + b == b;
    } else {
      assert (a + b)[0] == a[0] && (a + b)[1..] == a[1..] + b;
      DecommentAppend(a[1..], b);
    }
  }

  /** Taking the comments out keeps only lines of the input, none of them a
      comment. */
  lemma {:induction false} DecommentLines(ts: seq<string>)
    ensures forall x :: x in Decomment(ts) ==> x in ts && !IsComment(x)
    decreases |ts|
  {
    if ts != [] {
      DecommentLines(ts[1..]);
    }
  }

  /** Inside a block, blank and comment lines change nothing. */
  lemma {:induction false} BlockItemsDecomment(b: Block, acc: seq<Placed>, items: seq<string>)
    ensures BlockItems(b, acc, items) == BlockItems(b, acc, Decomment(items))
    decreases |items|
  {
    if items != [] {
      var d := Decomment(items);
      if IsComment(items[0]) {
        assert d == Decomment(items[1..]);
        BlockItemsDecomment(b, acc, items[1..]);
      } else {
        assert d == [items[0]] + Decomment(items[1..]);
        assert d[0] == items[0] && d[1..] == Decomment(items[1..]);
        match KeyValue(items[0])
        case None =>
        case Some(kv) =>
          match Entry(b, kv.0, kv.1)
          case Err(e) =>
          case Ok(p) => BlockItemsDecomment(b, acc + Listed(p), items[1..]);
      }
    }
  }

  /** At the top level, blank and comment lines change nothing either, wherever
      they stand: before, between or inside the blocks. */
  lemma {:induction false} LoadDecomment(c: Config, ts: seq<string>)
    ensures Load(c, ts) == Load(c, Decomment(ts))
    decreases |ts|, 0
  {
    if ts != [] {
      var d := Decomment(ts);
      if IsComment(ts[0]) {
        assert d == Decomment(ts[1..]);
        LoadDecomment(c, ts[1..]);
      } else {
        assert d == [ts[0]] + Decomment(ts[1..]);
        assert d[0] == ts[0] && d[1..] == Decomment(ts[1..]);
        match KeyValue(ts[0])
        case None =>
        case Some(kv) => OptionDecomment(c, kv.0, kv.1, ts[1..]);
      }
    }
  }

  lemma {:induction false} OptionDecomment(c: Config, option: string, value: string, rest: seq<string>)
    ensures LoadOption(c, option, value, rest) == LoadOption(c, option, value, Decomment(rest))
    decreases |rest|, 1
  {
    var d := Decomment(rest);
    if option == "Hero_Start_Pos" || option == "Size" {
      match ParseInts(Split(value, ", "))
      case None =>
      case Some(ns) =>
        LoadDecomment(if option == "Size" then c.(size := Some(ns)) else c.(heroStart := Some(ns)), rest);
    } else if option == "Lives" {
      match ParseInt(value)
      case None =>
      case Some(n) => LoadDecomment(c.(lives := n), rest);
    } else if option == "Enemies" || option == "Platforms" {
      if value == "[" {
        BlockDecomment(c, option, rest);
      }
    } else {
      LoadDecomment(c, rest);
    }
  }

  /** Without the comments, a block's closing line is still found, after the
      block's own lines without their comments. */
  lemma CloseDecomment(rest: seq<string>)
    ensures BlockEnd(rest).None? ==> BlockEnd(Decomment(rest)).None?
    ensures BlockEnd(rest).Some? ==>
      var j := BlockEnd(rest).value; var dh := Decomment(rest[..j]); var d := Decomment(rest);
      BlockEnd(d) == Some(|dh|) && d[..|dh|] == dh && d[|dh| + 1..] == Decomment(rest[j + 1..])
  {
    var d := Decomment(rest);
    DecommentLines(rest);
    match BlockEnd(rest)
    case None =>
      assert forall x :: x in d ==> x != "]";
    case Some(j) =>
      var head, tail := rest[..j], rest[j + 1..];
      assert rest == head + ["]"] + tail;
      var dh, dt := Decomment(head), Decomment(tail);
      DecommentAppend(head + ["]"], tail);
      DecommentAppend(head, ["]"]);
      assert Decomment(["]"]) == ["]"] by {
        assert !IsComment("]");
        assert ["]"][1..] == [];
      }
      assert d == dh + ["]"] + dt;
      DecommentLines(head);
      assert forall k :: 0 <= k < |dh| ==> dh[k] != "]" by {
        forall k | 0 <= k < |dh|
          ensures dh[k] != "]"
        {
          assert dh[k] in dh;
        }
      }
      BlockEndAfter(dh, dt);
      AroundClose(dh, "]", dt);
  }

  /** A block reads the same with or without its blank and comment lines, and
      so does everything after it. */
  lemma {:induction false} BlockDecomment(c: Config, option: string, rest: seq<string>)
    requires option == "Enemies" || option == "Platforms"
    ensures LoadOption(c, option, "[", rest) == LoadOption(c, option, "[", Decomment(rest))
    decreases |rest|, 0
  {
    CloseDecomment(rest);
    if BlockEnd(rest).Some? {
      var j := BlockEnd(rest).value;
      var b := if option == "Enemies" then Enemies else Platforms;
      BlockItemsDecomment(b, Placements(c, b), rest[..j]);
      match BlockItems(b, Placements(c, b), rest[..j])
      case Err(e) =>
      case Ok(ps) => LoadDecomment(WithPlacements(c, b, ps), rest[j + 1..]);
    }
  }

  /** A written level survives any blank and comment lines added to it, and
      any white space around its lines: a file whose stripped lines, without
      the blank and comment ones, are the written level reads back as that
      level. */
  lemma CommentedRender(c: Config, size: Option<seq<int>>, start: Option<seq<int>>, lines: seq<string>)
    requires Writable(c) && Decomment(StripAll(lines)) == Render(c)
    ensures LoadFile(Defaults(size, start), lines)
            == Ok(c.(heroStart := Override(c.heroStart, start), size := Override(c.size, size)))
  {
    LoadDecomment(Defaults(size, start), StripAll(lines));
    RenderStripped(c);
    LoadRenderOver(c, size, start);
  }

  // -------------------------------------------------------------------------
  // What the loader skips and what it rejects

  /** A blank or comment line is skipped, at the top level and in a block. */
  lemma CommentSkipped(c: Config, b: Block, acc: seq<Placed>, t: string, rest: seq<string>)
    requires IsComment(t)
    ensures Load(c, [t] + rest) == Load(c, rest)
    ensures BlockItems(b, acc, [t] + rest) == BlockItems(b, acc, rest)
  {
    assert ([t] + rest)[0] == t && ([t] + rest)[1..] == rest;
  }

  /** Any other line without exactly one ": " stops the loader, at the top
      level and in a block. */
  lemma NotKeyValueLine(c: Config, b: Block, acc: seq<Placed>, t: string, rest: seq<string>)
    requires !IsComment(t) && |Split(t, ": ")| != 2
    ensures Load(c, [t] + rest) == Err(NotKeyValue)
    ensures BlockItems(b, acc, [t] + rest) == Err(NotKeyValue)
  {
    assert ([t] + rest)[0] == t;
  }

  /** An `Enemies` or `Platforms` option must open its block with "[". */
  lemma BlockNotOpened(c: Config, option: string, value: string, rest: seq<string>)
    requires option == "Enemies" || option == "Platforms"
    requires value != "["
    ensures LoadOption(c, option, value, rest) == Err(NotWellFormed)
  {
  }

  /** A block that no "]" line closes is an error. */
  lemma BlockNotClosed(c: Config, option: string, rest: seq<string>)
    requires option == "Enemies" || option == "Platforms"
    requires forall k :: 0 <= k < |rest| ==> rest[k] != "]"
    ensures LoadOption(c, option, "[", rest) == Err(Unterminated)
  {
  }

  /** An option the loader does not know is ignored. */
  lemma UnknownOption(c: Config, option: string, value: string, rest: seq<string>)
    requires option !in {"Hero_Start_Pos", "Size", "Lives", "Enemies", "Platforms"}
    ensures LoadOption(c, option, value, rest) == Load(c, rest)
  {
  }

  /** Constructing a game from a written level, with or without arguments:
      it succeeds exactly when the level, or else the arguments, give a size
      and a start, and the start is a pair; the settings are then the
      level's, completed by the arguments. */
  lemma SetupFromRender(c: Config, size: Option<seq<int>>, start: Option<seq<int>>)
    requires Writable(c)
    ensures var hs := Override(c.heroStart, start); var sz := Override(c.size, size);
      && (Setup(size, start, Some(Render(c))).Ok? <==> sz.Some? && hs.Some? && |hs.value| == 2)
      && (Setup(size, start, Some(Render(c))).Ok? ==>
            Setup(size, start, Some(Render(c))).value == c.(heroStart := hs, size := sz))
      && (sz.None? ==> Setup(size, start, Some(Render(c))) == Err(NoSize))
  {
    LoadRenderOver(c, size, start);
  }
}
