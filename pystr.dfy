/** The string built-ins the level loader of src/framework/gnggame.py relies
    on: `str.strip()` with no argument, `str.split(sep)` and `int(str)` in
    base 10. Each is written from Python's documented behaviour and paired
    with the inverse it has: `Join` for `Split`, `Show` for `ParseInt`. */
module PyStrings {
  import opened Arena

  /** `str.isspace()` of one character: the ASCII controls 9 to 13 and 28 to
      31, the space, and the Unicode space separators and line breaks. */
  predicate IsSpace(c: char)
  {
    var n := c as int;
    n == 32 || 9 <= n <= 13 || 28 <= n <= 31 || n == 0x85 || n == 0xA0 || n == 0x1680
    || 0x2000 <= n <= 0x200A || n == 0x2028 || n == 0x2029 || n == 0x202F || n == 0x205F
    || n == 0x3000
  }

  /** Every character of `s` from `lo` up to `hi` is white space. */
  predicate SpacesIn(s: string, lo: int, hi: int)
  {
    forall k :: lo <= k < hi && 0 <= k < |s| ==> IsSpace(s[k])
  }

  /** Where `s.lstrip()` starts: the first index from `i` on that does not
      hold white space. */
  function Lead(s: string, i: nat): (j: nat)
    requires i <= |s|
    ensures i <= j <= |s| && SpacesIn(s, i, j) && (j < |s| ==> !IsSpace(s[j]))
    decreases |s| - i
  {
    if i < |s| && IsSpace(s[i]) then Lead(s, i + 1) else i
  }

  /** Where `s.rstrip()` ends, looking back from `hi` but not past `lo`. */
  function Trail(s: string, lo: nat, hi: nat): (j: nat)
    requires lo <= hi <= |s|
    ensures lo <= j <= hi && SpacesIn(s, j, hi) && (j > lo ==> !IsSpace(s[j - 1]))
    decreases hi
  {
    if hi > lo && IsSpace(s[hi - 1]) then Trail(s, lo, hi - 1) else hi
  }

  /** `s.strip()`: `s` is white space, then `r`, then white space, and `r`
      neither starts nor ends with white space. */
  function Strip(s: string): (r: string)
    ensures r != [] ==> !IsSpace(r[0]) && !IsSpace(r[|r| - 1])
  {
    var i := Lead(s, 0);
    s[i..Trail(s, i, |s|)]
  }

  /** What `strip` keeps: the characters from the first one that is not
      white space up to the last one that is not, and only white space
      around them. */
  lemma StripShape(s: string)
    ensures var i := Lead(s, 0); var j := Trail(s, i, |s|);
      Strip(s) == s[i..j] && SpacesIn(s, 0, i) && SpacesIn(s, j, |s|)
    ensures |Strip(s)| <= |s|
    ensures Strip(s) == [] <==> SpacesIn(s, 0, |s|)
  {
    var i := Lead(s, 0);
    var j := Trail(s, i, |s|);
    if Strip(s) == [] {
      assert i == j;
    }
  }

  /** A string that neither starts nor ends with white space is its own
      strip; in particular stripping twice is stripping once. */
  lemma StripFixed(s: string)
    requires s != [] ==> !IsSpace(s[0]) && !IsSpace(s[|s| - 1])
    ensures Strip(s) == s
  {
  }

  lemma StripIdempotent(s: string)
    ensures Strip(Strip(s)) == Strip(s)
  {
    StripFixed(Strip(s));
  }

  // -------------------------------------------------------------------------
  // str.split(sep)

  /** `sep` occurs in `s` starting at index `i`. */
  predicate OccursAt(s: string, sep: string, i: int)
  {
    0 <= i && i + |sep| <= |s| && s[i..i + |sep|] == sep
  }

  ghost predicate Occurs(s: string, sep: string)
  {
    exists i :: OccursAt(s, sep, i)
  }

  /** The first index at or after `from` where `sep` occurs in `s`. */
  function FindFrom(s: string, sep: string, from: nat): (r: Option<nat>)
    requires sep != []
    ensures r.Some? ==> from <= r.value && OccursAt(s, sep, r.value)
    ensures r.Some? ==> forall j :: from <= j < r.value ==> !OccursAt(s, sep, j)
    ensures r.None? ==> forall j :: from <= j ==> !OccursAt(s, sep, j)
    decreases |s| - from
  {
    if from + |sep| > |s| then None
    else if s[from..from + |sep|] == sep then Some(from)
    else FindFrom(s, sep, from + 1)
  }

  /** `sep.join(parts)`. */
  function Join(parts: seq<string>, sep: string): string
  {
    if parts == [] then ""
    else if |parts| == 1 then parts[0]
    else parts[0] + sep + Join(parts[1..], sep)
  }

  /** `s.split(sep)`: cut at each occurrence of `sep`, left to right, without
      overlaps. There is always at least one piece, no piece contains `sep`,
      and joining the pieces with `sep` gives back `s`. */
  function Split(s: string, sep: string): (r: seq<string>)
    requires sep != []
    ensures |r| >= 1
    ensures Join(r, sep) == s
    ensures forall k :: 0 <= k < |r| ==> !Occurs(r[k], sep)
    decreases |s|
  {
    match FindFrom(s, sep, 0)
    case None => [s]
    case Some(i) =>
      var head := s[..i];
      var rest := Split(s[i + |sep|..], sep);
      assert !Occurs(head, sep) by {
        forall j | OccursAt(head, sep, j)
          ensures false
        {
          assert s[j..j + |sep|] == head[j..j + |sep|];
          assert OccursAt(s, sep, j);
        }
      }
      assert s == head + sep + s[i + |sep|..] by {
        assert s[i..i + |sep|] == sep;
        assert s == s[..i] + s[i..i + |sep|] + s[i + |sep|..];
      }
      [head] + rest
  }

  /** A join holds a character only if a piece or the separator does. */
  lemma {:induction false} JoinFree(parts: seq<string>, sep: string, c: char)
    requires FreeOf(parts, c) && forall j :: 0 <= j < |sep| ==> sep[j] != c
    ensures forall j :: 0 <= j < |Join(parts, sep)| ==> Join(parts, sep)[j] != c
    decreases |parts|
  {
    if |parts| > 1 {
      var tail := parts[1..];
      assert FreeOf(tail, c) by {
        forall k, j | 0 <= k < |tail| && 0 <= j < |tail[k]|
          ensures tail[k][j] != c
        {
          assert tail[k] == parts[k + 1];
        }
      }
      JoinFree(tail, sep, c);
      assert forall j :: 0 <= j < |parts[0]| ==> parts[0][j] != c;
    } else if |parts| == 1 {
      assert forall j :: 0 <= j < |parts[0]| ==> parts[0][j] != c;
    }
  }

  /** A join ends as its last piece does. */
  lemma {:induction false} JoinLast(parts: seq<string>, sep: string)
    requires parts != [] && parts[|parts| - 1] != []
    ensures var s := Join(parts, sep); var p := parts[|parts| - 1];
      s != [] && s[|s| - 1] == p[|p| - 1]
    decreases |parts|
  {
    if |parts| > 1 {
      JoinLast(parts[1..], sep);
    }
  }

  /** No piece contains the character `c`. */
  predicate FreeOf(parts: seq<string>, c: char)
  {
    forall k, j :: 0 <= k < |parts| && 0 <= j < |parts[k]| ==> parts[k][j] != c
  }

  /** Splitting a join gives the pieces back, provided no piece contains the
      first character of the separator (so no occurrence of the separator
      can start inside a piece). */
  lemma {:induction false} SplitJoin(parts: seq<string>, sep: string)
    requires sep != [] && parts != []
    requires FreeOf(parts, sep[0])
    ensures Split(Join(parts, sep), sep) == parts
    decreases |parts|
  {
    var s := Join(parts, sep);
    FreeTail(parts, sep[0]);
    if |parts| == 1 {
      NoSeparator(s, sep, 0);
    } else {
      var p := parts[0];
      var t := Join(parts[1..], sep);
      assert s == p + sep + t;
      FirstSeparator(p, sep, t);
      assert s[..|p|] == p && s[|p| + |sep|..] == t;
      SplitJoin(parts[1..], sep);
    }
  }

  /** The pieces after the first are free of `c` too, and so is the first. */
  lemma FreeTail(parts: seq<string>, c: char)
    requires parts != [] && FreeOf(parts, c)
    ensures FreeOf(parts[1..], c)
    ensures forall j :: 0 <= j < |parts[0]| ==> parts[0][j] != c
  {
    var tail := parts[1..];
    forall k, j | 0 <= k < |tail| && 0 <= j < |tail[k]|
      ensures tail[k][j] != c
    {
      assert tail[k] == parts[k + 1];
    }
  }

  /** A separator cannot occur where its first character is missing. */
  lemma NoSeparator(s: string, sep: string, from: nat)
    requires sep != [] && forall j :: from <= j < |s| ==> s[j] != sep[0]
    ensures FindFrom(s, sep, from).None?
  {
    NotAt(s, sep, from);
  }

  lemma NotAt(s: string, sep: string, from: nat)
    requires sep != [] && forall j :: from <= j < |s| ==> s[j] != sep[0]
    ensures forall j :: from <= j ==> !OccursAt(s, sep, j)
  {
    forall j | from <= j
      ensures !OccursAt(s, sep, j)
    {
      if j + |sep| <= |s| {
        assert s[j..j + |sep|][0] == s[j];
      }
    }
  }

  /** In `p + sep + t`, with `p` free of the separator's first character,
      the separator is first found right after `p`. */
  lemma FirstSeparator(p: string, sep: string, t: string)
    requires sep != [] && forall j :: 0 <= j < |p| ==> p[j] != sep[0]
    ensures FindFrom(p + sep + t, sep, 0) == Some(|p|)
  {
    var s := p + sep + t;
    assert OccursAt(s, sep, |p|) by {
      assert s[|p|..|p| + |sep|] == sep;
    }
    forall j | 0 <= j < |p|
      ensures !OccursAt(s, sep, j)
    {
      assert s[j..j + |sep|][0] == s[j] == p[j];
    }
  }

  // -------------------------------------------------------------------------
  // int(str)

  predicate IsDigit(c: char) { '0' <= c <= '9' }

  /** The digits of a base-10 literal as `int()` takes them: ASCII digits,
      with single underscores allowed between two digits. */
  predicate DigitGroups(d: string)
  {
    d != [] && IsDigit(d[0]) && IsDigit(d[|d| - 1])
    && (forall k :: 0 <= k < |d| ==> IsDigit(d[k]) || d[k] == '_')
    && (forall k :: 0 <= k < |d| - 1 && d[k] == '_' ==> IsDigit(d[k + 1]))
  }

  /** The value of a digit string, underscores ignored. */
  function DigitsValue(d: string): (n: nat)
  {
    if d == [] then 0
    else if d[|d| - 1] == '_' then DigitsValue(d[..|d| - 1])
    else if IsDigit(d[|d| - 1]) then DigitsValue(d[..|d| - 1]) * 10 + (d[|d| - 1] as int - '0' as int)
    else DigitsValue(d[..|d| - 1]) * 10
  }

  /** `int(s)`: white space around the literal is ignored, then an optional
      sign, then digits; anything else is a `ValueError` (here `None`). */
  function ParseInt(s: string): (r: Option<int>)
    ensures r.Some? ==> Strip(s) != [] && (r.value < 0 ==> Strip(s)[0] == '-')
  {
    var t := Strip(s);
    if t != [] && (t[0] == '-' || t[0] == '+') then
      if DigitGroups(t[1..]) then
        var v: int := DigitsValue(t[1..]);
        Some(if t[0] == '-' then -v else v)
      else None
    else if DigitGroups(t) then Some(DigitsValue(t))
    else None
  }

  /** `int(v) for v in vs`, stopping at the first failing item. */
  function ParseInts(vs: seq<string>): (r: Option<seq<int>>)
    ensures r.Some? <==> forall k :: 0 <= k < |vs| ==> ParseInt(vs[k]).Some?
    ensures r.Some? ==> |r.value| == |vs| && forall k :: 0 <= k < |vs| ==> r.value[k] == ParseInt(vs[k]).value
    decreases |vs|
  {
    if vs == [] then Some([])
    else match ParseInt(vs[0])
      case None => None
      case Some(n) =>
        match ParseInts(vs[1..])
        case None => None
        case Some(ns) => Some([n] + ns)
  }

  /** `str(n)` for a natural number: its decimal digits, most significant
      first, without leading zeros. */
  function ShowNat(n: nat): (d: string)
    ensures d != [] && forall k :: 0 <= k < |d| ==> IsDigit(d[k])
  {
    var last := [('0' as int + n % 10) as char];
    if n < 10 then last else ShowNat(n / 10) + last
  }

  /** `str(n)`. */
  function Show(n: int): (d: string)
    ensures d != [] && (d[0] == '-' <==> n < 0) && IsDigit(d[|d| - 1])
    ensures IsDigit(d[0]) || d[0] == '-'
    ensures forall k :: 0 < k < |d| ==> IsDigit(d[k])
  {
    if n < 0 then "-" + ShowNat(-n) else ShowNat(n)
  }

  lemma {:induction false} ShowNatValue(n: nat)
    ensures DigitsValue(ShowNat(n)) == n
    decreases n
  {
    var d := ShowNat(n);
    if n >= 10 {
      ShowNatValue(n / 10);
      assert d[..|d| - 1] == ShowNat(n / 10);
    }
  }

  /** `int(str(n)) == n`: the parser reads back every number the game could
      have written. */
  lemma ParseShow(n: int)
    ensures ParseInt(Show(n)) == Some(n)
  {
    ShowStripped(n);
    if n < 0 {
      ParseNegative(Show(n), -n);
    } else {
      ParseDigits(Show(n), n);
    }
  }

  lemma ShowStripped(n: int)
    ensures Strip(Show(n)) == Show(n)
  {
    var d := Show(n);
    assert !IsSpace(d[0]) && !IsSpace(d[|d| - 1]);
    StripFixed(d);
  }

  /** A stripped `str(m)` of a natural number reads as `m`. */
  lemma ParseDigits(t: string, m: nat)
    requires Strip(t) == t && t == ShowNat(m)
    ensures ParseInt(t) == Some(m)
  {
    ShowNatGroups(m);
    ShowNatValue(m);
  }

  /** A stripped `-` followed by `str(m)` reads as `-m`. */
  lemma ParseNegative(t: string, m: nat)
    requires Strip(t) == t && t == "-" + ShowNat(m)
    ensures ParseInt(t) == Some(-(m as int))
  {
    assert t[1..] == ShowNat(m);
    ShowNatGroups(m);
    ShowNatValue(m);
  }

  /** `str(n)` of a natural number is a literal `int()` accepts. */
  lemma ShowNatGroups(n: nat)
    ensures DigitGroups(ShowNat(n))
  {
  }
}
