/** The camera of src/framework/gui.py: a `View` that either follows the
    actor attached to it or is moved with the keys I, J, K and L, and is then
    pushed back inside the arena; and the position, size and centre of a
    `GuiElement`. */
module Gui {
  import opened Arena
  import opened Utilities

  /** Pixels the view moves per frame when driven by the keys. */
  const ViewSpeed: real := 2.0

  /** The shift the movement keys ask for. Of each pair the key checked last
      in `move` wins: K over I, L over J. Without keys there is no shift. */
  function KeyShift(keys: Option<set<string>>, speed: real): Point
  {
    if keys.None? then Point(0.0, 0.0)
    else
      var ks := keys.value;
      Point(if "l" in ks then speed else if "j" in ks then -speed else 0.0,
            if "k" in ks then speed else if "i" in ks then -speed else 0.0)
  }

  /** The bound `move` caps a coordinate at: `int(arena - view)`, truncated
      toward zero as Python does. */
  function Bound(arena: real, view: real): real
  {
    Trunc(arena - view) as real
  }

  /** Where `move` leaves a view at `pos` of size `size` in an arena of size
      `arena`. `follow` is the attached actor's position, `None` when no
      actor is attached; `keys` are the arena's current keys. */
  function ViewMove(pos: Point, size: Point, speed: real, follow: Option<Point>,
                    keys: Option<set<string>>, arena: Point): Point
  {
    var p := if follow.Some? then RemovePos(follow.value, Point(size.x / 2.0, size.y / 2.0))
             else var d := KeyShift(keys, speed); Point(pos.x + d.x, pos.y + d.y);
    Point(Clamp(p.x, 0.0, Bound(arena.x, size.x)), Clamp(p.y, 0.0, Bound(arena.y, size.y)))
  }

  // -------------------------------------------------------------------------
  // What `move` promises

  /** When the arena is at least as large as the view, the view ends up
      inside it: between 0 and the arena size minus the view size. */
  lemma ViewInside(pos: Point, size: Point, speed: real, follow: Option<Point>,
                   keys: Option<set<string>>, arena: Point)
    requires arena.x >= size.x && arena.y >= size.y
    ensures var r := ViewMove(pos, size, speed, follow, keys, arena);
      0.0 <= r.x <= arena.x - size.x && 0.0 <= r.y <= arena.y - size.y
  {
  }

  /** In an arena narrower than the view, the cap wins over the floor: the
      coordinate is `int(arena - view)`, which is zero or negative. */
  lemma SmallArena(pos: Point, size: Point, speed: real, follow: Option<Point>,
                   keys: Option<set<string>>, arena: Point)
    requires arena.x < size.x
    ensures var r := ViewMove(pos, size, speed, follow, keys, arena);
      r.x == Bound(arena.x, size.x) && r.x <= 0.0 && r.x > arena.x - size.x - 1.0
  {
  }

  /** A view with an actor attached is centred on it, unless that would
      take it out of the arena; the keys are then ignored. */
  lemma FollowCentres(pos: Point, size: Point, speed: real, at: Point,
                      keys: Option<set<string>>, arena: Point)
    requires 0.0 <= at.x - size.x / 2.0 <= Bound(arena.x, size.x)
    requires 0.0 <= at.y - size.y / 2.0 <= Bound(arena.y, size.y)
    ensures Center(ViewMove(pos, size, speed, Some(at), keys, arena), size) == at
  {
  }

  /** The attached actor alone decides where the view goes: neither the old
      position nor the keys matter. */
  lemma FollowIgnoresKeys(pos: Point, pos': Point, size: Point, speed: real, at: Point,
                          keys: Option<set<string>>, keys': Option<set<string>>, arena: Point)
    ensures ViewMove(pos, size, speed, Some(at), keys, arena)
         == ViewMove(pos', size, speed, Some(at), keys', arena)
  {
  }

  /** Without an actor, K moves the view down and I up, L right and J left,
      by `speed` each, as long as it stays in the arena; of each pair, K and
      L win. */
  lemma KeysMove(pos: Point, size: Point, speed: real, ks: set<string>, arena: Point)
    requires var d := KeyShift(Some(ks), speed);
      0.0 <= pos.x + d.x <= Bound(arena.x, size.x) && 0.0 <= pos.y + d.y <= Bound(arena.y, size.y)
    ensures var r := ViewMove(pos, size, speed, None, Some(ks), arena);
      ("k" in ks ==> r.y == pos.y + speed)
      && (!("k" in ks) && "i" in ks ==> r.y == pos.y - speed)
      && (!("k" in ks) && !("i" in ks) ==> r.y == pos.y)
      && ("l" in ks ==> r.x == pos.x + speed)
      && (!("l" in ks) && "j" in ks ==> r.x == pos.x - speed)
      && (!("l" in ks) && !("j" in ks) ==> r.x == pos.x)
  {
  }

  /** Without an actor and without keys, a view inside the arena stays
      where it is. */
  lemma NoKeysNoMove(pos: Point, size: Point, speed: real, arena: Point)
    requires 0.0 <= pos.x <= Bound(arena.x, size.x) && 0.0 <= pos.y <= Bound(arena.y, size.y)
    ensures ViewMove(pos, size, speed, None, None, arena) == pos
  {
  }

  /** A second `move` without actor and keys changes nothing: the clamp has
      already put the view where it stays, even in an arena smaller than
      the view. */
  lemma MoveSettles(pos: Point, size: Point, speed: real, follow: Option<Point>,
                    keys: Option<set<string>>, arena: Point)
    ensures var r := ViewMove(pos, size, speed, follow, keys, arena);
      ViewMove(r, size, speed, None, None, arena) == r
  {
  }

  // -------------------------------------------------------------------------
  // The objects the source updates in place

  /** `View`; the attached actor is any value of type `A`. */
  class View<A> {
    var x: real
    var y: real
    var w: real
    var h: real
    var speed: real
    var actor: Option<A>

    constructor (pos: Point, size: Point, actor: Option<A>)
      ensures Pos() == pos && Size() == size && speed == ViewSpeed && GetActor() == actor
    {
      x, y := pos.x, pos.y;
      w, h := size.x, size.y;
      speed := ViewSpeed;
      this.actor := actor;
    }

    function Pos(): Point
      reads this
    {
      Point(x, y)
    }

    function Size(): Point
      reads this
    {
      Point(w, h)
    }

    /** `move`. `at` is the position of the attached actor, read only when
        an actor is attached; `keys` and `arena` are the arena's current keys
        and size. */
    method Move(at: Point, keys: Option<set<string>>, arena: Point)
      modifies this
      ensures Pos() == ViewMove(old(Pos()), Size(), speed, if actor.Some? then Some(at) else None, keys, arena)
      ensures w == old(w) && h == old(h) && speed == old(speed) && actor == old(actor)
    {
      if actor.Some? {
        var p := RemovePos(at, Point(w / 2.0, h / 2.0));
        x, y := p.x, p.y;
      } else if keys.Some? {
        var dx, dy := 0.0, 0.0;
        if "i" in keys.value {
          dy := -speed;
        }
        if "k" in keys.value {
          dy := speed;
        }
        if "j" in keys.value {
          dx := -speed;
        }
        if "l" in keys.value {
          dx := speed;
        }
        x := x + dx;
        y := y + dy;
      }
      x := Max(x, 0.0);
      y := Max(y, 0.0);
      x := Min(x, Bound(arena.x, w));
      y := Min(y, Bound(arena.y, h));
    }

    function GetActor(): Option<A>
      reads this
    {
      actor
    }

    /** `set_actor`: `get_actor` returns it from now on. */
    method SetActor(a: Option<A>)
      modifies this
      ensures GetActor() == a
      ensures Pos() == old(Pos()) && Size() == old(Size()) && speed == old(speed)
    {
      actor := a;
    }
  }

  /** `GuiElement`, without its drawing. */
  class GuiElement {
    var x: real
    var y: real
    var w: real
    var h: real

    constructor (pos: Point, size: Point)
      ensures GetPos() == pos && GetSize() == size
    {
      x, y := pos.x, pos.y;
      w, h := size.x, size.y;
    }

    function GetPos(): Point
      reads this
    {
      Point(x, y)
    }

    function GetSize(): Point
      reads this
    {
      Point(w, h)
    }

    /** `get_center`: the centre `center` computes for the element's box,
        inside the box when its size is not negative. */
    function GetCenter(): (c: Point)
      reads this
      ensures c == Center(GetPos(), GetSize())
      ensures w >= 0.0 && h >= 0.0 ==> x <= c.x <= x + w && y <= c.y <= y + h
    {
      Point(x + w / 2.0, y + h / 2.0)
    }
  }
}
