/**
 * The scene graph of src/lib/engine/Container.ts: a container holds drawables in insertion
 * order and draws each of them at its own world position, the parent position plus the
 * container's offset.
 */
module Containers {
  import opened Sprites
  import opened Canvas
  import opened Cameras
  import opened Lines
  import opened RoomObjects

  /**
   * Anything a container can hold: a nested container (as a value: its offset and children),
   * a placed sprite, or a line.
   */
  datatype Drawable =
    | Group(x: int, y: int, children: seq<Drawable>)
    | Object(obj: RoomObject)
    | Segment(line: Line)

  /** The sprites reachable from a drawable, which drawing it reads. */
  function SpritesOf(d: Drawable): set<Sprite>
    decreases d
  {
    match d
    case Group(_, _, cs) => SpritesOfAll(cs)
    case Object(o) => SpriteSet(o)
    case Segment(_) => {}
  }

  function SpritesOfAll(cs: seq<Drawable>): set<Sprite>
    decreases cs
  {
    if cs == [] then {} else SpritesOf(cs[0]) + SpritesOfAll(cs[1..])
  }

  /** The sprites of the drawables held directly, which updateGlobalScale rescales. */
  function DirectSprites(cs: seq<Drawable>): set<Sprite> {
    set k | 0 <= k < |cs| && cs[k].Object? && cs[k].obj.sprite.Some? :: cs[k].obj.sprite.value
  }

  /**
   * What drawing a drawable issues when its parent sits at world position (px, py): a group
   * draws its children at its own world position, an object ignores the parent position, a
   * line is drawn relative to it.
   */
  function Render(d: Drawable, cam: Camera, px: int, py: int): seq<Cmd>
    reads cam, SpritesOf(d)
    decreases d
  {
    match d
    case Group(x, y, cs) => RenderAll(cs, cam, px + x, py + y)
    case Object(o) => DrawObject(o, cam)
    case Segment(l) => LineCommands(l, cam, px, py)
  }

  /** The children drawn one after the other, each at the same parent position. */
  function RenderAll(cs: seq<Drawable>, cam: Camera, px: int, py: int): seq<Cmd>
    reads cam, SpritesOfAll(cs)
    decreases cs
  {
    if cs == [] then [] else Render(cs[0], cam, px, py) + RenderAll(cs[1..], cam, px, py)
  }

  lemma {:induction false} SpritesAllAppend(cs: seq<Drawable>, d: Drawable)
    ensures SpritesOfAll(cs + [d]) == SpritesOfAll(cs) + SpritesOf(d)
  {
    if cs != [] {
      assert (cs + [d])[1..] == cs[1..] + [d];
      SpritesAllAppend(cs[1..], d);
    } else {
      assert [d][1..] == [];
    }
  }

  /** Adding a child at the end adds its commands after those of the earlier children. */
  lemma {:induction false} RenderAllAppend(cs: seq<Drawable>, d: Drawable, cam: Camera, px: int, py: int)
    ensures RenderAll(cs + [d], cam, px, py) == RenderAll(cs, cam, px, py) + Render(d, cam, px, py)
  {
    if cs == [] {
      assert [d][1..] == [];
    } else {
      assert (cs + [d])[1..] == cs[1..] + [d];
      RenderAllAppend(cs[1..], d, cam, px, py);
    }
  }

  /** The children drawn in two runs: a prefix, then the rest. */
  lemma {:induction false} RenderAllConcat(a: seq<Drawable>, b: seq<Drawable>, cam: Camera, px: int, py: int)
    ensures RenderAll(a + b, cam, px, py) == RenderAll(a, cam, px, py) + RenderAll(b, cam, px, py)
    decreases a
  {
    if a != [] {
      assert (a + b)[1..] == a[1..] + b;
      RenderAllConcat(a[1..], b, cam, px, py);
    } else {
      assert a + b == b;
    }
  }

  /**
   * Every child is drawn exactly once, at the same parent position and in insertion order:
   * the commands of child k come after those of the children before it and before those of
   * the children after it.
   */
  lemma RenderAllChild(cs: seq<Drawable>, k: nat, cam: Camera, px: int, py: int)
    requires k < |cs|
    ensures RenderAll(cs, cam, px, py)
         == RenderAll(cs[..k], cam, px, py) + Render(cs[k], cam, px, py) + RenderAll(cs[k + 1..], cam, px, py)
  {
    assert cs == cs[..k] + ([cs[k]] + cs[k + 1..]);
    RenderAllConcat(cs[..k], [cs[k]] + cs[k + 1..], cam, px, py);
    RenderAllConcat([cs[k]], cs[k + 1..], cam, px, py);
    assert RenderAll([cs[k]], cam, px, py) == Render(cs[k], cam, px, py) + RenderAll([], cam, px, py);
  }

  /** An object is drawn the same under any parent position. */
  lemma ObjectIgnoresParent(o: RoomObject, cam: Camera, px: int, py: int)
    ensures Render(Object(o), cam, px, py) == Render(Object(o), cam, 0, 0)
  {
  }

  /** Wraps d in nested groups with the given offsets, outermost first. */
  function Nest(offsets: seq<Point>, d: Drawable): Drawable {
    if offsets == [] then d else Group(offsets[0].x, offsets[0].y, [Nest(offsets[1..], d)])
  }

  function SumX(offsets: seq<Point>): int {
    if offsets == [] then 0 else offsets[0].x + SumX(offsets[1..])
  }

  function SumY(offsets: seq<Point>): int {
    if offsets == [] then 0 else offsets[0].y + SumY(offsets[1..])
  }

  lemma {:induction false} NestSprites(offsets: seq<Point>, d: Drawable)
    ensures SpritesOf(Nest(offsets, d)) == SpritesOf(d)
  {
    if offsets != [] {
      var inner := Nest(offsets[1..], d);
      NestSprites(offsets[1..], d);
      assert [inner][1..] == [];
      assert SpritesOfAll([inner]) == SpritesOf(inner) + SpritesOfAll([]);
    }
  }

  /**
   * A drawable inside nested groups is drawn at the parent position plus the sum of the
   * offsets of all groups around it.
   */
  lemma {:induction false} RenderNested(offsets: seq<Point>, d: Drawable, cam: Camera, px: int, py: int)
    ensures Render(Nest(offsets, d), cam, px, py) == Render(d, cam, px + SumX(offsets), py + SumY(offsets))
  {
    if offsets != [] {
      var o := offsets[0];
      var inner := Nest(offsets[1..], d);
      NestSprites(offsets[1..], d);
      RenderNested(offsets[1..], d, cam, px + o.x, py + o.y);
      assert [inner][1..] == [];
      assert RenderAll([inner], cam, px + o.x, py + o.y)
          == Render(inner, cam, px + o.x, py + o.y) + RenderAll([], cam, px + o.x, py + o.y);
    }
  }

  /**
   * Adding a container to another as a child: the parent then draws the added container's
   * children, after its earlier children, at the parent's world position plus the added
   * container's offset.
   */
  lemma AddContainerRender(cs: seq<Drawable>, c: Container, cam: Camera, px: int, py: int)
    ensures RenderAll(cs + [c.AsDrawable()], cam, px, py)
         == RenderAll(cs, cam, px, py) + RenderAll(c.children, cam, px + c.x, py + c.y)
  {
    RenderAllAppend(cs, c.AsDrawable(), cam, px, py);
  }

  /** The sprites a drawable refers to exist, so a call that allocates nothing keeps them. */
  lemma {:induction false} SpritesAllocated(d: Drawable)
    ensures forall s :: s in SpritesOf(d) ==> allocated(s)
    decreases d
  {
    if d.Group? {
      SpritesAllAllocated(d.children);
    }
  }

  lemma {:induction false} SpritesAllAllocated(cs: seq<Drawable>)
    ensures forall s :: s in SpritesOfAll(cs) ==> allocated(s)
    decreases cs
  {
    if cs != [] {
      SpritesAllocated(cs[0]);
      SpritesAllAllocated(cs[1..]);
    }
  }

  /** Container.ts's per-child dispatch: the drawable's own draw. */
  method DrawDrawable(d: Drawable, cam: Camera, px: int, py: int) returns (cmds: seq<Cmd>)
    ensures cmds == Render(d, cam, px, py)
    decreases d, 1
  {
    match d
    case Group(x, y, cs) =>
      cmds := DrawChildren(cs, cam, px + x, py + y);
    case Object(o) =>
      cmds := DrawObject(o, cam);
    case Segment(l) =>
      cmds := DrawLine(l, cam, px, py);
  }

  /** Container.ts's draw loop: every child in order, at the container's world position. */
  method DrawChildren(cs: seq<Drawable>, cam: Camera, wx: int, wy: int) returns (cmds: seq<Cmd>)
    ensures cmds == RenderAll(cs, cam, wx, wy)
    decreases cs, 0
  {
    cmds := [];
    for k := 0 to |cs|
      invariant cmds == RenderAll(cs[..k], cam, wx, wy)
    {
      SpritesAllAllocated(cs[..k]);
      var c := DrawDrawable(cs[k], cam, wx, wy);
      assert cs[..k + 1] == cs[..k] + [cs[k]];
      RenderAllAppend(cs[..k], cs[k], cam, wx, wy);
      cmds := cmds + c;
    }
    assert cs[..|cs|] == cs;
  }

  class Container {
    /** The offset from the parent's world position (the world position for a root). */
    const x: int
    const y: int
    var children: seq<Drawable>

    constructor (x: int := 0, y: int := 0)
      ensures this.x == x && this.y == y && children == []
    {
      this.x, this.y := x, y;
      children := [];
    }

    /** This container as a drawable value, for nesting inside another one. */
    function AsDrawable(): Drawable
      reads this
    {
      Group(x, y, children)
    }

    method Add(child: Drawable)
      modifies this
      ensures children == old(children) + [child]
    {
      children := children + [child];
    }

    /** Draws every child once, in insertion order, at (px + x, py + y); changes nothing. */
    method Draw(cam: Camera, px: int, py: int) returns (cmds: seq<Cmd>)
      ensures cmds == RenderAll(children, cam, px + x, py + y)
    {
      cmds := DrawChildren(children, cam, px + x, py + y);
    }

    /** Sets the scale of the sprite of every child held directly; nothing else changes. */
    method UpdateGlobalScale(g: int)
      modifies DirectSprites(children)
      ensures forall s :: s in DirectSprites(children) ==> s.scale == g
      ensures forall s :: s in DirectSprites(children) ==>
        s.width == old(s.width) && s.height == old(s.height) && s.isLoaded == old(s.isLoaded)
    {
      for k := 0 to |children|
        invariant forall i :: 0 <= i < k && children[i].Object? && children[i].obj.sprite.Some? ==>
          children[i].obj.sprite.value.scale == g
        invariant forall s :: s in DirectSprites(children) ==>
          s.width == old(s.width) && s.height == old(s.height) && s.isLoaded == old(s.isLoaded)
      {
        var child := children[k];
        if child.Object? && child.obj.sprite.Some? {
          child.obj.sprite.value.scale := g;
        }
      }
    }
  }
}
