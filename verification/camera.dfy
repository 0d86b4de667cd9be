/**
 * The camera of src/lib/engine/Camera.svelte.ts: an integer world-to-screen transform with a
 * pixel-art magnification `globalScale` and the viewport size. World coordinates, zoom and
 * viewport sizes are integers here; `Math.floor` and `Math.round` of an integer are the integer.
 */
module Cameras {
  import opened Canvas

  /** The pixel-art magnification: a whole number that is never 0 or negative. */
  type Positive = n: int | n >= 1 witness 1

  /** Division by a positive integer, as `Math.floor(n / d)` computes it on the reals. */
  lemma FloorOfQuotient(n: int, d: int)
    requires d > 0
    ensures (n as real / d as real).Floor == n / d
  {
    var q, r := n / d, n % d;
    assert n == q * d + r;
    assert n as real / d as real == q as real + r as real / d as real;
    assert 0.0 <= r as real / d as real < 1.0;
  }

  class Camera {
    /** The world point the camera is centred on. */
    var x: int
    var y: int
    /** The camera's own zoom (1 by default). */
    var zoom: nat
    var globalScale: Positive
    var viewportWidth: int
    var viewportHeight: int

    constructor (viewportWidth: int, viewportHeight: int)
      ensures x == 0 && y == 0 && zoom == 1 && globalScale == 1
      ensures this.viewportWidth == viewportWidth && this.viewportHeight == viewportHeight
    {
      x, y, zoom, globalScale := 0, 0, 1, 1;
      this.viewportWidth := viewportWidth;
      this.viewportHeight := viewportHeight;
    }

    /**
     * One screen coordinate: translate by the camera position, zoom, magnify, then move the
     * origin to the middle of the viewport and floor.
     */
    function Project(world: int, focus: int, extent: int): int
      reads this
    {
      (world - focus) * zoom * globalScale + extent / 2
    }

    function WorldToScreen(wx: int, wy: int): Point
      reads this
    {
      Point(Project(wx, x, viewportWidth), Project(wy, y, viewportHeight))
    }

    /** A world magnitude in device pixels. */
    function Scale(v: int): int
      reads this
    {
      v * globalScale
    }

    /** A device-pixel magnitude in world units: the floor of the quotient. */
    function Normalize(v: int): (r: int)
      reads this
      ensures r * globalScale <= v < (r + 1) * globalScale
    {
      v / globalScale
    }

    method SetViewport(width: int, height: int)
      modifies this
      ensures viewportWidth == width && viewportHeight == height
      ensures x == old(x) && y == old(y) && zoom == old(zoom) && globalScale == old(globalScale)
    {
      viewportWidth := width;
      viewportHeight := height;
    }

    /** Pans the camera. */
    method Move(dx: int, dy: int)
      modifies this
      ensures x == old(x) + dx && y == old(y) + dy
      ensures zoom == old(zoom) && globalScale == old(globalScale)
      ensures viewportWidth == old(viewportWidth) && viewportHeight == old(viewportHeight)
    {
      x := x + dx;
      y := y + dy;
    }
  }

  /** The integer transform is exactly the floor of the source's real-valued formula. */
  lemma WorldToScreenIsFloor(c: Camera, wx: int, wy: int)
    ensures c.WorldToScreen(wx, wy).x
         == (((wx - c.x) * c.zoom * c.globalScale) as real + c.viewportWidth as real / 2.0).Floor
    ensures c.WorldToScreen(wx, wy).y
         == (((wy - c.y) * c.zoom * c.globalScale) as real + c.viewportHeight as real / 2.0).Floor
  {
    FloorOfQuotient(c.viewportWidth, 2);
    FloorOfQuotient(c.viewportHeight, 2);
  }

  /** The camera's own position lands on the centre of the viewport. */
  lemma FocusIsViewportCentre(c: Camera)
    ensures c.WorldToScreen(c.x, c.y) == Point(c.viewportWidth / 2, c.viewportHeight / 2)
  {
  }

  /** Points further right (down) in the world are never further left (up) on screen. */
  lemma {:induction false} WorldToScreenMonotone(c: Camera, wx1: int, wy1: int, wx2: int, wy2: int)
    requires wx1 <= wx2 && wy1 <= wy2
    ensures c.WorldToScreen(wx1, wy1).x <= c.WorldToScreen(wx2, wy2).x
    ensures c.WorldToScreen(wx1, wy1).y <= c.WorldToScreen(wx2, wy2).y
  {
    ProductMonotone(wx1 - c.x, wx2 - c.x, c.zoom * c.globalScale);
    ProductMonotone(wy1 - c.y, wy2 - c.y, c.zoom * c.globalScale);
    assert (wx1 - c.x) * c.zoom * c.globalScale == (wx1 - c.x) * (c.zoom * c.globalScale);
    assert (wx2 - c.x) * c.zoom * c.globalScale == (wx2 - c.x) * (c.zoom * c.globalScale);
    assert (wy1 - c.y) * c.zoom * c.globalScale == (wy1 - c.y) * (c.zoom * c.globalScale);
    assert (wy2 - c.y) * c.zoom * c.globalScale == (wy2 - c.y) * (c.zoom * c.globalScale);
  }

  lemma ProductMonotone(a: int, b: int, k: int)
    requires a <= b && k >= 0
    ensures a * k <= b * k
  {
    assert b * k - a * k == (b - a) * k;
  }

  /** Moving a world point by d units moves its screen position by d * zoom * globalScale. */
  lemma WorldToScreenTranslates(c: Camera, wx: int, wy: int, d: int)
    ensures c.WorldToScreen(wx + d, wy).x == c.WorldToScreen(wx, wy).x + d * c.zoom * c.globalScale
    ensures c.WorldToScreen(wx, wy + d).y == c.WorldToScreen(wx, wy).y + d * c.zoom * c.globalScale
    ensures c.zoom == 1 ==> c.WorldToScreen(wx + 1, wy).x == c.WorldToScreen(wx, wy).x + c.globalScale
  {
  }

  /** Scaling a whole world magnitude and normalising it back gives it back. */
  lemma NormalizeScale(c: Camera, v: int)
    ensures c.Normalize(c.Scale(v)) == v
  {
    var r := c.Normalize(c.Scale(v));
    assert r * c.globalScale <= v * c.globalScale < (r + 1) * c.globalScale;
    if r < v {
      ProductMonotone(r + 1, v, c.globalScale);
    } else if r > v {
      ProductMonotone(v + 1, r, c.globalScale);
    }
  }

  /** Normalize is the floor of the real quotient. */
  lemma NormalizeIsFloor(c: Camera, v: int)
    ensures c.Normalize(v) == (v as real / c.globalScale as real).Floor
  {
    FloorOfQuotient(v, c.globalScale);
  }
}
