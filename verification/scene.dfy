/**
 * The scene's rescaling on a window resize (`updateSceneScale` in
 * src/lib/engine/Scene.svelte.ts): the pixel-art magnification becomes the largest whole
 * factor at which the border art still fits the window less its margins, and at least 1; the
 * camera's viewport follows the canvas size.
 */
module Scenes {
  import opened Wrappers
  import opened Cameras

  /** Horizontal margin: 32 pixels on each side. */
  const MarginX := 32 * 2
  /** Vertical room kept for the page around the canvas. */
  const MarginY := 196

  function Min(a: int, b: int): int { if a <= b then a else b }

  /**
   * The magnification for a window of innerWidth by innerHeight and border art of
   * borderWidth by borderHeight: the floor of the smaller of the two fitting ratios, or 1
   * when that is not positive.
   */
  function ScaleFor(innerWidth: int, innerHeight: int, borderWidth: int, borderHeight: int): Positive
    requires borderWidth > 0 && borderHeight > 0
  {
    var scale := Min((innerWidth - MarginX) / borderWidth, (innerHeight - MarginY) / borderHeight);
    if scale <= 0 then 1 else scale
  }

  /** The integer computation is the source's real one: the floor of the smaller real ratio. */
  lemma ScaleForIsFloorOfMin(innerWidth: int, innerHeight: int, borderWidth: int, borderHeight: int)
    requires borderWidth > 0 && borderHeight > 0
    ensures var ratioW := (innerWidth - MarginX) as real / borderWidth as real;
      var ratioH := (innerHeight - MarginY) as real / borderHeight as real;
      var floor := (if ratioW <= ratioH then ratioW else ratioH).Floor;
      ScaleFor(innerWidth, innerHeight, borderWidth, borderHeight) == if floor <= 0 then 1 else floor
  {
    FloorOfQuotient(innerWidth - MarginX, borderWidth);
    FloorOfQuotient(innerHeight - MarginY, borderHeight);
  }

  /**
   * The magnification is the largest that fits: the border art magnified by it fits both
   * effective window dimensions (unless even 1 does not, when it is 1), and one step larger
   * overflows at least one of them.
   */
  lemma ScaleForFits(innerWidth: int, innerHeight: int, borderWidth: int, borderHeight: int)
    requires borderWidth > 0 && borderHeight > 0
    ensures var g := ScaleFor(innerWidth, innerHeight, borderWidth, borderHeight);
      && (g > 1 || (borderWidth <= innerWidth - MarginX && borderHeight <= innerHeight - MarginY) ==>
            g * borderWidth <= innerWidth - MarginX && g * borderHeight <= innerHeight - MarginY)
      && ((g + 1) * borderWidth > innerWidth - MarginX || (g + 1) * borderHeight > innerHeight - MarginY)
  {
    var ew, eh := innerWidth - MarginX, innerHeight - MarginY;
    var g := ScaleFor(innerWidth, innerHeight, borderWidth, borderHeight);
    if g > 1 || (borderWidth <= ew && borderHeight <= eh) {
      if g == 1 {
        QuotientAtLeastOne(ew, borderWidth);
        QuotientAtLeastOne(eh, borderHeight);
      }
      FitsBelow(ew, borderWidth, g);
      FitsBelow(eh, borderHeight, g);
    }
    if ew / borderWidth <= eh / borderHeight {
      OverflowsAbove(ew, borderWidth, g + 1);
    } else {
      OverflowsAbove(eh, borderHeight, g + 1);
    }
  }

  lemma QuotientAtLeastOne(e: int, b: int)
    requires 0 < b <= e
    ensures e / b >= 1
  {
    DivMonotone(b, e, b);
  }

  /** Any factor up to the quotient fits. */
  lemma FitsBelow(e: int, b: int, k: int)
    requires b > 0 && k <= e / b
    ensures k * b <= e
  {
    ProductMonotone(k, e / b, b);
  }

  /** Any factor past the quotient overflows. */
  lemma OverflowsAbove(e: int, b: int, k: int)
    requires b > 0 && k > e / b
    ensures k * b > e
  {
    ProductMonotone(e / b + 1, k, b);
  }

  /** A larger window never gives a smaller magnification. */
  lemma ScaleForMonotone(w1: int, h1: int, w2: int, h2: int, borderWidth: int, borderHeight: int)
    requires borderWidth > 0 && borderHeight > 0 && w1 <= w2 && h1 <= h2
    ensures ScaleFor(w1, h1, borderWidth, borderHeight) <= ScaleFor(w2, h2, borderWidth, borderHeight)
  {
    DivMonotone(w1 - MarginX, w2 - MarginX, borderWidth);
    DivMonotone(h1 - MarginY, h2 - MarginY, borderHeight);
  }

  lemma DivMonotone(a: int, b: int, d: int)
    requires a <= b && d > 0
    ensures a / d <= b / d
  {
    if a / d > b / d {
      ProductMonotone(b / d + 1, a / d, d);
    }
  }

  /** The canvas element, as far as the scene uses it: its size in device pixels. */
  datatype CanvasSize = CanvasSize(width: int, height: int)

  class Scene {
    var canvas: Option<CanvasSize>
    var camera: Camera?
    /** The natural size of the border art; 0 while it is unknown. */
    var borderWidth: nat
    var borderHeight: nat

    /**
     * Rescales for a window of innerWidth by innerHeight. Without a canvas or a known border
     * size nothing happens; otherwise the camera, when there is one, gets the magnification
     * ScaleFor gives and the canvas size as its viewport, and keeps its position and zoom.
     */
    method UpdateSceneScale(innerWidth: int, innerHeight: int)
      modifies camera
      ensures canvas.None? || borderWidth == 0 || borderHeight == 0 ==>
        camera == null || unchanged(camera)
      ensures canvas.Some? && borderWidth > 0 && borderHeight > 0 && camera != null ==>
        && camera.globalScale == ScaleFor(innerWidth, innerHeight, borderWidth, borderHeight)
        && camera.viewportWidth == canvas.value.width && camera.viewportHeight == canvas.value.height
        && camera.x == old(camera.x) && camera.y == old(camera.y) && camera.zoom == old(camera.zoom)
    {
      if canvas.None? || borderWidth == 0 || borderHeight == 0 {
        return;
      }
      var newGlobalScale := ScaleFor(innerWidth, innerHeight, borderWidth, borderHeight);
      if camera != null {
        if camera.globalScale != newGlobalScale {
          camera.globalScale := newGlobalScale;
        }
        if camera.viewportWidth != canvas.value.width || camera.viewportHeight != canvas.value.height {
          camera.SetViewport(canvas.value.width, canvas.value.height);
        }
      }
    }
  }
}
