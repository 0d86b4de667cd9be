# Pixel-art canvas engine, modelled in Dafny

This project models the core of the small 2D canvas engine behind the portfolio site in
`src/lib/engine/`. The engine has six parts:

- **Camera.** It turns integer world coordinates into screen pixels. It does this by translating,
  zooming and magnifying by the pixel-art factor `globalScale`, then centring on the viewport.
- **Sprite.** An image handle that learns its natural size when the image loads.
- **Scene graph.** Containers hold children in insertion order and draw each child at the
  container's world position. The children are placed sprites (room objects), lines and nested
  containers.
- **Line.** It rasterises one-pixel lines with Bresenham's algorithm and strokes lines of any other width.
- **Room.** It owns a root container at the world origin.
- **Transition.** A screen wipe: a band of dither pattern, built from two tile sprites, scrolls
  across the viewport with black on one side of it. It calls its completion callback when the
  band has crossed.

It also models the scene's rescaling on a window resize (`updateSceneScale`). That step picks the
largest whole magnification at which the border art fits the window.

Drawing is modelled as the sequence of commands issued on the canvas (`Canvas.Cmd`). Each draw
operation returns its commands in order. Objects whose fields the engine updates in place are
Dafny classes: `Camera`, `Sprite`, `Container`, `Room`, `Transition` and `Scene`. Their methods are
specified against pure functions: `Render`/`RenderAll` for the scene graph, `Raster` for Bresenham,
and the `TState` functions for the transition. The properties are proved as lemmas about those
functions.

Files, one module each:
- `wrappers.dfy`: `Option` and `Outcome`.
- `sprite.dfy`
- `canvas.dfy`: points and drawing commands.
- `camera.dfy`
- `line.dfy`
- `room_object.dfy`
- `container.dfy`
- `room.dfy`
- `transition.dfy`
- `scene.dfy`

## Model

| member | source | states |
|---|---|---|
| Cameras.Camera.Project | src/lib/engine/Camera.svelte.ts:12-26 | one screen coordinate: (world − focus)·zoom·globalScale + extent/2, floored (WorldToScreenIsFloor proves the floor) |
| Cameras.Camera.WorldToScreen | src/lib/engine/Camera.svelte.ts:10-28 | the screen point of a world point, both axes by Project; its properties are WorldToScreenIsFloor, FocusIsViewportCentre, WorldToScreenMonotone and WorldToScreenTranslates |
| Cameras.Camera.Scale | src/lib/engine/Camera.svelte.ts:30-32 | a world magnitude times globalScale, an integer so the floor is the identity; NormalizeScale proves Normalize inverts it |
| Cameras.Camera.constructor | src/lib/engine/Camera.svelte.ts:1-7 | a new camera is at (0,0) with zoom 1, scale 1 and the given viewport |
| Cameras.Camera.Normalize | src/lib/engine/Camera.svelte.ts:34-36 | the result r is the floor of v / globalScale: r·g ≤ v < (r+1)·g |
| Cameras.Camera.SetViewport | src/lib/engine/Camera.svelte.ts:38-41 | only the viewport size changes, to the given one |
| Cameras.Camera.Move | src/lib/engine/Camera.svelte.ts:44-47 | the camera position moves by (dx, dy); zoom, scale and viewport stay |
| Cameras.FloorOfQuotient | src/lib/engine/Camera.svelte.ts:35 | integer division by a positive divisor is Math.floor of the real quotient |
| Cameras.WorldToScreenIsFloor | src/lib/engine/Camera.svelte.ts:10-28 | the integer transform equals the floor of translate·zoom·scale + viewport/2 on the reals |
| Cameras.FocusIsViewportCentre | src/lib/engine/Camera.svelte.ts:10-28 | the camera's own position maps to the centre of the viewport |
| Cameras.WorldToScreenMonotone | src/lib/engine/Camera.svelte.ts:10-28 | the transform preserves order on both axes |
| Cameras.WorldToScreenTranslates | src/lib/engine/Camera.svelte.ts:10-28 | a world shift of d moves the screen point by d·zoom·globalScale |
| Cameras.NormalizeScale | src/lib/engine/Camera.svelte.ts:30-36 | normalize undoes scale on whole numbers |
| Cameras.NormalizeIsFloor | src/lib/engine/Camera.svelte.ts:34-36 | Normalize is Math.floor(v / globalScale) |
| Sprites.Sprite.constructor | src/lib/engine/Sprite.ts:1-12 | a new sprite keeps its locator and scale, is 0×0 and not loaded |
| Sprites.Sprite.OnLoad | src/lib/engine/Sprite.ts:16-20 | loading records the natural size and sets isLoaded; the scale stays |
| Sprites.Sprite.OnError | src/lib/engine/Sprite.ts:13-15 | a failed load changes nothing in the sprite |
| Lines.Trace | src/lib/engine/Line.ts:75-89 | the first n plotted pixels are the cursors after 0..n-1 loop iterations |
| Lines.StartInv | src/lib/engine/Line.ts:69-73 | the initial cursor satisfies the loop invariant: the error term tracks both axes' progress |
| Lines.StepKeepsInv | src/lib/engine/Line.ts:80-88 | one application of the decision rule before the end keeps the invariant |
| Lines.StepMoves | src/lib/engine/Line.ts:80-88 | each step moves to a distinct neighbouring pixel in the direction of travel |
| Lines.AtEndAfter | src/lib/engine/Line.ts:78 | after max(dx, dy) iterations the loop stands on the end point |
| Lines.ReachedInv | src/lib/engine/Line.ts:69-89 | every cursor the loop reaches, up to max(dx, dy) iterations, satisfies the invariant |
| Lines.ReachedEnd | src/lib/engine/Line.ts:75-78 | the break condition holds exactly after max(dx, dy) iterations, so the loop ends |
| Lines.ReachedMoves | src/lib/engine/Line.ts:80-88 | before the end, consecutive cursors are neighbouring pixels |
| Lines.RasterShape | src/lib/engine/Line.ts:48-90 | the raster has max(&#124;dx&#124;, &#124;dy&#124;)+1 pixels, starts at `from`, ends at `to`, and each pixel neighbours the previous one |
| Lines.RasterExample | src/lib/engine/Line.ts:69-89 | (0,0)→(5,3) plots (0,0),(1,1),(2,1),(3,2),(4,2),(5,3) |
| Lines.Bresenham | src/lib/engine/Line.ts:64-89 | the loop plots exactly the pixels of Raster(from, to), in order |
| Lines.Advance | src/lib/engine/Line.ts:80-88 | the loop body after plotting performs exactly one step of the decision rule |
| Lines.Raster | src/lib/engine/Line.ts:64-89 | the pixels the loop plots between two screen points; RasterShape and RasterExample state what they are, Bresenham computes them |
| Lines.SegmentCommands | src/lib/engine/Line.ts:19-46 | width 1: the colour then one plot per raster pixel; otherwise one stroke; SegmentEndpoints states its shape |
| Lines.LineCommands | src/lib/engine/Line.ts:19-58 | the line's endpoints are the parent position plus from/to, taken to the screen, then drawn by SegmentCommands; DrawLine computes it |
| Lines.Plots | src/lib/engine/Line.ts:76 | one pixel command per rasterised pixel, in order |
| Lines.DrawLine | src/lib/engine/Line.ts:19-46 | width 1 sets the colour and plots the raster of the screen endpoints; any other width strokes one segment |
| Lines.SegmentEndpoints | src/lib/engine/Line.ts:19-90 | a one-pixel line sets its colour, then plots `from` first and `to` last, one plot per step of the longer axis; other widths give one stroke |
| RoomObjects.DrawObject | src/lib/engine/RoomObject.ts:16-28 | nothing is drawn iff there is no sprite or it is not loaded; otherwise one blit of size natural×scale, centred on the object's screen position |
| Containers.Render | src/lib/engine/Container.ts:14-23 | what drawing a child issues: a group draws its children at its own world position, an object ignores the parent, a line is offset by it; DrawDrawable computes it |
| Containers.RenderAll | src/lib/engine/Container.ts:20-22 | the children's commands concatenated in insertion order; RenderAllChild and RenderNested state its properties, DrawChildren computes it |
| Containers.RenderAllAppend | src/lib/engine/Container.ts:10-12 | adding a child appends that child's commands after the earlier children's |
| Containers.RenderAllConcat | src/lib/engine/Container.ts:20-22 | drawing the children splits at any point into the two runs' commands |
| Containers.RenderAllChild | src/lib/engine/Container.ts:20-22 | each child is drawn once, in insertion order, at the same parent position |
| Containers.ObjectIgnoresParent | src/lib/engine/RoomObject.ts:16-17 | a room object draws the same under any parent position |
| Containers.NestSprites | src/lib/engine/Container.ts:14-23 | nesting in groups does not change which sprites a drawable reads |
| Containers.RenderNested | src/lib/engine/Container.ts:14-23 | a drawable inside nested containers is drawn at the parent position plus the sum of all their offsets |
| Containers.SpritesAllAppend | src/lib/engine/Container.ts:10-12 | appending a child adds exactly its sprites to those the children read |
| Containers.DrawDrawable | src/lib/engine/Container.ts:20-22 | drawing one child issues exactly Render of it |
| Containers.DrawChildren | src/lib/engine/Container.ts:14-23 | the loop issues exactly the children's commands, in order, at the container's world position |
| Containers.Container.constructor | src/lib/engine/Container.ts:5-8 | a new container has the given offset (default 0,0) and no children |
| Containers.Container.Add | src/lib/engine/Container.ts:10-12 | the child is appended; the earlier children are kept in order |
| Containers.Container.Draw | src/lib/engine/Container.ts:14-23 | the commands are RenderAll of the children at (parent + x, parent + y) |
| Containers.AddContainerRender | src/lib/engine/Container.ts:10-23 | after adding a container as a child, the parent draws its children after the earlier ones, at the parent position plus the added container's offset |
| Containers.Container.UpdateGlobalScale | src/lib/engine/Container.ts:25-29 | every directly held sprite gets the new scale; only scale changes, and only in those sprites |
| Rooms.Room.constructor | src/lib/engine/Room.ts:7-10 | a new room has the given size and a fresh, empty root container at (0,0) |
| Rooms.Room.GetRootContainer | src/lib/engine/Room.ts:13-15 | the room's own root container is returned, not a copy |
| Rooms.Room.Draw | src/lib/engine/Room.ts:17-20 | the room draws its root's children at the world origin |
| Transitions.SpriteArrived | src/lib/engine/Transition.ts:29-37 | one tile's arrival: count it, then check; ArrivalOrder and TilesAccountedKept state its properties |
| Transitions.Configured | src/lib/engine/Transition.ts:48-60 | clear, store direction, callback and speed, then check; ConfigureThenBegin and PatternOrder state its properties |
| Transitions.AfterBegin | src/lib/engine/Transition.ts:62-65 | the state after begin: unchanged when unconfigured (the throw), otherwise only unpaused |
| Transitions.Updated | src/lib/engine/Transition.ts:133-168 | one frame of update; UpdateParity, UpdatePosition, UpdateCompletion and CallbackAtMostOnce state its properties |
| Transitions.DrawCommands | src/lib/engine/Transition.ts:170-202 | what draw issues; DrawAbuts and DrawNothingWhenIdle state its shape |
| Transitions.Cleared | src/lib/engine/Transition.ts:40-46 | paused, not completed, unconfigured, at 0, no-op callback; speed, pattern, width and count stay |
| Transitions.Checked | src/lib/engine/Transition.ts:68-131 | with a count other than 2 nothing changes; at 2 it records the band width, sets the direction's start position and builds the pattern only if there is none |
| Transitions.Begun | src/lib/engine/Transition.ts:62-65 | begin fails exactly when no direction is configured |
| Transitions.UpdateParity | src/lib/engine/Transition.ts:133-168 | an update changes nothing unless running; otherwise it leaves an odd position |
| Transitions.UpdateCompletion | src/lib/engine/Transition.ts:139-167 | the callback is invoked exactly when the band has crossed (completed going right, paused going left), at most once per update; only position, flags and log change |
| Transitions.FiredThenInert | src/lib/engine/Transition.ts:135 | after the callback fires, further updates change nothing |
| Transitions.TicksSplit | src/lib/engine/Transition.ts:133-168 | a + b frames are a frames followed by b frames |
| Transitions.IdleTicks | src/lib/engine/Transition.ts:135 | a transition that is not running stays the same over any number of frames |
| Transitions.CallbackAtMostOnce | src/lib/engine/Transition.ts:145-160 | over any number of frames the configured callback is invoked at most once |
| Transitions.ClearedIsInert | src/lib/engine/Transition.ts:40-46 | after clear, update does nothing and draw issues nothing, so a pending callback cannot fire |
| Transitions.ConfigureThenBegin | src/lib/engine/Transition.ts:48-65 | after configure, begin succeeds and only unpauses; the direction, callback and speed are the given ones |
| Transitions.PatternStable | src/lib/engine/Transition.ts:87 | once built, no operation rebuilds or drops the pattern |
| Transitions.TilesAccountedKept | src/lib/engine/Transition.ts:29-37 | every operation keeps the count equal to the number of loaded tiles and the pattern absent until both have loaded; the arrival of a tile not loaded before counts it, and the second one builds the pattern |
| Transitions.UpdatePosition | src/lib/engine/Transition.ts:137-165 | a running update moves the band by the scaled speed in its direction, then nudges an even position one pixel further that way |
| Transitions.WithoutArrivalsNothingRuns | src/lib/engine/Transition.ts:29-37 | with no arrival notifications, no operation builds a pattern; update and draw do nothing |
| Transitions.ArrivalOrder | src/lib/engine/Transition.ts:29-37 | the two tiles may arrive in either order; the first only counts, the second builds the pattern |
| Transitions.PatternOrder | src/lib/engine/Transition.ts:111-121 | the tile order is heavy first exactly for intoRight and fromRight, taken from the direction at build time |
| Transitions.RightCruise | src/lib/engine/Transition.ts:140-153 | a running rightward band at an odd position with an even step moves by exactly n steps in n frames while it has not crossed |
| Transitions.FromLeftExample | src/lib/engine/Transition.ts:48-168 | fromLeft, band 64 wide, viewport 320, scale 1: starts at −64, frame 1 at −53, callback on frame 39 and not before |
| Transitions.DrawAbuts | src/lib/engine/Transition.ts:170-202 | draw issues black, one black rectangle and the pattern band; the black rectangle abuts the band and reaches the viewport edge on its side |
| Transitions.DrawNothingWhenIdle | src/lib/engine/Transition.ts:172 | draw issues nothing iff paused or without a pattern |
| Transitions.Transition.constructor | src/lib/engine/Transition.ts:9-38 | a new transition is paused, unconfigured, speed 10, with two distinct unloaded tile sprites at the camera's scale, and Valid |
| Transitions.Transition.Clear | src/lib/engine/Transition.ts:40-46 | the new state is Cleared of the old; Valid is kept |
| Transitions.Transition.Configure | src/lib/engine/Transition.ts:48-60 | the new state is Configured of the old (clear, store arguments, check); Valid is kept |
| Transitions.Transition.Begin | src/lib/engine/Transition.ts:62-65 | fails iff unconfigured; the new state is the old one unpaused when configured; Valid is kept |
| Transitions.Transition.CheckAllSpritesLoaded | src/lib/engine/Transition.ts:68-131 | the new state is Checked of the old with the tiles' natural widths; Valid is kept |
| Transitions.Transition.SpriteLoaded | src/lib/engine/Transition.ts:29-37 | only a tile not yet loaded can arrive; it records its size and keeps its scale, the other tile is untouched, the count rises by one, the state is checked, and Valid (count = loaded tiles, pattern only after both) is kept |
| Transitions.Transition.Update | src/lib/engine/Transition.ts:133-168 | the new state is Updated of the old; Valid is kept |
| Transitions.Transition.Draw | src/lib/engine/Transition.ts:170-202 | the commands are DrawCommands of the state; nothing changes |
| Scenes.ScaleFor | src/lib/engine/Scene.svelte.ts:119-130 | the new magnification, a positive integer; ScaleForIsFloorOfMin, ScaleForFits and ScaleForMonotone state what it is |
| Scenes.ScaleForIsFloorOfMin | src/lib/engine/Scene.svelte.ts:117-130 | the integer magnification is Math.floor of the smaller real fitting ratio, or 1 when that is not positive |
| Scenes.ScaleForFits | src/lib/engine/Scene.svelte.ts:119-130 | the magnification is the largest that fits: the border at that factor fits the window less margins (when 1 fits at all), and one more overflows |
| Scenes.ScaleForMonotone | src/lib/engine/Scene.svelte.ts:119-130 | a larger window never gives a smaller magnification |
| Scenes.Scene.UpdateSceneScale | src/lib/engine/Scene.svelte.ts:116-146 | without a canvas or a border size the camera is untouched; otherwise the camera gets the fitted magnification and the canvas size as its viewport, and keeps its position and zoom |

## Left out

- Canvas side effects are modelled only as the returned command list. These are `imageSmoothingEnabled`, `beginPath`/`closePath`, `save`/`restore` and the context translation. The pattern fill after `translate(scrollX)` is recorded as a `Dither` paint anchored at `scrollX` and a rectangle starting at `scrollX`.
- The offscreen canvas that composes the dither pattern is not modelled. So are the failure paths of `getContext` and `createPattern` (Transition.ts:92-95, 125-128). The pattern is represented by its tile order alone.
- Image loading is asynchronous I/O. It is represented by the events `Sprite.OnLoad` and `Sprite.OnError`, and by `Transition.SpriteLoaded` for the tiles. The `HTMLImageElement` is not modelled, and neither is the error log line.
- The load callbacks the transition passes to the sprite constructor (Transition.ts:29-37) are modelled as the explicit event `Transition.SpriteLoaded`. The sprite constructor (Sprite.ts:8) does not accept them; see Findings.
- `update(deltaTime)`: the argument is unused by the source and is dropped.
- World coordinates, zoom, viewport sizes and scroll positions are integers. On integers, `Math.floor` and `Math.round` are the identity, so `Math.round` in Line.ts and Transition.ts disappears. Fractional zoom or positions are not modelled. Blit positions are reals, because the source halves odd sizes.
- In `updateSceneScale`, the scale-change test `Math.abs(globalScale - newGlobalScale) > 0.0001` is integer inequality, since both values are whole numbers.
- `Transition` callbacks are not run. Each invocation is appended to the `completions` log, so their own effects are not modelled.
- `combinedPatternWidth` is the sum of the tiles' natural widths, unscaled, as the code computes it (Transition.ts:70-71). The start position uses the scaled width. The pattern is built once and never rebuilt when the scale changes, which also follows the code.
- Nested containers are held as values (`Containers.Drawable.Group`). Changing a container after adding it to another is therefore not seen by the parent. Aliasing of scene-graph nodes is not modelled.
- The children of a container are a closed sum of container, room object and line. Other drawables that only implement the same duck-typed interface are not modelled.
- `Line` is a value with the source's defaults absent: colour "white", width 1 and endpoints (0,0) are not written as a constructor. The unused `x`/`y` fields of Line.ts are dropped.
- `RoomObject.draw` takes no parent position and draws at its own world coordinates, as the code does. The containers' offsets therefore do not move room objects (`Containers.ObjectIgnoresParent`).
- Camera.ts, svgStore, the Svelte state and event plumbing of Scene.svelte.ts other than `updateSceneScale`, and the DOM reads of `window.innerWidth`/`innerHeight` are not part of this model. The window size is a parameter.

## Findings

| source | as written | input that shows it | evidently intended | confidence | as-written member | corrected member |
|---|---|---|---|---|---|---|
| src/lib/engine/Transition.ts:29-37 with src/lib/engine/Sprite.ts:8 | the transition passes a load callback as a third argument to `new Sprite`, but the constructor takes only a locator and a scale, so the callback is dropped; the load count never leaves 0 and no pattern is built | both tiles load, then `configure('fromLeft')`, `begin()`, `update()`, `draw()`: the band never moves and nothing is drawn | each tile's load raises the count by one and re-checks, so the second load builds the pattern | high (not executed) | Transitions.WithoutArrivalsNothingRuns | Transitions.Transition.SpriteLoaded |
