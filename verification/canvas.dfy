/**
 * The drawing surface, seen only through the commands issued on it. Every draw operation of the
 * model returns the commands it issues, in order.
 */
module Canvas {
  import opened Sprites

  /** An integer point, in world or in screen (device pixel) coordinates. */
  datatype Point = Point(x: int, y: int)

  /** Left-to-right order of the two dither tiles inside the transition pattern. */
  datatype TileOrder = HeavyThenLight | LightThenHeavy

  /**
   * What a fill paints with: a plain colour, or the repeating transition pattern whose first
   * tile starts at device column `originX` (the canvas translation in force when it is used).
   */
  datatype Paint = Solid(color: string) | Dither(order: TileOrder, originX: int)

  datatype Cmd =
    | SetFill(paint: Paint)                                   // fillStyle assignment
    | FillRect(x: int, y: int, w: int, h: int)                // fillRect with the current fill
    | Plot(at: Point)                                         // one device pixel (a 1x1 fillRect)
    | Stroke(from: Point, to: Point, width: int, color: string) // one stroked straight segment
    | Blit(image: Sprite, left: real, top: real, w: int, h: int) // drawImage, top-left corner, size w x h
}
