/**
 * A placed sprite (src/lib/engine/RoomObject.ts): drawn centred on the screen position of its
 * own world coordinates, at the sprite's natural size times the sprite's scale.
 */
module RoomObjects {
  import opened Wrappers
  import opened Sprites
  import opened Canvas
  import opened Cameras

  /** An object at world position (x, y), with or without a sprite. */
  datatype RoomObject = RoomObject(x: int, y: int, sprite: Option<Sprite>)

  /** The sprite the object refers to, as a frame for what drawing it reads. */
  function SpriteSet(o: RoomObject): set<Sprite> {
    if o.sprite.Some? then {o.sprite.value} else {}
  }

  /**
   * What drawing the object issues: nothing without a loaded sprite, otherwise one blit of
   * the scaled sprite whose centre is the object's screen position. The parent position a
   * container passes is not used.
   */
  function DrawObject(o: RoomObject, cam: Camera): (cmds: seq<Cmd>)
    reads cam, SpriteSet(o)
    ensures cmds == [] <==> o.sprite.None? || !o.sprite.value.isLoaded
    ensures cmds != [] ==>
      var s := o.sprite.value;
      var at := cam.WorldToScreen(o.x, o.y);
      && |cmds| == 1 && cmds[0].Blit? && cmds[0].image == s
      && cmds[0].w == s.width * s.scale && cmds[0].h == s.height * s.scale
      && cmds[0].left + cmds[0].w as real / 2.0 == at.x as real
      && cmds[0].top + cmds[0].h as real / 2.0 == at.y as real
  {
    var at := cam.WorldToScreen(o.x, o.y);
    if o.sprite.None? || !o.sprite.value.isLoaded then []
    else
      var s := o.sprite.value;
      var w := s.width * s.scale;
      var h := s.height * s.scale;
      [Blit(s, at.x as real - w as real / 2.0, at.y as real - h as real / 2.0, w, h)]
  }
}
