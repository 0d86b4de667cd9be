/**
 * An image resource handle (src/lib/engine/Sprite.ts). The image loader itself is outside the
 * model: its two possible notifications arrive as calls to OnLoad and OnError.
 */
module Sprites {

  class Sprite {
    /** The locator the image is fetched from. */
    const url: string
    /** Natural pixel dimensions; 0 until the image has loaded. */
    var width: nat
    var height: nat
    /** Display multiplier used when the sprite is blitted. */
    var scale: int
    /** Becomes true once, when the image loads; never reset. */
    var isLoaded: bool

    constructor (url: string, scale: int := 0)
      ensures this.url == url && this.scale == scale
      ensures width == 0 && height == 0 && !isLoaded
    {
      this.url := url;
      this.scale := scale;
      width, height, isLoaded := 0, 0, false;
    }

    /** The image loaded with the given natural dimensions. */
    method OnLoad(naturalWidth: nat, naturalHeight: nat)
      modifies this
      ensures width == naturalWidth && height == naturalHeight && isLoaded
      ensures scale == old(scale)
    {
      width := naturalWidth;
      height := naturalHeight;
      isLoaded := true;
    }

    /** The image failed to load: the failure is only reported, the sprite stays as it was. */
    method OnError()
      ensures unchanged(this)
    {
    }
  }
}
