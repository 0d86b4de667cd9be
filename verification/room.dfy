/**
 * A room (src/lib/engine/Room.ts): its size and one root container whose world position is the
 * origin; drawing the room draws the root container there.
 */
module Rooms {
  import opened Canvas
  import opened Cameras
  import opened Containers

  class Room {
    const width: int
    const height: int
    const root: Container

    /** The root container sits at the world origin. */
    predicate Valid() {
      root.x == 0 && root.y == 0
    }

    constructor (width: int, height: int)
      ensures this.width == width && this.height == height
      ensures Valid() && fresh(root) && root.children == []
    {
      this.width, this.height := width, height;
      root := new Container(0, 0);
    }

    /** The root container itself, so that callers can add to it. */
    method GetRootContainer() returns (c: Container)
      ensures c == root
    {
      c := root;
    }

    /**
     * The root container's children, each drawn once and in insertion order at the world
     * origin: the same as drawing the root as a group under the origin.
     */
    method Draw(cam: Camera) returns (cmds: seq<Cmd>)
      requires Valid()
      ensures cmds == RenderAll(root.children, cam, 0, 0)
      ensures cmds == Render(Group(0, 0, root.children), cam, 0, 0)
    {
      cmds := root.Draw(cam, 0, 0);
    }
  }
}
