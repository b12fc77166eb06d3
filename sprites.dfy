/** The drawable object of the sample game (sdl-game-test/object.hpp and
    object.cpp): a source crop rectangle in the texture atlas, a destination
    rectangle in the window, and a texture handle. */
module Sprites {

  /** SDL_Rect and Object::Coordinates: four plain integers. */
  datatype Rect = Rect(x: int, y: int, w: int, h: int)

  /** An opaque texture handle; loading images is not modelled. */
  datatype Texture = NoTexture | Texture(id: nat)

  /** The value of an Object, as copied into a std::vector<Object>. */
  datatype Sprite = Sprite(src: Rect, dest: Rect, tex: Texture)

  class Object {
    var src: Rect
    var dest: Rect
    var tex: Texture

    /** `Object() = default` followed by a `setImage` that produced `t`.
        The default constructor leaves both rectangles indeterminate, so
        nothing is promised about them here. */
    constructor (t: Texture)
      ensures tex == t
    {
      tex := t;
    }

    /** The Object as a value. */
    function Value(): Sprite
      reads this
    {
      Sprite(src, dest, tex)
    }

    method SetSrc(c: Rect)
      modifies this`src
      ensures src == c
      ensures dest == old(dest) && tex == old(tex)
    {
      src := Rect(c.x, c.y, c.w, c.h);
    }

    method SetDest(c: Rect)
      modifies this`dest
      ensures dest == c
      ensures src == old(src) && tex == old(tex)
    {
      dest := Rect(c.x, c.y, c.w, c.h);
    }

    method GetSrc() returns (r: Rect)
      ensures r == src
    {
      r := src;
    }

    method GetDest() returns (r: Rect)
      ensures r == dest
    {
      r := dest;
    }

    method GetTex() returns (t: Texture)
      ensures t == tex
    {
      t := tex;
    }
  }
}
