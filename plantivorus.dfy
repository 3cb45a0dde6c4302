/** The dangerous plant of the game. Its constructor derives, from a grid
    cell, the collision rectangle that the danger check and the erase action
    read through GetRect. */
module Plantivorus {
  import opened Geometry

  /** Horizontal offsets of the three animation frames in the sprite sheet. */
  const Pos0: int := 0
  const Pos1: int := 64
  const Pos2: int := 128

  /** Size of one animation frame, and of the collision rectangle. */
  const SpriteWidth: int := 96
  const SpriteHeight: int := 64

  /** The collision rectangle of a plant standing in cell (pX, pY). */
  function CollisionRect(pX: int, pY: int): Rect {
    Rect(ToPixel(pX), ToPixel(pY), SpriteWidth, SpriteHeight)
  }

  class Plantivorus {
    var pos: Position
    var spriteRect: Rect
    var plantivorusRect: Rect

    /** The collision rectangle sits on the plant's cell and has the size of
        one sprite frame. */
    ghost predicate Valid()
      reads this
    {
      && plantivorusRect == CollisionRect(pos.x, pos.y)
      && spriteRect.w == plantivorusRect.w
      && spriteRect.h == plantivorusRect.h
    }

    /** A plant in cell (pX, pY), showing the first frame of its sheet; the
        cell defaults to (0, 0). */
    constructor (pX: int := 0, pY: int := 0)
      ensures Valid()
      ensures pos == Position(pX, pY)
      ensures spriteRect == Rect(Pos0, 0, SpriteWidth, SpriteHeight)
      ensures plantivorusRect.x == pX * 64 && plantivorusRect.y == pY * 64
      ensures plantivorusRect.w == 96 && plantivorusRect.h == 64
    {
      pos := Position(pX, pY);
      spriteRect := Rect(0, 0, 96, 64);
      new;
      plantivorusRect := Rect(pos.x * 64, pos.y * 64, spriteRect.w, spriteRect.h);
    }

    /** The rectangle used for collisions: on the plant's cell, as large as
        the sprite frame. */
    function GetRect(): (r: Rect)
      reads this
      requires Valid()
      ensures r.x == pos.x * CellSize && r.y == pos.y * CellSize
      ensures r.w == spriteRect.w && r.h == spriteRect.h
      ensures !IsEmpty(r)
    {
      plantivorusRect
    }
  }

  /** The default-constructed plant has its collision rectangle at the origin. */
  method DefaultPlantAtOrigin() returns (p: Plantivorus)
    ensures p.Valid() && p.GetRect() == Rect(0, 0, 96, 64)
  {
    p := new Plantivorus();
  }
}
