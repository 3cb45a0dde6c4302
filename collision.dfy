/** The linear collision searches of the level engine: a rectangle tested
    against every rectangle of a collection, either stopping at the first hit
    (ground and danger checks) or remembering the last hit (time-bonus pickup
    and the erase action). */
module Collision {
  import opened Geometry

  /** Some rectangle of the collection overlaps the probe. */
  predicate AnyHit(probe: Rect, rects: seq<Rect>) {
    exists i :: 0 <= i < |rects| && Intersects(probe, rects[i])
  }

  /** Index of the highest-indexed rectangle overlapping the probe, or -1. */
  function LastHit(probe: Rect, rects: seq<Rect>): (k: int)
    ensures -1 <= k < |rects|
    ensures k == -1 <==> !AnyHit(probe, rects)
    ensures k >= 0 ==> Intersects(probe, rects[k])
    ensures k >= 0 ==> forall j :: k < j < |rects| ==> !Intersects(probe, rects[j])
    decreases |rects|
  {
    if |rects| == 0 then -1
    else if Intersects(probe, rects[|rects| - 1]) then |rects| - 1
    else LastHit(probe, rects[..|rects| - 1])
  }

  /** The sequence with the element at index i taken out (vector::erase). */
  function RemoveAt<T>(s: seq<T>, i: nat): (r: seq<T>)
    requires i < |s|
    ensures |r| == |s| - 1
    ensures forall j :: 0 <= j < i ==> r[j] == s[j]
    ensures forall j :: i <= j < |r| ==> r[j] == s[j + 1]
  {
    s[..i] + s[i + 1..]
  }

  /** A scan that returns as soon as one rectangle overlaps the probe. */
  method AnyIntersecting(probe: Rect, rects: seq<Rect>) returns (hit: bool)
    ensures hit <==> AnyHit(probe, rects)
  {
    var i := 0;
    while i < |rects|
      invariant 0 <= i <= |rects|
      invariant forall j :: 0 <= j < i ==> !Intersects(probe, rects[j])
    {
      if Intersects(probe, rects[i]) {
        return true;
      }
      i := i + 1;
    }
    return false;
  }

  /** A full forward scan in which every hit overwrites the remembered index,
      so the index of the last hit survives. */
  method LastIntersecting(probe: Rect, rects: seq<Rect>) returns (idx: int)
    ensures idx == LastHit(probe, rects)
  {
    var cpt := 0;
    idx := -1;
    while cpt < |rects|
      invariant 0 <= cpt <= |rects|
      invariant idx == LastHit(probe, rects[..cpt])
    {
      assert rects[..cpt + 1][..cpt] == rects[..cpt];
      if Intersects(probe, rects[cpt]) {
        idx := cpt;
      }
      cpt := cpt + 1;
    }
    assert rects[..cpt] == rects;
  }
}
