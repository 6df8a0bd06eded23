/** Geometry shared by the three trackers: rectangles, centres, the deadband
    and Python's `max(items, key=...)`. */
module Targets {
  import opened Numbers

  /** An axis-aligned rectangle in frame pixels, as OpenCV reports it: (x, y, w, h). */
  datatype Rect = Rect(x: int, y: int, w: int, h: int)

  datatype Point = Point(x: int, y: int)

  function RectArea(r: Rect): int
  {
    r.w * r.h
  }

  /** Centre of a rectangle, `(x + w // 2, y + h // 2)`. */
  function Center(r: Rect): (c: Point)
    ensures 2 * (c.x - r.x) <= r.w < 2 * (c.x - r.x) + 2
    ensures 2 * (c.y - r.y) <= r.h < 2 * (c.y - r.y) + 2
  {
    Point(r.x + FloorHalf(r.w), r.y + FloorHalf(r.h))
  }

  /** Centre of a `width` x `height` frame, `(W // 2, H // 2)`. */
  function FrameCenter(width: int, height: int): (c: Point)
    ensures 2 * c.x <= width < 2 * c.x + 2
    ensures 2 * c.y <= height < 2 * c.y + 2
  {
    Point(FloorHalf(width), FloorHalf(height))
  }

  /** One error component after the deadband: zeroed exactly when `|e| < deadbandPx`. */
  function Deadband(e: int, deadbandPx: int): (r: int)
    ensures r == 0 || r == e
    ensures r == 0 <==> (e == 0 || Abs(e) < deadbandPx)
    ensures deadbandPx <= 0 ==> r == e
  {
    if Abs(e) < deadbandPx then 0 else e
  }

  /** Python's `max(s, key=key)`: the index of the FIRST element with the largest key. */
  function FirstMax<T>(s: seq<T>, key: T -> real): (i: nat)
    requires |s| > 0
    ensures i < |s|
    ensures forall j :: 0 <= j < |s| ==> key(s[j]) <= key(s[i])
    ensures forall j :: 0 <= j < i ==> key(s[j]) < key(s[i])
  {
    if |s| == 1 then 0
    else
      var k := FirstMax(s[..|s| - 1], key);
      if key(s[k]) < key(s[|s| - 1]) then |s| - 1 else k
  }

  /** The two ensures of FirstMax single out one index: the result is the only index
      whose key is maximal and strictly above every earlier key. */
  lemma FirstMaxUnique<T>(s: seq<T>, key: T -> real, i: nat)
    requires i < |s|
    requires forall j :: 0 <= j < |s| ==> key(s[j]) <= key(s[i])
    requires forall j :: 0 <= j < i ==> key(s[j]) < key(s[i])
    ensures FirstMax(s, key) == i
  {
  }
}
