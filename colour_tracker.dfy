/** Post-processing of the colour-mask detector: the contour of largest area becomes
    the target when that area is above the threshold. */
module ColourTracker {
  import opened Wrappers
  import opened Numbers
  import opened Targets

  /** One external contour of the mask, reduced to what is used of it: its area
      (`contourArea`) and its bounding rectangle (`boundingRect`). */
  datatype Contour = Contour(area: real, rect: Rect)

  datatype ColourResult = ColourResult(
    cx: int, cy: int,
    errorX: int, errorY: int,
    area: int,
    bbox: Rect,
    frameCenter: Point)

  function ContourArea(c: Contour): real
  {
    c.area
  }

  /** `ColourTracker.process` from the contour list on, in a `width` x `height` frame. */
  function Process(contours: seq<Contour>, width: int, height: int, minArea: real, deadbandPx: int)
    : (r: Option<ColourResult>)
    // no contour: no result
    ensures |contours| == 0 ==> r.None?
    // a result exists exactly when the largest contour is strictly above the threshold
    ensures r.Some? <==> exists k :: 0 <= k < |contours| && contours[k].area > minArea
    ensures r.Some? ==>
              exists k :: 0 <= k < |contours| && contours[k].rect == r.value.bbox
                       && contours[k].area > minArea
                       && Trunc(contours[k].area) == r.value.area
                       // the largest contour, the first one among equals
                       && (forall j :: 0 <= j < |contours| ==> contours[j].area <= contours[k].area)
                       && (forall j :: 0 <= j < k ==> contours[j].area < contours[k].area)
    ensures r.Some? ==>
              && Point(r.value.cx, r.value.cy) == Center(r.value.bbox)
              && r.value.frameCenter == FrameCenter(width, height)
              && r.value.errorX == Deadband(r.value.cx - r.value.frameCenter.x, deadbandPx)
              && r.value.errorY == Deadband(r.value.cy - r.value.frameCenter.y, deadbandPx)
  {
    if |contours| == 0 then None
    else
      var k := FirstMax(contours, ContourArea);
      var area := contours[k].area;
      if area <= minArea then None
      else
        var box := contours[k].rect;
        var c := Center(box);
        var frame := FrameCenter(width, height);
        var errorX := Deadband(c.x - frame.x, deadbandPx);
        var errorY := Deadband(c.y - frame.y, deadbandPx);
        Some(ColourResult(c.x, c.y, errorX, errorY, Trunc(area), box, frame))
  }
}
