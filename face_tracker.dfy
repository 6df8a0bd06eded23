/** Post-processing of the Haar face detector: the largest face becomes the target. */
module FaceTracker {
  import opened Wrappers
  import opened Targets

  /** The result record; `found` is false and every optional field is `None` when
      there is no face. */
  datatype FaceResult = FaceResult(
    found: bool,
    bbox: Option<Rect>,
    center: Option<Point>,
    rawCenter: Option<Point>,
    error: Option<Point>,
    area: int)

  function FaceArea(r: Rect): real
  {
    RectArea(r) as real
  }

  /** `FaceTracker.process` after detection, for the faces the cascade returned in a
      `width` x `height` frame. */
  function Process(faces: seq<Rect>, width: int, height: int, deadbandPx: int): (r: FaceResult)
    // no face: the empty record
    ensures |faces| == 0 <==> !r.found
    ensures !r.found ==>
              r.bbox.None? && r.center.None? && r.rawCenter.None? && r.error.None? && r.area == 0
    // found exactly when every target field is present
    ensures r.found <==> r.bbox.Some? && r.center.Some? && r.error.Some?
    ensures r.found ==>
              && r.bbox.value in faces
              // the largest face, the first one among equals
              && (forall j :: 0 <= j < |faces| ==> RectArea(faces[j]) <= r.area)
              && (forall j :: 0 <= j < |faces| && faces[j] != r.bbox.value ==>
                    RectArea(faces[j]) < r.area || exists i :: 0 <= i < j && faces[i] == r.bbox.value)
              && r.area == RectArea(r.bbox.value)
              && r.center == r.rawCenter == Some(Center(r.bbox.value))
              && r.error.value.x == Deadband(r.center.value.x - FrameCenter(width, height).x, deadbandPx)
              && r.error.value.y == Deadband(r.center.value.y - FrameCenter(width, height).y, deadbandPx)
  {
    if |faces| == 0 then
      FaceResult(false, None, None, None, None, 0)
    else
      var k := FirstMax(faces, FaceArea);
      var face := faces[k];
      var c := Center(face);
      var frame := FrameCenter(width, height);
      var errorX := Deadband(c.x - frame.x, deadbandPx);
      var errorY := Deadband(c.y - frame.y, deadbandPx);
      FaceResult(true, Some(face), Some(c), Some(c), Some(Point(errorX, errorY)), RectArea(face))
  }
}
