/** Post-processing of the HOG person detector: weak and tiny detections are
    filtered out and the largest remaining one becomes the target. */
module PersonTracker {
  import opened Wrappers
  import opened Numbers
  import opened Targets

  /** Detections weighted below this are rejected. */
  const MinWeight: real := 0.5

  /** A detection that passed both filters, with its area. */
  datatype Candidate = Candidate(rect: Rect, weight: real, area: int)

  datatype PersonResult = PersonResult(
    cx: int, cy: int,
    errorX: int, errorY: int,
    area: int,
    bbox: Rect,
    frameCenter: Point,
    weight: real,
    targetLabel: string)

  predicate Passes(r: Rect, weight: real, minArea: int)
  {
    weight >= MinWeight && RectArea(r) >= minArea
  }

  /** The candidates kept from paired rectangles and weights, in detection order. */
  function Survivors(rects: seq<Rect>, weights: seq<real>, minArea: int): (cs: seq<Candidate>)
    requires |rects| == |weights|
    ensures |cs| <= |rects|
  {
    if |rects| == 0 then []
    else
      var n := |rects| - 1;
      Survivors(rects[..n], weights[..n], minArea)
        + (if Passes(rects[n], weights[n], minArea) then [Candidate(rects[n], weights[n], RectArea(rects[n]))] else [])
  }

  /** `zip(rects, weights)` stops at the shorter of the two lists. */
  function ZipLength(rects: seq<Rect>, weights: seq<real>): (n: nat)
    ensures n <= |rects| && n <= |weights|
    ensures n == |rects| || n == |weights|
  {
    if |rects| <= |weights| then |rects| else |weights|
  }

  /** The candidates kept by the filter loop over `zip(rects, weights)`. */
  function Candidates(rects: seq<Rect>, weights: seq<real>, minArea: int): (cs: seq<Candidate>)
    ensures |cs| <= |rects| && |cs| <= |weights|
  {
    var n := ZipLength(rects, weights);
    Survivors(rects[..n], weights[..n], minArea)
  }

  /** Every survivor passed both filters, carries its own rectangle's area, and comes
      from one detection. */
  lemma {:induction false} SurvivorsSound(rects: seq<Rect>, weights: seq<real>, minArea: int)
    requires |rects| == |weights|
    ensures forall c :: c in Survivors(rects, weights, minArea) ==>
              && c.weight >= MinWeight && c.area >= minArea && c.area == RectArea(c.rect)
              && exists i :: 0 <= i < |rects| && rects[i] == c.rect && weights[i] == c.weight
  {
    if |rects| > 0 {
      var n := |rects| - 1;
      SurvivorsSound(rects[..n], weights[..n], minArea);
      forall c | c in Survivors(rects, weights, minArea)
        ensures exists i :: 0 <= i < |rects| && rects[i] == c.rect && weights[i] == c.weight
      {
        if c in Survivors(rects[..n], weights[..n], minArea) {
          var i :| 0 <= i < n && rects[..n][i] == c.rect && weights[..n][i] == c.weight;
          assert rects[i] == c.rect && weights[i] == c.weight;
        } else {
          assert rects[n] == c.rect && weights[n] == c.weight;
        }
      }
    }
  }

  /** Every detection that passes both filters is kept. */
  lemma {:induction false} SurvivorsComplete(rects: seq<Rect>, weights: seq<real>, minArea: int, i: nat)
    requires |rects| == |weights| && i < |rects|
    requires Passes(rects[i], weights[i], minArea)
    ensures Candidate(rects[i], weights[i], RectArea(rects[i])) in Survivors(rects, weights, minArea)
  {
    var n := |rects| - 1;
    if i < n {
      SurvivorsComplete(rects[..n], weights[..n], minArea, i);
    }
  }

  /** No candidate survives exactly when every zipped detection fails a filter. */
  lemma NoCandidateIffAllRejected(rects: seq<Rect>, weights: seq<real>, minArea: int)
    ensures Candidates(rects, weights, minArea) == [] <==>
              forall i :: 0 <= i < ZipLength(rects, weights) ==> !Passes(rects[i], weights[i], minArea)
  {
    var n := ZipLength(rects, weights);
    var rs, ws := rects[..n], weights[..n];
    if Candidates(rects, weights, minArea) == [] {
      forall i | 0 <= i < n
        ensures !Passes(rects[i], weights[i], minArea)
      {
        if Passes(rs[i], ws[i], minArea) {
          SurvivorsComplete(rs, ws, minArea, i);
        }
      }
    } else {
      var c := Candidates(rects, weights, minArea)[0];
      SurvivorsSound(rs, ws, minArea);
      var i :| 0 <= i < n && rs[i] == c.rect && ws[i] == c.weight;
      assert Passes(rects[i], weights[i], minArea);
    }
  }

  /** Filter the detections (the loop over `zip(rects, weights)`). */
  method FilterCandidates(rects: seq<Rect>, weights: seq<real>, minArea: int) returns (candidates: seq<Candidate>)
    ensures candidates == Candidates(rects, weights, minArea)
  {
    var n := ZipLength(rects, weights);
    candidates := [];
    var i := 0;
    while i < n
      invariant 0 <= i <= n
      invariant candidates == Survivors(rects[..i], weights[..i], minArea)
    {
      var r, weight := rects[i], weights[i];
      assert rects[..i + 1][..i] == rects[..i] && weights[..i + 1][..i] == weights[..i];
      if weight < MinWeight {
        i := i + 1;
        continue;
      }
      var area := r.w * r.h;
      if area < minArea {
        i := i + 1;
        continue;
      }
      candidates := candidates + [Candidate(r, weight, area)];
      i := i + 1;
    }
    assert rects[..n] == rects[..i] && weights[..n] == weights[..i];
  }

  function CandidateArea(c: Candidate): real
  {
    c.area as real
  }

  /** `PersonTracker.process` from the detector's output on, for a `width` x `height`
      frame; `rects` is `None` when the detector returned nothing at all. */
  method Process(rects: Option<seq<Rect>>, weights: seq<real>, width: int, height: int, minArea: int, deadbandPx: int)
    returns (r: Option<PersonResult>)
    // nothing detected, or nothing survived the filters: no result
    ensures rects.None? || |rects.value| == 0 ==> r.None?
    ensures rects.Some? ==> (r.None? <==> Candidates(rects.value, weights, minArea) == [])
    // the largest surviving candidate, the first one among equals
    ensures r.Some? ==> (
              && rects.Some?
              && var cs := Candidates(rects.value, weights, minArea);
                 exists k :: 0 <= k < |cs| && cs[k] == Candidate(r.value.bbox, r.value.weight, r.value.area)
                          && (forall j :: 0 <= j < |cs| ==> cs[j].area <= cs[k].area)
                          && (forall j :: 0 <= j < k ==> cs[j].area < cs[k].area))
    // so it passed both filters
    ensures r.Some? ==> r.value.weight >= MinWeight && r.value.area >= minArea
    // the record describes that rectangle
    ensures r.Some? ==>
              && Point(r.value.cx, r.value.cy) == Center(r.value.bbox)
              && r.value.frameCenter == FrameCenter(width, height)
              && r.value.errorX == Deadband(r.value.cx - r.value.frameCenter.x, deadbandPx)
              && r.value.errorY == Deadband(r.value.cy - r.value.frameCenter.y, deadbandPx)
              && r.value.area == RectArea(r.value.bbox)
              && r.value.targetLabel == "person"
  {
    if rects.None? || |rects.value| == 0 {
      return None;
    }

    var candidates := FilterCandidates(rects.value, weights, minArea);
    if candidates == [] {
      return None;
    }

    var k := FirstMax(candidates, CandidateArea);
    var best := candidates[k];
    ghost var n := ZipLength(rects.value, weights);
    SurvivorsSound(rects.value[..n], weights[..n], minArea);
    assert best in candidates;

    var cx := best.rect.x + FloorHalf(best.rect.w);
    var cy := best.rect.y + FloorHalf(best.rect.h);

    var frameCx := FloorHalf(width);
    var frameCy := FloorHalf(height);

    var errorX := cx - frameCx;
    var errorY := cy - frameCy;

    if Abs(errorX) < deadbandPx {
      errorX := 0;
    }
    if Abs(errorY) < deadbandPx {
      errorY := 0;
    }

    r := Some(PersonResult(cx, cy, errorX, errorY, best.area, best.rect, Point(frameCx, frameCy), best.weight, "person"));
  }
}
