/** Monocular distance: a pinhole model calibrated once from a known distance,
    and a single-stage exponential moving average over the estimates. */
module Distance {
  import opened Wrappers

  /** `focal_px = bbox_width_px * calib_distance_cm / known_width_cm`. */
  function FocalLength(bboxWidthPx: int, calibDistanceCm: real, knownWidthCm: real): (f: real)
    requires knownWidthCm != 0.0
    // the pinhole relation the calibration solves: known width times focal length
    // equals box width times distance
    ensures f * knownWidthCm == bboxWidthPx as real * calibDistanceCm
  {
    bboxWidthPx as real * calibDistanceCm / knownWidthCm
  }

  /** `distance_cm = known_width_cm * focal_px / bbox_width_px`. */
  function PinholeDistance(knownWidthCm: real, focalPx: real, bboxWidthPx: int): (d: real)
    requires bboxWidthPx != 0
    // the same relation solved for the distance
    ensures d * bboxWidthPx as real == knownWidthCm * focalPx
  {
    knownWidthCm * focalPx / bboxWidthPx as real
  }

  /** One step of the moving average: the first sample after a reset passes through,
      later ones are blended as `(1 - alpha) * prev + alpha * x`. */
  function Smooth(prev: Option<real>, alpha: real, x: real): (s: real)
    ensures prev.None? ==> s == x
    ensures prev.Some? ==> s - prev.value == alpha * (x - prev.value)
  {
    match prev
    case None => x
    case Some(p) => (1.0 - alpha) * p + alpha * x
  }

  /** For `alpha` in [0, 1] the smoothed value lies between the previous value and
      the new sample; `alpha = 1` passes the sample through, `alpha = 0` keeps the
      previous value. */
  lemma SmoothBetween(p: real, alpha: real, x: real)
    requires 0.0 <= alpha <= 1.0
    ensures p <= x ==> p <= Smooth(Some(p), alpha, x) <= x
    ensures x <= p ==> x <= Smooth(Some(p), alpha, x) <= p
    ensures alpha == 1.0 ==> Smooth(Some(p), alpha, x) == x
    ensures alpha == 0.0 ==> Smooth(Some(p), alpha, x) == p
  {
    var d := x - p;
    if d >= 0.0 {
      assert 0.0 <= alpha * d <= d by {
        assert alpha * d <= 1.0 * d;
      }
    } else {
      assert d <= alpha * d <= 0.0 by {
        assert alpha * (-d) <= 1.0 * (-d);
      }
    }
  }

  /** Calibrating on a width and then measuring that same width gives back the
      calibration distance. */
  lemma CalibrateThenEstimate(bboxWidthPx: int, calibDistanceCm: real, knownWidthCm: real)
    requires bboxWidthPx > 0 && knownWidthCm != 0.0
    ensures PinholeDistance(knownWidthCm, FocalLength(bboxWidthPx, calibDistanceCm, knownWidthCm), bboxWidthPx)
              == calibDistanceCm
  {
    var w := bboxWidthPx as real;
    var f := w * calibDistanceCm / knownWidthCm;
    assert knownWidthCm * f == w * calibDistanceCm;
    assert knownWidthCm * f / w == calibDistanceCm;
  }

  /** The smoothed value after feeding the same sample `x` to the average `n` times
      after a reset. */
  function SmoothRepeated(alpha: real, x: real, n: nat): Option<real>
  {
    if n == 0 then None else Some(Smooth(SmoothRepeated(alpha, x, n - 1), alpha, x))
  }

  /** Repeated estimates of one width stay exactly at the raw distance, whatever alpha. */
  lemma {:induction false} SmoothRepeatedIsFixed(alpha: real, x: real, n: nat)
    requires n > 0
    ensures SmoothRepeated(alpha, x, n) == Some(x)
  {
    if n > 1 {
      SmoothRepeatedIsFixed(alpha, x, n - 1);
      calc {
        Smooth(Some(x), alpha, x);
        (1.0 - alpha) * x + alpha * x;
        x;
      }
    }
  }

  /** Outcome of a calibration request. */
  datatype Calibration =
    | Rejected             // width <= 0: `None`, nothing changes
    | Calibrated(focalPx: real)
    | ZeroDivision         // known_width_cm == 0: Python raises, nothing changes

  class DistanceEstimator {
    const knownWidthCm: real
    const calibDistanceCm: real
    const alpha: real
    var focalPx: Option<real>
    var smoothed: Option<real>

    /** The configured constants; `focalPx` starts at the configured focal length, if any. */
    constructor (knownWidthCm: real, calibDistanceCm: real, focalPx: Option<real>, alpha: real)
      ensures this.knownWidthCm == knownWidthCm && this.calibDistanceCm == calibDistanceCm
      ensures this.focalPx == focalPx && this.alpha == alpha && smoothed.None?
    {
      this.knownWidthCm := knownWidthCm;
      this.calibDistanceCm := calibDistanceCm;
      this.focalPx := focalPx;
      this.alpha := alpha;
      smoothed := None;
    }

    /** Compute the focal length from a box of width `bboxWidthPx` at the calibration
        distance, and restart the moving average. */
    method Calibrate(bboxWidthPx: int) returns (r: Calibration)
      modifies this
      ensures bboxWidthPx <= 0 ==> r == Rejected
      ensures bboxWidthPx > 0 && knownWidthCm == 0.0 ==> r == ZeroDivision
      ensures !r.Calibrated? ==> focalPx == old(focalPx) && smoothed == old(smoothed)
      ensures bboxWidthPx > 0 && knownWidthCm != 0.0 ==>
                && r == Calibrated(FocalLength(bboxWidthPx, calibDistanceCm, knownWidthCm))
                && focalPx == Some(r.focalPx)
                && smoothed == None
    {
      if bboxWidthPx <= 0 {
        return Rejected;
      }
      if knownWidthCm == 0.0 {
        return ZeroDivision;
      }
      focalPx := Some(bboxWidthPx as real * calibDistanceCm / knownWidthCm);
      smoothed := None;
      return Calibrated(focalPx.value);
    }

    /** Estimate the distance of a box of width `bboxWidthPx`, folded into the
        moving average. */
    method EstimateCm(bboxWidthPx: int) returns (r: Option<real>)
      modifies this`smoothed
      ensures focalPx.None? || bboxWidthPx <= 0 ==> r == None && smoothed == old(smoothed)
      ensures focalPx.Some? && bboxWidthPx > 0 ==>
                && r == Some(Smooth(old(smoothed), alpha, PinholeDistance(knownWidthCm, focalPx.value, bboxWidthPx)))
                && smoothed == r
    {
      if focalPx.None? || bboxWidthPx <= 0 {
        return None;
      }

      var dist := (knownWidthCm * focalPx.value) / bboxWidthPx as real;
      assert dist == PinholeDistance(knownWidthCm, focalPx.value, bboxWidthPx);

      if smoothed.None? {
        smoothed := Some(dist);
      } else {
        ghost var prev := smoothed;
        smoothed := Some((1.0 - alpha) * smoothed.value + alpha * dist);
        assert smoothed.value == Smooth(prev, alpha, dist);
      }

      return smoothed;
    }
  }
}
