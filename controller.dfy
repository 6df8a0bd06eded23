/** The pan-tilt controller: pixel error in, bounded pulse-width corrections out,
    rate-limited by the time of the last accepted update. */
module Controller {
  import opened Numbers
  import Servos

  /** The tuning constants the controller reads from the configuration. */
  datatype ControllerConfig = ControllerConfig(
    panPin: int, panUsMin: int, panUsMax: int, panUsCenter: int,
    tiltPin: int, tiltUsMin: int, tiltUsMax: int, tiltUsCenter: int,
    updateS: real,     // least time between two accepted updates, in seconds
    kpPan: real,       // microseconds per pixel of horizontal error
    kpTilt: real,      // microseconds per pixel of vertical error
    maxStepUs: real,   // step cap in the band farthest from the centre
    panInvert: bool,
    tiltInvert: bool)

  /** `max(vmin, min(vmax, v))`, on reals. */
  function Clamp(v: real, lo: real, hi: real): (r: real)
    ensures lo <= hi ==> lo <= r <= hi
    ensures lo <= v <= hi ==> r == v
    ensures v < lo ==> r == lo
    ensures lo <= hi < v ==> r == hi
  {
    var m := if hi < v then hi else v;
    if m < lo then lo else m
  }

  /** The error magnitude the step schedule looks at: `max(|ex|, |ey|)`. */
  function Magnitude(errorX: int, errorY: int): (m: nat)
    ensures m >= Abs(errorX) && m >= Abs(errorY)
    ensures m == Abs(errorX) || m == Abs(errorY)
  {
    Max(Abs(errorX), Abs(errorY))
  }

  /** The step cap: the configured cap scaled by a factor that shrinks, band by
      band, as the target nears the centre. */
  function ScaledMaxStep(maxStepUs: real, errorX: int, errorY: int): (r: real)
    ensures Magnitude(errorX, errorY) >= 200 ==> r == maxStepUs * 1.0
    ensures 120 <= Magnitude(errorX, errorY) < 200 ==> r == maxStepUs * 0.8
    ensures 60 <= Magnitude(errorX, errorY) < 120 ==> r == maxStepUs * 0.45
    ensures Magnitude(errorX, errorY) < 60 ==> r == maxStepUs * 0.18
  {
    var mag := Magnitude(errorX, errorY);
    var scale := 1.0;
    var scale := if mag < 200 then 0.8 else scale;
    var scale := if mag < 120 then 0.45 else scale;
    var scale := if mag < 60 then 0.18 else scale;
    maxStepUs * scale
  }

  /** With a non-negative cap, the schedule never shrinks as the error grows, and
      never exceeds the configured cap. */
  lemma ScaledMaxStepMonotone(maxStepUs: real, ex1: int, ey1: int, ex2: int, ey2: int)
    requires maxStepUs >= 0.0
    requires Magnitude(ex1, ey1) <= Magnitude(ex2, ey2)
    ensures 0.0 <= ScaledMaxStep(maxStepUs, ex1, ey1) <= ScaledMaxStep(maxStepUs, ex2, ey2)
    ensures ScaledMaxStep(maxStepUs, ex2, ey2) <= maxStepUs
  {
  }

  /** The whole number of microseconds one axis is moved back by, for the
      proportional delta `delta = kp * error`: `int(±clamp(delta, -cap, cap))`, the
      sign flipped when the axis is inverted. */
  function AxisStep(delta: real, cap: real, invert: bool): int
  {
    var d := Clamp(delta, -cap, cap);
    var d := if invert then -d else d;
    Trunc(d)
  }

  /** What the step of one axis can be, whatever the delta. */
  lemma AxisStepProps(delta: real, cap: real, invert: bool)
    // the step never exceeds the cap, because the clamp comes before the inversion
    ensures cap >= 0.0 ==> Abs(AxisStep(delta, cap, invert)) as real <= cap
    // a delta below one microsecond is truncated away, and no residue is kept
    ensures cap >= 0.0 && AbsReal(delta) < 1.0 ==> AxisStep(delta, cap, invert) == 0
    // inside the cap the step is the truncated delta
    ensures AbsReal(delta) <= cap ==> AxisStep(delta, cap, invert) == Trunc(if invert then -delta else delta)
    // sign rule: the step has the sign of the delta, reversed by the invert flag
    ensures cap >= 0.0 && delta >= 0.0 ==> (if invert then AxisStep(delta, cap, invert) <= 0 else AxisStep(delta, cap, invert) >= 0)
    ensures cap >= 0.0 && delta <= 0.0 ==> (if invert then AxisStep(delta, cap, invert) >= 0 else AxisStep(delta, cap, invert) <= 0)
  {
  }

  /** AxisStep as the controller computes it: clamp, then flip, then truncate. */
  lemma AxisStepSteps(delta: real, cap: real, invert: bool, d: real)
    requires d == (if invert then -Clamp(delta, -cap, cap) else Clamp(delta, -cap, cap))
    ensures Trunc(d) == AxisStep(delta, cap, invert)
  {
  }

  /** A positive error with a positive gain never raises the pulse width of a
      non-inverted axis, and never lowers that of an inverted one. */
  lemma PositiveErrorDirection(kp: real, error: int, cap: real, invert: bool, us: int, lo: int, hi: int)
    requires kp > 0.0 && error > 0 && cap >= 0.0
    requires lo <= us <= hi
    ensures !invert ==> Servos.Clamp(us - AxisStep(kp * error as real, cap, invert), lo, hi) <= us
    ensures invert ==> Servos.Clamp(us - AxisStep(kp * error as real, cap, invert), lo, hi) >= us
  {
    assert kp * error as real > 0.0;
    AxisStepProps(kp * error as real, cap, invert);
    Servos.ClampedMoveFollowsSign(us, AxisStep(kp * error as real, cap, invert), lo, hi);
  }

  /** Per accepted update an axis within its range moves by at most the scheduled cap. */
  lemma MoveWithinCap(delta: real, cap: real, invert: bool, us: int, lo: int, hi: int)
    requires cap >= 0.0
    requires lo <= us <= hi
    ensures Abs(Servos.Clamp(us - AxisStep(delta, cap, invert), lo, hi) - us) as real <= cap
  {
    AxisStepProps(delta, cap, invert);
    Servos.ClampedMoveFollowsSign(us, AxisStep(delta, cap, invert), lo, hi);
  }

  /** The rate limit: less than `updateS` seconds since the last accepted update. */
  predicate TooSoon(lastUpdate: real, now: real, updateS: real)
  {
    now - lastUpdate < updateS
  }

  class PanTiltController {
    const pi: Servos.Pigpio
    const pan: Servos.Servo
    const tilt: Servos.Servo
    const cfg: ControllerConfig
    /** Time of the last accepted update, in seconds. */
    var lastUpdate: real

    ghost predicate Valid()
      reads this, pan, tilt
    {
      pan != tilt && pan.pi == pi && tilt.pi == pi && pan.Valid() && tilt.Valid()
    }

    /** Build both servos at their centres; the pigpio connection is given. */
    constructor (pi: Servos.Pigpio, cfg: ControllerConfig)
      modifies pi
      ensures Valid() && fresh(pan) && fresh(tilt)
      ensures this.pi == pi && this.cfg == cfg && lastUpdate == 0.0
      ensures pan.pin == cfg.panPin && pan.usMin == cfg.panUsMin && pan.usMax == cfg.panUsMax
      ensures tilt.pin == cfg.tiltPin && tilt.usMin == cfg.tiltUsMin && tilt.usMax == cfg.tiltUsMax
      ensures pan.us == Servos.Clamp(cfg.panUsCenter, cfg.panUsMin, cfg.panUsMax)
      ensures tilt.us == Servos.Clamp(cfg.tiltUsCenter, cfg.tiltUsMin, cfg.tiltUsMax)
      ensures pi.writes == old(pi.writes) + [Servos.PulseWrite(pan.pin, pan.us), Servos.PulseWrite(tilt.pin, tilt.us)]
      ensures pi.released == old(pi.released)
    {
      this.pi := pi;
      this.cfg := cfg;
      var p := new Servos.Servo(pi, cfg.panPin, cfg.panUsMin, cfg.panUsMax, cfg.panUsCenter);
      var t := new Servos.Servo(pi, cfg.tiltPin, cfg.tiltUsMin, cfg.tiltUsMax, cfg.tiltUsCenter);
      pan := p;
      tilt := t;
      lastUpdate := 0.0;
    }

    /** One control step for the error `(errorX, errorY)` observed at time `now`. */
    method Update(errorX: int, errorY: int, now: real)
      requires Valid()
      modifies this, pan, tilt, pi
      ensures Valid()
      ensures pi.released == old(pi.released)
      // rate-limited: nothing changes
      ensures TooSoon(old(lastUpdate), now, cfg.updateS) ==>
                lastUpdate == old(lastUpdate) && pan.us == old(pan.us) && tilt.us == old(tilt.us)
                && pi.writes == old(pi.writes)
      // accepted: the time is recorded even when there is nothing to correct
      ensures !TooSoon(old(lastUpdate), now, cfg.updateS) ==> lastUpdate == now
      ensures !TooSoon(old(lastUpdate), now, cfg.updateS) && errorX == 0 && errorY == 0 ==>
                pan.us == old(pan.us) && tilt.us == old(tilt.us) && pi.writes == old(pi.writes)
      // accepted with an error: each axis moves back by its step, clamped to its range
      ensures !TooSoon(old(lastUpdate), now, cfg.updateS) && !(errorX == 0 && errorY == 0) ==>
                && pan.us == Servos.Clamp(old(pan.us) - AxisStep(cfg.kpPan * errorX as real, ScaledMaxStep(cfg.maxStepUs, errorX, errorY), cfg.panInvert), pan.usMin, pan.usMax)
                && tilt.us == Servos.Clamp(old(tilt.us) - AxisStep(cfg.kpTilt * errorY as real, ScaledMaxStep(cfg.maxStepUs, errorX, errorY), cfg.tiltInvert), tilt.usMin, tilt.usMax)
                && pi.writes == old(pi.writes) + [Servos.PulseWrite(pan.pin, pan.us), Servos.PulseWrite(tilt.pin, tilt.us)]
      // whatever happens, each axis stays within its travel
      ensures pan.usMin <= pan.usMax ==> pan.usMin <= pan.us <= pan.usMax
      ensures tilt.usMin <= tilt.usMax ==> tilt.usMin <= tilt.us <= tilt.usMax
    {
      if TooSoon(lastUpdate, now, cfg.updateS) {
        return;
      }
      lastUpdate := now;

      if errorX == 0 && errorY == 0 {
        return;
      }

      // proportional delta per axis
      var dPan := cfg.kpPan * errorX as real;
      var dTilt := cfg.kpTilt * errorY as real;

      // cap per update, with the slow zone near the centre
      var maxStep := ScaledMaxStep(cfg.maxStepUs, errorX, errorY);
      dPan := Clamp(dPan, -maxStep, maxStep);
      dTilt := Clamp(dTilt, -maxStep, maxStep);

      // direction flips
      dPan := if cfg.panInvert then -dPan else dPan;
      dTilt := if cfg.tiltInvert then -dTilt else dTilt;

      AxisStepSteps(cfg.kpPan * errorX as real, maxStep, cfg.panInvert, dPan);
      AxisStepSteps(cfg.kpTilt * errorY as real, maxStep, cfg.tiltInvert, dTilt);
      // subtracting moves toward reducing the error
      pan.SetUs(pan.us - Trunc(dPan));
      tilt.SetUs(tilt.us - Trunc(dTilt));
    }

    /** Stop both servos' pulses and release the pigpio connection. */
    method Close()
      requires Valid()
      modifies pi
      ensures Valid()
      ensures pan.us == old(pan.us) && tilt.us == old(tilt.us)
      ensures pi.writes == old(pi.writes) + [Servos.PulseWrite(pan.pin, 0), Servos.PulseWrite(tilt.pin, 0)]
      ensures pi.released
    {
      pan.Stop();
      tilt.Stop();
      pi.Stop();
    }
  }
}
