/** The low-level servo driver: a pulse width per servo that only the clamped
    setter writes, and the pigpio handle as a log of the pulse widths it was sent. */
module Servos {
  import opened Numbers

  /** `max(vmin, min(vmax, v))`, on integers. */
  function Clamp(v: int, lo: int, hi: int): (r: int)
    ensures lo <= hi ==> lo <= r <= hi
    ensures lo <= v <= hi ==> r == v
    ensures v < lo ==> r == lo
    ensures lo <= hi < v ==> r == hi
    ensures hi < lo ==> r == lo
  {
    var m := if hi < v then hi else v;
    if m < lo then lo else m
  }

  /** Clamping a clamped value changes nothing, so writing one pulse width twice
      leaves the servo where writing it once did. */
  lemma ClampIdempotent(v: int, lo: int, hi: int)
    ensures Clamp(Clamp(v, lo, hi), lo, hi) == Clamp(v, lo, hi)
  {
  }

  /** Moving a servo that is within its range by `-step` and clamping never moves
      it against the sign of `step`. */
  lemma ClampedMoveFollowsSign(us: int, step: int, lo: int, hi: int)
    requires lo <= us <= hi
    ensures step >= 0 ==> Clamp(us - step, lo, hi) <= us
    ensures step <= 0 ==> Clamp(us - step, lo, hi) >= us
    ensures step == 0 ==> Clamp(us - step, lo, hi) == us
    ensures Abs(Clamp(us - step, lo, hi) - us) <= Abs(step)
  {
  }

  /** One `set_servo_pulsewidth(pin, width)` call on the pigpio handle. */
  datatype PulseWrite = PulseWrite(pin: int, width: int)

  /** The pigpio connection, reduced to what the driver sends through it. */
  class Pigpio {
    /** Every pulse width sent, oldest first. */
    var writes: seq<PulseWrite>
    /** Set by `stop()`, which closes the connection. */
    var released: bool

    constructor ()
      ensures writes == [] && !released
    {
      writes := [];
      released := false;
    }

    method SetServoPulsewidth(pin: int, width: int)
      modifies this
      ensures writes == old(writes) + [PulseWrite(pin, width)]
      ensures released == old(released)
    {
      writes := writes + [PulseWrite(pin, width)];
    }

    method Stop()
      modifies this
      ensures released
      ensures writes == old(writes)
    {
      released := true;
    }
  }

  class Servo {
    const pi: Pigpio
    const pin: int
    const usMin: int
    const usMax: int
    /** The current pulse width in microseconds. */
    var us: int

    /** The driver's invariant: the stored pulse width is a clamped one. */
    ghost predicate Valid()
      reads this
    {
      usMin <= usMax ==> usMin <= us <= usMax
    }

    constructor (pi: Pigpio, pin: int, usMin: int, usMax: int, usCenter: int)
      modifies pi
      ensures Valid()
      ensures this.pi == pi && this.pin == pin && this.usMin == usMin && this.usMax == usMax
      ensures us == Clamp(usCenter, usMin, usMax)
      ensures usMin <= usMax ==> usMin <= us <= usMax
      ensures pi.writes == old(pi.writes) + [PulseWrite(pin, us)]
      ensures pi.released == old(pi.released)
    {
      this.pi := pi;
      this.pin := pin;
      this.usMin := usMin;
      this.usMax := usMax;
      us := usCenter;
      new;
      SetUs(us);
    }

    /** Store the clamped pulse width and send it to the pin. */
    method SetUs(v: int)
      modifies this, pi
      ensures Valid()
      ensures us == Clamp(v, usMin, usMax)
      ensures usMin <= usMax ==> usMin <= us <= usMax
      ensures usMin <= v <= usMax ==> us == v
      ensures pi.writes == old(pi.writes) + [PulseWrite(pin, us)]
      ensures pi.released == old(pi.released)
    {
      us := Clamp(v, usMin, usMax);
      pi.SetServoPulsewidth(pin, us);
    }

    /** Send pulse width 0, which disables the servo pulses; nothing stored changes,
        so a second stop sends the same 0 and leaves the same state. */
    method Stop()
      modifies pi
      ensures us == old(us)
      ensures pi.writes == old(pi.writes) + [PulseWrite(pin, 0)]
      ensures pi.released == old(pi.released)
    {
      pi.SetServoPulsewidth(pin, 0);
    }
  }
}
