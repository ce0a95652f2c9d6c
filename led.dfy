/**
 The LED driver: a wrapper that owns one output pin and turns "on" into
 "drive high" and "off" into "drive low". The pin is reduced to its
 electrical level and to whether the device reports an error on a write;
 a reported error is never handed back to the caller but halts the program
 (the `unwrap()` in the driver), which the model records as `Panicked`.
 */
module LedDriver {

  /** How a call ends: it returns normally, or the program halts on a device fault. */
  datatype Outcome = Completed | Panicked

  /** An output pin: its level (true = high), and whether the device reports an error
      when asked to drive it high, and when asked to drive it low. */
  datatype Pin = Pin(high: bool, failsHigh: bool, failsLow: bool)

  /** The device reports an error when asked to drive `pin` to `high`. */
  predicate Fails(pin: Pin, high: bool)
  {
    if high then pin.failsHigh else pin.failsLow
  }

  /** `a` and `b` are the same device, whatever their levels. */
  predicate SameDevice(a: Pin, b: Pin)
  {
    a.failsHigh == b.failsHigh && a.failsLow == b.failsLow
  }

  /** A pin after a write, and how the write ended. */
  datatype PinWrite = PinWrite(pin: Pin, outcome: Outcome)

  /** Drive `pin` to `high`; an error from the device halts the program. */
  function Write(pin: Pin, high: bool): (r: PinWrite)
    ensures r.outcome == Completed <==> !Fails(pin, high)
    ensures SameDevice(r.pin, pin)
    ensures r.outcome == Completed ==> r.pin.high == high
    ensures r.outcome == Panicked ==> r.pin == pin
  {
    if Fails(pin, high) then PinWrite(pin, Panicked) else PinWrite(pin.(high := high), Completed)
  }

  /** A sequence of on (true) and off (false) calls, stopping at the first halt. */
  function Replay(pin: Pin, calls: seq<bool>): (r: PinWrite)
    ensures SameDevice(r.pin, pin)
    ensures r.outcome == Panicked ==> calls != []
    ensures calls != [] && Fails(pin, calls[0]) ==> r == PinWrite(pin, Panicked)
    decreases |calls|
  {
    if calls == [] then PinWrite(pin, Completed)
    else
      var w := Write(pin, calls[0]);
      if w.outcome == Panicked then w else Replay(w.pin, calls[1..])
  }

  /** A sequence of calls returns normally exactly when the device reports no error for
      any of the levels asked for. */
  lemma {:induction false} ReplayCompletes(pin: Pin, calls: seq<bool>)
    ensures Replay(pin, calls).outcome == Completed <==>
              forall i :: 0 <= i < |calls| ==> !Fails(pin, calls[i])
    decreases |calls|
  {
    if calls != [] {
      var w := Write(pin, calls[0]);
      ReplayCompletes(w.pin, calls[1..]);
      assert forall h :: Fails(w.pin, h) == Fails(pin, h);
    }
  }

  /** After any non-empty sequence of calls that returns normally, the pin's level is the
      last call's. */
  lemma {:induction false} LastCallWins(pin: Pin, calls: seq<bool>)
    requires calls != [] && Replay(pin, calls).outcome == Completed
    ensures Replay(pin, calls) == PinWrite(pin.(high := calls[|calls| - 1]), Completed)
    decreases |calls|
  {
    var w := Write(pin, calls[0]);
    if |calls| > 1 {
      LastCallWins(w.pin, calls[1..]);
    }
  }

  /** Turning off twice leaves the same pin, and ends the same way, as turning off once. */
  lemma TurnOffIdempotent(pin: Pin)
    ensures Write(Write(pin, false).pin, false) == Write(pin, false)
    ensures Replay(pin, [false, false]) == Replay(pin, [false])
  {
  }

  /** A device error is never returned: the sequence of calls stops at the first call that
      fails, and the pin is left as that call found it. */
  lemma {:induction false} FaultHalts(pin: Pin, calls: seq<bool>, k: nat)
    requires k < |calls| && Fails(Replay(pin, calls[..k]).pin, calls[k])
    requires Replay(pin, calls[..k]).outcome == Completed
    ensures Replay(pin, calls) == PinWrite(Replay(pin, calls[..k]).pin, Panicked)
    decreases k
  {
    if k > 0 {
      var w := Write(pin, calls[0]);
      assert calls[..k][1..] == calls[1..][..k - 1];
      FaultHalts(w.pin, calls[1..], k - 1);
    }
  }

  /** An LED owning one output pin. */
  class Led {
    /** The level the pin is driven to (true = high = lit). */
    var high: bool
    /** Whether the pin's device reports an error when driven high. */
    const failsHigh: bool
    /** Whether the pin's device reports an error when driven low. */
    const failsLow: bool

    /** The owned pin, as a value. */
    function State(): Pin
      reads this
    {
      Pin(high, failsHigh, failsLow)
    }

    /** Takes the pin over as it is; cannot fail. */
    constructor (pin: Pin)
      ensures State() == pin
    {
      high := pin.high;
      failsHigh := pin.failsHigh;
      failsLow := pin.failsLow;
    }

    /** Drive the pin high; halts if the device reports an error. */
    method TurnOn() returns (o: Outcome)
      modifies this
      ensures PinWrite(State(), o) == Write(old(State()), true)
      ensures o == Completed ==> high
    {
      if failsHigh {
        o := Panicked;
      } else {
        high := true;
        o := Completed;
      }
    }

    /** Drive the pin low; halts if the device reports an error. */
    method TurnOff() returns (o: Outcome)
      modifies this
      ensures PinWrite(State(), o) == Write(old(State()), false)
      ensures o == Completed ==> !high
    {
      if failsLow {
        o := Panicked;
      } else {
        high := false;
        o := Completed;
      }
    }
  }
}
