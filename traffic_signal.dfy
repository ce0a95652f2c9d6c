/**
 The traffic-signal controller: owns the green, yellow and red LEDs and
 runs one cycle of a pattern by turning all LEDs off, turning on the one
 of the entry's colour and asking the delay service to wait, entry after
 entry. Each method is proved to do exactly what its function in
 SignalModel says.
 */
module TrafficSignals {
  import opened LedDriver
  import opened Timing
  import opened SignalModel

  class TrafficSignal {
    const green: Led
    const yellow: Led
    const red: Led

    /** The controller owns three different LEDs. */
    ghost predicate Valid()
      reads this
    {
      green != yellow && yellow != red && green != red
    }

    /** The three pins, as a value. */
    function Pins(): Board
      reads green, yellow, red
    {
      Board(green.State(), yellow.State(), red.State())
    }

    /** Takes the three LEDs over, each in its own colour's place; cannot fail. */
    constructor (green: Led, yellow: Led, red: Led)
      requires green != yellow && yellow != red && green != red
      ensures Valid()
      ensures this.green == green && this.yellow == yellow && this.red == red
      ensures Pins() == Board(old(green.State()), old(yellow.State()), old(red.State()))
    {
      this.green := green;
      this.yellow := yellow;
      this.red := red;
    }

    /** Turn off green, yellow and red in that order. */
    method TurnOffAllLeds() returns (o: Outcome)
      requires Valid()
      modifies green, yellow, red
      ensures Switched(Pins(), o) == OffAll(old(Pins()))
      ensures o == Completed ==> !green.high && !yellow.high && !red.high
    {
      o := green.TurnOff();
      if o == Panicked {
        return;
      }
      o := yellow.TurnOff();
      if o == Panicked {
        return;
      }
      o := red.TurnOff();
    }

    /** Turn on the LED of colour `color`, leaving the other two as they are. */
    method TurnOn(color: Color) returns (o: Outcome)
      requires Valid()
      modifies green, yellow, red
      ensures Switched(Pins(), o) == On(old(Pins()), color)
      ensures o == Completed ==> Lit(Pins(), color)
    {
      match color
      case Green => o := green.TurnOn();
      case Yellow => o := yellow.TurnOn();
      case Red => o := red.TurnOn();
    }

    /** One pattern entry: all off, the entry's colour on, then its hold on `delay`. */
    method ShowEntry(l: Light, delay: Delay) returns (o: Outcome)
      requires Valid()
      modifies green, yellow, red, delay
      ensures Run(Pins(), delay.requested, o) == Step(old(Pins()), old(delay.requested), l)
    {
      o := TurnOffAllLeds();
      if o == Panicked {
        return;
      }
      o := TurnOn(l.color);
      if o == Panicked {
        return;
      }
      if l.sec * 1000 > U32Max {
        o := Panicked;
        return;
      }
      delay.DelayMs(l.sec * 1000);
    }

    /** One cycle over `pattern`: for each entry, all off, its colour on, then its delay. */
    method RunCycle(pattern: seq<Light>, delay: Delay) returns (o: Outcome)
      requires Valid()
      modifies green, yellow, red, delay
      ensures Pins() == Cycle(old(Pins()), pattern).board
      ensures delay.requested == old(delay.requested) + Cycle(old(Pins()), pattern).delays
      ensures o == Cycle(old(Pins()), pattern).outcome
      ensures pattern == [] ==> Pins() == old(Pins()) && delay.requested == old(delay.requested)
      ensures Runs(old(Pins()), pattern) ==>
                o == Completed && delay.requested == old(delay.requested) + Millis(pattern)
      ensures Runs(old(Pins()), pattern) && pattern != [] ==>
                ShowsOnly(Pins(), pattern[|pattern| - 1].color)
    {
      ghost var b0 := Pins();
      ghost var d0 := delay.requested;
      o := Completed;
      for i := 0 to |pattern|
        invariant o == Completed && Cycle(b0, pattern[..i]).outcome == Completed
        invariant Pins() == Cycle(b0, pattern[..i]).board
        invariant delay.requested == d0 + Cycle(b0, pattern[..i]).delays
      {
        ghost var before := Cycle(b0, pattern[..i]);
        assert pattern[..i + 1][..i] == pattern[..i];
        StepFrom(before.board, d0, before.delays, pattern[i]);
        o := ShowEntry(pattern[i], delay);
        if o == Panicked {
          PanicIsFinal(b0, pattern, i + 1);
          return;
        }
      }
      assert pattern[..|pattern|] == pattern;
      if Runs(b0, pattern) {
        CompletedCycle(b0, pattern);
      }

    }
  }
}
