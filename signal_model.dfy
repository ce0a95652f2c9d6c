/**
 The traffic signal as values: the three pins it drives, one switching step
 per pattern entry, and a whole cycle over a pattern. The class in
 TrafficSignals is proved to behave exactly as these functions say; the
 lemmas here state what a cycle guarantees.
 */
module SignalModel {
  import opened LedDriver
  import opened Timing

  /** The colour of a signal aspect. */
  datatype Color = Green | Yellow | Red

  /** One pattern entry: the colour to show and how many seconds to hold it. */
  datatype Light = Light(color: Color, sec: U32)

  datatype Option<T> = None | Some(value: T)

  /** The largest hold in seconds whose value in milliseconds fits in 32 bits. */
  const MaxSec: U32 := 4294967

  /** The pins of the green, yellow and red LEDs. */
  datatype Board = Board(green: Pin, yellow: Pin, red: Pin)

  /** The whole board after a step, and how the step ended. */
  datatype Switched = Switched(board: Board, outcome: Outcome)

  /** The board after (part of) a cycle, the delays requested so far, and how it ended. */
  datatype Run = Run(board: Board, delays: seq<nat>, outcome: Outcome)

  function PinFor(b: Board, c: Color): Pin
  {
    match c
    case Green => b.green
    case Yellow => b.yellow
    case Red => b.red
  }

  predicate Lit(b: Board, c: Color)
  {
    PinFor(b, c).high
  }

  /** No pin of the board ever reports an error. */
  predicate Healthy(b: Board)
  {
    && !b.green.failsHigh && !b.green.failsLow
    && !b.yellow.failsHigh && !b.yellow.failsLow
    && !b.red.failsHigh && !b.red.failsLow
  }

  /** Every pin of `a` is the same device as the same pin of `b`. */
  predicate SameFaults(a: Board, b: Board)
  {
    SameDevice(a.green, b.green) && SameDevice(a.yellow, b.yellow) && SameDevice(a.red, b.red)
  }

  /** No pin of the board reports an error when driven low. */
  predicate CanTurnOff(b: Board)
  {
    !b.green.failsLow && !b.yellow.failsLow && !b.red.failsLow
  }

  /** The entry's colour can be turned on and its hold in milliseconds fits in 32 bits. */
  predicate EntryRuns(b: Board, l: Light)
  {
    !PinFor(b, l.color).failsHigh && l.sec <= MaxSec
  }

  /** Every entry of `p` can be shown on board `b` without a halt. */
  predicate Runs(b: Board, p: seq<Light>)
  {
    CanTurnOff(b) && forall i :: 0 <= i < |p| ==> EntryRuns(b, p[i])
  }

  /** All three LEDs are off. */
  predicate Dark(b: Board)
  {
    !Lit(b, Green) && !Lit(b, Yellow) && !Lit(b, Red)
  }

  /** The LED of colour `c` is on and the other two are off. */
  predicate ShowsOnly(b: Board, c: Color)
  {
    Lit(b, Green) == (c == Green) && Lit(b, Yellow) == (c == Yellow) && Lit(b, Red) == (c == Red)
  }

  /** At most one of the three LEDs is on. */
  predicate AtMostOne(b: Board)
  {
    !(Lit(b, Green) && Lit(b, Yellow)) && !(Lit(b, Green) && Lit(b, Red)) && !(Lit(b, Yellow) && Lit(b, Red))
  }

  /** The 32-bit product `sec * 1000`; an overflow halts the program. */
  function DelayMillis(sec: U32): (r: Option<U32>)
    ensures r.Some? <==> sec <= MaxSec
    ensures r.Some? ==> r.value == sec * 1000
  {
    if sec * 1000 <= U32Max then Some(sec * 1000) else None
  }

  /** The holds of a pattern in milliseconds, in pattern order. */
  function Millis(p: seq<Light>): (r: seq<nat>)
    ensures |r| == |p|
    ensures forall i :: 0 <= i < |p| ==> r[i] == p[i].sec * 1000
    decreases |p|
  {
    if p == [] then [] else Millis(p[..|p| - 1]) + [p[|p| - 1].sec * 1000]
  }

  /** Turn off green, then yellow, then red, halting at the first device fault. */
  function OffAll(b: Board): (r: Switched)
    ensures r.outcome == Completed <==> CanTurnOff(b)
    ensures r.outcome == Completed ==> Dark(r.board)
    ensures r.outcome == Completed ==> r.board == b.(green := b.green.(high := false),
                                                     yellow := b.yellow.(high := false),
                                                     red := b.red.(high := false))
    ensures SameFaults(r.board, b)
  {
    var g := Write(b.green, false);
    if g.outcome == Panicked then Switched(b.(green := g.pin), Panicked)
    else
      var y := Write(b.yellow, false);
      if y.outcome == Panicked then Switched(b.(green := g.pin, yellow := y.pin), Panicked)
      else
        var rd := Write(b.red, false);
        Switched(Board(g.pin, y.pin, rd.pin), rd.outcome)
  }

  /** Turn on the LED of colour `c`; the other two pins are not touched. */
  function On(b: Board, c: Color): (r: Switched)
    ensures r.outcome == Completed <==> !PinFor(b, c).failsHigh
    ensures r.outcome == Completed ==> Lit(r.board, c)
    ensures forall c' :: c' != c ==> PinFor(r.board, c') == PinFor(b, c')
    ensures SameFaults(r.board, b)
  {
    match c
    case Green =>
      var w := Write(b.green, true);
      Switched(b.(green := w.pin), w.outcome)
    case Yellow =>
      var w := Write(b.yellow, true);
      Switched(b.(yellow := w.pin), w.outcome)
    case Red =>
      var w := Write(b.red, true);
      Switched(b.(red := w.pin), w.outcome)
  }

  /** One pattern entry: all off, the entry's colour on, then its delay. */
  function Step(b: Board, delays: seq<nat>, l: Light): (r: Run)
    ensures r.outcome == Completed <==> CanTurnOff(b) && EntryRuns(b, l)
    ensures r.outcome == Completed ==> ShowsOnly(r.board, l.color) && r.delays == delays + [l.sec * 1000]
    ensures r.outcome == Panicked ==> r.delays == delays
    ensures SameFaults(r.board, b)
    ensures forall c :: c != l.color && Lit(r.board, c) ==> Lit(b, c)
    ensures !CanTurnOff(b) ==> r.board == OffAll(b).board
  {
    var off := OffAll(b);
    if off.outcome == Panicked then Run(off.board, delays, Panicked)
    else
      var on := On(off.board, l.color);
      if on.outcome == Panicked then Run(on.board, delays, Panicked)
      else
        match DelayMillis(l.sec)
        case None => Run(on.board, delays, Panicked)
        case Some(ms) => Run(on.board, delays + [ms], Completed)
  }

  /** One cycle over the pattern `p` from board `b`, stopping at the first halt. */
  function Cycle(b: Board, p: seq<Light>): (r: Run)
    ensures SameFaults(r.board, b)
    ensures |r.delays| <= |p|
    ensures r.outcome == Completed ==> |r.delays| == |p|
    ensures forall i :: 0 <= i < |r.delays| ==> r.delays[i] == p[i].sec * 1000
    decreases |p|
  {
    if p == [] then Run(b, [], Completed)
    else
      var r := Cycle(b, p[..|p| - 1]);
      if r.outcome == Panicked then r else Step(r.board, r.delays, p[|p| - 1])
  }

  /** A step only appends to the delays requested before it. */
  lemma StepFrom(b: Board, d: seq<nat>, e: seq<nat>, l: Light)
    ensures Step(b, d + e, l) == Run(Step(b, e, l).board, d + Step(b, e, l).delays, Step(b, e, l).outcome)
  {
  }

  /** Boards with the same devices can run the same entries. */
  lemma SameFaultsRun(a: Board, b: Board, p: seq<Light>)
    requires SameFaults(a, b)
    ensures Runs(a, p) <==> Runs(b, p)
  {
    assert forall c :: PinFor(a, c).failsHigh == PinFor(b, c).failsHigh by {
      forall c ensures PinFor(a, c).failsHigh == PinFor(b, c).failsHigh {
        match c
        case Green =>
        case Yellow =>
        case Red =>
      }
    }
  }

  /** A pattern runs exactly when all but its last entry do and the last one does. */
  lemma RunsSplit(b: Board, p: seq<Light>)
    requires p != []
    ensures Runs(b, p) <==> Runs(b, p[..|p| - 1]) && EntryRuns(b, p[|p| - 1])
  {
    var q := p[..|p| - 1];
    assert forall i :: 0 <= i < |q| ==> q[i] == p[i];
  }

  /** On a board whose LEDs can be turned off, turning all off and then one on that can
      be turned on leaves exactly that colour lit. */
  lemma OffThenOnShowsOnly(b: Board, c: Color)
    requires CanTurnOff(b) && !PinFor(b, c).failsHigh
    ensures OffAll(b).outcome == Completed
    ensures On(OffAll(b).board, c).outcome == Completed
    ensures ShowsOnly(On(OffAll(b).board, c).board, c)
  {
  }

  /** After all its LEDs are off, a board is the same whatever it showed before. */
  lemma OffAllForgets(a: Board, b: Board)
    requires SameFaults(a, b) && CanTurnOff(a)
    ensures OffAll(a) == OffAll(b)
  {
  }

  /** After a halt nothing more happens: the rest of the pattern changes nothing. */
  lemma {:induction false} PanicIsFinal(b: Board, p: seq<Light>, k: nat)
    requires k <= |p|
    requires Cycle(b, p[..k]).outcome == Panicked
    ensures Cycle(b, p) == Cycle(b, p[..k])
    decreases |p| - k
  {
    if k < |p| {
      var q := p[..|p| - 1];
      assert q[..k] == p[..k];
      PanicIsFinal(b, q, k);
    } else {
      assert p[..k] == p;
    }
  }

  /** A cycle over a pattern that runs completes, requests one delay of `sec * 1000` ms per
      entry in pattern order, and leaves only the last entry's colour lit. */
  lemma {:induction false} CompletedCycle(b: Board, p: seq<Light>)
    requires Runs(b, p)
    ensures Cycle(b, p).outcome == Completed
    ensures Cycle(b, p).delays == Millis(p)
    ensures p == [] ==> Cycle(b, p).board == b
    ensures p != [] ==> ShowsOnly(Cycle(b, p).board, p[|p| - 1].color)
    decreases |p|
  {
    if p != [] {
      var q := p[..|p| - 1];
      RunsSplit(b, p);
      CompletedCycle(b, q);
      var r := Cycle(b, q);
      SameFaultsRun(r.board, b, [p[|p| - 1]]);
      OffThenOnShowsOnly(r.board, p[|p| - 1].color);
    }
  }

  /** While entry `i` is held, exactly the LED of that entry's colour is on, and the delays
      requested so far are those of the entries up to `i`, provided entries 0..i can be shown
      (whatever the later entries do). */
  lemma HeldDuringEntry(b: Board, p: seq<Light>, i: nat)
    requires i < |p| && Runs(b, p[..i + 1])
    ensures ShowsOnly(Cycle(b, p[..i + 1]).board, p[i].color)
    ensures Cycle(b, p[..i + 1]).delays == Millis(p[..i + 1])
  {
    var q := p[..i + 1];
    assert q[|q| - 1] == p[i];
    CompletedCycle(b, q);
  }

  /** A cycle that starts with at most one LED on never has more than one on, whether it
      completes or halts. */
  lemma {:induction false} CycleKeepsAtMostOne(b: Board, p: seq<Light>)
    requires AtMostOne(b)
    ensures AtMostOne(Cycle(b, p).board)
    decreases |p|
  {
    if p != [] {
      CycleKeepsAtMostOne(b, p[..|p| - 1]);
    }
  }

  /** A non-empty pattern on a board with a pin that cannot be driven low halts in the first
      turn-off-all, before any delay is requested. */
  lemma {:induction false} StuckBoardHaltsAtOnce(b: Board, p: seq<Light>)
    requires p != [] && !CanTurnOff(b)
    ensures Cycle(b, p).outcome == Panicked
    ensures Cycle(b, p).delays == []
    decreases |p|
  {
    var q := p[..|p| - 1];
    if q != [] {
      StuckBoardHaltsAtOnce(b, q);
    }
  }

  /** A cycle completes exactly when the pattern is empty or runs on the board. */
  lemma {:induction false} CycleCompletes(b: Board, p: seq<Light>)
    ensures Cycle(b, p).outcome == Completed <==> (p == [] || Runs(b, p))
    decreases |p|
  {
    if p != [] {
      if Runs(b, p) {
        CompletedCycle(b, p);
      } else if !CanTurnOff(b) {
        StuckBoardHaltsAtOnce(b, p);
      } else {
        var q := p[..|p| - 1];
        RunsSplit(b, p);
        CycleCompletes(b, q);
        SameFaultsRun(Cycle(b, q).board, b, [p[|p| - 1]]);
      }
    }
  }

  /** On a non-empty pattern the delays and the outcome do not depend on the levels the LEDs
      had before the cycle, and when the LEDs can be turned off neither does anything else. */
  lemma {:induction false} IndependentOfStart(a: Board, b: Board, p: seq<Light>)
    requires p != [] && SameFaults(a, b)
    ensures Cycle(a, p).delays == Cycle(b, p).delays
    ensures Cycle(a, p).outcome == Cycle(b, p).outcome
    ensures CanTurnOff(a) ==> Cycle(a, p) == Cycle(b, p)
    decreases |p|
  {
    if !CanTurnOff(a) {
      StuckBoardHaltsAtOnce(a, p);
      StuckBoardHaltsAtOnce(b, p);
    } else {
      var q := p[..|p| - 1];
      if q != [] {
        IndependentOfStart(a, b, q);
      } else {
        OffAllForgets(a, b);
      }
    }
  }

  /** Running a pattern again from where a completed cycle left the board reproduces the
      same run: the same delays, the same outcome and the same final board. */
  lemma Repeatable(b: Board, p: seq<Light>)
    requires Cycle(b, p).outcome == Completed
    ensures Cycle(Cycle(b, p).board, p) == Cycle(b, p)
  {
    if p != [] {
      CycleCompletes(b, p);
      IndependentOfStart(Cycle(b, p).board, b, p);
    }
  }

  /** The three-aspect pattern green 5 s, yellow 2 s, red 3 s. */
  lemma ThreeAspectCycle(b: Board)
    requires Healthy(b)
    ensures Cycle(b, [Light(Green, 5), Light(Yellow, 2), Light(Red, 3)]).delays == [5000, 2000, 3000]
    ensures Cycle(b, [Light(Green, 5), Light(Yellow, 2), Light(Red, 3)]).outcome == Completed
    ensures ShowsOnly(Cycle(b, [Light(Green, 5), Light(Yellow, 2), Light(Red, 3)]).board, Red)
  {
    var p := [Light(Green, 5), Light(Yellow, 2), Light(Red, 3)];
    assert Runs(b, p);
    CompletedCycle(b, p);
    assert Millis(p) == [5000, 2000, 3000];
  }
}
