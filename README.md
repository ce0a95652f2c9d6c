# pico-signal traffic-signal controller, modelled in Dafny

This project models the core of a Raspberry Pi Pico traffic signal. A
`TrafficSignal` controller owns a green, a yellow and a red LED. It runs a
pattern of `(colour, seconds)` entries. For each entry it turns all three
LEDs off, turns on the LED of the entry's colour, and asks the busy-wait
delay to block for `seconds * 1000` milliseconds. Each `Led` owns one output
pin. "On" means driving the pin high and "off" means driving it low. A
device error is never returned to the caller: the `unwrap()` halts the
program.

Files:

- `led.dfy` (module `LedDriver`): a pin as a value (`Pin`), one write to it
  as a function (`Write`), a sequence of writes (`Replay`) with its lemmas, and
  the class `Led`, whose `TurnOn`/`TurnOff` change its `high` field in place.
- `delay.dfy` (module `Timing`): the 32-bit integer type and the delay service
  `Delay`. Its ghost field records the milliseconds each call requested.
- `signal_model.dfy` (module `SignalModel`): `Color`, `Light`, the three pins as
  a `Board`, and one cycle over a pattern as pure functions (`OffAll`, `On`,
  `Step`, `Cycle`). The lemmas here state what a cycle guarantees.
- `traffic_signal.dfy` (module `TrafficSignals`): the class `TrafficSignal`.
  Its methods are proved to change the LEDs and the delay trace exactly as the
  functions of `SignalModel` say.

How faults and halts are modelled:

- A halt is the outcome `Panicked`. Once a call panics, nothing after it runs.
  The methods return at once, and `Cycle` stops appending delays.
- Each device has two independent fault flags. With `failsHigh` it reports an
  error every time it is asked to drive its pin high. With `failsLow` it reports
  an error every time it is asked to drive its pin low. A device may fail high,
  low, both, or neither. A write that fails leaves the pin's level as it was.
- There are three ways one pattern entry can halt:
  - a pin cannot be driven low during the turn-off-all step;
  - the entry's LED cannot be driven high;
  - `sec * 1000` overflows `u32`, i.e. `sec > 4294967`. The model follows Rust
    with overflow checks enabled, where the multiplication panics.
- The constructor of `TrafficSignal` requires three distinct LEDs. In Rust,
  ownership guarantees this, because the three LEDs are moved into the struct.

`src/main.rs` does not build the controller. It declares no `traffic_signal`
or `driver` module, and it runs a raw-pin loop hard-coded to 5, 2 and 3
seconds (src/main.rs:65-86). `src/traffic_signal.rs` also calls `turn_on`/`turn_off`
without importing the `LedController` trait, so the controller is never
compiled in the repository as it stands. The model follows the controller's
code as written. The endless loop is represented by the lemmas about running
a cycle again (`Repeatable`, `IndependentOfStart`).

## Model

| member | source | states |
|---|---|---|
| `LedDriver.Write` | src/driver/led.rs:42-49 | a write completes exactly when the device does not report an error for that level; it then leaves the pin at that level; on an error the pin is unchanged and the result is a halt |
| `LedDriver.Led.constructor` | src/driver/led.rs:31-33 | `Led::new` takes the pin over exactly as given and cannot fail |
| `LedDriver.Led.TurnOn` | src/driver/led.rs:42-44 | the new pin is the result of writing high to the old one; when it returns normally the pin is high |
| `LedDriver.Led.TurnOff` | src/driver/led.rs:47-49 | the new pin is the result of writing low to the old one; when it returns normally the pin is low |
| `LedDriver.Replay` | src/driver/led.rs:42-49 | a sequence of `turn_on`/`turn_off` calls never changes which directions the device fails; it halts only if there was a call; if the first call fails, it halts at once and leaves the pin untouched |
| `LedDriver.TurnOffIdempotent` | src/driver/led.rs:47-49 | turning off twice gives the same pin and the same outcome as turning off once |
| `LedDriver.ReplayCompletes` | src/driver/led.rs:42-49 | a sequence of `turn_on`/`turn_off` calls returns normally if and only if the device reports no error for any level asked for, so a device that fails only one direction returns normally on calls that never ask for it |
| `LedDriver.LastCallWins` | src/driver/led.rs:42-49 | after any non-empty sequence of on/off calls that returns normally, on any device, the level is the last call's and nothing else about the pin changed |
| `LedDriver.FaultHalts` | src/driver/led.rs:42-49 | a device error is never returned: the first call that fails halts the sequence, and the pin stays as that call found it |
| `Timing.Delay.DelayMs` | src/traffic_signal.rs:74 | each delay call appends its milliseconds to the recorded trace and changes nothing else |
| `SignalModel.DelayMillis` | src/traffic_signal.rs:74 | the 32-bit product `sec * 1000` exists exactly when `sec <= 4294967`, and then equals `sec * 1000`; otherwise the program halts |
| `SignalModel.Millis` | src/traffic_signal.rs:71-75 | the holds of a pattern in milliseconds: one per entry, in pattern order, `sec * 1000` each |
| `SignalModel.OffAll` | src/traffic_signal.rs:79-83 | turning all off completes exactly when every pin can be driven low; it then leaves all three LEDs off, whatever they showed before, and nothing else changed; no device changes |
| `SignalModel.On` | src/traffic_signal.rs:86-92 | turning on colour `c` completes exactly when that LED can be driven high; it then leaves that LED lit; the other two pins are unchanged in every case |
| `SignalModel.Step` | src/traffic_signal.rs:72-74 | one entry completes exactly when every pin can be driven low, the entry's LED can be driven high and its hold fits in 32 bits; it then shows only the entry's colour and appends `sec * 1000` ms; on a halt no delay is appended; no colour other than the entry's becomes lit, whatever the outcome; when a pin cannot be driven low the board is exactly that of the failed turn-off-all, so no LED is turned on; no device changes |
| `SignalModel.Cycle` | src/traffic_signal.rs:70-76 | a cycle never changes which devices fail; it requests at most one delay per entry, exactly one per entry when it completes, and the i-th delay is entry i's `sec * 1000` |
| `SignalModel.OffThenOnShowsOnly` | src/traffic_signal.rs:72-73 | when every pin can be driven low and the colour's pin can be driven high, turning all off and then that colour on leaves exactly one LED lit, the one of that colour |
| `SignalModel.OffAllForgets` | src/traffic_signal.rs:79-83 | when every pin can be driven low, the board after turning all off does not depend on the levels before |
| `SignalModel.PanicIsFinal` | src/traffic_signal.rs:71-75 | once an entry halts, the remaining entries change nothing: no LED write and no delay |
| `SignalModel.CompletedCycle` | src/traffic_signal.rs:71-75 | when every entry can be shown, the cycle completes, requests exactly `[l.sec * 1000 for l in pattern]` in order, leaves the board as it was for an empty pattern (stated here on a board whose pins can be driven low; `RunCycle` states it for every board), and otherwise leaves only the last entry's LED lit |
| `SignalModel.HeldDuringEntry` | src/traffic_signal.rs:71-75 | when entries 0..i can be shown, whatever the later entries do, while entry i is held exactly the LED of entry i's colour is on, and the delays requested so far are those of entries 0..i |
| `SignalModel.StuckBoardHaltsAtOnce` | src/traffic_signal.rs:71-72 | on a non-empty pattern, a pin that cannot be driven low halts the first turn-off-all, before any delay |
| `SignalModel.CycleCompletes` | src/traffic_signal.rs:71-75 | a cycle completes if and only if the pattern is empty or every entry can be shown (its pins switch and its hold fits in 32 bits) |
| `SignalModel.IndependentOfStart` | src/traffic_signal.rs:71-75 | on a non-empty pattern, the delays and the outcome do not depend on the LED levels before the call; when the pins can be driven low, neither does the final board |
| `SignalModel.Repeatable` | src/traffic_signal.rs:70-76 | running a pattern again after a completed cycle reproduces the same delays, outcome and final board |
| `SignalModel.CycleKeepsAtMostOne` | src/traffic_signal.rs:71-75 | a cycle that starts with at most one LED lit never leaves more than one lit, whether it completes or halts part-way |
| `SignalModel.ThreeAspectCycle` | src/traffic_signal.rs:70-76 | on a board whose pins never fail, the pattern green 5 s, yellow 2 s, red 3 s requests 5000, 2000 and 3000 ms, completes, and ends with only red lit |
| `TrafficSignals.TrafficSignal.constructor` | src/traffic_signal.rs:57-67 | the three LEDs are stored in their dedicated green, yellow and red places, and their pins are what they were before construction; construction cannot fail |
| `TrafficSignals.TrafficSignal.TurnOffAllLeds` | src/traffic_signal.rs:79-83 | the LEDs change exactly as `OffAll` says; on a normal return all three are off |
| `TrafficSignals.TrafficSignal.TurnOn` | src/traffic_signal.rs:86-92 | the LEDs change exactly as `On` says; on a normal return the colour's LED is lit |
| `TrafficSignals.TrafficSignal.ShowEntry` | src/traffic_signal.rs:72-74 | one loop iteration: the LEDs, the appended delay and the outcome are exactly those of `Step`, i.e. all off, the entry's colour on, then its `sec * 1000` ms unless an earlier part halted |
| `TrafficSignals.TrafficSignal.RunCycle` | src/traffic_signal.rs:70-76 | the LEDs, the appended delay trace and the outcome are exactly those of `Cycle`; an empty pattern changes nothing; a pattern that can be shown completes, requests its `Millis` and leaves only the last colour lit |

## Left out

- Everything in `src/main.rs` is left out: clock and PLL set-up, the watchdog, pin-bank acquisition, push-pull configuration, the superseded raw-pin loop and `delay_sec`. It is hardware bring-up or a forwarding call into the HAL.
- Real time is not modelled. The busy-wait `cortex_m::delay::Delay` is reduced to a recorded trace of requested milliseconds.
- The endless outer loop around `run_cycle` is not modelled, because it does not terminate. Repeating a cycle is stated by `Repeatable` and `IndependentOfStart` instead.
- The `embedded_hal` `OutputPin` trait, its error types and the `Debug` bounds are foreign library code. A pin is reduced to a level plus two fault flags. The generic parameters of `Led<T>` and `TrafficSignal<G, Y, R>` collapse to one `Led` class.
- The `LedController` trait cannot be expressed, because traits are not used here. Its two operations are methods of `Led`.
- Intermittent device faults are not modelled. A device that fails a direction fails it every time. The level after a failed write is taken to be unchanged, because `embedded_hal` does not specify it.
- The logging and panic infrastructure (`defmt_rtt`, `panic_probe`) is I/O, so it is left out. A panic is only the `Panicked` outcome.
- SignalModel.DelayMillis: models `sec * 1000` with Rust's overflow checks enabled, so an overflow halts. A build without overflow checks would wrap modulo 2^32 instead, and that behaviour is not modelled.
