/**
 The busy-wait delay service. Real time is not modelled: the service only
 records, in order, the number of milliseconds each call asked it to wait.
 */
module Timing {

  /** An unsigned 32-bit integer, the type of the delay service's argument. */
  type U32 = x: int | 0 <= x < 0x1_0000_0000

  const U32Max: U32 := 0xFFFF_FFFF

  class Delay {
    /** The milliseconds requested so far, oldest first. */
    ghost var requested: seq<nat>

    constructor ()
      ensures requested == []
    {
      requested := [];
    }

    /** Block for `ms` milliseconds; recorded, never fails. */
    method DelayMs(ms: U32)
      modifies this
      ensures requested == old(requested) + [ms]
    {
      requested := requested + [ms];
    }
  }
}
