/** The clock object shared by the clock driver and the peripheral clock
    helpers (cyhal_clock_t and cyhal_clock_block_t of
    include_pvt/cyhal_hw_resources.h). */
module ClockTypes {

  /** cyhal_clock_block_t */
  const PeriScb0: int := 0
  const PeriScb1: int := 1
  const PeriTcpwm: int := 2
  const PeriScb2: int := 3
  const TdmBlock: int := 4
  const AdcMicBlock: int := 5
  const CpuBlock: int := 6

  /** Number of clock blocks, the length of `_cyhal_clock_data`. */
  const ClockBlockCount: int := 7

  predicate IsScbBlock(block: int) { block == PeriScb0 || block == PeriScb1 || block == PeriScb2 }

  /** One of the seven blocks cyhal_clock_block_t names. */
  predicate IsKnownBlock(block: int) { 0 <= block < ClockBlockCount }

  /** cyhal_clock_t.  `block` holds whatever number a caller stored, as in C
      where cyhal_clock_get casts a resource's block number. */
  class ClockObj {
    var block: int
    var channel: int
    var reserved: bool

    /** _CYHAL_CLOCK_CREATE(x): block x, channel 0, not reserved. */
    constructor (b: int)
      ensures block == b && channel == 0 && !reserved
    {
      block := b;
      channel := 0;
      reserved := false;
    }
  }
}
