/** Peripheral clock helpers and resource utilities
    (source/cyhal_utils_impl.c).  Clock dividers are dedicated: every clocked
    block has its own clock block, and `_cyhal_clock_data` remembers the last
    divider and frequency set on each.  The PDL routines Cy_SCB_EnableClock
    and Cy_TCPWM_EnableClock are foreign: the frequency the first reports is
    an input, and the selector passed to the second is returned. */
module UtilsImpl {
  import opened Results
  import opened Resources
  import opened CTypes
  import opened Options
  import opened ClockTypes
  import HwMgr
  import HwMgrLayout

  /** SCB_IP_SYS_CLK_MAX_FREQUENCY: the SCB system clock runs at most at 192 MHz. */
  const ScbMaxFrequency: uint32 := 192_000_000

  /** One entry of `_cyhal_clock_data`. */
  datatype ClockCfg = ClockCfg(div: uint32, freq: uint32)

  /** _cyhal_utils_get_peripheral_clock_frequency.  The TCPWM maximum
      (TCPWM_IP_SYS_CLK_MAX_FREQUENCY) is defined outside this model and is
      a parameter. */
  function PeripheralClockFrequency(t: Rsc, tcpwmMax: uint32): (f: uint32)
    ensures t == Scb ==> f == ScbMaxFrequency
    ensures t == Tcpwm ==> f == tcpwmMax
    ensures t != Scb && t != Tcpwm ==> f == 0
  {
    if t == Scb then ScbMaxFrequency else if t == Tcpwm then tcpwmMax else 0
  }

  /** The clock block `_cyhal_utils_allocate_clock` gives a clocked item:
      SCB n uses clock n except SCB2, whose clock block is PERI_SCB2 (3);
      TCPWM and TDM use their own blocks; other types have none. */
  function DedicatedClock(item: Inst): (b: Option<int>)
    ensures b.Some? <==> item.kind in {Scb, Tcpwm, Tdm}
    ensures item.kind == Tcpwm ==> b == Some(PeriTcpwm)
    ensures item.kind == Tdm ==> b == Some(TdmBlock)
    ensures item.kind == Scb && 0 <= item.block <= 2 ==> b.Some? && IsScbBlock(b.value)
  {
    match item.kind
    case Scb => Some(item.block + if item.block == 2 then 1 else 0)
    case Tcpwm => Some(PeriTcpwm)
    case Tdm => Some(TdmBlock)
    case _ => None
  }

  /** The SCB number a SCB clock block serves. */
  function ScbOfClock(b: int): (n: int)
    requires IsScbBlock(b)
    ensures 0 <= n <= 2
  {
    if b == PeriScb2 then 2 else b
  }

  /** The three SCB blocks get three different clock blocks, none of them the
      TCPWM clock, and each clock block leads back to its SCB. */
  lemma ScbClocksDedicated(item: Inst)
    requires item.kind == Scb && 0 <= item.block <= 2
    ensures DedicatedClock(item).value != PeriTcpwm
    ensures ScbOfClock(DedicatedClock(item).value) == item.block
  {
  }

  /** _cyhal_utils_allocate_clock: fills in the dedicated clock and marks it
      reserved, or reports status 1 and leaves the clock alone. */
  method AllocateClock(clock: ClockObj, item: Inst) returns (r: Rslt)
    modifies clock
    ensures DedicatedClock(item).Some? ==>
      r == Success && clock.block == DedicatedClock(item).value && clock.reserved &&
      clock.channel == old(clock.channel)
    ensures DedicatedClock(item).None? ==> r == Rom(1) && unchanged(clock)
  {
    r := Success;
    if item.kind == Scb {
      clock.block := item.block + if item.block == 2 then 1 else 0;
      clock.reserved := true;
    } else if item.kind == Tcpwm {
      clock.block := PeriTcpwm;
      clock.reserved := true;
    } else if item.kind == Tdm {
      clock.block := TdmBlock;
      clock.reserved := true;
    } else {
      r := Rom(1);
    }
  }

  /** TCPWM_TPORT_CLK_DIV_SEL_t: a small selector computed from the divider,
      or one of the two named selectors. */
  datatype DivSel = SelSmall(n: nat) | SelDiv16 | SelDiv32

  const SmallDividers: set<int> := {1, 2, 4, 6, 8, 10, 12}
  /** The divide ratios the TCPWM clock supports. */
  const TcpwmDividers: set<int> := SmallDividers + {16, 32}

  /** The selector the switch in `_cyhal_utils_peri_pclk_set_divider` picks
      for a divide ratio: ((ratio - 1) / 2) + 1 for the small ratios. */
  function DividerSelector(actual: uint32): (s: Option<DivSel>)
    ensures s.Some? <==> actual in TcpwmDividers
    ensures actual == 16 ==> s == Some(SelDiv16)
    ensures actual == 32 ==> s == Some(SelDiv32)
    ensures actual in SmallDividers ==> s.Some? && s.value.SelSmall? && 1 <= s.value.n <= 6
  {
    if actual in SmallDividers then Some(SelSmall((actual - 1) / 2 + 1))
    else if actual == 16 then Some(SelDiv16)
    else if actual == 32 then Some(SelDiv32)
    else None
  }

  /** The small selectors are ratio/2 for the even ratios, and ratio 1 gets
      the same selector as ratio 2, so divide-by-1 cannot be told apart from
      divide-by-2 by the selector alone. */
  lemma SmallSelectors()
    ensures forall d: uint32 :: d in SmallDividers && d % 2 == 0 ==> DividerSelector(d) == Some(SelSmall(d / 2))
    ensures DividerSelector(1) == DividerSelector(2) == Some(SelSmall(1))
  {
  }

  /** `_cyhal_clock_data`: the stored divider and frequency of every clock block. */
  class PeriClocks {
    const tcpwmMax: uint32
    var data: array<ClockCfg>

    ghost predicate Valid()
      reads this
    {
      data.Length == ClockBlockCount
    }

    /** The stored entry of a clock block. */
    function Stored(block: int): ClockCfg
      reads this, data
      requires Valid() && IsKnownBlock(block)
    {
      data[block]
    }

    /** The zero-initialised table. */
    constructor (tcpwmMaxFrequency: uint32)
      ensures Valid() && fresh(data) && tcpwmMax == tcpwmMaxFrequency
      ensures forall b :: IsKnownBlock(b) ==> Stored(b) == ClockCfg(0, 0)
    {
      tcpwmMax := tcpwmMaxFrequency;
      data := new ClockCfg[ClockBlockCount](_ => ClockCfg(0, 0));
    }

    /** _cyhal_utils_peri_pclk_set_divider: `div` is the ratio minus one
        (the ratio is computed in wrapping 32-bit arithmetic).  Only the
        TCPWM clock acts: a supported ratio is stored with the resulting
        frequency and its selector is handed to Cy_TCPWM_EnableClock; an
        unsupported one reports status 1.  Other blocks report success and
        change nothing. */
    method SetDivider(clock: ClockObj, div: uint32) returns (r: Rslt, sel: Option<DivSel>)
      requires Valid()
      modifies data
      ensures Valid()
      ensures var actual := (div + 1) % UINT32_MOD;
        if clock.block != PeriTcpwm then
          r == Success && sel == None && data[..] == old(data[..])
        else if actual !in TcpwmDividers then
          r == Rom(1) && sel == None && data[..] == old(data[..])
        else
          r == Success && sel == DividerSelector(actual) &&
          data[..] == old(data[..])[PeriTcpwm := ClockCfg(actual, tcpwmMax / actual)]
    {
      r := Success;
      sel := None;
      var actual := (div + 1) % UINT32_MOD;
      if clock.block == PeriTcpwm {
        var s := DividerSelector(actual);
        if s.None? {
          r := Rom(1);
        } else {
          var freq := PeripheralClockFrequency(Tcpwm, tcpwmMax) / actual;
          data[clock.block] := ClockCfg(actual, freq);
          sel := s;
        }
      }
    }

    /** _cyhal_utils_peri_pclk_set_freq: for the three SCB clocks the PDL is
        asked for freq * oversample (wrapping) and reports `scbActual`,
        which is stored with the divider SCB_max / scbActual; the division
        needs a non-zero report.  Other blocks report status 1 and change
        nothing.  `request` is the frequency handed to the PDL. */
    method SetFreq(clock: ClockObj, freq: uint32, oversample: uint32, scbActual: uint32)
      returns (r: Rslt, request: Option<uint32>)
      requires Valid()
      requires IsScbBlock(clock.block) ==> scbActual != 0
      modifies data
      ensures Valid()
      ensures IsScbBlock(clock.block) ==>
        r == Success && request == Some(MulU32(freq, oversample)) &&
        data[..] == old(data[..])[clock.block := ClockCfg(ScbMaxFrequency / scbActual, scbActual)]
      ensures !IsScbBlock(clock.block) ==> r == Rom(1) && request == None && data[..] == old(data[..])
    {
      if IsScbBlock(clock.block) {
        request := Some(MulU32(freq, oversample));
        data[clock.block] := ClockCfg(PeripheralClockFrequency(Scb, tcpwmMax) / scbActual, scbActual);
        r := Success;
      } else {
        r := Rom(1);
        request := None;
      }
    }

    /** _cyhal_utils_peri_pclk_get_freq: the last stored frequency.  The
        table is indexed by the block, so the block must be one of the seven. */
    function GetFreq(clock: ClockObj): (f: uint32)
      reads this, data, clock
      requires Valid() && IsKnownBlock(clock.block)
      ensures f == Stored(clock.block).freq
    {
      data[clock.block].freq
    }
  }

  /** BT_GPIO_BASE and DIRECT_BASE (include_pvt/cyhal_pin_package.h). */
  const BtGpioBase: int := 0
  const DirectBase: int := 50

  /** _cyhal_utils_get_gpio_resource: BT GPIO pins are channels of block 0,
      the direct pins channels of block 1, counted from DIRECT_BASE. */
  function GetGpioResource(pin: int): (rsc: Inst)
    ensures rsc.kind == Gpio
    ensures pin < DirectBase ==> rsc.block == 0 && rsc.channel == pin
    ensures pin >= DirectBase ==> rsc.block == 1 && rsc.channel == pin - DirectBase
  {
    if pin < DirectBase then Inst(Gpio, 0, pin - BtGpioBase) else Inst(Gpio, 1, pin - DirectBase)
  }

  /** The pin a GPIO resource stands for. */
  function PinOfGpioResource(rsc: Inst): int
  {
    if rsc.block == 0 then rsc.channel + BtGpioBase else rsc.channel + DirectBase
  }

  /** Different pins get different resources: the resource gives back the pin. */
  lemma GpioResourceRoundTrip(pin: int)
    ensures PinOfGpioResource(GetGpioResource(pin)) == pin
  {
  }

  /** The direct pins MIC_P (50) to SDIO_CMD (56) become channels 0 to 6 of
      GPIO block 1, but the layout gives that block only four channels
      (block offsets 49 and 53), so pins 54 to 56 fall outside it. */
  lemma DirectPinsBeyondBlock(pin: int)
    requires DirectBase + 4 <= pin <= DirectBase + 6
    ensures var b := HwMgrLayout.BlockOffsets(Gpio);
      GetGpioResource(pin).block == 1 && GetGpioResource(pin).channel >= b[2] - b[1]
  {
  }

  /** _cyhal_utils_reserve_and_connect: reserve the pin's resource; if that
      worked, connect the pin (foreign, reporting `connectOutcome`) and give
      the reservation back if the connection failed. */
  method ReserveAndConnect(hw: HwMgr.Manager, pin: int, reserveOutcome: Rslt, connectOutcome: Rslt)
    returns (r: Rslt)
    modifies hw
    ensures reserveOutcome != Success ==> r == reserveOutcome && hw.reserved == old(hw.reserved)
    ensures reserveOutcome == Success ==> r == connectOutcome
    ensures reserveOutcome == Success && connectOutcome == Success ==>
      hw.reserved == old(hw.reserved) + {GetGpioResource(pin)}
    ensures reserveOutcome == Success && connectOutcome != Success ==>
      hw.reserved == old(hw.reserved) - {GetGpioResource(pin)}
  {
    var rsc := GetGpioResource(pin);
    r := hw.Reserve(rsc, reserveOutcome);
    if r == Success {
      r := connectOutcome;
      if r != Success {
        hw.Free(rsc);
      }
    }
  }

  /** _cyhal_utils_disconnect_and_free: release the pin's resource. */
  method DisconnectAndFree(hw: HwMgr.Manager, pin: int)
    modifies hw
    ensures hw.reserved == old(hw.reserved) - {GetGpioResource(pin)}
  {
    hw.Free(GetGpioResource(pin));
  }
}
