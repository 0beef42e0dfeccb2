/** The clock driver (source/cyhal_clock.c).  Clocks are fixed per block:
    the SCB and TCPWM clocks go through the peripheral clock helpers, the TDM
    clock is the audio PLL, whose frequency the driver remembers in
    `clk_audio_pll`, and the CPU clock is requested from the ROM.  The ROM
    routines btss_system_clockRequestForAudioPll, btss_system_clockRequestForCpu
    and btss_system_clockGetCpuFreq are foreign: their answers are inputs and
    the requests are recorded. */
module Clock {
  import opened Results
  import opened Resources
  import opened CTypes
  import opened Options
  import opened ClockTypes
  import opened UtilsImpl
  import HwMgr

  /** cyhal_clock_feature_t, as returned for one block. */
  datatype Feature = FeatureNone | FeatureDivider | FeatureFrequency

  /** cyhal_clock_get_features */
  function GetFeatures(block: int): (f: Feature)
    ensures f == FeatureDivider <==> block == PeriTcpwm
    ensures f == FeatureFrequency <==> IsScbBlock(block) || block == TdmBlock || block == CpuBlock
    ensures block == AdcMicBlock ==> f == FeatureNone
  {
    if block == PeriTcpwm then FeatureDivider
    else if IsScbBlock(block) || block == TdmBlock || block == CpuBlock then FeatureFrequency
    else FeatureNone
  }

  /** cyhal_clock_is_enabled: every clock counts as running. */
  function IsEnabled(clock: ClockObj): (on: bool)
    ensures on
  {
    true
  }

  /** cyhal_clock_set_enabled: clocks cannot be switched; the call succeeds
      for the SCB, TCPWM and TDM clocks and reports ERR_RESOURCE otherwise. */
  function SetEnabled(block: int, enabled: bool, waitForLock: bool): (r: Rslt)
    ensures r == Success <==> IsScbBlock(block) || block == PeriTcpwm || block == TdmBlock
    ensures r != Success ==> r == ClockResource
  {
    if IsScbBlock(block) || block == PeriTcpwm || block == TdmBlock then Success else ClockResource
  }

  /** SCB_IP_SYS_CLK_MAX_DIVIDER: 128. */
  const ScbMaxDivider: uint32 := 128

  /** _cyhal_clock_is_divider_valid */
  function IsDividerValid(resource: Inst, divider: uint32): (valid: bool)
    ensures valid <==> resource.kind == Scb && divider <= ScbMaxDivider
  {
    resource.kind == Scb && divider <= ScbMaxDivider
  }

  /** BTSS_SYSTEM_CPU_CLK_FREQ_t: the five CPU clock settings. */
  datatype CpuClk = Cpu24MHz | Cpu32MHz | Cpu48MHz | Cpu96MHz | Cpu192MHz

  /** The frequency of a CPU clock setting (the switch in get_frequency). */
  function CpuHz(c: CpuClk): (hz: uint32)
    ensures hz > 0
  {
    match c
    case Cpu24MHz => 24_000_000
    case Cpu32MHz => 32_000_000
    case Cpu48MHz => 48_000_000
    case Cpu96MHz => 96_000_000
    case Cpu192MHz => 192_000_000
  }

  /** The setting for a frequency (the switch in set_frequency); other
      frequencies have none. */
  function CpuClkOfHz(hz: uint32): (c: Option<CpuClk>)
    ensures c.Some? <==> hz in {24_000_000, 32_000_000, 48_000_000, 96_000_000, 192_000_000}
  {
    if hz == 24_000_000 then Some(Cpu24MHz)
    else if hz == 32_000_000 then Some(Cpu32MHz)
    else if hz == 48_000_000 then Some(Cpu48MHz)
    else if hz == 96_000_000 then Some(Cpu96MHz)
    else if hz == 192_000_000 then Some(Cpu192MHz)
    else None
  }

  /** The two switches are inverse: set and get agree on one bijection
      between the five frequencies and the five settings. */
  lemma CpuClkBijection(c: CpuClk, hz: uint32)
    ensures CpuClkOfHz(CpuHz(c)) == Some(c)
    ensures CpuClkOfHz(hz) == Some(c) ==> CpuHz(c) == hz
  {
  }

  /** CYHAL_CLOCK_RSC_x: the resource of clock block b. */
  function ClockResourceOf(block: int): Inst
  {
    Inst(Clock, block, 0)
  }

  /** The result of cyhal_clock_get_sources: a status and the source list. */
  datatype Sources = Sources(status: Rslt, sources: seq<Inst>)

  /** cyhal_clock_get_sources: each of the seven clocks has exactly one
      source, its own clock resource; any other block has none and reports
      ERR_SOURCE. */
  function GetSources(block: int): (s: Sources)
    ensures IsKnownBlock(block) ==> s.status == Success && s.sources == [ClockResourceOf(block)]
    ensures !IsKnownBlock(block) ==> s.status == ClockSource && s.sources == []
  {
    if IsKnownBlock(block) then Sources(Success, [ClockResourceOf(block)]) else Sources(ClockSource, [])
  }

  /** cyhal_clock_set_source: never supported. */
  function SetSource(clock: ClockObj, source: ClockObj): (r: Rslt)
    ensures r == ClockNotSupported
  {
    ClockNotSupported
  }

  /** A request made to the ROM clock services. */
  datatype RomRequest =
    | PllLockToSpeed(hz: uint32)
    | PllUnlockToSpeed(hz: uint32)
    | CpuReleaseFrom(setting: int)
    | CpuNeedUpTo(c: CpuClk)

  /** The driver state: the peripheral clock table and `clk_audio_pll`. */
  class ClockDriver {
    const peri: PeriClocks
    var audioPll: uint32
    ghost var romRequests: seq<RomRequest>

    ghost predicate Valid()
      reads this, peri
    {
      peri.Valid()
    }

    constructor (p: PeriClocks)
      requires p.Valid()
      ensures Valid() && peri == p && audioPll == 0 && romRequests == []
    {
      peri := p;
      audioPll := 0;
      romRequests := [];
    }

    /** cyhal_clock_get_frequency.  `cpuSetting` is what
        btss_system_clockGetCpuFreq reports, None for a value outside the
        five settings. */
    function GetFrequency(clock: ClockObj, cpuSetting: Option<CpuClk>): (f: uint32)
      reads this, peri, peri.data, clock
      requires Valid()
      ensures IsScbBlock(clock.block) || clock.block == PeriTcpwm ==> f == peri.Stored(clock.block).freq
      ensures clock.block == TdmBlock ==> f == audioPll
      ensures clock.block == CpuBlock ==> f == if cpuSetting.Some? then CpuHz(cpuSetting.value) else 0
      ensures !IsScbBlock(clock.block) && clock.block !in {PeriTcpwm, TdmBlock, CpuBlock} ==> f == 0
    {
      if IsScbBlock(clock.block) || clock.block == PeriTcpwm then peri.GetFreq(clock)
      else if clock.block == TdmBlock then audioPll
      else if clock.block == CpuBlock then (if cpuSetting.Some? then CpuHz(cpuSetting.value) else 0)
      else 0
    }

    /** cyhal_clock_set_frequency (the tolerance is ignored).
        - SCB clocks: set through the peripheral clock helper with
          oversample 1; `scbActual` is what the PDL reports.
        - TDM: a PLL at 0 is locked to hz; otherwise it is unlocked and,
          if that worked, locked again.  `firstOk` and `secondOk` are the
          ROM's answers in order.  The PLL is remembered at hz on success
          and at 0 on failure.
        - CPU: one of the five frequencies releases the current setting
          `currentCpu` and, if that worked, requests the new one; any other
          frequency is ERR_FREQ and makes no request.
        - Other blocks: ERR_RESOURCE. */
    method SetFrequency(clock: ClockObj, hz: uint32, scbActual: uint32, currentCpu: int,
                        firstOk: bool, secondOk: bool) returns (r: Rslt)
      requires Valid()
      requires IsScbBlock(clock.block) ==> scbActual != 0
      modifies this, peri.data
      ensures Valid()
      ensures IsScbBlock(clock.block) ==>
        r == Success && audioPll == old(audioPll) && romRequests == old(romRequests) &&
        peri.data[..] == old(peri.data[..])[clock.block := ClockCfg(ScbMaxFrequency / scbActual, scbActual)]
      ensures clock.block == TdmBlock ==>
        var locked := if old(audioPll) == 0 then firstOk else firstOk && secondOk;
        peri.data[..] == old(peri.data[..]) &&
        (r == Success <==> locked) && (!locked ==> r == ClockFreq) &&
        audioPll == (if locked then hz else 0) &&
        romRequests == old(romRequests) +
          (if old(audioPll) == 0 then [PllLockToSpeed(hz)]
           else [PllUnlockToSpeed(hz)] + (if firstOk then [PllLockToSpeed(hz)] else []))
      ensures clock.block == CpuBlock ==>
        peri.data[..] == old(peri.data[..]) && audioPll == old(audioPll) &&
        (CpuClkOfHz(hz).None? ==> r == ClockFreq && romRequests == old(romRequests)) &&
        (CpuClkOfHz(hz).Some? ==>
          (r == Success <==> firstOk && secondOk) && (r != Success ==> r == ClockFreq) &&
          romRequests == old(romRequests) + [CpuReleaseFrom(currentCpu)] +
            (if firstOk then [CpuNeedUpTo(CpuClkOfHz(hz).value)] else []))
      ensures !IsScbBlock(clock.block) && clock.block !in {TdmBlock, CpuBlock} ==>
        r == ClockResource && peri.data[..] == old(peri.data[..]) &&
        audioPll == old(audioPll) && romRequests == old(romRequests)
    {
      if IsScbBlock(clock.block) {
        var request;
        r, request := peri.SetFreq(clock, hz, 1, scbActual);
      } else if clock.block == TdmBlock {
        var romStatus;
        if audioPll == 0 {
          romRequests := romRequests + [PllLockToSpeed(hz)];
          romStatus := firstOk;
        } else {
          romRequests := romRequests + [PllUnlockToSpeed(hz)];
          romStatus := firstOk;
          if romStatus {
            romRequests := romRequests + [PllLockToSpeed(hz)];
            romStatus := secondOk;
          }
        }
        r := if romStatus then Success else ClockFreq;
        audioPll := if r == Success then hz else 0;
      } else if clock.block == CpuBlock {
        var setting := CpuClkOfHz(hz);
        if setting.None? {
          r := ClockFreq;
        } else {
          romRequests := romRequests + [CpuReleaseFrom(currentCpu)];
          var romStatus := firstOk;
          if romStatus {
            romRequests := romRequests + [CpuNeedUpTo(setting.value)];
            romStatus := secondOk;
          }
          r := if romStatus then Success else ClockFreq;
        }
      } else {
        r := ClockResource;
      }
    }

    /** cyhal_clock_set_divider: only the TCPWM clock has a divider; the
        helper is given divider - 1 in wrapping arithmetic.  Taken together,
        the call succeeds exactly for the supported ratios and stores the
        ratio itself; a divider of 0 wraps to a ratio of 0 and is refused.
        Other blocks report ERR_RESOURCE. */
    method SetDivider(clock: ClockObj, divider: uint32) returns (r: Rslt)
      requires Valid()
      modifies peri.data
      ensures Valid()
      ensures clock.block != PeriTcpwm ==> r == ClockResource && peri.data[..] == old(peri.data[..])
      ensures clock.block == PeriTcpwm ==>
        (r == Success <==> divider in TcpwmDividers) &&
        (r != Success ==> r == Rom(1) && peri.data[..] == old(peri.data[..])) &&
        (r == Success ==>
          peri.data[..] == old(peri.data[..])[PeriTcpwm := ClockCfg(divider, peri.tcpwmMax / divider)])
    {
      r := ClockResource;
      if clock.block == PeriTcpwm {
        var div := (divider - 1) % UINT32_MOD;
        assert (div + 1) % UINT32_MOD == divider;
        var sel;
        r, sel := peri.SetDivider(clock, div);
      }
    }

    /** Setting the TDM clock and reading it back gives the requested
        frequency after a success and 0 after a failure. */
    method SetThenGetTdm(clock: ClockObj, hz: uint32, firstOk: bool, secondOk: bool)
      returns (r: Rslt, f: uint32)
      requires Valid() && clock.block == TdmBlock
      modifies this, peri.data
      ensures r == Success ==> f == hz
      ensures r != Success ==> f == 0
    {
      r := SetFrequency(clock, hz, 0, 0, firstOk, secondOk);
      f := GetFrequency(clock, None);
    }

    /** Setting the TCPWM divider and reading the frequency back gives the
        TCPWM maximum divided by the divider. */
    method SetDividerThenGet(clock: ClockObj, divider: uint32) returns (r: Rslt, f: uint32)
      requires Valid() && clock.block == PeriTcpwm
      modifies peri.data
      ensures r == Success <==> divider in TcpwmDividers
      ensures r == Success ==> divider > 0 && f == peri.tcpwmMax / divider
    {
      r := SetDivider(clock, divider);
      f := GetFrequency(clock, None);
    }
  }

  /** cyhal_clock_allocate: reserve the block's clock resource; on success
      the clock is that block, channel 0, reserved. */
  method Allocate(clock: ClockObj, block: int, hw: HwMgr.Manager, outcome: Rslt) returns (r: Rslt)
    modifies clock, hw
    ensures r == outcome
    ensures hw.reserved == if outcome == Success then old(hw.reserved) + {ClockResourceOf(block)} else old(hw.reserved)
    ensures outcome == Success ==> clock.block == block && clock.channel == 0 && clock.reserved
    ensures outcome != Success ==> unchanged(clock)
  {
    r := hw.Reserve(ClockResourceOf(block), outcome);
    if r == Success {
      clock.block := block;
      clock.channel := 0;
      clock.reserved := true;
    }
  }

  /** cyhal_clock_get: a non-reserved handle on a clock resource. */
  method Get(clock: ClockObj, resource: Inst) returns (r: Rslt)
    requires resource.kind == Clock
    modifies clock
    ensures r == Success
    ensures clock.block == resource.block && clock.channel == resource.channel && !clock.reserved
  {
    clock.block := resource.block;
    clock.channel := resource.channel;
    clock.reserved := false;
    r := Success;
  }

  /** cyhal_clock_reserve: reserve the resource of `source`; on success copy
      it and mark the copy reserved. */
  method Reserve(clock: ClockObj, source: ClockObj, hw: HwMgr.Manager, outcome: Rslt) returns (r: Rslt)
    requires clock != source
    modifies clock, hw
    ensures r == outcome
    ensures hw.reserved == if outcome == Success then old(hw.reserved) + {Inst(Clock, source.block, source.channel)} else old(hw.reserved)
    ensures outcome == Success ==> clock.block == source.block && clock.channel == source.channel && clock.reserved
    ensures outcome != Success ==> unchanged(clock)
  {
    r := hw.Reserve(Inst(Clock, source.block, source.channel), outcome);
    if r == Success {
      clock.block := source.block;
      clock.channel := source.channel;
      clock.reserved := true;
    }
  }

  /** cyhal_clock_free: release the clock's resource and clear the flag. */
  method Free(clock: ClockObj, hw: HwMgr.Manager)
    modifies clock, hw
    ensures hw.reserved == old(hw.reserved) - {Inst(Clock, clock.block, clock.channel)}
    ensures !clock.reserved && clock.block == old(clock.block) && clock.channel == old(clock.channel)
  {
    hw.Free(Inst(Clock, clock.block, clock.channel));
    clock.reserved := false;
  }

  /** Allocating a clock and freeing it again leaves the hardware manager
      as it was when the clock was not reserved before. */
  method AllocateThenFree(clock: ClockObj, block: int, hw: HwMgr.Manager, outcome: Rslt) returns (r: Rslt)
    requires ClockResourceOf(block) !in hw.reserved
    modifies clock, hw
    ensures hw.reserved == old(hw.reserved)
    ensures r == Success ==> !clock.reserved && clock.block == block
  {
    r := Allocate(clock, block, hw, outcome);
    if r == Success {
      Free(clock, hw);
    }
  }
}
