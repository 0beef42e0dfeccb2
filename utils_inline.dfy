/** The inline helpers of include_pvt/cyhal_utils_impl.h: divider rounding,
    the power-management mode conversion and the peripheral clock divider
    stubs. */
module UtilsInline {
  import opened Results
  import opened Resources
  import opened CTypes
  import opened ClockTypes
  import opened UtilsImpl
  import Clock

  /** The C expression `1 << n` for a shift that stays inside a signed int. */
  function ShiftOne(n: nat): (p: uint32)
    requires n < 31
    ensures p >= 1
  {
    var b: bv32 := 1 << n;
    assert b != 0;
    b as int
  }

  /** The scaled peripheral clock pclk * (1 << fracBits), without wrap-around. */
  function ScaledClock(item: Inst, fracBits: nat, tcpwmMax: uint32): nat
    requires fracBits < 31
  {
    PeripheralClockFrequency(item.kind, tcpwmMax) * ShiftOne(fracBits)
  }

  /** _cyhal_utils_divider_value: ((pclk * (1 << fracBits)) + frequency / 2)
      / frequency in unsigned 32-bit arithmetic, where pclk is the
      peripheral clock of the item.  The C expression shifts a signed 1, so
      fracBits must stay below 31, and it divides by `frequency`, which must
      not be 0.  The product and the sum wrap. */
  function DividerValue(item: Inst, frequency: uint32, fracBits: nat, tcpwmMax: uint32): (d: uint32)
    requires frequency > 0 && fracBits < 31
    ensures ScaledClock(item, fracBits, tcpwmMax) + frequency / 2 < UINT32_MOD ==>
      d == (ScaledClock(item, fracBits, tcpwmMax) + frequency / 2) / frequency
  {
    RoundedDivU32(PeripheralClockFrequency(item.kind, tcpwmMax), ShiftOne(fracBits), frequency)
  }

  /** (a * b + f / 2) / f in unsigned 32-bit arithmetic. */
  function RoundedDivU32(a: uint32, b: uint32, f: uint32): (d: uint32)
    requires f > 0
    ensures a * b + f / 2 < UINT32_MOD ==> d == (a * b + f / 2) / f
  {
    var sum := AddU32(MulU32(a, b), f / 2);
    sum / f
  }

  function Abs(x: int): nat { if x < 0 then -x else x }

  /** Without wrap-around, the divider is x / frequency rounded to the
      nearest integer: no other divider k gives a product k * frequency
      closer to the scaled clock x. */
  lemma DividerValueNearest(item: Inst, frequency: uint32, fracBits: nat, tcpwmMax: uint32, k: nat)
    requires frequency > 0 && fracBits < 31
    requires ScaledClock(item, fracBits, tcpwmMax) + frequency / 2 < UINT32_MOD
    ensures var x := ScaledClock(item, fracBits, tcpwmMax);
      Abs(x - DividerValue(item, frequency, fracBits, tcpwmMax) * frequency) <= Abs(x - k * frequency)
  {
    var x := ScaledClock(item, fracBits, tcpwmMax);
    var d := DividerValue(item, frequency, fracBits, tcpwmMax);
    RoundedQuotientNearest(x, frequency, d, k);
  }

  /** The rounding argument on plain integers. */
  lemma RoundedQuotientNearest(x: nat, f: nat, d: nat, k: nat)
    requires f > 0 && d == (x + f / 2) / f
    ensures Abs(x - d * f) <= Abs(x - k * f)
  {
    // d * f <= x + f/2 < d * f + f, so x - d*f lies in [-(f/2), f - f/2).
    var e := x - d * f;
    assert d * f <= x + f / 2 < d * f + f;
    assert -(f / 2) <= e < f - f / 2;
    if k > d {
      assert k * f >= d * f + f by { MulMonotone(d + 1, k, f); }
    } else if k < d {
      assert k * f <= d * f - f by { MulMonotone(k, d - 1, f); }
    }
  }

  lemma MulMonotone(a: nat, b: nat, f: nat)
    requires a <= b
    ensures a * f <= b * f
    ensures f * a <= f * b
  {
  }

  /** _cyhal_utils_convert_haltopdl_pm_mode: a cast, so the mode value is
      kept as it is. */
  function ConvertHalToPdlPmMode(mode: nat): (pdl: nat)
    ensures pdl == mode
  {
    mode
  }

  /** _cyhal_utils_set_clock_frequency: passes the call to
      cyhal_clock_set_frequency unchanged. */
  method SetClockFrequency(driver: Clock.ClockDriver, clock: ClockObj, hz: uint32, scbActual: uint32,
                           currentCpu: int, firstOk: bool, secondOk: bool) returns (r: Rslt)
    requires driver.Valid()
    requires IsScbBlock(clock.block) ==> scbActual != 0
    modifies driver, driver.peri.data
    ensures driver.Valid()
    ensures IsScbBlock(clock.block) ==> r == Success
    ensures clock.block == TdmBlock ==> driver.audioPll == if r == Success then hz else 0
    ensures clock.block == CpuBlock && Clock.CpuClkOfHz(hz).None? ==> r == ClockFreq
    ensures !IsScbBlock(clock.block) && clock.block !in {TdmBlock, CpuBlock} ==> r == ClockResource
  {
    r := driver.SetFrequency(clock, hz, scbActual, currentCpu, firstOk, secondOk);
  }

  /** _cyhal_utils_peri_pclk_assign_divider, _enable_divider and
      _disable_divider: the dividers are dedicated and always on, so these
      succeed without effect. */
  function AssignDivider(clock: ClockObj): (r: Rslt)
    ensures r == Success
  {
    Success
  }

  function EnableDivider(clock: ClockObj): (r: Rslt)
    ensures r == Success
  {
    Success
  }

  function DisableDivider(clock: ClockObj): (r: Rslt)
    ensures r == Success
  {
    Success
  }
}
