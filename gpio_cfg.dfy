/** The BTSS pad-configuration macros of include_pvt/cyhal_gpio_impl.h.
    A configuration word (the C `uint32_t config`) is modelled as the set of
    its bit positions that are 1: a bitwise or is a union, an and an
    intersection, and an and with a complement a difference.  The
    BTSS_PAD_CONFIG_*_MASK values come from the ROM headers, which are not
    part of this model, so they are a parameter. */
module GpioCfg {

  /** The bit positions that are 1 in a word. */
  type Bits = set<nat>

  /** The bit positions of a 32-bit word. */
  predicate IsWord(b: Bits)
  {
    forall i :: i in b ==> i < 32
  }

  /** The pad-configuration bit masks. */
  datatype PadMasks = PadMasks(
    inputDisable: Bits,
    outputEnable: Bits,
    outputDisable: Bits,
    hysteresis: Bits,
    pullUp: Bits,
    pullDown: Bits,
    drive: DriveMasks)

  /** The DRIVE_SEL masks for 2, 4, ..., 16 mA. */
  datatype DriveMasks = DriveMasks(
    ma2: Bits, ma4: Bits, ma6: Bits, ma8: Bits, ma10: Bits, ma12: Bits, ma14: Bits, ma16: Bits)

  /** The drive strengths the DRIVE_SEL macros name. */
  datatype Strength = Ma2 | Ma4 | Ma6 | Ma8 | Ma10 | Ma12 | Ma14 | Ma16

  function DriveMask(d: DriveMasks, s: Strength): Bits
  {
    match s
    case Ma2 => d.ma2
    case Ma4 => d.ma4
    case Ma6 => d.ma6
    case Ma8 => d.ma8
    case Ma10 => d.ma10
    case Ma12 => d.ma12
    case Ma14 => d.ma14
    case Ma16 => d.ma16
  }

  /** The byte the `(uint8_t)` cast of CFG_CLR keeps: bits 0 to 7. */
  const LowByte: Bits := set i: nat | i < 8

  /** _CYHAL_GPIO_BTSS_CFG_SET(mask, cfg): the mask bits are set, every other
      bit keeps its value. */
  function CfgSet(mask: Bits, cfg: Bits): (r: Bits)
    ensures mask <= r
    ensures r - mask == cfg - mask
  {
    mask + cfg
  }

  /** _CYHAL_GPIO_BTSS_CFG_CLR(mask, cfg): `((uint8_t)~mask) & cfg`.  The mask
      bits are cleared, the other bits of the low byte keep their value and
      the cast drops every bit above it. */
  function CfgClr(mask: Bits, cfg: Bits): (r: Bits)
    ensures r * mask == {}
    ensures (r * LowByte) - mask == (cfg * LowByte) - mask
    ensures r <= LowByte
  {
    (LowByte - mask) * cfg
  }

  /** A word stays a word under both macros. */
  lemma CfgKeepsWord(mask: Bits, cfg: Bits)
    requires IsWord(mask) && IsWord(cfg)
    ensures IsWord(CfgSet(mask, cfg)) && IsWord(CfgClr(mask, cfg))
  {
  }

  /** Setting twice is setting once. */
  lemma CfgSetIdempotent(mask: Bits, cfg: Bits)
    ensures CfgSet(mask, CfgSet(mask, cfg)) == CfgSet(mask, cfg)
  {
    assert mask + (mask + cfg) == mask + cfg;
  }

  /** Clearing twice is clearing once. */
  lemma CfgClrIdempotent(mask: Bits, cfg: Bits)
    ensures CfgClr(mask, CfgClr(mask, cfg)) == CfgClr(mask, cfg)
  {
    assert (LowByte - mask) * ((LowByte - mask) * cfg) == (LowByte - mask) * cfg;
  }

  /** _CYHAL_GPIO_BTSS_INPUT_ENABLE / _INPUT_DISABLE */
  function InputEnable(m: PadMasks, cfg: Bits): (r: Bits)
    ensures r * m.inputDisable == {}
  {
    CfgClr(m.inputDisable, cfg)
  }

  function InputDisable(m: PadMasks, cfg: Bits): (r: Bits)
    ensures m.inputDisable <= r
  {
    CfgSet(m.inputDisable, cfg)
  }

  /** The bit the OUTPUT pair acts on: OUTPUT_ENABLE_MASK on the CYW55500A0
      build (`a0`), OUTPUT_DISABLE_MASK otherwise. */
  function OutputBit(m: PadMasks, a0: bool): Bits
  {
    if a0 then m.outputEnable else m.outputDisable
  }

  /** Whether a configuration drives its output: on the A0 build the enable
      bit is set, otherwise the disable bit is clear. */
  predicate OutputEnabled(m: PadMasks, a0: bool, cfg: Bits)
  {
    if a0 then m.outputEnable <= cfg else m.outputDisable * cfg == {}
  }

  /** _CYHAL_GPIO_BTSS_OUTPUT_ENABLE in both build variants. */
  function OutputEnable(m: PadMasks, a0: bool, cfg: Bits): (r: Bits)
    ensures OutputEnabled(m, a0, r)
  {
    if a0 then CfgSet(m.outputEnable, cfg) else CfgClr(m.outputDisable, cfg)
  }

  /** _CYHAL_GPIO_BTSS_OUTPUT_DISABLE in both build variants. */
  function OutputDisable(m: PadMasks, a0: bool, cfg: Bits): (r: Bits)
    ensures OutputBit(m, a0) != {} ==> !OutputEnabled(m, a0, r)
  {
    if a0 then CfgClr(m.outputEnable, cfg) else CfgSet(m.outputDisable, cfg)
  }

  /** The INPUT pair acts oppositely on the input-disable bit, whatever the
      configuration was: each undoes the other. */
  lemma InputPairOpposite(m: PadMasks, cfg: Bits)
    requires m.inputDisable != {}
    ensures InputEnable(m, InputDisable(m, cfg)) * m.inputDisable == {}
    ensures m.inputDisable <= InputDisable(m, InputEnable(m, cfg))
    ensures InputEnable(m, cfg) * m.inputDisable != InputDisable(m, cfg) * m.inputDisable
  {
    var i :| i in m.inputDisable;
    assert i !in InputEnable(m, cfg) * m.inputDisable;
  }

  /** The OUTPUT pair acts oppositely on its bit in each build variant. */
  lemma OutputPairOpposite(m: PadMasks, a0: bool, cfg: Bits)
    requires OutputBit(m, a0) != {}
    ensures OutputEnabled(m, a0, OutputEnable(m, a0, OutputDisable(m, a0, cfg)))
    ensures !OutputEnabled(m, a0, OutputDisable(m, a0, OutputEnable(m, a0, cfg)))
  {
  }

  /** _CYHAL_GPIO_BTSS_HYSTERESIS_ON / _OFF */
  function HysteresisOn(m: PadMasks, cfg: Bits): (r: Bits)
    ensures m.hysteresis <= r
  {
    CfgSet(m.hysteresis, cfg)
  }

  function HysteresisOff(m: PadMasks, cfg: Bits): (r: Bits)
    ensures r * m.hysteresis == {}
  {
    CfgClr(m.hysteresis, cfg)
  }

  /** _CYHAL_GPIO_BTSS_PULL_UP: sets the pull-up bit and no other. */
  function PullUp(m: PadMasks, cfg: Bits): (r: Bits)
    ensures m.pullUp <= r
    ensures r - m.pullUp == cfg - m.pullUp
  {
    CfgSet(m.pullUp, cfg)
  }

  /** _CYHAL_GPIO_BTSS_PULL_DOWN: sets the pull-down bit and no other. */
  function PullDown(m: PadMasks, cfg: Bits): (r: Bits)
    ensures m.pullDown <= r
    ensures r - m.pullDown == cfg - m.pullDown
  {
    CfgSet(m.pullDown, cfg)
  }

  /** _CYHAL_GPIO_BTSS_ARM_DRIVE_SEL_2MA to _16MA: sets the strength's mask
      and no other bit. */
  function DriveSel(m: PadMasks, s: Strength, cfg: Bits): (r: Bits)
    ensures DriveMask(m.drive, s) <= r
    ensures r - DriveMask(m.drive, s) == cfg - DriveMask(m.drive, s)
  {
    CfgSet(DriveMask(m.drive, s), cfg)
  }

  /** _CYHAL_GPIO_BTSS_PULL_UP_DOWN_NONE as written: the macro argument
      `PULL_UP_MASK | PULL_DOWN_MASK` is substituted unparenthesised into
      `(uint8_t)~mask`, so the complement applies to the pull-up mask alone
      and the pull-down mask is or-ed in afterwards. */
  function PullUpDownNoneAsWritten(m: PadMasks, cfg: Bits): (r: Bits)
    ensures r <= LowByte + m.pullDown
    ensures r * m.pullUp <= m.pullDown
  {
    ((LowByte - m.pullUp) + m.pullDown) * cfg
  }

  /** As written, pull-down bits that are set stay set. */
  lemma PullUpDownNoneKeepsPullDown(m: PadMasks, cfg: Bits)
    requires m.pullDown <= cfg
    ensures m.pullDown <= PullUpDownNoneAsWritten(m, cfg)
  {
  }

  /** The intended PULL_UP_DOWN_NONE: the whole or-ed mask is complemented,
      so both pull bits are cleared. */
  function PullUpDownNone(m: PadMasks, cfg: Bits): (r: Bits)
    ensures r * m.pullUp == {} && r * m.pullDown == {}
  {
    CfgClr(m.pullUp + m.pullDown, cfg)
  }
}
