/** The hardware manager's bookkeeping layout (source/cyhal_hwmgr_impl_part.h):
    every allocatable item has one bit in the `cyhal_used` bitmap; each
    resource type owns a contiguous range of bits. */
module HwMgrLayout {
  import opened Resources

  /** CY_BLOCK_COUNT_* for each resource type (0 for CYHAL_RSC_INVALID). */
  function BlockCount(t: Rsc): nat
  {
    match t
    case AdcMic => 1  case Clock => 7  case Dma => 1  case Gpio => 2  case PdmPcm => 1
    case Rtc => 1     case Scb => 3    case Tcpwm => 1 case Tdm => 1  case T2Timer => 2
    case Invalid => 0
  }

  /** True for the types that have a CY_CHANNEL_COUNT_* macro. */
  predicate HasChannelCount(t: Rsc) { t == Dma || t == Gpio || t == Tcpwm || t == Tdm }

  /** CY_CHANNEL_COUNT_* for the channel-based types. */
  function ChannelCount(t: Rsc): (n: nat)
    requires HasChannelCount(t)
    ensures n > 0
  {
    match t
    case Dma => 8
    case Gpio => 49 + 4
    case Tcpwm => 9
    case Tdm => 2
  }

  /** CY_SIZE_*: the channel count for channel-based types, else the block count. */
  function Size(t: Rsc): (n: nat)
    requires t != Invalid
    ensures n > 0
  {
    if HasChannelCount(t) then ChannelCount(t) else BlockCount(t)
  }

  /** The resource type whose cyhal_resource_t value is i. */
  function TypeAt(i: nat): (t: Rsc)
    requires i <= 10
    ensures Ordinal(t) == i
  {
    [AdcMic, Clock, Dma, Gpio, PdmPcm, Rtc, Scb, Tcpwm, Tdm, T2Timer, Invalid][i]
  }

  /** CY_OFFSET_* as the macro chain defines them: the first offset is 0 and
      each later one is the previous offset plus the previous size. */
  function OffsetAt(i: nat): nat
    requires i <= 10
  {
    if i == 0 then 0 else OffsetAt(i - 1) + Size(TypeAt(i - 1))
  }

  /** CY_TOTAL_ALLOCATABLE_ITEMS = CY_OFFSET_T2TIMER + CY_SIZE_T2TIMER. */
  function TotalItems(): nat { OffsetAt(10) }

  /** Number of bytes of cyhal_used: (CY_TOTAL_ALLOCATABLE_ITEMS + 7) / 8. */
  function UsedBytes(): nat { (TotalItems() + 7) / 8 }

  /** cyhal_resource_offsets: one entry per resource type, in enum order. */
  function ResourceOffsets(): seq<nat>
  {
    [OffsetAt(0), OffsetAt(1), OffsetAt(2), OffsetAt(3), OffsetAt(4),
     OffsetAt(5), OffsetAt(6), OffsetAt(7), OffsetAt(8), OffsetAt(9)]
  }

  /** _cyhal_get_resource_offset: index the table by the enum value.  The
      table has no entry for CYHAL_RSC_INVALID, so that input is excluded. */
  function ResourceOffset(t: Rsc): (r: nat)
    requires t != Invalid
    ensures r == OffsetAt(Ordinal(t))
    ensures r + Size(t) <= TotalItems()
  {
    OffsetRangeInside(Ordinal(t));
    ResourceOffsets()[Ordinal(t)]
  }

  lemma {:induction false} OffsetRangeInside(i: nat)
    requires i < 10
    ensures OffsetAt(i) + Size(TypeAt(i)) <= TotalItems()
    decreases 10 - i
  {
    if i < 9 {
      OffsetRangeInside(i + 1);
    }
  }

  /** Offsets strictly increase across the enum, so ranges never overlap. */
  lemma {:induction false} OffsetsIncrease(i: nat, j: nat)
    requires i < j <= 10
    ensures OffsetAt(i) + Size(TypeAt(i)) <= OffsetAt(j)
    ensures OffsetAt(i) < OffsetAt(j)
  {
    if j > i + 1 {
      OffsetsIncrease(i, j - 1);
    }
  }

  /** Two different resource types occupy disjoint bit ranges. */
  lemma RangesDisjoint(a: Rsc, b: Rsc, bit: nat)
    requires a != Invalid && b != Invalid && a != b
    requires ResourceOffset(a) <= bit < ResourceOffset(a) + Size(a)
    ensures !(ResourceOffset(b) <= bit < ResourceOffset(b) + Size(b))
  {
    OrdinalInjective(a, b);
    if Ordinal(a) < Ordinal(b) {
      OffsetsIncrease(Ordinal(a), Ordinal(b));
    } else {
      OffsetsIncrease(Ordinal(b), Ordinal(a));
    }
  }

  /** The concrete values: 87 items in all, held in an 11-byte bitmap that has
      a bit for each of them. */
  lemma TotalAndBitmap()
    ensures ResourceOffsets() == [0, 1, 8, 16, 69, 70, 71, 74, 83, 85]
    ensures TotalItems() == 87
    ensures UsedBytes() == 11
    ensures UsedBytes() * 8 >= TotalItems()
  {
  }

  /** cyhal_has_channels: the bits of DMA, GPIO, TCPWM and TDM. */
  const HasChannelsMask: bv32 := (1 << 2) | (1 << 3) | (1 << 7) | (1 << 8)

  /** _cyhal_uses_channels: (cyhal_has_channels & (1 << type)) > 0. */
  function UsesChannels(t: Rsc): (r: bool)
    ensures r <==> HasChannelCount(t)
  {
    HasChannelsMask & (1 << Ordinal(t)) != 0
  }

  /** The block-offset arrays; the C switch returns NULL for other types. */
  function BlockOffsets(t: Rsc): seq<nat>
  {
    match t
    case Dma => [0, 8]
    case Gpio => [0, 49, 53]
    case Tcpwm => [2, 9]
    case Tdm => [0, 2]
    case _ => []
  }

  /** _cyhal_get_block_offset_length: the number of entries of the array,
      or 0 for a type without one. */
  function BlockOffsetLength(t: Rsc): (n: nat)
    ensures n == |BlockOffsets(t)|
    ensures n > 0 <==> UsesChannels(t)
    ensures UsesChannels(t) ==> n == BlockCount(t) + 1
  {
    match t
    case Dma => 2
    case Gpio => 3
    case Tcpwm => 2
    case Tdm => 2
    case _ => 0
  }

  /** Every block-offset array is non-decreasing and ends at the channel count.
      The TCPWM array is the only one that does not start at 0. */
  lemma BlockOffsetsShape(t: Rsc)
    requires UsesChannels(t)
    ensures var b := BlockOffsets(t);
      |b| >= 2 &&
      (forall i, j :: 0 <= i <= j < |b| ==> b[i] <= b[j]) &&
      b[|b| - 1] == ChannelCount(t) &&
      (b[0] == 0 <==> t != Tcpwm)
  {
  }
}
