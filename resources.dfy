/** Hardware resource identities shared by the drivers
    (include_pvt/cyhal_hw_resources.h: cyhal_resource_t, cyhal_resource_inst_t). */
module Resources {

  /** cyhal_resource_t, in declaration order. */
  datatype Rsc = AdcMic | Clock | Dma | Gpio | PdmPcm | Rtc | Scb | Tcpwm | Tdm | T2Timer | Invalid

  /** The enumerator value of each resource type. */
  function Ordinal(t: Rsc): (n: nat)
    ensures n <= 10
    ensures n == 10 <==> t == Invalid
  {
    match t
    case AdcMic => 0  case Clock => 1  case Dma => 2  case Gpio => 3  case PdmPcm => 4
    case Rtc => 5     case Scb => 6    case Tcpwm => 7 case Tdm => 8  case T2Timer => 9
    case Invalid => 10
  }

  lemma OrdinalInjective(a: Rsc, b: Rsc)
    ensures Ordinal(a) == Ordinal(b) ==> a == b
  {
  }

  /** cyhal_resource_inst_t: a type, a block number and a channel number. */
  datatype Inst = Inst(kind: Rsc, block: int, channel: int)

  /** The value of a freshly memset object: type 0 is ADCMIC in C, but every
      driver here first sets the type to CYHAL_RSC_INVALID. */
  const NoInst := Inst(Invalid, 0, 0)
}
