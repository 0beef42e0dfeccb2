/** Trigger source encoding and the connection stubs
    (include_pvt/cyhal_triggers.h). */
module Triggers {
  import opened Results

  /** cyhal_signal_type_t: level (0) or edge (1). */
  datatype SignalType = Level | Edge

  function TypeBit(t: SignalType): (b: bv32)
    ensures b <= 1
  {
    if t == Level then 0 else 1
  }

  /** _CYHAL_TRIGGER_CREATE_SOURCE(src, type) = (src << 1) | type. */
  function CreateSource(src: bv32, t: SignalType): bv32
  {
    (src << 1) | TypeBit(t)
  }

  /** _CYHAL_TRIGGER_GET_SOURCE_SIGNAL(src) = src >> 1. */
  function GetSourceSignal(v: bv32): bv32
  {
    v >> 1
  }

  /** _CYHAL_TRIGGER_GET_SOURCE_TYPE(src) = src & 1. */
  function GetSourceType(v: bv32): SignalType
  {
    if v & 1 == 0 then Level else Edge
  }

  /** Decoding an encoded source gives back the signal and the type, as long
      as the shift does not drop the signal's top bit. */
  lemma DecodeCreate(src: bv32, t: SignalType)
    requires src < 0x8000_0000
    ensures GetSourceSignal(CreateSource(src, t)) == src
    ensures GetSourceType(CreateSource(src, t)) == t
  {
    if t == Level {
      assert CreateSource(src, t) & 1 == 0;
    } else {
      assert CreateSource(src, t) & 1 == 1;
    }
  }

  /** Every encoded value is the encoding of its own signal and type. */
  lemma CreateDecode(v: bv32)
    ensures CreateSource(GetSourceSignal(v), GetSourceType(v)) == v
  {
    assert TypeBit(GetSourceType(v)) == v & 1;
    assert ((v >> 1) << 1) | (v & 1) == v;
  }

  /** The names of cyhal_trigger_source_t that are not DMAC lines. */
  datatype SourceName =
    CpussZero | CpussZeroLevel | CpussZeroEdge | Scb0TrRxReq | Scb0TrTxReq | Tcpwm0TrOut00 | Tcpwm0TrOut10

  /** The enumerator values of those names. */
  function SourceValue(n: SourceName): (v: nat)
    ensures v <= 2
  {
    match n
    case CpussZero => 0
    case CpussZeroLevel => 1
    case CpussZeroEdge => 2
    case Scb0TrRxReq => 0
    case Scb0TrTxReq => 0
    case Tcpwm0TrOut00 => 0
    case Tcpwm0TrOut10 => 0
  }

  /** Several names share the value 0, so a source value does not determine
      its name. */
  lemma SourceNamesAlias()
    ensures exists a, b :: a != b && SourceValue(a) == SourceValue(b)
  {
    assert SourceValue(CpussZero) == SourceValue(Scb0TrRxReq);
  }

  /** _cyhal_can_connect_signal accepts every pair. */
  function CanConnectSignal(source: nat, dest: nat): (r: bool)
    ensures r
  {
    true
  }

  /** _cyhal_connect_signal and _cyhal_disconnect_signal do nothing and
      report success. */
  function ConnectSignal(source: nat, dest: nat): (r: Rslt)
    ensures r == Success
  {
    Success
  }

  function DisconnectSignal(source: nat, dest: nat): (r: Rslt)
    ensures r == Success
  {
    Success
  }
}
