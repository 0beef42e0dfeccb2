/** The DMA driver (source/cyhal_dma.c): channel choice from the trigger or
    from the address ranges, the checks of `configure`, the start, event and
    power-management rules, and the table `_cyhal_dma_obj` of initialised
    objects.  The BTSS DMAC ROM routines (btss_dmac_*) are foreign: the
    status they report is an input and the register words they store are
    taken to be the words handed to them. */
module Dma {
  import opened Results
  import opened Options
  import opened Resources
  import SyspmChain
  import HwMgr

  /** _CYHAL_DMA_CHANNELS */
  const ChannelCount := 8
  /** _CYHAL_DMA_MAX_LENGTH: 1 << 12 */
  const MaxLength := 4096
  /** _CYHAL_DMA_CH_NOT_ALLOCATED */
  const NotAllocated := 255

  /** The channels of include_pvt/cyhal_dma_impl.h. */
  const ChPeriphToMem := 2
  const ChMemToPeriph := 1
  const ChMemToMem := ChMemToPeriph
  const ChMemToTdm0 := 4
  const ChTdm0ToMem := 5
  const ChMemToTdm1 := 6
  const ChTdm1ToMem := 7

  /** The peripherals with a DMAC control line. */
  datatype Periph = HciUart | Scb0 | Scb1 | Scb2 | Tdm0 | Tdm1

  /** BTSS_DMAC_CONTROL_LINE_t: the memory-to-memory line, no line, or the
      source or destination line of a peripheral. */
  datatype Line = LineM2M | LineNone | SrcLine(p: Periph) | DstLine(p: Periph)

  /** A cyhal_source_t passed as `src->source`: one of the DMAC source
      triggers (whose values are the peripheral's source line) or any other
      trigger. */
  datatype Source = SourceTrigger(p: Periph) | OtherSource(value: int)

  /** A cyhal_dest_t passed as `dest->dest`. */
  datatype Dest = DestTrigger(p: Periph) | OtherDest(value: int)

  /** cyhal_dma_direction_t */
  datatype Direction = Mem2Mem | Mem2Periph | Periph2Mem | Periph2Periph

  /** BTSS_DMAC_CONFIG_REG_FLOWCONTROL_t */
  datatype FlowControl = FlowMemToMem | FlowMemToPeriphNoFlow | FlowPeriphToMemNoFlow | FlowPeriphToPeriphNoFlow

  /** cyhal_dma_transfer_action_t */
  datatype Action = TransferBurst | TransferFull | TransferBurstDisable | TransferFullDisable

  /** BTSS_DMAC_CONTROL_REG_DATAWIDTH_* */
  datatype Width = Width1Byte | WidthHalfWord | WidthWord

  /** cyhal_dma_event_t bits that the driver looks at. */
  datatype Event = TransferComplete | DescriptorComplete | GenericError | OtherEvent(bit: nat)

  /** The flow control init derives from the direction. */
  function TransferType(d: Direction): (f: FlowControl)
    ensures d == Mem2Periph <==> f == FlowMemToPeriphNoFlow
    ensures d == Periph2Mem <==> f == FlowPeriphToMemNoFlow
  {
    match d
    case Mem2Mem => FlowMemToMem
    case Mem2Periph => FlowMemToPeriphNoFlow
    case Periph2Mem => FlowPeriphToMemNoFlow
    case Periph2Periph => FlowPeriphToPeriphNoFlow
  }

  /** The channel `init_adv` assigns to a source trigger. */
  function SourceChannel(s: Source): nat
  {
    match s
    case SourceTrigger(p) =>
      (match p
       case Tdm0 => ChTdm0ToMem
       case Tdm1 => ChTdm1ToMem
       case _ => ChPeriphToMem)
    case OtherSource(_) => NotAllocated
  }

  /** The channel `init_adv` assigns to a destination trigger. */
  function DestChannel(d: Dest): nat
  {
    match d
    case DestTrigger(p) =>
      (match p
       case Tdm0 => ChMemToTdm0
       case Tdm1 => ChMemToTdm1
       case _ => ChMemToPeriph)
    case OtherDest(_) => NotAllocated
  }

  /** A channel choice: the channel and the two control lines. */
  datatype Selection = Selection(channel: nat, src: Line, dst: Line)

  const Unselected := Selection(NotAllocated, LineNone, LineNone)

  /** The choice `init_adv` makes from its trigger arguments, once it has
      rejected a source and a destination given together. */
  function InitSelection(src: Option<Source>, dest: Option<Dest>): (r: Selection)
    ensures r.channel == NotAllocated <==> r == Unselected
    ensures r.channel != NotAllocated ==> r.channel < 8 && (r.src == LineNone || r.dst == LineNone)
  {
    if src.Some? && SourceChannel(src.value) != NotAllocated then
      Selection(SourceChannel(src.value), SrcLine(src.value.p), LineNone)
    else if dest.Some? && DestChannel(dest.value) != NotAllocated then
      Selection(DestChannel(dest.value), LineNone, DstLine(dest.value.p))
    else Unselected
  }

  /** A DMAC source trigger given alone picks the peripheral-to-memory
      channel of its peripheral: 2 for the PTU and the SCBs, 5 for TDM0 and
      7 for TDM1; a destination trigger picks 1, 4 or 6; any other trigger,
      or none, leaves the channel unallocated. */
  lemma InitSelectionTable(src: Option<Source>, dest: Option<Dest>)
    requires src.None? || dest.None?
    ensures var s := InitSelection(src, dest);
            (src.Some? && src.value.SourceTrigger? ==>
               s.src == SrcLine(src.value.p) && s.dst == LineNone &&
               s.channel == (if src.value.p == Tdm0 then 5 else if src.value.p == Tdm1 then 7 else 2)) &&
            (dest.Some? && dest.value.DestTrigger? ==>
               s.dst == DstLine(dest.value.p) && s.src == LineNone &&
               s.channel == (if dest.value.p == Tdm0 then 4 else if dest.value.p == Tdm1 then 6 else 1)) &&
            ((src.None? || src.value.OtherSource?) && (dest.None? || dest.value.OtherDest?) ==>
               s == Unselected)
  {
    if src.Some? && src.value.SourceTrigger? {
      assert SourceChannel(src.value) != NotAllocated;
    }
    if dest.Some? && dest.value.DestTrigger? {
      assert DestChannel(dest.value) != NotAllocated;
    }
  }

  /** The index `init_adv` writes `obj` to in `_cyhal_dma_obj`, as written:
      the channel, whatever it is. */
  function StoreIndexAsWritten(src: Option<Source>, dest: Option<Dest>): nat
  {
    InitSelection(src, dest).channel
  }

  /** Without a DMAC trigger the channel is left unallocated (255), and the
      write lands 247 entries past the end of the 8-entry table. */
  lemma StoreIndexAsWrittenOutOfRange(src: Option<Source>, dest: Option<Dest>)
    requires src.None? || dest.None?
    requires (src.None? || src.value.OtherSource?) && (dest.None? || dest.value.OtherDest?)
    ensures StoreIndexAsWritten(src, dest) >= ChannelCount
    ensures StoreIndexAsWritten(src, dest) == 255
  {
    InitSelectionTable(src, dest);
  }

  /** Every SCB and HCI UART destination trigger picks the same channel,
      1 (memory to peripheral, shared with memory to memory): init as
      written enters every such object at index 1, each over the last. */
  lemma StoreIndexAsWrittenShared(p: Periph, q: Periph)
    requires p != Tdm0 && p != Tdm1 && q != Tdm0 && q != Tdm1
    ensures StoreIndexAsWritten(None, Some(DestTrigger(p))) == StoreIndexAsWritten(None, Some(DestTrigger(q))) == ChMemToPeriph
  {
  }

  /** The SRAM, SCB and TDM address windows of include_pvt/cyhal_dma_impl.h,
      from the platform's base addresses (sram_adr_base and so on, which are
      defined outside this repository). */
  datatype Bases = Bases(sram: int, cc312: int, scb0: int, scb1: int, driverCfg: int, scb2: int, mxtdm: int)

  /** _CYHAL_DMA_TDM_STRUCT_SIZE */
  const TdmStructSize := 0x200

  predicate InSram(b: Bases, a: int) { b.sram <= a < b.cc312 }

  /** The peripheral whose window holds `a`, tried in the order of the
      driver's else-if chain. */
  function PeriphAt(b: Bases, a: int): Option<Periph>
  {
    if b.scb0 <= a < b.scb1 then Some(Scb0)
    else if b.scb1 <= a < b.driverCfg then Some(Scb1)
    else if b.scb2 <= a < b.mxtdm then Some(Scb2)
    else if b.mxtdm <= a < b.mxtdm + TdmStructSize then Some(Tdm0)
    else if b.mxtdm + TdmStructSize <= a < b.mxtdm + 2 * TdmStructSize then Some(Tdm1)
    else None
  }

  /** The memory-to-peripheral branch of `configure` (source in SRAM). */
  function MemToPeriphStep(b: Bases, srcAddr: int, dstAddr: int, s: Selection): Selection
  {
    if !InSram(b, srcAddr) then s
    else
      match PeriphAt(b, dstAddr)
      case Some(p) =>
        Selection(if p == Tdm0 then ChMemToTdm0 else if p == Tdm1 then ChMemToTdm1 else ChMemToPeriph,
                  LineM2M, DstLine(p))
      case None => Selection(ChMemToMem, LineM2M, s.dst)
  }

  /** The peripheral-to-memory branch of `configure` (destination in SRAM),
      which runs after the first and overrides its channel. */
  function PeriphToMemStep(b: Bases, srcAddr: int, dstAddr: int, s: Selection): Selection
  {
    if !InSram(b, dstAddr) then s
    else
      match PeriphAt(b, srcAddr)
      case Some(p) =>
        Selection(if p == Tdm0 then ChTdm0ToMem else if p == Tdm1 then ChTdm1ToMem else ChPeriphToMem,
                  SrcLine(p), LineM2M)
      case None => Selection(ChMemToMem, s.src, LineM2M)
  }

  /** The address-range choice of `configure` for an unallocated channel. */
  function AddressSelection(b: Bases, srcAddr: int, dstAddr: int): Selection
  {
    PeriphToMemStep(b, srcAddr, dstAddr, MemToPeriphStep(b, srcAddr, dstAddr, Unselected))
  }

  /** A choice is stored exactly when one of its lines is not NONE, and that
      happens exactly when one of the addresses is in SRAM.  The
      destination-in-SRAM branch decides the channel whenever it runs; the
      source-in-SRAM branch decides it only otherwise. */
  lemma AddressSelectionRules(b: Bases, srcAddr: int, dstAddr: int)
    ensures var s := AddressSelection(b, srcAddr, dstAddr);
            ((s.src != LineNone || s.dst != LineNone) <==> (InSram(b, srcAddr) || InSram(b, dstAddr))) &&
            (InSram(b, dstAddr) ==>
               s.dst == LineM2M &&
               s.channel == (match PeriphAt(b, srcAddr)
                             case Some(p) => if p == Tdm0 then 5 else if p == Tdm1 then 7 else 2
                             case None => 1) &&
               (PeriphAt(b, srcAddr).None? ==> s.src == (if InSram(b, srcAddr) then LineM2M else LineNone))) &&
            (InSram(b, srcAddr) && !InSram(b, dstAddr) ==>
               s.src == LineM2M &&
               s.channel == (match PeriphAt(b, dstAddr)
                             case Some(p) => if p == Tdm0 then 4 else if p == Tdm1 then 6 else 1
                             case None => 1)) &&
            (s.src == LineNone && s.dst == LineNone ==> s == Unselected)
  {
  }

  /** The channel and lines after the address-range step of `configure`:
      the choice is made only for an unallocated channel and stored only
      when one of its lines is set. */
  function Reselect(b: Bases, srcAddr: int, dstAddr: int, current: Selection): (s: Selection)
    ensures current.channel != NotAllocated ==> s == current
    ensures current.channel == NotAllocated && (InSram(b, srcAddr) || InSram(b, dstAddr)) ==>
              s == AddressSelection(b, srcAddr, dstAddr)
    ensures !InSram(b, srcAddr) && !InSram(b, dstAddr) ==> s == current
  {
    if current.channel != NotAllocated then current
    else
      AddressSelectionRules(b, srcAddr, dstAddr);
      var a := AddressSelection(b, srcAddr, dstAddr);
      if a.src == LineNone && a.dst == LineNone then current else a
  }

  /** The data width code of a transfer width in bits. */
  function WidthOf(bits: nat): (w: Option<Width>)
    ensures w.Some? <==> bits in {8, 16, 32}
    ensures bits == 32 ==> w == Some(WidthWord)
  {
    if bits == 8 then Some(Width1Byte)
    else if bits == 16 then Some(WidthHalfWord)
    else if bits == 32 then Some(WidthWord)
    else None
  }

  /** The burst size code, as the number of elements it stands for; 0 is
      taken as 1. */
  function BurstOf(n: nat): (b: Option<nat>)
    ensures b.Some? <==> n in {0, 1, 4, 8, 16, 32, 64, 128, 256}
    ensures b.Some? ==> b.value == (if n == 0 then 1 else n)
  {
    if n == 0 || n == 1 then Some(1)
    else if n in {4, 8, 16, 32, 64, 128, 256} then Some(n)
    else None
  }

  /** cyhal_dma_cfg_t */
  datatype Cfg = Cfg(srcAddr: int, srcIncrement: int, dstAddr: int, dstIncrement: int,
                     transferWidth: nat, length: nat, burstSize: nat, action: Action)

  predicate Unsupported(a: Action)
  {
    a == TransferBurst || a == TransferBurstDisable || a == TransferFullDisable
  }

  /** The result of `configure` once the channel is known, in the order the
      driver overwrites `status`: the action check, then the length, then
      the channel; the width and the burst size are checked only after
      those pass. */
  function ConfigureStatus(cfg: Cfg, channel: nat): Rslt
  {
    var s1 := if Unsupported(cfg.action) then DmaUnsupportedHardware else Success;
    var s2 := if cfg.length >= MaxLength then DmaInvalidTransferSize else s1;
    var s3 := if channel == NotAllocated then DmaInvalidParameter else s2;
    var s4 := if s3 == Success && WidthOf(cfg.transferWidth).None? then DmaInvalidTransferWidth else s3;
    if s4 == Success && BurstOf(cfg.burstSize).None? then DmaInvalidBurstSize else s4
  }

  /** The first checks of `configure`: an unsupported action, then a length
      of 4096 or more, which overrides it. */
  method PreCheck(cfg: Cfg) returns (status: Rslt)
    ensures status == (if cfg.length >= MaxLength then DmaInvalidTransferSize
                       else if Unsupported(cfg.action) then DmaUnsupportedHardware else Success)
  {
    status := Success;
    if cfg.action == TransferBurst || cfg.action == TransferBurstDisable || cfg.action == TransferFullDisable {
      status := DmaUnsupportedHardware;
    }
    if cfg.length >= MaxLength {
      status := DmaInvalidTransferSize;
    }
  }

  /** The last checks of `configure`: no channel overrides every earlier
      status; only a status still successful goes on to the width and then
      the burst size. */
  method FinishCheck(status0: Rslt, cfg: Cfg, channel: nat) returns (status: Rslt)
    ensures status0 == (if cfg.length >= MaxLength then DmaInvalidTransferSize
                        else if Unsupported(cfg.action) then DmaUnsupportedHardware else Success) ==>
              status == ConfigureStatus(cfg, channel)
  {
    status := status0;
    if channel == NotAllocated {
      status := DmaInvalidParameter;
    }
    if status == Success {
      var width := WidthOf(cfg.transferWidth);
      status := if width.Some? then Success else DmaInvalidTransferWidth;
    }
    if status == Success {
      var burst := BurstOf(cfg.burstSize);
      status := if burst.Some? then Success else DmaInvalidBurstSize;
    }
  }

  /** The precedence of the errors of `configure`. */
  lemma ConfigurePrecedence(cfg: Cfg, channel: nat)
    ensures var r := ConfigureStatus(cfg, channel);
            (channel == NotAllocated ==> r == DmaInvalidParameter) &&
            (channel != NotAllocated && cfg.length >= MaxLength ==> r == DmaInvalidTransferSize) &&
            (channel != NotAllocated && cfg.length < MaxLength && Unsupported(cfg.action) ==>
               r == DmaUnsupportedHardware) &&
            (channel != NotAllocated && cfg.length < MaxLength && !Unsupported(cfg.action) ==>
               r == (if WidthOf(cfg.transferWidth).None? then DmaInvalidTransferWidth
                     else if BurstOf(cfg.burstSize).None? then DmaInvalidBurstSize
                     else Success)) &&
            (r == Success <==> channel != NotAllocated && cfg.length < MaxLength && !Unsupported(cfg.action) &&
                               cfg.transferWidth in {8, 16, 32} && cfg.burstSize in {0, 1, 4, 8, 16, 32, 64, 128, 256})
  {
  }

  /** The DMACCxConfiguration word as far as the driver writes it: the
      lines and flow control `configure` sets (none since init), and the
      error, terminal-count and channel enable bits. */
  datatype ConfigReg = ConfigReg(lines: Option<(Line, Line, FlowControl)>, errIntMask: bool, tcIntMask: bool, channelEn: bool)

  /** A transfer set up by `configure`. */
  datatype Transfer = Transfer(srcAddr: int, dstAddr: int, length: nat, burst: nat, width: Width,
                               srcIncrement: int, dstIncrement: int)

  /** The DMACCxControl word as far as the driver writes it. */
  datatype ControlReg = ControlReg(transfer: Option<Transfer>, intEnable: bool)

  const ZeroConfig := ConfigReg(None, false, false, false)
  const ZeroControl := ControlReg(None, false)

  /** One btss_dmac_setPeripheralDMACSync(line, enable) call. */
  datatype SyncCall = SyncCall(line: Line, enable: bool)

  /** The synchronisation calls that end a successful `configure`. */
  function SyncCalls(t: FlowControl, src: Line, dst: Line): (calls: seq<SyncCall>)
    ensures t == FlowMemToPeriphNoFlow ==> calls == [SyncCall(dst, true)]
    ensures t == FlowPeriphToMemNoFlow ==> calls == [SyncCall(src, true)]
    ensures t != FlowMemToPeriphNoFlow && t != FlowPeriphToMemNoFlow ==>
              calls == [SyncCall(src, false), SyncCall(dst, false)]
  {
    if t == FlowMemToPeriphNoFlow then [SyncCall(dst, true)]
    else if t == FlowPeriphToMemNoFlow then [SyncCall(src, true)]
    else [SyncCall(src, false), SyncCall(dst, false)]
  }

  /** The event `_cyhal_dma_event_handler` reports for an error status. */
  function HandlerEvent(errStatus: bool): (e: Event)
    ensures e == GenericError <==> errStatus
    ensures e == TransferComplete <==> !errStatus
  {
    if errStatus then GenericError else TransferComplete
  }

  /** One callback invocation `callback(callback_arg, event)`. */
  datatype Delivery = Delivery(callback: nat, arg: int, event: Event)

  /** A table with no object in it. */
  function EmptyTable(): (t: seq<Channel?>)
    ensures |t| == ChannelCount && forall i :: 0 <= i < ChannelCount ==> t[i] == null
  {
    seq(ChannelCount, i => null)
  }

  /** Whether a table holds any object. */
  predicate HoldsAny(t: seq<Channel?>)
  {
    exists i :: 0 <= i < |t| && t[i] != null
  }

  /** The power-management entry the driver registers:
      CPU_DEEPSLEEP | SYSTEM_HIBERNATE, ignoring BEFORE_TRANSITION. */
  const PmCallbackData := SyspmChain.CallbackData(true, SyspmChain.DeepStates, {SyspmChain.BeforeTransition})

  /** The DMA entry is asked about deep sleep and hibernate in every mode
      but BEFORE_TRANSITION, and about no other state. */
  lemma PmCallbackEligibility(mode: SyspmChain.PmMode)
    ensures SyspmChain.Eligible(PmCallbackData, {SyspmChain.CpuDeepSleep}, mode) <==> mode != SyspmChain.BeforeTransition
    ensures !SyspmChain.Eligible(PmCallbackData, {SyspmChain.CpuSleep}, mode)
  {
  }

  /** cyhal_dma_t */
  class Channel {
    var resource: Inst
    var isEnabled: bool
    var transferType: FlowControl
    var srcCtrl: Line
    var destCtrl: Line
    /** dma_req.channel (a uint8) */
    var channel: nat
    /** dma_req.errStatus (one bit) */
    var errStatus: bool
    /** Whether `_cyhal_dma_event_handler` is installed as dma_req.callback. */
    var handlerInstalled: bool
    var callback: Option<nat>
    var callbackArg: int
    var config: ConfigReg
    var control: ControlReg

    constructor ()
      ensures channel == NotAllocated && callback == None && !isEnabled
    {
      resource := NoInst;
      isEnabled := false;
      transferType := FlowMemToMem;
      srcCtrl := LineNone;
      destCtrl := LineNone;
      channel := NotAllocated;
      errStatus := false;
      handlerInstalled := false;
      callback := None;
      callbackArg := 0;
      config := ZeroConfig;
      control := ZeroControl;
    }

    function Sel(): Selection
      reads this
    {
      Selection(channel, srcCtrl, destCtrl)
    }

    /** The state init leaves an object in: the granted resource, disabled,
        the direction's flow control, the trigger's choice, no error, no
        callback and both register words zero. */
    ghost predicate Reset(granted: Inst, direction: Direction, sel: Selection)
      reads this
    {
      resource == granted && !isEnabled && transferType == TransferType(direction) &&
      channel == sel.channel && srcCtrl == sel.src && destCtrl == sel.dst && !errStatus && !handlerInstalled && callback == None && callbackArg == 0 &&
      config == ZeroConfig && control == ZeroControl
    }

    /** The field assignments of a successful cyhal_dma_init_adv. */
    method Initialize(granted: Inst, direction: Direction, sel: Selection)
      modifies this
      ensures Reset(granted, direction, sel)
    {
      var flow := TransferType(direction);
      resource := granted;
      isEnabled := false;
      transferType := flow;
      srcCtrl := sel.src;
      destCtrl := sel.dst;
      channel := sel.channel;
      errStatus := false;
      handlerInstalled := false;
      callback := None;
      callbackArg := 0;
      config := ZeroConfig;
      control := ZeroControl;
    }

    /** cyhal_dma_configure: the address-range choice for an unallocated
        channel is stored even when the result is an error; on success the
        configuration and control words are written and the peripheral
        lines are synchronised. */
    method Configure(b: Bases, cfg: Cfg) returns (r: Rslt, sync: seq<SyncCall>)
      modifies this
      ensures Sel() == Reselect(b, cfg.srcAddr, cfg.dstAddr, old(Sel()))
      ensures r == ConfigureStatus(cfg, channel)
      ensures r == Success ==>
                config == old(config).(lines := Some((srcCtrl, destCtrl, transferType)), errIntMask := true) &&
                control == old(control).(transfer := Some(Transfer(cfg.srcAddr, cfg.dstAddr, cfg.length,
                                                                   BurstOf(cfg.burstSize).value,
                                                                   WidthOf(cfg.transferWidth).value,
                                                                   cfg.srcIncrement, cfg.dstIncrement))) &&
                sync == SyncCalls(transferType, srcCtrl, destCtrl)
      ensures r != Success ==> config == old(config) && control == old(control) && sync == []
      ensures resource == old(resource) && isEnabled == old(isEnabled) && transferType == old(transferType)
      ensures errStatus == old(errStatus) && handlerInstalled == old(handlerInstalled)
      ensures callback == old(callback) && callbackArg == old(callbackArg)
    {
      var status := PreCheck(cfg);
      SelectByAddress(b, cfg.srcAddr, cfg.dstAddr);
      status := FinishCheck(status, cfg, channel);
      sync := [];
      if status == Success {
        var burst := BurstOf(cfg.burstSize);
        var width := WidthOf(cfg.transferWidth);
        config := config.(lines := Some((srcCtrl, destCtrl, transferType)), errIntMask := true);
        control := control.(transfer := Some(Transfer(cfg.srcAddr, cfg.dstAddr, cfg.length, burst.value, width.value,
                                                      cfg.srcIncrement, cfg.dstIncrement)));
        sync := SyncCalls(transferType, srcCtrl, destCtrl);
      }
      r := status;
    }

    /** The address-range step of `configure`. */
    method SelectByAddress(b: Bases, srcAddr: int, dstAddr: int)
      modifies this
      ensures Sel() == Reselect(b, srcAddr, dstAddr, old(Sel()))
      ensures resource == old(resource) && isEnabled == old(isEnabled) && transferType == old(transferType)
      ensures errStatus == old(errStatus) && handlerInstalled == old(handlerInstalled)
      ensures callback == old(callback) && callbackArg == old(callbackArg)
      ensures config == old(config) && control == old(control)
    {
      if channel == NotAllocated {
        var a := AddressSelection(b, srcAddr, dstAddr);
        if !(a.src == LineNone && a.dst == LineNone) {
          channel := a.channel;
          srcCtrl := a.src;
          destCtrl := a.dst;
        }
      }
    }

    /** cyhal_dma_enable: sets the enable flag and the channel enable bit. */
    method Enable() returns (r: Rslt)
      modifies this
      ensures r == Success && isEnabled && config == old(config).(channelEn := true)
      ensures Sel() == old(Sel()) && control == old(control) && callback == old(callback)
      ensures resource == old(resource) && errStatus == old(errStatus)
    {
      isEnabled := true;
      config := config.(channelEn := true);
      r := Success;
    }

    /** cyhal_dma_disable: kills the transfer (a ROM call), clears the
        enable flag and the channel enable bit. */
    method Disable() returns (r: Rslt)
      modifies this
      ensures r == Success && !isEnabled && config == old(config).(channelEn := false)
      ensures Sel() == old(Sel()) && control == old(control) && callback == old(callback)
      ensures resource == old(resource) && errStatus == old(errStatus)
    {
      isEnabled := false;
      config := config.(channelEn := false);
      r := Success;
    }

    /** cyhal_dma_register_callback: installs the driver's handler with the
        ROM only for a non-NULL callback, and stores callback and argument
        either way. */
    method RegisterCallback(cb: Option<nat>, arg: int)
      modifies this
      ensures callback == cb && callbackArg == arg
      ensures handlerInstalled == (old(handlerInstalled) || cb.Some?)
      ensures Sel() == old(Sel()) && config == old(config) && control == old(control)
      ensures resource == old(resource) && isEnabled == old(isEnabled) && errStatus == old(errStatus)
    {
      if cb.Some? {
        handlerInstalled := true;
      }
      callback := cb;
      callbackArg := arg;
    }

    /** cyhal_dma_enable_event: a transfer- or descriptor-complete event
        sets the terminal-count mask (it is never cleared here), the error
        mask is always set, and the interrupt enable follows `enable`. */
    method EnableEvent(events: set<Event>, enable: bool)
      modifies this
      ensures config == old(config).(tcIntMask := old(config).tcIntMask || TransferComplete in events || DescriptorComplete in events,
                                     errIntMask := true)
      ensures control == old(control).(intEnable := enable)
      ensures Sel() == old(Sel()) && callback == old(callback) && callbackArg == old(callbackArg)
      ensures resource == old(resource) && isEnabled == old(isEnabled) && errStatus == old(errStatus)
    {
      var c := config;
      if TransferComplete in events || DescriptorComplete in events {
        c := c.(tcIntMask := true);
      }
      config := c.(errIntMask := true);
      control := control.(intEnable := enable);
    }
  }

  /** _cyhal_dma_event_handler: for an object, GENERIC_ERROR (clearing the
      error bit) when errStatus is set and TRANSFER_COMPLETE otherwise,
      delivered once to a registered callback; nothing for NULL. */
  method EventHandler(obj: Channel?) returns (delivered: Option<Delivery>)
    modifies obj
    ensures obj == null ==> delivered == None
    ensures obj != null ==>
              !obj.errStatus &&
              delivered == (if obj.callback.Some?
                            then Some(Delivery(obj.callback.value, obj.callbackArg, HandlerEvent(old(obj.errStatus))))
                            else None)
    ensures obj != null ==> obj.Sel() == old(obj.Sel()) && obj.callback == old(obj.callback) &&
                            obj.callbackArg == old(obj.callbackArg) && obj.isEnabled == old(obj.isEnabled) &&
                            obj.config == old(obj.config) && obj.control == old(obj.control)
  {
    delivered := None;
    if obj != null {
      var cb := obj.callback;
      var event;
      if obj.errStatus {
        obj.errStatus := false;
        event := GenericError;
      } else {
        event := TransferComplete;
      }
      if cb.Some? {
        delivered := Some(Delivery(cb.value, obj.callbackArg, event));
      }
    }
  }

  /** A DMA instance the hardware manager can hand out: block 0, one of the
      eight channels. */
  predicate IsDmaChannel(i: Inst)
  {
    i.kind == Dma && i.block == 0 && 0 <= i.channel < ChannelCount
  }

  /** The file statics of the driver. */
  class Driver {
    var arraysInitialized: bool
    /** _cyhal_dma_obj (CY_NOINIT: whatever memory held until the first
        init clears it) */
    const table: array<Channel?>
    var dmacEnabled: bool
    var pmPending: bool
    /** Whether the PM entry is on the peripheral callback list. */
    var pmRegistered: bool
    /** The objects initialised and not yet freed. */
    ghost var live: set<Channel>

    /** No object is live before the first init, and every live object is
        in the table at its hardware channel. */
    ghost predicate Valid()
      reads this, table, live
    {
      table.Length == ChannelCount &&
      (!arraysInitialized ==> live == {}) &&
      forall o :: o in live ==> 0 <= o.resource.channel < ChannelCount && table[o.resource.channel] == o
    }

    /** Every live object holds a DMA channel the hardware manager has
        reserved. */
    ghost predicate Owned(hw: HwMgr.Manager)
      reads this, live, hw
    {
      forall o :: o in live ==> IsDmaChannel(o.resource) && o.resource in hw.reserved
    }

    constructor (leftover: seq<Channel?>)
      requires |leftover| == ChannelCount
      ensures Valid() && fresh(table) && table[..] == leftover && live == {}
      ensures !arraysInitialized && !dmacEnabled && !pmPending && !pmRegistered
    {
      arraysInitialized := false;
      table := new Channel?[ChannelCount](i requires 0 <= i < ChannelCount => leftover[i]);
      dmacEnabled := false;
      pmPending := false;
      pmRegistered := false;
      live := {};
      new;
      assert table[..] == leftover;
    }


    /** Whether some object in the table is busy, by the ROM's status. */
    predicate AnyBusy(busy: Channel -> bool)
      reads this, table
    {
      exists i :: 0 <= i < table.Length && table[i] != null && busy(table[i])
    }

    /** _cyhal_dma_pm_has_enabled */
    method HasEnabled() returns (r: bool)
      ensures r == HoldsAny(table[..])
    {
      var idx := 0;
      while idx < table.Length
        invariant 0 <= idx <= table.Length
        invariant forall j :: 0 <= j < idx ==> table[j] == null
      {
        if table[idx] != null {
          return true;
        }
        idx := idx + 1;
      }
      return false;
    }

    /** _cyhal_dma_pm_callback: CHECK_READY refuses exactly when an object
        in the table is busy, so whenever a live object is busy, and marks a
        transition pending when it allows; CHECK_FAIL and AFTER_TRANSITION
        clear the mark; every mode but a refused CHECK_READY allows. */
    method PmCallback(mode: SyspmChain.PmMode, busy: Channel -> bool) returns (allow: bool)
      requires Valid()
      modifies this
      ensures Valid() && live == old(live)
      ensures allow == (mode != SyspmChain.CheckReady || !AnyBusy(busy))
      ensures mode == SyspmChain.CheckReady && (exists o :: o in live && busy(o)) ==> !allow
      ensures pmPending == (if mode == SyspmChain.CheckFail || mode == SyspmChain.AfterTransition then false
                            else if mode == SyspmChain.CheckReady && allow then true
                            else old(pmPending))
      ensures arraysInitialized == old(arraysInitialized) && dmacEnabled == old(dmacEnabled)
      ensures pmRegistered == old(pmRegistered)
    {
      if mode == SyspmChain.CheckFail || mode == SyspmChain.AfterTransition {
        pmPending := false;
      } else if mode == SyspmChain.CheckReady {
        var idx := 0;
        while idx < table.Length
          invariant 0 <= idx <= table.Length
          invariant forall j :: 0 <= j < idx && table[j] != null ==> !busy(table[j])
        {
          if table[idx] != null && busy(table[idx]) {
            return false;
          }
          idx := idx + 1;
        }
        assert forall o :: o in live && busy(o) ==> table[o.resource.channel] == o && busy(table[o.resource.channel]);
        pmPending := true;
      }
      allow := true;
    }

    /** cyhal_dma_start_transfer: PM_PENDING while a transition is pending;
        otherwise a successful no-op when disabled; when enabled,
        TRANSFER_ALREADY_STARTED if busy, else a request to the ROM, which
        fails as INVALID_PARAMETER when the ROM turns it down. */
    method StartTransfer(obj: Channel, busy: bool, romAccepts: bool) returns (r: Rslt, requested: bool)
      ensures requested <==> !pmPending && obj.isEnabled && !busy
      ensures pmPending ==> r == SyspmPmPending
      ensures !pmPending && !obj.isEnabled ==> r == Success
      ensures !pmPending && obj.isEnabled && busy ==> r == DmaTransferAlreadyStarted
      ensures requested ==> r == (if romAccepts then Success else DmaInvalidParameter)
    {
      requested := false;
      if pmPending {
        return SyspmPmPending, false;
      }
      if obj.isEnabled {
        if busy {
          return DmaTransferAlreadyStarted, false;
        }
        requested := true;
        if !romAccepts {
          return DmaInvalidParameter, true;
        }
      }
      r := Success;
    }

    /** The first part of cyhal_dma_init_adv: clearing the table the first
        time through. */
    method InitArrays()
      requires Valid()
      modifies this, table
      ensures Valid() && live == old(live)
      ensures table[..] == if old(arraysInitialized) then old(table[..]) else EmptyTable()
      ensures arraysInitialized
      ensures dmacEnabled == old(dmacEnabled) && pmPending == old(pmPending) && pmRegistered == old(pmRegistered)
    {
      if !arraysInitialized {
        var i := 0;
        while i < ChannelCount
          invariant 0 <= i <= ChannelCount
          invariant forall j :: 0 <= j < i ==> table[j] == null
          modifies table
        {
          table[i] := null;
          i := i + 1;
        }
        assert table[..] == EmptyTable();
        arraysInitialized := true;
      }
    }

    /** The table and registration part of a successful init: the DMAC is
        enabled (once), the PM entry is registered if the table holds no
        object, and the object is entered at `slot`. */
    method Track(obj: Channel, slot: nat)
      requires table.Length == ChannelCount && slot < ChannelCount
      modifies this, table
      ensures dmacEnabled && pmRegistered == (old(pmRegistered) || !HoldsAny(old(table[..])))
      ensures table[..] == old(table[..])[slot := obj]
      ensures arraysInitialized == old(arraysInitialized) && pmPending == old(pmPending) && live == old(live)
    {
      dmacEnabled := true;
      var tracked := HasEnabled();
      if !tracked {
        pmRegistered := true;
      }
      table[slot] := obj;
    }

    /** cyhal_dma_init_adv.  A source and a destination given together, or
        a destination source, is INVALID_PARAMETER before any allocation; the
        hardware manager's allocation (`granted`, with its result `outcome`)
        decides the rest.  On success the object is reset to the trigger's
        choice, the DMAC is enabled once, the PM entry registered if no
        object was in the table, and the object is entered at the index of
        its hardware channel, where free looks for it; it is then live, and
        when the channel was not reserved before, no live object loses its
        entry. */
    method InitAdv(obj: Channel, src: Option<Source>, dest: Option<Dest>, destSource: bool, direction: Direction,
                   hw: HwMgr.Manager, granted: Inst, outcome: Rslt) returns (r: Rslt)
      requires Valid()
      requires outcome == Success ==> IsDmaChannel(granted)
      modifies this, table, obj, hw
      ensures Valid() && arraysInitialized && pmPending == old(pmPending)
      ensures old(Owned(hw)) ==> Owned(hw)
      ensures (src.Some? && dest.Some?) || destSource ==>
                r == DmaInvalidParameter && unchanged(obj) && hw.reserved == old(hw.reserved)
      ensures !((src.Some? && dest.Some?) || destSource) ==>
                r == outcome &&
                hw.reserved == (if outcome == Success then old(hw.reserved) + {granted} else old(hw.reserved))
      ensures var t0 := if old(arraysInitialized) then old(table[..]) else EmptyTable();
              (r == Success ==>
                 obj.Reset(granted, direction, InitSelection(src, dest)) && dmacEnabled &&
                 pmRegistered == (old(pmRegistered) || !HoldsAny(t0)) &&
                 table[..] == t0[granted.channel := obj] && obj in live) &&
              (r != Success ==>
                 unchanged(obj) && live == old(live) &&
                 dmacEnabled == old(dmacEnabled) && pmRegistered == old(pmRegistered) && table[..] == t0)
      ensures r == Success && old(Owned(hw)) && granted !in old(hw.reserved) ==> live == old(live) + {obj}
    {
      InitArrays();
      if (src.Some? && dest.Some?) || destSource {
        return DmaInvalidParameter;
      }
      r := Admit(obj, InitSelection(src, dest), direction, hw, granted, outcome);
    }

    /** The part of cyhal_dma_init_adv after the argument check, on
        initialised arrays: reserve, then set up the object and enter it at
        its hardware channel.  A live object already at that entry (which a
        fresh reservation rules out) stops being live. */
    method Admit(obj: Channel, sel: Selection, direction: Direction,
                 hw: HwMgr.Manager, granted: Inst, outcome: Rslt) returns (r: Rslt)
      requires Valid() && arraysInitialized
      requires outcome == Success ==> IsDmaChannel(granted)
      modifies this, table, obj, hw
      ensures Valid() && arraysInitialized && pmPending == old(pmPending)
      ensures old(Owned(hw)) ==> Owned(hw)
      ensures r == outcome
      ensures hw.reserved == (if outcome == Success then old(hw.reserved) + {granted} else old(hw.reserved))
      ensures r == Success ==>
                obj.Reset(granted, direction, sel) && dmacEnabled &&
                pmRegistered == (old(pmRegistered) || !HoldsAny(old(table[..]))) &&
                table[..] == old(table[..])[granted.channel := obj] &&
                live == (set o | o in old(live) && o != obj && o.resource.channel != granted.channel) + {obj}
      ensures r != Success ==>
                unchanged(obj) && live == old(live) &&
                dmacEnabled == old(dmacEnabled) && pmRegistered == old(pmRegistered) && table[..] == old(table[..])
      ensures r == Success && old(Owned(hw)) && granted !in old(hw.reserved) ==> live == old(live) + {obj}
    {
      ghost var owned := Owned(hw);
      ghost var reserved0 := hw.reserved;
      r := hw.Reserve(granted, outcome);
      if r == Success {
        obj.Initialize(granted, direction, sel);
        ghost var t0 := table[..];
        Track(obj, granted.channel);
        assert pmRegistered == (old(pmRegistered) || !HoldsAny(t0));
        live := (set o | o in live && o != obj && o.resource.channel != granted.channel) + {obj};
        if owned && granted !in reserved0 {
          assert forall o :: o in old(live) && o != obj ==> o.resource in reserved0 && o.resource.channel != granted.channel;
        }
      }
    }

    /** cyhal_dma_free: clears the entry at the object's hardware channel,
        unregisters the PM entry when the table is then empty, and frees the
        resource.  A live object leaves the live set, and only it; freeing
        an object that is not live evicts whichever object held its entry. */
    method Free(obj: Channel, hw: HwMgr.Manager)
      requires Valid() && 0 <= obj.resource.channel < ChannelCount
      modifies this, table, hw
      ensures Valid() && arraysInitialized == old(arraysInitialized)
      ensures old(Owned(hw)) ==> Owned(hw)
      ensures table[..] == old(table[..])[obj.resource.channel := null]
      ensures live == set o | o in old(live) && o.resource.channel != obj.resource.channel
      ensures obj in old(live) ==> live == old(live) - {obj}
      ensures pmRegistered == (old(pmRegistered) && HoldsAny(table[..]))
      ensures hw.reserved == old(hw.reserved) - {obj.resource}
      ensures pmPending == old(pmPending) && dmacEnabled == old(dmacEnabled)
    {
      table[obj.resource.channel] := null;
      live := set o | o in live && o.resource.channel != obj.resource.channel;
      var tracked := HasEnabled();
      if !tracked {
        pmRegistered := false;
      }
      hw.Free(obj.resource);
    }
  }
}
