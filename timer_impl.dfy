/** The timer front end (include_pvt/cyhal_timer_impl.h): a timer object is
    either a T2 timer or a TCPWM counter, and each call is forwarded to the
    matching driver.  The TCPWM driver is not part of this model; the calls
    forwarded to it are recorded. */
module TimerImpl {
  import T2Timer
  import HwMgr

  /** cyhal_timer_event_t bits. */
  const IrqTerminalCount: bv32 := 1
  const IrqCaptureCompare: bv32 := 2

  /** The PDL's TCPWM interrupt bits. */
  const IntOnTc: bv32 := 1
  const IntOnCc: bv32 := 2

  /** _cyhal_timer_convert_event: build the PDL mask from the HAL event bits. */
  function ConvertEvent(event: bv32): (r: bv32)
    ensures r & IntOnTc != 0 <==> event & IrqTerminalCount != 0
    ensures r & IntOnCc != 0 <==> event & IrqCaptureCompare != 0
    ensures r & !(IntOnTc | IntOnCc) == 0
    ensures event & (IrqTerminalCount | IrqCaptureCompare) == 0 ==> r == 0
  {
    var tc: bv32 := if event & IrqTerminalCount != 0 then IntOnTc else 0;
    var cc: bv32 := if event & IrqCaptureCompare != 0 then IntOnCc else 0;
    tc | cc
  }

  /** The conversion distributes over the union of event sets. */
  lemma ConvertEventUnion(a: bv32, b: bv32)
    ensures ConvertEvent(a | b) == ConvertEvent(a) | ConvertEvent(b)
  {
    assert (a | b) & IrqTerminalCount != 0 <==> a & IrqTerminalCount != 0 || b & IrqTerminalCount != 0;
    assert (a | b) & IrqCaptureCompare != 0 <==> a & IrqCaptureCompare != 0 || b & IrqCaptureCompare != 0;
  }

  /** A call forwarded to the TCPWM driver. */
  datatype TcpwmCall =
    | TcpwmFree
    | TcpwmRegisterCallback(callback: T2Timer.Callback, arg: int)
    | TcpwmEnableEvent(pdlEvent: bv32, priority: nat, enable: bool)

  /** cyhal_timer_t: the union of the two kinds, and which one is live. */
  class Timer {
    var isT2timer: bool
    var t2: T2Timer.Timer
    ghost var tcpwmCalls: seq<TcpwmCall>

    constructor (isT2: bool, t: T2Timer.Timer)
      ensures isT2timer == isT2 && t2 == t && tcpwmCalls == []
    {
      isT2timer := isT2;
      t2 := t;
      tcpwmCalls := [];
    }

    /** _cyhal_timer_free */
    method Free(slots: T2Timer.Slots, hw: HwMgr.Manager)
      requires slots.Valid()
      modifies this, slots.inUse, hw
      ensures slots.Valid() && isT2timer == old(isT2timer) && t2 == old(t2)
      ensures isT2timer ==> tcpwmCalls == old(tcpwmCalls)
      ensures isT2timer && !old(slots.Reserved(t2.whichTimer)) ==>
        slots.inUse[..] == old(slots.inUse[..]) && hw.reserved == old(hw.reserved)
      ensures isT2timer && old(slots.Reserved(t2.whichTimer)) ==>
        slots.inUse[..] == old(slots.inUse[..])[t2.whichTimer.Index() := false] &&
        hw.reserved == old(hw.reserved) - {t2.resource}
      ensures !isT2timer ==>
        tcpwmCalls == old(tcpwmCalls) + [TcpwmFree] &&
        slots.inUse[..] == old(slots.inUse[..]) && hw.reserved == old(hw.reserved)
    {
      if isT2timer {
        slots.Free(t2, hw);
      } else {
        tcpwmCalls := tcpwmCalls + [TcpwmFree];
      }
    }

    /** _cyhal_timer_register_callback_internal */
    method RegisterCallback(cb: T2Timer.Callback, arg: int)
      modifies this, t2
      ensures isT2timer == old(isT2timer) && t2 == old(t2)
      ensures isT2timer ==>
        t2.callback == cb && t2.callbackArg == arg &&
        t2.settings == old(t2.settings).(intEnable := true) && tcpwmCalls == old(tcpwmCalls)
      ensures !isT2timer ==> unchanged(t2) && tcpwmCalls == old(tcpwmCalls) + [TcpwmRegisterCallback(cb, arg)]
    {
      if isT2timer {
        t2.RegisterCallback(cb, arg);
      } else {
        tcpwmCalls := tcpwmCalls + [TcpwmRegisterCallback(cb, arg)];
      }
    }

    /** _cyhal_timer_enable_event_internal: nothing at all for a T2 timer;
        the converted mask for a TCPWM counter. */
    method EnableEvent(event: bv32, priority: nat, enable: bool)
      modifies this
      ensures isT2timer == old(isT2timer) && t2 == old(t2)
      ensures isT2timer ==> tcpwmCalls == old(tcpwmCalls)
      ensures !isT2timer ==> tcpwmCalls == old(tcpwmCalls) + [TcpwmEnableEvent(ConvertEvent(event), priority, enable)]
    {
      if !isT2timer {
        tcpwmCalls := tcpwmCalls + [TcpwmEnableEvent(ConvertEvent(event), priority, enable)];
      }
    }
  }
}
