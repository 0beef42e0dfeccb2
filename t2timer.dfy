/** The T2 timer driver (source/cyhal_t2timer.c): two auxiliary ROM timers,
    AUX_1 and AUX_2, handed out by a two-slot allocator.  The ROM routines
    clock_auxTimerStart/Stop/UsToExpiry are foreign; their results are inputs. */
module T2Timer {
  import opened Results
  import opened Resources
  import opened CTypes
  import opened Options
  import HwMgr

  /** T2_ARM_TIMER_AUX_t: the two timers; they index the in-use table. */
  datatype Aux = Aux1 | Aux2
  {
    function Index(): nat { if this == Aux1 then 0 else 1 }
  }

  datatype Divisor = Divisor1 | Divisor16 | Divisor256
  datatype TimerSize = Size16Bit | Size32Bit

  /** What `callback_func` points at.  AddressOfConfigField is the address
      of the `callback_func` field of a caller's configuration object, which
      is data, not code. */
  datatype Callback = NoCallback | DefaultCallback | Handler(id: nat) | AddressOfConfigField

  /** The settings kept in cyhal_t2timer_t.  The header documents `mode`
      true as freerunning (false periodic) and `counterMode` true as wrapping
      (false one-shot); the ROM enumerators are taken to follow that. */
  datatype Settings = Settings(
    enabled: bool,
    mode: bool,
    intEnable: bool,
    divisor: Divisor,
    size: TimerSize,
    counterMode: bool,
    duration: uint32)

  /** _cyhal_t2timer_timer_default_config: enabled, freerunning, interrupt
      disabled, divisor 1, 16-bit, wrapping, duration 100000. */
  const DefaultSettings := Settings(true, true, false, Divisor1, Size16Bit, true, 100000)

  /** cyhal_t2timer_cfg_t */
  datatype Cfg = Cfg(mode: bool, counterMode: bool, duration: uint32)

  /** A caller-supplied cyhal_t2timer_t used as the init configuration. */
  datatype InitConfig = InitConfig(settings: Settings, handler: nat, arg: int)

  /** The callback `cyhal_t2timer_init` stores for a non-NULL configuration,
      as written: the address of the configuration's callback field. */
  function InitCallbackAsWritten(config: InitConfig): (c: Callback)
    ensures c != Handler(config.handler)
  {
    AddressOfConfigField
  }

  /** The callback init evidently means to store: the configured one. */
  function InitCallbackIntended(config: InitConfig): (c: Callback)
    ensures c == Handler(config.handler)
  {
    Handler(config.handler)
  }

  /** The settings `configure` derives: mode, counter mode and duration are
      copied; the size is 32-bit exactly when the duration needs more than
      16 bits (duration >= 0xFFFF). */
  function Configured(s: Settings, cfg: Cfg): (t: Settings)
    ensures t.mode == cfg.mode && t.counterMode == cfg.counterMode && t.duration == cfg.duration
    ensures t.size == Size32Bit <==> cfg.duration >= 0xFFFF
    ensures t.enabled == s.enabled && t.intEnable == s.intEnable && t.divisor == s.divisor
  {
    s.(mode := cfg.mode, counterMode := cfg.counterMode, duration := cfg.duration,
       size := if cfg.duration >= 0xFFFF then Size32Bit else Size16Bit)
  }

  /** _CY_T2TIMER_TO_HAL_RETURN: the ROM reports success as 1. */
  function ToHalReturn(romOk: bool): (r: Rslt)
    ensures r == Success <==> romOk
    ensures !romOk ==> r == T2Err
  {
    if romOk then Success else T2Err
  }

  /** The value of `_cyhal_t2timer_read`: a remaining time, or, for an
      unreserved timer, the BAD_ARGUMENT code returned where a time is
      expected (both are plain uint32 in C). */
  datatype ReadValue = Remaining(us: uint32) | ErrorCode(code: Rslt)

  /** The remaining time scaled by the divisor, in wrapping 32-bit arithmetic. */
  function Scaled(timeLeft: uint32, d: Divisor): (r: uint32)
    ensures d == Divisor1 ==> r == timeLeft
    ensures d == Divisor16 && timeLeft < 0x1000_0000 ==> r == timeLeft * 16
    ensures d == Divisor256 && timeLeft < 0x100_0000 ==> r == timeLeft * 256
  {
    match d
    case Divisor1 => timeLeft
    case Divisor16 => MulU32(timeLeft, 16)
    case Divisor256 => MulU32(timeLeft, 256)
  }

  /** cyhal_t2timer_t */
  class Timer {
    var whichTimer: Aux
    var settings: Settings
    var callback: Callback
    var callbackArg: int
    var resource: Inst

    constructor ()
      ensures whichTimer == Aux1 && callback == NoCallback && resource == NoInst
    {
      whichTimer := Aux1;
      settings := DefaultSettings;
      callback := NoCallback;
      callbackArg := 0;
      resource := NoInst;
    }

    /** _cyhal_t2timer_register_callback: enables the interrupt and stores
        the callback and argument. */
    method RegisterCallback(cb: Callback, arg: int)
      modifies this
      ensures settings == old(settings).(intEnable := true)
      ensures callback == cb && callbackArg == arg
      ensures whichTimer == old(whichTimer) && resource == old(resource)
    {
      settings := settings.(intEnable := true);
      callback := cb;
      callbackArg := arg;
    }

    /** _cyhal_t2timer_configure: always succeeds. */
    method Configure(cfg: Cfg) returns (r: Rslt)
      modifies this
      ensures r == Success
      ensures settings == Configured(old(settings), cfg)
      ensures whichTimer == old(whichTimer) && callback == old(callback)
      ensures callbackArg == old(callbackArg) && resource == old(resource)
    {
      settings := Configured(settings, cfg);
      r := Success;
    }
  }

  /** The two-entry `_cyhal_t2timer_in_use` table (true = RESERVED). */
  class Slots {
    var inUse: array<bool>

    ghost predicate Valid()
      reads this
    {
      inUse.Length == 2
    }

    predicate Reserved(a: Aux)
      reads this, inUse
      requires Valid()
    {
      inUse[a.Index()]
    }

    /** Both timers start FREE. */
    constructor ()
      ensures Valid() && fresh(inUse)
      ensures !Reserved(Aux1) && !Reserved(Aux2)
    {
      inUse := new bool[2](_ => false);
    }

    /** The timer init would take: AUX_1 if free, else AUX_2 if free. */
    function Choice(): (c: Option<Aux>)
      reads this, inUse
      requires Valid()
      ensures c == Some(Aux1) <==> !Reserved(Aux1)
      ensures c == Some(Aux2) <==> Reserved(Aux1) && !Reserved(Aux2)
      ensures c == None <==> Reserved(Aux1) && Reserved(Aux2)
    {
      if !inUse[0] then Some(Aux1) else if !inUse[1] then Some(Aux2) else None
    }

    /** _cyhal_t2timer_init: reserve AUX_1 if it is free, else AUX_2, else
        fail with ERR_INIT and change nothing.  With no configuration the
        defaults and the no-op callback are loaded (the argument is kept);
        otherwise the configuration's settings, callback and argument are
        copied.  The hardware manager is not involved. */
    method Init(obj: Timer, config: Option<InitConfig>) returns (r: Rslt)
      requires Valid()
      modifies inUse, obj
      ensures Valid()
      ensures old(Choice()).None? ==> r == T2Init && inUse[..] == old(inUse[..]) && unchanged(obj)
      ensures old(Choice()).Some? ==>
        var a := old(Choice()).value;
        r == Success && Reserved(a) && obj.whichTimer == a &&
        inUse[..] == old(inUse[..])[a.Index() := true] &&
        obj.resource == old(obj.resource) &&
        (config.None? ==> obj.settings == DefaultSettings && obj.callback == DefaultCallback &&
                          obj.callbackArg == old(obj.callbackArg)) &&
        (config.Some? ==> obj.settings == config.value.settings &&
                          obj.callback == InitCallbackIntended(config.value) &&
                          obj.callbackArg == config.value.arg)
    {
      var choice := Choice();
      if choice.None? {
        return T2Init;
      }
      var a := choice.value;
      inUse[a.Index()] := true;
      obj.whichTimer := a;
      if config.None? {
        obj.settings := DefaultSettings;
        obj.callback := DefaultCallback;
      } else {
        obj.settings := config.value.settings;
        obj.callback := InitCallbackIntended(config.value);
        obj.callbackArg := config.value.arg;
      }
      r := Success;
    }

    /** _cyhal_t2timer_free: a timer that is not reserved is left alone;
        otherwise it is stopped (foreign), marked FREE and its resource is
        returned to the hardware manager. */
    method Free(obj: Timer, hw: HwMgr.Manager)
      requires Valid()
      modifies inUse, hw
      ensures Valid()
      ensures !old(Reserved(obj.whichTimer)) ==> inUse[..] == old(inUse[..]) && hw.reserved == old(hw.reserved)
      ensures old(Reserved(obj.whichTimer)) ==>
        inUse[..] == old(inUse[..])[obj.whichTimer.Index() := false] &&
        hw.reserved == old(hw.reserved) - {obj.resource}
    {
      if !inUse[obj.whichTimer.Index()] {
        return;
      }
      inUse[obj.whichTimer.Index()] := false;
      hw.Free(obj.resource);
    }

    /** _cyhal_t2timer_start and _cyhal_t2timer_reset: BAD_ARGUMENT for an
        unreserved timer, else the ROM start result. */
    method Start(obj: Timer, romOk: bool) returns (r: Rslt)
      requires Valid()
      ensures !Reserved(obj.whichTimer) ==> r == T2BadArgument
      ensures Reserved(obj.whichTimer) ==> r == ToHalReturn(romOk)
    {
      if !inUse[obj.whichTimer.Index()] {
        return T2BadArgument;
      }
      r := ToHalReturn(romOk);
    }

    /** _cyhal_t2timer_stop: as start, with the ROM stop result. */
    method Stop(obj: Timer, romOk: bool) returns (r: Rslt)
      requires Valid()
      ensures !Reserved(obj.whichTimer) ==> r == T2BadArgument
      ensures Reserved(obj.whichTimer) ==> r == ToHalReturn(romOk)
    {
      if !inUse[obj.whichTimer.Index()] {
        return T2BadArgument;
      }
      r := ToHalReturn(romOk);
    }

    /** _cyhal_t2timer_read: the ROM's remaining microseconds scaled by the
        divisor; an unreserved timer yields the BAD_ARGUMENT code. */
    method Read(obj: Timer, timeLeft: uint32) returns (v: ReadValue)
      requires Valid()
      ensures !Reserved(obj.whichTimer) ==> v == ErrorCode(T2BadArgument)
      ensures Reserved(obj.whichTimer) ==> v == Remaining(Scaled(timeLeft, obj.settings.divisor))
    {
      if !inUse[obj.whichTimer.Index()] {
        return ErrorCode(T2BadArgument);
      }
      v := Remaining(Scaled(timeLeft, obj.settings.divisor));
    }
  }

  /** Two successful inits take the two different timers, and a third one
      fails while both are held. */
  method InitTwiceThenFail(s: Slots, a: Timer, b: Timer, c: Timer) returns (ra: Rslt, rb: Rslt, rc: Rslt)
    requires s.Valid() && !s.Reserved(Aux1) && !s.Reserved(Aux2)
    requires a != b
    modifies s.inUse, a, b, c
    ensures ra == Success && rb == Success && rc == T2Init
    ensures a.whichTimer == Aux1 && b.whichTimer == Aux2
  {
    ra := s.Init(a, None);
    rb := s.Init(b, None);
    rc := s.Init(c, None);
  }
}
