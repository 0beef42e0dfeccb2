/** The PDM-to-PCM converter driver of source/cyhal_pdmpcm.c: the table of
    accepted (sample rate, decimation rate) pairs and the rest of the
    configuration check of cyhal_pdm_pcm_init, the stabilisation counter,
    the one outstanding asynchronous read, and the FIFO interrupt handler
    that completes it and reports overflow and half-full events.  The FIFO
    itself and every Cy_PDM_PCM_* call are PDL code: a FIFO context is
    known by an opaque number, and a caller's buffer by its address. */
module PdmPcm {
  import opened Results
  import opened Options
  import Pins
  import SyspmChain

  const Rate2M: nat := 2048000
  const Rate1M: nat := 1024000
  const Rate512K: nat := 512000

  /** _CYHAL_PDM_PCM_MAX_FIFO_LEVEL >> 1 */
  const HalfFifoLevel: nat := 0xFF / 2
  /** The one length cyhal_pdm_pcm_read_async accepts, and the number of
      words the handler reads out of one FIFO. */
  const ReadLength: nat := HalfFifoLevel + 1
  const StabilizeTimeMs: nat := 25
  const Milliseconds: nat := 1000

  /** cy_en_pdm_pcm_sample_rate_t: the PDL's six conversion settings,
      named by PDM clock and PCM rate. */
  datatype PdlRate = Rate2M8K | Rate2M16K | Rate1M8K | Rate1M16K | Rate512K8K | Rate512K16K

  /** The PCM sample rate a PDL setting is named for, in Hz. */
  function PcmRate(p: PdlRate): nat
  {
    match p
    case Rate2M8K => 8000
    case Rate1M8K => 8000
    case Rate512K8K => 8000
    case _ => 16000
  }

  /** The PDM clock a PDL setting is named for, in Hz. */
  function PdmClock(p: PdlRate): nat
  {
    match p
    case Rate2M8K => Rate2M
    case Rate2M16K => Rate2M
    case Rate1M8K => Rate1M
    case Rate1M16K => Rate1M
    case _ => Rate512K
  }

  /** The conversions the driver documents: 2.048M/16k (decimation 128),
      2.048M/8k (256), 1.024M/16k (64), 1.024M/8k (128), 512k/16k (32) and
      512k/8k (64). */
  const DocumentedPairs: set<(nat, nat)> :=
    {(Rate2M, 128), (Rate2M, 256), (Rate1M, 64), (Rate1M, 128), (Rate512K, 32), (Rate512K, 64)}

  /** The if-chain of cyhal_pdm_pcm_init from (sample_rate, decimation_rate)
      to the PDL setting, None standing for _CYHAL_PDM_PCM_SAMPLE_RATE_UNDEFINED.
      A pair is accepted iff it is one of the documented conversions, and
      the setting it picks is the one named for that PDM clock and for the
      PCM rate the clock divided by the decimation gives. */
  function PdlSampleRate(sampleRate: nat, decimationRate: nat): (p: Option<PdlRate>)
    ensures p.Some? <==> (sampleRate, decimationRate) in DocumentedPairs
    ensures p.Some? ==> PdmClock(p.value) == sampleRate && PcmRate(p.value) * decimationRate == sampleRate
  {
    if sampleRate == Rate2M && decimationRate == 256 then Some(Rate2M8K)
    else if sampleRate == Rate2M && decimationRate == 128 then Some(Rate2M16K)
    else if sampleRate == Rate1M && decimationRate == 128 then Some(Rate1M8K)
    else if sampleRate == Rate1M && decimationRate == 64 then Some(Rate1M16K)
    else if sampleRate == Rate512K && decimationRate == 64 then Some(Rate512K8K)
    else if sampleRate == Rate512K && decimationRate == 32 then Some(Rate512K16K)
    else None
  }

  /** Distinct accepted pairs pick distinct PDL settings. */
  lemma PdlSampleRateInjective(r1: nat, d1: nat, r2: nat, d2: nat)
    requires PdlSampleRate(r1, d1).Some? && PdlSampleRate(r1, d1) == PdlSampleRate(r2, d2)
    ensures r1 == r2 && d1 == d2
  {
    var p := PdlSampleRate(r1, d1).value;
    assert PcmRate(p) > 0;
    assert PcmRate(p) * d1 == PcmRate(p) * d2;
  }

  /** The number of FIFO interrupts whose data is discarded after init:
      (sample_rate * 25) / (_CYHAL_PDM_PCM_HALF_FIFO_LEVEL * decimation_rate
      * 1000) + 1, in integer division. */
  function StabilizationCycles(sampleRate: nat, decimationRate: nat): nat
    requires decimationRate > 0
  {
    (sampleRate * StabilizeTimeMs) / (HalfFifoLevel * decimationRate * Milliseconds) + 1
  }

  /** The data the handler discards covers the first 25 ms: the discarded
      reads hold more PCM words than 25 ms of conversion produces (in PDM
      clocks: ReadLength words per read, `decimationRate` clocks per word). */
  lemma {:induction false} StabilizationCoversSettling(sampleRate: nat, decimationRate: nat)
    requires decimationRate > 0
    ensures StabilizationCycles(sampleRate, decimationRate) * ReadLength * decimationRate * Milliseconds
            > sampleRate * StabilizeTimeMs
  {
    var n := sampleRate * StabilizeTimeMs;
    var d := HalfFifoLevel * decimationRate * Milliseconds;
    var c := StabilizationCycles(sampleRate, decimationRate);
    assert d > 0 by {
      assert decimationRate * Milliseconds > 0;
      assert HalfFifoLevel * (decimationRate * Milliseconds) > 0;
    }
    var q := n / d;
    assert n == d * q + n % d && n % d < d;
    assert c == q + 1;
    assert c * d > n by {
      assert c * d == q * d + d;
    }
    calc {
      c * ReadLength * decimationRate * Milliseconds;
    ==
      c * (HalfFifoLevel * decimationRate * Milliseconds) + c * (decimationRate * Milliseconds);
    >=
      c * d;
    }
  }

  /** For the accepted pairs: two discarded reads at the 8 kHz settings and
      four at the 16 kHz ones, and none of the unsigned 32-bit products of
      the formula wraps. */
  lemma StabilizationForDocumentedPairs(sampleRate: nat, decimationRate: nat)
    requires (sampleRate, decimationRate) in DocumentedPairs
    ensures decimationRate > 0
    ensures StabilizationCycles(sampleRate, decimationRate)
            == if PcmRate(PdlSampleRate(sampleRate, decimationRate).value) == 8000 then 2 else 4
    ensures sampleRate * StabilizeTimeMs < 0x1_0000_0000
    ensures HalfFifoLevel * decimationRate * Milliseconds < 0x1_0000_0000
  {
  }

  /** cyhal_pdm_pcm_mode_t */
  datatype PcmMode = MonoLeft | MonoRight | Stereo

  /** The fields of cyhal_pdm_pcm_cfg_t the driver reads. */
  datatype Config = Config(sampleRate: nat, decimationRate: nat, mode: PcmMode,
                           wordLength: nat, leftGain: int, rightGain: int)

  /** The outcome of the configuration check of cyhal_pdm_pcm_init. */
  datatype ConfigCheck = BadConfig | GoodConfig(rate: PdlRate, cycles: nat)

  /** The configuration check: a documented rate pair, mono, 16-bit words
      and unity gains; for a good configuration, the PDL setting and the
      stabilisation count that discards at least the first 25 ms. */
  function CheckConfig(cfg: Config): (v: ConfigCheck)
    ensures v.GoodConfig? <==>
      (cfg.sampleRate, cfg.decimationRate) in DocumentedPairs && cfg.mode != Stereo
      && cfg.wordLength == 16 && cfg.leftGain == 0 && cfg.rightGain == 0
    ensures v.GoodConfig? ==>
      PcmRate(v.rate) * cfg.decimationRate == cfg.sampleRate
      && v.cycles * ReadLength * cfg.decimationRate * Milliseconds > cfg.sampleRate * StabilizeTimeMs
  {
    var p := PdlSampleRate(cfg.sampleRate, cfg.decimationRate);
    if p.None? || cfg.mode == Stereo || cfg.wordLength != 16 || cfg.leftGain != 0 || cfg.rightGain != 0 then BadConfig
    else
      StabilizationCoversSettling(cfg.sampleRate, cfg.decimationRate);
      GoodConfig(p.value, StabilizationCycles(cfg.sampleRate, cfg.decimationRate))
  }

  /** cy_en_pdm_pcm_mic_source_t */
  datatype MicSource = Dmic | Amic

  /** The outcome of the configuration and pin checks of init. */
  datatype InitPlan = PlanError(result: Rslt) | Plan(rate: PdlRate, cycles: nat, source: MicSource, dataMap: Pins.Mapping)

  /** The checks of cyhal_pdm_pcm_init before any reservation: the
      configuration, then a digital microphone when both the clock and the
      data pin are DMIC pins, else an analog one when the data pin is
      MIC_P, else INVALID_PIN. */
  function PlanInit(cfg: Config, pinData: int, pinClk: int): (p: InitPlan)
    ensures CheckConfig(cfg).BadConfig? ==> p == PlanError(PdmInvalidConfigParam)
    ensures p == PlanError(PdmInvalidPin) <==>
      CheckConfig(cfg).GoodConfig? && p.PlanError? && pinData != Pins.MicP
    ensures p.PlanError? ==> p.result in {PdmInvalidConfigParam, PdmInvalidPin}
    ensures p.Plan? ==> p.rate == CheckConfig(cfg).rate && p.cycles == CheckConfig(cfg).cycles && p.dataMap.pin == pinData
    ensures p.Plan? && p.source == Dmic <==>
      CheckConfig(cfg).GoodConfig? && Pins.Lookup(Pins.DmicCkMap, pinClk).Some? && Pins.Lookup(Pins.DmicDqMap, pinData).Some?
    ensures p.Plan? && p.source == Amic ==> pinData == Pins.MicP
    ensures CheckConfig(cfg).GoodConfig? && pinData == Pins.MicP ==> p.Plan?
  {
    match CheckConfig(cfg)
    case BadConfig => PlanError(PdmInvalidConfigParam)
    case GoodConfig(rate, cycles) =>
      var clkMap := Pins.Lookup(Pins.DmicCkMap, pinClk);
      var dataMap := Pins.Lookup(Pins.DmicDqMap, pinData);
      if clkMap.Some? && dataMap.Some? then Plan(rate, cycles, Dmic, dataMap.value)
      else match Pins.Lookup(Pins.MicPMap, pinData)
        case Some(m) => Plan(rate, cycles, Amic, m)
        case None => PlanError(PdmInvalidPin)
  }

  /** cyhal_pdm_pcm_event_t; an event mask is the set of its bits. */
  datatype Event = RxNotEmpty | RxHalfFull | RxOverflow | RxUnderflow | AsyncComplete

  /** The state the handler and the asynchronous read share: the caller's
      buffer (async_data, None for NULL), the FIFO context the last
      interrupt left unread (fifo_context) and stabilization_cycles. */
  datatype Async = Async(asyncData: Option<nat>, fifoContext: Option<nat>, stabilizationCycles: nat)

  /** What one interrupt does: the new shared state, the events passed to
      the callback in order, and the buffer it filled, if any. */
  datatype IsrStep = IsrStep(next: Async, events: seq<Event>, filled: Option<nat>)

  /** _cyhal_pdm_pcm_cb for the FIFO context `ctx`, with the enabled
      events and whether a callback is registered. */
  function Interrupt(a: Async, enabled: set<Event>, hasCallback: bool, ctx: nat): (r: IsrStep)
    ensures a.stabilizationCycles > 0 ==>
      r.filled.None? && r.next.asyncData == a.asyncData && r.next.stabilizationCycles == a.stabilizationCycles - 1
    ensures a.stabilizationCycles == 0 ==> r.filled == a.asyncData && r.next.asyncData.None? && r.next.stabilizationCycles == 0
    ensures RxOverflow in r.events ==> a.fifoContext.Some?
  {
    var overflow := a.fifoContext.Some? && RxOverflow in enabled && hasCallback;
    var first := if overflow then [RxOverflow] else [];
    if a.stabilizationCycles > 0 then
      IsrStep(Async(a.asyncData, None, a.stabilizationCycles - 1), first, None)
    else
      var complete := if a.asyncData.Some? && AsyncComplete in enabled && hasCallback then [AsyncComplete] else [];
      var half := if !overflow && RxHalfFull in enabled && hasCallback then [RxHalfFull] else [];
      IsrStep(Async(None, if a.asyncData.Some? then None else Some(ctx), 0), first + complete + half, a.asyncData)
  }

  /** Overflow is reported iff the previous FIFO context was left unread,
      RX_OVERFLOW is enabled and a callback is set; HALF_FULL is reported
      only after stabilisation and never together with an overflow; the
      read completion only ever follows overflow; no event is reported
      twice. */
  lemma InterruptEvents(a: Async, enabled: set<Event>, hasCallback: bool, ctx: nat)
    ensures var s := Interrupt(a, enabled, hasCallback, ctx);
      (RxOverflow in s.events <==> a.fifoContext.Some? && RxOverflow in enabled && hasCallback)
      && (RxHalfFull in s.events <==> a.stabilizationCycles == 0 && RxHalfFull in enabled && hasCallback
                                      && RxOverflow !in s.events)
      && (AsyncComplete in s.events <==> s.filled.Some? && AsyncComplete in enabled && hasCallback)
      && (forall i, j :: 0 <= i < j < |s.events| ==> s.events[i] != s.events[j])
      && (|s.events| > 0 && RxOverflow in s.events ==> s.events[0] == RxOverflow)
  {
  }

  /** During stabilisation an interrupt counts down, discards the FIFO and
      completes nothing; afterwards it completes the pending read, if any,
      into that read's buffer and leaves no context unread, and with no
      read pending it leaves its context unread. */
  lemma InterruptState(a: Async, enabled: set<Event>, hasCallback: bool, ctx: nat)
    ensures var s := Interrupt(a, enabled, hasCallback, ctx);
      (a.stabilizationCycles > 0 ==>
         s.next == Async(a.asyncData, None, a.stabilizationCycles - 1) && s.filled.None?)
      && (a.stabilizationCycles == 0 ==>
         s.filled == a.asyncData && s.next.asyncData.None? && s.next.stabilizationCycles == 0
         && s.next.fifoContext == (if a.asyncData.Some? then None else Some(ctx)))
  {
  }

  /** The shared state after a run of interrupts, with no read started in
      between. */
  function After(a: Async, enabled: set<Event>, hasCallback: bool, ctxs: seq<nat>): Async
    decreases |ctxs|
  {
    if |ctxs| == 0 then a
    else After(Interrupt(a, enabled, hasCallback, ctxs[0]).next, enabled, hasCallback, ctxs[1..])
  }

  /** The number of reads the interrupts of a run complete. */
  function Completions(a: Async, enabled: set<Event>, hasCallback: bool, ctxs: seq<nat>): nat
    decreases |ctxs|
  {
    if |ctxs| == 0 then 0
    else var s := Interrupt(a, enabled, hasCallback, ctxs[0]);
      (if s.filled.Some? then 1 else 0) + Completions(s.next, enabled, hasCallback, ctxs[1..])
  }

  /** With no read pending, a run completes nothing and starts none. */
  lemma {:induction false} IdleRunCompletesNothing(a: Async, enabled: set<Event>, hasCallback: bool, ctxs: seq<nat>)
    requires a.asyncData.None?
    ensures Completions(a, enabled, hasCallback, ctxs) == 0
    ensures After(a, enabled, hasCallback, ctxs).asyncData.None?
    decreases |ctxs|
  {
    if |ctxs| > 0 {
      IdleRunCompletesNothing(Interrupt(a, enabled, hasCallback, ctxs[0]).next, enabled, hasCallback, ctxs[1..]);
    }
  }

  /** A pending read completes exactly once: on interrupt number
      stabilization_cycles + 1 of a run, and not before; the counter runs
      down to zero and stays there. */
  lemma {:induction false} PendingReadCompletesOnce(a: Async, enabled: set<Event>, hasCallback: bool, ctxs: seq<nat>)
    requires a.asyncData.Some?
    ensures Completions(a, enabled, hasCallback, ctxs) == if |ctxs| > a.stabilizationCycles then 1 else 0
    ensures After(a, enabled, hasCallback, ctxs).asyncData == if |ctxs| > a.stabilizationCycles then None else a.asyncData
    ensures After(a, enabled, hasCallback, ctxs).stabilizationCycles
            == if |ctxs| > a.stabilizationCycles then 0 else a.stabilizationCycles - |ctxs|
    decreases |ctxs|
  {
    if |ctxs| > 0 {
      var s := Interrupt(a, enabled, hasCallback, ctxs[0]);
      if a.stabilizationCycles > 0 {
        PendingReadCompletesOnce(s.next, enabled, hasCallback, ctxs[1..]);
      } else {
        IdleRunCompletesNothing(s.next, enabled, hasCallback, ctxs[1..]);
        StableRunStaysStable(s.next, enabled, hasCallback, ctxs[1..]);
      }
    }
  }

  /** Once the counter is zero it stays zero. */
  lemma {:induction false} StableRunStaysStable(a: Async, enabled: set<Event>, hasCallback: bool, ctxs: seq<nat>)
    requires a.stabilizationCycles == 0
    ensures After(a, enabled, hasCallback, ctxs).stabilizationCycles == 0
    decreases |ctxs|
  {
    if |ctxs| > 0 {
      StableRunStaysStable(Interrupt(a, enabled, hasCallback, ctxs[0]).next, enabled, hasCallback, ctxs[1..]);
    }
  }

  /** The result of cyhal_pdm_pcm_read_async, in its order of tests:
      PM_PENDING during a power transition, BAD_PARAM unless the length is
      ReadLength and the buffer is not NULL, ASYNC_IN_PROGRESS while a read
      is pending or the converter is not enabled, else success. */
  function ReadAsyncStatus(pmPending: bool, length: nat, hasData: bool, pending: bool, enabled: bool): (r: Rslt)
    ensures r == Success <==> !pmPending && length == ReadLength && hasData && !pending && enabled
    ensures r in {Success, SyspmPmPending, PdmBadParam, PdmAsyncInProgress}
    ensures pmPending ==> r == SyspmPmPending
  {
    if pmPending then SyspmPmPending
    else if length != ReadLength || !hasData then PdmBadParam
    else if pending || !enabled then PdmAsyncInProgress
    else Success
  }

  /** cyhal_pdm_pcm_set_gain: only unity gain (0 on both sides) is
      supported, which is what init accepts too. */
  function SetGain(gainLeft: int, gainRight: int): (r: Rslt)
    ensures r == Success <==> gainLeft == 0 && gainRight == 0
    ensures r != Success ==> r == PdmUnsupported
  {
    if gainLeft == 0 && gainRight == 0 then Success else PdmUnsupported
  }

  /** The gains of a configuration init accepts are gains set_gain accepts. */
  lemma AcceptedConfigHasSupportedGain(cfg: Config)
    requires CheckConfig(cfg).GoodConfig?
    ensures SetGain(cfg.leftGain, cfg.rightGain) == Success
  {
  }

  /** cyhal_async_mode_t */
  datatype AsyncMode = AsyncSw | AsyncDma

  /** cyhal_pdm_pcm_set_async_mode: only software transfers are supported. */
  function SetAsyncMode(mode: AsyncMode): (r: Rslt)
    ensures r == Success <==> mode == AsyncSw
    ensures r != Success ==> r == PdmUnsupported
  {
    if mode != AsyncSw then PdmUnsupported else Success
  }

  /** The power-management entry init registers: CPU_DEEPSLEEP, in every mode. */
  const PmCallbackData := SyspmChain.CallbackData(true, {SyspmChain.CpuDeepSleep}, {})

  /** One invocation of the registered callback. */
  datatype Delivery = Delivery(callback: nat, arg: nat, event: Event)

  /** The events of one interrupt, as callback invocations. */
  function Deliveries(callback: Option<nat>, arg: nat, events: seq<Event>): (d: seq<Delivery>)
    ensures |d| == (if callback.Some? then |events| else 0)
    ensures callback.Some? ==> forall i :: 0 <= i < |d| ==> d[i] == Delivery(callback.value, arg, events[i])
  {
    if callback.None? || |events| == 0 then []
    else [Delivery(callback.value, arg, events[0])] + Deliveries(callback, arg, events[1..])
  }

  /** cyhal_pdm_pcm_t, after a successful init, as far as the driver's own
      logic uses it. */
  class Converter {
    var async: Async
    /** events, the mask of enabled events */
    var events: set<Event>
    /** callback_data.callback (None for NULL) and callback_arg */
    var callback: Option<nat>
    var callbackArg: nat
    var isEnabled: bool
    var pmTransitionPending: bool

    /** The object as init leaves it: zeroed, with the stabilisation count
        of its configuration and no transition pending. */
    constructor (cycles: nat)
      ensures async == Async(None, None, cycles) && events == {} && callback.None? && callbackArg == 0
      ensures !isEnabled && !pmTransitionPending
    {
      async := Async(None, None, cycles);
      events := {};
      callback := None;
      callbackArg := 0;
      isEnabled := false;
      pmTransitionPending := false;
    }

    /** cyhal_pdm_pcm_is_pending */
    predicate IsPending()
      reads this
    {
      async.asyncData.Some?
    }

    /** cyhal_pdm_pcm_is_enabled: started, and past stabilisation. */
    predicate IsEnabled()
      reads this
    {
      async.stabilizationCycles == 0 && isEnabled
    }

    /** _cyhal_pdm_pcm_cb with the PDL's FIFO context `ctx`: the events are
        delivered to the callback, and the buffer filled is returned. */
    method Isr(ctx: nat) returns (delivered: seq<Delivery>, filled: Option<nat>)
      modifies this
      ensures var s := Interrupt(old(async), events, callback.Some?, ctx);
        async == s.next && filled == s.filled && delivered == Deliveries(callback, callbackArg, s.events)
      ensures events == old(events) && callback == old(callback) && callbackArg == old(callbackArg)
      ensures isEnabled == old(isEnabled) && pmTransitionPending == old(pmTransitionPending)
    {
      ghost var evs: seq<Event> := [];
      delivered := [];
      filled := None;
      var overflow := false;
      if async.fifoContext.Some? && RxOverflow in events && callback.Some? {
        overflow := true;
        delivered := [Delivery(callback.value, callbackArg, RxOverflow)];
        evs := [RxOverflow];
      }
      async := async.(fifoContext := Some(ctx));
      if async.stabilizationCycles > 0 {
        async := async.(stabilizationCycles := async.stabilizationCycles - 1, fifoContext := None);
      } else {
        if async.asyncData.Some? {
          filled := async.asyncData;
          async := async.(fifoContext := None, asyncData := None);
          if AsyncComplete in events && callback.Some? {
            delivered := delivered + [Delivery(callback.value, callbackArg, AsyncComplete)];
            evs := evs + [AsyncComplete];
          }
        }
        if !overflow && RxHalfFull in events && callback.Some? {
          delivered := delivered + [Delivery(callback.value, callbackArg, RxHalfFull)];
          evs := evs + [RxHalfFull];
        }
      }
      assert evs == Interrupt(old(async), events, callback.Some?, ctx).events;
      assert delivered == Deliveries(callback, callbackArg, evs) by {
        assert |delivered| == (if callback.Some? then |evs| else 0);
      }
    }

    /** cyhal_pdm_pcm_read_async for the buffer `data` (None for NULL): on
        success the buffer becomes the one outstanding read; nothing else
        changes, and on failure nothing changes at all. */
    method ReadAsync(data: Option<nat>, length: nat) returns (r: Rslt)
      modifies this
      ensures r == ReadAsyncStatus(old(pmTransitionPending), length, data.Some?, old(IsPending()), old(isEnabled))
      ensures async == (if r == Success then old(async).(asyncData := data) else old(async))
      ensures r == Success ==> IsPending()
      ensures events == old(events) && callback == old(callback) && callbackArg == old(callbackArg)
      ensures isEnabled == old(isEnabled) && pmTransitionPending == old(pmTransitionPending)
    {
      r := PdmBadParam;
      if pmTransitionPending {
        r := SyspmPmPending;
      } else if length == HalfFifoLevel + 1 && data.Some? {
        if async.asyncData.Some? || !isEnabled {
          r := PdmAsyncInProgress;
        } else {
          async := async.(asyncData := data);
          r := Success;
        }
      }
    }

    /** cyhal_pdm_pcm_abort_async: drops the outstanding read. */
    method AbortAsync() returns (r: Rslt)
      modifies this
      ensures r == Success && !IsPending()
      ensures async == old(async).(asyncData := None)
      ensures events == old(events) && callback == old(callback) && callbackArg == old(callbackArg)
      ensures isEnabled == old(isEnabled) && pmTransitionPending == old(pmTransitionPending)
    {
      async := async.(asyncData := None);
      r := Success;
    }

    /** cyhal_pdm_pcm_start, with `ready` standing for the microphone and
        noise-detector readiness check and `enableOk` for Cy_PDM_PCM_Enable:
        PM_PENDING during a transition, otherwise enabled iff ready and the
        PDL enables, else BUSY_OPERATION. */
    method Start(ready: bool, enableOk: bool) returns (r: Rslt)
      modifies this
      ensures old(pmTransitionPending) ==> r == SyspmPmPending && isEnabled == old(isEnabled)
      ensures !old(pmTransitionPending) ==>
        isEnabled == (ready && enableOk) && r == (if isEnabled then Success else PdmBusyOperation)
      ensures async == old(async) && events == old(events) && callback == old(callback)
      ensures callbackArg == old(callbackArg) && pmTransitionPending == old(pmTransitionPending)
    {
      if pmTransitionPending {
        r := SyspmPmPending;
      } else {
        var ok := ready && enableOk;
        isEnabled := ok;
        r := if ok then Success else PdmBusyOperation;
      }
    }

    /** cyhal_pdm_pcm_stop, with `disableOk` standing for Cy_PDM_PCM_Disable. */
    method Stop(disableOk: bool) returns (r: Rslt)
      modifies this
      ensures isEnabled == !disableOk && r == (if disableOk then Success else PdmBusyOperation)
      ensures async == old(async) && events == old(events) && callback == old(callback)
      ensures callbackArg == old(callbackArg) && pmTransitionPending == old(pmTransitionPending)
    {
      isEnabled := !disableOk;
      r := if disableOk then Success else PdmBusyOperation;
    }

    /** cyhal_pdm_pcm_register_callback */
    method RegisterCallback(cb: Option<nat>, arg: nat)
      modifies this
      ensures callback == cb && callbackArg == arg
      ensures async == old(async) && events == old(events)
      ensures isEnabled == old(isEnabled) && pmTransitionPending == old(pmTransitionPending)
    {
      callback := cb;
      callbackArg := arg;
    }

    /** cyhal_pdm_pcm_enable_event: sets or clears exactly the given bits. */
    method EnableEvent(event: set<Event>, enable: bool)
      modifies this
      ensures events == if enable then old(events) + event else old(events) - event
      ensures forall e :: e !in event ==> (e in events <==> e in old(events))
      ensures forall e :: e in event ==> (e in events <==> enable)
      ensures async == old(async) && callback == old(callback) && callbackArg == old(callbackArg)
      ensures isEnabled == old(isEnabled) && pmTransitionPending == old(pmTransitionPending)
    {
      events := if enable then events + event else events - event;
    }

    /** _cyhal_pdm_pcm_syspm_callback: only CPU deep sleep is handled.
        CHECK_READY allows iff no read is pending and marks a transition
        pending exactly then; AFTER_TRANSITION and CHECK_FAIL clear the mark
        (and answer false); BEFORE_TRANSITION allows and changes nothing. */
    method PmCallback(state: SyspmChain.StateSet, mode: SyspmChain.PmMode) returns (allow: bool)
      modifies this
      ensures state != {SyspmChain.CpuDeepSleep} ==> allow && pmTransitionPending == old(pmTransitionPending)
      ensures state == {SyspmChain.CpuDeepSleep} ==>
        match mode
        case CheckReady => allow == !old(IsPending()) && pmTransitionPending == allow
        case BeforeTransition => allow && pmTransitionPending == old(pmTransitionPending)
        case _ => !allow && !pmTransitionPending
      ensures pmTransitionPending && !old(pmTransitionPending) ==> !IsPending()
      ensures async == old(async) && events == old(events) && callback == old(callback)
      ensures callbackArg == old(callbackArg) && isEnabled == old(isEnabled)
    {
      allow := true;
      if state == {SyspmChain.CpuDeepSleep} {
        match mode
        case CheckReady =>
          if !IsPending() {
            pmTransitionPending := true;
            allow := true;
          } else {
            pmTransitionPending := false;
            allow := false;
          }
        case BeforeTransition =>
        case _ =>
          pmTransitionPending := false;
          allow := false;
      }
    }
  }
}
