/** The SDIO device driver of source/cyhal_sdio.c: how an sdiod event code
    becomes the event passed to the user's callback, the configuration
    check, the event mask and its interrupt, the power-management callback,
    and the guards in front of the asynchronous transfers, the mailbox and
    abort.  Every sdiod_* call is ROM code whose answer is a parameter. */
module Sdio {
  import opened Results
  import opened Options
  import SyspmChain

  /** cyhal_sdio_event_t bits; an event mask is the set of its bits. */
  datatype Event = HostInfo | ReadComplete | WriteComplete | ReadError | WriteError

  /** sdiod_event_code_t: the five codes the handler maps, and any other. */
  datatype EventCode = CodeHostInfo | CodeRxDone | CodeTxDone | CodeRxError | CodeTxError | OtherCode(code: int)

  /** The event bit the handler associates with a code, if any. */
  function EventFor(code: EventCode): Option<Event>
  {
    match code
    case CodeHostInfo => Some(HostInfo)
    case CodeRxDone => Some(ReadComplete)
    case CodeTxDone => Some(WriteComplete)
    case CodeRxError => Some(ReadError)
    case CodeTxError => Some(WriteError)
    case OtherCode(_) => None
  }

  /** The event of _cyhal_sdio_cb: the enabled mask ANDed with the code's
      bit, 0 (the empty set) for an unknown code. */
  function CallbackEvent(enabled: set<Event>, code: EventCode): (e: set<Event>)
    ensures e <= enabled
    ensures EventFor(code).None? ==> e == {}
    ensures EventFor(code).Some? ==> (e == {EventFor(code).value} <==> EventFor(code).value in enabled)
    ensures EventFor(code).Some? ==> (e == {} <==> EventFor(code).value !in enabled)
  {
    match EventFor(code)
    case None => {}
    case Some(ev) => if ev in enabled then {ev} else {}
  }

  /** Distinct known codes carry distinct bits, so each event reaches the
      callback only for its own code. */
  lemma EventForInjective(c1: EventCode, c2: EventCode)
    requires EventFor(c1).Some? && EventFor(c1) == EventFor(c2)
    ensures c1 == c2
  {
  }

  /** sdiod_status_t, as far as the driver tells the values apart. */
  datatype DevStatus = StatusSuccess | AsyncInProgress | ErrBusy | ErrIoNotReady | OtherStatus(code: int)

  /** A direction is busy when its status is ASYNC_IN_PROGRESS or ERR_BUSY. */
  predicate InProgress(s: DevStatus)
  {
    s == AsyncInProgress || s == ErrBusy
  }

  /** cyhal_sdio_is_busy with the ROM's receive and transmit statuses. */
  function IsBusy(isReady: bool, rx: DevStatus, tx: DevStatus): (b: bool)
    ensures b ==> isReady
    ensures b <==> isReady && (InProgress(rx) || InProgress(tx))
  {
    isReady && (InProgress(rx) || InProgress(tx))
  }

  /** The fields of cyhal_sdio_cfg_t the driver reads. */
  datatype Cfg = Cfg(frequencyHz: nat, blockSize: nat, isSdioDev: bool)

  const MaxFrequencyHz: nat := 50000000
  const MaxBlockSize: nat := 512

  /** The check cyhal_sdio_configure makes before touching the hardware:
      BAD_PARAM for a NULL config, UNSUPPORTED beyond 50 MHz or 512-byte
      blocks or for a host configuration. */
  function CheckCfg(config: Option<Cfg>): (r: Rslt)
    ensures r == Success <==>
      config.Some? && config.value.frequencyHz <= MaxFrequencyHz && config.value.blockSize <= MaxBlockSize
      && config.value.isSdioDev
    ensures config.None? <==> r == SdioBadParam
    ensures r in {Success, SdioBadParam, SdioUnsupported}
  {
    if config.None? then SdioBadParam
    else if config.value.frequencyHz > MaxFrequencyHz || config.value.blockSize > MaxBlockSize || !config.value.isSdioDev
    then SdioUnsupported
    else Success
  }

  /** What a transfer request does: its result and whether the ROM was
      asked to start a transfer. */
  datatype Request = Request(result: Rslt, started: bool)

  /** The direction of a transfer. */
  datatype Direction = Receive | Transmit

  /** The error a failed transfer request of a direction reports. */
  function TransferError(dir: Direction): Rslt
  {
    if dir == Receive then SdioReadError else SdioWriteError
  }

  /** The guards of cyhal_sdio_dev_read_async (Receive) and
      dev_write_async (Transmit): PM_PENDING during a transition; otherwise
      a transfer is started only on a ready device with no transfer in that
      direction, and succeeds when the ROM answers SUCCESS or
      ASYNC_IN_PROGRESS; every other case is READ_ERROR or WRITE_ERROR. */
  function AsyncRequest(dir: Direction, pmPending: bool, isReady: bool, status: DevStatus, romAnswer: DevStatus): (q: Request)
    ensures q.started <==> !pmPending && isReady && !InProgress(status)
    ensures pmPending ==> q.result == SyspmPmPending
    ensures !pmPending ==> (q.result == Success <==> q.started && (romAnswer == StatusSuccess || romAnswer == AsyncInProgress))
    ensures !pmPending && q.result != Success ==> q.result == TransferError(dir)
  {
    var failure := TransferError(dir);
    if pmPending then Request(SyspmPmPending, false)
    else if isReady && !InProgress(status) then
      Request(if romAnswer == StatusSuccess || romAnswer == AsyncInProgress then Success else failure, true)
    else Request(failure, false)
  }

  /** cyhal_sdio_dev_mailbox_read: BAD_PARAM for a NULL buffer; otherwise
      success iff the device is ready and the ROM read succeeds, else
      MAILBOX_READ_ERROR. */
  function MailboxRead(hasData: bool, isReady: bool, romAnswer: DevStatus): (r: Rslt)
    ensures !hasData <==> r == SdioBadParam
    ensures r == Success <==> hasData && isReady && romAnswer == StatusSuccess
    ensures r in {Success, SdioBadParam, SdioMailboxReadError}
  {
    if !hasData then SdioBadParam
    else if isReady then (if romAnswer == StatusSuccess then Success else SdioMailboxReadError)
    else SdioMailboxReadError
  }

  /** cyhal_sdio_dev_mailbox_write: on a ready device, the data word is
      set first when given, and the signal is sent only if that succeeded;
      any failure, and an unready device, give MAILBOX_WRITE_ERROR. */
  function MailboxWrite(isReady: bool, hasData: bool, setAnswer: DevStatus, signalAnswer: DevStatus): (r: Rslt)
    ensures r == Success <==> isReady && (!hasData || setAnswer == StatusSuccess) && signalAnswer == StatusSuccess
    ensures r != Success ==> r == SdioMailboxWriteError
  {
    var s := if hasData then setAnswer else StatusSuccess;
    var s2 := if s == StatusSuccess then signalAnswer else s;
    if isReady && s2 == StatusSuccess then Success else SdioMailboxWriteError
  }

  /** What cyhal_sdio_abort_async asks of the ROM, and its result. */
  datatype Abort = Abort(result: Rslt, abortRx: bool, abortTx: bool)

  /** cyhal_sdio_abort_async: nothing on a device that is not ready (and
      success); otherwise each busy direction is aborted, and CANCELED
      reports that an abort the ROM was asked for failed. */
  function AbortAsync(isReady: bool, rx: DevStatus, tx: DevStatus, rxAbortOk: bool, txAbortOk: bool): (a: Abort)
    ensures !isReady ==> a == Abort(Success, false, false)
    ensures a.abortRx <==> isReady && InProgress(rx)
    ensures a.abortTx <==> isReady && InProgress(tx)
    ensures a.result == Success <==> (a.abortRx ==> rxAbortOk) && (a.abortTx ==> txAbortOk)
    ensures a.result != Success ==> a.result == SdioCanceled
    ensures !IsBusy(isReady, rx, tx) ==> a.result == Success && !a.abortRx && !a.abortTx
  {
    if !isReady then Abort(Success, false, false)
    else
      var abortRx := InProgress(rx);
      var abortTx := InProgress(tx);
      var failed := (abortRx && !rxAbortOk) || (abortTx && !txAbortOk);
      Abort(if failed then SdioCanceled else Success, abortRx, abortTx)
  }

  /** The power-management entry init registers: CPU_DEEPSLEEP, no mode
      ignored. */
  const PmCallbackData := SyspmChain.CallbackData(true, {SyspmChain.CpuDeepSleep}, {})

  /** The deep-sleep bookkeeping of _cyhal_sdio_syspm_callback as written:
      from the recorded flag and whether the device is idle with sleep
      allowed (`idle`), the answer and the new flag.  CHECK_READY records
      its answer, CHECK_FAIL clears the flag, and every other mode (the
      AFTER_TRANSITION that ends a completed transition included) allows
      and leaves the flag as it was. */
  function PmStepAsWritten(pending: bool, state: SyspmChain.StateSet, mode: SyspmChain.PmMode, idle: bool): (bool, bool)
  {
    if state != {SyspmChain.CpuDeepSleep} then (true, pending)
    else match mode
      case CheckReady => (idle, idle)
      case CheckFail => (true, false)
      case _ => (true, pending)
  }

  /** As written, a device that allowed deep sleep still has the transition
      recorded once AFTER_TRANSITION has run, so after waking every
      transfer request is refused as PM_PENDING and reaches no ROM call. */
  lemma PendingSurvivesWakeAsWritten(dir: Direction, isReady: bool, status: DevStatus, romAnswer: DevStatus)
    ensures var p1 := PmStepAsWritten(false, {SyspmChain.CpuDeepSleep}, SyspmChain.CheckReady, true).1;
      var p2 := PmStepAsWritten(p1, {SyspmChain.CpuDeepSleep}, SyspmChain.BeforeTransition, true).1;
      var p3 := PmStepAsWritten(p2, {SyspmChain.CpuDeepSleep}, SyspmChain.AfterTransition, true).1;
      p3 && AsyncRequest(dir, p3, isReady, status, romAnswer) == Request(SyspmPmPending, false)
  {
  }

  /** The bookkeeping with AFTER_TRANSITION clearing the flag as CHECK_FAIL
      does, which is what the DMA and PDM-PCM callbacks do: the flag is
      raised only by a CHECK_READY that allows, and cleared at the end of
      every transition, completed or failed. */
  function PmStep(pending: bool, state: SyspmChain.StateSet, mode: SyspmChain.PmMode, idle: bool): (r: (bool, bool))
    ensures state == {SyspmChain.CpuDeepSleep} && mode == SyspmChain.CheckReady ==> r == (idle, idle)
    ensures state == {SyspmChain.CpuDeepSleep} && mode in {SyspmChain.CheckFail, SyspmChain.AfterTransition} ==>
      r == (true, false)
    ensures r.1 && !pending ==> state == {SyspmChain.CpuDeepSleep} && mode == SyspmChain.CheckReady && idle
    ensures !(state == {SyspmChain.CpuDeepSleep} && mode == SyspmChain.CheckReady) ==> r.0
  {
    if state == {SyspmChain.CpuDeepSleep} && mode == SyspmChain.AfterTransition then (true, false)
    else PmStepAsWritten(pending, state, mode, idle)
  }

  /** The flag after a run of deep-sleep callbacks. */
  function PendingAfter(pending: bool, modes: seq<SyspmChain.PmMode>, idle: bool): bool
    decreases |modes|
  {
    if |modes| == 0 then pending
    else PendingAfter(PmStep(pending, {SyspmChain.CpuDeepSleep}, modes[0], idle).1, modes[1..], idle)
  }

  /** A run of callbacks that ends a transition, by AFTER_TRANSITION or by
      CHECK_FAIL, leaves no transition recorded, whatever came before. */
  lemma {:induction false} RunEndsClear(pending: bool, modes: seq<SyspmChain.PmMode>, idle: bool)
    requires |modes| > 0 && modes[|modes| - 1] in {SyspmChain.AfterTransition, SyspmChain.CheckFail}
    ensures !PendingAfter(pending, modes, idle)
    decreases |modes|
  {
    var next := PmStep(pending, {SyspmChain.CpuDeepSleep}, modes[0], idle).1;
    if |modes| > 1 {
      assert modes[1..][|modes[1..]| - 1] == modes[|modes| - 1];
      RunEndsClear(next, modes[1..], idle);
    }
  }

  /** After a completed transition an idle, ready device starts a transfer
      again. */
  lemma WokenDeviceTransfers(dir: Direction, romAnswer: DevStatus)
    ensures var p1 := PmStep(false, {SyspmChain.CpuDeepSleep}, SyspmChain.CheckReady, true).1;
      var p2 := PmStep(p1, {SyspmChain.CpuDeepSleep}, SyspmChain.BeforeTransition, true).1;
      var p3 := PmStep(p2, {SyspmChain.CpuDeepSleep}, SyspmChain.AfterTransition, true).1;
      !p3 && AsyncRequest(dir, p3, true, StatusSuccess, romAnswer).started
  {
  }

  /** One invocation of the user's callback: its argument and its event. */
  datatype Delivery = Delivery(callback: nat, arg: nat, event: set<Event>)

  /** The once-present DMA descriptor buffer the driver keeps in a
      static (_cyhal_sdio_dma_desc). */
  class DescriptorBuffer {
    var present: bool

    constructor ()
      ensures !present
    {
      present := false;
    }
  }

  /** cyhal_sdio_t, as far as the driver's own logic uses it. */
  class Device {
    var hwInited: bool
    var isReady: bool
    var pmTransitionPending: bool
    /** events, the mask of enabled events */
    var events: set<Event>
    /** callback_data.callback and callback_arg (None for NULL) */
    var callback: Option<nat>
    var callbackArg: Option<nat>
    /** Whether the last call to the ROM enabled the SDIO interrupt. */
    var interruptEnabled: bool

    /** The object as init leaves it on success. */
    constructor ()
      ensures !hwInited && !isReady && !pmTransitionPending && events == {}
      ensures callback.None? && callbackArg.None? && !interruptEnabled
    {
      hwInited := false;
      isReady := false;
      pmTransitionPending := false;
      events := {};
      callback := None;
      callbackArg := None;
      interruptEnabled := false;
    }

    /** _cyhal_sdio_cb for `code`, with the ROM's `eventData`: the callback,
        when one is registered, is called (even with an empty event) with
        the stored argument, or with the event data when none is stored. */
    method Isr(code: EventCode, eventData: nat) returns (d: Option<Delivery>)
      ensures d.Some? <==> callback.Some?
      ensures d.Some? ==> d.value.callback == callback.value && d.value.event == CallbackEvent(events, code)
      ensures d.Some? ==> d.value.arg == (if callbackArg.None? then eventData else callbackArg.value)
    {
      var event: set<Event>;
      match code {
        case CodeHostInfo => event := events * {HostInfo};
        case CodeRxDone => event := events * {ReadComplete};
        case CodeTxDone => event := events * {WriteComplete};
        case CodeRxError => event := events * {ReadError};
        case CodeTxError => event := events * {WriteError};
        case OtherCode(_) => event := {};
      }
      d := None;
      if callback.Some? {
        if callbackArg.None? {
          d := Some(Delivery(callback.value, eventData, event));
        } else {
          d := Some(Delivery(callback.value, callbackArg.value, event));
        }
      }
    }

    /** _cyhal_sdio_syspm_callback as written, with the ROM's receive and
        transmit statuses and its answer to sdiod_IsSleepAllowed. */
    method PmCallbackAsWritten(state: SyspmChain.StateSet, mode: SyspmChain.PmMode, rx: DevStatus, tx: DevStatus,
                               sleepAllowed: bool) returns (allow: bool)
      modifies this
      ensures (allow, pmTransitionPending)
              == PmStepAsWritten(old(pmTransitionPending), state, mode, !IsBusy(isReady, rx, tx) && sleepAllowed)
      ensures hwInited == old(hwInited) && isReady == old(isReady) && events == old(events)
      ensures callback == old(callback) && callbackArg == old(callbackArg) && interruptEnabled == old(interruptEnabled)
    {
      allow := true;
      if state == {SyspmChain.CpuDeepSleep} {
        match mode {
          case CheckReady =>
            if !IsBusy(isReady, rx, tx) {
              pmTransitionPending := sleepAllowed;
            } else {
              pmTransitionPending := false;
            }
            allow := pmTransitionPending;
          case CheckFail =>
            pmTransitionPending := false;
          case _ =>
        }
      }
    }

    /** _cyhal_sdio_syspm_callback with AFTER_TRANSITION clearing the
        recorded transition. */
    method PmCallback(state: SyspmChain.StateSet, mode: SyspmChain.PmMode, rx: DevStatus, tx: DevStatus,
                      sleepAllowed: bool) returns (allow: bool)
      modifies this
      ensures (allow, pmTransitionPending)
              == PmStep(old(pmTransitionPending), state, mode, !IsBusy(isReady, rx, tx) && sleepAllowed)
      ensures hwInited == old(hwInited) && isReady == old(isReady) && events == old(events)
      ensures callback == old(callback) && callbackArg == old(callbackArg) && interruptEnabled == old(interruptEnabled)
    {
      allow := true;
      if state == {SyspmChain.CpuDeepSleep} {
        match mode {
          case CheckReady =>
            if !IsBusy(isReady, rx, tx) {
              pmTransitionPending := sleepAllowed;
            } else {
              pmTransitionPending := false;
            }
            allow := pmTransitionPending;
          case CheckFail =>
            pmTransitionPending := false;
          case AfterTransition =>
            pmTransitionPending := false;
          case BeforeTransition =>
        }
      }
    }

    /** cyhal_sdio_configure with the outcomes of the descriptor allocation,
        sdiod_Init and sdiod_RegisterCallback: a rejected configuration
        touches nothing; otherwise the buffer is present once, the
        hardware is initialised on it, and the handler registered. */
    method Configure(config: Option<Cfg>, desc: DescriptorBuffer, allocOk: bool, initOk: bool, registerOk: bool)
      returns (r: Rslt)
      modifies this, desc
      ensures CheckCfg(config) != Success ==>
        r == CheckCfg(config) && hwInited == old(hwInited) && desc.present == old(desc.present)
      ensures CheckCfg(config) == Success ==>
        desc.present == (old(desc.present) || allocOk)
        && hwInited == (if desc.present then initOk else old(hwInited))
        && r == (if desc.present && initOk && registerOk then Success else SdioConfig)
      ensures isReady == old(isReady) && pmTransitionPending == old(pmTransitionPending) && events == old(events)
      ensures callback == old(callback) && callbackArg == old(callbackArg) && interruptEnabled == old(interruptEnabled)
    {
      r := CheckCfg(config);
      if r == Success {
        if !desc.present {
          desc.present := allocOk;
        }
        if desc.present {
          r := if initOk then Success else SdioConfig;
          hwInited := r == Success;
        } else {
          r := SdioConfig;
        }
      }
      if r == Success {
        r := if registerOk then Success else SdioConfig;
      }
    }

    /** cyhal_sdio_register_callback */
    method RegisterCallback(cb: Option<nat>, arg: Option<nat>)
      modifies this
      ensures callback == cb && callbackArg == arg
      ensures hwInited == old(hwInited) && isReady == old(isReady) && pmTransitionPending == old(pmTransitionPending)
      ensures events == old(events) && interruptEnabled == old(interruptEnabled)
    {
      callback := cb;
      callbackArg := arg;
    }

    /** cyhal_sdio_enable_event: sets or clears exactly the given bits, and
        leaves the interrupt enabled iff some event remains enabled. */
    method EnableEvent(event: set<Event>, enable: bool)
      modifies this
      ensures forall e :: e !in event ==> (e in events <==> e in old(events))
      ensures forall e :: e in event ==> (e in events <==> enable)
      ensures interruptEnabled <==> events != {}
      ensures hwInited == old(hwInited) && isReady == old(isReady) && pmTransitionPending == old(pmTransitionPending)
      ensures callback == old(callback) && callbackArg == old(callbackArg)
    {
      events := if enable then events + event else events - event;
      interruptEnabled := events != {};
    }

    /** cyhal_sdio_dev_is_ready with the ROM's answers to
        sdiod_IsHostIOEnabled and sdiod_SetIOReady: an initialised device
        whose host has enabled I/O is made ready once; readiness is never
        withdrawn. */
    method DevIsReady(hostAnswer: DevStatus, setReadyAnswer: DevStatus) returns (ready: bool)
      modifies this
      ensures ready == isReady
      ensures old(isReady) ==> isReady
      ensures isReady <==> old(isReady) || (hwInited && hostAnswer != ErrIoNotReady && setReadyAnswer == StatusSuccess)
      ensures hwInited == old(hwInited) && pmTransitionPending == old(pmTransitionPending) && events == old(events)
      ensures callback == old(callback) && callbackArg == old(callbackArg) && interruptEnabled == old(interruptEnabled)
    {
      if hwInited {
        if hostAnswer != ErrIoNotReady && !isReady {
          isReady := setReadyAnswer == StatusSuccess;
        }
      }
      ready := isReady;
    }

    /** cyhal_sdio_dev_read_async with the ROM's receive status and its
        answer to sdiod_Receive_Async. */
    method ReadAsync(rx: DevStatus, romAnswer: DevStatus) returns (r: Rslt, started: bool)
      ensures Request(r, started) == AsyncRequest(Receive, pmTransitionPending, isReady, rx, romAnswer)
    {
      if pmTransitionPending {
        return SyspmPmPending, false;
      }
      r := SdioReadError;
      started := false;
      if isReady {
        if rx != AsyncInProgress && rx != ErrBusy {
          started := true;
          if romAnswer == StatusSuccess || romAnswer == AsyncInProgress {
            r := Success;
          }
        }
      }
    }

    /** cyhal_sdio_dev_write_async with the ROM's transmit status and its
        answer to sdiod_Transmit_Async. */
    method WriteAsync(tx: DevStatus, romAnswer: DevStatus) returns (r: Rslt, started: bool)
      ensures Request(r, started) == AsyncRequest(Transmit, pmTransitionPending, isReady, tx, romAnswer)
    {
      if pmTransitionPending {
        return SyspmPmPending, false;
      }
      r := SdioWriteError;
      started := false;
      if isReady {
        if tx != AsyncInProgress && tx != ErrBusy {
          started := true;
          if romAnswer == StatusSuccess || romAnswer == AsyncInProgress {
            r := Success;
          }
        }
      }
    }
  }
}
