/** The part of source/cyhal_analog_common.c the ADC and comparator drivers
    share: the one-time registration of the ADCCOMP interrupt callback with
    the PDL, and the fixed order in which the shared handler serves the
    interrupt sources set in the masked status. */
module AnalogCommon {
  import opened Results

  /** The interrupt sources of the ADCCOMP block the handler tests, in the
      order it tests them. */
  datatype Source = AdcReady | Cic | LpComp1 | LpComp2

  /** The position of a source in the handler's order. */
  function Rank(s: Source): nat
  {
    match s
    case AdcReady => 0
    case Cic => 1
    case LpComp1 => 2
    case LpComp2 => 3
  }

  /** The order in which the handler tests the sources. */
  const Order: seq<Source> := [AdcReady, Cic, LpComp1, LpComp2]

  /** The sources of `order` set in `status`, in the order of `order`. */
  function Serve(order: seq<Source>, status: set<Source>): seq<Source>
  {
    if |order| == 0 then [] else (if order[0] in status then [order[0]] else []) + Serve(order[1..], status)
  }

  /** The handlers _cyhal_adccomp_cb runs for a masked status, in order. */
  function Handlers(status: set<Source>): seq<Source>
  {
    Serve(Order, status)
  }

  /** Handlers written out, one test per source. */
  lemma HandlersUnfold(status: set<Source>)
    ensures Handlers(status) ==
      (if AdcReady in status then [AdcReady] else []) + (if Cic in status then [Cic] else [])
      + (if LpComp1 in status then [LpComp1] else []) + (if LpComp2 in status then [LpComp2] else [])
  {
    var l3: seq<Source> := [LpComp2];
    var l2 := [LpComp1] + l3;
    var l1 := [Cic] + l2;
    assert Order == [AdcReady] + l1;
    assert Serve(l3, status) == (if LpComp2 in status then [LpComp2] else []) by {
      assert l3[1..] == [];
    }
    assert Serve(l2, status) == (if LpComp1 in status then [LpComp1] else []) + Serve(l3, status) by {
      assert l2[1..] == l3;
    }
    assert Serve(l1, status) == (if Cic in status then [Cic] else []) + Serve(l2, status) by {
      assert l1[1..] == l2;
    }
    assert Serve(Order, status) == (if AdcReady in status then [AdcReady] else []) + Serve(l1, status) by {
      assert Order[1..] == l1;
    }
  }

  lemma {:induction false} ServeMembers(order: seq<Source>, status: set<Source>, x: Source)
    ensures x in Serve(order, status) <==> x in order && x in status
  {
    if |order| > 0 {
      ServeMembers(order[1..], status, x);
      assert order == [order[0]] + order[1..];
    }
  }

  predicate Increasing(l: seq<Source>)
  {
    forall i, j :: 0 <= i < j < |l| ==> Rank(l[i]) < Rank(l[j])
  }

  lemma {:induction false} ServeIncreasing(order: seq<Source>, status: set<Source>)
    requires Increasing(order)
    ensures Increasing(Serve(order, status))
  {
    if |order| > 0 {
      var rest := Serve(order[1..], status);
      ServeIncreasing(order[1..], status);
      forall k | 0 <= k < |rest| ensures Rank(order[0]) < Rank(rest[k]) {
        ServeMembers(order[1..], status, rest[k]);
        var m :| 0 <= m < |order[1..]| && order[1..][m] == rest[k];
        assert order[m + 1] == rest[k];
      }
    }
  }

  /** A handler runs iff its bit is set, and the handlers run strictly in
      the order ADC_READY, CIC, LPCOMP1, LPCOMP2, so none runs twice. */
  lemma HandlersServeStatus(status: set<Source>)
    ensures forall x :: x in Handlers(status) <==> x in status
    ensures forall i, j :: 0 <= i < j < |Handlers(status)| ==> Rank(Handlers(status)[i]) < Rank(Handlers(status)[j])
    ensures forall i, j :: 0 <= i < j < |Handlers(status)| ==> Handlers(status)[i] != Handlers(status)[j]
  {
    forall x ensures x in Handlers(status) <==> x in status {
      ServeMembers(Order, status, x);
      assert x in Order by {
        match x
        case AdcReady => assert Order[0] == x;
        case Cic => assert Order[1] == x;
        case LpComp1 => assert Order[2] == x;
        case LpComp2 => assert Order[3] == x;
      }
    }
    ServeIncreasing(Order, status);
  }

  /** One call of _cyhal_adccomp_register_cb from a flag: the result, the
      new flag, and whether the PDL registration was called. */
  datatype Registered = Registered(result: Rslt, registered: bool, calledPdl: bool)

  function RegisterStep(registered: bool, pdlOutcome: Rslt): (s: Registered)
  {
    var r := if registered then Success else pdlOutcome;
    Registered(r, r == Success, !registered)
  }

  /** The number of PDL registration calls over a run of calls, starting
      from `registered`, each call's PDL outcome taken from `outcomes`. */
  function PdlCalls(registered: bool, outcomes: seq<Rslt>): nat
    decreases |outcomes|
  {
    if |outcomes| == 0 then 0
    else var s := RegisterStep(registered, outcomes[0]);
      (if s.calledPdl then 1 else 0) + PdlCalls(s.registered, outcomes[1..])
  }

  /** The first successful outcome in a run, if any. */
  function FirstSuccess(outcomes: seq<Rslt>): (n: nat)
    ensures n <= |outcomes|
    ensures n < |outcomes| ==> outcomes[n] == Success
    ensures forall i :: 0 <= i < n ==> outcomes[i] != Success
  {
    if |outcomes| == 0 then 0
    else if outcomes[0] == Success then 0
    else 1 + FirstSuccess(outcomes[1..])
  }

  /** Starting unregistered, the PDL is called on every call up to and
      including the first successful one, and never after it; failures do
      not set the flag, so each of them is retried. */
  lemma {:induction false} PdlCalledUntilFirstSuccess(outcomes: seq<Rslt>)
    ensures PdlCalls(false, outcomes) == if FirstSuccess(outcomes) < |outcomes| then FirstSuccess(outcomes) + 1
                                         else |outcomes|
    decreases |outcomes|
  {
    if |outcomes| > 0 {
      if outcomes[0] == Success {
        NoCallsOnceRegistered(outcomes[1..]);
      } else {
        PdlCalledUntilFirstSuccess(outcomes[1..]);
      }
    }
  }

  /** Once registered, no call reaches the PDL again. */
  lemma {:induction false} NoCallsOnceRegistered(outcomes: seq<Rslt>)
    ensures PdlCalls(true, outcomes) == 0
    decreases |outcomes|
  {
    if |outcomes| > 0 {
      NoCallsOnceRegistered(outcomes[1..]);
    }
  }

  /** The static `registered` flag of _cyhal_adccomp_register_cb. */
  class Registration {
    var registered: bool
    /** How many times the PDL registration was called. */
    ghost var pdlCalls: nat

    constructor ()
      ensures !registered && pdlCalls == 0
    {
      registered := false;
      pdlCalls := 0;
    }

    /** _cyhal_adccomp_register_cb: call the PDL (which reports
        `pdlOutcome`) only while not registered; the flag records whether
        this call's result is success. */
    method Register(pdlOutcome: Rslt) returns (r: Rslt)
      modifies this
      ensures var s := RegisterStep(old(registered), pdlOutcome);
        r == s.result && registered == s.registered
        && pdlCalls == old(pdlCalls) + (if s.calledPdl then 1 else 0)
    {
      r := Success;
      if !registered {
        r := pdlOutcome;
        pdlCalls := pdlCalls + 1;
      }
      registered := r == Success;
    }
  }
}

/** _cyhal_adccomp_cb, the handler the ADC and the comparators share: read
    the masked interrupt status (an input here) and run the handler of each
    source set in it, in the fixed order. */
module AnalogIsr {
  import opened AnalogCommon
  import AdcMic
  import Comp

  /** The handler on the registered ADC object and the comparator table;
      `calibrationResult`, `counts` and `microvolts` are what the PDL reads
      return to the CIC handler. A comparator source is only set while its
      comparator's object is in the table, which the handler dereferences
      unchecked. */
  method Dispatch(status: set<Source>, adc: AdcMic.Adc?, comps: Comp.Table,
                  calibrationResult: int, counts: int, microvolts: int)
    returns (served: seq<Source>, adcDelivered: seq<AdcMic.Delivery>, compDelivered: seq<Comp.Delivery>)
    requires adc != null ==> adc.Valid()
    requires Cic in status && adc != null ==> adc.NextSlotHeld()
    requires comps.Valid()
    requires LpComp1 in status ==> comps.slots[Comp.EventSlot(LpComp1)] != null
    requires LpComp2 in status ==> comps.slots[Comp.EventSlot(LpComp2)] != null
    modifies adc
    ensures served == Handlers(status)
    ensures AdcReady !in status && Cic !in status ==> adcDelivered == [] && (adc != null ==> unchanged(adc))
    ensures adc == null ==> adcDelivered == []
    ensures adc != null ==>
      adc.usingAudio == old(adc.usingAudio) && adc.callbacks == old(adc.callbacks) &&
      adc.Phase() == ServedPhase(status, old(adc.usingAudio), old(adc.Phase()))
    ensures adc != null ==>
      var converts := Cic in status && !adc.usingAudio &&
                      ReadyPhase(status, adc.usingAudio, old(adc.Phase())) != AdcMic.CalibrationStarted;
      adcDelivered == (if AdcReady in status && adc.usingAudio then AdcMic.Notify(adc.callbacks, AdcMic.Eos) else [])
                   + (if converts then AdcMic.Notify(adc.callbacks, AdcMic.Eos) else [])
                   + (if converts && old(adc.asyncScansRemaining) > 0 && adc.asyncScansRemaining == 0
                      then AdcMic.Notify(adc.callbacks, AdcMic.AsyncReadComplete) else [])
    ensures adc != null && Cic in status && ReadyPhase(status, old(adc.usingAudio), old(adc.Phase())) == AdcMic.CalibrationStarted ==>
      adc.calibOffset == calibrationResult && adc.ScanState() == old(adc.ScanState())
    ensures adc != null && (Cic !in status || adc.usingAudio) ==>
      adc.ScanState() == old(adc.ScanState()) && adc.written == old(adc.written)
    ensures adc != null && Cic in status && !adc.usingAudio && old(adc.asyncScansRemaining) > 0 &&
            ReadyPhase(status, adc.usingAudio, old(adc.Phase())) != AdcMic.CalibrationStarted ==>
      adc.ScanState() == AdcMic.ConvertStep(old(adc.Readiness()), old(adc.ScanState())) &&
      adc.written == old(adc.written) + [if adc.asyncInUv then microvolts else counts]
    ensures compDelivered ==
      (if LpComp1 in status then Comp.Notify(comps.slots[Comp.EventSlot(LpComp1)].callbacks) else [])
      + (if LpComp2 in status then Comp.Notify(comps.slots[Comp.EventSlot(LpComp2)].callbacks) else [])
  {
    HandlersUnfold(status);
    var first, second;
    first, adcDelivered := ServeAdc(status, adc, calibrationResult, counts, microvolts);
    second, compDelivered := ServeComparators(status, comps);
    served := first + second;
  }

  /** The calibration phase after the ADC_READY handler, which moves it
      only in DC mode. */
  function ReadyPhase(status: set<Source>, audio: bool, p: AdcMic.Phase): AdcMic.Phase
  {
    if AdcReady in status && !audio then AdcMic.AfterReady(p) else p
  }

  /** The calibration phase after the whole handler: ADC_READY, then CIC. */
  function ServedPhase(status: set<Source>, audio: bool, p: AdcMic.Phase): AdcMic.Phase
  {
    var p1 := ReadyPhase(status, audio, p);
    if Cic in status then AdcMic.AfterCic(p1) else p1
  }

  /** The ADC half of the handler: calibration on ADC_READY, then the
      conversion result on CIC.  In audio mode ADC_READY reports end of
      scan; in DC mode it moves the calibration on, and CIC then finishes a
      running calibration with the result read or else converts: end of
      scan is reported, and while scans remain the result is appended, the
      scan moves one step and the last one reports the read complete. */
  method ServeAdc(status: set<Source>, adc: AdcMic.Adc?, calibrationResult: int, counts: int, microvolts: int)
    returns (served: seq<Source>, delivered: seq<AdcMic.Delivery>)
    requires adc != null ==> adc.Valid()
    requires Cic in status && adc != null ==> adc.NextSlotHeld()
    modifies adc
    ensures served == (if AdcReady in status then [AdcReady] else []) + (if Cic in status then [Cic] else [])
    ensures AdcReady !in status && Cic !in status ==> delivered == [] && (adc != null ==> unchanged(adc))
    ensures adc == null ==> delivered == []
    ensures adc != null ==>
      adc.usingAudio == old(adc.usingAudio) && adc.callbacks == old(adc.callbacks) &&
      adc.Phase() == ServedPhase(status, old(adc.usingAudio), old(adc.Phase()))
    ensures adc != null ==>
      var converts := Cic in status && !adc.usingAudio &&
                      ReadyPhase(status, adc.usingAudio, old(adc.Phase())) != AdcMic.CalibrationStarted;
      delivered == (if AdcReady in status && adc.usingAudio then AdcMic.Notify(adc.callbacks, AdcMic.Eos) else [])
                   + (if converts then AdcMic.Notify(adc.callbacks, AdcMic.Eos) else [])
                   + (if converts && old(adc.asyncScansRemaining) > 0 && adc.asyncScansRemaining == 0
                      then AdcMic.Notify(adc.callbacks, AdcMic.AsyncReadComplete) else [])
    ensures adc != null && Cic in status && ReadyPhase(status, old(adc.usingAudio), old(adc.Phase())) == AdcMic.CalibrationStarted ==>
      adc.calibOffset == calibrationResult && adc.ScanState() == old(adc.ScanState())
    ensures adc != null && (Cic !in status || adc.usingAudio) ==>
      adc.ScanState() == old(adc.ScanState()) && adc.written == old(adc.written)
    ensures adc != null && Cic in status && !adc.usingAudio && old(adc.asyncScansRemaining) > 0 &&
            ReadyPhase(status, adc.usingAudio, old(adc.Phase())) != AdcMic.CalibrationStarted ==>
      adc.ScanState() == AdcMic.ConvertStep(old(adc.Readiness()), old(adc.ScanState())) &&
      adc.written == old(adc.written) + [if adc.asyncInUv then microvolts else counts]
  {
    served := [];
    delivered := [];
    if AdcReady in status {
      delivered := AdcMic.Calibrate(adc);
      served := [AdcReady];
    }
    if Cic in status {
      var d := AdcMic.GetResult(adc, calibrationResult, counts, microvolts);
      delivered := delivered + d;
      served := served + [Cic];
    }
  }

  /** The comparator half of the handler: LPCOMP1, then LPCOMP2, each
      delivered to the callback of the comparator in its table slot. */
  method ServeComparators(status: set<Source>, comps: Comp.Table)
    returns (served: seq<Source>, delivered: seq<Comp.Delivery>)
    requires comps.Valid()
    requires LpComp1 in status ==> comps.slots[Comp.EventSlot(LpComp1)] != null
    requires LpComp2 in status ==> comps.slots[Comp.EventSlot(LpComp2)] != null
    ensures served == (if LpComp1 in status then [LpComp1] else []) + (if LpComp2 in status then [LpComp2] else [])
    ensures delivered ==
      (if LpComp1 in status then Comp.Notify(comps.slots[Comp.EventSlot(LpComp1)].callbacks) else [])
      + (if LpComp2 in status then Comp.Notify(comps.slots[Comp.EventSlot(LpComp2)].callbacks) else [])
  {
    served := [];
    delivered := [];
    if LpComp1 in status {
      delivered := Comp.ProcessEvent(comps, LpComp1);
      served := [LpComp1];
    }
    if LpComp2 in status {
      var d := Comp.ProcessEvent(comps, LpComp2);
      delivered := delivered + d;
      served := served + [LpComp2];
    }
  }
}
