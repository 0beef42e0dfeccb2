/** The low-power comparator driver (source/cyhal_comp.c): the choice between
    DC mode (a positive and a negative input on the same comparator) and NTD
    mode (MIC_P alone), the input selectors, the table of objects the shared
    interrupt handler looks events up in, event enabling and delivery, and
    init/free with their reservations.  The PDL calls (Cy_ADCCOMP_*) are
    inputs: whether LPCOMP_Init and LPCOMP_Enable succeed is a parameter. */
module Comp {
  import opened Results
  import opened Options
  import Pins
  import HwMgr
  import UtilsImpl
  import AnalogCommon
  import Resources

  /** _CYHAL_COMP_IP_BLOCKS and _CYHAL_COMP_PER_LP: one ADCCOMP block with
      two comparators. */
  const IpBlocks: nat := 1
  const PerLp: nat := 2
  const SlotCount: nat := IpBlocks * PerLp

  /** The comparator inputs by their names in the driver (_CYHAL_COMP_GPIO_n). */
  const CompGpio0: int := Pins.LhlGpio2
  const CompGpio1: int := Pins.LhlGpio3
  const CompGpio2: int := Pins.LhlGpio4
  const CompGpio3: int := Pins.LhlGpio5
  const CompGpio4: int := Pins.LhlGpio6
  const CompGpio5: int := Pins.LhlGpio7
  const CompGpio6: int := Pins.LhlGpio8
  const CompGpio7: int := Pins.LhlGpio9
  const CompGpioMic: int := Pins.MicP

  /** cy_en_adccomp_lpcomp_mode_t */
  datatype Mode = Dc | Ntd

  /** cy_en_adccomp_lpcomp_positive_channel_t and
      cy_en_adccomp_lpcomp_negative_channel_t */
  datatype InP = InPOpen | InPGpio26 | InPGpio37 | InPMic
  datatype InN = InNOpen | InNGpio04 | InNGpio15

  /** cyhal_comp_event_t */
  datatype Event = RisingEdge | FallingEdge

  /** A call of the registered callback with its argument and event. */
  datatype Delivery = Delivery(callback: nat, arg: int, event: Event)

  /** The positive-input selector chosen for a reserved vin_p. */
  function InPSelector(pin: int): (s: InP)
    ensures s == InPGpio26 <==> pin == CompGpio2 || pin == CompGpio6
    ensures s == InPGpio37 <==> pin == CompGpio3 || pin == CompGpio7
    ensures s == InPMic <==> pin == CompGpioMic
  {
    if pin == CompGpio2 || pin == CompGpio6 then InPGpio26
    else if pin == CompGpio3 || pin == CompGpio7 then InPGpio37
    else if pin == CompGpioMic then InPMic
    else InPOpen
  }

  /** The negative-input selector chosen for a reserved vin_m. */
  function InNSelector(pin: int): (s: InN)
    ensures s == InNGpio04 <==> pin == CompGpio0 || pin == CompGpio4
    ensures s == InNGpio15 <==> pin == CompGpio1 || pin == CompGpio5
  {
    if pin == CompGpio0 || pin == CompGpio4 then InNGpio04
    else if pin == CompGpio1 || pin == CompGpio5 then InNGpio15
    else InNOpen
  }

  /** _cyhal_utils_map_resources_equal, modelled as equal block and channel. */
  predicate SameComparator(a: Pins.Mapping, b: Pins.Mapping)
  {
    a.block == b.block && a.channel == b.channel
  }

  /** The outcome of the pin checks of cyhal_comp_init. */
  datatype Selection = Selection(result: Rslt, mode: Mode, pMap: Option<Pins.Mapping>, mMap: Option<Pins.Mapping>)

  /** The pin checks of cyhal_comp_init as written: an output pin is an
      error, DC mode needs both inputs mapped to the same comparator, and
      when that fails MIC_P alone selects NTD mode, which clears any earlier
      error. */
  function SelectAsWritten(inn: seq<Pins.Mapping>, vinP: int, vinM: int, output: int): (s: Selection)
  {
    var r0 := if output != Pins.NC then CompInvalidPin else Success;
    var pm := Pins.Lookup(Pins.LpcompInp, vinP);
    var mm := Pins.Lookup(inn, vinM);
    var r1 := if pm.None? || mm.None? || !SameComparator(pm.value, mm.value) then CompInvalidPin else r0;
    if r1 == CompInvalidPin then
      var pm2 := Pins.Lookup(Pins.MicPMap, vinP);
      if pm2.Some? && mm.None? then Selection(Success, Ntd, pm2, mm) else Selection(r1, Dc, pm2, mm)
    else Selection(r1, Dc, pm, mm)
  }

  /** The three real entries of cyhal_pin_map_lpcomp_inn_comp. */
  const InnPins: seq<Pins.Mapping> := Pins.LpcompInn[..3]

  /** The pin checks with an output pin refused in NTD mode too. */
  function Select(inn: seq<Pins.Mapping>, vinP: int, vinM: int, output: int): (s: Selection)
    ensures s.result == Success || s.result == CompInvalidPin
    ensures s.result == Success ==> output == Pins.NC && s.pMap.Some? && s.pMap.value.pin == vinP != Pins.NC
    ensures s.result == Success && s.mode == Dc ==> vinM != Pins.NC
    ensures s.result == Success ==> (s.mMap.Some? <==> s.mode == Dc)
    ensures s.result == Success && s.mode == Dc ==> s.mMap.value.pin == vinM && SameComparator(s.pMap.value, s.mMap.value)
  {
    var w := SelectAsWritten(inn, vinP, vinM, output);
    if output != Pins.NC then w.(result := CompInvalidPin) else w
  }

  /** The DC input pairs: both inputs on comparator 1 (LHL_GPIO_4/5 with
      LHL_GPIO_2/3) or both on comparator 0 (LHL_GPIO_8/9 with LHL_GPIO_6). */
  predicate DcPair(vinP: int, vinM: int)
  {
    ((vinP == Pins.LhlGpio4 || vinP == Pins.LhlGpio5) && (vinM == Pins.LhlGpio2 || vinM == Pins.LhlGpio3))
    || ((vinP == Pins.LhlGpio8 || vinP == Pins.LhlGpio9) && vinM == Pins.LhlGpio6)
  }

  lemma InpTable()
    ensures |Pins.LpcompInp| == 4
    ensures Pins.LpcompInp[0] == Pins.Mapping(0, 1, Pins.LhlGpio4, Pins.FuncNone)
    ensures Pins.LpcompInp[1] == Pins.Mapping(0, 1, Pins.LhlGpio5, Pins.FuncNone)
    ensures Pins.LpcompInp[2] == Pins.Mapping(0, 0, Pins.LhlGpio8, Pins.FuncNone)
    ensures Pins.LpcompInp[3] == Pins.Mapping(0, 0, Pins.LhlGpio9, Pins.FuncNone)
    ensures |InnPins| == 3
    ensures InnPins[0] == Pins.Mapping(0, 1, Pins.LhlGpio2, Pins.FuncNone)
    ensures InnPins[1] == Pins.Mapping(0, 1, Pins.LhlGpio3, Pins.FuncNone)
    ensures InnPins[2] == Pins.Mapping(0, 0, Pins.LhlGpio6, Pins.FuncNone)
  {
  }

  /** With the real entries, DC mode is chosen exactly for the pairs on one
      comparator and no output pin; then both selectors name a real input. */
  lemma SelectDcPairs(vinP: int, vinM: int, output: int)
    ensures var s := Select(InnPins, vinP, vinM, output);
      s.result == Success && s.mode == Dc <==> output == Pins.NC && DcPair(vinP, vinM)
    ensures var s := Select(InnPins, vinP, vinM, output);
      s.result == Success && s.mode == Dc ==> InPSelector(vinP) != InPOpen && InNSelector(vinM) != InNOpen
  {
    InpTable();
    var pm := Pins.Lookup(Pins.LpcompInp, vinP);
    var mm := Pins.Lookup(InnPins, vinM);
    if DcPair(vinP, vinM) {
      assert pm.Some? && mm.Some?;
      assert pm.value in Pins.LpcompInp && mm.value in InnPins;
    }
  }

  /** NTD mode is chosen exactly for MIC_P with no negative-input mapping
      and no output pin; its positive selector is the microphone. */
  lemma SelectNtd(vinP: int, vinM: int, output: int)
    ensures var s := Select(InnPins, vinP, vinM, output);
      s.result == Success && s.mode == Ntd <==>
        output == Pins.NC && vinP == Pins.MicP && vinM !in {Pins.LhlGpio2, Pins.LhlGpio3, Pins.LhlGpio6}
    ensures var s := Select(InnPins, vinP, vinM, output);
      s.result == Success && s.mode == Ntd ==> InPSelector(vinP) == InPMic
  {
    InpTable();
    assert Pins.MicPMap[0].pin == Pins.MicP && |Pins.MicPMap| == 1;
    var mm := Pins.Lookup(InnPins, vinM);
    if vinM !in {Pins.LhlGpio2, Pins.LhlGpio3, Pins.LhlGpio6} {
      assert mm.None?;
    }
  }

  /** As written, the zero-filled fourth inn entry makes BT_GPIO_0 a
      negative input of comparator 0, so LHL_GPIO_8 against BT_GPIO_0 is
      accepted in DC mode with an OPEN negative selector. */
  lemma SelectAsWrittenAcceptsBtGpio0()
    ensures var s := SelectAsWritten(Pins.LpcompInn, Pins.LhlGpio8, Pins.BtGpio0, Pins.NC);
      s.result == Success && s.mode == Dc && s.mMap == Some(Pins.ZeroMapping)
    ensures InNSelector(Pins.BtGpio0) == InNOpen
  {
    InpTable();
    assert Pins.LpcompInn[3] == Pins.ZeroMapping && Pins.ZeroMapping.pin == Pins.BtGpio0;
    assert Pins.FindPin(Pins.LpcompInn, Pins.BtGpio0) == Some(3);
    assert Pins.FindPin(Pins.LpcompInp, Pins.LhlGpio8) == Some(2);
  }

  /** As written, an output pin, which the driver does not support, is
      accepted in NTD mode: the NTD fallback replaces the output-pin error. */
  lemma SelectAsWrittenIgnoresOutput(output: int)
    requires output != Pins.NC
    ensures SelectAsWritten(Pins.LpcompInn, Pins.MicP, Pins.NC, output).result == Success
    ensures Select(Pins.LpcompInn, Pins.MicP, Pins.NC, output).result == CompInvalidPin
  {
    assert Pins.FindPin(Pins.MicPMap, Pins.MicP) == Some(0);
  }

  /** The slot of a comparator in the table of objects. */
  function SlotIndex(block: int, channel: int): int
  {
    block * PerLp + channel
  }

  /** Every comparator that any table entry names has a slot in the table. */
  lemma MappedComparatorsHaveSlots(m: Pins.Mapping)
    requires m in Pins.LpcompInp || m in Pins.MicPMap
    ensures 0 <= SlotIndex(m.block, m.channel) < SlotCount
  {
  }

  /** The result of _cyhal_comp_init_hw: the PDL init, the registration of
      the shared handler, the PDL enable. */
  function InitHwStatus(initOk: bool, registration: Rslt, enableOk: bool): Rslt
  {
    if !initOk then CompBadArgument
    else if registration != Success then registration
    else if !enableOk then CompBadArgument
    else Success
  }

  /** The result of cyhal_comp_init, in the order of its steps: pin checks,
      comparator reservation, vin_p reserve and connect, vin_m reserve and
      connect (DC mode only), hardware init. */
  function InitStatus(s: Selection, compOutcome: Rslt, pReserve: Rslt, pConnect: Rslt,
                      mReserve: Rslt, mConnect: Rslt, hwStatus: Rslt): (r: Rslt)
    ensures r == Success <==>
      s.result == Success && compOutcome == Success && pReserve == Success && pConnect == Success
      && (s.mMap.Some? ==> mReserve == Success && mConnect == Success) && hwStatus == Success
  {
    if s.result != Success then s.result
    else if compOutcome != Success then compOutcome
    else if pReserve != Success then pReserve
    else if pConnect != Success then pConnect
    else if s.mMap.Some? && mReserve != Success then mReserve
    else if s.mMap.Some? && mConnect != Success then mConnect
    else hwStatus
  }

  /** _cyhal_comp_lp_config_structs and the comparator reservations of the
      hardware manager (CYHAL_RSC_LPCOMP is not in this build's
      cyhal_resource_t, so they are kept here as block/channel pairs). */
  class Table {
    const slots: array<Comp?>
    var reserved: set<(int, int)>

    ghost predicate Valid()
      reads this
    {
      slots.Length == SlotCount
    }

    constructor ()
      ensures Valid() && fresh(slots) && slots[..] == [null, null] && reserved == {}
    {
      slots := new Comp?[SlotCount](_ => null);
      reserved := {};
    }

    /** cyhal_hwmgr_reserve of a comparator: reports `outcome`; only a
        successful report takes it. */
    method Reserve(c: (int, int), outcome: Rslt) returns (r: Rslt)
      modifies this
      ensures r == outcome
      ensures reserved == if outcome == Success then old(reserved) + {c} else old(reserved)
    {
      r := outcome;
      if outcome == Success {
        reserved := reserved + {c};
      }
    }
  }

  /** The inputs of a comparator object: the reserved pins (NC when none),
      the selectors (None for the zeroed value of a field never set) and
      the mode. */
  datatype Inputs = Inputs(vinP: int, vinM: int, inP: Option<InP>, inN: Option<InN>, mode: Mode)

  const NoInputs := Inputs(Pins.NC, Pins.NC, None, None, Dc)

  /** What the PDL calls leave set: the ADCCOMP base pointer, the
      comparator enable and its interrupt enable. */
  datatype HwState = HwState(base: bool, compEnabled: bool, intrEnabled: bool)

  /** The enabled events and the registered callback. */
  datatype Callbacks = Callbacks(events: set<Event>, callback: Option<nat>, arg: int)

  /** The outcomes of the foreign calls cyhal_comp_init makes, in order:
      the comparator reservation, reserve and connect of vin_p and of
      vin_m, LPCOMP_Init, the PDL callback registration and LPCOMP_Enable. */
  datatype Outcomes = Outcomes(comp: Rslt, pReserve: Rslt, pConnect: Rslt, mReserve: Rslt, mConnect: Rslt,
                               initOk: bool, registration: Rslt, enableOk: bool)

  /** The interrupt and slot of a comparator channel
      (_CYHAL_COMP_GET_CHANNEL, _CYHAL_COMP_GET_INTR). */
  function Interrupt(channel: int): AnalogCommon.Source
  {
    if channel == 1 then AnalogCommon.LpComp2 else AnalogCommon.LpComp1
  }

  /** The slot _cyhal_comp_process_event reads for an interrupt. */
  function EventSlot(intr: AnalogCommon.Source): (i: nat)
    ensures i < SlotCount
  {
    if intr == AnalogCommon.LpComp1 then 0 else 1
  }

  /** The interrupt of each comparator is routed back to the slot init_hw
      stored its object in. */
  lemma InterruptRoutesToSlot(channel: int)
    requires channel == 0 || channel == 1
    ensures EventSlot(Interrupt(channel)) == SlotIndex(0, channel)
    ensures Interrupt(channel) == AnalogCommon.LpComp1 || Interrupt(channel) == AnalogCommon.LpComp2
  {
  }

  /** The callback call for a rising edge, made when that event is enabled
      and a callback is registered. */
  function Notify(c: Callbacks): (d: seq<Delivery>)
    ensures d != [] <==> RisingEdge in c.events && c.callback.Some?
    ensures d != [] ==> d == [Delivery(c.callback.value, c.arg, RisingEdge)]
  {
    if RisingEdge in c.events && c.callback.Some? then [Delivery(c.callback.value, c.arg, RisingEdge)] else []
  }

  /** The type of a configurator's resource: a comparator, CYHAL_RSC_INVALID
      or any other type. */
  datatype CfgKind = CfgLpComp | CfgInvalid | CfgOther

  /** The `cyhal_resource_inst_t` a configurator hands to init_cfg. */
  datatype CfgResource = CfgResource(kind: CfgKind, block: int, channel: int)

  /** What `obj->resource = *cfg->resource` leaves for free to look at: the
      block and channel, unless the type is CYHAL_RSC_INVALID. */
  function StoredResource(cfg: CfgResource): (r: Option<(int, int)>)
    ensures r.None? <==> cfg.kind == CfgInvalid
    ensures r.Some? ==> r.value == (cfg.block, cfg.channel)
  {
    if cfg.kind == CfgInvalid then None else Some((cfg.block, cfg.channel))
  }

  /** cyhal_comp_t */
  class Comp {
    /** The resource's block and channel; None is CYHAL_RSC_INVALID.  Only
        init_cfg can store a resource that is not a comparator. */
    var resource: Option<(int, int)>
    var ownedByConfigurator: bool
    var inputs: Inputs
    var hw: HwState
    var callbacks: Callbacks

    constructor ()
      ensures resource.None? && inputs == NoInputs && hw == HwState(false, false, false)
      ensures callbacks == Callbacks({}, None, 0)
    {
      resource := None;
      ownedByConfigurator := false;
      inputs := NoInputs;
      hw := HwState(false, false, false);
      callbacks := Callbacks({}, None, 0);
    }

    /** The memset and initial values at the top of cyhal_comp_init. */
    method Reset(configurator: bool)
      modifies this
      ensures resource.None? && ownedByConfigurator == configurator && inputs == NoInputs
      ensures hw == HwState(false, false, false) && callbacks == Callbacks({}, None, 0)
    {
      resource := None;
      ownedByConfigurator := configurator;
      inputs := NoInputs;
      hw := HwState(false, false, false);
      callbacks := Callbacks({}, None, 0);
    }

    /** Whether the object's comparator has a slot in the table. */
    ghost predicate Placed(t: Table)
      reads this, t
    {
      t.Valid() && (resource.Some? ==> 0 <= SlotIndex(resource.value.0, resource.value.1) < SlotCount)
    }

    /** The pin resources the object holds. */
    ghost function HeldPins(): set<Resources.Inst>
      reads this
    {
      (if inputs.vinP != Pins.NC then {UtilsImpl.GetGpioResource(inputs.vinP)} else {})
      + (if inputs.vinM != Pins.NC then {UtilsImpl.GetGpioResource(inputs.vinM)} else {})
    }

    /** cyhal_comp_free: with a comparator, clear its slot, stop the
        comparator and its interrupt if the base is set, give the comparator
        back unless a configurator owns it and clear the base; then release
        both pins that are not NC. The resource field is left as it was. */
    method Free(pins: HwMgr.Manager, t: Table)
      requires Placed(t)
      modifies this, pins, t, t.slots
      ensures Placed(t) && resource == old(resource) && ownedByConfigurator == old(ownedByConfigurator)
      ensures old(resource).None? ==> t.slots[..] == old(t.slots[..]) && t.reserved == old(t.reserved) && hw == old(hw)
      ensures old(resource).Some? ==>
        var c := old(resource).value;
        t.slots[..] == old(t.slots[..])[SlotIndex(c.0, c.1) := null]
        && t.reserved == (if ownedByConfigurator then old(t.reserved) else old(t.reserved) - {c})
        && hw == if old(hw.base) then HwState(false, false, false) else old(hw)
      ensures inputs == old(inputs).(vinP := Pins.NC, vinM := Pins.NC)
      ensures pins.reserved == old(pins.reserved) - old(HeldPins())
      ensures callbacks == old(callbacks)
    {
      if resource.Some? {
        var c := resource.value;
        t.slots[SlotIndex(c.0, c.1)] := null;
        if hw.base {
          // LPCOMP_Disable, LPCOMP_ClearLatch, LPCOMP_DeInit, DisableInterrupt.
          hw := hw.(compEnabled := false, intrEnabled := false);
        }
        if !ownedByConfigurator {
          t.reserved := t.reserved - {c};
        }
        hw := hw.(base := false);
      }
      ReleasePins(pins);
    }

    /** The two _cyhal_utils_release_if_used calls of cyhal_comp_free. */
    method ReleasePins(pins: HwMgr.Manager)
      modifies this, pins
      ensures inputs == old(inputs).(vinP := Pins.NC, vinM := Pins.NC)
      ensures pins.reserved == old(pins.reserved) - old(HeldPins())
      ensures resource == old(resource) && ownedByConfigurator == old(ownedByConfigurator)
      ensures hw == old(hw) && callbacks == old(callbacks)
    {
      if inputs.vinP != Pins.NC {
        UtilsImpl.DisconnectAndFree(pins, inputs.vinP);
        inputs := inputs.(vinP := Pins.NC);
      }
      if inputs.vinM != Pins.NC {
        UtilsImpl.DisconnectAndFree(pins, inputs.vinM);
        inputs := inputs.(vinM := Pins.NC);
      }
    }

    /** _cyhal_comp_init_hw: set the base, initialise the comparator,
        register the shared handler, enable the comparator and, when all of
        that worked, store the object in its comparator's slot. */
    method InitHw(t: Table, reg: AnalogCommon.Registration, initOk: bool, registration: Rslt, enableOk: bool)
      returns (r: Rslt)
      requires Placed(t) && resource.Some?
      modifies this, t.slots, reg
      ensures var reged := if initOk then AnalogCommon.RegisterStep(old(reg.registered), registration)
                           else AnalogCommon.Registered(Success, old(reg.registered), false);
        r == InitHwStatus(initOk, reged.result, enableOk) && reg.registered == reged.registered
        && reg.pdlCalls == old(reg.pdlCalls) + (if reged.calledPdl then 1 else 0)
      ensures var c := old(resource).value;
        t.slots[..] == if r == Success then old(t.slots[..])[SlotIndex(c.0, c.1) := this] else old(t.slots[..])
      ensures hw == old(hw).(base := true, compEnabled := old(hw.compEnabled) || r == Success)
      ensures resource == old(resource) && ownedByConfigurator == old(ownedByConfigurator)
      ensures inputs == old(inputs) && callbacks == old(callbacks)
    {
      hw := hw.(base := true);
      r := if initOk then Success else CompBadArgument;
      if r == Success {
        r := reg.Register(registration);
      }
      if r == Success {
        r := if enableOk then Success else CompBadArgument;
        if r == Success {
          hw := hw.(compEnabled := true);
        }
      }
      if r == Success {
        // LPCOMP_ClearLatch, then the slot.
        var c := resource.value;
        t.slots[SlotIndex(c.0, c.1)] := this;
      }
    }

    /** The pin reservations of cyhal_comp_init: vin_p, then (in DC mode)
        vin_m; each pin and its selector is recorded once it is reserved
        and connected. */
    method ConnectInputs(s: Selection, vinP: int, vinM: int, pins: HwMgr.Manager, o: Outcomes)
      returns (r: Rslt)
      requires s.result == Success && s.pMap.Some? && s.pMap.value.pin == vinP != Pins.NC
      requires s.mMap.Some? ==> s.mMap.value.pin == vinM != Pins.NC
      requires inputs.vinP == Pins.NC && inputs.vinM == Pins.NC
      modifies this, pins
      ensures r == InitStatus(s, Success, o.pReserve, o.pConnect, o.mReserve, o.mConnect, Success)
      ensures r == Success ==>
        inputs == old(inputs).(vinP := vinP, inP := Some(InPSelector(vinP)),
                               vinM := if s.mMap.Some? then vinM else Pins.NC,
                               inN := if s.mMap.Some? then Some(InNSelector(vinM)) else old(inputs.inN))
        && pins.reserved == old(pins.reserved) + HeldPins()
      ensures pins.reserved - HeldPins() <= old(pins.reserved)
      ensures inputs.mode == old(inputs.mode)
      ensures resource == old(resource) && ownedByConfigurator == old(ownedByConfigurator)
      ensures hw == old(hw) && callbacks == old(callbacks)
    {
      r := UtilsImpl.ReserveAndConnect(pins, vinP, o.pReserve, o.pConnect);
      if r != Success {
        return;
      }
      inputs := inputs.(vinP := vinP, inP := Some(InPSelector(vinP)));
      if s.mMap.Some? {
        r := UtilsImpl.ReserveAndConnect(pins, vinM, o.mReserve, o.mConnect);
        if r == Success {
          inputs := inputs.(vinM := vinM, inN := Some(InNSelector(vinM)));
        }
      }
    }

    /** cyhal_comp_init over the real pin tables: the pin checks, the
        comparator reservation, the pins, the hardware; on any failure the
        object is freed, which leaves nothing reserved. */
    method Init(vinP: int, vinM: int, output: int, pins: HwMgr.Manager, t: Table,
                reg: AnalogCommon.Registration, o: Outcomes)
      returns (r: Rslt)
      requires t.Valid()
      modifies this, pins, t, t.slots, reg
      ensures var s := Select(InnPins, vinP, vinM, output);
        var reged := if o.initOk then AnalogCommon.RegisterStep(old(reg.registered), o.registration)
                     else AnalogCommon.Registered(Success, old(reg.registered), false);
        r == InitStatus(s, o.comp, o.pReserve, o.pConnect, o.mReserve, o.mConnect,
                        InitHwStatus(o.initOk, reged.result, o.enableOk))
      ensures r == Success ==>
        var s := Select(InnPins, vinP, vinM, output);
        var c := (s.pMap.value.block, s.pMap.value.channel);
        resource == Some(c) && !ownedByConfigurator
        && inputs == Inputs(vinP, if s.mode == Dc then vinM else Pins.NC, Some(InPSelector(vinP)),
                            if s.mode == Dc then Some(InNSelector(vinM)) else None, s.mode)
        && t.slots[..] == old(t.slots[..])[SlotIndex(c.0, c.1) := this]
        && t.reserved == old(t.reserved) + {c}
        && pins.reserved == old(pins.reserved) + HeldPins()
        && hw == HwState(true, true, false) && callbacks == Callbacks({}, None, 0)
      ensures r != Success ==>
        inputs.vinP == Pins.NC && inputs.vinM == Pins.NC
        && pins.reserved <= old(pins.reserved) && t.reserved <= old(t.reserved)
        && forall i :: 0 <= i < SlotCount ==> t.slots[i] == old(t.slots[i]) || t.slots[i] == null
    {
      Reset(false);
      var s := Select(InnPins, vinP, vinM, output);
      if s.result != Success {
        r := s.result;
        ghost var held := pins.reserved;
        Free(pins, t);
        assert pins.reserved == held && t.slots[..] == old(t.slots[..]);
        return;
      }
      r := Setup(s, vinP, vinM, pins, t, reg, o);
    }

    /** The steps of cyhal_comp_init after the pin checks: reserve the
        comparator, then the pins, then set up the hardware; free on
        failure, which gives back everything taken. */
    method Setup(s: Selection, vinP: int, vinM: int, pins: HwMgr.Manager, t: Table,
                 reg: AnalogCommon.Registration, o: Outcomes)
      returns (r: Rslt)
      requires s.result == Success && s.pMap.Some? && s.pMap.value.pin == vinP != Pins.NC
      requires s.mMap.Some? ==> s.mMap.value.pin == vinM != Pins.NC
      requires s.pMap.value in Pins.LpcompInp || s.pMap.value in Pins.MicPMap
      requires t.Valid() && resource.None? && inputs == NoInputs && !ownedByConfigurator
      requires hw == HwState(false, false, false)
      modifies this, pins, t, t.slots, reg
      ensures var reged := if o.initOk then AnalogCommon.RegisterStep(old(reg.registered), o.registration)
                           else AnalogCommon.Registered(Success, old(reg.registered), false);
        r == InitStatus(s, o.comp, o.pReserve, o.pConnect, o.mReserve, o.mConnect,
                        InitHwStatus(o.initOk, reged.result, o.enableOk))
      ensures r == Success ==>
        var c := (s.pMap.value.block, s.pMap.value.channel);
        resource == Some(c)
        && inputs == Inputs(vinP, if s.mMap.Some? then vinM else Pins.NC, Some(InPSelector(vinP)),
                            if s.mMap.Some? then Some(InNSelector(vinM)) else None, s.mode)
        && t.slots[..] == old(t.slots[..])[SlotIndex(c.0, c.1) := this]
        && t.reserved == old(t.reserved) + {c}
        && pins.reserved == old(pins.reserved) + HeldPins()
        && hw == HwState(true, true, false)
      ensures r != Success ==>
        inputs.vinP == Pins.NC && inputs.vinM == Pins.NC
        && pins.reserved <= old(pins.reserved) && t.reserved <= old(t.reserved)
        && forall i :: 0 <= i < SlotCount ==> t.slots[i] == old(t.slots[i]) || t.slots[i] == null
      ensures ownedByConfigurator == old(ownedByConfigurator) && callbacks == old(callbacks)
    {
      var c := (s.pMap.value.block, s.pMap.value.channel);
      MappedComparatorsHaveSlots(s.pMap.value);
      r := t.Reserve(c, o.comp);
      if r != Success {
        ghost var held := pins.reserved;
        Free(pins, t);
        assert pins.reserved == held && t.slots[..] == old(t.slots[..]);
        return;
      }
      resource := Some(c);
      r := Bring(s, vinP, vinM, pins, t, reg, o);
    }

    /** The steps of cyhal_comp_init once the comparator is held: the pins,
        then the hardware; free on failure. */
    method Bring(s: Selection, vinP: int, vinM: int, pins: HwMgr.Manager, t: Table,
                 reg: AnalogCommon.Registration, o: Outcomes)
      returns (r: Rslt)
      requires s.result == Success && s.pMap.Some? && s.pMap.value.pin == vinP != Pins.NC
      requires s.mMap.Some? ==> s.mMap.value.pin == vinM != Pins.NC
      requires Placed(t) && resource.Some? && inputs == NoInputs && !ownedByConfigurator
      requires hw == HwState(false, false, false)
      modifies this, pins, t, t.slots, reg
      ensures var reged := if o.initOk then AnalogCommon.RegisterStep(old(reg.registered), o.registration)
                           else AnalogCommon.Registered(Success, old(reg.registered), false);
        r == InitStatus(s, Success, o.pReserve, o.pConnect, o.mReserve, o.mConnect,
                        InitHwStatus(o.initOk, reged.result, o.enableOk))
      ensures var c := old(resource).value;
        if r == Success then
          resource == old(resource)
          && inputs == Inputs(vinP, if s.mMap.Some? then vinM else Pins.NC, Some(InPSelector(vinP)),
                              if s.mMap.Some? then Some(InNSelector(vinM)) else None, s.mode)
          && t.slots[..] == old(t.slots[..])[SlotIndex(c.0, c.1) := this]
          && t.reserved == old(t.reserved)
          && pins.reserved == old(pins.reserved) + HeldPins()
          && hw == HwState(true, true, false)
        else
          inputs.vinP == Pins.NC && inputs.vinM == Pins.NC
          && pins.reserved <= old(pins.reserved) && t.reserved == old(t.reserved) - {c}
          && t.slots[..] == old(t.slots[..])[SlotIndex(c.0, c.1) := null]
      ensures ownedByConfigurator == old(ownedByConfigurator) && callbacks == old(callbacks)
    {
      r := ConnectInputs(s, vinP, vinM, pins, o);
      if r != Success {
        Free(pins, t);
        return;
      }
      inputs := inputs.(mode := s.mode);
      r := InitHw(t, reg, o.initOk, o.registration, o.enableOk);
      if r != Success {
        Free(pins, t);
      }
    }

    /** cyhal_comp_init_cfg: store the configurator's resource whatever
        its type; a resource that is not a comparator is then refused as a
        bad argument, with the resource left in the object (so a later free
        clears the slot its block and channel name); a comparator is set up
        on the hardware, and freed on failure. */
    method InitCfg(cfg: CfgResource, pins: HwMgr.Manager, t: Table,
                   reg: AnalogCommon.Registration, initOk: bool, registration: Rslt, enableOk: bool)
      returns (r: Rslt)
      requires t.Valid()
      requires cfg.kind == CfgLpComp ==> 0 <= SlotIndex(cfg.block, cfg.channel) < SlotCount
      modifies this, pins, t, t.slots, reg
      ensures resource == StoredResource(cfg) && ownedByConfigurator && t.reserved == old(t.reserved)
      ensures cfg.kind != CfgLpComp ==>
        r == CompBadArgument && t.slots[..] == old(t.slots[..]) && reg.registered == old(reg.registered)
      ensures cfg.kind == CfgLpComp ==>
        var reged := if initOk then AnalogCommon.RegisterStep(old(reg.registered), registration)
                     else AnalogCommon.Registered(Success, old(reg.registered), false);
        r == InitHwStatus(initOk, reged.result, enableOk)
        && t.slots[..] == old(t.slots[..])[SlotIndex(cfg.block, cfg.channel) := if r == Success then this else null]
      ensures 0 <= SlotIndex(cfg.block, cfg.channel) < SlotCount ==> Placed(t)
      ensures inputs.vinP == Pins.NC && inputs.vinM == Pins.NC && pins.reserved == old(pins.reserved)
    {
      Reset(true);
      r := CompBadArgument;
      resource := StoredResource(cfg);
      if cfg.kind == CfgLpComp {
        r := InitHw(t, reg, initOk, registration, enableOk);
        if r != Success {
          Free(pins, t);
        }
      }
    }

    /** cyhal_comp_configure: the hardware set-up of init_hw again. */
    method Configure(t: Table, reg: AnalogCommon.Registration, initOk: bool, registration: Rslt, enableOk: bool)
      returns (r: Rslt)
      requires Placed(t) && resource.Some?
      modifies this, t.slots, reg
      ensures var reged := if initOk then AnalogCommon.RegisterStep(old(reg.registered), registration)
                           else AnalogCommon.Registered(Success, old(reg.registered), false);
        r == InitHwStatus(initOk, reged.result, enableOk) && reg.registered == reged.registered
      ensures var c := old(resource).value;
        t.slots[..] == if r == Success then old(t.slots[..])[SlotIndex(c.0, c.1) := this] else old(t.slots[..])
      ensures inputs == old(inputs) && callbacks == old(callbacks) && resource == old(resource)
    {
      r := InitHw(t, reg, initOk, registration, enableOk);
    }

    /** cyhal_comp_register_callback */
    method RegisterCallback(cb: Option<nat>, arg: int)
      modifies this
      ensures callbacks == old(callbacks).(callback := cb, arg := arg)
      ensures resource == old(resource) && inputs == old(inputs) && hw == old(hw)
    {
      callbacks := callbacks.(callback := cb, arg := arg);
    }

    /** cyhal_comp_enable_event: add or remove only the given events; the
        comparator's interrupt is enabled or disabled with them. */
    method EnableEvent(events: set<Event>, enable: bool)
      requires resource.Some?
      modifies this
      ensures callbacks.events == if enable then old(callbacks.events) + events else old(callbacks.events) - events
      ensures callbacks.callback == old(callbacks.callback) && callbacks.arg == old(callbacks.arg)
      ensures hw == old(hw).(intrEnabled := enable)
      ensures resource == old(resource) && inputs == old(inputs)
    {
      if enable {
        callbacks := callbacks.(events := callbacks.events + events);
      } else {
        callbacks := callbacks.(events := callbacks.events - events);
      }
      hw := hw.(intrEnabled := enable);
    }
  }

  /** _cyhal_comp_process_event: the comparator's object is looked up by
      interrupt (LPCOMP1 in slot 0, any other in slot 1), its interrupt
      cleared, and a rising edge reported when enabled with a callback. */
  method ProcessEvent(t: Table, intr: AnalogCommon.Source) returns (d: seq<Delivery>)
    requires t.Valid() && t.slots[EventSlot(intr)] != null
    ensures d == Notify(t.slots[EventSlot(intr)].callbacks)
  {
    var obj := t.slots[if intr == AnalogCommon.LpComp1 then 0 else 1];
    d := [];
    if RisingEdge in obj.callbacks.events {
      if obj.callbacks.callback.Some? {
        d := [Delivery(obj.callbacks.callback.value, obj.callbacks.arg, RisingEdge)];
      }
    }
  }
}
