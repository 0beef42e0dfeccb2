/** The BTSS GPIO driver of source/cyhal_gpio.c: per-pin callback buckets,
    the pad-to-BTSS and BTSS-to-pad maps, pin initialisation and release,
    pad configuration and interrupt events.  ROM calls (btss_pad_*,
    btss_gpio_*, cyhal_connect_pin) are returned as a list of PadCall values,
    and the results the ROM reports are inputs. */
module Gpio {
  import opened Results
  import opened Resources
  import opened Options
  import opened Pins
  import opened GpioCfg
  import HwMgr
  import UtilsImpl

  /** _CYHAL_GPIO_UNASSIGNED: a map entry with no partner. */
  const Unassigned: int := 0xFF

  /** The 24 BTSS pin-mux GPIO selections, groups of eight from these bases. */
  const BtssGpio0: int := 0
  const BtssAGpio0: int := 8
  const BtssBGpio0: int := 16
  const BtssPinCount: int := 24

  /** Length of _cyhal_btss_pad_map (BT_GPIO_LAST + 1). */
  const BtssPadMapLength: int := BtGpioLast + 1

  datatype Direction = DirInput | DirOutput | DirBidirectional

  datatype DriveMode =
    | DriveNone | DriveAnalog | DrivePullUp | DrivePullDown | DriveOpenDrainDrivesLow
    | DriveOpenDrainDrivesHigh | DriveStrong | DrivePullUpDown | DrivePullNone

  /** cyhal_gpio_event_t */
  datatype Event = IrqNone | IrqRise | IrqFall | IrqBoth | IrqHigh | IrqLow

  /** BTSS_GPIO_INT_TRIGGER_TYPE_t */
  datatype Trigger = EdgeRising | EdgeFalling | EdgesBoth

  /** A ROM call the driver makes. */
  datatype PadCall =
    | SetHwConfig(pad: int, config: Bits)
    | AssignFunction(pad: int, func: Func)
    | SetDirection(btss: int, output: bool)
    | Write(btss: int, value: bool)
    | ConfigInterrupt(btss: int, trigger: Trigger)
    | EnableInterrupt(btss: int, on: bool)
    | RegisterInterruptCallback(btss: int)
    | ConnectPin(mapping: Mapping)
    | DisconnectPin(pin: int)
    | WakeupSource(pin: int, polarity: bool, enable: bool)

  /** A caller's cyhal_gpio_callback_data_t: the node, its callback and the
      callback argument. */
  datatype Node = Node(node: nat, callback: nat, arg: nat)

  /** A node linked into a bucket, with the pin register_callback wrote into it. */
  datatype Registration = Registration(node: nat, callback: nat, arg: nat, pin: int)

  /** One callback invocation by the interrupt handler. */
  datatype Invocation = Invocation(callback: nat, arg: nat, event: Event)

  // ---------------------------------------------------------------------
  // Function-to-BTSS conversion
  // ---------------------------------------------------------------------

  /** One of FUNC_GPIO_0..7, FUNC_A_GPIO_0..7, FUNC_B_GPIO_0..7. */
  predicate IsGpioFunc(f: Func)
  {
    (f.FuncGpio? || f.FuncAGpio? || f.FuncBGpio?) && f.k < 8
  }

  /** _cyhal_gpio_convert_func_to_btss: offset arithmetic per group; any
      other function gives BTSS_GPIO_0 (after a debug assertion). */
  function ConvertFuncToBtss(f: Func): (b: int)
    ensures 0 <= b < BtssPinCount
    ensures !IsGpioFunc(f) ==> b == BtssGpio0
  {
    if f.FuncAGpio? && f.k < 8 then f.k + BtssAGpio0
    else if f.FuncBGpio? && f.k < 8 then f.k + BtssBGpio0
    else if f.FuncGpio? && f.k < 8 then f.k + BtssGpio0
    else BtssGpio0
  }

  /** The inverse selection: the function that drives a BTSS pin. */
  function FuncOfBtss(b: int): (f: Func)
    requires 0 <= b < BtssPinCount
    ensures IsGpioFunc(f)
  {
    if b < BtssAGpio0 then FuncGpio(b - BtssGpio0)
    else if b < BtssBGpio0 then FuncAGpio(b - BtssAGpio0)
    else FuncBGpio(b - BtssBGpio0)
  }

  /** The conversion is a bijection between the 24 GPIO functions and the
      24 BTSS pins, so distinct functions never share a BTSS pin. */
  lemma ConvertFuncToBtssBijective(f: Func, b: int)
    requires 0 <= b < BtssPinCount
    ensures IsGpioFunc(f) ==> FuncOfBtss(ConvertFuncToBtss(f)) == f
    ensures ConvertFuncToBtss(FuncOfBtss(b)) == b
  {
  }

  /** Each group maps its k-th function to base + k. */
  lemma ConvertFuncGroups(k: nat)
    requires k < 8
    ensures ConvertFuncToBtss(FuncGpio(k)) == BtssGpio0 + k
    ensures ConvertFuncToBtss(FuncAGpio(k)) == BtssAGpio0 + k
    ensures ConvertFuncToBtss(FuncBGpio(k)) == BtssBGpio0 + k
  {
  }

  // ---------------------------------------------------------------------
  // Pad configuration (_cyhal_gpio_hw, BTSS branch)
  // ---------------------------------------------------------------------

  /** The drive modes that enable the pull-up and the pull-down. */
  predicate PullsUp(drive: DriveMode) { drive == DrivePullUp || drive == DrivePullUpDown }
  predicate PullsDown(drive: DriveMode) { drive == DrivePullDown || drive == DrivePullUpDown }

  /** The configuration word _cyhal_gpio_hw builds, step by step as the C
      does on `uint32_t config = 0`. */
  function HwConfig(m: PadMasks, a0: bool, direction: Direction, drive: DriveMode): (config: Bits)
    ensures direction == DirInput && !PullsUp(drive) && !PullsDown(drive) ==> config == {}
  {
    var c0: Bits := {};
    var c1 := if direction != DirInput
      then c0 + (OutputEnable(m, a0, c0) + HysteresisOn(m, c0) + DriveSel(m, Ma16, c0))
      else c0;
    var c2 := if direction == DirOutput then c1 + InputDisable(m, c1) else c1;
    match drive
    case DrivePullUp => c2 + PullUp(m, c2)
    case DrivePullDown => c2 + PullDown(m, c2)
    case DrivePullUpDown => c2 + (PullUp(m, c2) + PullDown(m, c2))
    case _ => c2
  }

  /** The output-enable bit the non-input step sets from an all-zero word. */
  function OutputOn(m: PadMasks, a0: bool): Bits
  {
    OutputEnable(m, a0, {})
  }

  /** Masks that are non-empty and pairwise disjoint, as the ROM's single-bit
      and field masks are assumed to be. */
  predicate DistinctMasks(m: PadMasks, a0: bool)
  {
    var d16 := DriveMask(m.drive, Ma16);
    var out := OutputOn(m, a0);
    m.inputDisable != {} && m.hysteresis != {} && m.pullUp != {} && m.pullDown != {} && d16 != {} &&
    m.inputDisable * (m.hysteresis + m.pullUp + m.pullDown + d16 + out) == {} &&
    m.hysteresis * (m.pullUp + m.pullDown + d16 + out) == {} &&
    m.pullUp * (m.pullDown + d16 + out) == {} &&
    m.pullDown * (d16 + out) == {} &&
    (!a0 ==> m.outputDisable * (m.inputDisable + m.hysteresis + m.pullUp + m.pullDown + d16) == {})
  }

  /** HwConfig as the union of the masks each step contributes. */
  lemma HwConfigClosedForm(m: PadMasks, a0: bool, direction: Direction, drive: DriveMode)
    ensures HwConfig(m, a0, direction, drive) ==
      (if direction != DirInput then OutputOn(m, a0) + m.hysteresis + DriveMask(m.drive, Ma16) else {})
      + (if direction == DirOutput then m.inputDisable else {})
      + (if PullsUp(drive) then m.pullUp else {})
      + (if PullsDown(drive) then m.pullDown else {})
  {
  }

  /** Non-input directions get output enable, hysteresis and 16 mA drive;
      only OUTPUT gets input disable; the pull bits follow the drive mode. */
  lemma HwConfigBits(m: PadMasks, a0: bool, direction: Direction, drive: DriveMode)
    requires DistinctMasks(m, a0)
    ensures var c := HwConfig(m, a0, direction, drive);
      (m.hysteresis <= c <==> direction != DirInput) &&
      (DriveMask(m.drive, Ma16) <= c <==> direction != DirInput) &&
      (direction != DirInput ==> OutputEnabled(m, a0, c)) &&
      (m.inputDisable <= c <==> direction == DirOutput) &&
      (m.pullUp <= c <==> PullsUp(drive)) &&
      (m.pullDown <= c <==> PullsDown(drive))
  {
    var c := HwConfig(m, a0, direction, drive);
    HwConfigClosedForm(m, a0, direction, drive);
    var pulls := (if PullsUp(drive) then m.pullUp else {}) + (if PullsDown(drive) then m.pullDown else {});
    if direction == DirInput {
      NotSubset(m.hysteresis, c);
      NotSubset(DriveMask(m.drive, Ma16), c);
    }
    if direction != DirOutput {
      NotSubset(m.inputDisable, c);
    }
    if !PullsUp(drive) {
      NotSubset(m.pullUp, c);
    }
    if !PullsDown(drive) {
      NotSubset(m.pullDown, c);
    }
  }

  /** A non-empty mask disjoint from a word is not among its bits. */
  lemma NotSubset(a: Bits, c: Bits)
    requires a != {} && a * c == {}
    ensures !(a <= c)
  {
    var i :| i in a;
    assert i !in a * c;
  }

  /** What _cyhal_gpio_hw reports and the ROM calls it makes. */
  datatype HwResult = HwResult(status: Rslt, calls: seq<PadCall>)

  /** _cyhal_gpio_hw for pad `pin`, whose BTSS pin is `btss`: write the
      configuration, assign the function unless it is FUNC_NONE, then set the
      direction and initial value.  `setHwOk` and `assignOk` are what the ROM
      reports. */
  function GpioHw(m: PadMasks, a0: bool, pin: nat, btss: int, func: Func, direction: Direction,
                  drive: DriveMode, initVal: bool, setHwOk: bool, assignOk: bool): (h: HwResult)
    ensures pin >= BtGpioLast ==> h.status == GpioBadParam && h.calls == []
    ensures pin < BtGpioLast ==> (h.status == Success <==> setHwOk && (func == FuncNone || assignOk))
    ensures h.status != Success ==> h.status == GpioBadParam
    ensures pin < BtGpioLast ==> |h.calls| > 0 && h.calls[0] == SetHwConfig(pin, HwConfig(m, a0, direction, drive))
    ensures h.status == Success ==>
      |h.calls| >= 2 && h.calls[|h.calls| - 2..] == [SetDirection(btss, direction != DirInput), Write(btss, initVal)]
  {
    if pin < BtGpioLast then
      var config := HwConfig(m, a0, direction, drive);
      var assign := setHwOk && func != FuncNone;
      var ok := setHwOk && (func == FuncNone || assignOk);
      HwResult(if ok then Success else GpioBadParam,
        [SetHwConfig(pin, config)]
        + (if assign then [AssignFunction(pin, func)] else [])
        + (if ok then [SetDirection(btss, direction != DirInput), Write(btss, initVal)] else []))
    else
      HwResult(GpioBadParam, [])
  }

  // ---------------------------------------------------------------------
  // Events
  // ---------------------------------------------------------------------

  /** The BTSS trigger for an event; NONE, HIGH and LOW have none. */
  function EventTrigger(e: Event): (t: Option<Trigger>)
    ensures t.Some? <==> e in {IrqRise, IrqFall, IrqBoth}
  {
    match e
    case IrqRise => Some(EdgeRising)
    case IrqFall => Some(EdgeFalling)
    case IrqBoth => Some(EdgesBoth)
    case _ => None
  }

  /** The ROM calls of cyhal_gpio_enable_event for `pin`, whose BTSS pin is
      `btss`: a valid trigger is configured and the interrupt set to
      `enable`, then the wake-up source is set (the event passed on as a
      boolean polarity); an invalid one only turns the interrupt off. */
  function EnableEventCalls(pin: nat, btss: int, e: Event, enable: bool): (calls: seq<PadCall>)
    ensures EventTrigger(e).Some? && pin < BtGpioLast ==>
      |calls| == 3 && calls[..2] == [ConfigInterrupt(btss, EventTrigger(e).value), EnableInterrupt(btss, enable)]
    ensures EventTrigger(e).Some? ==> |calls| > 0 && calls[|calls| - 1] == WakeupSource(pin, true, enable)
    ensures EventTrigger(e).None? ==> calls == if pin < BtGpioLast then [EnableInterrupt(btss, false)] else []
  {
    match EventTrigger(e)
    case Some(t) =>
      (if pin < BtGpioLast then [ConfigInterrupt(btss, t), EnableInterrupt(btss, enable)] else [])
      + [WakeupSource(pin, e != IrqNone, enable)]
    case None =>
      if pin < BtGpioLast then [EnableInterrupt(btss, false)] else []
  }

  /** For an event without trigger the `enable` argument makes no difference. */
  lemma InvalidEventIgnoresEnable(pin: nat, btss: int, e: Event)
    requires EventTrigger(e).None?
    ensures EnableEventCalls(pin, btss, e, true) == EnableEventCalls(pin, btss, e, false)
    ensures EnableInterrupt(btss, true) !in EnableEventCalls(pin, btss, e, true)
  {
  }

  // ---------------------------------------------------------------------
  // Buckets and maps as values
  // ---------------------------------------------------------------------

  /** The first registration in a bucket that carries `pin`. */
  function FirstMatch(s: seq<Registration>, pin: int): (r: Option<nat>)
    ensures r.Some? ==> r.value < |s| && s[r.value].pin == pin
    ensures r.Some? ==> forall j :: 0 <= j < r.value ==> s[j].pin != pin
    ensures r.None? ==> forall j :: 0 <= j < |s| ==> s[j].pin != pin
  {
    if |s| == 0 then None
    else if s[0].pin == pin then Some(0)
    else match FirstMatch(s[1..], pin)
      case None => None
      case Some(i) => Some(i + 1)
  }

  /** The bucket without the element at `i` (none if `i` is None). */
  function Without(s: seq<Registration>, i: Option<nat>): (r: seq<Registration>)
    requires i.Some? ==> i.value < |s|
    ensures i.None? ==> r == s
    ensures i.Some? ==> |r| == |s| - 1 && forall j :: 0 <= j < i.value ==> r[j] == s[j]
    ensures i.Some? ==> forall j :: i.value <= j < |r| ==> r[j] == s[j + 1]
  {
    if i.None? then s else s[..i.value] + s[i.value + 1..]
  }

  /** The bucket after cyhal_gpio_register_callback(pin, d): the first
      registration for `pin` unlinked, then `d` pushed on the front. */
  function Registered(s: seq<Registration>, pin: int, d: Option<Node>): seq<Registration>
  {
    (if d.Some? then [Registration(d.value.node, d.value.callback, d.value.arg, pin)] else [])
    + Without(s, FirstMatch(s, pin))
  }

  /** Every registration in the bucket of `pin` carries `pin`. */
  predicate Tagged(s: seq<Registration>, pin: int)
  {
    forall j :: 0 <= j < |s| ==> s[j].pin == pin
  }

  /** In a tagged bucket of at most one node, registering replaces that node:
      the previous registration is gone, and a null `d` leaves the bucket
      empty. */
  lemma RegisteredReplaces(s: seq<Registration>, pin: int, d: Option<Node>)
    requires Tagged(s, pin) && |s| <= 1
    ensures Registered(s, pin, d) ==
      if d.Some? then [Registration(d.value.node, d.value.callback, d.value.arg, pin)] else []
    ensures Tagged(Registered(s, pin, d), pin) && |Registered(s, pin, d)| <= 1
  {
    if |s| == 1 {
      assert FirstMatch(s, pin) == Some(0);
    }
  }

  /** The invocations _cyhal_gpio_irq_handler makes for a bucket: the
      callbacks of the registrations carrying `pin`, in list order, each
      with CYHAL_GPIO_IRQ_NONE. */
  function Matching(s: seq<Registration>, pin: int): (r: seq<Invocation>)
    ensures |r| <= |s|
    ensures forall k :: 0 <= k < |r| ==> r[k].event == IrqNone
  {
    if |s| == 0 then []
    else
      var last := s[|s| - 1];
      Matching(s[..|s| - 1], pin) + (if last.pin == pin then [Invocation(last.callback, last.arg, IrqNone)] else [])
  }

  /** The callbacks of a bucket, in list order. */
  function Invocations(s: seq<Registration>): (r: seq<Invocation>)
    ensures |r| == |s|
  {
    if |s| == 0 then [] else Invocations(s[..|s| - 1]) + [Invocation(s[|s| - 1].callback, s[|s| - 1].arg, IrqNone)]
  }

  /** In a tagged bucket the handler calls every registered callback once,
      in list order. */
  lemma {:induction false} MatchingTagged(s: seq<Registration>, pin: int)
    requires Tagged(s, pin)
    ensures Matching(s, pin) == Invocations(s)
  {
    if |s| > 0 {
      var init := s[..|s| - 1];
      var last := s[|s| - 1];
      assert last.pin == pin;
      assert Tagged(init, pin);
      MatchingTagged(init, pin);
      assert Matching(s, pin) == Matching(init, pin) + [Invocation(last.callback, last.arg, IrqNone)];
    }
  }

  /** Map entries are unassigned or index the other map. */
  predicate InRange(pb: seq<int>, bp: seq<int>)
  {
    (forall p :: 0 <= p < |pb| ==> pb[p] == Unassigned || 0 <= pb[p] < |bp|) &&
    (forall b :: 0 <= b < |bp| ==> bp[b] == Unassigned || 0 <= bp[b] < |pb|)
  }

  /** _cyhal_pad_btss_map and _cyhal_btss_pad_map are mutually inverse on
      their assigned entries. */
  predicate MapsInverse(pb: seq<int>, bp: seq<int>)
  {
    InRange(pb, bp) &&
    (forall p :: 0 <= p < |pb| && pb[p] != Unassigned ==> bp[pb[p]] == p) &&
    (forall b :: 0 <= b < |bp| && bp[b] != Unassigned ==> pb[bp[b]] == b)
  }

  /** A table entry init may choose for `pin`: its pin matches and its BTSS
      function has no pad yet. */
  predicate Selectable(e: Mapping, pin: int, bp: seq<int>)
  {
    e.pin == pin && ConvertFuncToBtss(e.func) < |bp| && bp[ConvertFuncToBtss(e.func)] == Unassigned
  }

  /** The first selectable entry of the table. */
  function FirstFree(table: seq<Mapping>, pin: int, bp: seq<int>): (r: Option<nat>)
    ensures r.Some? ==> r.value < |table| && Selectable(table[r.value], pin, bp)
    ensures r.Some? ==> forall j :: 0 <= j < r.value ==> !Selectable(table[j], pin, bp)
    ensures r.None? ==> forall j :: 0 <= j < |table| ==> !Selectable(table[j], pin, bp)
  {
    if |table| == 0 then None
    else if Selectable(table[0], pin, bp) then Some(0)
    else match FirstFree(table[1..], pin, bp)
      case None => None
      case Some(i) => Some(i + 1)
  }

  /** Linking a free pad and a free BTSS pin keeps the maps inverse. */
  lemma LinkKeepsInverse(pb: seq<int>, bp: seq<int>, pin: int, b: int)
    requires MapsInverse(pb, bp)
    requires |pb| < Unassigned && |bp| < Unassigned
    requires 0 <= pin < |pb| && 0 <= b < |bp|
    requires pb[pin] == Unassigned && bp[b] == Unassigned
    ensures MapsInverse(pb[pin := b], bp[b := pin])
  {
  }

  /** Unlinking a pad (and its BTSS pin, if it has one) keeps the maps inverse. */
  lemma UnlinkKeepsInverse(pb: seq<int>, bp: seq<int>, pin: int)
    requires MapsInverse(pb, bp) && 0 <= pin < |pb|
    ensures var bp' := if pb[pin] != Unassigned then bp[pb[pin] := Unassigned] else bp;
      MapsInverse(pb[pin := Unassigned], bp')
  {
  }

  /** The maps after free(pin) for a reconfigurable pin. */
  function UnlinkedPads(pb: seq<int>, pin: nat): seq<int>
    requires pin < |pb|
  {
    pb[pin := Unassigned]
  }

  function UnlinkedBtss(pb: seq<int>, bp: seq<int>, pin: nat): seq<int>
    requires pin < |pb| && InRange(pb, bp)
  {
    if pb[pin] != Unassigned then bp[pb[pin] := Unassigned] else bp
  }

  /** The MIC and SDIO pins and every pin >= BT_GPIO_LAST are not BTSS pads. */
  predicate IsBtssPad(pin: int) { 0 <= pin < BtGpioLast }

  /** The part of cyhal_gpio_init after the entry search: connect the
      entry, configure the pad with _cyhal_gpio_hw unless the direction is
      BIDIRECTIONAL, and turn off the interrupt of the BTSS pin the search
      left in `btssPin`.  `btss` is the pad's BTSS map entry. */
  function Connect(m: PadMasks, a0: bool, pinMap: Mapping, pin: nat, btss: int, btssPin: int,
                   direction: Direction, drive: DriveMode, initVal: bool,
                   connectOutcome: Rslt, setHwOk: bool, assignOk: bool): (h: HwResult)
    ensures |h.calls| > 0 && h.calls[0] == ConnectPin(pinMap)
    ensures h.status != Success ==> h.status == connectOutcome || h.status == GpioBadParam
    ensures h.status == Success <==>
      connectOutcome == Success && direction != DirBidirectional && pin < BtGpioLast &&
      setHwOk && (pinMap.func == FuncNone || assignOk)
    ensures h.status == Success ==>
      h.calls == [ConnectPin(pinMap)] + GpioHw(m, a0, pin, btss, pinMap.func, direction, drive, initVal, setHwOk, assignOk).calls
        + (if btssPin != Unassigned then [EnableInterrupt(btssPin, false)] else [])
  {
    if connectOutcome != Success then HwResult(connectOutcome, [ConnectPin(pinMap)])
    else if direction == DirBidirectional then HwResult(GpioBadParam, [ConnectPin(pinMap)])
    else
      var hwr := GpioHw(m, a0, pin, btss, pinMap.func, direction, drive, initVal, setHwOk, assignOk);
      HwResult(hwr.status, [ConnectPin(pinMap)] + hwr.calls
        + (if hwr.status == Success && btssPin != Unassigned then [EnableInterrupt(btssPin, false)] else []))
  }

  /** The table entries for BT_GPIO_0, its own and the zero-filled last
      one, both select BTSS_GPIO_0. */
  lemma SwGpioPinZeroEntries()
    ensures SwGpio[|SwGpio| - 1] == ZeroMapping
    ensures forall j :: 0 <= j < |SwGpio| && SwGpio[j].pin == BtGpio0 ==>
      ConvertFuncToBtss(SwGpio[j].func) == BtssGpio0
  {
    forall j | 0 < j < |SwGpio| - 1
      ensures SwGpio[j].pin != BtGpio0
    {
      SwGpioPinsPositive(j);
    }
  }

  /** Entries 1 to 47 are for pins other than BT_GPIO_0. */
  lemma SwGpioPinsPositive(j: int)
    requires 0 < j < |SwGpio| - 1
    ensures SwGpio[j].pin > 0
  {
    assert SwGpio[j] == SwGpioEntry(j);
  }

  /** Once BTSS_GPIO_0 has a pad, no entry is selectable for BT_GPIO_0. */
  lemma SwGpioPinZeroBlocked(bp: seq<int>)
    requires |bp| == BtssPadMapLength && bp[BtssGpio0] != Unassigned
    ensures FirstFree(SwGpio, BtGpio0, bp).None?
  {
    SwGpioPinZeroEntries();
  }

  /** The maps and buckets init works on: the current ones, or the fresh
      ones its lazy _cyhal_gpio_arrays_init call makes. */
  function StartPads(initialized: bool, pb: seq<int>): seq<int>
  {
    if initialized then pb else seq(BtGpioLast, _ => Unassigned)
  }

  function StartBtss(initialized: bool, bp: seq<int>): seq<int>
  {
    if initialized then bp else seq(BtssPadMapLength, _ => Unassigned)
  }

  function StartBuckets(initialized: bool, cb: seq<seq<Registration>>): seq<seq<Registration>>
  {
    if initialized then cb else seq(BtGpioLast, _ => [])
  }

  /** Fresh maps are inverse. */
  lemma FreshMapsInverse()
    ensures MapsInverse(StartPads(false, []), StartBtss(false, []))
  {
  }

  // ---------------------------------------------------------------------
  // The driver state
  // ---------------------------------------------------------------------

  class GpioState {
    /** The ROM's pad-configuration masks and the build variant. */
    const masks: PadMasks
    const a0: bool
    /** cyhal_pin_map_sw_gpio[CYHAL_GPIO_CLUSTER_BTSS], the table init
        searches (Pins.SwGpio once constructed). */
    const swGpio: seq<Mapping>
    /** _cyhal_gpio_arrays_initialized */
    var initialized: bool
    /** _cyhal_gpio_callbacks[BT_GPIO_LAST]: each list as a sequence. */
    const callbacks: array<seq<Registration>>
    /** _cyhal_pad_btss_map[BT_GPIO_LAST] */
    const padBtss: array<int>
    /** _cyhal_btss_pad_map[BT_GPIO_LAST + 1] */
    const btssPad: array<int>

    /** The array sizes; once initialised, in-range map entries and tagged
        buckets of at most one node. */
    /** The array sizes of the C declarations. */
    predicate Sized()
      reads this
    {
      callbacks.Length == BtGpioLast && padBtss.Length == BtGpioLast &&
      btssPad.Length == BtssPadMapLength && padBtss != btssPad && |swGpio| > 0
    }

    ghost predicate Valid()
      reads this, callbacks, padBtss, btssPad
    {
      Sized() &&
      (initialized ==>
        InRange(padBtss[..], btssPad[..]) &&
        (forall p :: 0 <= p < BtGpioLast ==> Tagged(callbacks[p], p) && |callbacks[p]| <= 1))
    }

    /** Initialised with mutually inverse maps. */
    ghost predicate Paired()
      reads this, callbacks, padBtss, btssPad
    {
      Valid() && initialized && MapsInverse(padBtss[..], btssPad[..])
    }

    /** The BTSS pin of a reconfigurable pad (_CYHAL_GPIO_GET_BTSS_MAP). */
    function BtssOf(pin: nat): int
      requires Sized() && pin < BtGpioLast
      reads this, padBtss
    {
      padBtss[pin]
    }

    /** The arrays start uninitialised (CY_NOINIT). */
    constructor (masks: PadMasks, a0: bool)
      ensures Valid() && !initialized && this.masks == masks && this.a0 == a0 && swGpio == SwGpio
      ensures fresh(callbacks) && fresh(padBtss) && fresh(btssPad)
    {
      this.masks := masks;
      this.a0 := a0;
      swGpio := SwGpio;
      initialized := false;
      callbacks := new seq<Registration>[BtGpioLast](_ => []);
      padBtss := new int[BtGpioLast];
      btssPad := new int[BtssPadMapLength];
    }

    /** _CYHAL_GPIO_SET_BTSS_MAP; a GET at the same index returns the value. */
    method SetBtssMap(pin: nat, b: int)
      requires Sized() && pin < BtGpioLast
      modifies padBtss
      ensures padBtss[..] == old(padBtss[..])[pin := b]
      ensures BtssOf(pin) == b
    {
      padBtss[pin] := b;
    }

    /** _CYHAL_GPIO_SET_BTSS_PAD_MAP; a GET at the same index returns the value. */
    method SetBtssPadMap(b: nat, pin: int)
      requires Sized() && b < BtssPadMapLength
      modifies btssPad
      ensures btssPad[..] == old(btssPad[..])[b := pin]
      ensures btssPad[b] == pin
    {
      btssPad[b] := pin;
    }

    /** _cyhal_gpio_arrays_init: empty buckets, unassigned maps. */
    method ArraysInit()
      requires Valid()
      modifies callbacks, padBtss, btssPad
      ensures Valid()
      ensures forall p :: 0 <= p < BtGpioLast ==> callbacks[p] == []
      ensures forall p :: 0 <= p < BtGpioLast ==> padBtss[p] == Unassigned
      ensures forall b :: 0 <= b < BtssPadMapLength ==> btssPad[b] == Unassigned
    {
      for i := 0 to BtGpioLast
        invariant forall p :: 0 <= p < i ==> callbacks[p] == []
      {
        callbacks[i] := [];
      }
      for i := 0 to BtGpioLast
        invariant forall p :: 0 <= p < BtGpioLast ==> callbacks[p] == []
        invariant forall p :: 0 <= p < i ==> padBtss[p] == Unassigned
      {
        padBtss[i] := Unassigned;
      }
      for i := 0 to BtssPadMapLength
        invariant forall p :: 0 <= p < BtGpioLast ==> callbacks[p] == []
        invariant forall p :: 0 <= p < BtGpioLast ==> padBtss[p] == Unassigned
        invariant forall b :: 0 <= b < i ==> btssPad[b] == Unassigned
      {
        btssPad[i] := Unassigned;
      }
    }

    /** The lazy initialisation at the top of cyhal_gpio_init. */
    method EnsureArrays()
      requires Valid()
      modifies this, callbacks, padBtss, btssPad
      ensures Valid() && initialized
      ensures old(initialized) ==> unchanged(callbacks, padBtss, btssPad)
      ensures !old(initialized) ==> Paired()
      ensures padBtss[..] == StartPads(old(initialized), old(padBtss[..]))
      ensures btssPad[..] == StartBtss(old(initialized), old(btssPad[..]))
      ensures callbacks[..] == StartBuckets(old(initialized), old(callbacks[..]))
    {
      if !initialized {
        ArraysInit();
        initialized := true;
        assert padBtss[..] == StartPads(false, []);
        assert btssPad[..] == StartBtss(false, []);
        assert callbacks[..] == StartBuckets(false, []);
      }
    }

    /** cyhal_gpio_register_callback: unlink the first node of the pin's
        bucket that carries the pin, push `d` (if any) with its pin set, and
        register the BTSS interrupt handler for the pad. */
    method RegisterCallback(pin: nat, d: Option<Node>) returns (call: PadCall)
      requires Valid() && pin < BtGpioLast
      modifies callbacks
      ensures Valid()
      ensures callbacks[..] == old(callbacks[..])[pin := Registered(old(callbacks[pin]), pin, d)]
      ensures call == RegisterInterruptCallback(BtssOf(pin))
    {
      var s := callbacks[pin];
      ghost var s0 := s;
      var i := 0;
      while i < |s| && s[i].pin != pin
        invariant 0 <= i <= |s|
        invariant forall j :: 0 <= j < i ==> s[j].pin != pin
      {
        i := i + 1;
      }
      assert FirstMatch(s, pin) == if i < |s| then Some(i) else None;
      if i < |s| {
        s := s[..i] + s[i + 1..];
      }
      if d.Some? {
        s := [Registration(d.value.node, d.value.callback, d.value.arg, pin)] + s;
      }
      assert s == Registered(s0, pin, d);
      if initialized {
        RegisteredReplaces(s0, pin, d);
      }
      callbacks[pin] := s;
      call := RegisterInterruptCallback(padBtss[pin]);
    }

    /** _cyhal_gpio_irq_handler: walk the pin's bucket and call, in order,
        every callback whose node carries the pin. */
    method IrqHandler(pin: nat) returns (calls: seq<Invocation>)
      requires Valid() && pin < BtGpioLast
      ensures calls == Matching(callbacks[pin], pin)
      ensures initialized ==> calls == Invocations(callbacks[pin]) && |calls| <= 1
    {
      var s := callbacks[pin];
      calls := [];
      var i := 0;
      while i < |s|
        invariant 0 <= i <= |s|
        invariant calls == Matching(s[..i], pin)
      {
        assert s[..i + 1][..i] == s[..i];
        if s[i].pin == pin {
          calls := calls + [Invocation(s[i].callback, s[i].arg, IrqNone)];
        }
        i := i + 1;
      }
      assert s[..|s|] == s;
      if initialized {
        MatchingTagged(s, pin);
      }
    }

    /** _cyhal_gpio_btss_irq_handler: the ROM reports a BTSS pin; the pad
        mapped to it gets its callbacks.  The ROM only reports BTSS pins whose
        interrupt the driver enabled, which have a pad. */
    method BtssIrqHandler(b: nat) returns (calls: seq<Invocation>)
      requires Valid() && b < BtssPadMapLength && 0 <= btssPad[b] < BtGpioLast
      ensures calls == Matching(callbacks[btssPad[b]], btssPad[b])
    {
      var pin := btssPad[b];
      calls := IrqHandler(pin);
    }

    /** cyhal_gpio_enable_event; it changes no driver state. */
    method EnableEvent(pin: nat, e: Event, enable: bool) returns (calls: seq<PadCall>)
      requires Valid()
      ensures calls == EnableEventCalls(pin, if pin < BtGpioLast then BtssOf(pin) else Unassigned, e, enable)
    {
      var b := if pin < BtGpioLast then padBtss[pin] else Unassigned;
      calls := EnableEventCalls(pin, b, e, enable);
    }

    /** cyhal_gpio_free for the NC pin or a reconfigurable pin: unregister the
        callback, disconnect, turn the BTSS interrupt off and unlink both maps,
        then release the reservation.  For any other pin the C indexes
        _cyhal_gpio_callbacks past its end. */
    method Free(hw: HwMgr.Manager, pin: nat) returns (calls: seq<PadCall>)
      requires Valid() && initialized
      requires pin == NC || pin < BtGpioLast
      modifies callbacks, padBtss, btssPad, hw
      ensures Valid()
      ensures pin == NC ==> calls == [] && unchanged(callbacks, padBtss, btssPad) && hw.reserved == old(hw.reserved)
      ensures pin < BtGpioLast ==>
        callbacks[..] == old(callbacks[..])[pin := Registered(old(callbacks[pin]), pin, None)] &&
        padBtss[..] == UnlinkedPads(old(padBtss[..]), pin) &&
        btssPad[..] == UnlinkedBtss(old(padBtss[..]), old(btssPad[..]), pin) &&
        hw.reserved == old(hw.reserved) - {UtilsImpl.GetGpioResource(pin)}
      ensures pin < BtGpioLast ==> |calls| >= 2 && calls[..2] == [RegisterInterruptCallback(old(padBtss[pin])), DisconnectPin(pin)]
      ensures pin < BtGpioLast && old(padBtss[pin]) != Unassigned ==>
        calls == [RegisterInterruptCallback(old(padBtss[pin])), DisconnectPin(pin), EnableInterrupt(old(padBtss[pin]), false)]
      ensures old(MapsInverse(padBtss[..], btssPad[..])) ==> MapsInverse(padBtss[..], btssPad[..])
    {
      calls := [];
      if pin != NC {
        var c := RegisterCallback(pin, None);
        calls := [c, DisconnectPin(pin)];
        ghost var pb := padBtss[..];
        ghost var bp := btssPad[..];
        var b := padBtss[pin];
        if b != Unassigned {
          calls := calls + [EnableInterrupt(b, false)];
          btssPad[b] := Unassigned;
        }
        padBtss[pin] := Unassigned;
        if MapsInverse(pb, bp) {
          UnlinkKeepsInverse(pb, bp, pin);
        }
        assert padBtss[..] == UnlinkedPads(pb, pin);
        hw.Free(UtilsImpl.GetGpioResource(pin));
      }
    }

    /** The search loop of cyhal_gpio_init over a connection table (init
        passes cyhal_pin_map_sw_gpio): the first entry for the pin whose BTSS
        function has no pad is linked in both maps.  The BTSS pin variable
        keeps the conversion of the last entry visited; `found` says whether
        an entry was selected. */
    method SelectEntry(table: seq<Mapping>, pin: nat) returns (found: bool, pinMap: Mapping, btssPin: int)
      requires Valid() && initialized && pin < BtGpioLast && |table| > 0
      modifies padBtss, btssPad
      ensures Valid()
      ensures found <==> FirstFree(table, pin, old(btssPad[..])).Some?
      ensures var sel := FirstFree(table, pin, old(btssPad[..]));
        sel.Some? ==>
          pinMap == table[sel.value] && btssPin == ConvertFuncToBtss(table[sel.value].func) &&
          padBtss[..] == old(padBtss[..])[pin := btssPin] && btssPad[..] == old(btssPad[..])[btssPin := pin]
      ensures FirstFree(table, pin, old(btssPad[..])).None? ==>
        pinMap == ZeroMapping && btssPin == ConvertFuncToBtss(table[|table| - 1].func) &&
        unchanged(padBtss, btssPad)
      ensures old(MapsInverse(padBtss[..], btssPad[..])) && old(padBtss[pin]) == Unassigned ==>
        MapsInverse(padBtss[..], btssPad[..])
    {
      found := false;
      pinMap := ZeroMapping;
      btssPin := Unassigned;
      ghost var bp := btssPad[..];
      var i := 0;
      while i < |table|
        invariant 0 <= i <= |table|
        invariant unchanged(padBtss, btssPad)
        invariant forall j :: 0 <= j < i ==> !Selectable(table[j], pin, bp)
        invariant i > 0 ==> btssPin == ConvertFuncToBtss(table[i - 1].func)
        invariant pinMap == ZeroMapping && !found
      {
        btssPin := ConvertFuncToBtss(table[i].func);
        if table[i].pin == pin && btssPad[btssPin] == Unassigned {
          assert Selectable(table[i], pin, bp);
          assert FirstFree(table, pin, bp) == Some(i);
          found := true;
          pinMap := table[i];
          if MapsInverse(padBtss[..], bp) && padBtss[pin] == Unassigned {
            LinkKeepsInverse(padBtss[..], bp, pin, btssPin);
          }
          padBtss[pin] := btssPin;
          btssPad[btssPin] := pin;
          return;
        }
        i := i + 1;
      }
    }
  

    /** cyhal_gpio_init as written.  After the lazy array initialisation it
        reserves the pin's resource, picks a table entry (SelectEntry), and
        goes on to connect and configure (Connect) when `pinMap.pin == pin`.
        Any failure calls cyhal_gpio_free(pin), including a failed
        reservation; for a pin that is neither NC nor reconfigurable that free
        would read past the callback array, so such pins must reserve
        successfully.  `reserveOutcome`, `connectOutcome`, `setHwOk` and
        `assignOk` are what the hardware manager, cyhal_connect_pin and the
        ROM report. */
    method InitAsWritten(hw: HwMgr.Manager, pin: nat, direction: Direction, drive: DriveMode, initVal: bool,
                         reserveOutcome: Rslt, connectOutcome: Rslt, setHwOk: bool, assignOk: bool)
      returns (r: Rslt, calls: seq<PadCall>)
      requires Valid()
      requires pin < BtGpioLast || pin == NC || reserveOutcome == Success
      modifies this, callbacks, padBtss, btssPad, hw
      ensures Valid() && initialized
      ensures reserveOutcome != Success ==> r == reserveOutcome
      ensures reserveOutcome != Success && pin < BtGpioLast ==>
        padBtss[pin] == Unassigned && hw.reserved == old(hw.reserved) - {UtilsImpl.GetGpioResource(pin)}
      ensures reserveOutcome == Success && pin >= BtGpioLast ==> r == GpioBadParam && calls == []
      ensures var bp0 := StartBtss(old(initialized), old(btssPad[..]));
        reserveOutcome == Success && pin < BtGpioLast && pin != BtGpio0 && FirstFree(swGpio, pin, bp0).None? ==>
        r == GpioBadParam
      ensures var pb0 := StartPads(old(initialized), old(padBtss[..]));
        var bp0 := StartBtss(old(initialized), old(btssPad[..]));
        reserveOutcome == Success && pin == BtGpio0 && FirstFree(swGpio, pin, bp0).None? &&
        connectOutcome == Success && direction != DirBidirectional && setHwOk && assignOk ==>
        r == Success && padBtss[BtGpio0] == pb0[BtGpio0] && btssPad[..] == bp0 &&
        |calls| > 0 && calls[0] == ConnectPin(ZeroMapping) && calls[|calls| - 1] == EnableInterrupt(ConvertFuncToBtss(swGpio[|swGpio| - 1].func), false)
    {
      EnsureArrays();
      r, calls := InitReadyAsWritten(hw, pin, direction, drive, initVal, reserveOutcome, connectOutcome, setHwOk, assignOk);
    }

    /** InitAsWritten once the arrays are initialised. */
    method InitReadyAsWritten(hw: HwMgr.Manager, pin: nat, direction: Direction, drive: DriveMode, initVal: bool,
                              reserveOutcome: Rslt, connectOutcome: Rslt, setHwOk: bool, assignOk: bool)
      returns (r: Rslt, calls: seq<PadCall>)
      requires Valid() && initialized
      requires pin < BtGpioLast || pin == NC || reserveOutcome == Success
      modifies callbacks, padBtss, btssPad, hw
      ensures Valid()
      ensures reserveOutcome != Success ==> r == reserveOutcome
      ensures reserveOutcome != Success && pin < BtGpioLast ==>
        padBtss[pin] == Unassigned && hw.reserved == old(hw.reserved) - {UtilsImpl.GetGpioResource(pin)}
      ensures reserveOutcome == Success && pin >= BtGpioLast ==> r == GpioBadParam && calls == []
      ensures var bp0 := old(btssPad[..]);
        reserveOutcome == Success && pin < BtGpioLast && pin != BtGpio0 && FirstFree(swGpio, pin, bp0).None? ==>
        r == GpioBadParam
      ensures var pb0 := old(padBtss[..]);
        var bp0 := old(btssPad[..]);
        reserveOutcome == Success && pin == BtGpio0 && FirstFree(swGpio, pin, bp0).None? &&
        connectOutcome == Success && direction != DirBidirectional && setHwOk && assignOk ==>
        r == Success && padBtss[BtGpio0] == pb0[BtGpio0] && btssPad[..] == bp0 &&
        |calls| > 0 && calls[0] == ConnectPin(ZeroMapping) && calls[|calls| - 1] == EnableInterrupt(ConvertFuncToBtss(swGpio[|swGpio| - 1].func), false)
    {
      var rsc := UtilsImpl.GetGpioResource(pin);
      r := hw.Reserve(rsc, reserveOutcome);
      calls := [];
      if r == Success {
        if pin >= BtGpioLast {
          r := GpioBadParam;
          return;
        }
        r, calls := SearchAndConnectAsWritten(pin, direction, drive, initVal, connectOutcome, setHwOk, assignOk);
      }
      if r != Success {
        var c := Free(hw, pin);
        calls := calls + c;
      }
    }

    /** cyhal_gpio_init as intended: a failed reservation is returned
        without touching the pin's state, and only an entry the search
        actually selected is connected and configured. */
    method Init(hw: HwMgr.Manager, pin: nat, direction: Direction, drive: DriveMode, initVal: bool,
                reserveOutcome: Rslt, connectOutcome: Rslt, setHwOk: bool, assignOk: bool)
      returns (r: Rslt, calls: seq<PadCall>)
      requires Valid()
      modifies this, callbacks, padBtss, btssPad, hw
      ensures Valid() && initialized
      ensures reserveOutcome != Success ==>
        r == reserveOutcome && calls == [] && hw.reserved == old(hw.reserved) &&
        padBtss[..] == StartPads(old(initialized), old(padBtss[..])) &&
        btssPad[..] == StartBtss(old(initialized), old(btssPad[..])) &&
        callbacks[..] == StartBuckets(old(initialized), old(callbacks[..]))
      ensures var sel := FirstFree(swGpio, pin, StartBtss(old(initialized), old(btssPad[..])));
        r == Success <==>
          reserveOutcome == Success && pin < BtGpioLast && sel.Some? && connectOutcome == Success &&
          direction != DirBidirectional && setHwOk && (swGpio[sel.value].func == FuncNone || assignOk)
      ensures var pb0 := StartPads(old(initialized), old(padBtss[..]));
        var bp0 := StartBtss(old(initialized), old(btssPad[..]));
        var sel := FirstFree(swGpio, pin, bp0);
        r == Success ==>
          sel.Some? && pin < BtGpioLast &&
          var e := swGpio[sel.value];
          var b := ConvertFuncToBtss(e.func);
          padBtss[..] == pb0[pin := b] && btssPad[..] == bp0[b := pin] &&
          hw.reserved == old(hw.reserved) + {UtilsImpl.GetGpioResource(pin)} &&
          calls == [ConnectPin(e)] + GpioHw(masks, a0, pin, b, e.func, direction, drive, initVal, setHwOk, assignOk).calls
            + [EnableInterrupt(b, false)]
      ensures reserveOutcome == Success && r != Success && pin < BtGpioLast ==>
        padBtss[pin] == Unassigned && hw.reserved == old(hw.reserved) - {UtilsImpl.GetGpioResource(pin)}
      ensures reserveOutcome == Success && pin >= BtGpioLast ==>
        r == GpioBadParam && calls == [] && hw.reserved == old(hw.reserved) + {UtilsImpl.GetGpioResource(pin)}
      ensures var pb0 := StartPads(old(initialized), old(padBtss[..]));
        MapsInverse(pb0, StartBtss(old(initialized), old(btssPad[..]))) &&
        (pin < BtGpioLast && reserveOutcome == Success ==> pb0[pin] == Unassigned) ==>
        MapsInverse(padBtss[..], btssPad[..])
    {
      EnsureArrays();
      r, calls := InitReady(hw, pin, direction, drive, initVal, reserveOutcome, connectOutcome, setHwOk, assignOk);
    }

    /** Init once the arrays are initialised. */
    method InitReady(hw: HwMgr.Manager, pin: nat, direction: Direction, drive: DriveMode, initVal: bool,
                reserveOutcome: Rslt, connectOutcome: Rslt, setHwOk: bool, assignOk: bool)
      returns (r: Rslt, calls: seq<PadCall>)
      requires Valid() && initialized
      modifies callbacks, padBtss, btssPad, hw
      ensures Valid()
      ensures reserveOutcome != Success ==>
        r == reserveOutcome && calls == [] && hw.reserved == old(hw.reserved) &&
        padBtss[..] == old(padBtss[..]) &&
        btssPad[..] == old(btssPad[..]) &&
        callbacks[..] == old(callbacks[..])
      ensures var sel := FirstFree(swGpio, pin, old(btssPad[..]));
        r == Success <==>
          reserveOutcome == Success && pin < BtGpioLast && sel.Some? && connectOutcome == Success &&
          direction != DirBidirectional && setHwOk && (swGpio[sel.value].func == FuncNone || assignOk)
      ensures var pb0 := old(padBtss[..]);
        var bp0 := old(btssPad[..]);
        var sel := FirstFree(swGpio, pin, bp0);
        r == Success ==>
          sel.Some? && pin < BtGpioLast &&
          var e := swGpio[sel.value];
          var b := ConvertFuncToBtss(e.func);
          padBtss[..] == pb0[pin := b] && btssPad[..] == bp0[b := pin] &&
          hw.reserved == old(hw.reserved) + {UtilsImpl.GetGpioResource(pin)} &&
          calls == [ConnectPin(e)] + GpioHw(masks, a0, pin, b, e.func, direction, drive, initVal, setHwOk, assignOk).calls
            + [EnableInterrupt(b, false)]
      ensures reserveOutcome == Success && r != Success && pin < BtGpioLast ==>
        padBtss[pin] == Unassigned && hw.reserved == old(hw.reserved) - {UtilsImpl.GetGpioResource(pin)}
      ensures reserveOutcome == Success && pin >= BtGpioLast ==>
        r == GpioBadParam && calls == [] && hw.reserved == old(hw.reserved) + {UtilsImpl.GetGpioResource(pin)}
      ensures var pb0 := old(padBtss[..]);
        MapsInverse(pb0, old(btssPad[..])) &&
        (pin < BtGpioLast && reserveOutcome == Success ==> pb0[pin] == Unassigned) ==>
        MapsInverse(padBtss[..], btssPad[..])
    {
      var rsc := UtilsImpl.GetGpioResource(pin);
      r := hw.Reserve(rsc, reserveOutcome);
      calls := [];
      if r != Success {
        return;
      }
      if pin >= BtGpioLast {
        r := GpioBadParam;
        return;
      }
      r, calls := SearchAndConnect(pin, direction, drive, initVal, connectOutcome, setHwOk, assignOk);
      if r != Success {
        var c := Free(hw, pin);
        calls := calls + c;
      }
    }

    /** The reserved-pin part of cyhal_gpio_init as written: search the
        table, then connect and configure when `pinMap.pin == pin`.  With no
        selectable entry pinMap stays all zero, so BT_GPIO_0 passes that test
        with the zero entry while its maps stay unlinked. */
    method SearchAndConnectAsWritten(pin: nat, direction: Direction, drive: DriveMode, initVal: bool,
                                     connectOutcome: Rslt, setHwOk: bool, assignOk: bool)
      returns (r: Rslt, calls: seq<PadCall>)
      requires Valid() && initialized && pin < BtGpioLast
      modifies padBtss, btssPad
      ensures Valid()
      ensures var sel := FirstFree(swGpio, pin, old(btssPad[..]));
        sel.Some? ==>
          var e := swGpio[sel.value];
          var b := ConvertFuncToBtss(e.func);
          padBtss[..] == old(padBtss[..])[pin := b] && btssPad[..] == old(btssPad[..])[b := pin] &&
          (r == Success <==>
            connectOutcome == Success && direction != DirBidirectional && setHwOk && (e.func == FuncNone || assignOk)) &&
          (r == Success ==>
            calls == [ConnectPin(e)] + GpioHw(masks, a0, pin, b, e.func, direction, drive, initVal, setHwOk, assignOk).calls
              + [EnableInterrupt(b, false)])
      ensures FirstFree(swGpio, pin, old(btssPad[..])).None? ==>
        unchanged(padBtss, btssPad) &&
        if pin == BtGpio0 then
          (r == Success <==> connectOutcome == Success && direction != DirBidirectional && setHwOk && assignOk) &&
          (r == Success ==>
            |calls| > 0 && calls[0] == ConnectPin(ZeroMapping) &&
            calls[|calls| - 1] == EnableInterrupt(ConvertFuncToBtss(swGpio[|swGpio| - 1].func), false))
        else r == GpioBadParam && calls == []
      ensures old(MapsInverse(padBtss[..], btssPad[..])) && old(padBtss[pin]) == Unassigned ==>
        MapsInverse(padBtss[..], btssPad[..])
    {
      var _, pinMap, btssPin := SelectEntry(swGpio, pin);
      calls := [];
      if pinMap.pin == pin {
        var h := Connect(masks, a0, pinMap, pin, padBtss[pin], btssPin, direction, drive, initVal,
                         connectOutcome, setHwOk, assignOk);
        r, calls := h.status, h.calls;
      } else {
        r := GpioBadParam;
      }
    }

    /** The reserved-pin part of cyhal_gpio_init as intended: only a selected
        entry is connected and configured. */
    method SearchAndConnect(pin: nat, direction: Direction, drive: DriveMode, initVal: bool,
                            connectOutcome: Rslt, setHwOk: bool, assignOk: bool)
      returns (r: Rslt, calls: seq<PadCall>)
      requires Valid() && initialized && pin < BtGpioLast
      modifies padBtss, btssPad
      ensures Valid()
      ensures var sel := FirstFree(swGpio, pin, old(btssPad[..]));
        sel.Some? ==>
          var e := swGpio[sel.value];
          var b := ConvertFuncToBtss(e.func);
          padBtss[..] == old(padBtss[..])[pin := b] && btssPad[..] == old(btssPad[..])[b := pin] &&
          (r == Success <==>
            connectOutcome == Success && direction != DirBidirectional && setHwOk && (e.func == FuncNone || assignOk)) &&
          (r == Success ==>
            calls == [ConnectPin(e)] + GpioHw(masks, a0, pin, b, e.func, direction, drive, initVal, setHwOk, assignOk).calls
              + [EnableInterrupt(b, false)])
      ensures FirstFree(swGpio, pin, old(btssPad[..])).None? ==>
        unchanged(padBtss, btssPad) && r == GpioBadParam && calls == []
      ensures old(MapsInverse(padBtss[..], btssPad[..])) && old(padBtss[pin]) == Unassigned ==>
        MapsInverse(padBtss[..], btssPad[..])
    {
      var found, pinMap, btssPin := SelectEntry(swGpio, pin);
      calls := [];
      if found {
        var h := Connect(masks, a0, pinMap, pin, padBtss[pin], btssPin, direction, drive, initVal,
                         connectOutcome, setHwOk, assignOk);
        r, calls := h.status, h.calls;
      } else {
        r := GpioBadParam;
      }
    }
  }
}
