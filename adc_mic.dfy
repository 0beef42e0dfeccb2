/** The ADC-mic driver (source/cyhal_adc_mic.c): the ring search for the next
    enabled channel, the firmware-sequenced asynchronous scan, the two-phase
    DC calibration run from the ADC_READY and CIC interrupts, the checks of
    `configure`, `set_sample_rate` and `channel_configure`, and the channel
    slots of an ADC object.  The Cy_ADCCOMP_* PDL routines are foreign: the
    values they return (calibration result, conversion result in counts and
    in microvolts) are inputs, and the register writes they make are kept as
    a few flags of the object. */
module AdcMic {
  import opened Results
  import opened Options
  import opened Resources
  import Pins
  import HwMgr
  import UtilsImpl

  /** _CYHAL_ADCMIC_NUM_CHANNELS: the size of channel_config, which is sized
      by the eight-element cyhal_pin_map_adcmic_gpio_adc_in. */
  const ChannelCount := 8
  /** _CYHAL_ADCMIC_RESOLUTION */
  const Resolution := 15
  /** _CYHAL_ADCMIC_SAMPLE_RATE_HZ: fixed by the hardware. */
  const SampleRateHz := 4096000
  /** _CYHAL_ADCMIC_ACQUISITION_TIME_NS */
  const AcquisitionTimeNs := 244
  /** _CYHAL_ADCMIC_DC_CALIBRATION_GAIN: raw counts per volt. */
  const DcCalibrationGain := 0x8000
  /** CYHAL_ADC_VNEG: the vminus of a single-ended channel, the NC pin value. */
  const Vneg := Pins.NC

  /** The ADC events (cyhal_adc_event_t). */
  datatype Event = Eos | AsyncReadComplete

  /** A call of the registered callback. */
  datatype Delivery = Delivery(callback: nat, arg: int, event: Event)

  /** cy_en_adccomp_adc_dc_channel_t: one of the eight GPIO inputs, or open. */
  datatype DcChannel = GpioIn(k: nat) | InOpen

  /** _cyhal_adcmic_convert_channel_sel */
  function ConvertChannelSel(bit: int): (c: DcChannel)
    ensures c.GpioIn? <==> 0 <= bit < 8
    ensures c.GpioIn? ==> c.k == bit
  {
    if 0 <= bit < 8 then GpioIn(bit) else InOpen
  }

  // ---------------------------------------------------------------------
  // The ring search and the scan, over the readiness of the eight slots
  // (slot non-null and its channel enabled).
  // ---------------------------------------------------------------------

  predicate NoneReady(ready: seq<bool>, lo: nat, hi: nat)
  {
    forall j :: lo <= j < hi && j < |ready| ==> !ready[j]
  }

  predicate AnyReady(ready: seq<bool>)
  {
    exists j :: 0 <= j < |ready| && ready[j]
  }

  /** The first ready slot at or after `s`, in index order. */
  function FirstReady(ready: seq<bool>, s: nat): (r: Option<nat>)
    decreases |ready| - s
    ensures r.Some? ==> s <= r.value < |ready| && ready[r.value] && NoneReady(ready, s, r.value)
    ensures r.None? ==> NoneReady(ready, s, |ready|)
  {
    if s >= |ready| then None
    else if ready[s] then Some(s)
    else FirstReady(ready, s + 1)
  }

  /** What _cyhal_adcmic_find_next_channel leaves in the index: the first
      ready slot from `start` to the end, else the first ready slot from 0,
      else `start` itself. */
  function NextEnabled(ready: seq<bool>, start: nat): (r: nat)
    requires start < |ready|
    ensures r < |ready|
    ensures AnyReady(ready) ==> ready[r]
    ensures !AnyReady(ready) ==> r == start
  {
    match FirstReady(ready, start)
    case Some(j) => j
    case None =>
      match FirstReady(ready, 0)
      case Some(j) => j
      case None => start
  }

  /** NextEnabled is the first ready slot met going round the ring of
      eight slots from `start`: every slot passed on the way is not ready. */
  lemma NextEnabledIsCyclicFirst(ready: seq<bool>, start: nat, d: nat)
    requires |ready| == ChannelCount && start < ChannelCount
    requires d < (NextEnabled(ready, start) - start) % ChannelCount
    ensures !ready[(start + d) % ChannelCount]
  {
    var r := NextEnabled(ready, start);
    if r >= start {
      assert FirstReady(ready, start) == Some(r);
    } else {
      assert FirstReady(ready, start).None?;
      assert FirstReady(ready, 0) == Some(r);
    }
  }

  /** The ready slots at or after `s`, in increasing order. */
  function ReadyFrom(ready: seq<bool>, s: nat): seq<nat>
    decreases |ready| - s
  {
    if s >= |ready| then [] else (if ready[s] then [s] else []) + ReadyFrom(ready, s + 1)
  }

  /** ReadyFrom holds exactly the ready slots at or after `s`. */
  lemma {:induction false} ReadyFromMembers(ready: seq<bool>, s: nat, x: nat)
    decreases |ready| - s
    ensures x in ReadyFrom(ready, s) <==> s <= x < |ready| && ready[x]
  {
    if s < |ready| {
      ReadyFromMembers(ready, s + 1, x);
    }
  }

  /** The head of ReadyFrom is the first ready slot. */
  lemma {:induction false} ReadyFromFirst(ready: seq<bool>, s: nat)
    decreases |ready| - s
    ensures FirstReady(ready, s).None? ==> ReadyFrom(ready, s) == []
    ensures FirstReady(ready, s).Some? ==>
      ReadyFrom(ready, s) == [FirstReady(ready, s).value] + ReadyFrom(ready, FirstReady(ready, s).value + 1)
  {
    if s >= |ready| {
      assert FirstReady(ready, s).None? && ReadyFrom(ready, s) == [];
    } else if ready[s] {
      assert FirstReady(ready, s) == Some(s);
      assert ReadyFrom(ready, s) == [s] + ReadyFrom(ready, s + 1);
    } else {
      assert FirstReady(ready, s) == FirstReady(ready, s + 1);
      assert ReadyFrom(ready, s) == [] + ReadyFrom(ready, s + 1) == ReadyFrom(ready, s + 1);
      ReadyFromFirst(ready, s + 1);
    }
  }

  /** `l` repeated `k` times. */
  function Repeat(l: seq<nat>, k: nat): seq<nat>
  {
    if k == 0 then [] else l + Repeat(l, k - 1)
  }

  lemma {:induction false} RepeatLength(l: seq<nat>, k: nat)
    ensures |Repeat(l, k)| == k * |l|
  {
    if k > 0 {
      RepeatLength(l, k - 1);
    }
  }

  /** The asynchronous scan: whether a result buffer is attached
      (async_buff_next != NULL), async_scans_remaining and
      current_channel_index. */
  datatype Scan = Scan(active: bool, remaining: nat, index: nat)

  /** A buffer is attached exactly while scans remain. */
  predicate Consistent(s: Scan)
  {
    s.active <==> s.remaining > 0
  }

  /** _cyhal_adcmic_start_async_read (lines 658-669) as written: the buffer
      stays attached whenever a channel is enabled, even for zero scans. */
  function StartScanAsWritten(ready: seq<bool>, numScan: nat): Scan
    requires |ready| == ChannelCount
  {
    var i := NextEnabled(ready, 0);
    if ready[i] then Scan(true, numScan, i) else Scan(false, 0, i)
  }

  /** With an enabled channel and zero scans the buffer stays attached with
      nothing left to convert: the conversion handler never detaches it
      (it only acts while scans remain), so every later start is refused as
      busy. */
  lemma StartScanAsWrittenZeroStuck(ready: seq<bool>)
    requires |ready| == ChannelCount && AnyReady(ready)
    ensures StartScanAsWritten(ready, 0).active && StartScanAsWritten(ready, 0).remaining == 0
    ensures !Consistent(StartScanAsWritten(ready, 0))
  {
  }

  /** The start of a scan: from slot 0, the first enabled channel; a scan
      with no enabled channel, or with zero scans, ends at once. */
  function StartScan(ready: seq<bool>, numScan: nat): (s: Scan)
    requires |ready| == ChannelCount
    ensures s.index < |ready|
    ensures Consistent(s)
    ensures s.active <==> AnyReady(ready) && numScan > 0
    ensures s.active ==> s.remaining == numScan && ready[s.index]
  {
    var i := NextEnabled(ready, 0);
    if ready[i] && numScan > 0 then Scan(true, numScan, i) else Scan(false, 0, i)
  }

  /** The slot after `idx` found by the ring search. */
  function Advance(ready: seq<bool>, idx: nat): (r: nat)
    requires |ready| == ChannelCount && idx < ChannelCount
    ensures r < ChannelCount
  {
    NextEnabled(ready, (idx + 1) % ChannelCount)
  }

  /** Without wrapping, the next slot is the first ready one after `idx`. */
  lemma AdvanceForward(ready: seq<bool>, idx: nat)
    requires |ready| == ChannelCount && idx + 1 < ChannelCount && FirstReady(ready, idx + 1).Some?
    ensures Advance(ready, idx) == FirstReady(ready, idx + 1).value > idx
  {
  }

  /** With no ready slot after `idx`, the search wraps to the first ready
      slot, which is not after `idx`. */
  lemma AdvanceWraps(ready: seq<bool>, idx: nat)
    requires |ready| == ChannelCount && idx < ChannelCount && ready[idx]
    requires idx + 1 == ChannelCount || FirstReady(ready, idx + 1).None?
    ensures FirstReady(ready, 0).Some? && Advance(ready, idx) == FirstReady(ready, 0).value <= idx
  {
    if idx + 1 < ChannelCount {
      assert (idx + 1) % ChannelCount == idx + 1;
    }
  }

  /** One conversion of _cyhal_adcmic_get_result (lines 214-258): move to the
      next enabled slot; a scan is counted off only when the index does not
      increase (the ring wrapped), and the buffer is detached when none
      remain. */
  function ConvertStep(ready: seq<bool>, s: Scan): (t: Scan)
    requires |ready| == ChannelCount && s.index < ChannelCount && s.remaining > 0
    ensures t.index < ChannelCount
    ensures t.remaining == s.remaining - 1 || (t.remaining == s.remaining && t.index > s.index)
    ensures Consistent(s) ==> Consistent(t)
  {
    var next := Advance(ready, s.index);
    var rem := if s.index >= next then s.remaining - 1 else s.remaining;
    Scan(s.active && rem != 0, rem, next)
  }

  /** With every channel disabled while a scan runs, the ring search stops
      on the slot after the current one, so the index moves one slot on and
      a scan is counted off only when it wraps from the last slot. */
  lemma ConvertStepNoneReady(ready: seq<bool>, s: Scan)
    requires |ready| == ChannelCount && s.index < ChannelCount && s.remaining > 0 && !AnyReady(ready)
    ensures ConvertStep(ready, s).index == (s.index + 1) % ChannelCount
    ensures ConvertStep(ready, s).remaining == if s.index + 1 == ChannelCount then s.remaining - 1 else s.remaining
  {
  }

  /** The slots converted, in order, from `s` until no scan remains. */
  function Visits(ready: seq<bool>, s: Scan): seq<nat>
    requires |ready| == ChannelCount && s.index < ChannelCount
    decreases s.remaining, ChannelCount - s.index
  {
    if s.remaining == 0 then [] else [s.index] + Visits(ready, ConvertStep(ready, s))
  }

  /** A conversion that does not wrap. */
  lemma {:induction false} VisitsForward(ready: seq<bool>, s: Scan)
    requires |ready| == ChannelCount && s.index + 1 < ChannelCount && ready[s.index] && s.remaining > 0
    requires FirstReady(ready, s.index + 1).Some?
    requires var t := ConvertStep(ready, s);
      Visits(ready, t) == ReadyFrom(ready, t.index) + Repeat(ReadyFrom(ready, 0), t.remaining - 1)
    ensures ConvertStep(ready, s).remaining == s.remaining && ready[ConvertStep(ready, s).index]
    ensures Visits(ready, s) == ReadyFrom(ready, s.index) + Repeat(ReadyFrom(ready, 0), s.remaining - 1)
  {
    var t := ConvertStep(ready, s);
    var rest := Repeat(ReadyFrom(ready, 0), s.remaining - 1);
    AdvanceForward(ready, s.index);
    assert t.remaining == s.remaining && ready[t.index];
    ReadyFromFirst(ready, s.index + 1);
    assert ReadyFrom(ready, s.index + 1) == ReadyFrom(ready, t.index);
    calc {
      Visits(ready, s);
      [s.index] + Visits(ready, t);
      [s.index] + (ReadyFrom(ready, t.index) + rest);
      ([s.index] + ReadyFrom(ready, s.index + 1)) + rest;
      ReadyFrom(ready, s.index) + rest;
    }
  }

  /** A conversion that wraps round to the first enabled slot. */
  lemma {:induction false} VisitsWrap(ready: seq<bool>, s: Scan)
    requires |ready| == ChannelCount && s.index < ChannelCount && ready[s.index] && s.remaining > 0
    requires s.index + 1 == ChannelCount || FirstReady(ready, s.index + 1).None?
    requires var t := ConvertStep(ready, s);
      t.remaining > 0 ==> Visits(ready, t) == ReadyFrom(ready, t.index) + Repeat(ReadyFrom(ready, 0), t.remaining - 1)
    ensures ConvertStep(ready, s).remaining == s.remaining - 1 && ready[ConvertStep(ready, s).index]
    ensures Visits(ready, s) == ReadyFrom(ready, s.index) + Repeat(ReadyFrom(ready, 0), s.remaining - 1)
  {
    var t := ConvertStep(ready, s);
    AdvanceWraps(ready, s.index);
    ReadyFromFirst(ready, 0);
    ReadyFromFirst(ready, s.index + 1);
    assert ReadyFrom(ready, s.index) == [s.index];
    if t.remaining > 0 {
      assert ReadyFrom(ready, t.index) == ReadyFrom(ready, 0);
      assert Repeat(ReadyFrom(ready, 0), s.remaining - 1) == ReadyFrom(ready, 0) + Repeat(ReadyFrom(ready, 0), t.remaining - 1);
    }
  }

  /** From an enabled slot, the conversions run through the rest of the
      enabled slots and then through all of them once per remaining scan. */
  lemma {:induction false} VisitsRounds(ready: seq<bool>, s: Scan)
    requires |ready| == ChannelCount && s.index < ChannelCount && ready[s.index] && s.remaining > 0
    decreases s.remaining, ChannelCount - s.index
    ensures Visits(ready, s) == ReadyFrom(ready, s.index) + Repeat(ReadyFrom(ready, 0), s.remaining - 1)
  {
    var t := ConvertStep(ready, s);
    if s.index + 1 < ChannelCount && FirstReady(ready, s.index + 1).Some? {
      AdvanceForward(ready, s.index);
      VisitsRounds(ready, t);
      VisitsForward(ready, s);
    } else {
      AdvanceWraps(ready, s.index);
      if t.remaining > 0 {
        VisitsRounds(ready, t);
      }
      VisitsWrap(ready, s);
    }
  }

  /** A started scan of `numScan` scans converts every enabled slot in
      increasing order, `numScan` times over, so it writes numScan times the
      number of enabled channels results. */
  lemma ScanConvertsEveryEnabledChannel(ready: seq<bool>, numScan: nat)
    requires |ready| == ChannelCount
    ensures Visits(ready, StartScan(ready, numScan)) == Repeat(ReadyFrom(ready, 0), numScan)
    ensures |Visits(ready, StartScan(ready, numScan))| == numScan * |ReadyFrom(ready, 0)|
  {
    var s := StartScan(ready, numScan);
    RepeatLength(ReadyFrom(ready, 0), numScan);
    if s.active {
      ReadyFromFirst(ready, 0);
      assert ReadyFrom(ready, s.index) == ReadyFrom(ready, 0);
      VisitsRounds(ready, s);
    } else if AnyReady(ready) {
      assert numScan == 0;
    } else {
      ReadyFromFirst(ready, 0);
    }
  }

  // ---------------------------------------------------------------------
  // DC calibration.
  // ---------------------------------------------------------------------

  /** The DC calibration state kept in dc_calibrated and
      dc_calibration_started. */
  datatype Phase = Uncalibrated | CalibrationStarted | Calibrated

  /** The interrupts the shared handler forwards to this driver. */
  datatype Irq = ReadyIrq | CicIrq

  /** _cyhal_adcmic_calibrate in DC mode: the first ADC_READY starts the
      calibration; later ones start its conversion and change nothing more. */
  function AfterReady(p: Phase): Phase
  {
    if p == Uncalibrated then CalibrationStarted else p
  }

  /** _cyhal_adcmic_get_result: a CIC while the calibration runs finishes it. */
  function AfterCic(p: Phase): Phase
  {
    if p == CalibrationStarted then Calibrated else p
  }

  function PhaseAfter(p: Phase, irqs: seq<Irq>): Phase
    decreases |irqs|
  {
    if irqs == [] then p
    else PhaseAfter(if irqs[0] == ReadyIrq then AfterReady(p) else AfterCic(p), irqs[1..])
  }

  lemma {:induction false} CalibratedStays(irqs: seq<Irq>)
    ensures PhaseAfter(Calibrated, irqs) == Calibrated
  {
    if irqs != [] {
      CalibratedStays(irqs[1..]);
    }
  }

  lemma {:induction false} StartedCalibrates(irqs: seq<Irq>)
    ensures PhaseAfter(CalibrationStarted, irqs) == Calibrated <==> CicIrq in irqs
  {
    if irqs != [] {
      if irqs[0] == CicIrq {
        CalibratedStays(irqs[1..]);
      } else {
        StartedCalibrates(irqs[1..]);
        assert CicIrq in irqs <==> CicIrq in irqs[1..];
      }
    }
  }

  /** Starting uncalibrated, a sequence of interrupts leaves the ADC
      calibrated exactly when an ADC_READY is followed, later, by a CIC. */
  lemma {:induction false} CalibrationTakesTwoPhases(irqs: seq<Irq>)
    ensures PhaseAfter(Uncalibrated, irqs) == Calibrated <==>
      exists i, j :: 0 <= i < j < |irqs| && irqs[i] == ReadyIrq && irqs[j] == CicIrq
  {
    if irqs != [] {
      var rest := irqs[1..];
      if irqs[0] == ReadyIrq {
        StartedCalibrates(rest);
        if CicIrq in rest {
          var j :| 0 <= j < |rest| && rest[j] == CicIrq;
          assert irqs[0] == ReadyIrq && irqs[j + 1] == CicIrq;
        } else {
          forall i, j | 0 <= i < j < |irqs| && irqs[i] == ReadyIrq
            ensures irqs[j] != CicIrq
          {
            assert irqs[j] == rest[j - 1];
          }
        }
      } else {
        CalibrationTakesTwoPhases(rest);
        if exists i, j :: 0 <= i < j < |irqs| && irqs[i] == ReadyIrq && irqs[j] == CicIrq {
          var i, j :| 0 <= i < j < |irqs| && irqs[i] == ReadyIrq && irqs[j] == CicIrq;
          assert rest[i - 1] == ReadyIrq && rest[j - 1] == CicIrq;
        }
        if exists i, j :: 0 <= i < j < |rest| && rest[i] == ReadyIrq && rest[j] == CicIrq {
          var i, j :| 0 <= i < j < |rest| && rest[i] == ReadyIrq && rest[j] == CicIrq;
          assert irqs[i + 1] == ReadyIrq && irqs[j + 1] == CicIrq;
        }
      }
    }
  }

  // ---------------------------------------------------------------------
  // The checks of configure, set_sample_rate and channel_configure.
  // ---------------------------------------------------------------------

  datatype VnegSel = VnegVssa | VnegVref
  datatype VrefSel = RefInternal | RefExternal | RefVdda | RefVddaDiv2

  /** cyhal_adc_config_t */
  datatype Config = Config(
    continuousScanning: bool, resolution: int, averageCount: int, averageModeFlags: int,
    extVrefMv: int, vneg: VnegSel, vref: VrefSel, extVref: int, isBypassed: bool, bypassPin: int)

  /** The one configuration the hardware supports. */
  const SupportedConfig := Config(false, Resolution, 1, 0, 0, VnegVssa, RefInternal, Pins.NC, false, Pins.NC)

  /** cyhal_adc_configure: only a check against what the hardware does. */
  function ConfigureStatus(c: Config): (r: Rslt)
    ensures r == Success <==> c == SupportedConfig
    ensures r == Success || r == AdcBadArgument
  {
    if c.continuousScanning || c.resolution != Resolution || c.averageCount != 1
      || c.averageModeFlags != 0 || c.extVrefMv != 0 || c.vneg != VnegVssa
      || c.vref != RefInternal || c.extVref != Pins.NC || c.isBypassed || c.bypassPin != Pins.NC
    then AdcBadArgument
    else Success
  }

  /** cyhal_adc_set_sample_rate: the achieved rate is always the fixed one,
      and the call succeeds exactly when it is the rate asked for. */
  function SetSampleRate(desired: int): (result: (Rslt, int))
    ensures result.0 == Success <==> result.1 == desired
    ensures result.0 == Success || result.0 == AdcBadArgument
  {
    (if desired == SampleRateHz then Success else AdcBadArgument, SampleRateHz)
  }

  /** cyhal_adc_channel_config_t */
  datatype ChannelConfig = ChannelConfig(enabled: bool, enableAveraging: bool, minAcquisitionNs: int)

  /** The check of cyhal_adc_channel_configure. */
  function ChannelConfigStatus(cfg: ChannelConfig): (r: Rslt)
    ensures r == Success <==> cfg.minAcquisitionNs <= AcquisitionTimeNs && !cfg.enableAveraging
    ensures r == Success || r == AdcBadArgument
  {
    if cfg.minAcquisitionNs > AcquisitionTimeNs || cfg.enableAveraging then AdcBadArgument else Success
  }

  /** cyhal_adc_set_async_mode: DMA is refused. */
  datatype AsyncMode = AsyncSw | AsyncDma

  function SetAsyncMode(mode: AsyncMode): (r: Rslt)
    ensures r == Success <==> mode.AsyncSw?
    ensures r == Success || r == AdcBadArgument
  {
    if mode == AsyncDma then AdcBadArgument else Success
  }

  // ---------------------------------------------------------------------
  // The vplus lookup of cyhal_adc_channel_init_diff.
  // ---------------------------------------------------------------------

  /** The adc_in table, then the MIC_P table, searched for the pin (the
      block check of the lookup always holds: the one ADC and every entry
      are block 0). */
  function VplusMapping(adcIn: seq<Pins.Mapping>, pin: int): Option<Pins.Mapping>
  {
    match Pins.FindPin(adcIn, pin)
    case Some(i) => Some(adcIn[i])
    case None =>
      match Pins.FindPin(Pins.MicPMap, pin)
      case Some(i) => Some(Pins.MicPMap[i])
      case None => None
  }

  /** As written the zero-filled eighth adc_in entry is searched too: pin
      BT_GPIO_0 is accepted as a vplus, and it selects the DC channel of
      LHL_GPIO_2. */
  lemma VplusAsWrittenAcceptsBtGpio0()
    ensures VplusMapping(Pins.AdcIn, Pins.BtGpio0) == Some(Pins.ZeroMapping)
    ensures ConvertChannelSel(Pins.ZeroMapping.channel) == ConvertChannelSel(Pins.AdcIn[0].channel)
  {
    Pins.AdcInZeroEntryMatchesBtGpio0();
  }

  /** The seven real adc_in entries. */
  const AdcInPins: seq<Pins.Mapping> := Pins.AdcIn[..7]

  /** With the real entries only, the accepted vplus pins are the seven ADC
      inputs and MIC_P. */
  lemma VplusPins(pin: int)
    ensures VplusMapping(AdcInPins, pin).Some? <==>
      pin in {Pins.LhlGpio2, Pins.LhlGpio3, Pins.LhlGpio4, Pins.LhlGpio5, Pins.LhlGpio6,
              Pins.LhlGpio8, Pins.LhlGpio9, Pins.MicP}
    ensures VplusMapping(AdcInPins, pin).Some? ==> VplusMapping(AdcInPins, pin).value.pin == pin
  {
    assert AdcInPins[0].pin == Pins.LhlGpio2 && AdcInPins[1].pin == Pins.LhlGpio3;
    assert AdcInPins[2].pin == Pins.LhlGpio4 && AdcInPins[3].pin == Pins.LhlGpio5;
    assert AdcInPins[4].pin == Pins.LhlGpio6 && AdcInPins[5].pin == Pins.LhlGpio8;
    assert AdcInPins[6].pin == Pins.LhlGpio9 && |AdcInPins| == 7;
    assert Pins.MicPMap[0].pin == Pins.MicP && |Pins.MicPMap| == 1;
  }

  /** The first free slot. */
  function FirstFree(t: seq<Channel?>): (r: Option<nat>)
    ensures r.Some? ==> r.value < |t| && t[r.value] == null
    ensures r.Some? ==> forall j :: 0 <= j < r.value ==> t[j] != null
    ensures r.None? ==> forall j :: 0 <= j < |t| ==> t[j] != null
  {
    if |t| == 0 then None
    else if t[0] == null then Some(0)
    else match FirstFree(t[1..])
      case None => None
      case Some(i) => Some(i + 1)
  }

  /** The result of cyhal_adc_channel_init_diff, in the order of its checks. */
  function InitDiffStatus(vminus: int, m: Option<Pins.Mapping>, reserveOutcome: Rslt, connectOutcome: Rslt,
                          slot: Option<nat>, cfg: ChannelConfig): (r: Rslt)
  {
    if vminus != Vneg || m.None? then AdcBadArgument
    else if reserveOutcome != Success then reserveOutcome
    else if connectOutcome != Success then connectOutcome
    else if slot.None? then AdcNoChannels
    else ChannelConfigStatus(cfg)
  }

  /** A channel comes up exactly when vminus is the single-ended value, the
      pin is an input, its reservation and connection work, a slot is free
      and the channel configuration is supported. */
  lemma InitDiffSucceeds(vminus: int, m: Option<Pins.Mapping>, reserveOutcome: Rslt, connectOutcome: Rslt,
                         slot: Option<nat>, cfg: ChannelConfig)
    ensures InitDiffStatus(vminus, m, reserveOutcome, connectOutcome, slot, cfg) == Success <==>
      vminus == Vneg && m.Some? && reserveOutcome == Success && connectOutcome == Success
      && slot.Some? && cfg.minAcquisitionNs <= AcquisitionTimeNs && !cfg.enableAveraging
    ensures slot.None? && vminus == Vneg && m.Some? && reserveOutcome == Success && connectOutcome == Success ==>
      InitDiffStatus(vminus, m, reserveOutcome, connectOutcome, slot, cfg) == AdcNoChannels
  {
  }

  // ---------------------------------------------------------------------
  // The objects.
  // ---------------------------------------------------------------------

  /** cyhal_adc_channel_t */
  class Channel {
    var adc: Adc?
    var vplus: int
    var channelIdx: nat
    var channelSel: DcChannel
    var enabled: bool

    /** A zeroed object (the PDL value of a zero channel_sel is not part of
        this model; it is only read after init sets it). */
    constructor ()
      ensures adc == null && vplus == Pins.NC && channelIdx == 0 && channelSel == InOpen && !enabled
    {
      adc := null;
      vplus := Pins.NC;
      channelIdx := 0;
      channelSel := InOpen;
      enabled := false;
    }

    /** cyhal_adc_channel_configure: a supported configuration sets the
        enabled flag; any other changes nothing. */
    method Configure(cfg: ChannelConfig) returns (r: Rslt)
      modifies this
      ensures r == ChannelConfigStatus(cfg)
      ensures enabled == if r == Success then cfg.enabled else old(enabled)
      ensures adc == old(adc) && vplus == old(vplus) && channelIdx == old(channelIdx)
      ensures channelSel == old(channelSel)
    {
      r := ChannelConfigStatus(cfg);
      if r == Success {
        enabled := cfg.enabled;
      }
    }

    /** cyhal_adc_channel_free: the pin is released (set back to NC) unless
        the parent ADC came from a configurator, and the parent's slot is
        cleared. */
    method Free(hw: HwMgr.Manager)
      requires adc != null ==> channelIdx < adc.channelConfig.Length
      modifies this, hw, if adc != null then {adc.channelConfig} else {}
      ensures adc == null
      ensures old(adc) != null ==>
        old(adc).channelConfig[..] == old(adc.channelConfig[..])[old(channelIdx) := null]
      ensures old(adc) == null || !old(adc).ownedByConfigurator ==>
        vplus == Pins.NC
        && hw.reserved == old(hw.reserved)
           - (if old(vplus) != Pins.NC then {UtilsImpl.GetGpioResource(old(vplus))} else {})
      ensures old(adc) != null && old(adc).ownedByConfigurator ==>
        vplus == old(vplus) && hw.reserved == old(hw.reserved)
      ensures channelIdx == old(channelIdx) && channelSel == old(channelSel) && enabled == old(enabled)
    {
      if adc == null || !adc.ownedByConfigurator {
        // _cyhal_utils_release_if_used: release a pin that is not NC.
        if vplus != Pins.NC {
          UtilsImpl.DisconnectAndFree(hw, vplus);
          vplus := Pins.NC;
        }
      }
      if adc != null {
        adc.channelConfig[channelIdx] := null;
        adc := null;
      }
    }

    /** The reset at the top of channel_init_diff. */
    method Reset()
      modifies this
      ensures adc == null && vplus == Pins.NC && channelIdx == 0 && channelSel == InOpen && !enabled
    {
      adc := null;
      vplus := Pins.NC;
      channelIdx := 0;
      channelSel := InOpen;
      enabled := false;
    }

    /** cyhal_adc_channel_init_diff with the vplus lookup over `adcIn`:
        reject a vminus that is not the single-ended value and a pin that is
        no input, reserve and connect the pin, take the first free slot of
        the ADC, apply the channel configuration, and free the channel on
        any failure. */
    method InitDiffUsing(adcIn: seq<Pins.Mapping>, parent: Adc, vplusPin: int, vminus: int, cfg: ChannelConfig,
                         hw: HwMgr.Manager, reserveOutcome: Rslt, connectOutcome: Rslt)
      returns (r: Rslt)
      requires parent.Valid()
      modifies this, parent.channelConfig, hw
      ensures var m := VplusMapping(adcIn, vplusPin);
        r == InitDiffStatus(vminus, m, reserveOutcome, connectOutcome, FirstFree(old(parent.channelConfig[..])), cfg)
      ensures r == Success ==>
        var slot := FirstFree(old(parent.channelConfig[..])).value;
        adc == parent && channelIdx == slot && vplus == vplusPin && enabled == cfg.enabled
        && channelSel == ConvertChannelSel(VplusMapping(adcIn, vplusPin).value.channel)
        && parent.channelConfig[..] == old(parent.channelConfig[..])[slot := this]
        && hw.reserved == old(hw.reserved) + {UtilsImpl.GetGpioResource(vplusPin)}
      ensures r != Success ==> adc == null
      ensures r != Success && (vminus != Vneg || VplusMapping(adcIn, vplusPin).None? || reserveOutcome != Success) ==>
        vplus == Pins.NC && hw.reserved == old(hw.reserved) && parent.channelConfig[..] == old(parent.channelConfig[..])
      ensures r != Success ==> parent.channelConfig[..] == old(parent.channelConfig[..])
      ensures r != Success && vminus == Vneg && VplusMapping(adcIn, vplusPin).Some? && reserveOutcome == Success ==>
        var kept := connectOutcome == Success &&
                    (vplusPin == Pins.NC || (FirstFree(old(parent.channelConfig[..])).Some? && parent.ownedByConfigurator));
        var rsc := UtilsImpl.GetGpioResource(vplusPin);
        vplus == (if kept then vplusPin else Pins.NC) &&
        hw.reserved == if kept then old(hw.reserved) + {rsc} else old(hw.reserved) - {rsc}
    {
      ghost var table := parent.channelConfig[..];
      ghost var m := VplusMapping(adcIn, vplusPin);
      r := Acquire(adcIn, vplusPin, vminus, hw, reserveOutcome, connectOutcome);
      assert parent.channelConfig[..] == table;
      if r != Success {
        assert r == InitDiffStatus(vminus, m, reserveOutcome, connectOutcome, FirstFree(table), cfg);
        ghost var held := hw.reserved;
        Free(hw);
        assert hw.reserved == held && parent.channelConfig[..] == table;
        return;
      }
      ghost var pinned := hw.reserved;
      r := Attach(parent, cfg);
      assert hw.reserved == pinned;
      if r != Success {
        Free(hw);
      }
    }

    /** The first part of channel_init_diff: reset the object, check that
        vminus is the single-ended value, look the pin up and reserve and
        connect it; the pin is recorded only once that worked. */
    method Acquire(adcIn: seq<Pins.Mapping>, vplusPin: int, vminus: int,
                   hw: HwMgr.Manager, reserveOutcome: Rslt, connectOutcome: Rslt)
      returns (r: Rslt)
      modifies this, hw
      ensures var m := VplusMapping(adcIn, vplusPin);
        r == if vminus != Vneg || m.None? then AdcBadArgument
             else if reserveOutcome != Success then reserveOutcome
             else connectOutcome
      ensures adc == null && channelIdx == 0 && !enabled
      ensures r == Success ==>
        vplus == vplusPin && channelSel == ConvertChannelSel(VplusMapping(adcIn, vplusPin).value.channel)
        && hw.reserved == old(hw.reserved) + {UtilsImpl.GetGpioResource(vplusPin)}
      ensures r != Success ==> vplus == Pins.NC
      ensures vminus != Vneg || VplusMapping(adcIn, vplusPin).None? || reserveOutcome != Success ==>
        hw.reserved == old(hw.reserved)
      ensures vminus == Vneg && VplusMapping(adcIn, vplusPin).Some? && reserveOutcome == Success && connectOutcome != Success ==>
        hw.reserved == old(hw.reserved) - {UtilsImpl.GetGpioResource(vplusPin)}
    {
      Reset();
      if vminus != Vneg {
        return AdcBadArgument;
      }
      var m := VplusMapping(adcIn, vplusPin);
      if m.None? {
        return AdcBadArgument;
      }
      channelSel := ConvertChannelSel(m.value.channel);
      r := UtilsImpl.ReserveAndConnect(hw, vplusPin, reserveOutcome, connectOutcome);
      if r == Success {
        vplus := vplusPin;
      }
    }

    /** The second part of channel_init_diff: take the first free slot of
        the parent and apply the channel configuration. */
    method Attach(parent: Adc, cfg: ChannelConfig) returns (r: Rslt)
      requires parent.Valid() && adc == null
      modifies this, parent.channelConfig
      ensures r == if FirstFree(old(parent.channelConfig[..])).None? then AdcNoChannels else ChannelConfigStatus(cfg)
      ensures FirstFree(old(parent.channelConfig[..])).None? ==>
        adc == null && parent.channelConfig[..] == old(parent.channelConfig[..])
      ensures FirstFree(old(parent.channelConfig[..])).Some? ==>
        var slot := FirstFree(old(parent.channelConfig[..])).value;
        adc == parent && channelIdx == slot && parent.channelConfig[..] == old(parent.channelConfig[..])[slot := this]
      ensures r == Success ==> enabled == cfg.enabled
      ensures vplus == old(vplus) && channelSel == old(channelSel)
    {
      var slot := parent.FirstFreeSlot();
      if slot.None? {
        return AdcNoChannels;
      }
      adc := parent;
      channelIdx := slot.value;
      parent.channelConfig[slot.value] := this;
      r := Configure(cfg);
    }

    /** cyhal_adc_channel_init_diff as written: the lookup searches all eight
        adc_in entries, the zero-filled one included. */
    method InitDiffAsWritten(parent: Adc, vplusPin: int, vminus: int, cfg: ChannelConfig,
                             hw: HwMgr.Manager, reserveOutcome: Rslt, connectOutcome: Rslt)
      returns (r: Rslt)
      requires parent.Valid()
      modifies this, parent.channelConfig, hw
      ensures (vminus == Vneg && vplusPin == Pins.BtGpio0 && reserveOutcome == Success && connectOutcome == Success
               && FirstFree(old(parent.channelConfig[..])).Some? && ChannelConfigStatus(cfg) == Success) ==>
        r == Success && channelSel == GpioIn(0)
    {
      VplusAsWrittenAcceptsBtGpio0();
      r := InitDiffUsing(Pins.AdcIn, parent, vplusPin, vminus, cfg, hw, reserveOutcome, connectOutcome);
    }

    /** cyhal_adc_channel_init_diff over the seven real adc_in entries. */
    method InitDiff(parent: Adc, vplusPin: int, vminus: int, cfg: ChannelConfig,
                    hw: HwMgr.Manager, reserveOutcome: Rslt, connectOutcome: Rslt)
      returns (r: Rslt)
      requires parent.Valid()
      modifies this, parent.channelConfig, hw
      ensures r == InitDiffStatus(vminus, VplusMapping(AdcInPins, vplusPin), reserveOutcome, connectOutcome,
                                  FirstFree(old(parent.channelConfig[..])), cfg)
      ensures r == Success ==>
        var slot := FirstFree(old(parent.channelConfig[..])).value;
        adc == parent && channelIdx == slot && vplus == vplusPin && enabled == cfg.enabled
        && parent.channelConfig[..] == old(parent.channelConfig[..])[slot := this]
        && hw.reserved == old(hw.reserved) + {UtilsImpl.GetGpioResource(vplusPin)}
      ensures r != Success ==> adc == null
    {
      r := InitDiffUsing(AdcInPins, parent, vplusPin, vminus, cfg, hw, reserveOutcome, connectOutcome);
    }
  }

  /** The register state the driver sets, kept as flags: the ADC_READY and
      CIC interrupt enables, ADC on, timer on, a conversion running, DC
      calibration mode, the selected DC channel, and the DC offset and gain
      handed to the PDL context. */
  datatype Regs = Regs(readyIntr: bool, cicIntr: bool, adcOn: bool, timerOn: bool, converting: bool,
                       calibrating: bool, dcChannel: DcChannel, dcOffset: int, dcGain: int)

  /** The callback registration and the enabled events. */
  datatype Callbacks = Callbacks(events: set<Event>, callback: Option<nat>, arg: int)

  /** The callback call for an event, when the event is enabled and a
      callback is registered. */
  function Notify(c: Callbacks, e: Event): (d: seq<Delivery>)
    ensures d != [] <==> e in c.events && c.callback.Some?
    ensures d != [] ==> d == [Delivery(c.callback.value, c.arg, e)]
  {
    if e in c.events && c.callback.Some? then [Delivery(c.callback.value, c.arg, e)] else []
  }

  /** cyhal_adc_t, as _cyhal_adc_config_hw leaves it. */
  class Adc {
    const channelConfig: array<Channel?>
    var resource: Inst
    var ownedByConfigurator: bool
    var usingAudio: bool
    var dcCalibrated: bool
    var dcCalibrationStarted: bool
    var calibOffset: int
    var conversionComplete: bool
    var callbacks: Callbacks
    var asyncActive: bool
    var asyncInUv: bool
    var asyncScansRemaining: nat
    var currentChannelIndex: nat
    /** What the current asynchronous read wrote to its buffer. */
    var written: seq<int>
    /** The slot each written result was converted on. */
    ghost var visited: seq<nat>
    var regs: Regs

    ghost predicate Valid()
      reads this
    {
      channelConfig.Length == ChannelCount && currentChannelIndex < ChannelCount
    }

    /** The state after a successful _cyhal_adc_config_hw: no channel, not
        calibrated, no read; in DC mode the ADC_READY interrupt is on and
        the ADC enabled, which starts the calibration. */
    constructor (granted: Inst, audio: bool, configurator: bool)
      ensures Valid() && fresh(channelConfig)
      ensures channelConfig[..] == seq(ChannelCount, _ => null)
      ensures resource == granted && usingAudio == audio && ownedByConfigurator == configurator
      ensures Phase() == Uncalibrated && ScanState() == Scan(false, 0, 0)
      ensures callbacks == Callbacks({}, None, 0)
      ensures regs == Regs(!audio, false, !audio, false, false, false, InOpen, 0, 0)
    {
      channelConfig := new Channel?[ChannelCount](_ => null);
      resource := granted;
      ownedByConfigurator := configurator;
      usingAudio := audio;
      dcCalibrated := false;
      dcCalibrationStarted := false;
      calibOffset := 0;
      conversionComplete := false;
      callbacks := Callbacks({}, None, 0);
      asyncActive := false;
      asyncInUv := false;
      asyncScansRemaining := 0;
      currentChannelIndex := 0;
      written := [];
      visited := [];
      regs := Regs(!audio, false, !audio, false, false, false, InOpen, 0, 0);
    }

    ghost function Slots(): set<Channel>
      reads channelConfig
    {
      set i | 0 <= i < channelConfig.Length && channelConfig[i] != null :: channelConfig[i]
    }

    /** Whether each slot holds an enabled channel. */
    ghost function Readiness(): (s: seq<bool>)
      reads channelConfig, Slots()
      ensures |s| == channelConfig.Length
      ensures forall i :: 0 <= i < |s| ==> s[i] == (channelConfig[i] != null && channelConfig[i].enabled)
    {
      seq(channelConfig.Length, i requires 0 <= i < channelConfig.Length reads channelConfig, Slots() =>
        channelConfig[i] != null && channelConfig[i].enabled)
    }

    function Phase(): Phase
      reads this
    {
      if dcCalibrated then Calibrated else if dcCalibrationStarted then CalibrationStarted else Uncalibrated
    }

    function ScanState(): Scan
      reads this
    {
      Scan(asyncActive, asyncScansRemaining, currentChannelIndex)
    }

    /** What the conversion part of _cyhal_adcmic_get_result dereferences:
        when a scan goes on after this conversion, the slot the ring search
        moves to holds a channel (enabled or not; with every channel
        disabled the search stops on the slot after the current one). */
    ghost predicate NextSlotHeld()
      reads this, channelConfig, Slots()
      requires Valid()
    {
      asyncScansRemaining > 0 ==>
        var t := ConvertStep(Readiness(), ScanState());
        t.remaining > 0 ==> channelConfig[t.index] != null
    }

    /** _cyhal_adcmic_find_next_channel: the do-while walk round the slots
        from `start`, stopping at an enabled channel or back at `start`. */
    method FindNextChannel(start: nat) returns (idx: nat)
      requires channelConfig.Length == ChannelCount && start < ChannelCount
      ensures idx == NextEnabled(Readiness(), start)
    {
      ghost var ready := Readiness();
      ghost var wrapped := false;
      ghost var d: nat := 0;
      idx := start;
      while true
        invariant idx < ChannelCount && d <= ChannelCount
        invariant !wrapped ==> start <= idx && idx - start == d && NoneReady(ready, start, idx)
        invariant wrapped ==>
          idx + ChannelCount - start == d && NoneReady(ready, start, ChannelCount) && NoneReady(ready, 0, idx)
        invariant wrapped ==> idx < start
        decreases ChannelCount - d
      {
        if channelConfig[idx] != null && channelConfig[idx].enabled {
          assert ready[idx];
          if wrapped {
            assert FirstReady(ready, start).None?;
            assert FirstReady(ready, 0) == Some(idx);
          } else {
            assert FirstReady(ready, start) == Some(idx);
          }
          return;
        }
        if idx + 1 == ChannelCount {
          wrapped := true;
        }
        idx := (idx + 1) % ChannelCount;
        d := d + 1;
        if idx == start {
          assert FirstReady(ready, start).None?;
          assert FirstReady(ready, 0).None?;
          return;
        }
      }
    }

    /** The first free slot (the loop of channel_init_diff). */
    method FirstFreeSlot() returns (slot: Option<nat>)
      requires channelConfig.Length == ChannelCount
      ensures slot == FirstFree(channelConfig[..])
    {
      var i := 0;
      while i < ChannelCount
        invariant 0 <= i <= ChannelCount
        invariant forall j :: 0 <= j < i ==> channelConfig[j] != null
      {
        if channelConfig[i] == null {
          slot := Some(i);
          assert FirstFree(channelConfig[..]) == Some(i);
          return;
        }
        i := i + 1;
      }
      slot := None;
    }

    /** _cyhal_adcmic_start_async_read: refused as busy while a buffer is
        attached or before DC calibration; otherwise start the scan. */
    method StartAsyncRead(numScan: nat) returns (r: Rslt)
      requires Valid()
      modifies this
      ensures r == if old(asyncActive) || !old(dcCalibrated) then AdcBusy else Success
      ensures r != Success ==> unchanged(this)
      ensures r == Success ==>
        Valid() && ScanState() == StartScan(old(Readiness()), numScan) && written == [] && visited == []
        && regs == (if asyncActive then old(regs).(converting := true, cicIntr := true,
                                                    dcChannel := channelConfig[currentChannelIndex].channelSel)
                    else old(regs))
      ensures asyncInUv == old(asyncInUv) && Phase() == old(Phase()) && callbacks == old(callbacks)
      ensures usingAudio == old(usingAudio)
    {
      if asyncActive || !dcCalibrated {
        return AdcBusy;
      }
      Begin(numScan, Readiness());
      r := Success;
    }

    /** The start proper: from slot 0 to the first enabled channel, select
        it and start a conversion; with no enabled channel, or no scan asked
        for, end at once. */
    method Begin(numScan: nat, ghost ready: seq<bool>)
      requires Valid() && ready == Readiness()
      modifies this
      ensures Valid() && ScanState() == StartScan(ready, numScan) && written == [] && visited == []
      ensures regs == if asyncActive then old(regs).(converting := true, cicIntr := true,
                                                      dcChannel := channelConfig[currentChannelIndex].channelSel)
                      else old(regs)
      ensures asyncInUv == old(asyncInUv) && dcCalibrated == old(dcCalibrated)
      ensures dcCalibrationStarted == old(dcCalibrationStarted) && callbacks == old(callbacks)
      ensures usingAudio == old(usingAudio)
    {
      var idx, go, sel := First(numScan, ready);
      currentChannelIndex := idx;
      written := [];
      visited := [];
      if go {
        asyncActive := true;
        asyncScansRemaining := numScan;
        regs := regs.(converting := true, cicIntr := true, dcChannel := sel);
      } else {
        asyncActive := false;
        asyncScansRemaining := 0;
      }
    }

    /** The first enabled slot from slot 0 and its channel selection. */
    method First(numScan: nat, ghost ready: seq<bool>) returns (idx: nat, go: bool, sel: DcChannel)
      requires Valid() && ready == Readiness()
      ensures idx == StartScan(ready, numScan).index && go == StartScan(ready, numScan).active
      ensures go ==> channelConfig[idx] != null && sel == channelConfig[idx].channelSel
    {
      idx := FindNextChannel(0);
      var c := channelConfig[idx];
      go := c != null && c.enabled && numScan > 0;
      sel := if c == null then InOpen else c.channelSel;
    }

    /** cyhal_adc_read_async / read_async_uv as written: the unit flag is set
        before the busy check, so a refused call switches the unit of the
        read already running. */
    method ReadAsyncAsWritten(numScan: nat, uv: bool) returns (r: Rslt)
      requires Valid()
      modifies this
      ensures r == if old(asyncActive) || !old(dcCalibrated) then AdcBusy else Success
      ensures r == AdcBusy ==> asyncInUv == uv && ScanState() == old(ScanState()) && written == old(written)
    {
      asyncInUv := uv;
      r := StartAsyncRead(numScan);
    }

    /** cyhal_adc_read_async / read_async_uv: the unit flag is taken only by
        an accepted read. */
    method ReadAsync(numScan: nat, uv: bool) returns (r: Rslt)
      requires Valid()
      modifies this
      ensures r == if old(asyncActive) || !old(dcCalibrated) then AdcBusy else Success
      ensures r != Success ==> unchanged(this)
      ensures r == Success ==>
        Valid() && asyncInUv == uv && ScanState() == StartScan(old(Readiness()), numScan) && written == []
    {
      r := StartAsyncRead(numScan);
      if r == Success {
        asyncInUv := uv;
      }
    }

    /** The conversion part of _cyhal_adcmic_get_result (DC mode, no
        calibration running): report end of scan, and while scans remain
        store the result, then move on; after the last scan report
        completion. */
    method Convert(counts: int, microvolts: int, ghost ready: seq<bool>) returns (delivered: seq<Delivery>)
      requires Valid() && ready == Readiness() && NextSlotHeld()
      modifies this
      ensures Valid() && conversionComplete
      ensures old(asyncScansRemaining) == 0 ==>
        ScanState() == old(ScanState()) && written == old(written)
        && delivered == Notify(callbacks, Eos) && regs == old(regs).(cicIntr := false)
      ensures old(asyncScansRemaining) > 0 ==>
        ScanState() == ConvertStep(ready, old(ScanState()))
        && written == old(written) + [if asyncInUv then microvolts else counts]
        && visited == old(visited) + [old(currentChannelIndex)]
        && delivered == Notify(callbacks, Eos) + (if asyncScansRemaining == 0 then Notify(callbacks, AsyncReadComplete) else [])
      ensures old(asyncScansRemaining) > 0 && asyncScansRemaining > 0 ==>
        regs == old(regs).(converting := true, cicIntr := true, dcChannel := channelConfig[currentChannelIndex].channelSel)
      ensures old(asyncScansRemaining) > 0 && asyncScansRemaining == 0 ==>
        regs == old(regs).(converting := false, cicIntr := false)
      ensures dcCalibrated == old(dcCalibrated) && dcCalibrationStarted == old(dcCalibrationStarted)
      ensures callbacks == old(callbacks) && asyncInUv == old(asyncInUv)
      ensures usingAudio == old(usingAudio)
    {
      conversionComplete := true;
      regs := regs.(cicIntr := false);
      delivered := Notify(callbacks, Eos);
      if asyncScansRemaining > 0 {
        written := written + [if asyncInUv then microvolts else counts];
        visited := visited + [currentChannelIndex];
        var done := Step(ready);
        if done {
          delivered := delivered + Notify(callbacks, AsyncReadComplete);
        }
      }
    }

    /** Lines 227-258 after the store: stop, move to the next enabled slot,
        count off a scan when the index wrapped, and start the next
        conversion or detach the buffer. */
    method Step(ghost ready: seq<bool>) returns (done: bool)
      requires Valid() && ready == Readiness() && asyncScansRemaining > 0 && NextSlotHeld()
      modifies this
      ensures Valid() && ScanState() == ConvertStep(ready, old(ScanState()))
      ensures done <==> asyncScansRemaining == 0
      ensures !done ==>
        regs == old(regs).(converting := true, cicIntr := true, dcChannel := channelConfig[currentChannelIndex].channelSel)
      ensures done ==> regs == old(regs).(converting := false)
      ensures dcCalibrated == old(dcCalibrated) && dcCalibrationStarted == old(dcCalibrationStarted)
      ensures callbacks == old(callbacks) && asyncInUv == old(asyncInUv)
      ensures usingAudio == old(usingAudio) && written == old(written) && visited == old(visited)
      ensures conversionComplete == old(conversionComplete)
    {
      var next, remaining := Locate(ready);
      done := remaining == 0;
      currentChannelIndex := next;
      asyncScansRemaining := remaining;
      if !done {
        regs := regs.(converting := true, cicIntr := true, dcChannel := channelConfig[next].channelSel);
      } else {
        asyncActive := false;
        regs := regs.(converting := false);
      }
    }

    /** The next enabled slot after the current one (the slot after it when
        none is enabled) and the scans left once the index moved on (one
        fewer when it did not increase). */
    method Locate(ghost ready: seq<bool>) returns (next: nat, remaining: nat)
      requires Valid() && ready == Readiness() && asyncScansRemaining > 0
      ensures next < ChannelCount
      ensures Scan(asyncActive && remaining != 0, remaining, next) == ConvertStep(ready, ScanState())
    {
      next := FindNextChannel((currentChannelIndex + 1) % ChannelCount);
      remaining := if currentChannelIndex >= next then asyncScansRemaining - 1 else asyncScansRemaining;
    }

    /** The calibration part of _cyhal_adcmic_get_result: store the result
        as the DC offset, set the fixed gain, leave calibration mode and
        mark the ADC calibrated. */
    method FinishCalibration(calibrationResult: int)
      modifies this
      ensures dcCalibrated && !dcCalibrationStarted && calibOffset == calibrationResult
      ensures regs == old(regs).(dcOffset := calibrationResult, dcGain := DcCalibrationGain,
                                 calibrating := false, converting := false, cicIntr := false)
      ensures ScanState() == old(ScanState()) && written == old(written) && callbacks == old(callbacks)
      ensures usingAudio == old(usingAudio) && conversionComplete == old(conversionComplete)
    {
      calibOffset := calibrationResult;
      regs := regs.(dcOffset := calibOffset, dcGain := DcCalibrationGain,
                    calibrating := false, converting := false, cicIntr := false);
      dcCalibrated := true;
      dcCalibrationStarted := false;
    }

    /** cyhal_adc_register_callback */
    method RegisterCallback(cb: Option<nat>, arg: int)
      modifies this
      ensures callbacks == old(callbacks).(callback := cb, arg := arg)
      ensures ScanState() == old(ScanState()) && regs == old(regs) && Phase() == old(Phase())
    {
      callbacks := callbacks.(callback := cb, arg := arg);
    }

    /** cyhal_adc_enable_event: add or remove the events; in audio mode the
        ADC_READY interrupt and the ADC follow the request, which signals
        the PDM-PCM block. */
    method EnableEvent(events: set<Event>, enable: bool)
      modifies this
      ensures callbacks.events == if enable then old(callbacks.events) + events else old(callbacks.events) - events
      ensures callbacks.callback == old(callbacks.callback) && callbacks.arg == old(callbacks.arg)
      ensures regs == if usingAudio then old(regs).(readyIntr := enable, adcOn := enable) else old(regs)
      ensures usingAudio == old(usingAudio) && ScanState() == old(ScanState()) && Phase() == old(Phase())
    {
      if enable {
        callbacks := callbacks.(events := callbacks.events + events);
      } else {
        callbacks := callbacks.(events := callbacks.events - events);
      }
      if usingAudio {
        regs := regs.(readyIntr := enable, adcOn := enable);
      }
    }
  }

  /** Changing only the fields of the ADC object keeps the readiness of
      its slots. */
  twostate lemma SlotsKept(a: Adc)
    requires unchanged(a.channelConfig) && unchanged(old(a.Slots()))
    ensures a.Slots() == old(a.Slots()) && a.Readiness() == old(a.Readiness())
  {
  }

  /** _cyhal_adcmic_calibrate, the ADC_READY handler, on the registered
      object: in audio mode report end of scan and turn the interrupt off;
      in DC mode run the next calibration phase. */
  method Calibrate(obj: Adc?) returns (delivered: seq<Delivery>)
    modifies obj
    ensures obj == null ==> delivered == []
    ensures obj != null && obj.usingAudio ==>
      delivered == Notify(obj.callbacks, Eos) && obj.regs == old(obj.regs).(readyIntr := false)
      && obj.Phase() == old(obj.Phase())
    ensures obj != null && !obj.usingAudio ==>
      delivered == [] && obj.Phase() == AfterReady(old(obj.Phase()))
    ensures obj != null && !obj.usingAudio && old(obj.Phase()) == Uncalibrated ==>
      obj.regs == old(obj.regs).(calibrating := true, timerOn := true)
    ensures obj != null && !obj.usingAudio && old(obj.Phase()) == CalibrationStarted ==>
      obj.regs == old(obj.regs).(converting := true, timerOn := false, readyIntr := false, cicIntr := true)
    ensures obj != null && !obj.usingAudio && old(obj.Phase()) == Calibrated ==>
      obj.regs == old(obj.regs)
    ensures obj != null ==>
      obj.usingAudio == old(obj.usingAudio) && obj.ScanState() == old(obj.ScanState())
      && obj.callbacks == old(obj.callbacks) && obj.written == old(obj.written)
  {
    delivered := [];
    if obj != null {
      if obj.usingAudio {
        delivered := Notify(obj.callbacks, Eos);
        obj.regs := obj.regs.(readyIntr := false);
      } else if !obj.dcCalibrated {
        if !obj.dcCalibrationStarted {
          // DisableTimer, then InitiateDcCalibration (which enables it).
          obj.regs := obj.regs.(calibrating := true, timerOn := true);
          obj.dcCalibrationStarted := true;
        } else {
          obj.regs := obj.regs.(converting := true, timerOn := false, readyIntr := false, cicIntr := true);
        }
      }
    }
  }

  /** _cyhal_adcmic_get_result, the CIC handler, on the registered object:
      finish a running calibration, or (in DC mode) handle a conversion. */
  method GetResult(obj: Adc?, calibrationResult: int, counts: int, microvolts: int)
    returns (delivered: seq<Delivery>)
    requires obj != null ==> obj.Valid() && obj.NextSlotHeld()
    modifies obj
    ensures obj == null ==> delivered == []
    ensures obj != null ==> obj.Valid() && obj.Phase() == AfterCic(old(obj.Phase()))
    ensures obj != null && old(obj.Phase()) == CalibrationStarted ==>
      delivered == [] && obj.calibOffset == calibrationResult && obj.ScanState() == old(obj.ScanState())
    ensures obj != null && old(obj.Phase()) != CalibrationStarted && obj.usingAudio ==>
      delivered == [] && obj.ScanState() == old(obj.ScanState())
    ensures obj != null && old(obj.Phase()) != CalibrationStarted && !obj.usingAudio ==>
      obj.conversionComplete
      && (old(obj.asyncScansRemaining) == 0 ==> obj.ScanState() == old(obj.ScanState()))
      && (old(obj.asyncScansRemaining) > 0 ==>
            obj.ScanState() == ConvertStep(old(obj.Readiness()), old(obj.ScanState()))
            && obj.written == old(obj.written) + [if obj.asyncInUv then microvolts else counts])
    ensures obj != null && old(obj.Phase()) != CalibrationStarted && !obj.usingAudio ==>
      delivered == Notify(obj.callbacks, Eos)
                   + (if old(obj.asyncScansRemaining) > 0 && obj.asyncScansRemaining == 0
                      then Notify(obj.callbacks, AsyncReadComplete) else [])
    ensures obj != null && (old(obj.Phase()) == CalibrationStarted || obj.usingAudio) ==> obj.written == old(obj.written)
    ensures obj != null ==> obj.usingAudio == old(obj.usingAudio) && obj.callbacks == old(obj.callbacks)
  {
    delivered := [];
    if obj != null {
      if !obj.dcCalibrated && obj.dcCalibrationStarted {
        obj.FinishCalibration(calibrationResult);
      } else if !obj.usingAudio {
        delivered := obj.Convert(counts, microvolts, obj.Readiness());
      }
    }
  }
}
