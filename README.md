# A verified model of the mtb-hal-cat5 hardware abstraction layer core

The hardware abstraction layer (HAL) for the CYW55xxx Bluetooth chips puts a C API over ROM and PDL routines. Those routines are the `btss_*`, `Cy_*`, `sdiod_*`, `rtc_*Time` and `clock_auxTimer*` calls, whose code is not part of this model. Around those calls the HAL keeps its own bookkeeping. This project models that bookkeeping in Dafny and proves properties of it:

- the RTC calendar: month lengths, Zeller's day of the week with C's truncating `%`, relative daylight-saving days, and the packed DST test;
- the RTC state machine;
- the power-management callback chain: two singly linked lists, push-front registration, unlink, ordered dispatch with backtracking, and the deep-sleep lock counter;
- the GPIO callback buckets and the two pad maps that must stay inverse, plus the pad-configuration macros;
- the per-driver validation and the small asynchronous state machines of DMA, ADC, PDM/PCM, the T2 timer, the clocks, the comparator and SDIO;
- the IRQ status table, the trigger encoding and the hardware-manager offset tables;
- the interrupt dispatcher the ADC and the comparators share.

Conventions used throughout:

- **ROM, PDL and register calls** are not modelled. Their answers are parameters of the methods that make them.
- **Interrupt handlers and power-management callbacks** are ordinary method calls, run one at a time.
- **C bitmasks** are sets of their bits whenever only membership matters. Where the bit arithmetic itself is the point (pad configuration, triggers, packed DST times), they are integers with explicit 8-, 16- and 32-bit truncation.
- **The hardware manager** (`cyhal_hwmgr_reserve`/`cyhal_hwmgr_free`) is an abstract set of reserved instances. Whether a reservation succeeds is an input.
- **Drivers updated in place** are classes with `modifies` clauses: the RTC, the syspm lists, the GPIO tables, DMA channels, the ADC, comparators, the PDM/PCM converter and the SDIO device. Their methods are proved against specification functions.
- **Lookup tables** (pin maps, rate tables, block offsets) are transcribed from their C definitions. This includes the zero-filled entries at the end of arrays that are declared longer than their initialisers.

Files and modules: `results.dfy`, `options.dfy` and `ctypes.dfy` hold result codes, an option type and C integer helpers. `resources.dfy`, `hwmgr.dfy` and `hwmgr_layout.dfy` model resource instances and the hardware-manager tables. The remaining files (`triggers.dfy`, `irq.dfy`, `t2timer.dfy`, `timer_impl.dfy`, `clock_types.dfy`, `clock.dfy`, `utils_impl.dfy`, `utils_inline.dfy`, `pins.dfy`, `gpio_cfg.dfy`, `gpio.dfy`, `rtc_calendar.dfy`, `rtc.dfy`, `syspm_chain.dfy`, `syspm.dfy`, `dma.dfy`, `adc_mic.dfy`, `comp.dfy`, `analog_common.dfy`, `pdmpcm.dfy`, `sdio.dfy`) follow the source files of the same names.

Where the code has an evident defect (see "## Findings"), the model keeps an as-written member that exhibits it beside the corrected member that the rest of the model uses.

Notes on the model:

- The ADC, the comparator and SDIO are disabled in this build (`include_pvt/cyhal_hw_resources.h`, lines 82-88 and 111). Their drivers are modelled anyway, because their logic is self-contained.
- `cyhal_resource_t` has no LPCOMP member, so comparator reservations are kept in the comparator table (`Comp.Table`) rather than in the hardware manager.
- `_cyhal_utils_disconnect_and_free` is documented in `include_pvt/cyhal_utils_impl.h` as disconnecting the pin. Its code (`source/cyhal_utils_impl.c:203-207`) only frees it, and the model follows the code.
- Some constants are defined in headers that are not part of this model. The model assumes these values for them:
  - the syspm state and mode bits;
  - the timer event bits;
  - one ADCMIC instance and two LPCOMP instances;
  - CIC end-of-sample = 1 and ASYNC_READ_COMPLETE = 2;
  - BTSS function-group bases 0, 8 and 16.
- The TCPWM maximum frequency is a parameter.
- The PDM/PCM events are a set of named events.

## Model

| member | source | states |
|---|---|---|
| HwMgrLayout.ChannelCount | source/cyhal_hwmgr_impl_part.h:39-48 | every channel-based type (DMA 8, GPIO 49+4, TCPWM 9, TDM 2) has a positive channel count |
| HwMgrLayout.Size | source/cyhal_hwmgr_impl_part.h:64-83 | CY_SIZE_* is positive for every resource type: the channel count for channel types, else the block count |
| HwMgrLayout.ResourceOffset | source/cyhal_hwmgr_impl_part.h:117-151 | the table entry of a type is that type's offset in the CY_OFFSET_* chain, and its whole range of bits lies inside CY_TOTAL_ALLOCATABLE_ITEMS |
| HwMgrLayout.OffsetRangeInside | source/cyhal_hwmgr_impl_part.h:64-85 | each type's range [offset, offset + size) ends at or before the total item count |
| HwMgrLayout.OffsetsIncrease | source/cyhal_hwmgr_impl_part.h:64-83 | offsets strictly increase in enum order, and each range ends at or before every later offset |
| HwMgrLayout.RangesDisjoint | source/cyhal_hwmgr_impl_part.h:52-85 | two different resource types never share a bit of the bookkeeping bitmaps |
| HwMgrLayout.TotalAndBitmap | source/cyhal_hwmgr_impl_part.h:64-129 | the offsets are 0,1,8,16,69,70,71,74,83,85; there are 87 items; cyhal_used has 11 bytes, which is enough bits for every item |
| HwMgrLayout.UsesChannels | source/cyhal_hwmgr_impl_part.h:133-146 | the cyhal_has_channels bit test holds exactly for the types that have a channel count (DMA, GPIO, TCPWM, TDM) |
| HwMgrLayout.BlockOffsetLength | source/cyhal_hwmgr_impl_part.h:93-187 | the length is the size of the type's block-offset array; it is non-zero exactly for the channel types, where it is the block count plus one |
| HwMgrLayout.BlockOffsetsShape | source/cyhal_hwmgr_impl_part.h:93-112 | every block-offset array is non-decreasing and ends at the type's channel count; only TCPWM's does not start at 0 |
| Triggers.DecodeCreate | include_pvt/cyhal_triggers.h:76-80 | GET_SOURCE_SIGNAL and GET_SOURCE_TYPE of CREATE_SOURCE(src, type) give back src and type, as long as src's top bit is clear |
| Triggers.CreateDecode | include_pvt/cyhal_triggers.h:76-80 | every 32-bit encoded source is the encoding of its own signal and type |
| Triggers.SourceNamesAlias | include_pvt/cyhal_triggers.h:50-60 | two different source names have the same value, so a source value does not determine its name |
| Triggers.CanConnectSignal | include_pvt/cyhal_triggers.h:105-111 | every source/destination pair can be connected |
| Triggers.ConnectSignal | include_pvt/cyhal_triggers.h:113-119 | connecting always reports success |
| Triggers.DisconnectSignal | include_pvt/cyhal_triggers.h:121-127 | disconnecting always reports success |
| Irq.Slot | source/cyhal_irq_impl.c:34-85 | each of the seven known interrupts has a slot inside the 9-entry status table |
| Irq.SlotsDistinct | source/cyhal_irq_impl.c:50-79 | different known interrupts use different slots, so a write for one leaves every other one's status as it was |
| Irq.Register | include_pvt/cyhal_irq_impl.h:37-43 | registration always succeeds |
| Irq.GetPriority | include_pvt/cyhal_irq_impl.h:51-55 | the reported priority is always 0 |
| Irq.GetActive | include_pvt/cyhal_irq_impl.h:84-87 | the reported active interrupt is always 0 |
| Irq.IrqTable.constructor | source/cyhal_irq_impl.c:44 | no line starts out enabled |
| Irq.IrqTable.State | source/cyhal_irq_impl.c:46-85 | with write set, the line's slot takes `enable` and the result is that value; without write the table does not change; an unknown line returns false and changes nothing; the result is always the line's stored status |
| Irq.IrqTable.Enable | include_pvt/cyhal_irq_impl.h:62-65 | a known line becomes enabled and no other line changes |
| Irq.IrqTable.Disable | include_pvt/cyhal_irq_impl.h:67-70 | the line reads as disabled afterwards and no other line changes |
| Irq.IrqTable.Free | include_pvt/cyhal_irq_impl.h:72-77 | the two ganged TCPWM lines keep their status; every other line ends disabled; no other line changes |
| Irq.IrqTable.IsEnabled | include_pvt/cyhal_irq_impl.h:79-82 | the query returns the stored status and never changes the table |
| Irq.EnableThenQuery | include_pvt/cyhal_irq_impl.h:62-82 | enable followed by is_enabled reports a known line as enabled; after disable it reports it as disabled |
| TimerImpl.ConvertEvent | include_pvt/cyhal_timer_impl.h:51-63 | INT_ON_TC is set iff TERMINAL_COUNT is, INT_ON_CC iff CAPTURE_COMPARE is, no other bit is set, and the mask is 0 when neither event is asked for |
| TimerImpl.ConvertEventUnion | include_pvt/cyhal_timer_impl.h:51-63 | converting a union of events is the union of the conversions |
| TimerImpl.Timer.Free | include_pvt/cyhal_timer_impl.h:37-47 | a T2 timer is freed through the T2 timer driver (its slot released when it was reserved), and nothing is forwarded to TCPWM; otherwise exactly one TCPWM free is forwarded |
| TimerImpl.Timer.RegisterCallback | include_pvt/cyhal_timer_impl.h:65-75 | a T2 timer gets the callback through the T2 timer driver; otherwise the T2 state is untouched and exactly one TCPWM registration is forwarded |
| TimerImpl.Timer.EnableEvent | include_pvt/cyhal_timer_impl.h:79-86 | nothing happens for a T2 timer; for a TCPWM counter, one enable_event is forwarded carrying the converted mask |
| T2Timer.InitCallbackAsWritten | source/cyhal_t2timer.c:145 | with a configuration, init as written stores the address of the configuration's callback field, which is never the configured handler |
| T2Timer.InitCallbackIntended | source/cyhal_t2timer.c:132-161 | the corrected init stores the configured handler itself |
| T2Timer.Configured | source/cyhal_t2timer.c:170-187 | mode, counter mode and duration come from the configuration; the timer is 32-bit exactly when the duration is at least 0xFFFF; the other settings are kept |
| T2Timer.ToHalReturn | source/cyhal_t2timer.c:39-47 | the HAL result is success exactly when the ROM reports success, and the T2 timer error otherwise |
| T2Timer.Scaled | source/cyhal_t2timer.c:267-282 | divisor 1 keeps the remaining time; divisors 16 and 256 multiply it by 16 and 256 whenever the product fits in 32 bits |
| T2Timer.Timer.constructor | source/cyhal_t2timer.c:49-59 | a new timer object names AUX_1, has no callback and no resource |
| T2Timer.Timer.RegisterCallback | source/cyhal_t2timer.c:75-80 | the interrupt is enabled and the callback and argument are stored; nothing else changes |
| T2Timer.Timer.Configure | source/cyhal_t2timer.c:170-187 | always succeeds, and the new settings are those Configured derives |
| T2Timer.Slots.constructor | source/cyhal_t2timer.c:61 | both auxiliary timers start free |
| T2Timer.Slots.Choice | source/cyhal_t2timer.c:101-130 | init takes AUX_1 iff it is free, AUX_2 iff only AUX_1 is held, and nothing when both are held |
| T2Timer.Slots.Init | source/cyhal_t2timer.c:94-168 | with both timers held, ERR_INIT and nothing changes; otherwise the chosen timer becomes reserved (and no other), the object names it, and it gets the default settings and callback, or the configuration's settings, callback and argument |
| T2Timer.Slots.Free | source/cyhal_t2timer.c:82-92 | an unreserved timer changes nothing; a reserved one is marked free and its resource is returned to the hardware manager |
| T2Timer.Slots.Start | source/cyhal_t2timer.c:223-234 | an unreserved timer gives BAD_ARGUMENT; otherwise the ROM start outcome is translated |
| T2Timer.Slots.Stop | source/cyhal_t2timer.c:236-245 | an unreserved timer gives BAD_ARGUMENT; otherwise the ROM stop outcome is translated |
| T2Timer.Slots.Read | source/cyhal_t2timer.c:260-283 | an unreserved timer yields the BAD_ARGUMENT code; otherwise the ROM's remaining time is scaled by the divisor |
| T2Timer.InitTwiceThenFail | source/cyhal_t2timer.c:94-168 | from two free timers, two inits succeed with AUX_1 and then AUX_2, and a third fails with ERR_INIT |
| ClockTypes.ClockObj.constructor | source/cyhal_clock.c:57-65 | a created clock names its block, channel 0, and is not reserved |
| Clock.GetFeatures | source/cyhal_clock.c:117-139 | the TCPWM clock (only) has a divider; the SCB, TDM and CPU clocks (only) have a settable frequency; the ADCMIC clock has neither |
| Clock.IsEnabled | source/cyhal_clock.c:141-146 | every clock reports itself enabled |
| Clock.SetEnabled | source/cyhal_clock.c:148-166 | success exactly for the SCB, TCPWM and TDM clocks, ERR_RESOURCE for every other block |
| Clock.IsDividerValid | source/cyhal_clock.c:168-178 | a divider is valid exactly for an SCB resource and a divider of at most 128 |
| Clock.CpuHz | source/cyhal_clock.c:200-222 | each CPU clock setting has a positive frequency |
| Clock.CpuClkOfHz | source/cyhal_clock.c:265-290 | a frequency has a CPU setting exactly when it is one of 24, 32, 48, 96 and 192 MHz |
| Clock.CpuClkBijection | source/cyhal_clock.c:200-290 | the frequency switch in get_frequency and the one in set_frequency are inverse to each other |
| Clock.GetSources | source/cyhal_clock.c:316-362 | each of the seven blocks has exactly one source, its own clock resource; any other block has none and reports ERR_SOURCE |
| Clock.SetSource | source/cyhal_clock.c:364-370 | changing a clock's source is never supported |
| Clock.ClockDriver.constructor | source/cyhal_clock.c:181 | the audio PLL starts at 0 and no ROM request has been made |
| Clock.ClockDriver.GetFrequency | source/cyhal_clock.c:183-230 | the SCB and TCPWM clocks report their stored frequency, TDM the remembered PLL frequency, the CPU the frequency of the ROM's setting (0 for an unknown one), every other block 0 |
| Clock.ClockDriver.SetFrequency | source/cyhal_clock.c:232-300 | SCB: success, and the divider and frequency the PDL gave are stored; TDM: success iff the lock (after an unlock when the PLL was running) succeeds, the PLL is remembered at hz or 0, and the ROM requests are listed in order; CPU: ERR_FREQ with no request for an unsupported frequency, otherwise release then request, success iff both succeed; any other block ERR_RESOURCE with nothing changed |
| Clock.ClockDriver.SetDivider | source/cyhal_clock.c:302-314 | only the TCPWM clock accepts a divider: success exactly for the supported ratios (a divider of 0 wraps and is refused), and a success stores the divider and the divided maximum frequency; every other block ERR_RESOURCE with nothing changed |
| Clock.ClockDriver.SetThenGetTdm | source/cyhal_clock.c:183-264 | reading the TDM clock after setting it gives the requested frequency after a success and 0 after a failure |
| Clock.ClockDriver.SetDividerThenGet | source/cyhal_clock.c:183-314 | after setting the TCPWM divider, the frequency read back is the TCPWM maximum divided by the divider, and the call succeeds exactly for the supported dividers |
| Clock.Allocate | source/cyhal_clock.c:72-87 | the result is the hardware manager's; on success the block's clock resource is reserved and the clock is that block, channel 0, reserved; on failure nothing changes |
| Clock.Get | source/cyhal_clock.c:89-100 | always succeeds and gives an unreserved handle on the resource's block and channel |
| Clock.Reserve | source/cyhal_clock.c:102-115 | the result is the hardware manager's; on success the source's resource is reserved and the copy is marked reserved; on failure nothing changes |
| Clock.Free | source/cyhal_clock.c:372-378 | the clock's resource is released and the handle is no longer reserved |
| Clock.AllocateThenFree | source/cyhal_clock.c:72-378 | allocating an unreserved clock and freeing it leaves the hardware manager's reservations as they were |
| UtilsImpl.PeripheralClockFrequency | source/cyhal_utils_impl.c:47-55 | the SCB clock maximum for SCB items, the TCPWM maximum for TCPWM items, 0 for anything else |
| UtilsImpl.DedicatedClock | source/cyhal_utils_impl.c:57-87 | exactly the SCB, TCPWM and TDM items have a clock block; TCPWM and TDM get their own block, and SCB 0-2 get an SCB clock block |
| UtilsImpl.ScbClocksDedicated | source/cyhal_utils_impl.c:65-72 | SCB n gets a clock block other than the TCPWM one, and that block leads back to SCB n (so SCB2's off-by-one block is its own) |
| UtilsImpl.AllocateClock | source/cyhal_utils_impl.c:57-87 | a clocked item gets its dedicated clock block and the clock is marked reserved; any other item gives status 1 and leaves the clock unchanged |
| UtilsImpl.DividerSelector | source/cyhal_utils_impl.c:99-121 | a selector exists exactly for the ratios 1, 2, 4, 6, 8, 10, 12, 16 and 32; 16 and 32 get their named selectors and the small ratios a selector from 1 to 6 |
| UtilsImpl.SmallSelectors | source/cyhal_utils_impl.c:103-110 | an even small ratio gets selector ratio/2, and ratio 1 gets the same selector as ratio 2 |
| UtilsImpl.PeriClocks.constructor | source/cyhal_utils_impl.c:44-45 | every clock block starts with divider 0 and frequency 0 |
| UtilsImpl.PeriClocks.SetDivider | source/cyhal_utils_impl.c:89-133 | only the TCPWM clock acts: a supported ratio (div + 1, wrapping) stores that ratio with the TCPWM maximum divided by it and hands its selector to the PDL; an unsupported one gives status 1 and changes nothing; other blocks succeed and change nothing |
| UtilsImpl.PeriClocks.SetFreq | source/cyhal_utils_impl.c:135-160 | for the three SCB clocks the PDL is asked for freq * oversample (wrapping) and its answer is stored with the divider SCB maximum / answer; other blocks give status 1, ask nothing and change nothing |
| UtilsImpl.PeriClocks.GetFreq | source/cyhal_utils_impl.c:162-166 | the last frequency stored for the clock's block |
| UtilsImpl.GetGpioResource | source/cyhal_utils_impl.c:168-184 | pins below DIRECT_BASE are channels of GPIO block 0 numbered by pin; the others are channels of block 1 counted from DIRECT_BASE |
| UtilsImpl.GpioResourceRoundTrip | source/cyhal_utils_impl.c:168-184 | the pin can be recovered from its resource, so different pins never share a reservation |
| UtilsImpl.DirectPinsBeyondBlock | source/cyhal_utils_impl.c:177-181 | pins DIRECT_BASE+4 to DIRECT_BASE+6 get channels of block 1 beyond the four the hardware manager gives that block |
| UtilsImpl.ReserveAndConnect | source/cyhal_utils_impl.c:186-201 | a refused reservation is reported and changes nothing; otherwise the connection's result is reported, and a failed connection gives the reservation back |
| UtilsImpl.DisconnectAndFree | source/cyhal_utils_impl.c:203-207 | the pin's resource is released |
| UtilsInline.ShiftOne | include_pvt/cyhal_utils_impl.h:97-100 | `1 << frac_bits` is a positive 32-bit value for every shift the signed expression allows |
| UtilsInline.DividerValue | include_pvt/cyhal_utils_impl.h:86-100 | when the scaled clock plus half the frequency does not wrap, the divider is (pclk * 2^frac_bits + frequency/2) / frequency |
| UtilsInline.RoundedDivU32 | include_pvt/cyhal_utils_impl.h:97-100 | the wrapping expression equals the exact rounded quotient whenever the sum stays below 2^32 |
| UtilsInline.DividerValueNearest | include_pvt/cyhal_utils_impl.h:86-100 | without wrap-around the divider gives the frequency closest to the one requested: no other divider k gets k * frequency nearer to the scaled clock |
| UtilsInline.RoundedQuotientNearest | include_pvt/cyhal_utils_impl.h:97-100 | (x + f/2) / f is a nearest integer multiple of f to x |
| UtilsInline.ConvertHalToPdlPmMode | include_pvt/cyhal_utils_impl.h:107-110 | the mode value is passed through unchanged |
| UtilsInline.SetClockFrequency | include_pvt/cyhal_utils_impl.h:134-137 | the call behaves as the clock driver's set_frequency: SCB clocks succeed, the TDM PLL is remembered at hz or 0, an unsupported CPU frequency is ERR_FREQ, other blocks ERR_RESOURCE |
| UtilsInline.AssignDivider | include_pvt/cyhal_utils_impl.h:143-149 | always succeeds: the dividers are dedicated |
| UtilsInline.EnableDivider | include_pvt/cyhal_utils_impl.h:150-156 | always succeeds: the dividers cannot be switched |
| UtilsInline.DisableDivider | include_pvt/cyhal_utils_impl.h:157-163 | always succeeds: the dividers cannot be switched |
| Pins.FindPin | source/cyhal_pin_package.c:33-44 | the index found is the first entry of the table for the pin, and none is found exactly when no entry (zero-filled tail entries included) is for the pin |
| Pins.Lookup | source/cyhal_pin_package.c:33-44 | a mapping is found only for a connected pin and is an entry of the table for that pin; none is found exactly for NC or a pin the table lacks |
| Pins.AdcInZeroEntryMatchesBtGpio0 | source/cyhal_pin_package.c:33-44 | the zero-filled eighth entry of the ADC input table is the first adc_in entry for BT_GPIO_0 |
| GpioCfg.CfgSet | include_pvt/cyhal_gpio_impl.h:45 | the mask bits end up set and every other bit keeps its value |
| GpioCfg.CfgClr | include_pvt/cyhal_gpio_impl.h:46 | the mask bits end up clear, the other low-byte bits keep their value, and the uint8_t cast drops every bit above the low byte |
| GpioCfg.CfgKeepsWord | include_pvt/cyhal_gpio_impl.h:45-46 | both macros turn a 32-bit word into a 32-bit word |
| GpioCfg.CfgSetIdempotent | include_pvt/cyhal_gpio_impl.h:45 | applying CFG_SET twice is the same as applying it once |
| GpioCfg.CfgClrIdempotent | include_pvt/cyhal_gpio_impl.h:46 | applying CFG_CLR twice is the same as applying it once |
| GpioCfg.InputEnable | include_pvt/cyhal_gpio_impl.h:51 | the input-disable bits end up clear |
| GpioCfg.InputDisable | include_pvt/cyhal_gpio_impl.h:52 | the input-disable bits end up set |
| GpioCfg.OutputEnable | include_pvt/cyhal_gpio_impl.h:53-59 | in both build variants the resulting configuration drives its output |
| GpioCfg.OutputDisable | include_pvt/cyhal_gpio_impl.h:53-59 | in both build variants the resulting configuration does not drive its output (when the variant's mask is not empty) |
| GpioCfg.InputPairOpposite | include_pvt/cyhal_gpio_impl.h:51-52 | INPUT_ENABLE after INPUT_DISABLE clears the bit, the reverse order sets it, and the two always disagree on it |
| GpioCfg.OutputPairOpposite | include_pvt/cyhal_gpio_impl.h:53-59 | in each build variant the last of OUTPUT_ENABLE and OUTPUT_DISABLE decides whether the output is driven |
| GpioCfg.HysteresisOn | include_pvt/cyhal_gpio_impl.h:60 | the hysteresis bits end up set |
| GpioCfg.HysteresisOff | include_pvt/cyhal_gpio_impl.h:61 | the hysteresis bits end up clear |
| GpioCfg.PullUp | include_pvt/cyhal_gpio_impl.h:63 | the pull-up bits end up set and no other bit changes |
| GpioCfg.PullDown | include_pvt/cyhal_gpio_impl.h:64 | the pull-down bits end up set and no other bit changes |
| GpioCfg.DriveSel | include_pvt/cyhal_gpio_impl.h:65-72 | the chosen strength's bits end up set and no other bit changes |
| GpioCfg.PullUpDownNoneAsWritten | include_pvt/cyhal_gpio_impl.h:46-62 | the macro as written clears the pull-up bits that are not also pull-down bits, and never clears the pull-down mask |
| GpioCfg.PullUpDownNoneKeepsPullDown | include_pvt/cyhal_gpio_impl.h:46-62 | as written, a configuration with pull-down enabled keeps pull-down enabled after PULL_UP_DOWN_NONE |
| GpioCfg.PullUpDownNone | include_pvt/cyhal_gpio_impl.h:62 | the intended macro clears both the pull-up and the pull-down bits |
| Gpio.ConvertFuncToBtss | source/cyhal_gpio.c:175-189 | the result is one of the 24 BTSS pins, and every function outside the three GPIO groups gives BTSS_GPIO_0 |
| Gpio.FuncOfBtss | source/cyhal_gpio.c:175-189 | every BTSS pin is driven by one of the 24 GPIO functions |
| Gpio.ConvertFuncToBtssBijective | source/cyhal_gpio.c:175-189 | the conversion is a bijection between the 24 GPIO functions and the 24 BTSS pins |
| Gpio.ConvertFuncGroups | source/cyhal_gpio.c:175-189 | FUNC_GPIO_k, FUNC_A_GPIO_k and FUNC_B_GPIO_k go to base + k of their BTSS group |
| Gpio.HwConfig | source/cyhal_gpio.c:272-311 | an input pin without pulls gets the all-zero configuration |
| Gpio.HwConfigClosedForm | source/cyhal_gpio.c:272-311 | the configuration is the union of the masks each step adds: output, hysteresis and 16 mA for non-input directions, input-disable for OUTPUT, and the pull masks of the drive mode |
| Gpio.HwConfigBits | source/cyhal_gpio.c:272-311 | for disjoint ROM masks: hysteresis and 16 mA drive exactly for non-input directions, which also drive the output; input-disable exactly for OUTPUT; pull-up and pull-down exactly as the drive mode asks |
| Gpio.GpioHw | source/cyhal_gpio.c:266-396 | a pin at or above BT_GPIO_LAST is BAD_PARAM with no ROM call; otherwise the configuration is written first, and success (iff the ROM accepted it and the function, when there is one) ends with setting direction and initial value |
| Gpio.EventTrigger | source/cyhal_gpio.c:812-860 | only RISE, FALL and BOTH have a BTSS trigger |
| Gpio.EnableEventCalls | source/cyhal_gpio.c:801-910 | a triggered event configures the trigger, sets the interrupt to `enable` and ends with the wake-up source call; any other event only turns the interrupt off |
| Gpio.InvalidEventIgnoresEnable | source/cyhal_gpio.c:801-910 | for NONE, HIGH and LOW the enable argument makes no difference and the interrupt is never turned on |
| Gpio.FirstMatch | source/cyhal_gpio.c:763-777 | the first registration in the list carrying the pin, or none when none carries it |
| Gpio.Without | source/cyhal_gpio.c:763-777 | unlinking one node keeps the others in order |
| Gpio.RegisteredReplaces | source/cyhal_gpio.c:755-799 | in a bucket holding only this pin's node, registering replaces the old node with the new one, and a null node leaves the bucket empty |
| Gpio.Matching | source/cyhal_gpio.c:402-415 | the handler makes at most one call per node, each with CYHAL_GPIO_IRQ_NONE |
| Gpio.Invocations | source/cyhal_gpio.c:402-415 | one invocation per node of the bucket |
| Gpio.MatchingTagged | source/cyhal_gpio.c:402-415 | in a bucket whose nodes all carry the pin, the handler calls every node's callback exactly once, in list order |
| Gpio.FirstFree | source/cyhal_gpio.c:500-514 | the entry init chooses is the first for the pin whose BTSS function has no pad yet |
| Gpio.LinkKeepsInverse | source/cyhal_gpio.c:509-511 | linking a free pad and a free BTSS pin keeps the two maps mutually inverse |
| Gpio.UnlinkKeepsInverse | source/cyhal_gpio.c:590-599 | unlinking a pad and its BTSS pin keeps the two maps mutually inverse |
| Gpio.Connect | source/cyhal_gpio.c:554-572 | the pin is connected first; success exactly when the connection succeeds, the direction is not BIDIRECTIONAL and the pad configuration succeeds, and then the BTSS interrupt is turned off last |
| Gpio.SwGpioPinZeroEntries | source/cyhal_pin_package.c:81-161 | the last entry of the BTSS table is zero-filled, and every entry for BT_GPIO_0 selects BTSS_GPIO_0 |
| Gpio.SwGpioPinsPositive | source/cyhal_pin_package.c:81-161 | only the first and last entries of the BTSS table are for BT_GPIO_0 |
| Gpio.SwGpioPinZeroBlocked | source/cyhal_gpio.c:500-514 | once BTSS_GPIO_0 has a pad, init finds no entry for BT_GPIO_0 |
| Gpio.FreshMapsInverse | source/cyhal_gpio.c:454-474 | all-unassigned maps are mutually inverse |
| Gpio.GpioState.constructor | source/cyhal_gpio.c:48-60 | the arrays are not yet initialised |
| Gpio.GpioState.SetBtssMap | include_pvt/cyhal_gpio_impl.h:111-112 | a GET after SET at the same pad returns the stored BTSS pin, and no other entry changes |
| Gpio.GpioState.SetBtssPadMap | include_pvt/cyhal_gpio_impl.h:113-114 | a GET after SET at the same BTSS pin returns the stored pad, and no other entry changes |
| Gpio.GpioState.ArraysInit | source/cyhal_gpio.c:454-474 | every bucket ends up empty and every entry of both maps unassigned |
| Gpio.GpioState.EnsureArrays | source/cyhal_gpio.c:483-487 | the arrays are initialised once, on first use, leaving mutually inverse maps; later calls change nothing |
| Gpio.GpioState.RegisterCallback | source/cyhal_gpio.c:755-799 | the pin's bucket loses its first node for the pin and gains the new node (its pin set) at the head; no other bucket changes; the BTSS interrupt handler of the pad is registered |
| Gpio.GpioState.IrqHandler | source/cyhal_gpio.c:402-415 | the callbacks of the nodes carrying the pin are made in list order, each with CYHAL_GPIO_IRQ_NONE; after init that is every node of the bucket, at most one |
| Gpio.GpioState.BtssIrqHandler | source/cyhal_gpio.c:421-425 | a BTSS interrupt runs the handler of the pad mapped to that BTSS pin |
| Gpio.GpioState.EnableEvent | source/cyhal_gpio.c:801-910 | the ROM calls are those of EnableEventCalls for the pad's BTSS pin, and no driver state changes |
| Gpio.GpioState.Free | source/cyhal_gpio.c:582-631 | NC changes nothing; otherwise the callback is unregistered, the pin disconnected, its BTSS interrupt turned off, both maps unlinked, the reservation released, and mutually inverse maps stay inverse |
| Gpio.GpioState.SelectEntry | source/cyhal_gpio.c:500-514 | the chosen entry is FirstFree's, linked in both maps; with none, the mapping stays all zero, the maps are unchanged, and the BTSS pin is that of the last entry visited; inverse maps stay inverse |
| Gpio.GpioState.InitAsWritten | source/cyhal_gpio.c:481-580 | as written: a failed reservation is returned and still frees the pin (releasing its resource and unlinking its pad); a pin at or above BT_GPIO_LAST is BAD_PARAM; BT_GPIO_0 with no selectable entry connects the all-zero entry and succeeds while its maps stay unlinked |
| Gpio.GpioState.InitReadyAsWritten | source/cyhal_gpio.c:489-580 | as InitAsWritten, once the arrays are initialised |
| Gpio.GpioState.Init | source/cyhal_gpio.c:481-580 | corrected init: a failed reservation is returned with nothing changed; success exactly when the pin is a BTSS pad with a selectable entry and connection and configuration succeed, and then the entry is linked in both maps, the reservations gain exactly the pin's resource and the ROM calls are connect, configure, interrupt off; a pin past the BTSS pads is BAD_PARAM and keeps its reservation; any later failure frees the pin; inverse maps stay inverse |
| Gpio.GpioState.InitReady | source/cyhal_gpio.c:489-580 | as Init, once the arrays are initialised |
| Gpio.GpioState.SearchAndConnectAsWritten | source/cyhal_gpio.c:500-572 | a selected entry is linked and connected; with none selected, BT_GPIO_0 still passes the `pinMap.pin == pin` test with the all-zero entry, every other pin is BAD_PARAM |
| Gpio.GpioState.SearchAndConnect | source/cyhal_gpio.c:500-572 | only a selected entry is connected and configured; with none selected the result is BAD_PARAM and the maps are unchanged |
| RtcCalendar.DaysInMonth | source/cyhal_rtc.c:534-543 | February has 29 days exactly in a Gregorian leap year and 28 otherwise; April, June, September and November have 30; every other month has 31 |
| RtcCalendar.MonthStartOfYearEnd | source/cyhal_rtc.c:534-543 | the twelve month lengths add up to 366 days in a leap year and 365 otherwise |
| RtcCalendar.CumulativeDaysTable | source/cyhal_rtc.c:322-334 | each cumulative_days entry, plus one from March on in a leap year, is the number of days of the year before the first of that month |
| RtcCalendar.YearDayAsWritten | source/cyhal_rtc.c:333-334 | the tm_yday the read computes is the days before the month plus the 1-based day of the month |
| RtcCalendar.YearDayAsWrittenOffByOne | source/cyhal_rtc.c:333-334 | as written, 1 January 2024 is day 1 and 31 December 2024 is day 366, outside the 0..365 range of tm_yday |
| RtcCalendar.YearDay | source/cyhal_rtc.c:333-334 | the corrected tm_yday counts the days since 1 January; for a calendar date it lies in 0 up to the length of the year |
| RtcCalendar.YearDayNext | source/cyhal_rtc.c:333-334 | from one calendar day to the next, the corrected day of the year goes up by one, or starts again at 0 on 1 January |
| RtcCalendar.DayOfWeekAsWritten | source/cyhal_rtc.c:583-588 | the day of the week as written is below 7 and is Zeller's sum moved by 6 modulo 7, even when C's truncating remainder sees a negative sum; January and February are not moved into the previous year |
| RtcCalendar.DayOfWeekAgreesFromMarch | source/cyhal_rtc.c:583-588 | from March to December, the formula as written and the corrected Zeller formula give the same day of the week |
| RtcCalendar.DayOfWeekAsWrittenRepeats | source/cyhal_rtc.c:583-588 | as written, 31 December 2023 and the day after it, 1 January 2024, both come out as Sunday |
| RtcCalendar.JanuaryFirstCorrected | source/cyhal_rtc.c:583-588 | the corrected formula gives Sunday for 31 December 2023 and Monday for 1 January 2024 |
| RtcCalendar.WeekdayNext | source/cyhal_rtc.c:583-588 | the corrected day of the week goes up by one modulo 7 from every calendar day to the next, across month and year ends |
| RtcCalendar.WeekdayAnchor | source/cyhal_rtc.c:583-588 | the corrected formula gives Friday for 1 January 2010; with WeekdayNext this fixes every later date |
| RtcCalendar.DayOfWeekInMonth | source/cyhal_rtc.c:583-588 | within a month, the day of the week of day d is that of day 1 moved forward by d - 1 |
| RtcCalendar.MatchesOnTarget | source/cyhal_rtc.c:567-575 | every day the month scan counts falls on the requested day of the week |
| RtcCalendar.MatchesComplete | source/cyhal_rtc.c:567-575 | if some day of the month falls on the requested day of the week, the scan counts at least one day |
| RtcCalendar.RelativeDay | source/cyhal_rtc.c:546-577 | the converted day of a relative DST date always lies between 1 and the length of its month |
| RtcCalendar.RelativeDayOnWeekday | source/cyhal_rtc.c:546-577 | for a day of the week from 0 to 6, the converted day falls on that day of the week |
| RtcCalendar.RelativeToFixed | source/cyhal_rtc.c:546-577 | the conversion returns the requested occurrence (from 0) of the day of the week in the month; with fewer occurrences it returns the last one, and with none it returns day 1 |
| RtcCalendar.ScanMonth | source/cyhal_rtc.c:561-576 | the loop stops at the requested occurrence or at the end of the month, and returns the occurrence RelativeDay names |
| RtcCalendar.PackPositional | source/cyhal_rtc.c:142-149 | for a day and an hour below 32, `(month << 10) \| (day << 5) \| hour` equals month * 1024 + day * 32 + hour |
| RtcCalendar.PackOrdered | source/cyhal_rtc.c:133-149 | for a day and an hour below 32, packed values compare exactly as the dates do, and are equal exactly for equal dates; a packed difference of 1 means the hour before on the same day |
| RtcCalendar.PackAsWrittenOverlaps | source/cyhal_rtc.c:512-517 | with the day shifted by 10, 1 April at noon packs to 3084, below 10242 for 10 March at two o'clock, which comes before it |
| RtcDriver.DstDay | source/cyhal_rtc.c:482-503 | a fixed DST date keeps its day of the month; a relative one becomes a day of its month that falls on its day of the week |
| RtcDriver.GetDstStatus | source/cyhal_rtc.c:471-532 | the DST status of a time, with the day packed at the transition check's shift: on exactly from the packed start up to, but not including, the packed step before the stop, with relative days taken in the time's year (in calendar terms: RtcDriver.GetDstStatusInCalendarTerms) |
| RtcDriver.GetDstStatusInCalendarTerms | source/cyhal_rtc.c:471-532 | with the packing corrected, DST is on exactly from the start time until the stop time, except for the last hour before the stop on the stop's day |
| RtcDriver.GetDstStatusAsWrittenMissesApril | source/cyhal_rtc.c:512-517 | for a rule from 10 March to 3 November, the status as written says 1 April at noon is not in DST; the corrected status says it is |
| RtcDriver.Decide | source/cyhal_rtc.c:151-191 | the hour moves by at most one; it moves forward only when the DST flag goes from clear to set, and back only when it goes from set to clear; otherwise the flag changes only when the last update came after the stop, and then it takes the current DST status |
| RtcDriver.Adjust | source/cyhal_rtc.c:190-197 | the adjustment changes only the hour, by the adjustment, whenever the result fits in 16 bits |
| RtcDriver.DstCheck | source/cyhal_rtc.c:99-187 | the decision of _cyhal_check_for_dst_transition for the current year's rule: the hour moves by at most one, forward only when the flag is set by it and back only when it is cleared by it |
| RtcDriver.DstCheckEnters | source/cyhal_rtc.c:163-181 | last checked before the start, now the hour after the start on the start's day, flag clear: the clock moves forward one hour and the flag is set |
| RtcDriver.DstCheckLeaves | source/cyhal_rtc.c:151-162 | last checked inside the DST period, now after its stop, flag set: the clock moves back one hour and the flag is cleared |
| RtcDriver.StoreDate | source/cyhal_rtc.c:368-400 | one stored DST end takes its format, its hour and a 0-based month; it also takes the day fields of its own format, and keeps the other format's fields from the storage |
| RtcDriver.StoreRule | source/cyhal_rtc.c:374-400 | the corrected copy of cyhal_rtc_set_dst: each end takes its own format, hour and its own month minus one (as written the start takes the stop's month: RtcDriver.StoreRuleAsWrittenLosesStart) |
| RtcDriver.StoreRuleIgnoresStale | source/cyhal_rtc.c:368-400 | with the months corrected, the stored rule's packed start and stop do not depend on what the storage held before, and each stored month is the caller's month minus one |
| RtcDriver.StoreRuleAsWrittenLosesStart | source/cyhal_rtc.c:377 | as written, a rule from 10 March to 3 November is stored as one starting in November, so 1 July at noon is out of DST; with the months corrected it is in |
| RtcDriver.InitState | source/cyhal_rtc.c:233-254 | init turns NEVER_INITIALIZED and UNINITIALIZED into ENABLED and leaves every other state; the state it gives is one a second init leaves alone, and it is TIME_SET exactly when it was, so init never changes what cyhal_rtc_is_enabled answers |
| RtcDriver.WriteAcceptance | source/cyhal_rtc.c:340-356 | write accepts a struct tm exactly when seconds and minutes are 0..59, the hour is 0..23 and the month is 0..11; the year must be from 2010, or so negative that the unsigned 1900 + tm_year wraps round |
| RtcDriver.RelativeRuleNeverReturns | source/cyhal_rtc.c:546-557 | as written, with a relative end, the DST check reads the year through get_rtc_time, which runs the DST check again; however deep the stack, it never returns |
| RtcDriver.TmYearOf | source/cyhal_rtc.c:330 | for every 16-bit year, the unsigned subtraction converted back to int is the year minus 1900 |
| RtcDriver.SetDstAfterInitFaults | source/cyhal_rtc.c:403 | after init, set_dst as written always reads through the NULL last-update pointer |
| RtcDriver.Rtc.constructor | source/cyhal_rtc.c:88-96 | before any call, the state is NEVER_INITIALIZED, no DST rule is set, the flag is clear and the last-update pointer is NULL |
| RtcDriver.Rtc.CheckForDstTransition | source/cyhal_rtc.c:99-203 | without a rule, nothing changes; with a rule, the hour moves as Decide says, and the hardware and the last-update time become the adjusted time |
| RtcDriver.Rtc.Transition | source/cyhal_rtc.c:151-191 | the case analysis sets the flag and returns the adjustment Decide gives |
| RtcDriver.Rtc.SetRtcTime | source/cyhal_rtc.c:206-214 | writing the hardware is followed by the DST check on the written time |
| RtcDriver.Rtc.GetRtcTime | source/cyhal_rtc.c:217-225 | reading the hardware is followed by the DST check on the time read |
| RtcDriver.Rtc.InitCommon | source/cyhal_rtc.c:227-261 | returns success; the state becomes InitState of the old state; the rule, the flag and the last-update pointer are cleared; only on first use is the default time written |
| RtcDriver.Rtc.Init | source/cyhal_rtc.c:263-278 | init writes 1 January 2011, midnight, on first use and leaves the hardware time at every later init |
| RtcDriver.Rtc.Free | source/cyhal_rtc.c:296-304 | free clears the rule, the flag and the last-update pointer and leaves the state and the time |
| RtcDriver.Rtc.IsEnabled | source/cyhal_rtc.c:306-311 | true exactly in state TIME_SET |
| RtcDriver.Rtc.Read | source/cyhal_rtc.c:313-338 | the struct tm holds the time after the DST check, with the year since 1900, the corrected day of the week below 7, the 0-based day of the year, and tm_isdst -1 |
| RtcDriver.Rtc.Write | source/cyhal_rtc.c:340-345 | BAD_ARGUMENT exactly for the struct tm that WriteAcceptance rejects, and then nothing changes; otherwise success, state TIME_SET, and the hardware holds the struct tm's time (0-based month, day and 1900 + year taken to 16 bits), moved by the active DST rule's decision, with the flag and the last-update time that decision gives |
| RtcDriver.WrittenTime | source/cyhal_rtc.c:340-359 | the RTC time an accepted struct tm is written as: seconds, minutes, hours and the 0-based month as given, the day and 1900 + year exactly when they fit in 16 bits |
| RtcDriver.WrittenTimeDirect | source/cyhal_rtc.c:340-345 | for an accepted struct tm, the month incremented in int and decremented in unsigned arithmetic is the 0-based month again, and the fields write_direct stores are the struct tm's time with the day and 1900 + year taken to 16 bits |
| RtcDriver.Rtc.WriteDirect | source/cyhal_rtc.c:347-366 | BAD_ARGUMENT, changing nothing, exactly when a field is out of range after the month is decremented; the day is not checked; otherwise the 16-bit fields are written, moved by the active DST rule's decision (which also sets the flag and the last-update time), and the state becomes TIME_SET |
| RtcDriver.Rtc.SetRtcDirect | source/cyhal_rtc.c:453-469 | writes the given time, followed by the DST check, and reports success |
| RtcDriver.Rtc.SetDst | source/cyhal_rtc.c:368-407 | with the months corrected, the stored rule becomes active, the last-update time is the hardware time after the DST check, and the flag is the DST status of that time |
| RtcDriver.Rtc.SetDstAsWritten | source/cyhal_rtc.c:368-407 | as written, the start takes the stop's month, and the call faults exactly when the last-update pointer is NULL |
| RtcDriver.Rtc.IsDst | source/cyhal_rtc.c:409-417 | is_dst reads the hardware, the DST check included, and reports the DST status of that time |
| SyspmChain.EligiblesCount | source/cyhal_syspm.c:112-131 | on a list without repeats, a walk calls each entry exactly once if it has a callback, covers the state and does not ignore the mode, and otherwise not at all; every call has the walk's state and mode |
| SyspmChain.EligiblesWithin | source/cyhal_syspm.c:112-131 | every call a walk makes is on an entry of its list, in the walk's mode |
| SyspmChain.FirstRefusal | source/cyhal_syspm.c:112-131 | a CHECK_READY walk stops at the first entry that is invoked and answers false, and nothing before it refuses; in any other mode nothing refuses and the walk reaches the end |
| SyspmChain.FirstRefusalUnique | source/cyhal_syspm.c:112-131 | the stopping position is the only one with no refusal before it and a refusal (or the end) at it |
| SyspmChain.Dispatch | source/cyhal_syspm.c:164-180 | the walk and backtrack of _cyhal_syspm_common_cb over the two ordered lists: the result is success exactly when neither list has a refusing entry, and PM_PENDING otherwise |
| SyspmChain.DispatchRefusedFirst | source/cyhal_syspm.c:164-180 | a refusal in the first list: its walk up to the refuser, no walk of the second list, then CHECK_FAIL for the eligible entries before the refuser; the result is PM_PENDING |
| SyspmChain.DispatchRefusedSecond | source/cyhal_syspm.c:164-180 | a refusal in the second list: both walks, then CHECK_FAIL for the entries of the second list before the refuser, then for the whole first list; the result is PM_PENDING |
| SyspmChain.DispatchAllow | source/cyhal_syspm.c:164-180 | with no refusal, both lists are walked to their ends, first then second, and the result is success |
| SyspmChain.CommonCbLocked | source/cyhal_syspm.c:149-153 | with the deep-sleep lock held, a CHECK_READY request whose state has only deep-sleep and hibernate bits is PM_PENDING and no callback runs |
| SyspmChain.CommonCbOtherModes | source/cyhal_syspm.c:147-183 | only CHECK_READY can be refused: in any other mode the result is success and every eligible entry runs, the peripheral list first for CHECK_FAIL and AFTER_TRANSITION and the user list first otherwise |
| SyspmChain.CommonCbReady | source/cyhal_syspm.c:147-183 | a CHECK_READY request that is not locked out succeeds exactly when no entry of either list refuses; then the user list's eligible entries run before the peripheral list's; otherwise the result is PM_PENDING |
| SyspmChain.RefusedSomewhere | source/cyhal_syspm.c:147-183 | a CHECK_READY request that is not locked out and does not succeed was refused in the user list, or else in the peripheral list |
| SyspmChain.RefusalBacktracksOnce | source/cyhal_syspm.c:133-180 | after a refused CHECK_READY, each entry visited before the refuser that does not ignore CHECK_FAIL gets exactly one CHECK_FAIL call, and every other entry gets none |
| SyspmChain.RefuserNotBacktracked | source/cyhal_syspm.c:119-124 | the refusing entry itself gets no CHECK_FAIL call, since the walk stops on it without moving past |
| SyspmChain.PushIdempotent | source/cyhal_syspm.c:201-219 | an entry whose next pointer is not NULL counts as registered, so registering it again changes nothing |
| SyspmChain.PushChain | source/cyhal_syspm.c:209-219 | registering an unregistered entry puts it at the head of its list, ahead of the old entries, and keeps the other list |
| SyspmChain.RemoveFirstSplices | source/cyhal_syspm.c:185-199 | removing an entry keeps every other entry in its order; removing an absent entry leaves the list as it was |
| SyspmChain.UnlinkChain | source/cyhal_syspm.c:185-199 | unlinking leaves exactly the list without the entry, sets the entry's next to NULL, changes only the next pointer of the entry before it, and keeps the other list |
| SyspmChain.RemoveFirstKeeps | source/cyhal_syspm.c:185-199 | after removal the list still has no repeats and gains no entry |
| Syspm.ConvertState | source/cyhal_syspm.c:230-248 | the sleep mode maps to the hibernate state exactly for EPDS in an EPDS build, and to CPU deep sleep otherwise |
| Syspm.ConvertMode | source/cyhal_syspm.c:250-278 | the callbacks run exactly for PDS, NOT_ALLOWED and, in an EPDS build, EPDS; the mode is CHECK_FAIL exactly for NOT_ALLOWED and CHECK_READY otherwise |
| Syspm.PreSleepAnswer | source/cyhal_syspm.c:280-307 | a mode that does not proceed comes back unchanged with no callback; otherwise the ROM's mode comes back when the common callback succeeds and NOT_ALLOWED when it does not; an accepted CHECK_READY pass is followed by BEFORE_TRANSITION on every eligible entry, user list first |
| Syspm.PreSleepLocked | source/cyhal_syspm.c:280-307 | with the deep-sleep lock held, a PDS request is answered NOT_ALLOWED and no callback runs |
| Syspm.PostSleepOrder | source/cyhal_syspm.c:309-314 | after waking, AFTER_TRANSITION reaches every eligible entry, the peripheral list first, and succeeds |
| Syspm.LocksSaturate | source/cyhal_syspm.c:444-455 | repeated locks add up, stopping at USHRT_MAX |
| Syspm.UnlocksStopAtZero | source/cyhal_syspm.c:457-481 | repeated unlocks count down, stopping at 0 |
| Syspm.LocksBalance | source/cyhal_syspm.c:444-481 | starting unlocked, a locks (at most USHRT_MAX) and then b unlocks leave deep sleep locked exactly when b < a |
| Syspm.LockedUntilReleased | source/cyhal_syspm.c:444-481 | after a locks from 0, deep sleep is locked, and a unlocks release it |
| Syspm.WakeSlot | source/cyhal_syspm.c:65-102 | a pin's entry, when it has one, lies inside the 36-entry table and names that pin |
| Syspm.WakeSlotComplete | source/cyhal_syspm.c:65-102 | every table entry is the one found for its pin, so no pin appears twice |
| Syspm.PowerManager.constructor | source/cyhal_syspm.c:61-111 | at start-up both lists are empty, the lock is released and every supply voltage is 0 |
| Syspm.PowerManager.CallAllPmCallbacks | source/cyhal_syspm.c:112-131 | the walk returns the link to the first refusing entry, or the end marker; allow is false exactly on a refusal; the calls are the eligible entries up to and including the refuser |
| Syspm.PowerManager.BacktrackAllPmCallbacks | source/cyhal_syspm.c:133-145 | CHECK_FAIL reaches the eligible entries from the head up to, not including, the stop position |
| Syspm.PowerManager.DispatchLists | source/cyhal_syspm.c:155-182 | the walk of both lists gives the result and the calls that Dispatch describes |
| Syspm.PowerManager.CommonCb | source/cyhal_syspm.c:147-183 | the common callback over the driver's two lists gives the outcome CommonCb describes, with the lists in the order the mode picks |
| Syspm.PowerManager.RegisterCallback | source/cyhal_syspm.c:422-432 | an unregistered entry goes to the head of the user list; a registered one changes nothing; the peripheral list is kept |
| Syspm.PowerManager.RegisterPeripheralCallback | source/cyhal_syspm.c:209-219 | an unregistered entry goes to the head of the peripheral list; a registered one changes nothing; the user list is kept |
| Syspm.PowerManager.RemoveCallbackFromList | source/cyhal_syspm.c:185-199 | the pointer that led to the entry takes the entry's next, and the entry's next becomes NULL |
| Syspm.PowerManager.UnregisterCallback | source/cyhal_syspm.c:434-437 | the entry leaves the user list, the rest keeping its order, and the peripheral list is kept |
| Syspm.PowerManager.UnregisterPeripheralCallback | source/cyhal_syspm.c:221-224 | the entry leaves the peripheral list, the rest keeping its order, and the user list is kept |
| Syspm.PowerManager.PreSleepCback | source/cyhal_syspm.c:280-307 | the answer to the ROM and the calls are those PreSleep gives for the current lists and lock |
| Syspm.PowerManager.PostSleepCback | source/cyhal_syspm.c:309-314 | the calls are AFTER_TRANSITION on the eligible entries, the peripheral list first |
| Syspm.PowerManager.LockDeepSleep | source/cyhal_syspm.c:444-455 | the lock counts up, stopping at USHRT_MAX, and is then held; sleep is disallowed whenever the counter moved |
| Syspm.PowerManager.UnlockDeepSleep | source/cyhal_syspm.c:457-481 | the lock counts down, stopping at 0; once it is 0 the idle sleep mode (EPDS, the configured mode, or PDS) is allowed again |
| Syspm.PowerManager.Init | source/cyhal_syspm.c:358-398 | success exactly when all three ROM steps succeed; a failing sleepInit is CB_REGISTER_ERROR; a failing later step is INIT_ERROR; once sleepInit succeeds, the configured mode is requested |
| Syspm.PowerManager.SetGpioWakeupSource | source/cyhal_syspm.c:316-338 | the pin's one table entry is enabled with the polarity, or disabled; the result is success exactly when the pin has an entry and the ROM accepts, and BAD_ARGUMENT otherwise |
| Syspm.PowerManager.SetSupplyVoltage | source/cyhal_syspm.c:504-508 | only the given supply's voltage changes |
| Syspm.PowerManager.GetSupplyVoltage | source/cyhal_syspm.c:510-514 | returns the recorded voltage of the supply |
| Syspm.SupplyVoltageRoundTrip | source/cyhal_syspm.c:504-514 | a voltage reads back as set, and setting one supply leaves the others |
| Dma.TransferType | source/cyhal_dma.c:166-171 | the flow control is memory-to-peripheral exactly for MEM2PERIPH and peripheral-to-memory exactly for PERIPH2MEM |
| Dma.InitSelection | source/cyhal_dma.c:174-230 | the channel choice init_adv makes from a source or destination trigger: unallocated with no control line, or a channel below 8 with at most one of the two lines |
| Dma.InitSelectionTable | source/cyhal_dma.c:184-228 | a DMAC source trigger given alone picks channel 2 for the PTU and the SCBs, 5 for TDM0 and 7 for TDM1, with its source line; a destination trigger picks 1, 4 or 6 with its destination line; any other trigger, or none, leaves the channel unallocated and both lines NONE |
| Dma.StoreIndexAsWrittenOutOfRange | source/cyhal_dma.c:280 | as written, without a DMAC trigger init writes the object at index 255 of the 8-entry table |
| Dma.StoreIndexAsWrittenShared | source/cyhal_dma.c:280 | as written, every SCB or HCI UART destination trigger enters its object at the same index, 1, so each init overwrites the last |
| Dma.AddressSelectionRules | source/cyhal_dma.c:331-418 | a channel choice is stored exactly when one address is in SRAM; a destination in SRAM decides the channel (2, 5 or 7 by the source's window, else 1); otherwise a source in SRAM decides it (1, 4 or 6 by the destination's window) |
| Dma.Reselect | source/cyhal_dma.c:331-418 | an allocated channel is kept; an unallocated one takes the address choice when an address is in SRAM and stays otherwise |
| Dma.WidthOf | source/cyhal_dma.c:425-434 | a transfer width is accepted exactly when it is 8, 16 or 32 bits |
| Dma.BurstOf | source/cyhal_dma.c:436-451 | a burst size is accepted exactly when it is 0, 1, 4, 8, 16, 32, 64, 128 or 256, where 0 means 1 |
| Dma.PreCheck | source/cyhal_dma.c:319-329 | a length of 4096 or more is INVALID_TRANSFER_SIZE, overriding an unsupported action, which is UNSUPPORTED_HARDWARE |
| Dma.FinishCheck | source/cyhal_dma.c:420-451 | after PreCheck, the checks give the status of ConfigureStatus |
| Dma.ConfigurePrecedence | source/cyhal_dma.c:319-451 | no channel overrides every other error; then the length, then the action, then the width, then the burst size; configure succeeds exactly when the channel is allocated, the length is below 4096, the action is supported and the width and burst size are accepted |
| Dma.SyncCalls | source/cyhal_dma.c:486-498 | memory-to-peripheral synchronises the destination line, peripheral-to-memory the source line, and any other flow clears both |
| Dma.HandlerEvent | source/cyhal_dma.c:126-136 | the handler reports GENERIC_ERROR exactly when the error status is set, and TRANSFER_COMPLETE otherwise |
| Dma.EmptyTable | source/cyhal_dma.c:156-163 | the cleared table has 8 entries, all NULL |
| Dma.PmCallbackEligibility | source/cyhal_dma.c:106-113 | the DMA entry is asked about deep sleep in every mode but BEFORE_TRANSITION, and never about plain sleep |
| Dma.EventHandler | source/cyhal_dma.c:120-143 | for a non-NULL object, the error bit is cleared and a registered callback gets its argument and the event once; a NULL object gets nothing |
| Dma.Channel.Initialize | source/cyhal_dma.c:241-261 | a successful init leaves the granted resource, disabled, the direction's flow control, the trigger's channel and lines, no error, no callback and both register words zero |
| Dma.Channel.Configure | source/cyhal_dma.c:310-502 | the channel and lines become Reselect of the old ones, even on error; the result is ConfigureStatus; on success the configuration and control words hold the lines, flow, addresses, length, burst and width, and SyncCalls follow; on error neither word changes |
| Dma.Channel.SelectByAddress | source/cyhal_dma.c:331-418 | the address step changes only the channel and lines, to Reselect of the old ones |
| Dma.Channel.Enable | source/cyhal_dma.c:528-542 | sets the enable flag and the channel enable bit, and succeeds |
| Dma.Channel.Disable | source/cyhal_dma.c:544-560 | clears the enable flag and the channel enable bit, and succeeds |
| Dma.Channel.RegisterCallback | source/cyhal_dma.c:571-584 | stores the callback and its argument either way; the driver's handler is installed only for a non-NULL callback |
| Dma.Channel.EnableEvent | source/cyhal_dma.c:586-617 | a transfer- or descriptor-complete event sets the terminal-count mask, which is never cleared here; the error mask is always set; the interrupt enable follows `enable` |
| Dma.Driver.constructor | source/cyhal_dma.c:51-74 | at start-up the table holds whatever memory held, the arrays are not initialised, the DMAC is off, no transition is pending and the PM entry is not registered |
| Dma.Driver.HasEnabled | source/cyhal_dma.c:62-72 | true exactly when some table entry holds an object |
| Dma.Driver.PmCallback | source/cyhal_dma.c:76-104 | CHECK_READY refuses exactly when an object in the table is busy, and so whenever any live (initialised, not freed) object is busy; it marks a transition pending when it allows; CHECK_FAIL and AFTER_TRANSITION clear the mark; every other mode allows |
| Dma.Driver.StartTransfer | source/cyhal_dma.c:504-526 | PM_PENDING while a transition is pending; success without a request when disabled; TRANSFER_ALREADY_STARTED when busy; otherwise the ROM is asked, and a refusal is INVALID_PARAMETER |
| Dma.Driver.InitArrays | source/cyhal_dma.c:156-163 | the first init clears the table; later ones keep it |
| Dma.Driver.Track | source/cyhal_dma.c:266-281 | the DMAC is enabled, the PM entry is registered when the table held no object, and the object goes into the given entry |
| Dma.Driver.InitAdv | source/cyhal_dma.c:150-284 | a source with a destination, or a destination source, is INVALID_PARAMETER and nothing is reserved; otherwise the result is the allocation's; on success the object is reset to the trigger's choice, entered at the index of its hardware channel and live, and on a fresh reservation no other live object loses its entry; on failure the object, the table and the live set are unchanged; every live object stays in the table at its hardware channel |
| Dma.Driver.Admit | source/cyhal_dma.c:234-283 | the result is the allocation's, the granted resource is reserved exactly on success, and only then is the object set up, entered at its hardware channel and made live; a fresh reservation evicts no live object |
| Dma.Driver.Free | source/cyhal_dma.c:294-308 | free clears the entry at the object's hardware channel, so a live object leaves the live set and no other does; the PM entry stays only while the table holds an object; the resource is released; every live object stays in the table |
| AdcMic.ConvertChannelSel | source/cyhal_adc_mic.c:103-126 | bit indices 0 to 7 select the GPIO input with the same number; every other index selects the open input |
| AdcMic.NextEnabled | source/cyhal_adc_mic.c:87-101 | the index left by the ring search is always a slot; it holds an enabled channel whenever one exists, and stays at the start when none does |
| AdcMic.NextEnabledIsCyclicFirst | source/cyhal_adc_mic.c:87-101 | every slot the search passes going round the ring of eight from the start is not enabled, so the index found is the first enabled slot in ring order |
| AdcMic.Adc.FindNextChannel | source/cyhal_adc_mic.c:87-101 | the do-while walk over the channel table ends at the slot the ring search names for the current readiness of the slots |
| AdcMic.StartScanAsWrittenZeroStuck | source/cyhal_adc_mic.c:658-669 | as written, a read of zero scans with an enabled channel leaves the result buffer attached with no scan left, a state the conversion handler never leaves |
| AdcMic.StartScan | source/cyhal_adc_mic.c:649-680 | a buffer stays attached exactly while scans remain; a scan starts exactly when some channel is enabled and scans were asked for, and then on an enabled slot with the requested count |
| AdcMic.Advance | source/cyhal_adc_mic.c:232-233 | the slot after the current one, found by the ring search, is always a slot index |
| AdcMic.AdvanceForward | source/cyhal_adc_mic.c:230-237 | when an enabled slot follows the current one, the next conversion is on the first such slot, which is later than the current one |
| AdcMic.AdvanceWraps | source/cyhal_adc_mic.c:230-237 | when no enabled slot follows the current one, the next conversion wraps round to the first enabled slot, which is not later than the current one |
| AdcMic.ConvertStep | source/cyhal_adc_mic.c:214-258 | one conversion either counts off a scan or keeps the count and moves to a strictly later slot, and keeps the buffer attached exactly while scans remain |
| AdcMic.ConvertStepNoneReady | source/cyhal_adc_mic.c:227-236 | with every channel disabled while a scan runs, the ring search stops on the slot after the current one, and a scan is counted off only when that wraps from the last slot |
| AdcMic.VisitsForward | source/cyhal_adc_mic.c:227-258 | a conversion that does not wrap keeps the count and is followed by the rest of the enabled slots and then the remaining full rounds |
| AdcMic.VisitsWrap | source/cyhal_adc_mic.c:227-258 | a conversion on the last enabled slot counts off one scan and is followed by the remaining full rounds from the first enabled slot |
| AdcMic.VisitsRounds | source/cyhal_adc_mic.c:214-258 | from an enabled slot, the conversions cover the enabled slots after it in order, then every enabled slot once for each remaining scan |
| AdcMic.ScanConvertsEveryEnabledChannel | source/cyhal_adc_mic.c:214-258 | an asynchronous read of n scans converts the enabled channels in increasing slot order n times over, writing n times the number of enabled channels results |
| AdcMic.CalibratedStays | source/cyhal_adc_mic.c:155-196 | once the DC calibration is done, no later ADC_READY or CIC interrupt undoes it |
| AdcMic.StartedCalibrates | source/cyhal_adc_mic.c:186-196 | once the calibration has started, it finishes exactly when a CIC interrupt arrives |
| AdcMic.CalibrationTakesTwoPhases | source/cyhal_adc_mic.c:155-196 | from an uncalibrated ADC, a run of interrupts calibrates it exactly when an ADC_READY is followed later by a CIC |
| AdcMic.ConfigureStatus | source/cyhal_adc_mic.c:443-462 | configure succeeds exactly for the one supported configuration and otherwise reports a bad argument |
| AdcMic.SetSampleRate | source/cyhal_adc_mic.c:477-483 | the achieved rate is always the fixed rate, and the call succeeds exactly when that is the rate asked for |
| AdcMic.ChannelConfigStatus | source/cyhal_adc_mic.c:565-580 | a channel configuration is accepted exactly when it asks for no averaging and an acquisition time the fixed one meets |
| AdcMic.SetAsyncMode | source/cyhal_adc_mic.c:696-712 | the software mode is accepted and the DMA mode refused as a bad argument |
| AdcMic.VplusAsWrittenAcceptsBtGpio0 | source/cyhal_adc_mic.c:501-504 | as written, the lookup over all eight adc_in entries accepts BT_GPIO_0 through the zero-filled entry, which selects the DC input of LHL_GPIO_2 |
| AdcMic.VplusPins | source/cyhal_adc_mic.c:501-516 | over the seven real adc_in entries and the MIC_P table, a vplus is accepted exactly when it is one of the seven ADC input pins or MIC_P, and the entry found is for that pin |
| AdcMic.FirstFree | source/cyhal_adc_mic.c:531-539 | the slot chosen is empty and every slot before it is taken; none is chosen exactly when every slot is taken |
| AdcMic.Adc.FirstFreeSlot | source/cyhal_adc_mic.c:531-539 | the loop picks the first empty slot of the channel table, or none when all are taken |
| AdcMic.InitDiffSucceeds | source/cyhal_adc_mic.c:485-563 | channel init succeeds exactly when vminus is the single-ended value, the pin is an input, its reservation and connection work, a slot is free and the configuration is supported; with all else in order and no free slot it reports no channels |
| AdcMic.Channel.Configure | source/cyhal_adc_mic.c:565-580 | a supported configuration sets the enabled flag; a refused one changes nothing |
| AdcMic.Channel.Free | source/cyhal_adc_mic.c:582-599 | the pin is released and set back to NC unless the parent ADC came from a configurator, the parent's slot is cleared, and the channel is detached |
| AdcMic.Channel.Reset | source/cyhal_adc_mic.c:491-492 | the channel object starts zeroed, with its pin NC |
| AdcMic.Channel.Acquire | source/cyhal_adc_mic.c:491-523 | the vminus check, the pin lookup, the reservation and the connection fail in that order; the pin is reserved and recorded only when all of them succeed, and a failed connection gives the reservation back |
| AdcMic.Channel.Attach | source/cyhal_adc_mic.c:526-555 | the channel takes the first free slot of its parent and applies its configuration; with no free slot it reports no channels and the table is left alone |
| AdcMic.Channel.InitDiffUsing | source/cyhal_adc_mic.c:485-563 | the result follows the order of the checks; on success the channel is in the first free slot of its parent with its pin reserved; on any failure the channel is detached and the parent's table is as it was; a failure before the pin was reserved leaves the reservations as they were, and one after gives the pin back, except that a channel of a configurator-owned ADC that got its slot keeps it |
| AdcMic.Channel.InitDiffAsWritten | source/cyhal_adc_mic.c:501-504 | as written, BT_GPIO_0 comes up as a channel on the DC input of LHL_GPIO_2 when the rest of the init succeeds |
| AdcMic.Channel.InitDiff | source/cyhal_adc_mic.c:485-563 | over the seven real inputs: the result follows the order of the checks; on success the channel is in the first free slot with its pin reserved, and on failure it is detached |
| AdcMic.Notify | source/cyhal_adc_mic.c:144-151 | the callback is called exactly when the event is enabled and a callback registered, with the registered argument and that event |
| AdcMic.Adc.constructor | source/cyhal_adc_mic.c:270-362 | a configured ADC has an empty channel table, is uncalibrated with no read running, and in DC mode has the ADC_READY interrupt and the ADC enabled, which starts the calibration |
| AdcMic.Adc.StartAsyncRead | source/cyhal_adc_mic.c:649-680 | refused as busy, changing nothing, while a buffer is attached or the ADC is uncalibrated; otherwise the scan state is the start of the scan for the current readiness, and a conversion is started on the chosen channel |
| AdcMic.Adc.Begin | source/cyhal_adc_mic.c:658-676 | the scan state becomes the start of the scan and a conversion is started on the first enabled channel exactly when the scan is active |
| AdcMic.Adc.First | source/cyhal_adc_mic.c:658-669 | the slot and start decision are those of the start of the scan, and an active scan starts on the channel in that slot |
| AdcMic.Adc.ReadAsyncAsWritten | source/cyhal_adc_mic.c:682-694 | as written, a read refused as busy still switches the unit of the read already running |
| AdcMic.Adc.ReadAsync | source/cyhal_adc_mic.c:682-694 | the busy check decides the result; a refused read changes nothing, and an accepted one takes its unit and starts the scan |
| AdcMic.Adc.Convert | source/cyhal_adc_mic.c:199-258 | each conversion reports end of scan; while scans remain it appends the result in the chosen unit, moves to the next enabled slot (to the next slot when every channel was disabled during the scan), and reports read complete after the last scan, when the buffer is detached; it needs only that a scan going on has a channel in the slot it moves to |
| AdcMic.Adc.Step | source/cyhal_adc_mic.c:227-258 | the scan moves on by one conversion step, whether or not a channel is still enabled; the next conversion is started with the new slot's channel selection exactly while scans remain, and the read ends otherwise |
| AdcMic.Adc.Locate | source/cyhal_adc_mic.c:230-241 | the index and the scan count after the ring search agree with one conversion step, for any readiness of the slots |
| AdcMic.Adc.FinishCalibration | source/cyhal_adc_mic.c:186-196 | the calibration result becomes the DC offset, the fixed gain is set, calibration mode ends, and the ADC is marked calibrated |
| AdcMic.Adc.RegisterCallback | source/cyhal_adc_mic.c:714-722 | the callback and its argument are replaced; the enabled events and the scan are kept |
| AdcMic.Adc.EnableEvent | source/cyhal_adc_mic.c:724-751 | the events are added or removed; in audio mode the ADC_READY interrupt and the ADC follow the request, and in DC mode the registers are kept |
| AdcMic.Calibrate | source/cyhal_adc_mic.c:133-176 | with no object, nothing happens; in audio mode it reports end of scan and disables the interrupt; in DC mode it runs the next calibration phase, and a calibrated ADC is left alone |
| AdcMic.GetResult | source/cyhal_adc_mic.c:178-263 | a running calibration is finished with the result read; otherwise, in DC mode, the conversion is handled: end of scan is reported, and while scans remain the result is appended, the scan moves on by one step and the last scan also reports the read complete; the mode and the callbacks are kept; a scan whose channels were all disabled after it started goes on round the slots |
| Comp.InPSelector | source/cyhal_comp.c:198-222 | LHL_GPIO_4 and LHL_GPIO_8 select input 2/6, LHL_GPIO_5 and LHL_GPIO_9 select input 3/7, MIC_P selects the microphone, and every other pin selects the open input |
| Comp.InNSelector | source/cyhal_comp.c:235-255 | LHL_GPIO_2 and LHL_GPIO_6 select input 0/4, LHL_GPIO_3 and LHL_GPIO_7 select input 1/5, and every other pin selects the open input |
| Comp.Select | source/cyhal_comp.c:149-181 | the pin checks either succeed or report an invalid pin; success needs no output pin and a positive input whose entry is for that pin; DC mode also needs a negative input on the same comparator, and NTD mode has none |
| Comp.SelectDcPairs | source/cyhal_comp.c:155-170 | over the real pin tables DC mode is chosen exactly for LHL_GPIO_4/5 against LHL_GPIO_2/3 and LHL_GPIO_8/9 against LHL_GPIO_6, with no output pin; both selectors then name a real input |
| Comp.SelectNtd | source/cyhal_comp.c:172-181 | NTD mode is chosen exactly for MIC_P with no output pin and a negative input that is none of the real negative inputs; its positive selector is the microphone |
| Comp.SelectAsWrittenAcceptsBtGpio0 | source/cyhal_comp.c:156-170 | as written, the zero-filled fourth negative-input entry lets LHL_GPIO_8 against BT_GPIO_0 pass in DC mode, with an open negative selector |
| Comp.SelectAsWrittenIgnoresOutput | source/cyhal_comp.c:149-181 | as written, MIC_P with an output pin succeeds in NTD mode, because the NTD fallback overwrites the invalid-pin error; the corrected checks refuse it |
| Comp.MappedComparatorsHaveSlots | source/cyhal_comp.c:78 | every comparator a positive-input or MIC_P entry names has a slot in the object table |
| Comp.InitStatus | source/cyhal_comp.c:131-290 | init succeeds exactly when the pin checks, the comparator reservation, the vin_p reservation and connection, the vin_m ones in DC mode, and the hardware set-up all succeed |
| Comp.EventSlot | source/cyhal_comp.c:87 | the slot read for an interrupt is always a slot of the object table |
| Comp.InterruptRoutesToSlot | source/cyhal_comp.c:74-88 | the interrupt of comparator 0 or 1 is LPCOMP1 or LPCOMP2, and it is looked up in the slot where init stored that comparator's object |
| Comp.Notify | source/cyhal_comp.c:91-98 | the callback is called exactly when a rising edge is enabled and a callback registered, with the registered argument and a rising edge |
| Comp.Table.constructor | source/cyhal_comp.c:78 | the object table starts with both slots empty and no comparator reserved |
| Comp.Table.Reserve | source/cyhal_comp.c:185-190 | the comparator is reserved exactly when the reservation reports success, and its result is that report |
| Comp.Comp.Reset | source/cyhal_comp.c:141-147 | the object starts zeroed, with both pins NC, no resource and no events |
| Comp.Comp.Free | source/cyhal_comp.c:313-341 | with a comparator, its slot is cleared, it is stopped if the base was set and given back unless a configurator owns it; both held pins are released and set to NC |
| Comp.Comp.ReleasePins | source/cyhal_comp.c:339-340 | each pin that is not NC is released and set to NC, and nothing else is given back |
| Comp.Comp.InitHw | source/cyhal_comp.c:106-129 | the result follows PDL init, the shared-handler registration and PDL enable in that order, the registration reaching the PDL only while unregistered; the object is stored in its slot exactly on success |
| Comp.Comp.ConnectInputs | source/cyhal_comp.c:193-260 | vin_p and then, in DC mode, vin_m are reserved and connected, each recorded with its selector once that worked, and the result is the first failure; nothing beyond the recorded pins stays reserved |
| Comp.Comp.Init | source/cyhal_comp.c:131-290 | the result follows the steps in order; on success the object holds the comparator of its positive input, its pins and selectors, and sits in that comparator's slot; on failure both pins are NC and nothing new is reserved |
| Comp.Comp.Setup | source/cyhal_comp.c:183-290 | after the pin checks, the comparator, the pins and the hardware are taken in order; on success all are held, and on failure what was taken is given back |
| Comp.Comp.Bring | source/cyhal_comp.c:193-290 | once the comparator is held, the pins and then the hardware are set up; a failure releases the pins and the comparator and clears the slot |
| Comp.StoredResource | source/cyhal_comp.c:297 | the object keeps the block and channel of the configurator's resource unless its type is CYHAL_RSC_INVALID, whatever the type is |
| Comp.Comp.InitCfg | source/cyhal_comp.c:292-311 | the configurator's resource is stored whatever its type, owned by the configurator and not reserved; a resource that is not a comparator is then refused as a bad argument with the table unchanged, and a later free clears the slot its block and channel name; a comparator is set up and stored in its slot exactly when the hardware set-up succeeds |
| Comp.Comp.Configure | source/cyhal_comp.c:350-370 | configure repeats the hardware set-up of init and keeps the pins and the resource |
| Comp.Comp.RegisterCallback | source/cyhal_comp.c:391-399 | the callback and its argument are replaced; the events, pins and hardware are kept |
| Comp.Comp.EnableEvent | source/cyhal_comp.c:401-419 | only the given events are added or removed, and the comparator's interrupt follows the request |
| Comp.ProcessEvent | source/cyhal_comp.c:85-99 | the object in the interrupt's slot gets a rising-edge call exactly when that event is enabled and a callback registered |
| AnalogCommon.HandlersUnfold | source/cyhal_analog_common.c:62-88 | the handlers run for a status are its ADC_READY, CIC, LPCOMP1 and LPCOMP2 bits, each checked once, in that order |
| AnalogCommon.HandlersServeStatus | source/cyhal_analog_common.c:56-89 | a handler runs exactly when its bit is set in the masked status; they run strictly in the order ADC_READY, CIC, LPCOMP1, LPCOMP2, so none runs twice |
| AnalogCommon.PdlCalledUntilFirstSuccess | source/cyhal_analog_common.c:42-53 | starting unregistered, every call up to and including the first successful one reaches the PDL, and none after it; a failed registration is retried by the next call |
| AnalogCommon.NoCallsOnceRegistered | source/cyhal_analog_common.c:47-51 | once registered, no later call reaches the PDL again |
| AnalogCommon.Registration.constructor | source/cyhal_analog_common.c:44 | the flag starts unregistered, with no PDL call made |
| AnalogCommon.Registration.Register | source/cyhal_analog_common.c:42-53 | while unregistered the result is the PDL's and the flag records whether it was a success; once registered the call succeeds without reaching the PDL |
| AnalogIsr.Dispatch | source/cyhal_analog_common.c:56-89 | the sources served are the handler order applied to the status; with neither ADC bit set the ADC object is untouched and gets no call; the ADC ends in the phase ADC_READY then CIC lead to, its deliveries are the audio end of scan, or the DC conversion's end of scan and read complete, and a CIC converts (result appended, one scan step) unless it finishes the calibration; each comparator bit set delivers that comparator's rising-edge call |
| AnalogIsr.ServeAdc | source/cyhal_analog_common.c:62-74 | ADC_READY runs the calibration handler and then CIC the result handler, each exactly when its bit is set; the resulting phase, the deliveries in order, and the scan state and results written are those the two handlers give in turn |
| AnalogIsr.ServeComparators | source/cyhal_analog_common.c:76-88 | LPCOMP1 and then LPCOMP2, each exactly when its bit is set, deliver the calls of the comparator in that interrupt's slot |
| PdmPcm.PdlSampleRate | source/cyhal_pdmpcm.c:241-268 | a (sample rate, decimation) pair picks a PDL setting exactly when it is one of the six documented conversions, and the setting picked is the one for that PDM clock and for the PCM rate the clock divided by the decimation gives |
| PdmPcm.PdlSampleRateInjective | source/cyhal_pdmpcm.c:241-268 | two accepted pairs that pick the same PDL setting are the same pair |
| PdmPcm.StabilizationCoversSettling | source/cyhal_pdmpcm.c:277-278 | the FIFO reads discarded after init hold more PDM clocks of data than the first 25 ms of conversion |
| PdmPcm.StabilizationForDocumentedPairs | source/cyhal_pdmpcm.c:277-278 | for the documented pairs two reads are discarded at the 8 kHz settings and four at the 16 kHz ones, and no unsigned 32-bit product of the formula wraps |
| PdmPcm.CheckConfig | source/cyhal_pdmpcm.c:241-279 | a configuration is accepted exactly when its pair is documented, it is mono, its words are 16 bits and both gains are zero; an accepted one gets the matching PDL setting and a stabilisation count that covers the first 25 ms |
| PdmPcm.PlanInit | source/cyhal_pdmpcm.c:241-299 | a refused configuration is an invalid-config error; otherwise a digital microphone is chosen exactly when the clock and data pins are DMIC pins, else an analog one when the data pin is MIC_P, and an invalid-pin error is reported exactly when neither holds |
| PdmPcm.Interrupt | source/cyhal_pdmpcm.c:112-164 | one FIFO interrupt: while stabilising it counts down and fills nothing; afterwards it fills the pending read, if any, and leaves none; an overflow is reported only when the previous FIFO was left unread |
| PdmPcm.InterruptEvents | source/cyhal_pdmpcm.c:112-164 | overflow is reported exactly when the last FIFO was left unread, the event is enabled and a callback set, and then first; half-full only after stabilisation and never with an overflow; read completion exactly when a read was filled and the event is enabled; no event twice |
| PdmPcm.InterruptState | source/cyhal_pdmpcm.c:133-163 | while stabilising an interrupt counts down, discards the FIFO and fills nothing; afterwards it fills the pending read's buffer and leaves no FIFO unread, or with no read pending leaves its FIFO unread |
| PdmPcm.IdleRunCompletesNothing | source/cyhal_pdmpcm.c:135-163 | with no read pending, a run of interrupts completes no read and starts none |
| PdmPcm.PendingReadCompletesOnce | source/cyhal_pdmpcm.c:135-163 | a pending read completes exactly once, on the interrupt after the stabilisation count runs out and not before, and the count runs down to zero |
| PdmPcm.StableRunStaysStable | source/cyhal_pdmpcm.c:135-143 | once the stabilisation count is zero no interrupt changes it |
| PdmPcm.ReadAsyncStatus | source/cyhal_pdmpcm.c:541-567 | a read is accepted exactly with no power transition pending, the one supported length, a buffer, no read pending and the converter enabled, so a second read is never accepted while one is pending; a pending transition always wins |
| PdmPcm.SetGain | source/cyhal_pdmpcm.c:500-504 | only zero gain on both sides is accepted, anything else is unsupported |
| PdmPcm.AcceptedConfigHasSupportedGain | source/cyhal_pdmpcm.c:270-271 | the gains of any configuration init accepts are gains set_gain accepts |
| PdmPcm.SetAsyncMode | source/cyhal_pdmpcm.c:594-606 | only software transfers are accepted, DMA is unsupported |
| PdmPcm.Deliveries | source/cyhal_pdmpcm.c:120-161 | with a callback set each event of an interrupt becomes one call with the registered argument, in order; with none there are no calls |
| PdmPcm.Converter.constructor | source/cyhal_pdmpcm.c:233-279 | after init nothing is pending or enabled, no FIFO is unread, no event or callback is set, and the stabilisation count is the configuration's |
| PdmPcm.Converter.Isr | source/cyhal_pdmpcm.c:112-164 | the interrupt moves the shared state on as one handler step, delivers its events to the callback in order and fills the buffer the step names |
| PdmPcm.Converter.ReadAsync | source/cyhal_pdmpcm.c:541-567 | the result follows the order of the tests; an accepted read becomes the one outstanding read, and a refused one changes nothing |
| PdmPcm.Converter.AbortAsync | source/cyhal_pdmpcm.c:574-578 | the outstanding read is dropped and nothing else changes |
| PdmPcm.Converter.Start | source/cyhal_pdmpcm.c:465-484 | during a power transition start is refused as pending; otherwise the converter is enabled exactly when the microphone is ready and the PDL enables it, else it reports a busy operation |
| PdmPcm.Converter.Stop | source/cyhal_pdmpcm.c:486-492 | the converter stays enabled exactly when the PDL disable fails, which is reported as a busy operation |
| PdmPcm.Converter.RegisterCallback | source/cyhal_pdmpcm.c:580-586 | the callback and its argument are replaced and nothing else changes |
| PdmPcm.Converter.EnableEvent | source/cyhal_pdmpcm.c:588-592 | exactly the given events are set or cleared, and every other event keeps its state |
| PdmPcm.Converter.PmCallback | source/cyhal_pdmpcm.c:171-216 | only CPU deep sleep is handled: CHECK_READY allows exactly when no read is pending and then marks a transition pending; AFTER_TRANSITION and CHECK_FAIL clear the mark and answer false; a transition is marked only with no read pending |
| Sdio.CallbackEvent | source/cyhal_sdio.c:69-91 | the event handed to the callback is at most the enabled mask: the code's own bit when that bit is enabled, nothing when it is not, and nothing for an unknown code |
| Sdio.EventForInjective | source/cyhal_sdio.c:71-91 | two known event codes that carry the same bit are the same code, so no event is reported for another code's occurrence |
| Sdio.IsBusy | source/cyhal_sdio.c:370-389 | a device is busy exactly when it is ready and its receive or its transmit direction has a transfer in progress or is busy; a device that is not ready is never busy |
| Sdio.CheckCfg | source/cyhal_sdio.c:324-335 | a configuration passes exactly when it is present, at most 50 MHz, with blocks of at most 512 bytes, and for a device; a missing one is BAD_PARAM and every other rejection UNSUPPORTED |
| Sdio.AsyncRequest | source/cyhal_sdio.c:599-653 | a transfer is started exactly when no transition is pending, the device is ready and its direction is idle, so none starts during a transition and none doubles one in progress; a pending transition gives PM_PENDING; otherwise success means started and accepted by the ROM, and every failure is the direction's own READ_ERROR or WRITE_ERROR |
| Sdio.MailboxRead | source/cyhal_sdio.c:495-515 | a missing buffer is exactly the BAD_PARAM case; the read succeeds exactly when the buffer is given, the device is ready and the ROM read succeeds, and fails otherwise with MAILBOX_READ_ERROR |
| Sdio.MailboxWrite | source/cyhal_sdio.c:467-493 | the write succeeds exactly when the device is ready, the data word (when given) is set and the signal is sent; any other outcome is MAILBOX_WRITE_ERROR |
| Sdio.AbortAsync | source/cyhal_sdio.c:391-424 | a direction is aborted exactly when the device is ready and that direction is busy; the result is success exactly when every abort asked for succeeded, CANCELED otherwise; an idle or unready device is left alone and reports success |
| Sdio.PendingSurvivesWakeAsWritten | source/cyhal_sdio.c:147-151 | as written, a deep-sleep cycle the device allowed (CHECK_READY, BEFORE_TRANSITION, AFTER_TRANSITION) leaves the transition recorded, so every later transfer request is refused as PM_PENDING and nothing is started |
| Sdio.PmStep | source/cyhal_sdio.c:112-165 | in deep sleep CHECK_READY answers and records whether the device is idle with sleep allowed, CHECK_FAIL and AFTER_TRANSITION clear the record and allow; the record is only ever raised by an allowing CHECK_READY, and every other mode allows |
| Sdio.RunEndsClear | source/cyhal_sdio.c:147-156 | any run of deep-sleep callbacks that ends with AFTER_TRANSITION or CHECK_FAIL leaves no transition recorded, whatever the run held before |
| Sdio.WokenDeviceTransfers | source/cyhal_sdio.c:599-653 | after a completed deep-sleep cycle a ready device with an idle direction starts a transfer again |
| Sdio.DescriptorBuffer.constructor | source/cyhal_sdio.c:61 | the DMA descriptor buffer starts absent |
| Sdio.Device.constructor | source/cyhal_sdio.c:172-291 | a device init leaves behind is not initialised in hardware, not ready, has no transition pending, no callback and no argument, no events and no interrupt enabled |
| Sdio.Device.Isr | source/cyhal_sdio.c:67-106 | the callback is called exactly when one is registered, with the event CallbackEvent gives for the enabled mask and the code, and with the stored argument or, when none is stored, the event data |
| Sdio.Device.PmCallbackAsWritten | source/cyhal_sdio.c:112-165 | the callback as written: its answer and the new pending flag follow the as-written bookkeeping for the device's readiness, the ROM's statuses and its sleep answer; nothing else in the device changes |
| Sdio.Device.PmCallback | source/cyhal_sdio.c:112-165 | the callback with AFTER_TRANSITION ending the recorded transition: its answer and the new pending flag are what PmStep gives; nothing else in the device changes |
| Sdio.Device.Configure | source/cyhal_sdio.c:319-368 | a rejected configuration returns the check's error and leaves the hardware and the buffer alone; an accepted one allocates the buffer only if absent, initialises the hardware on it and succeeds exactly when the buffer exists, the ROM init succeeds and the handler is registered, CONFIG_ERROR otherwise |
| Sdio.Device.RegisterCallback | source/cyhal_sdio.c:426-432 | the callback and its argument are replaced and nothing else changes |
| Sdio.Device.EnableEvent | source/cyhal_sdio.c:434-440 | exactly the given events become enabled or disabled, the others keep their state, and the interrupt is left enabled exactly when some event remains enabled |
| Sdio.Device.DevIsReady | source/cyhal_sdio.c:449-465 | the answer is the device's readiness, which once reached is never withdrawn and is reached exactly when the hardware is initialised, the host has enabled I/O and the ROM accepts the ready signal |
| Sdio.Device.ReadAsync | source/cyhal_sdio.c:599-624 | the result and whether a receive was started are what AsyncRequest gives for the receive direction and the device's flags |
| Sdio.Device.WriteAsync | source/cyhal_sdio.c:626-653 | the result and whether a transmit was started are what AsyncRequest gives for the transmit direction and the device's flags |

## Left out

- AdcMic.GetResult: requires `NextSlotHeld`, the slot a continuing scan moves to holds a channel, because source/cyhal_adc_mic.c:241 dereferences `channel_config[current_channel_index]` unchecked; a scan whose channels were all disabled or freed walks on slot by slot, and when it reaches an empty slot the C reads through a NULL pointer, which the model does not enter (the same requirement is on AdcMic.Adc.Convert, AdcMic.Adc.Step, AnalogIsr.ServeAdc and AnalogIsr.Dispatch).
- ROM, PDL and register calls (`btss_*`, `Cy_ADCCOMP_*`, `Cy_PDM_PCM_*`, `sdiod_*`, `rtc_get/setRTCTime`, `clock_auxTimer*`, `thread_ap_*`): code outside this model. Each answer is a parameter, and each call the driver logic depends on is recorded where its order matters.
- Critical sections, interrupt priorities and races between interrupt handlers and thread code: concurrency is not modelled. Every handler is a sequential method call.
- Busy-wait, delay and timeout loops are timing against hardware, so they are not modelled. They are `_cyhal_adc_read_raw` and the `cyhal_adc_read*` family built on it, `cyhal_pdm_pcm_read`, the delay-based readiness check of `cyhal_pdm_pcm_start` (the answer is a parameter `ready`), `cyhal_comp_read`, and the polling `cyhal_sdio_dev_read`/`cyhal_sdio_dev_write`.
- `_cyhal_t2timer_set_frequency`: it compares the divided clock against floating-point bounds of plus or minus 2 per cent.
- The CYW55900-only CTSS and WLSS branches of `source/cyhal_gpio.c`: only the default BTSS build is modelled.
- GPIO `configure`, `write`, `read`, `toggle`, `connect_digital`, `enable_output`, `disconnect_digital`, `disable_output` and the switch-and-set helpers: they forward to ROM and keep no state of their own.
- `source/cyhal_interconnect.c`, `source/cyhal_system.c` and `include_pvt/cyhal_system_impl.h`: they forward pad configuration to ROM, and provide delay loops and critical-section macros.
- The hardware manager's allocation policy: `cyhal_hwmgr_reserve`/`free`/`allocate` are not part of this model. Their outcome is an input, and the reserved set only records what succeeded.
- RTC `init_cfg`, alarms, `register_callback` and `enable_event`. `init_cfg` activates a rule with no last-update time, outside the state the other operations keep. Alarms and events are PDL registers.
- RtcDriver.Rtc: the hardware clock is a field, and reads take the current time `now` as a parameter. Within one call the clock does not advance.
- syspm `deepsleep`, `hibernate`, `sleep`, `set/get_system_state`, tickless idle, `get_deepsleep_mode` and `set_lpcomp_wakeup_source`: each is a single ROM or PDL request.
- The AFTER_DS_WFI_TRANSITION mode: the syspm dispatcher of this HAL never produces it. The callbacks that mention it do nothing in that mode.
- DMA `init_cfg`, `connect_digital`/`disconnect_digital` and the other constant stubs, and `get_max_elements_per_burst`. The busy status, and the SRAM and peripheral address windows, are parameters.
- ADC `init`/`init_cfg`/`free`/`set_power`, the hardware configuration it writes, and the constant `connect_digital`-style stubs: PDL sequences. The object starts in the state init leaves on success.
- AdcMic.Calibrate: a CIC after a started calibration completes it whether or not a second ADC_READY has arrived in between. The model does not order the two interrupts beyond what the flags record.
- PDM/PCM pin reservation and the AMIC bring-up inside `cyhal_pdm_pcm_init` (comparator and ADC init), the PDL init sequence, `free`, `clear` and `init_cfg` (UNSUPPORTED): PDL sequences and hardware-manager calls.
- Comparator `set_power` (NOT_SUPPORTED) and the hardware clear calls inside init and free.
- SDIO `init`, `free` and `init_cfg` (UNSUPPORTED). Pin reservation is modelled for the other drivers and follows the same utility. Sdio.Device.constructor is the state a successful init leaves, with the event mask assumed empty: init does not set `events` itself.
- `_cyhal_utils_get_resource` is modelled as a first-match lookup, `map_resources_equal` as equal block and channel, and `release_if_used` as releasing any pin that is not NC.
- UtilsImpl.PeriClocks.SetFreq: for an SCB clock the PDL's reported frequency must be non-zero. A report of 0 makes `source/cyhal_utils_impl.c:156` divide by zero, which C leaves undefined, so the model does not accept that answer.

## Findings

| source | as written | input that shows it | evidently intended | confidence | as-written member | corrected member |
|---|---|---|---|---|---|---|
| source/cyhal_t2timer.c:145 | init stores the address of the configuration's `callback_func` field as the callback | any non-NULL configuration | store the configured callback itself | not executed | T2Timer.InitCallbackAsWritten | T2Timer.InitCallbackIntended |
| include_pvt/cyhal_gpio_impl.h:62 | `PULL_UP_MASK \| PULL_DOWN_MASK` is substituted unparenthesised under `~`, so only the pull-up bit is cleared | a pad configuration with the pull-down bit set | clear both pull bits | not executed | GpioCfg.PullUpDownNoneKeepsPullDown | GpioCfg.PullUpDownNone |
| source/cyhal_gpio.c:554 | the test `pinMap.pin == pin` passes for BT_GPIO_0 with the all-zero map left when no entry was selected | BT_GPIO_0 after BTSS_GPIO_0 has been given a pad | fail with BAD_PARAM when no entry was selected | not executed | Gpio.GpioState.SearchAndConnectAsWritten | Gpio.GpioState.SearchAndConnect |
| source/cyhal_gpio.c:574-577 | a failed reservation also runs `cyhal_gpio_free` and releases the resource and pad another owner holds | a pin already reserved elsewhere | return the reservation error without touching the pin | not executed | Gpio.GpioState.InitAsWritten | Gpio.GpioState.Init |
| source/cyhal_rtc.c:333-334 | tm_yday adds the 1-based day of the month, so 1 January is day 1 | 1 January of any year | 0-based tm_yday, as in section 7.27.1 of ISO/IEC 9899:2011 | not executed | RtcCalendar.YearDayAsWrittenOffByOne | RtcCalendar.YearDay |
| source/cyhal_rtc.c:583-588 | Zeller's formula without moving January and February into the previous year | 31 December 2023 and 1 January 2024 both give Sunday | a day of the week that advances by one each day | not executed | RtcCalendar.DayOfWeekAsWrittenRepeats | RtcCalendar.WeekdayNext |
| source/cyhal_rtc.c:512-517 | the day is shifted by `_CYHAL_RTC_MONTHS_PLACE` (10) onto the month bits | 1 April at noon under a March-to-November rule reads as outside DST | shift the day by 5, as the transition check does | not executed | RtcDriver.GetDstStatusAsWrittenMissesApril | RtcDriver.GetDstStatusInCalendarTerms |
| source/cyhal_rtc.c:377 | the start of the stored rule takes the stop's month | a rule from 10 March to 3 November stored as November to November | copy the start's own month | not executed | RtcDriver.StoreRuleAsWrittenLosesStart | RtcDriver.StoreRuleIgnoresStale |
| source/cyhal_rtc.c:403 | `set_dst` writes through `_cyhal_rtc_when_last_dst`, which init leaves NULL | the first `set_dst` after init | keep the last-update time in storage the driver owns | not executed | RtcDriver.SetDstAfterInitFaults | RtcDriver.Rtc.SetDst |
| source/cyhal_rtc.c:556 | `relative_to_fixed` reads the year through `_cyhal_rtc_get_rtc_time`, which runs the transition check, which calls `relative_to_fixed` again | any active rule with a relative end | read the year from the hardware clock without a transition check | not executed | RtcDriver.RelativeRuleNeverReturns | RtcDriver.Rtc.CheckForDstTransition |
| source/cyhal_dma.c:280 | init enters the object at its trigger channel `channel`, which may be unallocated (255), rather than at the hardware channel `resource.channel_num` that free clears | no DMAC trigger on either side: the write lands at index 255 of the 8-entry table | enter the object at its hardware channel, unique among live objects and below 8 | not executed | Dma.StoreIndexAsWrittenOutOfRange | Dma.Driver.InitAdv |
| source/cyhal_dma.c:280 | objects whose triggers pick the same channel share one table entry, so the PM check skips all but the last, and free (which clears the hardware channel's entry) leaves the freed object in the table | two objects with SCB0 and SCB1 destination triggers: both are entered at index 1 | enter the object at its hardware channel, so every live object is seen by the PM check | not executed | Dma.StoreIndexAsWrittenShared | Dma.Driver.PmCallback |
| source/cyhal_adc_mic.c:501-504 | the zero-filled eighth entry of the ADC input map matches BT_GPIO_0 | a differential channel on BT_GPIO_0 | reject a pin with no real entry | not executed | AdcMic.VplusAsWrittenAcceptsBtGpio0 | AdcMic.VplusPins |
| source/cyhal_adc_mic.c:658-669 | with `num_scan` 0 the read is started with zero scans left but its buffer kept, so the ADC stays busy | `read_async` with `num_scan` 0 | complete at once, as with no enabled channel | not executed | AdcMic.StartScanAsWrittenZeroStuck | AdcMic.StartScan |
| source/cyhal_adc_mic.c:682-694 | `read_async` sets the microvolt flag before the busy check, so a refused call changes the running read's units | `read_async_uv` while a `read_async` is in flight | leave the running read alone | not executed | AdcMic.Adc.ReadAsyncAsWritten | AdcMic.Adc.ReadAsync |
| source/cyhal_comp.c:156-170 | the zero-filled fourth entry of the inverting-input map matches BT_GPIO_0 | a comparator with vin_m BT_GPIO_0 | reject a pin with no real entry | not executed | Comp.SelectAsWrittenAcceptsBtGpio0 | Comp.SelectDcPairs |
| source/cyhal_comp.c:149-181 | the fallback to NTD mode turns an earlier output-pin error into success | vin_p MIC_P, no vin_m, an unmapped output pin | keep the output-pin error | not executed | Comp.SelectAsWrittenIgnoresOutput | Comp.Select |
| source/cyhal_sdio.c:147-151 | AFTER_TRANSITION does not clear `pm_transition_pending`, unlike the DMA and PDM/PCM callbacks | a completed deep-sleep cycle: every later `dev_read_async`/`dev_write_async` is PM_PENDING | clear the flag when the transition ends | not executed | Sdio.PendingSurvivesWakeAsWritten | Sdio.RunEndsClear |
