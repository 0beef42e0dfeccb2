/** The package pins (cyhal_gpio_t of include_pvt/cyhal_pin_package.h) and
    the pin-to-resource connection tables of source/cyhal_pin_package.c.
    Arrays the C declares longer than their initialisers keep their
    zero-filled tail entries here, because the lookup loops visit them. */
module Pins {
  import opened Options

  /** No-connect / invalid pin. */
  const NC: int := 0xFF

  const BtGpio0: int := 0
  const BtGpio2: int := 1
  const BtGpio3: int := 2
  const BtGpio4: int := 3
  const BtGpio5: int := 4
  const BtGpio6: int := 5
  const BtGpio7: int := 6
  const BtGpio8: int := 7
  const BtGpio9: int := 8
  const BtGpio10: int := 9
  const BtGpio11: int := 10
  const BtGpio12: int := 11
  const BtGpio13: int := 12
  const BtGpio14: int := 13
  const BtGpio15: int := 14
  const BtGpio16: int := 15
  const BtGpio17: int := 16
  const BtHostWake: int := 17
  const BtUartCtsN: int := 18
  const BtUartRtsN: int := 19
  const BtUartRxd: int := 20
  const BtUartTxd: int := 21
  const DmicCk: int := 22
  const DmicDq: int := 23
  const LhlGpio2: int := 24
  const LhlGpio3: int := 25
  const LhlGpio4: int := 26
  const LhlGpio5: int := 27
  const LhlGpio6: int := 28
  const LhlGpio7: int := 29
  const LhlGpio8: int := 30
  const LhlGpio9: int := 31
  const Tdm1Di: int := 32
  const Tdm1Do: int := 33
  const Tdm1Mck: int := 34
  const Tdm1Sck: int := 35
  const Tdm1Ws: int := 36
  const Tdm2Sck: int := 37
  const Tdm2Di: int := 38
  const Tdm2Mck: int := 39
  const Tdm2Do: int := 40
  const Tdm2Ws: int := 41
  /** One past the reconfigurable pins. */
  const BtGpioLast: int := 42

  const MicP: int := 50
  const SdioData0: int := 51
  const SdioData1: int := 52
  const SdioData2: int := 53
  const SdioData3: int := 54
  const SdioClk: int := 55
  const SdioCmd: int := 56

  /** The pin-mux functions the tables use (BTSS_PINMUX_FUNC_LIST_t, whose
      numeric values the ROM headers define).  FuncZero is the value 0 of a
      zero-filled table entry. */
  datatype Func =
    | FuncNone
    | FuncGpio(k: nat)
    | FuncAGpio(k: nat)
    | FuncBGpio(k: nat)
    | FuncDmicCk
    | FuncDmicDq
    | FuncZero

  /** cyhal_resource_pin_mapping_t */
  datatype Mapping = Mapping(block: int, channel: int, pin: int, func: Func)

  /** A zero-filled entry: block 0, channel 0, pin BT_GPIO_0. */
  const ZeroMapping: Mapping := Mapping(0, 0, 0, FuncZero)

  /** cyhal_pin_map_sw_gpio[CYHAL_GPIO_CLUSTER_BTSS]: 48 entries and the
      zero-filled 49th, entry by entry. */
  function SwGpioEntry(i: nat): Mapping
    requires i < 49
  {
    match i
    case 0 => Mapping(0, BtGpio0, BtGpio0, FuncGpio(0))
    case 1 => Mapping(0, BtGpio2, BtGpio2, FuncGpio(2))
    case 2 => Mapping(0, BtGpio3, BtGpio3, FuncGpio(3))
    case 3 => Mapping(0, BtGpio4, BtGpio4, FuncGpio(4))
    case 4 => Mapping(0, BtGpio5, BtGpio5, FuncGpio(5))
    case 5 => Mapping(0, BtGpio6, BtGpio6, FuncGpio(6))
    case 6 => Mapping(0, BtGpio7, BtGpio7, FuncGpio(7))
    case 7 => Mapping(0, BtGpio8, BtGpio8, FuncAGpio(0))
    case 8 => Mapping(0, BtGpio9, BtGpio9, FuncAGpio(1))
    case 9 => Mapping(0, BtGpio10, BtGpio10, FuncAGpio(2))
    case 10 => Mapping(0, BtGpio10, BtGpio10, FuncAGpio(5))
    case 11 => Mapping(0, BtGpio11, BtGpio11, FuncAGpio(3))
    case 12 => Mapping(0, BtGpio11, BtGpio11, FuncAGpio(6))
    case 13 => Mapping(0, BtGpio12, BtGpio12, FuncAGpio(4))
    case 14 => Mapping(0, BtGpio12, BtGpio12, FuncGpio(7))
    case 15 => Mapping(0, BtGpio13, BtGpio13, FuncAGpio(5))
    case 16 => Mapping(0, BtGpio13, BtGpio13, FuncGpio(6))
    case 17 => Mapping(0, BtGpio14, BtGpio14, FuncAGpio(6))
    case 18 => Mapping(0, BtGpio15, BtGpio15, FuncAGpio(7))
    case 19 => Mapping(0, BtGpio16, BtGpio16, FuncAGpio(0))
    case 20 => Mapping(0, BtGpio16, BtGpio16, FuncGpio(7))
    case 21 => Mapping(0, BtGpio17, BtGpio17, FuncAGpio(1))
    case 22 => Mapping(0, BtGpio17, BtGpio17, FuncGpio(7))
    case 23 => Mapping(0, BtHostWake, BtHostWake, FuncGpio(1))
    case 24 => Mapping(0, BtUartCtsN, BtUartCtsN, FuncAGpio(1))
    case 25 => Mapping(0, BtUartRtsN, BtUartRtsN, FuncAGpio(0))
    case 26 => Mapping(0, BtUartRxd, BtUartRxd, FuncGpio(5))
    case 27 => Mapping(0, BtUartTxd, BtUartTxd, FuncGpio(4))
    case 28 => Mapping(0, DmicCk, DmicCk, FuncGpio(0))
    case 29 => Mapping(0, DmicDq, DmicDq, FuncGpio(1))
    case 30 => Mapping(0, LhlGpio2, LhlGpio2, FuncBGpio(0))
    case 31 => Mapping(0, LhlGpio3, LhlGpio3, FuncBGpio(1))
    case 32 => Mapping(0, LhlGpio4, LhlGpio4, FuncBGpio(2))
    case 33 => Mapping(0, LhlGpio5, LhlGpio5, FuncBGpio(3))
    case 34 => Mapping(0, LhlGpio6, LhlGpio6, FuncBGpio(4))
    case 35 => Mapping(0, LhlGpio8, LhlGpio8, FuncBGpio(6))
    case 36 => Mapping(0, LhlGpio9, LhlGpio9, FuncBGpio(7))
    case 37 => Mapping(0, Tdm1Di, Tdm1Di, FuncAGpio(5))
    case 38 => Mapping(0, Tdm1Do, Tdm1Do, FuncAGpio(6))
    case 39 => Mapping(0, Tdm1Mck, Tdm1Mck, FuncAGpio(4))
    case 40 => Mapping(0, Tdm1Sck, Tdm1Sck, FuncAGpio(3))
    case 41 => Mapping(0, Tdm1Ws, Tdm1Ws, FuncAGpio(2))
    case 42 => Mapping(0, Tdm2Sck, Tdm2Sck, FuncAGpio(0))
    case 43 => Mapping(0, Tdm2Di, Tdm2Di, FuncGpio(6))
    case 44 => Mapping(0, Tdm2Mck, Tdm2Mck, FuncAGpio(1))
    case 45 => Mapping(0, Tdm2Mck, Tdm2Mck, FuncAGpio(7))
    case 46 => Mapping(0, Tdm2Do, Tdm2Do, FuncGpio(7))
    case 47 => Mapping(0, Tdm2Ws, Tdm2Ws, FuncAGpio(7))
    case _ => ZeroMapping
  }

  const SwGpio: seq<Mapping> := seq(49, i requires 0 <= i < 49 => SwGpioEntry(i))

  /** cyhal_pin_map_adcmic_gpio_adc_in[8]: seven entries and a zero-filled one. */
  const AdcIn: seq<Mapping> := [
    Mapping(0, 0, LhlGpio2, FuncNone),
    Mapping(0, 1, LhlGpio3, FuncNone),
    Mapping(0, 2, LhlGpio4, FuncNone),
    Mapping(0, 3, LhlGpio5, FuncNone),
    Mapping(0, 4, LhlGpio6, FuncNone),
    Mapping(0, 6, LhlGpio8, FuncNone),
    Mapping(0, 7, LhlGpio9, FuncNone),
    ZeroMapping
  ]

  /** cyhal_pin_map_lpcomp_inp_comp[4] */
  const LpcompInp: seq<Mapping> := [
    Mapping(0, 1, LhlGpio4, FuncNone),
    Mapping(0, 1, LhlGpio5, FuncNone),
    Mapping(0, 0, LhlGpio8, FuncNone),
    Mapping(0, 0, LhlGpio9, FuncNone)
  ]

  /** cyhal_pin_map_lpcomp_inn_comp[4]: three entries and a zero-filled one. */
  const LpcompInn: seq<Mapping> := [
    Mapping(0, 1, LhlGpio2, FuncNone),
    Mapping(0, 1, LhlGpio3, FuncNone),
    Mapping(0, 0, LhlGpio6, FuncNone),
    ZeroMapping
  ]

  /** cyhal_pin_map_mic_p, cyhal_pin_map_dmic_ck and cyhal_pin_map_dmic_dq */
  const MicPMap: seq<Mapping> := [Mapping(0, 0, MicP, FuncNone)]
  const DmicCkMap: seq<Mapping> := [Mapping(0, 0, DmicCk, FuncDmicCk), Mapping(0, 0, LhlGpio4, FuncDmicCk)]
  const DmicDqMap: seq<Mapping> := [Mapping(0, 0, DmicDq, FuncDmicDq), Mapping(0, 0, LhlGpio5, FuncDmicDq)]

  /** The single-entry SDIO pin tables. */
  const SdioClkMap: seq<Mapping> := [Mapping(0, 0, SdioClk, FuncNone)]
  const SdioCmdMap: seq<Mapping> := [Mapping(0, 0, SdioCmd, FuncNone)]
  const SdioData0Map: seq<Mapping> := [Mapping(0, 0, SdioData0, FuncNone)]
  const SdioData1Map: seq<Mapping> := [Mapping(0, 0, SdioData1, FuncNone)]
  const SdioData2Map: seq<Mapping> := [Mapping(0, 0, SdioData2, FuncNone)]
  const SdioData3Map: seq<Mapping> := [Mapping(0, 0, SdioData3, FuncNone)]

  /** The first entry of a table for a pin (the lookup the drivers do
      through _cyhal_utils_get_resource, which is not part of this model). */
  function FindPin(table: seq<Mapping>, pin: int): (r: Option<nat>)
    ensures r.Some? ==> r.value < |table| && table[r.value].pin == pin
    ensures r.Some? ==> forall j :: 0 <= j < r.value ==> table[j].pin != pin
    ensures r.None? ==> forall j :: 0 <= j < |table| ==> table[j].pin != pin
  {
    if |table| == 0 then None
    else if table[0].pin == pin then Some(0)
    else match FindPin(table[1..], pin)
      case None => None
      case Some(i) => Some(i + 1)
  }

  /** The mapping of a pin in a table, none for NC (the first matching
      entry, as _cyhal_utils_get_resource is modelled). */
  function Lookup(table: seq<Mapping>, pin: int): (m: Option<Mapping>)
    ensures m.Some? ==> pin != NC && m.value in table && m.value.pin == pin
    ensures m.None? ==> pin == NC || forall e :: e in table ==> e.pin != pin
  {
    if pin == NC then None
    else match FindPin(table, pin)
      case None => None
      case Some(i) => Some(table[i])
  }

  /** The zero-filled tail entry makes BT_GPIO_0 look like an ADC input:
      the lookup for pin BT_GPIO_0 finds the eighth adc_in entry. */
  lemma AdcInZeroEntryMatchesBtGpio0()
    ensures FindPin(AdcIn, BtGpio0) == Some(7)
  {
    assert AdcIn[7] == ZeroMapping;
    assert forall j :: 0 <= j < 7 ==> AdcIn[j].pin != BtGpio0;
  }
}
