/** Result codes (cy_rslt_t) returned by the HAL drivers of this model.
    Only identity matters here: each driver compares results for equality
    with CY_RSLT_SUCCESS, so the numeric encodings are not modelled.
    A foreign routine (hardware manager, ROM, PDL) whose result a driver
    passes on is modelled as returning any Rslt; Rom(code) stands for a code
    that none of the drivers here names. */
module Results {

  datatype Rslt =
    | Success
    // RTC
    | RtcBadArgument           // CY_RSLT_RTC_BAD_ARGUMENT
    | RtcErrNotSupported
    // System power management
    | SyspmPmPending
    | SyspmNotSupported
    | SyspmBadArgument
    | SyspmInitError
    | SyspmCbRegisterError
    // GPIO
    | GpioBadParam
    // DMA
    | DmaInvalidParameter
    | DmaInvalidTransferSize
    | DmaInvalidTransferWidth
    | DmaInvalidBurstSize
    | DmaUnsupportedHardware
    | DmaTransferAlreadyStarted
    // ADC
    | AdcBadArgument
    | AdcUnsupported
    | AdcNoChannels
    | AdcBusy
    // PDM/PCM
    | PdmUnsupported
    | PdmInvalidConfigParam
    | PdmBusyOperation
    | PdmInvalidPin
    | PdmBadParam
    | PdmAsyncInProgress
    // T2 timer
    | T2BadArgument
    | T2Init
    | T2Err
    // Clock
    | ClockResource
    | ClockFreq
    | ClockSource
    | ClockNotSupported
    // Comparator
    | CompInvalidPin
    | CompBadArgument
    | CompNotSupported
    // SDIO
    | SdioConfig
    | SdioBadParam
    | SdioUnsupported
    | SdioCanceled
    | SdioWriteError
    | SdioReadError
    | SdioMailboxReadError
    | SdioMailboxWriteError
    // A code defined outside the drivers of this model
    | Rom(code: int)
}
