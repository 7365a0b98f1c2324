/** The declarations of include/LoRa.h: the configuration enumerations, the
    status codes and the configuration record `LoRaConfig_t`.

    A C enumeration-typed variable can hold any `int` value, not only its
    enumerators, so each enumeration is modelled by its underlying `int`
    (16 bits on the target) together with its enumerators, numbered from 0 in
    declaration order as C numbers them. That keeps reachable the "ERROR"
    fallback of the driver's token tables. */
module LoRaTypes {

  import opened MachineInts

  type EnumValue = int16

  // LoRaBaseBand_e
  const EU868: EnumValue := 0
  const US915: EnumValue := 1
  const AU920: EnumValue := 2
  const BaseBandEnumerators: seq<EnumValue> := [EU868, US915, AU920]

  // LoRaClass_e
  const A: EnumValue := 0
  const B: EnumValue := 1
  const C: EnumValue := 2
  const ClassEnumerators: seq<EnumValue> := [A, B, C]

  // LoRaTxPower_e
  const dBm30: EnumValue := 0
  const dBm28: EnumValue := 1
  const dBm26: EnumValue := 2
  const dBm24: EnumValue := 3
  const dBm22: EnumValue := 4
  const dBm20: EnumValue := 5
  const dBm18: EnumValue := 6
  const dBm16: EnumValue := 7
  const dBm14: EnumValue := 8
  const dBm12: EnumValue := 9
  const dBm10: EnumValue := 10
  const TxPowerEnumerators: seq<EnumValue> :=
    [dBm30, dBm28, dBm26, dBm24, dBm22, dBm20, dBm18, dBm16, dBm14, dBm12, dBm10]

  // LoRaDR_e
  const DR0: EnumValue := 0
  const DR1: EnumValue := 1
  const DR2: EnumValue := 2
  const DR3: EnumValue := 3
  const DR4: EnumValue := 4
  const DR5: EnumValue := 5
  const DR6: EnumValue := 6
  const DR7: EnumValue := 7
  const DR8: EnumValue := 8
  const DR9: EnumValue := 9
  const DR10: EnumValue := 10
  const DR11: EnumValue := 11
  const DR12: EnumValue := 12
  const DR13: EnumValue := 13
  const DR14: EnumValue := 14
  const DR15: EnumValue := 15
  const DataRateEnumerators: seq<EnumValue> :=
    [DR0, DR1, DR2, DR3, DR4, DR5, DR6, DR7, DR8, DR9, DR10, DR11, DR12, DR13, DR14, DR15]

  // LoRaBool_e
  const ON: EnumValue := 0
  const OFF: EnumValue := 1
  const BoolEnumerators: seq<EnumValue> := [ON, OFF]

  // LoRaAuthMode_e
  const LWABP: EnumValue := 0
  const LWOTAA: EnumValue := 1
  const LWTEST: EnumValue := 2
  const AuthModeEnumerators: seq<EnumValue> := [LWABP, LWOTAA, LWTEST]

  // LoRaStatusCode_e; the driver returns them as uint8_t
  const LORA_STATUS_OK: uint8 := 0
  const LORA_STATUS_UART_FAIL: uint8 := 1
  const LORA_STATUS_UNINITIALIZED: uint8 := 2
  const StatusCodes: seq<uint8> := [LORA_STATUS_OK, LORA_STATUS_UART_FAIL, LORA_STATUS_UNINITIALIZED]

  /** The enumerators of an enumeration are 0, 1, 2, ... in declaration order. */
  predicate NumberedInOrder(enumerators: seq<int>) {
    forall i :: 0 <= i < |enumerators| ==> enumerators[i] == i
  }

  /** The transmit power in dBm that a LoRaTxPower_e enumerator names. */
  function TxPowerDbm(p: EnumValue): int {
    30 - 2 * p
  }

  /** LoRaConfig_t. The two serial handles are not part of the record: the
      modem link is the driver's scripted transport and debug output is not
      modelled. Identifiers and keys are unconstrained strings and the
      sub-band is a raw uint8_t. */
  datatype LoRaConfig = LoRaConfig(
    baseband: EnumValue,
    subband: uint8,
    opClass: EnumValue,
    txPower: EnumValue,
    uplinkDr: EnumValue,
    adr: EnumValue,
    authMode: EnumValue,
    devEui: string,
    appEui: string,
    repeat: string,
    retry: string,
    devAddr: string,
    appKey: string,
    appsKey: string,
    nwksKey: string,
    rxwin2Freq: string,
    rxwin2Dr: EnumValue,
    chan0Freq: string,
    chan0Dr: EnumValue,
    chan1Freq: string,
    chan1Dr: EnumValue,
    debug: bool)

  /** The value of a `LoRaConfig_t` member of an object with static storage
      before `init` stores one: numbers 0, strings empty, debug off. */
  const ZeroConfig: LoRaConfig :=
    LoRaConfig(0, 0, 0, 0, 0, 0, 0, "", "", "", "", "", "", "", "", "", 0, "", 0, "", 0, false)

  /** The status codes are three distinct values and OK is the first, 0. */
  lemma StatusCodesDistinct()
    ensures NumberedInOrder(StatusCodes) && |StatusCodes| == 3
    ensures LORA_STATUS_OK == 0
    ensures LORA_STATUS_OK != LORA_STATUS_UART_FAIL && LORA_STATUS_UART_FAIL != LORA_STATUS_UNINITIALIZED
    ensures LORA_STATUS_OK != LORA_STATUS_UNINITIALIZED
  {
  }

  /** LoRaTxPower_e has exactly 11 enumerators, 30 dBm down to 10 dBm in steps
      of 2 in declaration order. */
  lemma TxPowerEnumeration()
    ensures |TxPowerEnumerators| == 11 && NumberedInOrder(TxPowerEnumerators)
    ensures forall i :: 0 <= i < 11 ==> TxPowerDbm(TxPowerEnumerators[i]) == 30 - 2 * i
    ensures TxPowerDbm(dBm30) == 30 && TxPowerDbm(dBm10) == 10
  {
  }

  /** The sizes of the other enumerations: 16 data rates DR0..DR15, and 3, 3,
      2 and 3 values for base band, class, boolean and authentication mode. */
  lemma EnumerationSizes()
    ensures |DataRateEnumerators| == 16 && NumberedInOrder(DataRateEnumerators)
    ensures |BaseBandEnumerators| == 3 && NumberedInOrder(BaseBandEnumerators)
    ensures |ClassEnumerators| == 3 && NumberedInOrder(ClassEnumerators)
    ensures |BoolEnumerators| == 2 && NumberedInOrder(BoolEnumerators)
    ensures |AuthModeEnumerators| == 3 && NumberedInOrder(AuthModeEnumerators)
  {
  }
}
