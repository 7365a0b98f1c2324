# ATS-02 AgroTechStation firmware: a Dafny model of its core

ATS-02 is an Arduino Mega 2560 weather station. It runs on mains power or
on a battery. It samples a DHT22 (air temperature and humidity), a BH1750
light sensor and an analogue UV sensor. It accumulates the samples and, on
a transmit period, reports their averages and clears the accumulators. It
carries a driver for a LoRaWAN modem (RHF76-052) that speaks an AT-command
protocol over a UART.

This project models the deterministic core of that firmware and proves
its properties:

- **LoRaDriver** (`lora_driver.dfy`), over **LoRaTypes** (`lora_types.dfy`)
  - the `LoRa` driver class;
  - the token tables that turn each configuration enumeration into AT text
    (with their "ERROR" fallback);
  - the exact command lines;
  - the fixed, short-circuiting provisioning order of `init`;
  - the sub-band channel masking loops;
  - the slicing done by `getFWVersion`;
  - the busy flag and "Done" poll of `sendNoAckMsgHex`.

  The modem link is a scripted transport:
  - every `println` appends the line to the `sent` log;
  - every `readString` takes the next entry of the `replies` script, or ""
    (the read timeout) when the script is exhausted.
- **ConvertTools** (`convert_tools.dfy`)
  - the hex encoders `byte2hex`, `short2hex` (low byte first) and
    `long2hex` (most significant byte first), with decoders and round trips;
  - the sign-in-bit-15 packing of `float2int15` and `float2uint16`, from
    the scaled integer magnitude onward.
- **Sensors** (`sensors.dfy`)
  - the `station_sensor_t` record and how one reading is folded into it;
  - the UV-index step function `convertVoltsToIndex`.
- **Station** (`station.dfy`)
  - the globals of `main.h` as a `Station` class, with
    `resetSensorDataStruct`, `getDHTTemperature` and `getDHTHumidity`;
  - the nested system, sampling and transmit period checks of `loop`,
    over 32-bit `millis()` time.
- **MachineInts**, **ArduinoString**, **Options**
  - the AVR integer widths: `int` is 16 bits, `unsigned long` 32 bits;
  - the parts of the Arduino `String` class whose results the firmware
    depends on: `concat(int)`, `String(v, HEX)`, `substring`, `indexOf`.

Inputs that come from hardware become parameters:
- `millis()` readings;
- DHT, light and UV readings (a NaN DHT reading is `None`);
- the modem's replies.

Where the source's own documentation and its code disagree, the model
follows the code:

- `float2int15` with a `decimal` outside {0, 1, 2} returns 0 for a
  non-negative value, but 0x8000 for a negative one: the magnitude is 0 and
  the sign bit is still toggled (`UnsupportedDecimal`).
- `float2uint16` documents `decimal = 3` but returns 0 for it.
- `getFWVersion` on a reply shorter than 8 characters is well defined, by
  how Arduino's `substring` swaps and clamps its bounds and by the 16-bit
  wrap of `length() - 2` (`FirmwareVersionSlice`).
- `resetSensorDataStruct` (src/main.h:208-213) assigns `soil_moisture` and
  `soil_temperature`, which `station_sensor_t` (src/main.h:20-35) does not
  declare.
  - The configuration defines both `SENSOR_SOIL_MOISTURE_ENABLED` and
    `SENSOR_SOIL_TEMP_ENABLED`, so as configured these lines would not
    compile.
  - The model resets exactly the declared accumulators and counters.
- The turn-around flag of each period check adds nothing: if it would be
  raised, the modular difference `now - last` already reaches the period
  (`FiresIff`). No flag survives a loop call (`LoopStepEffect`).
- The `isnan` tests on the light and UV readings are on integers and never
  hold, so those readings are always accumulated.

## Model

| member | source | states |
|---|---|---|
| LoRaTypes.StatusCodesDistinct | include/LoRa.h:180-184 | the three status codes are distinct, numbered 0, 1, 2 in order, and OK is 0 |
| LoRaTypes.TxPowerEnumeration | include/LoRa.h:62-74 | exactly 11 power enumerators, numbered in order, naming 30 dBm down to 10 dBm in steps of 2 |
| LoRaTypes.EnumerationSizes | include/LoRa.h:32-174 | 16 data rates DR0..DR15; base band, class, boolean and authentication mode have 3, 3, 2 and 3 enumerators, each numbered from 0 in declaration order |
| LoRaDriver.GetLoRaBaseBandStr | src/LoRa.cpp:214-225 | the base-band token table: EU868, US915, AU920, else ERROR; its property is stated in NamedTokenTables |
| LoRaDriver.GetLoRaClassStr | src/LoRa.cpp:302-313 | the class token table: A, B, C, else ERROR; its property is stated in NamedTokenTables |
| LoRaDriver.GetLoRaTxPwrStr | src/LoRa.cpp:342-369 | the power token table; its property is stated in TxPowerTokens |
| LoRaDriver.GetLoRaUpDRStr | src/LoRa.cpp:400-437 | the data-rate token table; its property is stated in UplinkDrTokens |
| LoRaDriver.GetLoRaBoolStr | src/LoRa.cpp:466-475 | the ON/OFF token table; its property is stated in NamedTokenTables |
| LoRaDriver.GetLoRaAuthModeStr | src/LoRa.cpp:505-516 | the authentication-mode token table; its property is stated in NamedTokenTables |
| LoRaDriver.NamedTokenTables | src/LoRa.cpp:214-516 | the base-band, class, boolean and authentication-mode tables send enumerator i to the i-th token and every other value to "ERROR" |
| LoRaDriver.TxPowerTokens | src/LoRa.cpp:342-369 | the power token of enumerator p is the decimal text of its dBm value; any other value gives "ERROR" |
| LoRaDriver.UplinkDrTokens | src/LoRa.cpp:400-437 | the data-rate token of DRn is "DR" followed by n in decimal; any other value gives "ERROR" |
| LoRaDriver.BaseBandCommand | src/LoRa.cpp:196-197 | `AT+DR=` followed by the base-band token; sent by SetLoRaBaseBand |
| LoRaDriver.ClassCommand | src/LoRa.cpp:284-285 | `AT+CLASS=` followed by the class token; sent by SetLoRaClass |
| LoRaDriver.TxPowerCommand | src/LoRa.cpp:324-325 | `AT+POWER=` followed by the power token; sent by SetLoRaTxPwr |
| LoRaDriver.AdrCommand | src/LoRa.cpp:448-449 | `AT+ADR=` followed by the ON/OFF token; sent by SetLoRaADR |
| LoRaDriver.UplinkDrCommand | src/LoRa.cpp:380-381 | `AT+DR=` followed by the data-rate token; sent by SetLoRaUpDR |
| LoRaDriver.AuthModeCommand | src/LoRa.cpp:486-487 | `AT+MODE=` followed by the mode token; sent by SetLoRaAuthMode |
| LoRaDriver.QuotedCommand | src/LoRa.cpp:527-529 | `<prefix>"<value>"`; it is inverted by QuotedArgument (QuotedArgumentRoundTrip) |
| LoRaDriver.DevEuiCommand | src/LoRa.cpp:527-529 | the quoted DevEui line; IdentifierCommandsVerbatim reads the configured value back from it |
| LoRaDriver.AppEuiCommand | src/LoRa.cpp:549-551 | the quoted AppEui line; IdentifierCommandsVerbatim reads the configured value back from it |
| LoRaDriver.DevAddrCommand | src/LoRa.cpp:571-573 | the quoted DevAddr line; IdentifierCommandsVerbatim reads the configured value back from it |
| LoRaDriver.NwkSKeyCommand | src/LoRa.cpp:593-595 | the quoted NwkSKey line; IdentifierCommandsVerbatim reads the configured value back from it |
| LoRaDriver.AppSKeyCommand | src/LoRa.cpp:615-617 | the quoted AppSKey line; IdentifierCommandsVerbatim reads the configured value back from it |
| LoRaDriver.QuotedArgument | src/LoRa.cpp:527-529 | a value read back from a command line is exactly what that line was built from |
| LoRaDriver.QuotedArgumentRoundTrip | src/LoRa.cpp:571-573 | any value, however malformed, is embedded verbatim between the quotes and read back unchanged |
| LoRaDriver.IdentifierCommandsVerbatim | src/LoRa.cpp:518-626 | the DevEui, AppEui, DevAddr, NwkSKey and AppSKey commands carry the configured strings verbatim |
| LoRaDriver.ChannelOffCommand | src/LoRa.cpp:242-244 | `AT+CH=<i>, 0` with i in decimal; ChannelOffCommandInjective proves distinct channels give distinct lines |
| LoRaDriver.ToAscii | src/LoRa.cpp:652 | `toAscii` keeps the low 7 bits of the port |
| LoRaDriver.PortCommand | src/LoRa.cpp:651-652 | `AT+PORT=` followed by the 7-bit port in decimal; sent first by SendNoAckMsgHex |
| LoRaDriver.MsgHexCommand | src/LoRa.cpp:666-668 | `AT+MSGHEX="<buf>"`; sent second by SendNoAckMsgHex |
| LoRaDriver.SubBandCommands | src/LoRa.cpp:231-273 | the channel lines of a sub-band; characterised by SubBandOne, SubBandTwo and SubBandOther |
| LoRaDriver.ChannelOffCommandInjective | src/LoRa.cpp:242-244 | different channels are disabled by different `AT+CH=<i>, 0` lines |
| LoRaDriver.SubBandOne | src/LoRa.cpp:240-247 | sub-band 1 sends `AT+CH=<i>, 0` for i = 8..71 ascending, 64 lines |
| LoRaDriver.SubBandTwo | src/LoRa.cpp:248-268 | sub-band 2 sends 63 lines in strictly ascending channel order; a channel is disabled exactly when it is not 8..15, not 65 and not above 71 |
| LoRaDriver.SubBandOther | src/LoRa.cpp:239-270 | any other sub-band sends no channel command |
| LoRaDriver.Drop | src/LoRa.cpp:132 | the script after n `readString` calls has n fewer replies, and none once n reaches the script's length |
| LoRaDriver.DropRemainder | src/LoRa.cpp:132 | what is left after n reads is the script's remainder in order: the n replies read followed by it give the script back |
| LoRaDriver.InitCommands | src/LoRa.cpp:10-101 | every line `init` sends, given the probe reply; characterised by InitFailsFast, InitCommandLayout and InitNeverSendsAppEui |
| LoRaDriver.InitFailsFast | src/LoRa.cpp:15-18 | init reports OK exactly when the probe reply is "+AT: OK\r\n"; otherwise, an empty reply included, it reports UART_FAIL and the probe is the only line sent |
| LoRaDriver.InitCommandLayout | src/LoRa.cpp:10-101 | after a good probe: 12 lines, plus 1 with debug, plus the channel lines; probe first, reset second, the version query only with debug, base band, the channel lines, then class, power, ADR, data rate, DevEui, mode, DevAddr, NwkSKey, AppSKey |
| LoRaDriver.InitNeverSendsAppEui | src/LoRa.cpp:77-81 | no line init sends sets the AppEui |
| LoRaDriver.FirmwareVersion | src/LoRa.cpp:156 | `substring(6, length() - 2)` with 16-bit subtraction; characterised by FirmwareVersionSlice |
| LoRaDriver.FirmwareVersionSlice | src/LoRa.cpp:149-157 | the version is the reply from index 6 to its last two characters for replies of 8 or more characters; "" below 2 characters; for 2..7 characters, the characters from index length-2 up to index 6 |
| LoRaDriver.FirmwareVersionExample | src/LoRa.cpp:156 | a well-formed "+VER: 2.0.10\r\n" gives "2.0.10"; an empty reply gives ""; "OK\r\n" gives "\r\n" |
| LoRaDriver.HasDone | src/LoRa.cpp:678 | the `indexOf("Done") != -1` test; characterised by HasDoneIffSubstring |
| LoRaDriver.HasDoneIffSubstring | src/LoRa.cpp:677 | a chunk passes the `indexOf("Done") != -1` test exactly when "Done" occurs in it |
| LoRaDriver.AnyDoneExists | src/LoRa.cpp:670-681 | the busy flag is cleared by a sequence of chunks exactly when some chunk contains "Done" |
| LoRaDriver.LoRa.constructor | include/LoRa.h:217-220 | a new driver is not busy and has sent nothing |
| LoRaDriver.LoRa.Exchange | src/LoRa.cpp:130-132 | `println` appends the line to the log; `readString` returns the next reply or "" and consumes it |
| LoRaDriver.LoRa.ConfigStep | src/LoRa.cpp:172-180 | a configuration step sends its line, reads one reply and reports OK whatever the reply |
| LoRaDriver.LoRa.SetSerialInterface | src/LoRa.cpp:103-147 | sends "AT"; reports OK exactly for the reply "+AT: OK\r\n", UART_FAIL for any other |
| LoRaDriver.LoRa.ResetLoRaModule | src/LoRa.cpp:163-181 | sends "AT+RESET", reads one reply, reports OK |
| LoRaDriver.LoRa.GetFWVersion | src/LoRa.cpp:149-157 | sends "AT+VER" and returns the slice of its reply |
| LoRaDriver.LoRa.SetLoRaBaseBand | src/LoRa.cpp:187-206 | sends "AT+DR=" and the base-band token, reports OK |
| LoRaDriver.LoRa.DisableChannels | src/LoRa.cpp:241-246 | one counting loop: sends the channel-off lines for lo..hi-1 in order, one reply read per line |
| LoRaDriver.LoRa.SetLoRaSubBand | src/LoRa.cpp:231-273 | sends exactly the sub-band's channel lines, one reply each, and reports OK |
| LoRaDriver.LoRa.SetLoRaClass | src/LoRa.cpp:275-294 | sends "AT+CLASS=" and the class token, reports OK |
| LoRaDriver.LoRa.SetLoRaTxPwr | src/LoRa.cpp:315-334 | sends "AT+POWER=" and the power token, reports OK |
| LoRaDriver.LoRa.SetLoRaUpDR | src/LoRa.cpp:371-392 | sends "AT+DR=" and the data-rate token, reports OK |
| LoRaDriver.LoRa.SetLoRaADR | src/LoRa.cpp:439-458 | sends "AT+ADR=" and the ON/OFF token, reports OK |
| LoRaDriver.LoRa.SetLoRaAuthMode | src/LoRa.cpp:477-496 | sends "AT+MODE=" and the mode token, reports OK |
| LoRaDriver.LoRa.SetLoRaDevEUI | src/LoRa.cpp:518-538 | sends the quoted DevEui, reports OK |
| LoRaDriver.LoRa.SetLoRaAppEUI | src/LoRa.cpp:540-560 | sends the quoted AppEui, reports OK |
| LoRaDriver.LoRa.SetLoRaDevAddr | src/LoRa.cpp:562-582 | sends the quoted DevAddr, reports OK |
| LoRaDriver.LoRa.SetLoRaNwkSKey | src/LoRa.cpp:584-604 | sends the quoted NwkSKey, reports OK |
| LoRaDriver.LoRa.SetLoRaAppSKey | src/LoRa.cpp:606-626 | sends the quoted AppSKey, reports OK |
| LoRaDriver.LoRa.ConfigureRadio | src/LoRa.cpp:21-46 | the reset, the version query when debugging, base band and sub-band, each checked, in that order |
| LoRaDriver.LoRa.ProvisionSession | src/LoRa.cpp:48-98 | class, power, ADR, data rate, DevEui and mode, each checked, then DevAddr, NwkSKey and AppSKey; the result is the AppSKey step's OK |
| LoRaDriver.LoRa.Init | src/LoRa.cpp:10-101 | stores the configuration; the status is OK exactly after a good probe and UART_FAIL otherwise; the lines sent and replies read are exactly those of the provisioning order |
| LoRaDriver.LoRa.SendNoAckMsgHex | src/LoRa.cpp:637-685 | sets busy, sends "AT+PORT=<port>" then `AT+MSGHEX="<buf>"`, reads every chunk; busy is cleared exactly when some chunk after the port reply contains "Done", and then the result is OK |
| ArduinoString.Substring | src/LoRa.cpp:156 | `substring` never returns more than the string |
| ArduinoString.IndexOf | src/LoRa.cpp:677 | -1 exactly for an empty string or a pattern that occurs nowhere; otherwise the first occurrence |
| ArduinoString.DigitsInjective | src/LoRa.cpp:243 | different numbers are written as different decimal or hex text |
| ConvertTools.Byte2Hex | include/convert_tools.h:100-109 | `byte2hex`; its layout is stated in Byte2HexDigits and its inverse in Byte2HexRoundTrip |
| ConvertTools.Short2Hex | include/convert_tools.h:111-129 | `short2hex`; its layout is stated in Short2HexLayout and its inverse in Short2HexRoundTrip |
| ConvertTools.Long2Hex | include/convert_tools.h:131-160 | `long2hex`; its layout is stated in Long2HexLayout and its inverse in Long2HexRoundTrip |
| ConvertTools.Byte2HexDigits | include/convert_tools.h:100-109 | `byte2hex(v)` is two lower-case hex digits, high nibble first, zero-padded for v <= 0xF |
| ConvertTools.Byte2HexRoundTrip | include/convert_tools.h:103-106 | reading back `byte2hex` gives the byte, and any text that reads as that byte is what `byte2hex` writes |
| ConvertTools.Short2HexLayout | include/convert_tools.h:111-129 | `short2hex(v)` is 4 characters: the low byte's digits, then the high byte's |
| ConvertTools.Short2HexRoundTrip | include/convert_tools.h:116-126 | reading low byte first recovers the value, and text that reads as it is exactly what `short2hex` writes |
| ConvertTools.Long2HexLayout | include/convert_tools.h:131-160 | `long2hex(v)` is 8 characters: the bytes most significant first, each zero-padded |
| ConvertTools.Long2HexRoundTrip | include/convert_tools.h:135-157 | reading most significant byte first recovers the value, and text that reads as it is exactly what `long2hex` writes |
| ConvertTools.HexEncodersInjective | include/convert_tools.h:100-160 | each of the three encoders is injective |
| ConvertTools.HexExamples | include/convert_tools.h:111-160 | 0x0A gives "0a", 0xFF "ff", 0x1234 "3412", 0x12345678 "12345678" |
| ConvertTools.Float2Int15 | include/convert_tools.h:47-68 | `float2int15` from the scaled magnitude on; its properties are stated in Float2Int15Sign, Float2Int15RoundTrip and UnsupportedDecimal |
| ConvertTools.Float2Uint16 | include/convert_tools.h:81-98 | `float2uint16` from the scaled magnitude on; its properties are stated in UnsupportedDecimal and Float2Uint16IgnoresSign |
| ConvertTools.FlipSignBit | include/convert_tools.h:63-65 | XOR with 0x8000 keeps bits 14..0 and inverts bit 15 |
| ConvertTools.Float2Int15Sign | include/convert_tools.h:47-68 | for a negative value, bit 15 of the word is the opposite of the magnitude's bit 15 |
| ConvertTools.Float2Int15TogglesNotSets | include/convert_tools.h:63-65 | the sign is toggled, not OR'ed: magnitude 0x8001 negative gives 1 |
| ConvertTools.Float2Int15RoundTrip | include/convert_tools.h:47-68 | a magnitude below 0x8000 reads back with its sign |
| ConvertTools.UnsupportedDecimal | include/convert_tools.h:55-61 | `decimal` above 2 gives 0 from `float2uint16`, and from `float2int15` 0 for a non-negative value and 0x8000 for a negative one |
| ConvertTools.Float2Uint16IgnoresSign | include/convert_tools.h:81-98 | `float2uint16` encodes a negative value as its absolute value, the same word `float2int15` gives for the non-negative value |
| Sensors.Increment | src/main.h:158 | a `uint8_t` count goes up by one, and 255 wraps to 0 |
| Sensors.AddTemperature | src/main.h:157-158 | a temperature reading folded into the record; characterised by DhtSamples |
| Sensors.AddHumidity | src/main.h:180-181 | a humidity reading folded into the record; characterised by DhtSamples |
| Sensors.AddLight | src/main.cpp:164-165 | a light reading folded into the record; characterised by WrappingSums |
| Sensors.AddUv | src/main.cpp:182-183 | a UV reading folded into the record; characterised by WrappingSums |
| Sensors.DhtSamples | src/main.h:146-190 | a NaN reading reports 1 and changes nothing; a value reports 0, is added to its sum, increments its count modulo 256, and leaves every other member alone |
| Sensors.WrappingSums | src/main.cpp:164-183 | the light and UV sums add modulo 2^32, so a negative millivolt value wraps; without overflow the light sum is the plain sum |
| Sensors.ConvertVoltsToIndex | src/main.h:224-250 | the index is at most 11; index k > 0 means boundary k-1 was reached, index k < 11 that boundary k was not |
| Sensors.UvBoundariesAscending | src/main.h:225-249 | the eleven step boundaries are strictly ascending |
| Sensors.ConvertVoltsToIndexMonotone | src/main.h:224-250 | a higher voltage never gives a lower index |
| Sensors.ConvertVoltsToIndexSteps | src/main.h:225-249 | boundary k gives index k+1 and the reading just below it gives k |
| Sensors.ConvertVoltsToIndexCounts | src/main.h:224-250 | the index equals the number of boundaries at or below the reading |
| Station.DetectTurnAround | src/main.cpp:101-105 | the turn-around test; characterised by TurnAroundRaised |
| Station.Fires | src/main.cpp:108 | whether a period check fires; characterised by FiresIff |
| Station.CheckPeriod | src/main.cpp:100-113 | the timer after a period check; characterised by CheckPeriodEffect |
| Station.LoopStep | src/main.cpp:93-244 | one mains-powered `loop` call on the globals; characterised by LoopStepEffect |
| Station.WrapSpanExact | src/main.cpp:101-102 | with the clock behind `last`, `UINT32_MAX - last + now` does not wrap and is one less than the modular elapsed time |
| Station.TurnAroundRaised | src/main.cpp:101-105 | the flag is raised exactly when it was already set, or the clock is behind `last` and the span across the wrap reaches the period; `last` is untouched |
| Station.FiresIff | src/main.cpp:108 | a check fires exactly when `(now - last) mod 2^32` reaches the period or the flag was already set |
| Station.CheckPeriodEffect | src/main.cpp:108-112 | on firing `last := now` with the flag cleared, otherwise the timer is unchanged; the flag is clear afterwards |
| Station.WrapExample | src/main.cpp:100-112 | a system tick 256 ms before the wrap does not fire 512 ms later and fires 1000 ms later |
| Station.LoopStepEffect | src/main.cpp:93-244 | sampling and transmit are checked only when the system tick fires; transmit uses the second reading; transmit clears every accumulator; no flag survives |
| Station.FirstLoop | src/main.cpp:93-252 | a station built for the configured supply (POWER_SUPPLY is POWER_LINE) takes the mains-power branch: one `loop` call from the boot state is one LoopStep, and leaves every flag clear |
| Station.Station.constructor | src/main.h:55-62 | every global starts at 0 or false and the record empty |
| Station.Station.ResetSensorDataStruct | src/main.h:193-207 | every declared accumulator and counter becomes 0 and nothing else changes |
| Station.Station.GetDHTTemperature | src/main.h:146-167 | reports 1 for NaN and 0 otherwise; the record becomes the reading folded in |
| Station.Station.GetDHTHumidity | src/main.h:169-190 | reports 1 for NaN and 0 otherwise; the record becomes the reading folded in |
| Station.Station.SampleSensors | src/main.cpp:140-189 | both DHT readings, then the light and UV readings, are folded into the record |
| Station.Station.SamplingCheck | src/main.cpp:121-195 | the sampling timer advances by the period rule, and the record is sampled exactly when it fires |
| Station.Station.TransmitCheck | src/main.cpp:197-242 | `now` is re-read; the transmit timer advances by the period rule, and the record is cleared exactly when it fires |
| Station.Station.Loop | src/main.cpp:93-252 | on mains power the new globals are one `LoopStep` of the old, which `LoopStepEffect` characterises; on battery nothing changes |

## Left out

- Serial hardware: `begin(9600)`, the wait for the port, `available()`, and `readString` time-outs. The modem link is the scripted transport; an exhausted script reads as "".
- LoRaDriver.LoRa.SendNoAckMsgHex: `available()` is modelled as "script not yet exhausted", so the poll reads every remaining chunk. A firmware that would spin forever, waiting for a "Done" that never arrives, returns `None` once the script is exhausted. Time-outs are not modelled.
- All debug printing and `flush`, including the trimmed echoes of replies and the banner of `printInitInfo`; they never affect a return value or the state.
- `delay()`; `millis()` is the two input readings of `Loop`.
- `toAscii(port)` is taken to keep the low 7 bits of the port, as the Arduino core defines it; the port is then written in decimal.
- `strcmp` on the probe reply stops at a NUL character; strings with NUL characters are not modelled.
- Floating point: the scaling and truncation in `float2int15` and `float2uint16` (the encoders start from the three truncated scaled magnitudes), the ADC-to-millivolt conversion, the averages printed on transmit, and float rounding of the DHT sums (modelled as reals). A `(uint16_t)` cast of an out-of-range float is undefined in C and is not modelled.
- ConvertTools.Long2Hex: the byte extraction `(v & mask) >> shift` is written with division and remainder, which agree with it on 32-bit unsigned values.
- Sensor, LED and bus libraries (DHT, BH1750, RGBLed, Wire, `analogRead`, `digitalRead`, `digitalWrite`), `initSensorDHT`, `setup()` and the LED toggle of the system tick.
- The commented-out legacy code of include/LoRa.h (join loop, confirmed sends, receive callback); it is not compiled.
- `resetSensorDataStruct`'s assignments to `soil_moisture`, `soil_temperature`, `wind_dir` and `wind_speed` name members that `station_sensor_t` does not declare.
- LoRaDriver.LoRa.Init: the body of `init` is split into `ConfigureRadio` and `ProvisionSession`, keeping every step and check in the source order.
