/** The LoRaWAN AT-command driver of src/LoRa.cpp.

    The modem link is a scripted transport: every `println` of a command
    appends the line to `sent`, and every `readString` takes the next reply
    from `replies`, or "" when none is left, which stands for the read
    timeout. */
module LoRaDriver {

  import opened MachineInts
  import opened ArduinoString
  import opened LoRaTypes
  import opened Options

  // ---------------------------------------------------------------------
  // Enumeration-to-token tables (the getLoRa*Str members)
  // ---------------------------------------------------------------------

  const ErrorToken: string := "ERROR"

  function GetLoRaBaseBandStr(band: EnumValue): string {
    if band == EU868 then "EU868"
    else if band == US915 then "US915"
    else if band == AU920 then "AU920"
    else ErrorToken
  }

  function GetLoRaClassStr(opClass: EnumValue): string {
    if opClass == A then "A"
    else if opClass == B then "B"
    else if opClass == C then "C"
    else ErrorToken
  }

  function GetLoRaTxPwrStr(power: EnumValue): string {
    if power == dBm30 then "30"
    else if power == dBm28 then "28"
    else if power == dBm26 then "26"
    else if power == dBm24 then "24"
    else if power == dBm22 then "22"
    else if power == dBm20 then "20"
    else if power == dBm18 then "18"
    else if power == dBm16 then "16"
    else if power == dBm14 then "14"
    else if power == dBm12 then "12"
    else if power == dBm10 then "10"
    else ErrorToken
  }

  function GetLoRaUpDRStr(dr: EnumValue): string {
    if dr == DR0 then "DR0"
    else if dr == DR1 then "DR1"
    else if dr == DR2 then "DR2"
    else if dr == DR3 then "DR3"
    else if dr == DR4 then "DR4"
    else if dr == DR5 then "DR5"
    else if dr == DR6 then "DR6"
    else if dr == DR7 then "DR7"
    else if dr == DR8 then "DR8"
    else if dr == DR9 then "DR9"
    else if dr == DR10 then "DR10"
    else if dr == DR11 then "DR11"
    else if dr == DR12 then "DR12"
    else if dr == DR13 then "DR13"
    else if dr == DR14 then "DR14"
    else if dr == DR15 then "DR15"
    else ErrorToken
  }

  function GetLoRaBoolStr(flag: EnumValue): string {
    if flag == ON then "ON"
    else if flag == OFF then "OFF"
    else ErrorToken
  }

  function GetLoRaAuthModeStr(mode: EnumValue): string {
    if mode == LWABP then "LWABP"
    else if mode == LWOTAA then "LWOTAA"
    else if mode == LWTEST then "LWTEST"
    else ErrorToken
  }

  /** Reference tables: the token of enumerator i is entry i. */
  const BaseBandTokens: seq<string> := ["EU868", "US915", "AU920"]
  const ClassTokens: seq<string> := ["A", "B", "C"]
  const BoolTokens: seq<string> := ["ON", "OFF"]
  const AuthModeTokens: seq<string> := ["LWABP", "LWOTAA", "LWTEST"]

  /** A table maps enumerator i to `tokens[i]` and any other value to "ERROR". */
  predicate TableAgrees(table: EnumValue -> string, tokens: seq<string>) {
    forall v: EnumValue :: table(v) == if 0 <= v < |tokens| then tokens[v] else ErrorToken
  }

  /** The four short tables agree with their reference tables. */
  lemma NamedTokenTables()
    ensures TableAgrees(GetLoRaBaseBandStr, BaseBandTokens)
    ensures TableAgrees(GetLoRaClassStr, ClassTokens)
    ensures TableAgrees(GetLoRaBoolStr, BoolTokens)
    ensures TableAgrees(GetLoRaAuthModeStr, AuthModeTokens)
  {
  }

  /** The power token of enumerator p is its dBm value in decimal, and any
      value that is no enumerator gives "ERROR". */
  lemma {:induction false} TxPowerTokens(p: EnumValue)
    ensures 0 <= p < |TxPowerEnumerators| ==> GetLoRaTxPwrStr(p) == DecimalText(TxPowerDbm(p))
    ensures !(0 <= p < |TxPowerEnumerators|) ==> GetLoRaTxPwrStr(p) == ErrorToken
  {
    if 0 <= p < 11 {
      var d := TxPowerDbm(p);
      assert DecimalText(d) == Digits(d / 10, 10) + [DigitChar(d % 10)];
    }
  }

  /** The data-rate token of DRn is "DR" followed by n in decimal, and any
      value that is no enumerator gives "ERROR". */
  lemma {:induction false} UplinkDrTokens(dr: EnumValue)
    ensures 0 <= dr < |DataRateEnumerators| ==> GetLoRaUpDRStr(dr) == "DR" + DecimalText(dr)
    ensures !(0 <= dr < |DataRateEnumerators|) ==> GetLoRaUpDRStr(dr) == ErrorToken
  {
    if 10 <= dr < 16 {
      assert DecimalText(dr) == Digits(dr / 10, 10) + [DigitChar(dr % 10)];
    }
  }

  // ---------------------------------------------------------------------
  // Command lines
  // ---------------------------------------------------------------------

  const ProbeCommand: string := "AT"
  /** The one reply to the probe that counts as a working link. */
  const ProbeAck: string := "+AT: OK\r\n"
  const ResetCommand: string := "AT+RESET"
  const VersionCommand: string := "AT+VER"

  function BaseBandCommand(cfg: LoRaConfig): string {
    "AT+DR=" + GetLoRaBaseBandStr(cfg.baseband)
  }

  function ClassCommand(cfg: LoRaConfig): string {
    "AT+CLASS=" + GetLoRaClassStr(cfg.opClass)
  }

  function TxPowerCommand(cfg: LoRaConfig): string {
    "AT+POWER=" + GetLoRaTxPwrStr(cfg.txPower)
  }

  function AdrCommand(cfg: LoRaConfig): string {
    "AT+ADR=" + GetLoRaBoolStr(cfg.adr)
  }

  function UplinkDrCommand(cfg: LoRaConfig): string {
    "AT+DR=" + GetLoRaUpDRStr(cfg.uplinkDr)
  }

  function AuthModeCommand(cfg: LoRaConfig): string {
    "AT+MODE=" + GetLoRaAuthModeStr(cfg.authMode)
  }

  /** `<prefix>"<value>"`: how every identifier and key is sent. */
  function QuotedCommand(prefix: string, value: string): string {
    prefix + "\"" + value + "\""
  }

  /** Reads the quoted argument back out of a command line, if the line has
      the shape `<prefix>"<value>"`. */
  function QuotedArgument(prefix: string, line: string): (r: Option<string>)
    ensures r.Some? ==> line == QuotedCommand(prefix, r.value)
  {
    var n := |prefix|;
    if |line| >= n + 2 && line[..n] == prefix && line[n] == '"' && line[|line| - 1] == '"' then
      assert line == prefix + "\"" + line[n + 1..|line| - 1] + "\"";
      Some(line[n + 1..|line| - 1])
    else None
  }

  /** Every value, malformed or not, is embedded verbatim: it is read back
      exactly, so two different values never give the same command. */
  lemma {:induction false} QuotedArgumentRoundTrip(prefix: string, value: string)
    ensures QuotedArgument(prefix, QuotedCommand(prefix, value)) == Some(value)
  {
    var line := QuotedCommand(prefix, value);
    var n := |prefix|;
    assert line[..n] == prefix;
    assert line[n] == '"';
    assert line[n + 1..|line| - 1] == value;
  }

  /** The identifier and key commands carry the configured strings verbatim. */
  lemma IdentifierCommandsVerbatim(cfg: LoRaConfig)
    ensures QuotedArgument(DevEuiPrefix, DevEuiCommand(cfg)) == Some(cfg.devEui)
    ensures QuotedArgument(AppEuiPrefix, AppEuiCommand(cfg)) == Some(cfg.appEui)
    ensures QuotedArgument(DevAddrPrefix, DevAddrCommand(cfg)) == Some(cfg.devAddr)
    ensures QuotedArgument(NwkSKeyPrefix, NwkSKeyCommand(cfg)) == Some(cfg.nwksKey)
    ensures QuotedArgument(AppSKeyPrefix, AppSKeyCommand(cfg)) == Some(cfg.appsKey)
  {
    QuotedArgumentRoundTrip(DevEuiPrefix, cfg.devEui);
    QuotedArgumentRoundTrip(AppEuiPrefix, cfg.appEui);
    QuotedArgumentRoundTrip(DevAddrPrefix, cfg.devAddr);
    QuotedArgumentRoundTrip(NwkSKeyPrefix, cfg.nwksKey);
    QuotedArgumentRoundTrip(AppSKeyPrefix, cfg.appsKey);
  }

  const DevEuiPrefix: string := "AT+ID=DevEui,"
  const AppEuiPrefix: string := "AT+ID=AppEui,"
  const DevAddrPrefix: string := "AT+ID=DevAddr,"
  const NwkSKeyPrefix: string := "AT+KEY=NwkSKey,"
  const AppSKeyPrefix: string := "AT+KEY=AppSKey,"

  function DevEuiCommand(cfg: LoRaConfig): string { QuotedCommand(DevEuiPrefix, cfg.devEui) }
  function AppEuiCommand(cfg: LoRaConfig): string { QuotedCommand(AppEuiPrefix, cfg.appEui) }
  function DevAddrCommand(cfg: LoRaConfig): string { QuotedCommand(DevAddrPrefix, cfg.devAddr) }
  function NwkSKeyCommand(cfg: LoRaConfig): string { QuotedCommand(NwkSKeyPrefix, cfg.nwksKey) }
  function AppSKeyCommand(cfg: LoRaConfig): string { QuotedCommand(AppSKeyPrefix, cfg.appsKey) }

  /** `AT+CH=<i>, 0`: disable channel i. */
  function ChannelOffCommand(channel: nat): string {
    "AT+CH=" + DecimalText(channel) + ", 0"
  }

  /** Different channels are disabled by different command lines. */
  lemma ChannelOffCommandInjective(i: nat, j: nat)
    requires ChannelOffCommand(i) == ChannelOffCommand(j)
    ensures i == j
  {
    var a, b := ChannelOffCommand(i), ChannelOffCommand(j);
    assert DecimalText(i) == a[6..|a| - 3];
    assert DecimalText(j) == b[6..|b| - 3];
    DigitsInjective(i, j, 10);
  }

  /** `toAscii(c)` of the Arduino core keeps the low 7 bits of c. */
  function ToAscii(c: uint8): nat {
    c % 128
  }

  function PortCommand(port: uint8): string {
    "AT+PORT=" + DecimalText(ToAscii(port))
  }

  function MsgHexCommand(buf: string): string {
    "AT+MSGHEX=\"" + buf + "\""
  }

  // ---------------------------------------------------------------------
  // Sub-band channel masking
  // ---------------------------------------------------------------------

  /** The channels lo, lo+1, ..., hi-1, ascending. */
  function ChannelRange(lo: nat, hi: nat): (r: seq<nat>)
    requires lo <= hi
    ensures |r| == hi - lo
  {
    seq(hi - lo, k requires 0 <= k < hi - lo => lo + k)
  }

  /** The channels that `setLoRaSubBand` disables, in the order it disables them. */
  function DisabledChannels(subband: uint8): seq<nat> {
    if subband == 1 then ChannelRange(8, 72)
    else if subband == 2 then ChannelRange(0, 8) + ChannelRange(16, 65) + ChannelRange(66, 72)
    else []
  }

  function ChannelOffCommands(channels: seq<nat>): (r: seq<string>)
    ensures |r| == |channels|
  {
    seq(|channels|, k requires 0 <= k < |channels| => ChannelOffCommand(channels[k]))
  }

  lemma ChannelOffCommandsAppend(a: seq<nat>, b: seq<nat>)
    ensures ChannelOffCommands(a + b) == ChannelOffCommands(a) + ChannelOffCommands(b)
  {
  }

  function SubBandCommands(subband: uint8): seq<string> {
    ChannelOffCommands(DisabledChannels(subband))
  }

  /** Sub-band 1 disables channels 8..71 ascending, 64 commands. */
  lemma SubBandOne()
    ensures |SubBandCommands(1)| == 64
    ensures forall k :: 0 <= k < 64 ==> SubBandCommands(1)[k] == ChannelOffCommand(8 + k)
  {
  }

  /** The channels sub-band 2 leaves active. */
  predicate KeptBySubBandTwo(channel: nat) {
    8 <= channel <= 15 || channel == 65 || channel > 71
  }

  /** Sub-band 2 issues 63 commands, in ascending channel order, disabling
      exactly the channels 0..71 other than 8..15 and 65. */
  lemma {:induction false} SubBandTwo()
    ensures |SubBandCommands(2)| == 63
    ensures forall i, j :: 0 <= i < j < 63 ==> DisabledChannels(2)[i] < DisabledChannels(2)[j]
    ensures forall ch: nat :: ChannelOffCommand(ch) in SubBandCommands(2) <==> !KeptBySubBandTwo(ch)
  {
    var chs := DisabledChannels(2);
    var lo, mid, hi := ChannelRange(0, 8), ChannelRange(16, 65), ChannelRange(66, 72);
    assert chs == lo + mid + hi;
    assert forall k :: 0 <= k < 8 ==> chs[k] == k;
    assert forall k :: 8 <= k < 57 ==> chs[k] == mid[k - 8] == k + 8;
    assert forall k :: 57 <= k < 63 ==> chs[k] == hi[k - 57] == k + 9;
    var cmds := SubBandCommands(2);
    forall ch: nat
      ensures ChannelOffCommand(ch) in cmds <==> !KeptBySubBandTwo(ch)
    {
      if !KeptBySubBandTwo(ch) {
        var k := if ch < 8 then ch else if ch < 65 then ch - 8 else ch - 9;
        assert cmds[k] == ChannelOffCommand(ch);
      }
      if ChannelOffCommand(ch) in cmds {
        var k :| 0 <= k < |cmds| && cmds[k] == ChannelOffCommand(ch);
        ChannelOffCommandInjective(chs[k], ch);
      }
    }
  }

  /** The sub-band 2 commands are those of its three channel runs. */
  lemma SubBandTwoPieces()
    ensures SubBandCommands(2) == ChannelOffCommands(ChannelRange(0, 8))
      + ChannelOffCommands(ChannelRange(16, 65)) + ChannelOffCommands(ChannelRange(66, 72))
  {
    ChannelOffCommandsAppend(ChannelRange(0, 8), ChannelRange(16, 65));
    ChannelOffCommandsAppend(ChannelRange(0, 8) + ChannelRange(16, 65), ChannelRange(66, 72));
  }

  /** Any sub-band other than 1 and 2 issues no channel command. */
  lemma SubBandOther(subband: uint8)
    requires subband != 1 && subband != 2
    ensures SubBandCommands(subband) == []
  {
  }

  // ---------------------------------------------------------------------
  // The scripted transport
  // ---------------------------------------------------------------------

  /** What `readString` returns: the next scripted reply, or "" on timeout. */
  function NextReply(replies: seq<string>): string {
    if replies == [] then "" else replies[0]
  }

  /** The script after n `readString` calls. */
  function Drop(replies: seq<string>, n: nat): (r: seq<string>)
    ensures |r| == if n >= |replies| then 0 else |replies| - n
  {
    if n >= |replies| then [] else replies[n..]
  }

  /** The script after n reads is what follows the n replies read, in order. */
  lemma DropRemainder(replies: seq<string>, n: nat)
    ensures forall k :: 0 <= k < |Drop(replies, n)| ==> Drop(replies, n)[k] == replies[n + k]
    ensures n <= |replies| ==> replies[..n] + Drop(replies, n) == replies
  {
  }

  lemma DropDrop(replies: seq<string>, m: nat, n: nat)
    ensures Drop(Drop(replies, m), n) == Drop(replies, m + n)
  {
  }

  // ---------------------------------------------------------------------
  // init: the provisioning sequence
  // ---------------------------------------------------------------------

  /** The status `init` returns for a given probe reply. */
  function InitStatus(probeReply: string): uint8 {
    if probeReply == ProbeAck then LORA_STATUS_OK else LORA_STATUS_UART_FAIL
  }

  /** The commands after the sub-band masking, in the order `init` sends them. */
  function ProvisioningTail(cfg: LoRaConfig): seq<string> {
    [ClassCommand(cfg), TxPowerCommand(cfg), AdrCommand(cfg), UplinkDrCommand(cfg),
     DevEuiCommand(cfg), AuthModeCommand(cfg),
     DevAddrCommand(cfg), NwkSKeyCommand(cfg), AppSKeyCommand(cfg)]
  }

  /** The firmware query, sent only when debugging. */
  function VersionQuery(cfg: LoRaConfig): seq<string> {
    if cfg.debug then [VersionCommand] else []
  }

  /** The commands between the probe and the provisioning tail: the reset,
      the firmware query when debugging, the base band and the masking. */
  function RadioCommands(cfg: LoRaConfig): seq<string> {
    [ResetCommand] + VersionQuery(cfg) + [BaseBandCommand(cfg)]
    + SubBandCommands(cfg.subband)
  }

  /** Every command line `init` sends, given the reply to the probe. */
  function InitCommands(cfg: LoRaConfig, probeReply: string): seq<string> {
    if probeReply != ProbeAck then [ProbeCommand]
    else [ProbeCommand] + RadioCommands(cfg) + ProvisioningTail(cfg)
  }

  /** A failed probe (an empty, timed-out reply included) ends `init` with
      UART_FAIL after the probe, the only line sent; a good probe gives OK. */
  lemma InitFailsFast(cfg: LoRaConfig, probeReply: string)
    ensures InitStatus(probeReply) == LORA_STATUS_OK <==> probeReply == ProbeAck
    ensures probeReply != ProbeAck ==>
      InitStatus(probeReply) == LORA_STATUS_UART_FAIL && InitCommands(cfg, probeReply) == [ProbeCommand]
    ensures InitStatus("") == LORA_STATUS_UART_FAIL
  {
  }

  /** After a good probe `init` sends 12 commands, one more with debug, plus
      the sub-band's channel commands; the probe is first, the reset second,
      and the three session commands are last. */
  lemma {:induction false} InitCommandLayout(cfg: LoRaConfig)
    ensures var cmds := InitCommands(cfg, ProbeAck);
      var v := if cfg.debug then 1 else 0;
      var ch := |DisabledChannels(cfg.subband)|;
      && |cmds| == 12 + v + ch
      && cmds[0] == ProbeCommand && cmds[1] == ResetCommand
      && (cfg.debug ==> cmds[2] == VersionCommand)
      && cmds[2 + v] == BaseBandCommand(cfg)
      && cmds[3 + v..3 + v + ch] == SubBandCommands(cfg.subband)
      && cmds[3 + v + ch..] == ProvisioningTail(cfg)
  {
    var v := if cfg.debug then 1 else 0;
    var head := [ProbeCommand, ResetCommand] + (if cfg.debug then [VersionCommand] else []) + [BaseBandCommand(cfg)];
    assert |head| == 3 + v;
    var cmds := InitCommands(cfg, ProbeAck);
    assert [ProbeCommand] + RadioCommands(cfg) == head + SubBandCommands(cfg.subband);
    assert cmds == head + SubBandCommands(cfg.subband) + ProvisioningTail(cfg);
  }

  predicate StartsWith(s: string, prefix: string) {
    |prefix| <= |s| && s[..|prefix|] == prefix
  }

  /** A line that sets the AppEui. */
  predicate SetsAppEui(line: string) {
    StartsWith(line, AppEuiPrefix)
  }

  lemma {:induction false} ChannelLinesNotAppEui(subband: uint8)
    ensures forall line :: line in SubBandCommands(subband) ==> !SetsAppEui(line)
  {
    forall line | line in SubBandCommands(subband)
      ensures !SetsAppEui(line)
    {
      var k :| 0 <= k < |SubBandCommands(subband)| && SubBandCommands(subband)[k] == line;
      assert line[3] == 'C';
    }
  }

  /** A line whose character at index k < 13 differs from the AppEui
      prefix's does not set the AppEui. */
  lemma DiffersFromAppEui(line: string, k: nat)
    requires k < |AppEuiPrefix| && k < |line| && line[k] != AppEuiPrefix[k]
    ensures !SetsAppEui(line)
  {
  }

  /** None of the lines `init` sends outside the channel masking sets the AppEui. */
  lemma FixedLinesNotAppEui(cfg: LoRaConfig)
    ensures forall line :: line in [ProbeCommand, ResetCommand, VersionCommand, BaseBandCommand(cfg)] ==> !SetsAppEui(line)
    ensures forall line :: line in ProvisioningTail(cfg) ==> !SetsAppEui(line)
  {
    DiffersFromAppEui(ResetCommand, 3);
    DiffersFromAppEui(VersionCommand, 3);
    DiffersFromAppEui(BaseBandCommand(cfg), 3);
    DiffersFromAppEui(ClassCommand(cfg), 3);
    DiffersFromAppEui(TxPowerCommand(cfg), 3);
    DiffersFromAppEui(AdrCommand(cfg), 3);
    DiffersFromAppEui(UplinkDrCommand(cfg), 3);
    DiffersFromAppEui(DevEuiCommand(cfg), 6);
    DiffersFromAppEui(AuthModeCommand(cfg), 3);
    DiffersFromAppEui(DevAddrCommand(cfg), 6);
    DiffersFromAppEui(NwkSKeyCommand(cfg), 3);
    DiffersFromAppEui(AppSKeyCommand(cfg), 3);
  }

  /** `setLoRaAppEUI` is never called: no line `init` sends sets the AppEui. */
  lemma {:induction false} InitNeverSendsAppEui(cfg: LoRaConfig, probeReply: string)
    ensures forall line :: line in InitCommands(cfg, probeReply) ==> !SetsAppEui(line)
  {
    ChannelLinesNotAppEui(cfg.subband);
    FixedLinesNotAppEui(cfg);
  }

  // ---------------------------------------------------------------------
  // getFWVersion and the transmit completion test
  // ---------------------------------------------------------------------

  /** `reply.substring(6, reply.length() - 2)`, where the subtraction is on
      16-bit `unsigned int`. */
  function FirmwareVersion(reply: string): string {
    Substring(reply, 6, ToUint16(|reply| - 2))
  }

  /** What `getFWVersion` returns, for every reply length: the text between
      the 6-character prefix and the 2-character terminator of a well-formed
      reply; for replies shorter than 8 characters the swapped, clamped bounds
      of `substring` pick the characters from index |reply|-2 up to index 6. */
  lemma FirmwareVersionSlice(reply: string)
    ensures |reply| < 2 ==> FirmwareVersion(reply) == ""
    ensures 2 <= |reply| < 8 ==>
      FirmwareVersion(reply) == reply[|reply| - 2..if |reply| < 6 then |reply| else 6]
    ensures 8 <= |reply| < Two16 + 2 ==> FirmwareVersion(reply) == reply[6..|reply| - 2]
  {
  }

  /** A well-formed reply of the RHF76-052 modem. */
  lemma FirmwareVersionExample()
    ensures FirmwareVersion("+VER: 2.0.10\r\n") == "2.0.10"
    ensures FirmwareVersion("") == ""
    ensures FirmwareVersion("OK\r\n") == "\r\n"
  {
    var reply := "+VER: 2.0.10\r\n";
    assert |reply| == 14 && ToUint16(|reply| - 2) == 12;
    assert reply[6..12] == "2.0.10";
  }

  const DoneMarker: string := "Done"

  /** `chunk.indexOf("Done") != -1`. */
  predicate HasDone(chunk: string) {
    IndexOf(chunk, DoneMarker) != -1
  }

  /** A chunk passes the test exactly when "Done" occurs somewhere in it. */
  lemma HasDoneIffSubstring(chunk: string)
    ensures HasDone(chunk) <==> exists i :: OccursAt(chunk, DoneMarker, i)
  {
  }

  /** Some chunk of the sequence contains the completion marker. */
  function AnyDone(chunks: seq<string>): bool {
    if chunks == [] then false else HasDone(chunks[0]) || AnyDone(chunks[1..])
  }

  /** `AnyDone` holds exactly when some chunk contains the marker. */
  lemma {:induction false} AnyDoneExists(chunks: seq<string>)
    ensures AnyDone(chunks) <==> exists k :: 0 <= k < |chunks| && HasDone(chunks[k])
    decreases |chunks|
  {
    if chunks != [] {
      AnyDoneExists(chunks[1..]);
      if !HasDone(chunks[0]) && AnyDone(chunks) {
        var k :| 0 <= k < |chunks[1..]| && HasDone(chunks[1..][k]);
        assert HasDone(chunks[k + 1]);
      }
      if exists k :: 0 <= k < |chunks| && HasDone(chunks[k]) {
        var k :| 0 <= k < |chunks| && HasDone(chunks[k]);
        if k > 0 {
          assert HasDone(chunks[1..][k - 1]);
        }
      }
    }
  }

  lemma {:induction false} AnyDoneAppend(chunks: seq<string>, chunk: string)
    ensures AnyDone(chunks + [chunk]) == (AnyDone(chunks) || HasDone(chunk))
    decreases |chunks|
  {
    if chunks != [] {
      assert (chunks + [chunk])[1..] == chunks[1..] + [chunk];
      AnyDoneAppend(chunks[1..], chunk);
    }
  }

  // ---------------------------------------------------------------------
  // The driver object
  // ---------------------------------------------------------------------

  class LoRa {
    var config: LoRaConfig
    var loraBusy: bool
    /** Every line written to the modem link, in order. */
    var sent: seq<string>
    /** The modem's replies not yet read. */
    var replies: seq<string>

    /** A fresh driver is not busy and has sent nothing. */
    constructor (script: seq<string>)
      ensures !loraBusy && sent == [] && replies == script && config == ZeroConfig
    {
      config := ZeroConfig;
      loraBusy := false;
      sent := [];
      replies := script;
    }

    /** `println(cmd)` followed by one `readString`. */
    method Exchange(cmd: string) returns (reply: string)
      modifies this
      ensures sent == old(sent) + [cmd]
      ensures reply == NextReply(old(replies)) && replies == Drop(old(replies), 1)
      ensures config == old(config) && loraBusy == old(loraBusy)
    {
      sent := sent + [cmd];
      if replies == [] {
        reply := "";
      } else {
        reply := replies[0];
        replies := replies[1..];
      }
    }

    /** One configuration step: sends `cmd`, reads one reply and reports OK
        whatever the modem answered. */
    method ConfigStep(cmd: string) returns (status: uint8)
      modifies this
      ensures status == LORA_STATUS_OK
      ensures sent == old(sent) + [cmd] && replies == Drop(old(replies), 1)
      ensures config == old(config) && loraBusy == old(loraBusy)
    {
      var reply := Exchange(cmd);
      status := LORA_STATUS_OK;
    }

    /** The probe: OK exactly when the reply is "+AT: OK\r\n". */
    method SetSerialInterface() returns (status: uint8)
      modifies this
      ensures status == InitStatus(NextReply(old(replies)))
      ensures sent == old(sent) + [ProbeCommand] && replies == Drop(old(replies), 1)
      ensures config == old(config) && loraBusy == old(loraBusy)
    {
      var reply := Exchange(ProbeCommand);
      if reply != ProbeAck {
        return LORA_STATUS_UART_FAIL;
      } else {
        return LORA_STATUS_OK;
      }
    }

    method ResetLoRaModule() returns (status: uint8)
      modifies this
      ensures status == LORA_STATUS_OK
      ensures sent == old(sent) + [ResetCommand] && replies == Drop(old(replies), 1)
      ensures config == old(config) && loraBusy == old(loraBusy)
    {
      status := ConfigStep(ResetCommand);
    }

    method GetFWVersion() returns (version: string)
      modifies this
      ensures version == FirmwareVersion(NextReply(old(replies)))
      ensures sent == old(sent) + [VersionCommand] && replies == Drop(old(replies), 1)
      ensures config == old(config) && loraBusy == old(loraBusy)
    {
      var reply := Exchange(VersionCommand);
      version := FirmwareVersion(reply);
    }

    method SetLoRaBaseBand() returns (status: uint8)
      modifies this
      ensures status == LORA_STATUS_OK
      ensures sent == old(sent) + [BaseBandCommand(config)] && replies == Drop(old(replies), 1)
      ensures config == old(config) && loraBusy == old(loraBusy)
    {
      status := ConfigStep(BaseBandCommand(config));
    }

    /** Disables channels lo..hi-1 one `AT+CH` command at a time. */
    method DisableChannels(lo: nat, hi: nat)
      requires lo <= hi
      modifies this
      ensures sent == old(sent) + ChannelOffCommands(ChannelRange(lo, hi))
      ensures replies == Drop(old(replies), hi - lo)
      ensures config == old(config) && loraBusy == old(loraBusy)
    {
      for i := lo to hi
        invariant sent == old(sent) + ChannelOffCommands(ChannelRange(lo, i))
        invariant replies == Drop(old(replies), i - lo)
        invariant config == old(config) && loraBusy == old(loraBusy)
      {
        var reply := Exchange(ChannelOffCommand(i));
        assert ChannelOffCommands(ChannelRange(lo, i + 1))
          == ChannelOffCommands(ChannelRange(lo, i)) + [ChannelOffCommand(i)];
        DropDrop(old(replies), i - lo, 1);
      }
    }

    method SetLoRaSubBand() returns (status: uint8)
      modifies this
      ensures status == LORA_STATUS_OK
      ensures sent == old(sent) + SubBandCommands(config.subband)
      ensures replies == Drop(old(replies), |SubBandCommands(config.subband)|)
      ensures config == old(config) && loraBusy == old(loraBusy)
    {
      if config.subband == 1 {
        DisableChannels(8, 72);
        assert |SubBandCommands(1)| == 64;
      } else if config.subband == 2 {
        ghost var sent0, replies0 := sent, replies;
        ghost var low, middle, high :=
          ChannelOffCommands(ChannelRange(0, 8)), ChannelOffCommands(ChannelRange(16, 65)),
          ChannelOffCommands(ChannelRange(66, 72));
        DisableChannels(0, 8);
        assert sent == sent0 + low && replies == Drop(replies0, 8);
        DisableChannels(16, 65);
        DropDrop(replies0, 8, 49);
        assert sent == sent0 + low + middle && replies == Drop(replies0, 57);
        DisableChannels(66, 72);
        DropDrop(replies0, 57, 6);
        assert sent == sent0 + low + middle + high && replies == Drop(replies0, 63);
        SubBandTwoPieces();
        assert |low| == 8 && |middle| == 49 && |high| == 6;
      }
      status := LORA_STATUS_OK;
    }

    method SetLoRaClass() returns (status: uint8)
      modifies this
      ensures status == LORA_STATUS_OK
      ensures sent == old(sent) + [ClassCommand(config)] && replies == Drop(old(replies), 1)
      ensures config == old(config) && loraBusy == old(loraBusy)
    {
      status := ConfigStep(ClassCommand(config));
    }

    method SetLoRaTxPwr() returns (status: uint8)
      modifies this
      ensures status == LORA_STATUS_OK
      ensures sent == old(sent) + [TxPowerCommand(config)] && replies == Drop(old(replies), 1)
      ensures config == old(config) && loraBusy == old(loraBusy)
    {
      status := ConfigStep(TxPowerCommand(config));
    }

    method SetLoRaUpDR() returns (status: uint8)
      modifies this
      ensures status == LORA_STATUS_OK
      ensures sent == old(sent) + [UplinkDrCommand(config)] && replies == Drop(old(replies), 1)
      ensures config == old(config) && loraBusy == old(loraBusy)
    {
      status := ConfigStep(UplinkDrCommand(config));
    }

    method SetLoRaADR() returns (status: uint8)
      modifies this
      ensures status == LORA_STATUS_OK
      ensures sent == old(sent) + [AdrCommand(config)] && replies == Drop(old(replies), 1)
      ensures config == old(config) && loraBusy == old(loraBusy)
    {
      status := ConfigStep(AdrCommand(config));
    }

    method SetLoRaAuthMode() returns (status: uint8)
      modifies this
      ensures status == LORA_STATUS_OK
      ensures sent == old(sent) + [AuthModeCommand(config)] && replies == Drop(old(replies), 1)
      ensures config == old(config) && loraBusy == old(loraBusy)
    {
      status := ConfigStep(AuthModeCommand(config));
    }

    method SetLoRaDevEUI() returns (status: uint8)
      modifies this
      ensures status == LORA_STATUS_OK
      ensures sent == old(sent) + [DevEuiCommand(config)] && replies == Drop(old(replies), 1)
      ensures config == old(config) && loraBusy == old(loraBusy)
    {
      status := ConfigStep(DevEuiCommand(config));
    }

    method SetLoRaAppEUI() returns (status: uint8)
      modifies this
      ensures status == LORA_STATUS_OK
      ensures sent == old(sent) + [AppEuiCommand(config)] && replies == Drop(old(replies), 1)
      ensures config == old(config) && loraBusy == old(loraBusy)
    {
      status := ConfigStep(AppEuiCommand(config));
    }

    method SetLoRaDevAddr() returns (status: uint8)
      modifies this
      ensures status == LORA_STATUS_OK
      ensures sent == old(sent) + [DevAddrCommand(config)] && replies == Drop(old(replies), 1)
      ensures config == old(config) && loraBusy == old(loraBusy)
    {
      status := ConfigStep(DevAddrCommand(config));
    }

    method SetLoRaNwkSKey() returns (status: uint8)
      modifies this
      ensures status == LORA_STATUS_OK
      ensures sent == old(sent) + [NwkSKeyCommand(config)] && replies == Drop(old(replies), 1)
      ensures config == old(config) && loraBusy == old(loraBusy)
    {
      status := ConfigStep(NwkSKeyCommand(config));
    }

    method SetLoRaAppSKey() returns (status: uint8)
      modifies this
      ensures status == LORA_STATUS_OK
      ensures sent == old(sent) + [AppSKeyCommand(config)] && replies == Drop(old(replies), 1)
      ensures config == old(config) && loraBusy == old(loraBusy)
    {
      status := ConfigStep(AppSKeyCommand(config));
    }

    /** The second half of `init`: class, power, ADR, data rate, DevEui and
        authentication mode, each checked, then the three ABP session
        parameters once the mode was set. */
    method ProvisionSession() returns (status: uint8)
      modifies this
      ensures status == LORA_STATUS_OK
      ensures sent == old(sent) + ProvisioningTail(config) && replies == Drop(old(replies), 9)
      ensures config == old(config) && loraBusy == old(loraBusy)
    {
      ghost var sent0, replies0 := sent, replies;
      status := SetLoRaClass();
      if status != LORA_STATUS_OK {
        return;
      }
      status := SetLoRaTxPwr();
      DropDrop(replies0, 1, 1);
      if status != LORA_STATUS_OK {
        return;
      }
      status := SetLoRaADR();
      DropDrop(replies0, 2, 1);
      if status != LORA_STATUS_OK {
        return;
      }
      status := SetLoRaUpDR();
      DropDrop(replies0, 3, 1);
      if status != LORA_STATUS_OK {
        return;
      }
      status := SetLoRaDevEUI();
      DropDrop(replies0, 4, 1);
      if status != LORA_STATUS_OK {
        return;
      }
      status := SetLoRaAuthMode();
      DropDrop(replies0, 5, 1);
      if status == LORA_STATUS_OK {
        status := SetLoRaDevAddr();
        DropDrop(replies0, 6, 1);
        status := SetLoRaNwkSKey();
        DropDrop(replies0, 7, 1);
        status := SetLoRaAppSKey();
        DropDrop(replies0, 8, 1);
      } else {
        return;
      }
    }

    /** The first half of `init` after the probe: reset, the firmware query
        when debugging, base band and sub-band, each checked. */
    method ConfigureRadio() returns (status: uint8)
      modifies this
      ensures status == LORA_STATUS_OK
      ensures sent == old(sent) + RadioCommands(config)
      ensures replies == Drop(old(replies), |RadioCommands(config)|)
      ensures config == old(config) && loraBusy == old(loraBusy)
    {
      ghost var sent0, replies0 := sent, replies;
      RadioAccounting(config, sent0, replies0);
      status := ResetLoRaModule();
      if status != LORA_STATUS_OK {
        return;
      }
      if config.debug {
        var version := GetFWVersion();
        DropDrop(replies0, 1, 1);
      }
      assert sent == sent0 + [ResetCommand] + VersionQuery(config);
      assert replies == Drop(replies0, 1 + |VersionQuery(config)|);
      status := SetLoRaBaseBand();
      if status != LORA_STATUS_OK {
        return;
      }
      status := SetLoRaSubBand();
    }

    /** Stores the configuration and provisions the modem: a failed probe
        returns UART_FAIL at once; otherwise every step runs in its fixed
        order and the result is the status of the AppSKey step, OK. */
    method Init(cfg: LoRaConfig) returns (status: uint8)
      modifies this
      ensures config == cfg && loraBusy == old(loraBusy)
      ensures status == InitStatus(NextReply(old(replies)))
      ensures sent == old(sent) + InitCommands(cfg, NextReply(old(replies)))
      ensures replies == Drop(old(replies), |InitCommands(cfg, NextReply(old(replies)))|)
    {
      status := LORA_STATUS_UNINITIALIZED;
      config := cfg;
      ghost var sent0, replies0 := sent, replies;
      status := SetSerialInterface();
      if status != LORA_STATUS_OK {
        return;
      }
      InitAccounting(cfg, sent0, replies0);
      status := ConfigureRadio();
      if status != LORA_STATUS_OK {
        return;
      }
      status := ProvisionSession();
    }

    /** Sends an unconfirmed uplink and polls the link until a chunk contains
        "Done". With a finite script, `None` means the script ran out while the
        modem was still busy: the firmware would go on polling forever. */
    method SendNoAckMsgHex(port: uint8, buf: string) returns (result: Option<uint8>)
      modifies this
      ensures sent == old(sent) + [PortCommand(port), MsgHexCommand(buf)]
      ensures replies == []
      ensures loraBusy == !AnyDone(Drop(old(replies), 1))
      ensures result == if AnyDone(Drop(old(replies), 1)) then Some(LORA_STATUS_OK) else None
      ensures config == old(config)
    {
      loraBusy := true;
      var reply := Exchange(PortCommand(port));
      sent := sent + [MsgHexCommand(buf)];
      ghost var chunks := replies;
      ghost var read: seq<string> := [];
      while replies != []
        invariant chunks == read + replies
        invariant loraBusy == !AnyDone(read)
        invariant sent == old(sent) + [PortCommand(port), MsgHexCommand(buf)]
        invariant config == old(config)
        decreases |replies|
      {
        var chunk := replies[0];
        replies := replies[1..];
        AnyDoneAppend(read, chunk);
        read := read + [chunk];
        if IndexOf(chunk, DoneMarker) != -1 {
          loraBusy := false;
        }
      }
      assert read == chunks;
      if loraBusy {
        result := None;
      } else {
        result := Some(LORA_STATUS_OK);
      }
    }
  }

  /** Bookkeeping for `ConfigureRadio`: the reset, the firmware query, the
      base band and the masking, each reading one reply per line, are the
      radio commands and consume one reply per line. */
  lemma RadioAccounting(cfg: LoRaConfig, sent0: seq<string>, replies0: seq<string>)
    ensures sent0 + [ResetCommand] + VersionQuery(cfg) + [BaseBandCommand(cfg)] + SubBandCommands(cfg.subband)
      == sent0 + RadioCommands(cfg)
    ensures Drop(Drop(Drop(replies0, 1 + |VersionQuery(cfg)|), 1), |SubBandCommands(cfg.subband)|)
      == Drop(replies0, |RadioCommands(cfg)|)
  {
    var v, bands := VersionQuery(cfg), SubBandCommands(cfg.subband);
    DropDrop(replies0, 1 + |v|, 1);
    DropDrop(replies0, 2 + |v|, |bands|);
    assert RadioCommands(cfg) == [ResetCommand] + v + [BaseBandCommand(cfg)] + bands;
  }

  /** Bookkeeping for `Init`: the probe, the radio commands and the
      provisioning tail, each reading one reply per line, are the lines of
      `InitCommands` after a good probe and consume one reply per line. */
  lemma InitAccounting(cfg: LoRaConfig, sent0: seq<string>, replies0: seq<string>)
    ensures sent0 + [ProbeCommand] + RadioCommands(cfg) + ProvisioningTail(cfg)
      == sent0 + InitCommands(cfg, ProbeAck)
    ensures Drop(Drop(Drop(replies0, 1), |RadioCommands(cfg)|), |ProvisioningTail(cfg)|)
      == Drop(replies0, |InitCommands(cfg, ProbeAck)|)
  {
    DropDrop(replies0, 1, |RadioCommands(cfg)|);
    DropDrop(replies0, 1 + |RadioCommands(cfg)|, |ProvisioningTail(cfg)|);
  }
}
