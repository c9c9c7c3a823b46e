/** Unit settings: clock, language, Modbus and network addresses, flow units, the unit's
    serial number and name, and, on extended firmware, the subnet mask, the RS-485 line, the
    daylight-saving flag and the BACnet port and id. */
module Settings {
  import opened Results
  import opened Client

  // ---------------------------------------------------------------------------
  // Flow units
  // ---------------------------------------------------------------------------

  datatype FlowUnits = CubicMeterPerHour | LiterPerSecond | CubicMeterPerSecond | Pascal

  function FlowUnitsWord(u: FlowUnits): (w: int)
    ensures 0 <= w <= 3
  {
    match u
    case CubicMeterPerHour => 0
    case LiterPerSecond => 1
    case CubicMeterPerSecond => 2
    case Pascal => 3
  }

  /** `FlowUnits(word)`: a ValueError for any word outside 0..3. */
  function FlowUnitsFromWord(w: int): (r: Result<FlowUnits>)
    ensures r.Ok? <==> 0 <= w <= 3
    ensures r.Ok? ==> FlowUnitsWord(r.value) == w
    ensures r.Err? ==> r.error == InvalidValue("FlowUnits", w)
  {
    if w == 0 then Ok(CubicMeterPerHour)
    else if w == 1 then Ok(LiterPerSecond)
    else if w == 2 then Ok(CubicMeterPerSecond)
    else if w == 3 then Ok(Pascal)
    else Err(InvalidValue("FlowUnits", w))
  }

  /** `unit_symbol`. */
  function UnitSymbol(u: FlowUnits): (s: string)
    ensures |s| > 0
  {
    match u
    case CubicMeterPerHour => "m³/h"
    case LiterPerSecond => "L/s"
    case CubicMeterPerSecond => "m³/s"
    case Pascal => "Pa"
  }

  /** `common_factor`: the scale applied to raw flow values. */
  function CommonFactor(u: FlowUnits): (f: real)
    ensures f > 0.0
  {
    if u == CubicMeterPerSecond then 0.001 else 1.0
  }

  /** Each unit has its own symbol, and only cubic metres per second are scaled (by 1/1000);
      every other unit passes raw values through. */
  lemma {:induction false} FlowUnitsProperties(u: FlowUnits, v: FlowUnits)
    ensures UnitSymbol(u) == UnitSymbol(v) <==> u == v
    ensures CommonFactor(u) == 1.0 / 1000.0 <==> u == CubicMeterPerSecond
    ensures CommonFactor(u) == 1.0 <==> u != CubicMeterPerSecond
    ensures FlowUnitsFromWord(FlowUnitsWord(u)) == Ok(u)
  {
    if u != v {
      assert UnitSymbol(u)[|UnitSymbol(u)| - 1] != UnitSymbol(v)[|UnitSymbol(v)| - 1]
          || UnitSymbol(u)[0] != UnitSymbol(v)[0];
    }
  }

  // ---------------------------------------------------------------------------
  // RS-485 line parameters and language
  // ---------------------------------------------------------------------------

  datatype Speed = S9600 | S19200 | S38400 | S57600
  datatype Parity = NoParity | Even

  datatype Rs485 = Rs485(speed: Speed, parity: Parity, stopBits: int)

  function SpeedOfBits(b: int): Speed
    requires 0 <= b < 4
  {
    if b == 0 then S9600 else if b == 1 then S19200 else if b == 2 then S38400 else S57600
  }

  function SpeedBits(s: Speed): (b: int)
    ensures 0 <= b < 4 && SpeedOfBits(b) == s
  {
    match s
    case S9600 => 0
    case S19200 => 1
    case S38400 => 2
    case S57600 => 3
  }

  /** `Rs485.consume_from_registers` on the word it consumed: stop bits from bit 0 (plus one),
      parity from bit 1, speed from bits 3 and 4. Every word decodes. */
  function Rs485FromWord(raw: int): (r: Rs485)
    ensures r.stopBits == 1 || r.stopBits == 2
  {
    var stopBits := raw % 2;
    var parity := raw / 2 % 2;
    var speed := raw / 8 % 4;
    Rs485(SpeedOfBits(speed), if parity == 0 then NoParity else Even, stopBits + 1)
  }

  /** The word a device holds for line parameters, with the unused bit 2 clear. */
  function Rs485Word(r: Rs485): (w: int)
    requires r.stopBits == 1 || r.stopBits == 2
    ensures 0 <= w < 32 && w / 4 % 2 == 0
  {
    SpeedBits(r.speed) * 8 + (if r.parity == NoParity then 0 else 2) + (r.stopBits - 1)
  }

  /** Line parameters survive being packed into a word and unpacked. */
  lemma {:induction false} Rs485RoundTrip(r: Rs485)
    requires r.stopBits == 1 || r.stopBits == 2
    ensures Rs485FromWord(Rs485Word(r)) == r
  {
  }

  /** The bit fields of a word are those of its low five bits. */
  lemma {:induction false} LowFiveBits(raw: int)
    ensures var m := raw % 32;
      raw % 2 == m % 2 && raw / 2 % 2 == m / 2 % 2 && raw / 4 % 2 == m / 4 % 2 && raw / 8 % 4 == m / 8
  {
    var q, m := raw / 32, raw % 32;
    assert raw / 2 == 16 * q + m / 2;
    assert raw / 4 == 8 * q + m / 4;
    assert raw / 8 == 4 * q + m / 8;
  }

  /** Unpacking ignores bit 2 and every bit from 5 up: it depends on the word only through bits
      0, 1, 3 and 4, which are exactly the bits the packed form keeps. */
  lemma {:induction false} Rs485IgnoresOtherBits(raw: int)
    ensures Rs485Word(Rs485FromWord(raw)) == raw % 32 - (raw / 4 % 2) * 4
    ensures Rs485FromWord(raw) == Rs485FromWord(raw % 32 - (raw / 4 % 2) * 4)
  {
    LowFiveBits(raw);
    var m := raw % 32;
    var b0, b1, b2, sp := m % 2, m / 2 % 2, m / 4 % 2, m / 8;
    UnpackFiveBits(m);
    PackFiveBits(b0, b1, 0, sp);
    assert SpeedBits(SpeedOfBits(sp)) == sp;
  }

  /** A five-bit word is the sum of its fields: bit 0, bit 1, bit 2 and bits 3-4. */
  lemma UnpackFiveBits(m: int)
    requires 0 <= m < 32
    ensures m == 8 * (m / 8) + 4 * (m / 4 % 2) + 2 * (m / 2 % 2) + m % 2
    ensures 0 <= m / 8 < 4
  {
  }

  /** Packing the four fields and reading them back gives the fields. */
  lemma PackFiveBits(b0: int, b1: int, b2: int, sp: int)
    requires 0 <= b0 < 2 && 0 <= b1 < 2 && 0 <= b2 < 2 && 0 <= sp < 4
    ensures var k := 8 * sp + 4 * b2 + 2 * b1 + b0;
      && k % 2 == b0 && k / 2 % 2 == b1 && k / 4 % 2 == b2 && k / 8 == sp && k / 8 % 4 == sp
  {
  }

  datatype Language = English | Lithuanian | Russian | Polish | German

  function LanguageWord(l: Language): (w: int)
    ensures 0 <= w <= 4
  {
    match l
    case English => 0
    case Lithuanian => 1
    case Russian => 2
    case Polish => 3
    case German => 4
  }

  /** `Language(word)`: a ValueError for any word outside 0..4. */
  function LanguageFromWord(w: int): (r: Result<Language>)
    ensures r.Ok? <==> 0 <= w <= 4
    ensures r.Ok? ==> LanguageWord(r.value) == w
    ensures r.Err? ==> r.error == InvalidValue("Language", w)
  {
    if w == 0 then Ok(English)
    else if w == 1 then Ok(Lithuanian)
    else if w == 2 then Ok(Russian)
    else if w == 3 then Ok(Polish)
    else if w == 4 then Ok(German)
    else Err(InvalidValue("Language", w))
  }

  // ---------------------------------------------------------------------------
  // The settings block
  // ---------------------------------------------------------------------------

  const REG_TIME := 449
  const REG_SECONDS := 450
  const REG_DAY_OF_WEEK := 451
  const REG_DATE := 452
  const REG_YEAR := 453
  const REG_LANGUAGE := 454
  const REG_MODBUS_ADDRESS := 455
  const REG_IP_ADDRESS := 456
  const REG_FLOW_UNITS := 458
  const REG_AHU_SN := 459
  const REG_AHU_NAME := 467
  const REG_IP_MASK := 479
  const REG_RS485 := 481
  const REG_DST := 482
  const REG_BACNET_PORT := 484
  const REG_BACNET_ID := 485

  /** Words of the fields without a decoder of their own (clock, date, addresses, strings). */
  const TIME_WORDS := 2
  const DATE_WORDS := 2
  const IP_WORDS := 2
  const SERIAL_WORDS := 8
  const NAME_WORDS := 12

  /** A settings snapshot. The clock, date, addresses and strings stay as the raw words they
      were decoded from; the extended fields are `Some` exactly on extended firmware. */
  datatype SettingsState = SettingsState(
    time: seq<int>,
    date: seq<int>,
    language: Language,
    modbusAddress: int,
    ipAddress: seq<int>,
    flowUnits: FlowUnits,
    ahuSerialNumber: seq<int>,
    ahuName: seq<int>,
    ipMask: Option<seq<int>>,
    rs485: Option<Rs485>,
    daylightSavingTime: Option<bool>,
    bacnetPort: Option<int>,
    bacnetId: Option<int>)

  /** Words `SettingsState.consume_from_registers` takes: 30, or 38 on extended firmware. */
  function SettingsWidth(isExtended: bool): (n: nat)
    ensures n == TIME_WORDS + 1 + DATE_WORDS + 1 + 1 + IP_WORDS + 1 + SERIAL_WORDS + NAME_WORDS
                 + (if isExtended then IP_WORDS + 1 + 1 + 1 + 1 + 2 else 0)
  {
    if isExtended then 38 else 30
  }

  /** The extended fields, after the basic ones. */
  function ConsumeExtended(regs: seq<int>): (r: Result<Consumed<(seq<int>, Rs485, bool, int, int)>>)
    ensures Advances(r, regs, 8)
    ensures r.Ok? <==> 8 <= |regs|
    ensures r.Ok? ==> r.value.value == (regs[..IP_WORDS], Rs485FromWord(regs[2]), regs[3] != 0, regs[5], U32Of(regs[6], regs[7]))
  {
    var ipMask :- ConsumeWords(regs, IP_WORDS);
    var rs485 :- ConsumeU16(ipMask.rest);
    var dst :- ConsumeU16(rs485.rest);
    var undocumented :- ConsumeU16(dst.rest);
    var bacnetPort :- ConsumeU16(undocumented.rest);
    var bacnetId :- ConsumeU32(bacnetPort.rest);
    Ok(Consumed((ipMask.value, Rs485FromWord(rs485.value), dst.value != 0, bacnetPort.value, bacnetId.value),
                bacnetId.rest))
  }

  /** `SettingsState.consume_from_registers`: the clock (with seconds), the day of week
      (dropped), the date, language, Modbus address, IP address, flow units, serial number and
      name, then on extended firmware the mask, RS-485 word, daylight-saving word, an
      undocumented word (dropped), BACnet port and BACnet id. */
  function ConsumeSettingsState(regs: seq<int>, isExtended: bool): (r: Result<Consumed<SettingsState>>)
    ensures Advances(r, regs, SettingsWidth(isExtended))
    ensures r.Ok? ==> var s := r.value.value;
      && (s.ipMask.Some? <==> isExtended) && (s.rs485.Some? <==> isExtended)
      && (s.daylightSavingTime.Some? <==> isExtended) && (s.bacnetPort.Some? <==> isExtended)
      && (s.bacnetId.Some? <==> isExtended)
  {
    var time :- ConsumeWords(regs, TIME_WORDS);
    var dayOfWeek :- ConsumeU16(time.rest);
    var date :- ConsumeWords(dayOfWeek.rest, DATE_WORDS);
    var languageWord :- ConsumeU16(date.rest);
    var language :- LanguageFromWord(languageWord.value);
    var modbusAddress :- ConsumeU16(languageWord.rest);
    var ipAddress :- ConsumeWords(modbusAddress.rest, IP_WORDS);
    var flowUnitsWord :- ConsumeU16(ipAddress.rest);
    var flowUnits :- FlowUnitsFromWord(flowUnitsWord.value);
    var serial :- ConsumeWords(flowUnitsWord.rest, SERIAL_WORDS);
    var name :- ConsumeWords(serial.rest, NAME_WORDS);
    var basic := SettingsState(time.value, date.value, language, modbusAddress.value, ipAddress.value, flowUnits,
                               serial.value, name.value, None, None, None, None, None);
    if isExtended then
      var extended :- ConsumeExtended(name.rest);
      var (ipMask, rs485, dst, bacnetPort, bacnetId) := extended.value;
      Ok(Consumed(basic.(ipMask := Some(ipMask), rs485 := Some(rs485), daylightSavingTime := Some(dst),
                         bacnetPort := Some(bacnetPort), bacnetId := Some(bacnetId)),
                  extended.rest))
    else
      Ok(Consumed(basic, name.rest))
  }

  /** `Settings.read_all`'s span: from register 449 through 478 (the register before the mask),
      or through 486 (the BACnet id's second word) on extended firmware. */
  function ReadAllCount(isExtended: bool): (n: int)
    ensures n == SettingsWidth(isExtended)
  {
    var end := if isExtended then REG_BACNET_ID + 1 else REG_IP_MASK - 1;
    (end - REG_TIME) + 1
  }

  /** Where each decoded field comes from in the block read from register 449: the decode
      fails exactly on a bad language or flow-unit word, and every basic field is taken from
      its register's offset from 449. */
  lemma {:induction false} SettingsLayout(regs: seq<int>, isExtended: bool)
    requires SettingsWidth(isExtended) <= |regs|
    ensures var r := ConsumeSettingsState(regs, isExtended);
      && (r.Ok? <==> 0 <= regs[REG_LANGUAGE - REG_TIME] <= 4 && 0 <= regs[REG_FLOW_UNITS - REG_TIME] <= 3)
      && (r.Ok? ==> var s := r.value.value;
            && s.time == [regs[REG_TIME - REG_TIME], regs[REG_SECONDS - REG_TIME]]
            && s.date == [regs[REG_DATE - REG_TIME], regs[REG_YEAR - REG_TIME]]
            && LanguageWord(s.language) == regs[REG_LANGUAGE - REG_TIME]
            && s.modbusAddress == regs[REG_MODBUS_ADDRESS - REG_TIME]
            && s.ipAddress == regs[REG_IP_ADDRESS - REG_TIME..REG_IP_ADDRESS - REG_TIME + IP_WORDS]
            && FlowUnitsWord(s.flowUnits) == regs[REG_FLOW_UNITS - REG_TIME]
            && s.ahuSerialNumber == regs[REG_AHU_SN - REG_TIME..REG_AHU_SN - REG_TIME + SERIAL_WORDS]
            && s.ahuName == regs[REG_AHU_NAME - REG_TIME..REG_AHU_NAME - REG_TIME + NAME_WORDS])
  {
    var n := REG_AHU_NAME - REG_TIME;
    assert regs[n..][..NAME_WORDS] == regs[n..n + NAME_WORDS];
  }

  /** On extended firmware the mask, RS-485 word, daylight-saving word, BACnet port and BACnet
      id come from their registers' offsets from 449; the words at 451 and 483 feed no field. */
  lemma {:induction false} SettingsExtendedLayout(regs: seq<int>)
    requires SettingsWidth(true) <= |regs|
    requires ConsumeSettingsState(regs, true).Ok?
    ensures var s := ConsumeSettingsState(regs, true).value.value;
      && s.ipMask == Some(regs[REG_IP_MASK - REG_TIME..REG_IP_MASK - REG_TIME + IP_WORDS])
      && s.rs485 == Some(Rs485FromWord(regs[REG_RS485 - REG_TIME]))
      && s.daylightSavingTime == Some(regs[REG_DST - REG_TIME] != 0)
      && s.bacnetPort == Some(regs[REG_BACNET_PORT - REG_TIME])
      && s.bacnetId == Some(U32Of(regs[REG_BACNET_ID - REG_TIME], regs[REG_BACNET_ID + 1 - REG_TIME]))
  {
    var tail := regs[SettingsWidth(false)..];
    assert tail[..IP_WORDS] == regs[REG_IP_MASK - REG_TIME..REG_IP_MASK - REG_TIME + IP_WORDS];
  }

  /** `Settings`: the settings block, read in one request. */
  class Settings {
    const client: Client

    constructor (client: Client)
      ensures this.client == client
    {
      this.client := client;
    }

    /** `read_all`: `ReadAllCount(isExtended)` registers from 449 in one request, decoded. */
    method ReadAll(isExtended: bool) returns (r: Result<SettingsState>)
      modifies client`requests
      ensures client.requests == old(client.requests) + [Request.ReadHoldingRegisters(REG_TIME, ReadAllCount(isExtended))]
      ensures r.Ok? <==> Holds(client.holding, REG_TIME, ReadAllCount(isExtended))
                         && ConsumeSettingsState(Window(client.holding, REG_TIME, ReadAllCount(isExtended)), isExtended).Ok?
      ensures r.Ok? ==> ConsumeSettingsState(Window(client.holding, REG_TIME, ReadAllCount(isExtended)), isExtended)
                        == Ok(Consumed(r.value, []))
    {
      var rr := client.ReadManyU16(REG_TIME, ReadAllCount(isExtended));
      if rr.Err? {
        return Err(rr.error);
      }
      var c := ConsumeSettingsState(rr.value, isExtended);
      if c.Err? {
        return Err(c.error);
      }
      assert c.value.rest == [];
      r := Ok(c.value.value);
    }
  }
}
