/** Live monitoring values of the unit: the C5 status, the current operation mode, both air
    flows scaled to the configured unit, five temperatures in degrees and two duct pressures. */
module Monitoring {
  import opened Results
  import opened Client
  import Modes
  import Settings

  datatype C5Status = Stop | EnabledNoFans | Running

  function C5StatusWord(s: C5Status): (w: int)
    ensures 0 <= w <= 2
  {
    match s
    case Stop => 0
    case EnabledNoFans => 1
    case Running => 2
  }

  /** `C5Status(word)`: a ValueError for any word outside 0..2. */
  function C5StatusFromWord(w: int): (r: Result<C5Status>)
    ensures r.Ok? <==> 0 <= w <= 2
    ensures r.Ok? ==> C5StatusWord(r.value) == w
    ensures r.Err? ==> r.error == InvalidValue("C5Status", w)
  {
    if w == 0 then Ok(Stop)
    else if w == 1 then Ok(EnabledNoFans)
    else if w == 2 then Ok(Running)
    else Err(InvalidValue("C5Status", w))
  }

  /** Every status survives the trip through its word. */
  lemma {:induction false} C5StatusRoundTrip(s: C5Status)
    ensures C5StatusFromWord(C5StatusWord(s)) == Ok(s)
  {
  }

  // ---------------------------------------------------------------------------
  // MonitoringState
  // ---------------------------------------------------------------------------

  datatype MonitoringState = MonitoringState(
    c5Status: C5Status,
    mode: Modes.OperationMode,
    supplyFlow: real,
    exhaustFlow: real,
    supplyTemp: real,
    extractTemp: real,
    outdoorTemp: real,
    exhaustTemp: real,
    returnWaterTemp: real,
    supplyAirPressure: int,
    extractAirPressure: int)

  /** Words `_consume` takes: status, mode, two u32 flows, five temperatures, two pressures. */
  const MONITORING_WORDS := 1 + 1 + 2 + 2 + 5 + 2

  /** Offsets of the fields within the decoded block. */
  const OFF_C5_STATUS := 0
  const OFF_MODE := 1
  const OFF_SUPPLY_FLOW := 2
  const OFF_EXHAUST_FLOW := 4
  const OFF_SUPPLY_TEMP := 6
  const OFF_EXTRACT_TEMP := 7
  const OFF_OUTDOOR_TEMP := 8
  const OFF_EXHAUST_TEMP := 9
  const OFF_RETURN_WATER_TEMP := 10
  const OFF_SUPPLY_AIR_PRESSURE := 11
  const OFF_EXTRACT_AIR_PRESSURE := 12

  /** A signed word of tenths of a degree, in degrees. */
  function Temperature(w: int): (t: real)
    ensures -3276.8 <= t < 3276.8
    ensures IsWord(w) && w < 0x8000 ==> t * 10.0 == w as real
    ensures IsWord(w) && w >= 0x8000 ==> t * 10.0 == (w - WORD_SPAN) as real
  {
    ToSigned16(w) as real / 10.0
  }

  /** A flow word pair scaled by the unit's common factor. */
  function Flow(hi: int, lo: int, units: Settings.FlowUnits): (f: real)
    ensures 0.0 <= f
    ensures units != Settings.CubicMeterPerSecond ==> f == U32Of(hi, lo) as real
    ensures units == Settings.CubicMeterPerSecond ==> f * 1000.0 == U32Of(hi, lo) as real
  {
    U32Of(hi, lo) as real * Settings.CommonFactor(units)
  }

  /** `MonitoringState._consume`: the thirteen words in order, the first two checked against
      their enumerations. */
  function ConsumeMonitoringState(regs: seq<int>, units: Settings.FlowUnits): (r: Result<Consumed<MonitoringState>>)
    ensures Advances(r, regs, MONITORING_WORDS)
    ensures r.Ok? <==> MONITORING_WORDS <= |regs| && 0 <= regs[OFF_C5_STATUS] <= 2 && 1 <= regs[OFF_MODE] <= 6
  {
    var status :- ConsumeU16(regs);
    var c5Status :- C5StatusFromWord(status.value);
    var modeWord :- ConsumeU16(status.rest);
    var mode :- Modes.OperationModeFromWord(modeWord.value);
    var supplyFlow :- ConsumeU32(modeWord.rest);
    var exhaustFlow :- ConsumeU32(supplyFlow.rest);
    var supplyTemp :- ConsumeI16(exhaustFlow.rest);
    var extractTemp :- ConsumeI16(supplyTemp.rest);
    var outdoorTemp :- ConsumeI16(extractTemp.rest);
    var exhaustTemp :- ConsumeI16(outdoorTemp.rest);
    var returnWaterTemp :- ConsumeI16(exhaustTemp.rest);
    var supplyAirPressure :- ConsumeU16(returnWaterTemp.rest);
    var extractAirPressure :- ConsumeU16(supplyAirPressure.rest);
    var factor := Settings.CommonFactor(units);
    Ok(Consumed(
      MonitoringState(
        c5Status, mode,
        supplyFlow.value as real * factor, exhaustFlow.value as real * factor,
        supplyTemp.value as real / 10.0, extractTemp.value as real / 10.0, outdoorTemp.value as real / 10.0,
        exhaustTemp.value as real / 10.0, returnWaterTemp.value as real / 10.0,
        supplyAirPressure.value, extractAirPressure.value),
      extractAirPressure.rest))
  }

  /** Where each decoded field comes from: the enumerations' words, the flows as scaled u32s
      (high word first), the temperatures as signed tenths and the pressures as raw words. */
  lemma {:induction false} MonitoringLayout(regs: seq<int>, units: Settings.FlowUnits)
    requires ConsumeMonitoringState(regs, units).Ok?
    ensures var s := ConsumeMonitoringState(regs, units).value.value;
      && C5StatusWord(s.c5Status) == regs[OFF_C5_STATUS]
      && Modes.OperationModeWord(s.mode) == regs[OFF_MODE]
      && s.supplyFlow == Flow(regs[OFF_SUPPLY_FLOW], regs[OFF_SUPPLY_FLOW + 1], units)
      && s.exhaustFlow == Flow(regs[OFF_EXHAUST_FLOW], regs[OFF_EXHAUST_FLOW + 1], units)
      && s.supplyTemp == Temperature(regs[OFF_SUPPLY_TEMP])
      && s.extractTemp == Temperature(regs[OFF_EXTRACT_TEMP])
      && s.outdoorTemp == Temperature(regs[OFF_OUTDOOR_TEMP])
      && s.exhaustTemp == Temperature(regs[OFF_EXHAUST_TEMP])
      && s.returnWaterTemp == Temperature(regs[OFF_RETURN_WATER_TEMP])
      && s.supplyAirPressure == regs[OFF_SUPPLY_AIR_PRESSURE]
      && s.extractAirPressure == regs[OFF_EXTRACT_AIR_PRESSURE]
  {
  }

  // ---------------------------------------------------------------------------
  // Monitoring
  // ---------------------------------------------------------------------------

  const REG_C5_STATUS := 1999
  const REG_AIR_HEATER_OPERATION_ENERGY := 2221

  /** `read_all`'s span: from the status register through the second word of the u32 at 2221. */
  const READ_ALL_COUNT := ((REG_AIR_HEATER_OPERATION_ENERGY + 1) - REG_C5_STATUS) + 1

  /** The span `read_all` asks for is 224 registers, above the 125 a single Read Holding
      Registers request may carry (section 6.3 of the MODBUS Application Protocol
      Specification V1.1b3), so no device state answers it. */
  lemma ReadAllSpanRefused(holding: map<int, int>)
    ensures READ_ALL_COUNT == 224 && READ_ALL_COUNT > MAX_READ_QUANTITY
    ensures !Answers(holding, REG_C5_STATUS, READ_ALL_COUNT)
  {
  }

  /** `Monitoring`: the monitoring block of one device. The flow unit is a parameter of the
      decode; the caller passes it from the settings block. */
  class Monitoring {
    const client: Client

    constructor (client: Client)
      ensures this.client == client
    {
      this.client := client;
    }

    /** One request of `count` registers from 1999, decoded from its first word. */
    method ReadAndDecode(count: int, units: Settings.FlowUnits) returns (r: Result<MonitoringState>)
      modifies client`requests
      ensures client.requests == old(client.requests) + [Request.ReadHoldingRegisters(REG_C5_STATUS, count)]
      ensures !Answers(client.holding, REG_C5_STATUS, count) ==> r == Err(ErrorResponse)
      ensures Answers(client.holding, REG_C5_STATUS, count) ==>
                var regs := Window(client.holding, REG_C5_STATUS, count);
                && (r.Ok? <==> ConsumeMonitoringState(regs, units).Ok?)
                && (r.Ok? ==> ConsumeMonitoringState(regs, units) == Ok(Consumed(r.value, regs[MONITORING_WORDS..])))
    {
      var rr := client.ReadManyU16(REG_C5_STATUS, count);
      if rr.Err? {
        return Err(rr.error);
      }
      var c := ConsumeMonitoringState(rr.value, units);
      if c.Err? {
        return Err(c.error);
      }
      r := Ok(c.value.value);
    }

    /** `read_all` as written: one request of 224 registers from 1999. The request is over
        the protocol limit, so the result is always the device's error. */
    method ReadAll(units: Settings.FlowUnits) returns (r: Result<MonitoringState>)
      modifies client`requests
      ensures client.requests == old(client.requests) + [Request.ReadHoldingRegisters(REG_C5_STATUS, READ_ALL_COUNT)]
      ensures r == Err(ErrorResponse)
    {
      ReadAllSpanRefused(client.holding);
      r := ReadAndDecode(READ_ALL_COUNT, units);
    }

    /** `read_all` with the request cut to the thirteen registers `_consume` decodes: it
        succeeds exactly when the device holds them and the status and mode words are valid. */
    method ReadDecodedSpan(units: Settings.FlowUnits) returns (r: Result<MonitoringState>)
      modifies client`requests
      ensures client.requests == old(client.requests) + [Request.ReadHoldingRegisters(REG_C5_STATUS, MONITORING_WORDS)]
      ensures var h := client.holding;
        && (!Holds(h, REG_C5_STATUS, MONITORING_WORDS) ==> r == Err(ErrorResponse))
        && (Holds(h, REG_C5_STATUS, MONITORING_WORDS) ==>
              var regs := Window(h, REG_C5_STATUS, MONITORING_WORDS);
              && (r.Ok? <==> 0 <= regs[OFF_C5_STATUS] <= 2 && 1 <= regs[OFF_MODE] <= 6)
              && (r.Ok? ==> ConsumeMonitoringState(regs, units) == Ok(Consumed(r.value, []))))
    {
      r := ReadAndDecode(MONITORING_WORDS, units);
      if Holds(client.holding, REG_C5_STATUS, MONITORING_WORDS) {
        var regs := Window(client.holding, REG_C5_STATUS, MONITORING_WORDS);
        assert regs[MONITORING_WORDS..] == [];
      }
    }
  }
}
