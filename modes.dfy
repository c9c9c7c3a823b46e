/** Operating modes of the unit: the AHU switch, the current operation mode, the five mode
    slots with their flows, setpoint and (for the special mode) configuration flags, and the
    flow- and temperature-control settings that follow the slots. */
module Modes {
  import opened Results
  import opened Client

  // ---------------------------------------------------------------------------
  // Enumerations carried in single registers
  // ---------------------------------------------------------------------------

  datatype OperationMode = Comfort1 | Comfort2 | Economy1 | Economy2 | Special | Program

  function OperationModeWord(m: OperationMode): (w: int)
    ensures 1 <= w <= 6
  {
    match m
    case Comfort1 => 1
    case Comfort2 => 2
    case Economy1 => 3
    case Economy2 => 4
    case Special => 5
    case Program => 6
  }

  /** `OperationMode(word)`: a ValueError for any word outside 1..6. */
  function OperationModeFromWord(w: int): (r: Result<OperationMode>)
    ensures r.Ok? <==> 1 <= w <= 6
    ensures r.Ok? ==> OperationModeWord(r.value) == w
    ensures r.Err? ==> r.error == InvalidValue("OperationMode", w)
  {
    if w == 1 then Ok(Comfort1)
    else if w == 2 then Ok(Comfort2)
    else if w == 3 then Ok(Economy1)
    else if w == 4 then Ok(Economy2)
    else if w == 5 then Ok(Special)
    else if w == 6 then Ok(Program)
    else Err(InvalidValue("OperationMode", w))
  }

  datatype FlowControlMode = Cav | Vav | Dcv

  function FlowControlModeWord(m: FlowControlMode): (w: int)
    ensures 0 <= w <= 2
  {
    match m
    case Cav => 0
    case Vav => 1
    case Dcv => 2
  }

  function FlowControlModeFromWord(w: int): (r: Result<FlowControlMode>)
    ensures r.Ok? <==> 0 <= w <= 2
    ensures r.Ok? ==> FlowControlModeWord(r.value) == w
    ensures r.Err? ==> r.error == InvalidValue("FlowControlMode", w)
  {
    if w == 0 then Ok(Cav)
    else if w == 1 then Ok(Vav)
    else if w == 2 then Ok(Dcv)
    else Err(InvalidValue("FlowControlMode", w))
  }

  datatype TemperatureControlMode = SupplyControl | ExtractControl | RoomControl

  function TemperatureControlModeWord(m: TemperatureControlMode): (w: int)
    ensures 0 <= w <= 2
  {
    match m
    case SupplyControl => 0
    case ExtractControl => 1
    case RoomControl => 2
  }

  function TemperatureControlModeFromWord(w: int): (r: Result<TemperatureControlMode>)
    ensures r.Ok? <==> 0 <= w <= 2
    ensures r.Ok? ==> TemperatureControlModeWord(r.value) == w
    ensures r.Err? ==> r.error == InvalidValue("TemperatureControlMode", w)
  {
    if w == 0 then Ok(SupplyControl)
    else if w == 1 then Ok(ExtractControl)
    else if w == 2 then Ok(RoomControl)
    else Err(InvalidValue("TemperatureControlMode", w))
  }

  datatype VavStatus = NotCalibrated | Calibrating | SupplyOnly | ExtractOnly | Double

  function VavStatusWord(s: VavStatus): (w: int)
    ensures 0 <= w <= 4
  {
    match s
    case NotCalibrated => 0
    case Calibrating => 1
    case SupplyOnly => 2
    case ExtractOnly => 3
    case Double => 4
  }

  function VavStatusFromWord(w: int): (r: Result<VavStatus>)
    ensures r.Ok? <==> 0 <= w <= 4
    ensures r.Ok? ==> VavStatusWord(r.value) == w
    ensures r.Err? ==> r.error == InvalidValue("VavStatus", w)
  {
    if w == 0 then Ok(NotCalibrated)
    else if w == 1 then Ok(Calibrating)
    else if w == 2 then Ok(SupplyOnly)
    else if w == 3 then Ok(ExtractOnly)
    else if w == 4 then Ok(Double)
    else Err(InvalidValue("VavStatus", w))
  }

  /** Every enumeration member survives being written as its word and read back. */
  lemma EnumWordRoundTrips(o: OperationMode, f: FlowControlMode, t: TemperatureControlMode, v: VavStatus)
    ensures OperationModeFromWord(OperationModeWord(o)) == Ok(o)
    ensures FlowControlModeFromWord(FlowControlModeWord(f)) == Ok(f)
    ensures TemperatureControlModeFromWord(TemperatureControlModeWord(t)) == Ok(t)
    ensures VavStatusFromWord(VavStatusWord(v)) == Ok(v)
  {
  }

  // ---------------------------------------------------------------------------
  // Configuration flags of the special mode (an `IntFlag` over the configuration word)
  // ---------------------------------------------------------------------------

  /** Bit positions of the five flags: `ConfigurationFlags.X == 1 << X`. */
  const DEHUMIDIFYING := 4
  const HUMIDIFYING := 3
  const RECIRCULATION := 2
  const COOLING := 1
  const HEATING := 0

  /** The flags occupy bits 0..4 of a 16-bit word. */
  const FLAG_BITS := 5
  const WORD_BITS := 16

  function Pow2(n: nat): (p: int)
    ensures p >= 1
  {
    if n == 0 then 1 else 2 * Pow2(n - 1)
  }

  /** The low `n` bits of `w`, least significant first: bit `i` is `(w >> i) & 1`. */
  function BitsOf(w: int, n: nat): (b: seq<bool>)
    ensures |b| == n
    decreases n
  {
    if n == 0 then [] else [w % 2 == 1] + BitsOf(w / 2, n - 1)
  }

  /** The non-negative integer whose bits, least significant first, are `b`. */
  function ValueOf(b: seq<bool>): (v: int)
    ensures 0 <= v < Pow2(|b|)
  {
    if |b| == 0 then 0 else (if b[0] then 1 else 0) + 2 * ValueOf(b[1..])
  }

  /** Reading back the bits of a value gives the bits it was built from. */
  lemma {:induction false} BitsValueRoundTrip(b: seq<bool>)
    ensures BitsOf(ValueOf(b), |b|) == b
  {
    if |b| > 0 {
      var v := ValueOf(b);
      var bit := if b[0] then 1 else 0;
      assert v % 2 == bit && v / 2 == ValueOf(b[1..]);
      BitsValueRoundTrip(b[1..]);
    }
  }

  /** A value below `2^n` is determined by its low `n` bits. */
  lemma {:induction false} ValueBitsRoundTrip(w: int, n: nat)
    requires 0 <= w < Pow2(n)
    ensures ValueOf(BitsOf(w, n)) == w
  {
    if n > 0 {
      ValueBitsRoundTrip(w / 2, n - 1);
      assert BitsOf(w, n)[1..] == BitsOf(w / 2, n - 1);
    }
  }

  /** The word width in bits: `2^16` is the number of word values. */
  lemma WordBits()
    ensures Pow2(WORD_BITS) == WORD_SPAN
  {
    assert Pow2(4) == 16;
    assert Pow2(8) == 16 * Pow2(4) by {
      assert Pow2(8) == 2 * Pow2(7) == 4 * Pow2(6) == 8 * Pow2(5) == 16 * Pow2(4);
    }
    assert Pow2(12) == 16 * Pow2(8) by {
      assert Pow2(12) == 2 * Pow2(11) == 4 * Pow2(10) == 8 * Pow2(9) == 16 * Pow2(8);
    }
    assert Pow2(16) == 16 * Pow2(12) by {
      assert Pow2(16) == 2 * Pow2(15) == 4 * Pow2(14) == 8 * Pow2(13) == 16 * Pow2(12);
    }
  }

  /** The mask `1 << k` as bits: only bit `k` is set. */
  function FlagMask(k: nat): (m: seq<bool>)
    requires k < WORD_BITS
    ensures |m| == WORD_BITS
  {
    seq(WORD_BITS, i => i == k)
  }

  /** The flag mask is the word `1 << k`. */
  lemma {:induction false} FlagMaskValue(k: nat)
    requires k < WORD_BITS
    ensures FlagMask(k) == BitsOf(Pow2(k), WORD_BITS)
  {
    SingleBit(k, WORD_BITS);
  }

  lemma {:induction false} SingleBit(k: nat, n: nat)
    ensures forall i :: 0 <= i < n ==> (BitsOf(Pow2(k), n)[i] <==> i == k)
  {
    if n > 0 {
      if k == 0 {
        NoBits(0, n - 1);
      } else {
        assert Pow2(k) % 2 == 0 && Pow2(k) / 2 == Pow2(k - 1);
        SingleBit(k - 1, n - 1);
      }
    }
  }

  lemma {:induction false} NoBits(w: int, n: nat)
    requires w == 0
    ensures forall i :: 0 <= i < n ==> !BitsOf(w, n)[i]
  {
    if n > 0 {
      NoBits(0, n - 1);
    }
  }

  // ---------------------------------------------------------------------------
  // One mode slot
  // ---------------------------------------------------------------------------

  /** A mode slot: flows as raw 32-bit values, the setpoint in degrees (a word of tenths),
      and the configuration word, present only for the special mode. */
  datatype ModeState = ModeState(supplyFlow: int, extractFlow: int, setpointTemperature: real,
                                 configuration: Option<int>)

  const REG_OFF_SUPPLY_FLOW := 0
  const REG_OFF_EXTRACT_FLOW := 2
  const REG_OFF_SETPOINT_TEMPERATURE := 4
  const REG_OFF_CONFIGURATION := 5

  /** Registers of a slot: 5, or 6 for the special mode's trailing configuration word. */
  function SlotWidth(special: bool): (n: nat)
    ensures n == REG_OFF_SETPOINT_TEMPERATURE + 1 || (special && n == REG_OFF_CONFIGURATION + 1)
  {
    if special then 6 else 5
  }

  /** `ModeState._consume_from_registers`: supply flow (u32), extract flow (u32), setpoint
      (u16 tenths), then for the special mode the configuration word. Every way the cursor can
      fail is running out of words, so one length check stands for the chain of consumers. */
  function ConsumeModeState(regs: seq<int>, special: bool): (r: Result<Consumed<ModeState>>)
    ensures Advances(r, regs, SlotWidth(special))
    ensures r.Ok? <==> SlotWidth(special) <= |regs|
    ensures r.Ok? ==> var m := r.value.value;
      && m.supplyFlow == U32Of(regs[REG_OFF_SUPPLY_FLOW], regs[REG_OFF_SUPPLY_FLOW + 1])
      && m.extractFlow == U32Of(regs[REG_OFF_EXTRACT_FLOW], regs[REG_OFF_EXTRACT_FLOW + 1])
      && m.setpointTemperature == regs[REG_OFF_SETPOINT_TEMPERATURE] as real / 10.0
      && (m.configuration.Some? <==> special)
      && (special ==> m.configuration.value == regs[REG_OFF_CONFIGURATION])
  {
    if |regs| < SlotWidth(special) then Err(Exhausted)
    else
      var m := ModeState(U32Of(regs[0], regs[1]), U32Of(regs[2], regs[3]),
                         regs[4] as real / 10.0, if special then Some(regs[5]) else None);
      Ok(Consumed(m, regs[SlotWidth(special)..]))
  }

  /** Python's `round` on a float: to the nearest integer, ties to the even one. */
  function RoundHalfEven(x: real): (n: int)
    ensures n as real - 0.5 <= x <= n as real + 0.5
    ensures x == x.Floor as real ==> n == x.Floor
    ensures x - x.Floor as real == 0.5 ==> n % 2 == 0
  {
    var f := x.Floor;
    var d := x - f as real;
    if d < 0.5 then f
    else if d > 0.5 then f + 1
    else if f % 2 == 0 then f
    else f + 1
  }

  /** The word `set_setpoint_temperature` stores for a setpoint in degrees. */
  function SetpointWord(degrees: real): (w: int)
    ensures IsWord(w)
  {
    Mask16(RoundHalfEven(degrees * 10.0))
  }

  /** A setpoint the register can hold (a whole number of tenths from 0 to 6553.5 degrees) is
      read back exactly as written. */
  lemma {:induction false} SetpointRoundTrip(tenths: int)
    requires IsWord(tenths)
    ensures SetpointWord(tenths as real / 10.0) as real / 10.0 == tenths as real / 10.0
  {
    var x := tenths as real / 10.0 * 10.0;
    assert x == tenths as real;
    assert x.Floor == tenths;
  }

  /** Setpoints between tenths are rounded to the nearer tenth: the stored word is never more
      than half a tenth away from the requested setpoint. */
  lemma {:induction false} SetpointRounding(degrees: real)
    requires 0.0 <= degrees * 10.0 < (WORD_SPAN as real) - 0.5
    ensures -0.05 <= SetpointWord(degrees) as real / 10.0 - degrees <= 0.05
  {
    var n := RoundHalfEven(degrees * 10.0);
    assert 0 <= n < WORD_SPAN;
  }

  /** The words the setters of a slot store for `m`: the two flows with `write_u32`, the
      setpoint with `write_u16` of the rounded tenths and, for the special mode, the
      configuration word. */
  function ModeStateWords(m: ModeState, special: bool): (ws: seq<int>)
    requires special ==> m.configuration.Some?
    ensures |ws| == SlotWidth(special) && AreWords(ws)
  {
    U32Words(m.supplyFlow) + U32Words(m.extractFlow) + [SetpointWord(m.setpointTemperature)]
    + (if special then [Mask16(m.configuration.value)] else [])
  }

  /** A slot whose values fit the registers is decoded back from the words its setters store. */
  ghost predicate FitsSlot(m: ModeState, special: bool) {
    && 0 <= m.supplyFlow < U32_SPAN
    && 0 <= m.extractFlow < U32_SPAN
    && (exists t :: IsWord(t) && m.setpointTemperature == t as real / 10.0)
    && (m.configuration.Some? <==> special)
    && (special ==> IsWord(m.configuration.value))
  }

  lemma {:induction false} ModeStateRoundTrip(m: ModeState, special: bool, rest: seq<int>)
    requires FitsSlot(m, special)
    ensures ConsumeModeState(ModeStateWords(m, special) + rest, special) == Ok(Consumed(m, rest))
  {
    var t :| IsWord(t) && m.setpointTemperature == t as real / 10.0;
    SetpointRoundTrip(t);
    U32WordsSplit(m.supplyFlow);
    U32WordsSplit(m.extractFlow);
    var ws := ModeStateWords(m, special) + rest;
    var r := ConsumeModeState(ws, special);
    assert r.value.rest == ws[SlotWidth(special)..];
    assert ws[SlotWidth(special)..] == rest;
    DivModU32(m.supplyFlow);
    DivModU32(m.extractFlow);
  }

  // ---------------------------------------------------------------------------
  // The modes block
  // ---------------------------------------------------------------------------

  const REG_AHU_ON := 0
  const REG_OPERATION_MODE := 99
  const REG_FLOW_CONTROL_MODE := 126
  const REG_TEMPERATURE_CONTROL_MODE := 127
  const REG_VAV_STATUS := 128
  const REG_VAV_SENSORS_RANGE := 129
  const REG_NOMINAL_SUPPLY_PRESSURE := 130
  const REG_NOMINAL_EXHAUST_PRESSURE := 131

  /** Registers of the block read in one request by `read_all`: 99 through 131. */
  const MODES_BLOCK_REGISTERS := (REG_NOMINAL_EXHAUST_PRESSURE - REG_OPERATION_MODE) + 1

  /** First register of each mode slot; the program mode has none. */
  const OP_MODE_OFFSET: map<OperationMode, int> :=
    map[Comfort1 := 100, Comfort2 := 105, Economy1 := 110, Economy2 := 115, Special := 120]

  /** Every mode but PROGRAM has a slot. */
  lemma OpModeOffsetKeys(m: OperationMode)
    ensures m in OP_MODE_OFFSET <==> m != Program
  {
    match m
    case Comfort1 =>
    case Comfort2 =>
    case Economy1 =>
    case Economy2 =>
    case Special =>
    case Program =>
  }

  datatype ModesState = ModesState(
    ahu: bool,
    operationMode: OperationMode,
    flowControlMode: FlowControlMode,
    temperatureControlMode: TemperatureControlMode,
    vavStatus: VavStatus,
    vavSensorsRange: int,
    nominalSupplyPressure: int,
    nominalExhaustPressure: int,
    modes: map<OperationMode, ModeState>)

  /** Only the special mode's slot carries a configuration word. */
  predicate SlotsConfigured(ms: map<OperationMode, ModeState>) {
    forall m :: m in ms ==> (ms[m].configuration.Some? <==> m == Special)
  }

  /** The slots in register order, as `ModesState._consume_from_registers` reads them. */
  const SLOT_ORDER: seq<OperationMode> := [Comfort1, Comfort2, Economy1, Economy2, Special]

  /** Registers taken by the slots of `order`. */
  function SlotsWidth(order: seq<OperationMode>): nat {
    if |order| == 0 then 0 else SlotWidth(order[0] == Special) + SlotsWidth(order[1..])
  }

  /** Consecutive slots, one per mode of `order`, gathered into the `modes` dictionary. */
  function ConsumeSlots(regs: seq<int>, order: seq<OperationMode>): (r: Result<Consumed<map<OperationMode, ModeState>>>)
    ensures Advances(r, regs, SlotsWidth(order))
    ensures r.Ok? <==> SlotsWidth(order) <= |regs|
    ensures r.Ok? ==> forall m :: m in r.value.value <==> m in order
    ensures r.Ok? ==> SlotsConfigured(r.value.value)
    decreases |order|
  {
    if |order| == 0 then Ok(Consumed(map[], regs))
    else
      var first :- ConsumeModeState(regs, order[0] == Special);
      var others :- ConsumeSlots(first.rest, order[1..]);
      Ok(Consumed(others.value[order[0] := first.value], others.rest))
  }

  /** The six single-word settings after the slots, completing a `ModesState`. */
  function ConsumeControls(ahu: bool, operationMode: OperationMode, modes: map<OperationMode, ModeState>,
                           regs: seq<int>): (r: Result<Consumed<ModesState>>)
    ensures Advances(r, regs, 6)
    ensures r.Ok? <==> 6 <= |regs| && 0 <= regs[0] <= 2 && 0 <= regs[1] <= 2 && 0 <= regs[2] <= 4
    ensures r.Ok? ==> var s := r.value.value;
      && s.ahu == ahu && s.operationMode == operationMode && s.modes == modes
      && FlowControlModeWord(s.flowControlMode) == regs[0]
      && TemperatureControlModeWord(s.temperatureControlMode) == regs[1]
      && VavStatusWord(s.vavStatus) == regs[2]
      && s.vavSensorsRange == regs[3] && s.nominalSupplyPressure == regs[4] && s.nominalExhaustPressure == regs[5]
  {
    var flowWord :- ConsumeU16(regs);
    var flowControlMode :- FlowControlModeFromWord(flowWord.value);
    var temperatureWord :- ConsumeU16(flowWord.rest);
    var temperatureControlMode :- TemperatureControlModeFromWord(temperatureWord.value);
    var vavWord :- ConsumeU16(temperatureWord.rest);
    var vavStatus :- VavStatusFromWord(vavWord.value);
    var sensorsRange :- ConsumeU16(vavWord.rest);
    var supplyPressure :- ConsumeU16(sensorsRange.rest);
    var exhaustPressure :- ConsumeU16(supplyPressure.rest);
    Ok(Consumed(ModesState(ahu, operationMode, flowControlMode, temperatureControlMode, vavStatus,
                           sensorsRange.value, supplyPressure.value, exhaustPressure.value, modes),
                exhaustPressure.rest))
  }

  lemma {:induction false} SlotsWidthAppend(a: seq<OperationMode>, b: seq<OperationMode>)
    ensures SlotsWidth(a + b) == SlotsWidth(a) + SlotsWidth(b)
    decreases |a|
  {
    if |a| > 0 {
      assert (a + b)[1..] == a[1..] + b;
      SlotsWidthAppend(a[1..], b);
    } else {
      assert a + b == b;
    }
  }

  /** The five slots fill the 26 registers from 100 to 125. */
  lemma {:induction false} SlotOrderWidth()
    ensures SlotsWidth(SLOT_ORDER) == REG_FLOW_CONTROL_MODE - (REG_OPERATION_MODE + 1)
  {
    var o := SLOT_ORDER;
    assert o[4..][1..] == [];
    assert o[3..][1..] == o[4..];
    assert o[2..][1..] == o[3..];
    assert o[1..][1..] == o[2..];
    assert SlotsWidth(o[4..]) == 6;
    assert SlotsWidth(o[3..]) == 11;
    assert SlotsWidth(o[2..]) == 16;
    assert SlotsWidth(o[1..]) == 21;
  }

  /** The slots tile the registers between the operation mode and the flow-control mode:
      each starts where the one before it ends, at the offsets of `_OP_MODE_OFFSET`. */
  lemma {:induction false} SlotsTile()
    ensures SlotsWidth(SLOT_ORDER) == REG_FLOW_CONTROL_MODE - (REG_OPERATION_MODE + 1)
    ensures forall m :: m in SLOT_ORDER <==> m in OP_MODE_OFFSET
    ensures forall i :: 0 <= i < |SLOT_ORDER| ==>
              OP_MODE_OFFSET[SLOT_ORDER[i]] == REG_OPERATION_MODE + 1 + SlotsWidth(SLOT_ORDER[..i])
  {
    var o := SLOT_ORDER;
    SlotOrderWidth();
    forall k | 0 <= k < 4
      ensures SlotsWidth(o[..k + 1]) == SlotsWidth(o[..k]) + 5
    {
      assert o[..k + 1] == o[..k] + [o[k]];
      SlotsWidthAppend(o[..k], [o[k]]);
    }
  }

  /** `ModesState._consume_from_registers`: the operation mode, the five slots in order, then
      flow control, temperature control, VAV status, sensors range and the two pressures.
      Each enumeration word is checked as soon as it is consumed. */
  function ConsumeModesState(ahu: bool, regs: seq<int>): (r: Result<Consumed<ModesState>>)
    ensures Advances(r, regs, MODES_BLOCK_REGISTERS)
    ensures r.Ok? ==> r.value.value.ahu == ahu
    ensures r.Ok? ==> forall m :: m in r.value.value.modes <==> m in SLOT_ORDER
    ensures r.Ok? ==> SlotsConfigured(r.value.value.modes)
  {
    SlotsTile();
    var opWord :- ConsumeU16(regs);
    var operationMode :- OperationModeFromWord(opWord.value);
    var slots :- ConsumeSlots(opWord.rest, SLOT_ORDER);
    ConsumeControls(ahu, operationMode, slots.value, slots.rest)
  }

  /** Slot `i` of `order` is decoded from the registers after the slots before it. */
  lemma {:induction false} ConsumeSlotsLayout(regs: seq<int>, order: seq<OperationMode>)
    requires SlotsWidth(order) <= |regs|
    requires forall i, j :: 0 <= i < j < |order| ==> order[i] != order[j]
    ensures var r := ConsumeSlots(regs, order);
      r.Ok? && forall i :: 0 <= i < |order| ==>
        && SlotsWidth(order[..i]) + SlotWidth(order[i] == Special) <= |regs|
        && r.value.value[order[i]] == ConsumeModeState(regs[SlotsWidth(order[..i])..], order[i] == Special).value.value
    decreases |order|
  {
    if |order| > 0 {
      var w0 := SlotWidth(order[0] == Special);
      var first := ConsumeModeState(regs, order[0] == Special);
      assert first.Ok? && first.value.rest == regs[w0..];
      var tail := order[1..];
      ConsumeSlotsLayout(regs[w0..], tail);
      var others := ConsumeSlots(regs[w0..], tail);
      var r := ConsumeSlots(regs, order);
      assert r.value.value == others.value.value[order[0] := first.value.value];
      forall i | 0 <= i < |order|
        ensures SlotsWidth(order[..i]) + SlotWidth(order[i] == Special) <= |regs|
        ensures r.value.value[order[i]] == ConsumeModeState(regs[SlotsWidth(order[..i])..], order[i] == Special).value.value
      {
        if i == 0 {
          assert order[..0] == [];
        } else {
          ShiftedSlot(regs, order, i);
          assert order[i] != order[0];
        }
      }
    }
  }

  /** Slot `i > 0` of `order` sits, after the first slot, at slot `i - 1` of the rest. */
  lemma {:induction false} ShiftedSlot(regs: seq<int>, order: seq<OperationMode>, i: int)
    requires 0 < i < |order|
    requires SlotsWidth(order) <= |regs|
    ensures var w0 := SlotWidth(order[0] == Special);
      && order[1..][i - 1] == order[i]
      && SlotsWidth(order[..i]) == w0 + SlotsWidth(order[1..][..i - 1])
      && SlotsWidth(order[..i]) <= |regs|
      && regs[w0..][SlotsWidth(order[1..][..i - 1])..] == regs[SlotsWidth(order[..i])..]
  {
    assert order[..i][1..] == order[1..][..i - 1];
    assert order == order[..i] + order[i..];
    SlotsWidthAppend(order[..i], order[i..]);
  }

  /** Where each field of a `ModesState` comes from in the block read from register 99: the
      decode fails exactly when one of the four enumeration words is out of range, and every
      scalar field is the word at its register's offset from 99. */
  lemma {:induction false} ModesBlockLayout(ahu: bool, regs: seq<int>)
    requires MODES_BLOCK_REGISTERS <= |regs|
    ensures var r := ConsumeModesState(ahu, regs);
      && (r.Ok? <==>
            && 1 <= regs[0] <= 6
            && 0 <= regs[REG_FLOW_CONTROL_MODE - REG_OPERATION_MODE] <= 2
            && 0 <= regs[REG_TEMPERATURE_CONTROL_MODE - REG_OPERATION_MODE] <= 2
            && 0 <= regs[REG_VAV_STATUS - REG_OPERATION_MODE] <= 4)
      && (r.Ok? ==> var s := r.value.value;
            && FlowControlModeWord(s.flowControlMode) == regs[REG_FLOW_CONTROL_MODE - REG_OPERATION_MODE]
            && TemperatureControlModeWord(s.temperatureControlMode)
                 == regs[REG_TEMPERATURE_CONTROL_MODE - REG_OPERATION_MODE]
            && VavStatusWord(s.vavStatus) == regs[REG_VAV_STATUS - REG_OPERATION_MODE]
            && s.vavSensorsRange == regs[REG_VAV_SENSORS_RANGE - REG_OPERATION_MODE]
            && s.nominalSupplyPressure == regs[REG_NOMINAL_SUPPLY_PRESSURE - REG_OPERATION_MODE]
            && s.nominalExhaustPressure == regs[REG_NOMINAL_EXHAUST_PRESSURE - REG_OPERATION_MODE])
  {
    ModesStateUnfold(ahu, regs);
    if 1 <= regs[0] <= 6 {
      var slots := ConsumeSlots(regs[1..], SLOT_ORDER).value.value;
      ControlsAt(ahu, OperationModeFromWord(regs[0]).value, slots, regs, REG_FLOW_CONTROL_MODE - REG_OPERATION_MODE);
    }
  }

  /** The control words read from offset `k` of `regs`. */
  lemma {:induction false} ControlsAt(ahu: bool, operationMode: OperationMode, modes: map<OperationMode, ModeState>,
                                      regs: seq<int>, k: nat)
    requires k + 6 <= |regs|
    ensures var r := ConsumeControls(ahu, operationMode, modes, regs[k..]);
      && (r.Ok? <==> 0 <= regs[k] <= 2 && 0 <= regs[k + 1] <= 2 && 0 <= regs[k + 2] <= 4)
      && (r.Ok? ==> var s := r.value.value;
            && FlowControlModeWord(s.flowControlMode) == regs[k]
            && TemperatureControlModeWord(s.temperatureControlMode) == regs[k + 1]
            && VavStatusWord(s.vavStatus) == regs[k + 2]
            && s.vavSensorsRange == regs[k + 3]
            && s.nominalSupplyPressure == regs[k + 4]
            && s.nominalExhaustPressure == regs[k + 5])
  {
    var tail := regs[k..];
    assert tail[0] == regs[k] && tail[1] == regs[k + 1] && tail[2] == regs[k + 2];
    assert tail[3] == regs[k + 3] && tail[4] == regs[k + 4] && tail[5] == regs[k + 5];
  }

  /** The operation mode is the word at 99 and the slots are decoded from the 26 registers
      that follow it. */
  lemma {:induction false} ModesBlockSlots(ahu: bool, regs: seq<int>)
    requires MODES_BLOCK_REGISTERS <= |regs|
    requires ConsumeModesState(ahu, regs).Ok?
    ensures var s := ConsumeModesState(ahu, regs).value.value;
      && OperationModeWord(s.operationMode) == regs[0]
      && s.modes == ConsumeSlots(regs[1..], SLOT_ORDER).value.value
  {
    ModesStateUnfold(ahu, regs);
  }

  /** The block decode is the operation-mode word, then the slots, then the control words
      from 126 on. */
  lemma {:induction false} ModesStateUnfold(ahu: bool, regs: seq<int>)
    requires MODES_BLOCK_REGISTERS <= |regs|
    ensures ConsumeSlots(regs[1..], SLOT_ORDER).Ok?
    ensures ConsumeModesState(ahu, regs) ==
      if 1 <= regs[0] <= 6
      then ConsumeControls(ahu, OperationModeFromWord(regs[0]).value, ConsumeSlots(regs[1..], SLOT_ORDER).value.value,
                           regs[REG_FLOW_CONTROL_MODE - REG_OPERATION_MODE..])
      else Err(InvalidValue("OperationMode", regs[0]))
  {
    SlotOrderWidth();
    var slots := ConsumeSlots(regs[1..], SLOT_ORDER);
    assert slots.Ok? && slots.value.rest == regs[REG_FLOW_CONTROL_MODE - REG_OPERATION_MODE..];
  }


  /** Each mode's slot is decoded from the registers at that mode's offset `_OP_MODE_OFFSET[mode]`,
      counted here from register 100, where the slots begin. */
  lemma {:induction false} SlotsAtOffsets(regs: seq<int>, m: OperationMode)
    requires SlotsWidth(SLOT_ORDER) <= |regs|
    requires m in OP_MODE_OFFSET
    ensures var start := OP_MODE_OFFSET[m] - (REG_OPERATION_MODE + 1);
      var slots := ConsumeSlots(regs, SLOT_ORDER);
      && 0 <= start && start + SlotWidth(m == Special) <= |regs|
      && slots.Ok? && m in slots.value.value
      && slots.value.value[m] == ConsumeModeState(regs[start..], m == Special).value.value
  {
    OpModeOffsetKeys(m);
    var i := match m
      case Comfort1 => 0
      case Comfort2 => 1
      case Economy1 => 2
      case Economy2 => 3
      case _ => 4;
    SlotStart(i);
    ConsumeSlotAt(regs, SLOT_ORDER, i);
  }

  /** Slot `i` of the slot order begins at its mode's offset. */
  lemma {:induction false} SlotStart(i: int)
    requires 0 <= i < |SLOT_ORDER|
    ensures SLOT_ORDER[i] in OP_MODE_OFFSET
    ensures OP_MODE_OFFSET[SLOT_ORDER[i]] == REG_OPERATION_MODE + 1 + SlotsWidth(SLOT_ORDER[..i])
  {
    SlotsTile();
  }

  /** `ConsumeSlotsLayout` at one index. */
  lemma {:induction false} ConsumeSlotAt(regs: seq<int>, order: seq<OperationMode>, i: int)
    requires SlotsWidth(order) <= |regs|
    requires order == SLOT_ORDER
    requires 0 <= i < |order|
    ensures var r := ConsumeSlots(regs, order);
      && r.Ok?
      && SlotsWidth(order[..i]) + SlotWidth(order[i] == Special) <= |regs|
      && r.value.value[order[i]] == ConsumeModeState(regs[SlotsWidth(order[..i])..], order[i] == Special).value.value
  {
    assert forall i, j :: 0 <= i < j < |order| ==> order[i] != order[j];
    ConsumeSlotsLayout(regs, order);
  }

  /** `ModesState.active_mode`: the slot of the current operation mode; a KeyError when that
      mode has no slot. */
  function ActiveMode(s: ModesState): (r: Result<ModeState>)
    ensures r.Ok? <==> s.operationMode in s.modes
    ensures r.Ok? ==> r.value == s.modes[s.operationMode]
    ensures r.Err? ==> r.error == NoSuchKey
  {
    if s.operationMode in s.modes then Ok(s.modes[s.operationMode]) else Err(NoSuchKey)
  }

  /** For a decoded state, the active mode exists exactly when the unit is not in the program
      mode, and it carries configuration flags exactly when the unit is in the special mode. */
  lemma {:induction false} ActiveModeOfDecoded(ahu: bool, regs: seq<int>)
    requires ConsumeModesState(ahu, regs).Ok?
    ensures var s := ConsumeModesState(ahu, regs).value.value;
      && (ActiveMode(s).Ok? <==> s.operationMode != Program)
      && (ActiveMode(s).Ok? ==> (ActiveMode(s).value.configuration.Some? <==> s.operationMode == Special))
  {
    var s := ConsumeModesState(ahu, regs).value.value;
    ActiveModeOfSlots(s);
  }

  lemma {:induction false} ActiveModeOfSlots(s: ModesState)
    requires forall m :: m in s.modes <==> m in SLOT_ORDER
    requires SlotsConfigured(s.modes)
    ensures ActiveMode(s).Ok? <==> s.operationMode != Program
    ensures ActiveMode(s).Ok? ==> (ActiveMode(s).value.configuration.Some? <==> s.operationMode == Special)
  {
    OpModeOffsetKeys(s.operationMode);
  }

  // ---------------------------------------------------------------------------
  // The nominal exhaust pressure register
  // ---------------------------------------------------------------------------

  /** As written, `set_nominal_exhaust_pressure` stores `value & 0xFFFF` in register 129,
      the VAV sensors range: in the next block read the word shows up as the sensors range
      and the nominal exhaust pressure keeps its old word. The register map is the one
      `Modes.SetNominalExhaustPressureAsWritten` leaves behind. */
  lemma {:induction false} ExhaustPressureWriteMisplaced(ahu: bool, holding: map<int, int>, value: int)
    requires Holds(holding, REG_OPERATION_MODE, MODES_BLOCK_REGISTERS)
    requires ConsumeModesState(ahu, Window(holding, REG_OPERATION_MODE, MODES_BLOCK_REGISTERS)).Ok?
    ensures var written := holding[REG_VAV_SENSORS_RANGE := Mask16(value)];
      && Holds(written, REG_OPERATION_MODE, MODES_BLOCK_REGISTERS)
      && var before := ConsumeModesState(ahu, Window(holding, REG_OPERATION_MODE, MODES_BLOCK_REGISTERS)).value.value;
         var after := ConsumeModesState(ahu, Window(written, REG_OPERATION_MODE, MODES_BLOCK_REGISTERS));
         && after.Ok?
         && after.value.value.vavSensorsRange == Mask16(value)
         && after.value.value.nominalExhaustPressure == before.nominalExhaustPressure
  {
    var k := REG_VAV_SENSORS_RANGE - REG_OPERATION_MODE;
    WindowAfterWrite(holding, REG_OPERATION_MODE, MODES_BLOCK_REGISTERS, k, Mask16(value));
    var regs := Window(holding, REG_OPERATION_MODE, MODES_BLOCK_REGISTERS);
    ModesBlockLayout(ahu, regs);
    ModesBlockLayout(ahu, regs[k := Mask16(value)]);
  }

  /** Stored as `value & 0xFFFF` in register 131, where the register map places it, the
      word reads back as the nominal exhaust pressure and the sensors range is untouched.
      The register map is the one `Modes.SetNominalExhaustPressure` leaves behind. */
  lemma {:induction false} ExhaustPressureWriteRoundTrip(ahu: bool, holding: map<int, int>, value: int)
    requires Holds(holding, REG_OPERATION_MODE, MODES_BLOCK_REGISTERS)
    requires ConsumeModesState(ahu, Window(holding, REG_OPERATION_MODE, MODES_BLOCK_REGISTERS)).Ok?
    ensures var written := holding[REG_NOMINAL_EXHAUST_PRESSURE := Mask16(value)];
      && Holds(written, REG_OPERATION_MODE, MODES_BLOCK_REGISTERS)
      && var before := ConsumeModesState(ahu, Window(holding, REG_OPERATION_MODE, MODES_BLOCK_REGISTERS)).value.value;
         var after := ConsumeModesState(ahu, Window(written, REG_OPERATION_MODE, MODES_BLOCK_REGISTERS));
         && after.Ok?
         && after.value.value.nominalExhaustPressure == Mask16(value)
         && after.value.value.vavSensorsRange == before.vavSensorsRange
  {
    var k := REG_NOMINAL_EXHAUST_PRESSURE - REG_OPERATION_MODE;
    WindowAfterWrite(holding, REG_OPERATION_MODE, MODES_BLOCK_REGISTERS, k, Mask16(value));
    var regs := Window(holding, REG_OPERATION_MODE, MODES_BLOCK_REGISTERS);
    ModesBlockLayout(ahu, regs);
    ModesBlockLayout(ahu, regs[k := Mask16(value)]);
  }

  // ---------------------------------------------------------------------------
  // Register access
  // ---------------------------------------------------------------------------

  /** `Mode` and its subclass `SpecialMode`: the registers of one slot, starting at `regStart`.
      `special` marks a `SpecialMode`, whose slot has the trailing configuration word. */
  class Mode {
    const client: Client
    const regStart: int
    const special: bool

    constructor (client: Client, regStart: int, special: bool)
      ensures this.client == client && this.regStart == regStart && this.special == special
    {
      this.client := client;
      this.regStart := regStart;
      this.special := special;
    }

    /** `read_all`: the whole slot in one request of 5 (or 6) registers. */
    method ReadAll() returns (r: Result<ModeState>)
      modifies client`requests
      ensures client.requests == old(client.requests)
                                 + [Request.ReadHoldingRegisters(regStart + REG_OFF_SUPPLY_FLOW, SlotWidth(special))]
      ensures r.Ok? <==> Holds(client.holding, regStart, SlotWidth(special))
      ensures r.Err? ==> r.error == ErrorResponse
      ensures r.Ok? ==> ConsumeModeState(Window(client.holding, regStart, SlotWidth(special)), special)
                        == Ok(Consumed(r.value, []))
    {
      var rr := client.ReadManyU16(regStart + REG_OFF_SUPPLY_FLOW, SlotWidth(special));
      if rr.Err? {
        return Err(rr.error);
      }
      var c := ConsumeModeState(rr.value, special);
      assert c.value.rest == [];
      r := Ok(c.value.value);
    }

    /** `supply_flow`: the u32 at the slot's first two registers. */
    method ReadSupplyFlow() returns (r: Result<int>)
      requires client.Valid()
      modifies client`requests
      ensures client.requests == old(client.requests) + [Request.ReadHoldingRegisters(regStart + REG_OFF_SUPPLY_FLOW, 2)]
      ensures r.Ok? <==> regStart + REG_OFF_SUPPLY_FLOW in client.holding && regStart + REG_OFF_SUPPLY_FLOW + 1 in client.holding
      ensures r.Ok? ==> r.value == client.holding[regStart + REG_OFF_SUPPLY_FLOW] * WORD_SPAN
                                   + client.holding[regStart + REG_OFF_SUPPLY_FLOW + 1]
    {
      r := client.ReadU32(regStart + REG_OFF_SUPPLY_FLOW);
    }

    /** `set_supply_flow`: the two words of the u32; nothing outside them changes. */
    method SetSupplyFlow(value: int) returns (r: Result<()>)
      requires client.Valid()
      modifies client`holding, client`requests
      ensures client.Valid()
      ensures client.requests == old(client.requests) + [WriteMultipleRegisters(regStart + REG_OFF_SUPPLY_FLOW, U32Words(value))]
      ensures r.Ok? <==> regStart + REG_OFF_SUPPLY_FLOW in old(client.holding)
                         && regStart + REG_OFF_SUPPLY_FLOW + 1 in old(client.holding)
      ensures client.holding == if r.Ok?
        then old(client.holding)[regStart + REG_OFF_SUPPLY_FLOW := U32Words(value)[0]]
                                [regStart + REG_OFF_SUPPLY_FLOW + 1 := U32Words(value)[1]]
        else old(client.holding)
    {
      r := client.WriteU32(regStart + REG_OFF_SUPPLY_FLOW, value);
    }

    /** `extract_flow`: the u32 at the slot's third and fourth registers. */
    method ReadExtractFlow() returns (r: Result<int>)
      requires client.Valid()
      modifies client`requests
      ensures client.requests == old(client.requests) + [Request.ReadHoldingRegisters(regStart + REG_OFF_EXTRACT_FLOW, 2)]
      ensures r.Ok? <==> regStart + REG_OFF_EXTRACT_FLOW in client.holding && regStart + REG_OFF_EXTRACT_FLOW + 1 in client.holding
      ensures r.Ok? ==> r.value == client.holding[regStart + REG_OFF_EXTRACT_FLOW] * WORD_SPAN
                                   + client.holding[regStart + REG_OFF_EXTRACT_FLOW + 1]
    {
      r := client.ReadU32(regStart + REG_OFF_EXTRACT_FLOW);
    }

    /** `set_extract_flow`: the two words of the u32; nothing outside them changes. */
    method SetExtractFlow(value: int) returns (r: Result<()>)
      requires client.Valid()
      modifies client`holding, client`requests
      ensures client.Valid()
      ensures client.requests == old(client.requests) + [WriteMultipleRegisters(regStart + REG_OFF_EXTRACT_FLOW, U32Words(value))]
      ensures r.Ok? <==> regStart + REG_OFF_EXTRACT_FLOW in old(client.holding)
                         && regStart + REG_OFF_EXTRACT_FLOW + 1 in old(client.holding)
      ensures client.holding == if r.Ok?
        then old(client.holding)[regStart + REG_OFF_EXTRACT_FLOW := U32Words(value)[0]]
                                [regStart + REG_OFF_EXTRACT_FLOW + 1 := U32Words(value)[1]]
        else old(client.holding)
    {
      r := client.WriteU32(regStart + REG_OFF_EXTRACT_FLOW, value);
    }

    /** `setpoint_temperature`: the word of tenths at offset 4, in degrees. */
    method ReadSetpointTemperature() returns (r: Result<real>)
      modifies client`requests
      ensures client.requests == old(client.requests)
                                 + [Request.ReadHoldingRegisters(regStart + REG_OFF_SETPOINT_TEMPERATURE, 1)]
      ensures r.Ok? <==> regStart + REG_OFF_SETPOINT_TEMPERATURE in client.holding
      ensures r.Ok? ==> r.value == client.holding[regStart + REG_OFF_SETPOINT_TEMPERATURE] as real / 10.0
    {
      var w := client.ReadU16(regStart + REG_OFF_SETPOINT_TEMPERATURE);
      if w.Err? {
        return Err(w.error);
      }
      r := Ok(w.value as real / 10.0);
    }

    /** `set_setpoint_temperature`: the setpoint rounded to tenths, as one word. */
    method SetSetpointTemperature(value: real) returns (r: Result<()>)
      requires client.Valid()
      modifies client`holding, client`requests
      ensures client.Valid()
      ensures client.requests == old(client.requests)
                                 + [WriteSingleRegister(regStart + REG_OFF_SETPOINT_TEMPERATURE, SetpointWord(value))]
      ensures r.Ok? <==> regStart + REG_OFF_SETPOINT_TEMPERATURE in old(client.holding)
      ensures client.holding == if r.Ok?
        then old(client.holding)[regStart + REG_OFF_SETPOINT_TEMPERATURE := SetpointWord(value)]
        else old(client.holding)
    {
      r := client.WriteU16(regStart + REG_OFF_SETPOINT_TEMPERATURE, RoundHalfEven(value * 10.0));
    }

    /** `SpecialMode.configuration`: the configuration word at offset 5. */
    method ReadConfiguration() returns (r: Result<int>)
      requires special
      modifies client`requests
      ensures client.requests == old(client.requests) + [Request.ReadHoldingRegisters(regStart + REG_OFF_CONFIGURATION, 1)]
      ensures r.Ok? <==> regStart + REG_OFF_CONFIGURATION in client.holding
      ensures r.Ok? ==> r.value == client.holding[regStart + REG_OFF_CONFIGURATION]
    {
      r := client.ReadU16(regStart + REG_OFF_CONFIGURATION);
    }

    /** `SpecialMode.set_configuration`: the flags' integer value as one word. */
    method SetConfiguration(flags: int) returns (r: Result<()>)
      requires special && client.Valid()
      modifies client`holding, client`requests
      ensures client.Valid()
      ensures client.requests == old(client.requests) + [WriteSingleRegister(regStart + REG_OFF_CONFIGURATION, Mask16(flags))]
      ensures r.Ok? <==> regStart + REG_OFF_CONFIGURATION in old(client.holding)
      ensures client.holding == if r.Ok?
        then old(client.holding)[regStart + REG_OFF_CONFIGURATION := Mask16(flags)]
        else old(client.holding)
    {
      r := client.WriteU16(regStart + REG_OFF_CONFIGURATION, flags);
    }
  }

  /** `Modes`: the AHU switch, the operation mode, the slots and the control settings. */
  class Modes {
    const client: Client

    constructor (client: Client)
      ensures this.client == client
    {
      this.client := client;
    }

    /** `read_all`: the AHU word and the 33-register block from 99, each in one request, then
        the block decoded. */
    method ReadAll() returns (r: Result<ModesState>)
      requires client.Valid()
      modifies client`requests
      ensures var h := client.holding;
        var ahuRead := Request.ReadHoldingRegisters(REG_AHU_ON, 1);
        var blockRead := Request.ReadHoldingRegisters(REG_OPERATION_MODE, MODES_BLOCK_REGISTERS);
        && (REG_AHU_ON !in h ==> r == Err(ErrorResponse) && client.requests == old(client.requests) + [ahuRead])
        && (REG_AHU_ON in h ==>
              && client.requests == old(client.requests) + [ahuRead, blockRead]
              && (r.Ok? <==> Holds(h, REG_OPERATION_MODE, MODES_BLOCK_REGISTERS)
                             && ConsumeModesState(h[REG_AHU_ON] != 0, Window(h, REG_OPERATION_MODE, MODES_BLOCK_REGISTERS)).Ok?)
              && (r.Ok? ==> ConsumeModesState(h[REG_AHU_ON] != 0, Window(h, REG_OPERATION_MODE, MODES_BLOCK_REGISTERS))
                            == Ok(Consumed(r.value, []))))
    {
      var ahu := ReadAhuOn();
      if ahu.Err? {
        return Err(ahu.error);
      }
      var rr := client.ReadManyU16(REG_OPERATION_MODE, MODES_BLOCK_REGISTERS);
      if rr.Err? {
        return Err(rr.error);
      }
      var c := ConsumeModesState(ahu.value, rr.value);
      if c.Err? {
        return Err(c.error);
      }
      assert c.value.rest == rr.value[MODES_BLOCK_REGISTERS..] == [];
      r := Ok(c.value.value);
    }

    /** `ahu_on`: register 0 is non-zero. */
    method ReadAhuOn() returns (r: Result<bool>)
      modifies client`requests
      ensures client.requests == old(client.requests) + [Request.ReadHoldingRegisters(REG_AHU_ON, 1)]
      ensures r.Ok? <==> REG_AHU_ON in client.holding
      ensures r.Err? ==> r.error == ErrorResponse
      ensures r.Ok? ==> (r.value <==> client.holding[REG_AHU_ON] != 0)
    {
      var w := client.ReadU16(REG_AHU_ON);
      if w.Err? {
        return Err(w.error);
      }
      r := Ok(w.value != 0);
    }

    /** `set_ahu_on`: 1 or 0 in register 0. */
    method SetAhuOn(on: bool) returns (r: Result<()>)
      requires client.Valid()
      modifies client`holding, client`requests
      ensures client.Valid()
      ensures client.requests == old(client.requests) + [WriteSingleRegister(REG_AHU_ON, if on then 1 else 0)]
      ensures r.Ok? <==> REG_AHU_ON in old(client.holding)
      ensures client.holding == if r.Ok? then old(client.holding)[REG_AHU_ON := if on then 1 else 0] else old(client.holding)
    {
      r := client.WriteU16(REG_AHU_ON, if on then 1 else 0);
    }

    /** `operation_mode`: register 99 as an `OperationMode`; a ValueError outside 1..6. */
    method ReadOperationMode() returns (r: Result<OperationMode>)
      modifies client`requests
      ensures client.requests == old(client.requests) + [Request.ReadHoldingRegisters(REG_OPERATION_MODE, 1)]
      ensures REG_OPERATION_MODE !in client.holding ==> r == Err(ErrorResponse)
      ensures REG_OPERATION_MODE in client.holding ==> r == OperationModeFromWord(client.holding[REG_OPERATION_MODE])
    {
      var w := client.ReadU16(REG_OPERATION_MODE);
      if w.Err? {
        return Err(w.error);
      }
      r := OperationModeFromWord(w.value);
    }

    /** `set_operation_mode`: the mode's word in register 99. */
    method SetOperationMode(mode: OperationMode) returns (r: Result<()>)
      requires client.Valid()
      modifies client`holding, client`requests
      ensures client.Valid()
      ensures client.requests == old(client.requests) + [WriteSingleRegister(REG_OPERATION_MODE, OperationModeWord(mode))]
      ensures r.Ok? <==> REG_OPERATION_MODE in old(client.holding)
      ensures client.holding == if r.Ok? then old(client.holding)[REG_OPERATION_MODE := OperationModeWord(mode)]
                                else old(client.holding)
    {
      r := client.WriteU16(REG_OPERATION_MODE, OperationModeWord(mode));
    }

    /** `mode_registers`: the registers of a mode's slot; a KeyError for the program mode,
        and a `SpecialMode` for the special mode. Nothing is sent to the device. */
    method ModeRegisters(mode: OperationMode) returns (r: Result<Mode>)
      ensures r.Ok? <==> mode != Program
      ensures r.Err? ==> r.error == NoSuchKey
      ensures r.Ok? ==> && fresh(r.value) && r.value.client == client
                        && r.value.regStart == OP_MODE_OFFSET[mode] && (r.value.special <==> mode == Special)
    {
      if mode !in OP_MODE_OFFSET {
        return Err(NoSuchKey);
      }
      var m := new Mode(client, OP_MODE_OFFSET[mode], mode == Special);
      r := Ok(m);
    }

    /** `flow_control_mode`: register 126 as a `FlowControlMode`. */
    method ReadFlowControlMode() returns (r: Result<FlowControlMode>)
      modifies client`requests
      ensures client.requests == old(client.requests) + [Request.ReadHoldingRegisters(REG_FLOW_CONTROL_MODE, 1)]
      ensures REG_FLOW_CONTROL_MODE !in client.holding ==> r == Err(ErrorResponse)
      ensures REG_FLOW_CONTROL_MODE in client.holding ==> r == FlowControlModeFromWord(client.holding[REG_FLOW_CONTROL_MODE])
    {
      var w := client.ReadU16(REG_FLOW_CONTROL_MODE);
      if w.Err? {
        return Err(w.error);
      }
      r := FlowControlModeFromWord(w.value);
    }

    /** `set_flow_control_mode`: the mode's word in register 126. */
    method SetFlowControlMode(mode: FlowControlMode) returns (r: Result<()>)
      requires client.Valid()
      modifies client`holding, client`requests
      ensures client.Valid()
      ensures client.requests == old(client.requests) + [WriteSingleRegister(REG_FLOW_CONTROL_MODE, FlowControlModeWord(mode))]
      ensures r.Ok? <==> REG_FLOW_CONTROL_MODE in old(client.holding)
      ensures client.holding == if r.Ok? then old(client.holding)[REG_FLOW_CONTROL_MODE := FlowControlModeWord(mode)]
                                else old(client.holding)
    {
      r := client.WriteU16(REG_FLOW_CONTROL_MODE, FlowControlModeWord(mode));
    }

    /** `temperature_control_mode`: register 127 as a `TemperatureControlMode`. */
    method ReadTemperatureControlMode() returns (r: Result<TemperatureControlMode>)
      modifies client`requests
      ensures client.requests == old(client.requests) + [Request.ReadHoldingRegisters(REG_TEMPERATURE_CONTROL_MODE, 1)]
      ensures REG_TEMPERATURE_CONTROL_MODE !in client.holding ==> r == Err(ErrorResponse)
      ensures REG_TEMPERATURE_CONTROL_MODE in client.holding ==>
                r == TemperatureControlModeFromWord(client.holding[REG_TEMPERATURE_CONTROL_MODE])
    {
      var w := client.ReadU16(REG_TEMPERATURE_CONTROL_MODE);
      if w.Err? {
        return Err(w.error);
      }
      r := TemperatureControlModeFromWord(w.value);
    }

    /** `set_temperature_control_mode`: the mode's word in register 127. */
    method SetTemperatureControlMode(mode: TemperatureControlMode) returns (r: Result<()>)
      requires client.Valid()
      modifies client`holding, client`requests
      ensures client.Valid()
      ensures client.requests == old(client.requests)
                                 + [WriteSingleRegister(REG_TEMPERATURE_CONTROL_MODE, TemperatureControlModeWord(mode))]
      ensures r.Ok? <==> REG_TEMPERATURE_CONTROL_MODE in old(client.holding)
      ensures client.holding == if r.Ok?
        then old(client.holding)[REG_TEMPERATURE_CONTROL_MODE := TemperatureControlModeWord(mode)]
        else old(client.holding)
    {
      r := client.WriteU16(REG_TEMPERATURE_CONTROL_MODE, TemperatureControlModeWord(mode));
    }

    /** `vav_status`: register 128 as a `VavStatus`. */
    method ReadVavStatus() returns (r: Result<VavStatus>)
      modifies client`requests
      ensures client.requests == old(client.requests) + [Request.ReadHoldingRegisters(REG_VAV_STATUS, 1)]
      ensures REG_VAV_STATUS !in client.holding ==> r == Err(ErrorResponse)
      ensures REG_VAV_STATUS in client.holding ==> r == VavStatusFromWord(client.holding[REG_VAV_STATUS])
    {
      var w := client.ReadU16(REG_VAV_STATUS);
      if w.Err? {
        return Err(w.error);
      }
      r := VavStatusFromWord(w.value);
    }

    /** `start_vav_calibration`: the trigger word 0x99C5 written to the VAV status register. */
    method StartVavCalibration() returns (r: Result<()>)
      requires client.Valid()
      modifies client`holding, client`requests
      ensures client.Valid()
      ensures client.requests == old(client.requests) + [WriteSingleRegister(REG_VAV_STATUS, ACTION_TRIGGER)]
      ensures r.Ok? <==> REG_VAV_STATUS in old(client.holding)
      ensures client.holding == if r.Ok? then old(client.holding)[REG_VAV_STATUS := ACTION_TRIGGER] else old(client.holding)
    {
      r := client.WriteU16(REG_VAV_STATUS, ACTION_TRIGGER);
    }

    /** `vav_sensors_range`: register 129. */
    method ReadVavSensorsRange() returns (r: Result<int>)
      modifies client`requests
      ensures client.requests == old(client.requests) + [Request.ReadHoldingRegisters(REG_VAV_SENSORS_RANGE, 1)]
      ensures r.Ok? <==> REG_VAV_SENSORS_RANGE in client.holding
      ensures r.Ok? ==> r.value == client.holding[REG_VAV_SENSORS_RANGE]
    {
      r := client.ReadU16(REG_VAV_SENSORS_RANGE);
    }

    /** `set_vav_sensors_range`: the value's low 16 bits in register 129. */
    method SetVavSensorsRange(value: int) returns (r: Result<()>)
      requires client.Valid()
      modifies client`holding, client`requests
      ensures client.Valid()
      ensures client.requests == old(client.requests) + [WriteSingleRegister(REG_VAV_SENSORS_RANGE, Mask16(value))]
      ensures r.Ok? <==> REG_VAV_SENSORS_RANGE in old(client.holding)
      ensures client.holding == if r.Ok? then old(client.holding)[REG_VAV_SENSORS_RANGE := Mask16(value)]
                                else old(client.holding)
    {
      r := client.WriteU16(REG_VAV_SENSORS_RANGE, value);
    }

    /** `nominal_supply_pressure`: register 130. */
    method ReadNominalSupplyPressure() returns (r: Result<int>)
      modifies client`requests
      ensures client.requests == old(client.requests) + [Request.ReadHoldingRegisters(REG_NOMINAL_SUPPLY_PRESSURE, 1)]
      ensures r.Ok? <==> REG_NOMINAL_SUPPLY_PRESSURE in client.holding
      ensures r.Ok? ==> r.value == client.holding[REG_NOMINAL_SUPPLY_PRESSURE]
    {
      r := client.ReadU16(REG_NOMINAL_SUPPLY_PRESSURE);
    }

    /** `set_nominal_supply_pressure`: the value's low 16 bits in register 130. */
    method SetNominalSupplyPressure(value: int) returns (r: Result<()>)
      requires client.Valid()
      modifies client`holding, client`requests
      ensures client.Valid()
      ensures client.requests == old(client.requests) + [WriteSingleRegister(REG_NOMINAL_SUPPLY_PRESSURE, Mask16(value))]
      ensures r.Ok? <==> REG_NOMINAL_SUPPLY_PRESSURE in old(client.holding)
      ensures client.holding == if r.Ok? then old(client.holding)[REG_NOMINAL_SUPPLY_PRESSURE := Mask16(value)]
                                else old(client.holding)
    {
      r := client.WriteU16(REG_NOMINAL_SUPPLY_PRESSURE, value);
    }

    /** `nominal_exhaust_pressure` as written: it reads register 129, the sensors range. */
    method ReadNominalExhaustPressureAsWritten() returns (r: Result<int>)
      modifies client`requests
      ensures client.requests == old(client.requests) + [Request.ReadHoldingRegisters(REG_VAV_SENSORS_RANGE, 1)]
      ensures r.Ok? <==> REG_VAV_SENSORS_RANGE in client.holding
      ensures r.Ok? ==> r.value == client.holding[REG_VAV_SENSORS_RANGE]
    {
      r := client.ReadU16(REG_VAV_SENSORS_RANGE);
    }

    /** `set_nominal_exhaust_pressure` as written: it overwrites register 129, the sensors
        range, and leaves register 131 as it was. */
    method SetNominalExhaustPressureAsWritten(value: int) returns (r: Result<()>)
      requires client.Valid()
      modifies client`holding, client`requests
      ensures client.Valid()
      ensures client.requests == old(client.requests) + [WriteSingleRegister(REG_VAV_SENSORS_RANGE, Mask16(value))]
      ensures r.Ok? <==> REG_VAV_SENSORS_RANGE in old(client.holding)
      ensures client.holding == if r.Ok? then old(client.holding)[REG_VAV_SENSORS_RANGE := Mask16(value)]
                                else old(client.holding)
    {
      r := client.WriteU16(REG_VAV_SENSORS_RANGE, value);
    }

    /** The nominal exhaust pressure getter at its own register, 131. */
    method ReadNominalExhaustPressure() returns (r: Result<int>)
      modifies client`requests
      ensures client.requests == old(client.requests) + [Request.ReadHoldingRegisters(REG_NOMINAL_EXHAUST_PRESSURE, 1)]
      ensures r.Ok? <==> REG_NOMINAL_EXHAUST_PRESSURE in client.holding
      ensures r.Ok? ==> r.value == client.holding[REG_NOMINAL_EXHAUST_PRESSURE]
    {
      r := client.ReadU16(REG_NOMINAL_EXHAUST_PRESSURE);
    }

    /** The nominal exhaust pressure setter at its own register, 131: the value's low 16 bits
        are what the getter then reads, and the sensors range is untouched. */
    method SetNominalExhaustPressure(value: int) returns (r: Result<()>)
      requires client.Valid()
      modifies client`holding, client`requests
      ensures client.Valid()
      ensures client.requests == old(client.requests) + [WriteSingleRegister(REG_NOMINAL_EXHAUST_PRESSURE, Mask16(value))]
      ensures r.Ok? <==> REG_NOMINAL_EXHAUST_PRESSURE in old(client.holding)
      ensures client.holding == if r.Ok? then old(client.holding)[REG_NOMINAL_EXHAUST_PRESSURE := Mask16(value)]
                                else old(client.holding)
    {
      r := client.WriteU16(REG_NOMINAL_EXHAUST_PRESSURE, value);
    }
  }
}
