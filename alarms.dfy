/** Active alarms and the alarm history: decoding their register lists and reading them
    from the device behind a count register. */
module Alarms {
  import opened Results
  import opened Client
  import opened AlarmsDb

  const MAX_ACTIVE_ALERTS := 10
  const MAX_HISTORY_ALERTS := 50

  const REG_ACTIVE_ALARMS_COUNT := 999
  const REG_ACTIVE_ALARM1_CODE := 1000
  const REG_HISTORY_COUNT := 1099
  const REG_ALARM1_YEAR := 1100

  /** Words per alarm history entry (`AlarmHistoryEntry.NUM_REGISTERS`). */
  const HISTORY_ENTRY_REGISTERS := 5

  datatype Alarm = Alarm(code: int, message: string)

  /** `Alarm.lookup`: keeps the raw code and attaches its message. */
  function Lookup(code: int): (a: Alarm)
    ensures a.code == code
    ensures a.message == MessageForCode(code)
  {
    Alarm(code, MessageForCode(code))
  }

  /** `Alarm.code_str`. */
  function CodeStr(a: Alarm): (s: string)
    ensures CodeFromCodeStr(s) == Some(a.code % 0x100)
  {
    CodeStrRoundTrip(a.code);
    CodeStrFromCode(a.code)
  }

  /** The alarms of a list of codes, in the same order. */
  function LookupAll(codes: seq<int>): (alarms: seq<Alarm>)
    ensures |alarms| == |codes|
    ensures forall i :: 0 <= i < |codes| ==> alarms[i].code == codes[i] && alarms[i] == Lookup(codes[i])
  {
    if codes == [] then [] else [Lookup(codes[0])] + LookupAll(codes[1..])
  }

  /** `Alarm.consume_list_from_registers`: `count` alarm codes, one word each, in register order. */
  method ConsumeAlarmList(count: nat, regs: seq<int>) returns (r: Result<Consumed<seq<Alarm>>>)
    ensures r.Ok? <==> count <= |regs|
    ensures r.Ok? ==> r.value == Consumed(LookupAll(regs[..count]), regs[count..])
    ensures r.Err? ==> r.error == Exhausted
  {
    var alarms: seq<Alarm> := [];
    var rest := regs;
    var i := 0;
    while i < count
      invariant i <= count && i <= |regs|
      invariant rest == regs[i..]
      invariant alarms == LookupAll(regs[..i])
    {
      var code := ConsumeU16(rest);
      if code.Err? {
        return Err(code.error);
      }
      assert regs[..i + 1] == regs[..i] + [code.value.value];
      LookupAllAppend(regs[..i], code.value.value);
      alarms := alarms + [Lookup(code.value.value)];
      rest := code.value.rest;
      i := i + 1;
    }
    r := Ok(Consumed(alarms, rest));
  }

  lemma {:induction false} LookupAllAppend(codes: seq<int>, code: int)
    ensures LookupAll(codes + [code]) == LookupAll(codes) + [Lookup(code)]
  {
    var l, r := LookupAll(codes + [code]), LookupAll(codes) + [Lookup(code)];
    assert |l| == |r|;
    forall i | 0 <= i < |l| ensures l[i] == r[i] {
      assert (codes + [code])[i] == if i < |codes| then codes[i] else code;
    }
  }

  /** The fields a history entry passes to `datetime`: the year and the seconds as raw words,
      the month/day and hour/minute as the byte pairs `consume_u8_couple` returns. The
      `datetime` object itself, with its validation, is not modelled. */
  datatype Timestamp = Timestamp(year: int, month: int, day: int, hour: int, minute: int, second: int)

  datatype AlarmHistoryEntry = AlarmHistoryEntry(alarm: Alarm, timestamp: Timestamp)

  /** The timestamp fields of the four words year, month/day, hour/minute, second: the two
      middle words split by `consume_u8_couple`. */
  function TimestampOf(year: int, monthDay: int, hourMinute: int, second: int): Timestamp {
    Timestamp(year, U8CoupleOf(monthDay).0, U8CoupleOf(monthDay).1,
      U8CoupleOf(hourMinute).0, U8CoupleOf(hourMinute).1, second)
  }

  /** `AlarmHistoryEntry.consume_from_registers`: five words, in the order year, month/day,
      hour/minute, second, alarm code; each pair is split by `consume_u8_couple`. */
  function ConsumeHistoryEntry(regs: seq<int>): (r: Result<Consumed<AlarmHistoryEntry>>)
    ensures Advances(r, regs, HISTORY_ENTRY_REGISTERS)
    ensures r.Ok? <==> HISTORY_ENTRY_REGISTERS <= |regs|
    ensures r.Ok? ==> r.value.value.timestamp == TimestampOf(regs[0], regs[1], regs[2], regs[3])
    ensures r.Ok? ==> r.value.value.alarm == Lookup(regs[4])
  {
    var year :- ConsumeU16(regs);
    var monthDay :- ConsumeU8Couple(year.rest);
    var hourMinute :- ConsumeU8Couple(monthDay.rest);
    var second :- ConsumeU16(hourMinute.rest);
    var code :- ConsumeU16(second.rest);
    var (month, day) := monthDay.value;
    var (hour, minute) := hourMinute.value;
    Ok(Consumed(
      AlarmHistoryEntry(Lookup(code.value), Timestamp(year.value, month, day, hour, minute, second.value)),
      code.rest))
  }

  /** The ranges `datetime` requires of the fields a history entry fills, leaving aside the
      length of the month. */
  predicate CalendarFields(t: Timestamp) {
    1 <= t.month <= 12 && 1 <= t.day <= 31 && 0 <= t.hour < 24 && 0 <= t.minute < 60 && 0 <= t.second < 60
  }

  /** Taking `consume_u8_couple` as `consume_u8_couple_from_registers`, the day is the high
      byte left unshifted: 0 or a multiple of 256. No decoded entry has a day in 1..31, so
      `datetime` rejects every history entry. */
  lemma {:induction false} HistoryDayNeverCalendar(regs: seq<int>)
    requires ConsumeHistoryEntry(regs).Ok?
    ensures var t := ConsumeHistoryEntry(regs).value.value.timestamp;
      (t.day == 0 || t.day >= 0x100) && !CalendarFields(t)
  {
    var day := U8CoupleOf(regs[1]).1;
    assert day % 0x100 == 0 && 0 <= day;
  }

  /** `AlarmHistoryEntry.consume_list_from_registers`: `count` entries of five words each;
      entry `j` is the decode of the words from `5 * j` on, so order is preserved. */
  method ConsumeHistoryList(count: nat, regs: seq<int>) returns (r: Result<Consumed<seq<AlarmHistoryEntry>>>)
    ensures r.Ok? <==> HISTORY_ENTRY_REGISTERS * count <= |regs|
    ensures r.Err? ==> r.error == Exhausted
    ensures r.Ok? ==> |r.value.value| == count && r.value.rest == regs[HISTORY_ENTRY_REGISTERS * count..]
    ensures r.Ok? ==> forall j :: 0 <= j < count ==>
      ConsumeHistoryEntry(regs[HISTORY_ENTRY_REGISTERS * j..])
        == Ok(Consumed(r.value.value[j], regs[HISTORY_ENTRY_REGISTERS * (j + 1)..]))
  {
    var entries: seq<AlarmHistoryEntry> := [];
    var rest := regs;
    var i := 0;
    while i < count
      invariant i <= count && HISTORY_ENTRY_REGISTERS * i <= |regs|
      invariant rest == regs[HISTORY_ENTRY_REGISTERS * i..]
      invariant |entries| == i
      invariant forall j :: 0 <= j < i ==>
        ConsumeHistoryEntry(regs[HISTORY_ENTRY_REGISTERS * j..])
          == Ok(Consumed(entries[j], regs[HISTORY_ENTRY_REGISTERS * (j + 1)..]))
    {
      var e := ConsumeHistoryEntry(rest);
      if e.Err? {
        return Err(e.error);
      }
      assert regs[HISTORY_ENTRY_REGISTERS * i..][HISTORY_ENTRY_REGISTERS..] == regs[HISTORY_ENTRY_REGISTERS * (i + 1)..];
      assert ConsumeHistoryEntry(regs[HISTORY_ENTRY_REGISTERS * i..])
        == Ok(Consumed(e.value.value, regs[HISTORY_ENTRY_REGISTERS * (i + 1)..]));
      entries := entries + [e.value.value];
      rest := e.value.rest;
      i := i + 1;
    }
    r := Ok(Consumed(entries, rest));
  }

  /** A history of more than 25 entries needs more than the 125 registers a single Read
      Holding Registers request may carry (section 6.3 of the MODBUS Application Protocol
      Specification V1.1b3): `read_history` then gets the device's error for its second
      request, whatever the device holds. */
  lemma LongHistoryRefused(holding: map<int, int>, count: int)
    requires MAX_READ_QUANTITY / HISTORY_ENTRY_REGISTERS < count <= MAX_HISTORY_ALERTS
    ensures !Answers(holding, REG_ALARM1_YEAR, HISTORY_ENTRY_REGISTERS * count)
  {
  }

  /** `Alarms`: reads the active alarm list and the alarm history, and resets active alarms. */
  class Alarms {
    const client: Client

    constructor (client: Client)
      ensures this.client == client
    {
      this.client := client;
    }

    /** `read_active`: reads the count at 999; a count above 10 fails; a count of 0 gives no
        alarms without a second request; otherwise exactly `count` codes are read from 1000. */
    method ReadActive() returns (r: Result<seq<Alarm>>)
      requires client.Valid()
      modifies client`requests
      ensures var h, countRead := client.holding, Request.ReadHoldingRegisters(REG_ACTIVE_ALARMS_COUNT, 1);
        && (REG_ACTIVE_ALARMS_COUNT !in h ==>
              r == Err(ErrorResponse) && client.requests == old(client.requests) + [countRead])
        && (REG_ACTIVE_ALARMS_COUNT in h && h[REG_ACTIVE_ALARMS_COUNT] > MAX_ACTIVE_ALERTS ==>
              r == Err(CountOutOfRange(h[REG_ACTIVE_ALARMS_COUNT]))
              && client.requests == old(client.requests) + [countRead])
        && (REG_ACTIVE_ALARMS_COUNT in h && h[REG_ACTIVE_ALARMS_COUNT] == 0 ==>
              r == Ok([]) && client.requests == old(client.requests) + [countRead])
        && (REG_ACTIVE_ALARMS_COUNT in h && 1 <= h[REG_ACTIVE_ALARMS_COUNT] <= MAX_ACTIVE_ALERTS ==>
              var count := h[REG_ACTIVE_ALARMS_COUNT];
              && client.requests == old(client.requests)
                   + [countRead, Request.ReadHoldingRegisters(REG_ACTIVE_ALARM1_CODE, count)]
              && (r.Ok? <==> Holds(h, REG_ACTIVE_ALARM1_CODE, count))
              && (r.Ok? ==> r.value == LookupAll(Window(h, REG_ACTIVE_ALARM1_CODE, count))))
    {
      var c := client.ReadU16(REG_ACTIVE_ALARMS_COUNT);
      if c.Err? {
        return Err(c.error);
      }
      var count := c.value;
      if !(0 <= count <= MAX_ACTIVE_ALERTS) {
        return Err(CountOutOfRange(count));
      }
      var registers: seq<int> := [];
      if count > 0 {
        var rr := client.ReadManyU16(REG_ACTIVE_ALARM1_CODE, count);
        if rr.Err? {
          return Err(rr.error);
        }
        registers := rr.value;
      }
      var alarms := ConsumeAlarmList(count, registers);
      assert registers[..count] == registers;
      r := Ok(alarms.value.value);
    }

    /** `reset_active`: the single word 0x99C5 written to register 999; nothing else changes. */
    method ResetActive() returns (r: Result<()>)
      requires client.Valid()
      modifies client`holding, client`requests
      ensures client.Valid()
      ensures client.requests == old(client.requests) + [WriteSingleRegister(REG_ACTIVE_ALARMS_COUNT, ACTION_TRIGGER)]
      ensures r.Ok? <==> REG_ACTIVE_ALARMS_COUNT in old(client.holding)
      ensures client.holding == if r.Ok? then old(client.holding)[REG_ACTIVE_ALARMS_COUNT := ACTION_TRIGGER]
                                else old(client.holding)
    {
      r := client.WriteU16(REG_ACTIVE_ALARMS_COUNT, ACTION_TRIGGER);
    }

    /** `read_history`: reads the count at 1099; a count above 50 fails; a count of 0 gives no
        entries without a second request; otherwise exactly `5 * count` words are read from
        1100 in one request. */
    method ReadHistory() returns (r: Result<seq<AlarmHistoryEntry>>)
      requires client.Valid()
      modifies client`requests
      ensures var h, countRead := client.holding, Request.ReadHoldingRegisters(REG_HISTORY_COUNT, 1);
        && (REG_HISTORY_COUNT !in h ==>
              r == Err(ErrorResponse) && client.requests == old(client.requests) + [countRead])
        && (REG_HISTORY_COUNT in h && h[REG_HISTORY_COUNT] > MAX_HISTORY_ALERTS ==>
              r == Err(CountOutOfRange(h[REG_HISTORY_COUNT]))
              && client.requests == old(client.requests) + [countRead])
        && (REG_HISTORY_COUNT in h && h[REG_HISTORY_COUNT] == 0 ==>
              r == Ok([]) && client.requests == old(client.requests) + [countRead])
        && (REG_HISTORY_COUNT in h && 1 <= h[REG_HISTORY_COUNT] <= MAX_HISTORY_ALERTS ==>
              var count := h[REG_HISTORY_COUNT];
              var words := HISTORY_ENTRY_REGISTERS * count;
              && client.requests == old(client.requests)
                   + [countRead, Request.ReadHoldingRegisters(REG_ALARM1_YEAR, words)]
              && (r.Ok? <==> Answers(h, REG_ALARM1_YEAR, words))
              && (r.Ok? ==> |r.value| == count)
              && (r.Ok? ==> forall j :: 0 <= j < count ==>
                    var entry := ConsumeHistoryEntry(Window(h, REG_ALARM1_YEAR, words)[HISTORY_ENTRY_REGISTERS * j..]);
                    entry.Ok? && r.value[j] == entry.value.value))
    {
      var c := client.ReadU16(REG_HISTORY_COUNT);
      if c.Err? {
        return Err(c.error);
      }
      var count := c.value;
      if !(0 <= count <= MAX_HISTORY_ALERTS) {
        return Err(CountOutOfRange(count));
      }
      var registers: seq<int> := [];
      if count > 0 {
        var registerCount := count * HISTORY_ENTRY_REGISTERS;
        var rr := client.ReadManyU16(REG_ALARM1_YEAR, registerCount);
        if rr.Err? {
          return Err(rr.error);
        }
        registers := rr.value;
      }
      var entries := ConsumeHistoryList(count, registers);
      r := Ok(entries.value.value);
    }

    /** `read_history` over the chunked read: every request stays within 125 registers, so
        any history of up to 50 entries whose registers the device holds is read. */
    method ReadHistoryChunked() returns (r: Result<seq<AlarmHistoryEntry>>)
      requires client.Valid()
      modifies client`requests
      ensures |old(client.requests)| <= |client.requests|
      ensures forall q :: q in client.requests[|old(client.requests)|..] ==>
        q.ReadHoldingRegisters? && 1 <= q.count <= MAX_READ_QUANTITY
      ensures var h := client.holding;
        && (REG_HISTORY_COUNT !in h ==> r == Err(ErrorResponse))
        && (REG_HISTORY_COUNT in h && h[REG_HISTORY_COUNT] > MAX_HISTORY_ALERTS ==>
              r == Err(CountOutOfRange(h[REG_HISTORY_COUNT])))
        && (REG_HISTORY_COUNT in h && h[REG_HISTORY_COUNT] <= MAX_HISTORY_ALERTS ==>
              var count := h[REG_HISTORY_COUNT];
              var words := HISTORY_ENTRY_REGISTERS * count;
              && (r.Ok? <==> Holds(h, REG_ALARM1_YEAR, words))
              && (r.Ok? ==> |r.value| == count)
              && (r.Ok? ==> forall j :: 0 <= j < count ==>
                    var entry := ConsumeHistoryEntry(Window(h, REG_ALARM1_YEAR, words)[HISTORY_ENTRY_REGISTERS * j..]);
                    entry.Ok? && r.value[j] == entry.value.value))
    {
      var c := client.ReadU16(REG_HISTORY_COUNT);
      if c.Err? {
        return Err(c.error);
      }
      var count := c.value;
      if !(0 <= count <= MAX_HISTORY_ALERTS) {
        return Err(CountOutOfRange(count));
      }
      var rr := client.ReadManyChunked(REG_ALARM1_YEAR, count * HISTORY_ENTRY_REGISTERS);
      if rr.Err? {
        return Err(rr.error);
      }
      var entries := ConsumeHistoryList(count, rr.value);
      r := Ok(entries.value.value);
    }
  }
}
