# Komfovent C5 register codec, in Dafny

A model of the register codec layer of the Komfovent C5 integration for Home Assistant.
The C5 air-handling unit controller exposes its state as 16-bit holding registers over
Modbus/TCP. The integration reads and writes those registers with three requests of the
MODBUS Application Protocol Specification V1.1b3:

- Read Holding Registers (section 6.3), at most 125 registers per request;
- Write Single Register (section 6.6);
- Write Multiple Registers (section 6.12), at most 123 registers per request.

It turns the words into typed values (operation modes, flows, temperatures, alarm lists,
settings) and typed values back into words.

The model has one module per source file:

- `results.dfy` (`Results`): `Option`, `Result`, the error kinds, and `Consumed<T>` (a decoded value plus the words left after it).
- `client.dfy` (`Client`): The word codecs: u16, high-word-first u32, signed 16-bit and the byte pair. The class `Client.Client` is the device, a map from register address to word plus a ghost log of the requests sent. The device answers a request exactly when the protocol limits allow it and it holds every register addressed.
- `alarms_db.dfy` (`AlarmsDb`): The alarm code string (`"NA"`/`"NB"`) and the message lookup.
- `alarms.dfy` (`Alarms`): The active-alarm and history list decoders, and the class that reads them behind a count register.
- `modes.dfy` (`Modes`): The operation-mode enumerations, the slot and block decoders, the slot offsets, and the classes `Mode` and `Modes` with their readers and setters.
- `settings.dfy` (`Settings`): Flow units, RS-485 word unpacking, language, and the settings block of 30 or 38 words.
- `monitoring.dfy` (`Monitoring`): The status enumeration, the 13-word monitoring decode and its read.
- `functions.dfy` (`Functions`): The 5-word functions block and the OCV switch.
- `api.dfy` (`Api`): The firmware gate `version >= 2000`.
- `services.dfy` (`Services`): The special-mode flag read-modify-write and the mode default of the three setter services, applied to every device in turn.

A Python iterator that `next()` advances is modelled as a sequence threaded through each
decoder: a decoder returns the value and the rest. Running out of words (Python's
`StopIteration`) is the error `Exhausted`. An enumeration built from a word outside its
members (Python's `ValueError`) is the error `InvalidValue`. The device's error response
(the source's failed `assert not rr.isError()`) is the error `ErrorResponse`. Python's
`& 0xFFFF` and `>> 16` on non-negative integers are Dafny's `%` and `/`.

A read of more than 125 registers must be split into several requests (section 6.3 of
the MODBUS Application Protocol Specification V1.1b3), but `read_many_u16`
(custom_components/komfovent_c5/api/client.py:74-80) sends a single request of `count`
registers. The model follows the code, so a read above 125 registers is
answered with the device's error (`Client.Answers`).

## Model

Source paths below are relative to the repository root.

| member | source | states |
|---|---|---|
| Client.Mask16 | custom_components/komfovent_c5/api/client.py:45 | `value & 0xFFFF` is a 16-bit word, equal to the value modulo 2^16, and equal to the value itself when it already is a word. |
| Client.ConsumeU16 | custom_components/komfovent_c5/api/client.py:83-84 | Takes exactly one word and returns the first word; fails with `Exhausted` on an empty cursor. |
| Client.U16RoundTrip | custom_components/komfovent_c5/api/client.py:83-84 | The word `write_u16` stores is read back by `consume_u16_from_registers`, and the rest of the cursor is left as it was. |
| Client.U32Of | custom_components/komfovent_c5/api/client.py:98 | `((hi << 16) & 0xFFFF0000) \| lo & 0xFFFF` is in [0, 2^32), with high half `hi & 0xFFFF` and low half `lo & 0xFFFF`. |
| Client.ConsumeU32 | custom_components/komfovent_c5/api/client.py:96-98 | Takes exactly two words, high word first; fails when fewer than two remain; the value lies in [0, 2^32). |
| Client.U32Words | custom_components/komfovent_c5/api/client.py:65-67 | `write_u32` sends two 16-bit words. |
| Client.U32WordsSplit | custom_components/komfovent_c5/api/client.py:66-67 | For 0 <= v < 2^32, the high word times 2^16 plus the low word is v. |
| Client.U32RoundTrip | custom_components/komfovent_c5/api/client.py:65-70 | Decoding the two words `write_u32` sends gives back v modulo 2^32, and v itself for every v in [0, 2^32); the rest of the cursor is untouched. |
| Client.ToSigned16 | custom_components/komfovent_c5/api/monitoring.py:64-68 | Reads a word as two's-complement 16-bit: in [-32768, 32768) and congruent to the word modulo 2^16. |
| Client.ConsumeI16 | custom_components/komfovent_c5/api/monitoring.py:64-68 | Takes exactly one word and returns its signed 16-bit reading; fails on an empty cursor. |
| Client.ConsumeWords | custom_components/komfovent_c5/api/settings.py:113-114 | The width-only consumer for fields without a decoder: takes exactly n words and returns them in order. |
| Client.U8CoupleOf | custom_components/komfovent_c5/api/client.py:87-88 | As written: the low byte, and the high byte left in place as a multiple of 256; together they sum to the word. |
| Client.ConsumeU8Couple | custom_components/komfovent_c5/api/client.py:91-93 | Takes exactly one word and returns `consume_u8_couple_from_register` of it: the low byte first, then the high byte left in place; the two sum to the word masked to 16 bits. |
| Client.PackU8Couple | custom_components/komfovent_c5/api/client.py:53-55 | `write_u8_couple` stores a word whose low byte is `lo & 0xFF` and whose high byte is `hi & 0xFF`. |
| Client.U8CoupleReadBackScaled | custom_components/komfovent_c5/api/client.py:87-88 | Reading back a written pair gives `(lo & 0xFF, (hi & 0xFF) * 256)`, which differs from the pair written whenever the high byte is non-zero. |
| Client.U8CoupleOfShifted | custom_components/komfovent_c5/api/client.py:87-88 | Corrected reader: both bytes in [0, 256), with high * 256 + low equal to the word. |
| Client.U8CoupleRoundTrip | custom_components/komfovent_c5/api/client.py:53-55 | With the corrected reader, reading back a written pair gives `(lo & 0xFF, hi & 0xFF)`. |
| Client.Window | custom_components/komfovent_c5/api/client.py:74-80 | The words a read returns: `count` words, word i being the register at address + i. |
| Client.Overwrite | custom_components/komfovent_c5/api/client.py:65-72 | A multiple write changes exactly the addressed registers, to the values in order, and keeps every other register. |
| Client.Client.constructor | custom_components/komfovent_c5/api/client.py:12-14 | A device holding the given 16-bit words, with no request sent yet. |
| Client.Client.ReadHoldingRegisters | custom_components/komfovent_c5/api/client.py:36-39 | Logs one read; succeeds exactly when 1 <= count <= 125 and every register is held, and then returns the registers in address order. |
| Client.Client.WriteRegister | custom_components/komfovent_c5/api/client.py:44-47 | Logs one single write; succeeds exactly when the register is held, and then changes that register only. |
| Client.Client.WriteRegisters | custom_components/komfovent_c5/api/client.py:69-72 | Logs one multiple write; succeeds exactly when 1..123 words are sent and all registers are held, and then overwrites exactly those registers. |
| Client.Client.ReadU16 | custom_components/komfovent_c5/api/client.py:34-40 | Exactly one request, of 1 register; returns the register or fails with the device's error. |
| Client.Client.WriteU16 | custom_components/komfovent_c5/api/client.py:42-47 | Sends `value & 0xFFFF`, so the stored word is in [0, 65535] whatever the argument; only that register changes. |
| Client.Client.ReadU8Couple | custom_components/komfovent_c5/api/client.py:49-51 | One 1-register read, decoded by `consume_u8_couple_from_register`. |
| Client.Client.WriteU8Couple | custom_components/komfovent_c5/api/client.py:53-55 | One single write of the packed pair; only that register changes. |
| Client.Client.ReadU32 | custom_components/komfovent_c5/api/client.py:57-63 | Exactly one request, of 2 registers; returns high * 2^16 + low. |
| Client.Client.WriteU32 | custom_components/komfovent_c5/api/client.py:65-72 | One multiple write of `(hi, lo)`; exactly the two registers change. |
| Client.Client.ReadManyU16 | custom_components/komfovent_c5/api/client.py:74-80 | Exactly one request of `count` registers, with no chunking; fails unless the device can answer it. |
| Client.Client.ReadManyChunked | custom_components/komfovent_c5/api/client.py:74-80 | Corrected: the read split into requests within the limit of section 6.3 of the MODBUS Application Protocol Specification V1.1b3. Every request asks for 1..125 registers, and the read succeeds exactly when all `count` registers are held, returning them in address order. |
| AlarmsDb.DecimalRoundTrip | custom_components/komfovent_c5/api/alarms_db.py:44 | The decimal rendering of the f-string parses back to the number. |
| AlarmsDb.AlarmNumber | custom_components/komfovent_c5/api/alarms_db.py:37-43 | After masking to the low byte, a code above 0x7F is an "A" alarm numbered in 1..128 and any other code a "B" alarm numbered in 0..127; the number and letter determine the masked code. |
| AlarmsDb.CodeStrFromCode | custom_components/komfovent_c5/api/alarms_db.py:37-44 | The code string is decimal digits followed by "A" or "B". |
| AlarmsDb.CodeStrRoundTrip | custom_components/komfovent_c5/api/alarms_db.py:37-44 | Reading a code string back gives `code & 0xFF`. |
| AlarmsDb.CodeStrInjective | custom_components/komfovent_c5/api/alarms_db.py:37-44 | Two codes with the same string have the same low byte. |
| AlarmsDb.ConfirmedBCodeStrings | custom_components/komfovent_c5/api/alarms_db.py:4-6 | 1 gives "1B", 127 gives "127B", and 260 gives "4B". |
| AlarmsDb.ConfirmedACodeStrings | custom_components/komfovent_c5/api/alarms_db.py:8-10 | 132 gives "5A", 142 gives "15A", and 211 gives "84A". |
| AlarmsDb.MessageSourcesDisjoint | custom_components/komfovent_c5/api/alarms_db.py:13-34 | Table keys and the two half-open ranges [6, 12) and [96, 112) are pairwise disjoint; the boundary codes 5, 12, 95 and 112 are table entries. |
| AlarmsDb.MessageForCode | custom_components/komfovent_c5/api/alarms_db.py:47-57 | A masked table code gets its table entry. Each range message is returned exactly for the codes of its range, in both directions. "UNKNOWN" is returned exactly for the codes in neither the table nor a range. |
| AlarmsDb.MessageForCodeTotal | custom_components/komfovent_c5/api/alarms_db.py:47-57 | Every code gets a table message, one of the two range messages, or "UNKNOWN". |
| AlarmsDb.MessageExamples | custom_components/komfovent_c5/api/alarms_db.py:13-57 | 4 and 260 give "CHANGE_OUTDOOR_AIR_FILTER"; 6 and 11 give "ELECTRIC_HEATER_OFF"; 96 and 111 give "COMPRESSOR_OFF_MALFUNCTION"; 200 gives "UNKNOWN". |
| Alarms.Lookup | custom_components/komfovent_c5/api/alarms.py:24-29 | Keeps the raw code unchanged and attaches `message_for_code(code)`. |
| Alarms.CodeStr | custom_components/komfovent_c5/api/alarms.py:20-22 | The alarm's code string names the alarm's masked code. |
| Alarms.LookupAll | custom_components/komfovent_c5/api/alarms.py:32-39 | One alarm per code, in the same order, each the lookup of its code. |
| Alarms.LookupAllAppend | custom_components/komfovent_c5/api/alarms.py:34-37 | Appending a code appends its lookup, which is the step of the list loop. |
| Alarms.ConsumeAlarmList | custom_components/komfovent_c5/api/alarms.py:32-39 | The loop consumes exactly `count` words and returns their lookups in register order; it fails with `Exhausted` exactly when fewer than `count` words remain. |
| Alarms.ConsumeHistoryEntry | custom_components/komfovent_c5/api/alarms.py:50-60 | Takes exactly 5 words, in the order year, month/day, hour/minute, second, code. The two middle words are split by `consume_u8_couple` as written, and the alarm is the lookup of the fifth word. |
| Alarms.HistoryDayNeverCalendar | custom_components/komfovent_c5/api/alarms.py:51-59 | With `consume_u8_couple` taken as `consume_u8_couple_from_registers` (see Left out), every decoded day is 0 or at least 256, so no history entry has calendar fields that `datetime` accepts. |
| Alarms.ConsumeHistoryList | custom_components/komfovent_c5/api/alarms.py:62-69 | The loop consumes exactly 5·count words; entry j is the decode of the words from 5·j, so entry order is preserved. |
| Alarms.LongHistoryRefused | custom_components/komfovent_c5/api/alarms.py:100-107 | A history count of 26 to 50 makes `read_history` ask for 130 to 250 registers in one request, which no device answers. |
| Alarms.Alarms.constructor | custom_components/komfovent_c5/api/alarms.py:83-84 | The reader keeps the device it was given. |
| Alarms.Alarms.ReadActive | custom_components/komfovent_c5/api/alarms.py:86-95 | Reads the count at 999. A count above 10 fails. A count of 0 returns no alarms after that one request. Otherwise exactly `count` words are read from 1000 in a second request, and their lookups are returned in order. |
| Alarms.Alarms.ResetActive | custom_components/komfovent_c5/api/alarms.py:97-98 | Writes the single word 0x99C5 to register 999; nothing else changes. |
| Alarms.Alarms.ReadHistoryChunked | custom_components/komfovent_c5/api/alarms.py:100-110 | Corrected: the same count checks over the chunked read. Every request stays within 125 registers, and a count of up to 50 succeeds exactly when the device holds the 5·count history registers. |
| Alarms.Alarms.ReadHistory | custom_components/komfovent_c5/api/alarms.py:100-110 | Reads the count at 1099. A count above 50 fails. A count of 0 returns no entries after that one request. Otherwise exactly 5·count words are read from 1100 in a second request, and entry j is decoded from words 5·j onwards. |
| Modes.OperationModeWord | custom_components/komfovent_c5/api/modes.py:22-28 | The operation modes are the words 1..6. |
| Modes.OperationModeFromWord | custom_components/komfovent_c5/api/modes.py:22-28 | `OperationMode(w)` succeeds exactly for 1..6, gives the mode with that word, and fails with `InvalidValue` otherwise. |
| Modes.FlowControlModeWord | custom_components/komfovent_c5/api/modes.py:31-34 | The flow-control modes are the words 0..2. |
| Modes.FlowControlModeFromWord | custom_components/komfovent_c5/api/modes.py:31-34 | Succeeds exactly for 0..2, giving the mode with that word. |
| Modes.TemperatureControlModeWord | custom_components/komfovent_c5/api/modes.py:37-40 | The temperature-control modes are the words 0..2. |
| Modes.TemperatureControlModeFromWord | custom_components/komfovent_c5/api/modes.py:37-40 | Succeeds exactly for 0..2, giving the mode with that word. |
| Modes.VavStatusWord | custom_components/komfovent_c5/api/modes.py:43-48 | The VAV statuses are the words 0..4. |
| Modes.VavStatusFromWord | custom_components/komfovent_c5/api/modes.py:43-48 | Succeeds exactly for 0..4, giving the status with that word. |
| Modes.EnumWordRoundTrips | custom_components/komfovent_c5/api/modes.py:22-48 | Every member of the four enumerations is decoded back from its word. |
| Modes.FlagMask | custom_components/komfovent_c5/api/modes.py:51-56 | Each configuration flag is a single bit of the word. |
| Modes.FlagMaskValue | custom_components/komfovent_c5/api/modes.py:51-56 | The flag at bit k is the word `1 << k`. |
| Modes.ConsumeModeState | custom_components/komfovent_c5/api/modes.py:67-81 | A slot is 5 words, or 6 for the special one. It is supply (u32), extract (u32) and setpoint tenths / 10, then the configuration word. The configuration is present exactly for the special slot. |
| Modes.RoundHalfEven | custom_components/komfovent_c5/api/modes.py:125 | Python's `round`: within 0.5 of the argument, exact on integers, and ties go to the even integer. |
| Modes.SetpointWord | custom_components/komfovent_c5/api/modes.py:123-125 | The setpoint is stored as one 16-bit word. |
| Modes.SetpointRoundTrip | custom_components/komfovent_c5/api/modes.py:118-125 | A setpoint that is a whole number of tenths in the word's range is read back exactly as set. |
| Modes.SetpointRounding | custom_components/komfovent_c5/api/modes.py:125 | Any setpoint in range is read back within 0.05 degrees of what was set. |
| Modes.ModeStateWords | custom_components/komfovent_c5/api/modes.py:106-145 | The setters of a slot store 5 (or 6) 16-bit words. |
| Modes.ModeStateRoundTrip | custom_components/komfovent_c5/api/modes.py:67-81 | A slot whose values fit the registers decodes back from the words its setters store, leaving the rest of the cursor. |
| Modes.OpModeOffsetKeys | custom_components/komfovent_c5/api/modes.py:273-279 | Every operation mode but PROGRAM has a slot offset. |
| Modes.ConsumeSlots | custom_components/komfovent_c5/api/modes.py:164-170 | The slots of the given modes are consumed one after another. The dictionary has exactly those modes, and only the special one carries a configuration. |
| Modes.ConsumeControls | custom_components/komfovent_c5/api/modes.py:176-183 | The six control words are consumed in order. The decode fails exactly when flow control or temperature control is outside 0..2 or the VAV status is outside 0..4. |
| Modes.SlotsTile | custom_components/komfovent_c5/api/modes.py:273-279 | The slots start at 100, 105, 110, 115 and 120, each where the one before ends. The last ends at 125, so flow control at 126 follows directly. |
| Modes.ConsumeModesState | custom_components/komfovent_c5/api/modes.py:162-184 | The block decode consumes exactly 33 words, the span 99..131. Its dictionary has exactly the five slotted modes. |
| Modes.ConsumeSlotsLayout | custom_components/komfovent_c5/api/modes.py:164-170 | Slot i is decoded from the words after the slots before it. |
| Modes.ModesBlockLayout | custom_components/komfovent_c5/api/modes.py:162-184 | The block decode fails exactly on a bad enumeration word: operation mode outside 1..6, or one of the three control words. Each control field is the word at its register's offset from 99. |
| Modes.ModesBlockSlots | custom_components/komfovent_c5/api/modes.py:163-170 | The operation mode is the word at 99, and the slots are decoded from the 26 words after it. |
| Modes.SlotsAtOffsets | custom_components/komfovent_c5/api/modes.py:273-279 | In the block decode, each mode's slot is the one at that mode's `_OP_MODE_OFFSET`. |
| Modes.ActiveMode | custom_components/komfovent_c5/api/modes.py:186-188 | `modes[operation_mode]`, failing with `NoSuchKey` exactly when the mode has no entry. |
| Modes.ActiveModeOfDecoded | custom_components/komfovent_c5/api/modes.py:186-188 | For a decoded block, the active mode exists exactly when the operation mode is not PROGRAM. It carries a configuration exactly in SPECIAL. |
| Modes.ExhaustPressureWriteMisplaced | custom_components/komfovent_c5/api/modes.py:269-270 | After the as-written setter stores `value & 0xFFFF` into register 129 of a device, the next block decode shows that word as the VAV sensors range, and the exhaust pressure is unchanged. |
| Modes.ExhaustPressureWriteRoundTrip | custom_components/komfovent_c5/api/modes.py:199 | After the corrected setter stores `value & 0xFFFF` into register 131 of a device, the next block decode shows that word as the nominal exhaust pressure, and the sensors range is unchanged. |
| Modes.Mode.constructor | custom_components/komfovent_c5/api/modes.py:92-94 | A slot reader for the given device and first register. |
| Modes.Mode.ReadAll | custom_components/komfovent_c5/api/modes.py:96-100 | One request of 5 registers (6 for `SpecialMode`, lines 131-135) from the slot start. The result is the slot decode of exactly those words. |
| Modes.Mode.ReadSupplyFlow | custom_components/komfovent_c5/api/modes.py:102-104 | A 2-register read at the slot start, returning high * 2^16 + low. |
| Modes.Mode.SetSupplyFlow | custom_components/komfovent_c5/api/modes.py:106-108 | Writes the u32 words to reg_start+0 and +1 only. |
| Modes.Mode.ReadExtractFlow | custom_components/komfovent_c5/api/modes.py:110-112 | A 2-register read at reg_start+2. |
| Modes.Mode.SetExtractFlow | custom_components/komfovent_c5/api/modes.py:114-116 | Writes the u32 words to reg_start+2 and +3 only. |
| Modes.Mode.ReadSetpointTemperature | custom_components/komfovent_c5/api/modes.py:118-121 | The word at reg_start+4, divided by 10. |
| Modes.Mode.SetSetpointTemperature | custom_components/komfovent_c5/api/modes.py:123-125 | Writes the rounded tenths, as one word, to reg_start+4 only. |
| Modes.Mode.ReadConfiguration | custom_components/komfovent_c5/api/modes.py:137-140 | The word at reg_start+5 of the special slot. |
| Modes.Mode.SetConfiguration | custom_components/komfovent_c5/api/modes.py:142-145 | Writes the flags' value to reg_start+5 only. |
| Modes.Modes.constructor | custom_components/komfovent_c5/api/modes.py:203-204 | A reader for the given device. |
| Modes.Modes.ReadAll | custom_components/komfovent_c5/api/modes.py:206-214 | Reads register 0, then the 33-register block from 99. The result is the block decode of exactly those words, with `ahu` set when register 0 is non-zero. |
| Modes.Modes.ReadAhuOn | custom_components/komfovent_c5/api/modes.py:216-217 | True exactly when register 0 is non-zero. |
| Modes.Modes.SetAhuOn | custom_components/komfovent_c5/api/modes.py:219-220 | Writes `int(on)` to register 0 only. |
| Modes.Modes.ReadOperationMode | custom_components/komfovent_c5/api/modes.py:222-223 | Register 99 as an operation mode; fails for a word outside 1..6. |
| Modes.Modes.SetOperationMode | custom_components/komfovent_c5/api/modes.py:225-226 | Writes the mode's word to register 99 only. |
| Modes.Modes.ModeRegisters | custom_components/komfovent_c5/api/modes.py:228-232 | The slot reader at `_OP_MODE_OFFSET[mode]`, special exactly for SPECIAL. A KeyError exactly for PROGRAM. |
| Modes.Modes.ReadFlowControlMode | custom_components/komfovent_c5/api/modes.py:234-235 | Register 126 as a flow-control mode. |
| Modes.Modes.SetFlowControlMode | custom_components/komfovent_c5/api/modes.py:237-238 | Writes the mode's word to register 126 only. |
| Modes.Modes.ReadTemperatureControlMode | custom_components/komfovent_c5/api/modes.py:240-243 | Register 127 as a temperature-control mode. |
| Modes.Modes.SetTemperatureControlMode | custom_components/komfovent_c5/api/modes.py:245-246 | Writes the mode's word to register 127 only. |
| Modes.Modes.ReadVavStatus | custom_components/komfovent_c5/api/modes.py:248-249 | Register 128 as a VAV status. |
| Modes.Modes.StartVavCalibration | custom_components/komfovent_c5/api/modes.py:251-252 | Writes 0x99C5 to register 128 only. |
| Modes.Modes.ReadVavSensorsRange | custom_components/komfovent_c5/api/modes.py:254-255 | The word at register 129. |
| Modes.Modes.SetVavSensorsRange | custom_components/komfovent_c5/api/modes.py:257-258 | Writes the masked value to register 129 only. |
| Modes.Modes.ReadNominalSupplyPressure | custom_components/komfovent_c5/api/modes.py:260-261 | The word at register 130. |
| Modes.Modes.SetNominalSupplyPressure | custom_components/komfovent_c5/api/modes.py:263-264 | Writes the masked value to register 130 only. |
| Modes.Modes.ReadNominalExhaustPressureAsWritten | custom_components/komfovent_c5/api/modes.py:266-267 | As written: reads register 129. |
| Modes.Modes.SetNominalExhaustPressureAsWritten | custom_components/komfovent_c5/api/modes.py:269-270 | As written: writes register 129 only. |
| Modes.Modes.ReadNominalExhaustPressure | custom_components/komfovent_c5/api/modes.py:266-267 | Corrected: reads register 131. |
| Modes.Modes.SetNominalExhaustPressure | custom_components/komfovent_c5/api/modes.py:269-270 | Corrected: writes register 131 only. |
| Settings.FlowUnitsWord | custom_components/komfovent_c5/api/settings.py:24-28 | The flow units are the words 0..3. |
| Settings.FlowUnitsFromWord | custom_components/komfovent_c5/api/settings.py:30-32 | Succeeds exactly for 0..3, giving the unit with that word. |
| Settings.UnitSymbol | custom_components/komfovent_c5/api/settings.py:183-188 | The symbol table itself ("m³/h", "L/s", "m³/s", "Pa"): every unit has a non-empty symbol, and the four are distinct (`Settings.FlowUnitsProperties`). |
| Settings.CommonFactor | custom_components/komfovent_c5/api/settings.py:37-41 | The factor is positive. |
| Settings.FlowUnitsProperties | custom_components/komfovent_c5/api/settings.py:24-41 | The four symbols are distinct. The factor is 1/1000 exactly for CUBIC_METER_PER_SECOND and 1 for the other three units. Each unit decodes back from its word. |
| Settings.SpeedBits | custom_components/komfovent_c5/api/settings.py:46-50 | The speeds are the two-bit values 0..3. |
| Settings.Rs485FromWord | custom_components/komfovent_c5/api/settings.py:61-70 | Unpacking never fails, and the stop bits are 1 or 2. |
| Settings.Rs485Word | custom_components/komfovent_c5/api/settings.py:63-65 | The packing the unpacker reads: a five-bit word with bit 2 clear. |
| Settings.Rs485RoundTrip | custom_components/komfovent_c5/api/settings.py:61-70 | Every RS-485 setting is unpacked back from its word. |
| Settings.Rs485IgnoresOtherBits | custom_components/komfovent_c5/api/settings.py:63-65 | Only bits 0, 1, 3 and 4 matter: a raw word unpacks like its low five bits with bit 2 cleared, and re-packing its unpacking gives exactly those bits. |
| Settings.LanguageWord | custom_components/komfovent_c5/api/settings.py:73-79 | The languages are the words 0..4. |
| Settings.LanguageFromWord | custom_components/komfovent_c5/api/settings.py:81-83 | Succeeds exactly for 0..4, giving the language with that word. |
| Settings.SettingsWidth | custom_components/komfovent_c5/api/settings.py:148-165 | The block is 2 + 1 + 2 + 1 + 1 + 2 + 1 + 8 + 12 words, plus 2 + 1 + 1 + 1 + 1 + 2 on extended firmware. |
| Settings.ConsumeExtended | custom_components/komfovent_c5/api/settings.py:116-123 | The extended fields take exactly 8 words: mask, RS-485, DST, an undocumented word (dropped), BACnet port and u32 BACnet id. |
| Settings.ConsumeSettingsState | custom_components/komfovent_c5/api/settings.py:104-129 | Consumes exactly 30 words, or 38 when extended. The five extended fields are all present when extended and all absent otherwise. |
| Settings.ReadAllCount | custom_components/komfovent_c5/api/settings.py:172-177 | The span `read_all` requests (449..478, or 449..486 when extended) equals what the decoder consumes. |
| Settings.SettingsLayout | custom_components/komfovent_c5/api/settings.py:104-115 | The decode fails exactly for a language word outside 0..4 or a flow-unit word outside 0..3. Each basic field comes from its register's offset from 449, and the day-of-week word feeds no field. |
| Settings.SettingsExtendedLayout | custom_components/komfovent_c5/api/settings.py:116-123 | Each extended field comes from its register's offset from 449, and word 483 feeds no field. |
| Settings.Settings.constructor | custom_components/komfovent_c5/api/settings.py:169-170 | A reader for the given device. |
| Settings.Settings.ReadAll | custom_components/komfovent_c5/api/settings.py:172-180 | One request of 30 or 38 registers from 449. It succeeds exactly when the device holds them and the decode succeeds, with the decode consuming all of them. |
| Monitoring.C5StatusWord | custom_components/komfovent_c5/api/monitoring.py:21-24 | The statuses are the words 0..2. |
| Monitoring.C5StatusFromWord | custom_components/komfovent_c5/api/monitoring.py:26-28 | Succeeds exactly for 0..2, giving the status with that word. |
| Monitoring.C5StatusRoundTrip | custom_components/komfovent_c5/api/monitoring.py:21-28 | Every status decodes back from its word. |
| Monitoring.Temperature | custom_components/komfovent_c5/api/monitoring.py:64-68 | The word read as signed 16-bit, in tenths: words up to 0x7FFF are positive, the rest are the word minus 65536. |
| Monitoring.Flow | custom_components/komfovent_c5/api/monitoring.py:62-63 | The u32 times the unit's factor: the raw value, or a thousandth of it in cubic metres per second. |
| Monitoring.ConsumeMonitoringState | custom_components/komfovent_c5/api/monitoring.py:57-71 | Consumes exactly 13 words. Fails exactly when fewer remain, the status is outside 0..2, or the mode is outside 1..6. |
| Monitoring.MonitoringLayout | custom_components/komfovent_c5/api/monitoring.py:57-71 | The word order is status, mode, supply flow (u32), exhaust flow (u32), five signed temperatures, then two u16 pressures. |
| Monitoring.ReadAllSpanRefused | custom_components/komfovent_c5/api/monitoring.py:75-87 | `read_all` asks for (2221+1-1999)+1 = 224 registers, above 125, and no device answers that request. |
| Monitoring.Monitoring.constructor | custom_components/komfovent_c5/api/monitoring.py:80-81 | A reader for the given device. |
| Monitoring.Monitoring.ReadAndDecode | custom_components/komfovent_c5/api/monitoring.py:83-88 | One request of `count` registers from 1999. The decode starts at its first word and succeeds exactly when the device answers and the 13-word decode succeeds. |
| Monitoring.Monitoring.ReadAll | custom_components/komfovent_c5/api/monitoring.py:83-88 | As written: one request of 224 registers, which always ends in the device's error. |
| Monitoring.Monitoring.ReadDecodedSpan | custom_components/komfovent_c5/api/monitoring.py:83-88 | Corrected: one request of the 13 registers the decode uses. Succeeds exactly when the device holds them and the status and mode words are valid, with every word consumed. |
| Functions.ConsumeFunctionsState | custom_components/komfovent_c5/api/functions.py:17-26 | Consumes exactly 5 words; `ocv_enabled` is the raw fifth word. |
| Functions.AqcWordsDiscarded | custom_components/komfovent_c5/api/functions.py:18-21 | The first four words (AQC setpoints and modes) do not affect the result. |
| Functions.OcvWord | custom_components/komfovent_c5/api/functions.py:46 | `int(enabled)` is a word, non-zero exactly when enabled. |
| Functions.OcvRoundTrip | custom_components/komfovent_c5/api/functions.py:38-46 | After `set_ocv_enabled`, `read_all` reports a value that is non-zero exactly when enabled. |
| Functions.Functions.constructor | custom_components/komfovent_c5/api/functions.py:35-36 | A reader for the given device. |
| Functions.Functions.ReadAll | custom_components/komfovent_c5/api/functions.py:38-43 | One request of exactly 5 registers, 500..504. `ocv_enabled` is register 504. |
| Functions.Functions.SetOcvEnabled | custom_components/komfovent_c5/api/functions.py:45-46 | Writes 1 or 0 to register 504 only. |
| Api.IsExtended | custom_components/komfovent_c5/api/__init__.py:24 | True exactly when version >= 2000. |
| Api.IsExtendedBoundary | custom_components/komfovent_c5/api/__init__.py:24 | 1999 is not extended and 2000 is. |
| Api.IsExtendedMonotone | custom_components/komfovent_c5/api/__init__.py:16-24 | If v1 <= v2 and v1 is extended, so is v2. |
| Api.SettingsSpanByVersion | custom_components/komfovent_c5/api/__init__.py:24 | The settings read is 38 registers from version 2000 on, and 30 before. |
| Services.MaybeSetBit | custom_components/komfovent_c5/services.py:130-138 | With True the flag's bit is set, with False it is cleared, and with None the flags come back unchanged. The other defined bits 0–4 keep their values. |
| Services.ApplyControls | custom_components/komfovent_c5/services.py:144-152 | The five steps keep a 16-bit flag word. |
| Services.ApplyControlsPerFlag | custom_components/komfovent_c5/services.py:144-152 | Each flag ends up as its control says, or keeps its value when the control is None. |
| Services.MaybeSetBitCommutes | custom_components/komfovent_c5/services.py:133-136 | Two steps on disjoint flags commute. |
| Services.ApplyControlsReversed | custom_components/komfovent_c5/services.py:144-152 | The reference order: the same five steps, heating first. |
| Services.ApplyControlsOrderIndependent | custom_components/komfovent_c5/services.py:144-152 | The result does not depend on the order of the five steps. |
| Services.ApplyControlsIdempotent | custom_components/komfovent_c5/services.py:144-152 | Applying the same controls twice leaves bits 0–4 as once. |
| Services.TargetMode | custom_components/komfovent_c5/services.py:59 | A given mode is kept, and a missing one becomes SPECIAL. |
| Services.SpecialConfigurationRegister | custom_components/komfovent_c5/services.py:142-143 | The configuration is read from and written to the special slot's configuration register, 125. |
| Services.ConfiguredWord | custom_components/komfovent_c5/services.py:143-154 | The word written back is a 16-bit word. |
| Services.ConfiguredWordFlags | custom_components/komfovent_c5/services.py:143-154 | In the word written back, each flag is its control, or the read word's flag when the control is None. |
| Services.ConfiguredWordNoControls | custom_components/komfovent_c5/services.py:143-154 | With every control None, the word written back is the word read. |
| Services.Configured | custom_components/komfovent_c5/services.py:140-156 | Only the configuration register changes, to the word written back, when the device holds it. |
| Services.SlotWritten | custom_components/komfovent_c5/services.py:62-69 | The setter changes only the target slot's registers. A device without that slot (PROGRAM) or without those registers is unchanged. |
| Services.SetSpecialModeConfig | custom_components/komfovent_c5/services.py:140-156 | Every device is visited. Each one gets one read and, if the read succeeds, one write of the reconfigured word; a failing device leaves the others to proceed. |
| Services.UpdateSpecialConfiguration | custom_components/komfovent_c5/services.py:141-154 | For one device: read once, apply the five controls, write once, and skip the write when the read fails. |
| Services.SetSetpointTemperature | custom_components/komfovent_c5/services.py:57-69 | Every device's slot of the target mode (SPECIAL by default) gets the setpoint word. |
| Services.UpdateSetpointTemperature | custom_components/komfovent_c5/services.py:63-65 | For one device: the setpoint word in the target slot, if there is one. |
| Services.SetSupplyFlow | custom_components/komfovent_c5/services.py:81-91 | Every device's slot of the target mode (SPECIAL by default) gets the supply flow's two words. |
| Services.UpdateSupplyFlow | custom_components/komfovent_c5/services.py:87-89 | For one device: the supply flow in the target slot, if there is one. |
| Services.SetExtractFlow | custom_components/komfovent_c5/services.py:97-107 | Every device's slot of the target mode (SPECIAL by default) gets the extract flow's two words. |
| Services.UpdateExtractFlow | custom_components/komfovent_c5/services.py:103-105 | For one device: the extract flow in the target slot, if there is one. |

## Left out

- Transport: the Modbus/TCP connection, connect timeouts, `disconnect` and the `asyncio.Lock` (client.py:17-32) are not modelled. The device is an abstract register map answering one request at a time, so mutual exclusion has nothing to add.
- `asyncio.gather` in `Modes.read_all` is modelled as two sequential requests, register 0 first.
- Floating point: temperatures and flows are exact `real`s. `/ 10.0` is exact division, `1e-3` is 1/1000, and `round` is round-half-to-even on the exact product, so binary floating-point error is not modelled.
- Helpers imported but not defined in the client file (`consume_u16`, `consume_u32`, `consume_i16`, `consume_u8_couple`, `consume_string`, `consume_ip_address`, `consume_time`, `consume_date`):
  - the first two are the defined `*_from_registers` forms;
  - `consume_i16` is the two's-complement reading of one word;
  - `consume_u8_couple` is the one-word byte pair `consume_u8_couple_from_registers`, as written, which is how the history decode splits month/day and hour/minute;
  - the other four consume only their register widths, kept as raw words (no string, IP address, date or time meaning);
  - `datetime` and `IPv4Address` construction and validation are left out, so a history timestamp is kept as the six fields passed to `datetime`.
- Broken call paths:
  - `MonitoringState._consume` is called without `units`; the model takes `units` as a parameter of the decode;
  - `OperationMode._consume` is modelled as `OperationMode(word)`;
  - `_common_factor` is modelled as `common_factor`.
- `ConfigurationFlags` bits 5–15: `~flag` is the plain complement over the 16 bits of the word. The properties are stated for the five defined bits 0–4, because Python's `IntFlag` inversion of undefined bits differs between versions.
- Services.MaybeSetBit: stated on bits 0–4 only, for the reason above.
- `AirQualitySensorType` in monitoring.py has no caller in the decoder, so it is not modelled.
- The device registry lookup, the schemas, logging and service registration in services.py are not modelled. A device's failure is modelled as its error result, and the loop carries on with the next device.
- The `reset_active_alarms` service: its per-device step is `Alarms.Alarms.ResetActive`, and its loop is the same as the other services' loops.
- Services.SetSpecialModeConfig: requires the targeted devices to be distinct objects. `coordinators_in_call` (services.py:35-45) yields one client per config entry of each device id, so two ids of one entry reach the same client twice; that case is not covered. A second visit writes the same word again (`Services.ApplyControlsIdempotent`).
- Services.SetSetpointTemperature: requires distinct devices, so a client reached twice is not covered (a second visit writes the same words again), and states the new registers of each device, not the requests each sends.
- Services.SetSupplyFlow: requires distinct devices, so a client reached twice is not covered (a second visit writes the same words again), and states the new registers of each device, not the requests each sends.
- Services.SetExtractFlow: requires distinct devices, so a client reached twice is not covered (a second visit writes the same words again), and states the new registers of each device, not the requests each sends.
- Modes.ConsumeModeState: a slot's only failure is running out of words, so the five or six consumers are checked by one length test.
- Request chunking: `read_many_u16` sends one request, and the model's readers do the same. The chunked read appears only as the corrected half of two findings (`Client.Client.ReadManyChunked`, `Alarms.Alarms.ReadHistoryChunked`).
- api/service.py (the firmware-version read), the Home Assistant entities and the tests are not part of this model.

## Findings

| source | as written | input that shows it | evidently intended | confidence | as-written member | corrected member |
|---|---|---|---|---|---|---|
| custom_components/komfovent_c5/api/client.py:87-88 | `consume_u8_couple_from_register` returns the high byte unshifted (`register & 0xFF00`) | `write_u8_couple(a, 2, 1)` stores 0x0102, which reads back as (2, 256) instead of (2, 1). With the history decode's `consume_u8_couple` taken as `consume_u8_couple_from_registers` (see Left out), the day and the minute of a history entry come out as 0 or multiples of 256, so `datetime` rejects every entry (Alarms.HistoryDayNeverCalendar) | the high byte shifted down, `(register >> 8) & 0xFF`, so that reading back a written pair gives the pair | not executed | Client.U8CoupleReadBackScaled | Client.U8CoupleRoundTrip |
| custom_components/komfovent_c5/api/modes.py:266-270 | the nominal exhaust pressure getter and setter address register 129 (`REG_VAV_SENSORS_RANGE`) | `set_nominal_exhaust_pressure(500)` changes the VAV sensors range to 500, and the next block read still shows the old exhaust pressure | register 131 (`REG_NOMINAL_EXHAUST_PRESSURE`) | not executed | Modes.ExhaustPressureWriteMisplaced | Modes.ExhaustPressureWriteRoundTrip |
| custom_components/komfovent_c5/api/monitoring.py:83-88 | `read_all` requests 224 registers from 1999 in one request | any device: 224 > 125, the Read Holding Registers limit | a request of the 13 registers `_consume` decodes (a chunked read, Client.Client.ReadManyChunked, would also do) | not executed | Monitoring.ReadAllSpanRefused | Monitoring.Monitoring.ReadDecodedSpan |
| custom_components/komfovent_c5/api/alarms.py:100-107 | `read_history` accepts up to 50 entries but reads all 5·count registers in one request | a history count of 26: 130 registers in one request, above 125, so the read always fails | a read split into requests of at most 125 registers, the limit of section 6.3 of the MODBUS Application Protocol Specification V1.1b3 | not executed | Alarms.LongHistoryRefused | Alarms.Alarms.ReadHistoryChunked |
