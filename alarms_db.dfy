/** The alarm code database: the "NA"/"NB" code strings shown on the controller and the
    message names of the known alarm codes. */
module AlarmsDb {
  import opened Results

  const MESSAGES: map<int, string> := map[
    1 := "LOW_SUPPLY_AIRFLOW",
    2 := "LOW_EXTRACT_AIRFLOW",
    3 := "VAV_CALIBRATION_FAIL",
    4 := "CHANGE_OUTDOOR_AIR_FILTER",
    5 := "CHANGE_EXTRACT_AIR_FILTER",
    12 := "HIGH_PRESSURE_ON_COMPRESSOR",
    13 := "LOW_PRESSURE_ON_COMPRESSOR",
    14 := "SERVICE_TIME",
    15 := "EVAPORATOR_ICING",
    16 := "COMPRESSOR_FAILURE",
    19 := "COMPRESSOR_OFF_AIRFLOW",
    20 := "COMPRESSOR_OFF_TEMPERATURE",
    95 := "LOW_HEAT_EXCHANGER_EFFICIENCY",
    112 := "WATER_PUMP_OR_COIL_ALARM",
    127 := "SERVICE_MODE"
  ]

  const ELECTRIC_HEATER_OFF_MSG := "ELECTRIC_HEATER_OFF"
  const COMPRESSOR_OFF_MALFUNCTION_MSG := "COMPRESSOR_OFF_MALFUNCTION"
  const UNKNOWN_MSG := "UNKNOWN"

  /** Python's `range(6, 12)`: half-open. */
  predicate InElectricHeaterOffRange(code: int) {
    6 <= code < 12
  }

  /** Python's `range(96, 112)`: half-open. */
  predicate InCompressorOffMalfunctionRange(code: int) {
    96 <= code < 112
  }

  // ---------------------------------------------------------------------------
  // Decimal rendering (Python's `f"{n}"` for a non-negative integer)
  // ---------------------------------------------------------------------------

  predicate IsDigit(c: char) {
    '0' <= c <= '9'
  }

  function DigitChar(d: nat): (c: char)
    requires d < 10
    ensures IsDigit(c) && c as int - '0' as int == d
  {
    ('0' as int + d) as char
  }

  function DecimalString(n: nat): (s: string)
    ensures 1 <= |s|
    ensures forall i :: 0 <= i < |s| ==> IsDigit(s[i])
    decreases n
  {
    if n < 10 then [DigitChar(n)] else DecimalString(n / 10) + [DigitChar(n % 10)]
  }

  function ParseDecimal(s: string): nat
    requires forall i :: 0 <= i < |s| ==> IsDigit(s[i])
  {
    if |s| == 0 then 0
    else ParseDecimal(s[..|s| - 1]) * 10 + DigitValue(s[|s| - 1])
  }

  function DigitValue(c: char): (d: nat)
    requires IsDigit(c)
    ensures d < 10
  {
    c as int - '0' as int
  }

  /** Rendering a number in decimal and parsing it back gives the number. */
  lemma {:induction false} DecimalRoundTrip(n: nat)
    ensures ParseDecimal(DecimalString(n)) == n
    decreases n
  {
    var s := DecimalString(n);
    if n >= 10 {
      DecimalRoundTrip(n / 10);
      assert s[..|s| - 1] == DecimalString(n / 10);
    }
  }

  // ---------------------------------------------------------------------------
  // code_str_from_code
  // ---------------------------------------------------------------------------

  /** The number and letter of `code_str_from_code`: after masking to the low byte, a code
      above 0x7F is an "A" alarm numbered `code - 0x7F`, any other a "B" alarm numbered `code`. */
  function AlarmNumber(code: int): (r: (nat, char))
    ensures r.1 == 'A' || r.1 == 'B'
    ensures r.1 == 'A' ==> 1 <= r.0 <= 128
    ensures r.1 == 'B' ==> r.0 <= 127
    ensures (if r.1 == 'A' then r.0 + 0x7F else r.0) == code % 0x100
  {
    var c := code % 0x100;
    if c > 0x7F then (c - 0x7F, 'A') else (c, 'B')
  }

  /** `code_str_from_code`: the decimal number followed by its letter. */
  function CodeStrFromCode(code: int): (s: string)
    ensures 2 <= |s| && (s[|s| - 1] == 'A' || s[|s| - 1] == 'B')
    ensures forall i :: 0 <= i < |s| - 1 ==> IsDigit(s[i])
  {
    var (n, letter) := AlarmNumber(code);
    DecimalString(n) + [letter]
  }

  /** Reads a code string back into the masked code it names, if it names one. */
  function CodeFromCodeStr(s: string): Option<int> {
    if |s| < 2 then None
    else
      var digits, letter := s[..|s| - 1], s[|s| - 1];
      if !(forall i :: 0 <= i < |digits| ==> IsDigit(digits[i])) then None
      else
        var n := ParseDecimal(digits);
        if letter == 'A' && 1 <= n <= 128 then Some(n + 0x7F)
        else if letter == 'B' && n <= 127 then Some(n)
        else None
  }

  /** A code string determines the masked code: reading it back yields `code & 0xFF`,
      so two codes with different low bytes never share a string. */
  lemma {:induction false} CodeStrRoundTrip(code: int)
    ensures CodeFromCodeStr(CodeStrFromCode(code)) == Some(code % 0x100)
  {
    var (n, letter) := AlarmNumber(code);
    var s := CodeStrFromCode(code);
    assert s[..|s| - 1] == DecimalString(n);
    DecimalRoundTrip(n);
  }

  /** Distinct low bytes give distinct code strings. */
  lemma {:induction false} CodeStrInjective(a: int, b: int)
    requires CodeStrFromCode(a) == CodeStrFromCode(b)
    ensures a % 0x100 == b % 0x100
  {
    CodeStrRoundTrip(a);
    CodeStrRoundTrip(b);
  }

  /** The confirmed B-alarm mappings, including 260 = 0x0104, which masks to 4. */
  lemma ConfirmedBCodeStrings()
    ensures CodeStrFromCode(1) == "1B"
    ensures CodeStrFromCode(127) == "127B"
    ensures CodeStrFromCode(260) == "4B"
  {
    assert DecimalString(1) == "1";
    assert DecimalString(12) == "12";
    assert DecimalString(127) == "127";
    assert DecimalString(4) == "4";
    assert AlarmNumber(260) == (4, 'B');
    assert AlarmNumber(127) == (127, 'B');
  }

  /** The confirmed A-alarm mappings: codes above 127 count from 128 = "1A". */
  lemma ConfirmedACodeStrings()
    ensures CodeStrFromCode(132) == "5A"
    ensures CodeStrFromCode(142) == "15A"
    ensures CodeStrFromCode(211) == "84A"
  {
    assert DecimalString(5) == "5";
    assert DecimalString(1) == "1";
    assert DecimalString(15) == "15";
    assert DecimalString(8) == "8";
    assert DecimalString(84) == "84";
    assert AlarmNumber(132) == (5, 'A');
    assert AlarmNumber(142) == (15, 'A');
    assert AlarmNumber(211) == (84, 'A');
  }

  // ---------------------------------------------------------------------------
  // message_for_code
  // ---------------------------------------------------------------------------

  /** `message_for_code`: the table entry of the masked code, else one of the two range
      categories, else "UNKNOWN". Each category's message is returned exactly for the codes
      of that category, so "UNKNOWN" means the masked code is in neither the table nor a
      range. */
  function MessageForCode(code: int): (m: string)
    ensures code % 0x100 in MESSAGES ==> m == MESSAGES[code % 0x100]
    ensures m == ELECTRIC_HEATER_OFF_MSG <==> InElectricHeaterOffRange(code % 0x100)
    ensures m == COMPRESSOR_OFF_MALFUNCTION_MSG <==> InCompressorOffMalfunctionRange(code % 0x100)
    ensures m == UNKNOWN_MSG <==>
      (code % 0x100 !in MESSAGES && !InElectricHeaterOffRange(code % 0x100) && !InCompressorOffMalfunctionRange(code % 0x100))
  {
    var fixed := {ELECTRIC_HEATER_OFF_MSG, COMPRESSOR_OFF_MALFUNCTION_MSG, UNKNOWN_MSG};
    assert forall k :: k in MESSAGES ==> MESSAGES[k] !in fixed;
    assert ELECTRIC_HEATER_OFF_MSG != COMPRESSOR_OFF_MALFUNCTION_MSG;
    assert ELECTRIC_HEATER_OFF_MSG != UNKNOWN_MSG && COMPRESSOR_OFF_MALFUNCTION_MSG != UNKNOWN_MSG;
    var c := code % 0x100;
    if c in MESSAGES then MESSAGES[c]
    else if InElectricHeaterOffRange(c) then ELECTRIC_HEATER_OFF_MSG
    else if InCompressorOffMalfunctionRange(c) then COMPRESSOR_OFF_MALFUNCTION_MSG
    else UNKNOWN_MSG
  }

  /** The table keys and the two ranges are pairwise disjoint, and the codes bordering the
      ranges (5, 12, 95, 112) are table entries. */
  lemma MessageSourcesDisjoint()
    ensures forall k :: k in MESSAGES ==> !InElectricHeaterOffRange(k) && !InCompressorOffMalfunctionRange(k)
    ensures forall k :: InElectricHeaterOffRange(k) ==> !InCompressorOffMalfunctionRange(k)
    ensures 5 in MESSAGES && 12 in MESSAGES && 95 in MESSAGES && 112 in MESSAGES
  {
  }

  /** `message_for_code` is total and lands in the table's values or one of the three fixed
      messages. */
  lemma {:induction false} MessageForCodeTotal(code: int)
    ensures var m := MessageForCode(code);
      m in MESSAGES.Values || m == ELECTRIC_HEATER_OFF_MSG || m == COMPRESSOR_OFF_MALFUNCTION_MSG || m == UNKNOWN_MSG
  {
    var c := code % 0x100;
    if c in MESSAGES {
      assert MESSAGES[c] in MESSAGES.Values;
    }
  }

  /** Sample lookups: a table entry, the same entry through a high byte, both ranges at their
      ends, and a code in no category. */
  lemma MessageExamples()
    ensures MessageForCode(4) == "CHANGE_OUTDOOR_AIR_FILTER"
    ensures MessageForCode(260) == "CHANGE_OUTDOOR_AIR_FILTER"
    ensures MessageForCode(6) == ELECTRIC_HEATER_OFF_MSG && MessageForCode(11) == ELECTRIC_HEATER_OFF_MSG
    ensures MessageForCode(96) == COMPRESSOR_OFF_MALFUNCTION_MSG && MessageForCode(111) == COMPRESSOR_OFF_MALFUNCTION_MSG
    ensures MessageForCode(200) == UNKNOWN_MSG
  {
  }
}
