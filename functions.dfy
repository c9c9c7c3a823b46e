/** The functions block: the air-quality control words at 500..503, which are read and
    discarded, and the OCV switch at 504. */
module Functions {
  import opened Results
  import opened Client

  const REG_AQC_SETPOINT1 := 500
  const REG_OCV_STATE := 504

  /** Words `consume_from_registers` takes: four AQC words, then the OCV word. */
  const FUNCTIONS_WORDS := 5

  /** `read_all`'s span: registers 500 through 504. */
  const READ_ALL_COUNT := (REG_OCV_STATE - REG_AQC_SETPOINT1) + 1

  /** `FunctionsState`: the OCV word as read, not coerced to a boolean. */
  datatype FunctionsState = FunctionsState(ocvEnabled: int)

  /** `FunctionsState.consume_from_registers`: five words, of which only the last is kept. */
  function ConsumeFunctionsState(regs: seq<int>): (r: Result<Consumed<FunctionsState>>)
    ensures Advances(r, regs, FUNCTIONS_WORDS)
    ensures r.Ok? <==> FUNCTIONS_WORDS <= |regs|
    ensures r.Ok? ==> r.value.value.ocvEnabled == regs[REG_OCV_STATE - REG_AQC_SETPOINT1]
  {
    var aqcSetpoint1 :- ConsumeU16(regs);
    var aqcMode1 :- ConsumeU16(aqcSetpoint1.rest);
    var aqcSetpoint2 :- ConsumeU16(aqcMode1.rest);
    var aqcMode2 :- ConsumeU16(aqcSetpoint2.rest);
    var ocvEnabled :- ConsumeU16(aqcMode2.rest);
    Ok(Consumed(FunctionsState(ocvEnabled.value), ocvEnabled.rest))
  }

  /** The four AQC words do not influence the decoded state. */
  lemma {:induction false} AqcWordsDiscarded(regs: seq<int>, other: seq<int>)
    requires |regs| == |other| == FUNCTIONS_WORDS
    requires regs[REG_OCV_STATE - REG_AQC_SETPOINT1] == other[REG_OCV_STATE - REG_AQC_SETPOINT1]
    ensures ConsumeFunctionsState(regs) == ConsumeFunctionsState(other)
  {
    assert regs[FUNCTIONS_WORDS..] == other[FUNCTIONS_WORDS..];
  }

  /** The word `set_ocv_enabled` writes: `int(enabled)`. */
  function OcvWord(enabled: bool): (w: int)
    ensures IsWord(w)
    ensures w != 0 <==> enabled
  {
    if enabled then 1 else 0
  }

  /** Switching OCV and reading the block back gives `int(enabled)`. */
  lemma {:induction false} OcvRoundTrip(holding: map<int, int>, enabled: bool)
    requires Holds(holding, REG_AQC_SETPOINT1, READ_ALL_COUNT)
    ensures var h := holding[REG_OCV_STATE := OcvWord(enabled)];
      && Holds(h, REG_AQC_SETPOINT1, READ_ALL_COUNT)
      && ConsumeFunctionsState(Window(h, REG_AQC_SETPOINT1, READ_ALL_COUNT))
           == Ok(Consumed(FunctionsState(OcvWord(enabled)), []))
  {
    var h := holding[REG_OCV_STATE := OcvWord(enabled)];
    var regs := Window(h, REG_AQC_SETPOINT1, READ_ALL_COUNT);
    assert regs[REG_OCV_STATE - REG_AQC_SETPOINT1] == OcvWord(enabled);
    assert regs[FUNCTIONS_WORDS..] == [];
  }

  /** `Functions`: the functions block of one device. */
  class Functions {
    const client: Client

    constructor (client: Client)
      ensures this.client == client
    {
      this.client := client;
    }

    /** `read_all`: registers 500..504 in one request, decoded with nothing left over. */
    method ReadAll() returns (r: Result<FunctionsState>)
      modifies client`requests
      ensures client.requests == old(client.requests) + [Request.ReadHoldingRegisters(REG_AQC_SETPOINT1, READ_ALL_COUNT)]
      ensures r.Ok? <==> Holds(client.holding, REG_AQC_SETPOINT1, READ_ALL_COUNT)
      ensures r.Err? ==> r.error == ErrorResponse
      ensures r.Ok? ==> r.value.ocvEnabled == client.holding[REG_OCV_STATE]
      ensures r.Ok? ==> ConsumeFunctionsState(Window(client.holding, REG_AQC_SETPOINT1, READ_ALL_COUNT))
                        == Ok(Consumed(r.value, []))
    {
      var rr := client.ReadManyU16(REG_AQC_SETPOINT1, READ_ALL_COUNT);
      if rr.Err? {
        return Err(rr.error);
      }
      var c := ConsumeFunctionsState(rr.value);
      assert c.value.rest == [];
      r := Ok(c.value.value);
    }

    /** `set_ocv_enabled`: `int(enabled)` written to register 504; nothing else changes. */
    method SetOcvEnabled(enabled: bool) returns (r: Result<()>)
      requires client.Valid()
      modifies client`holding, client`requests
      ensures client.Valid()
      ensures client.requests == old(client.requests) + [WriteSingleRegister(REG_OCV_STATE, OcvWord(enabled))]
      ensures r.Ok? <==> REG_OCV_STATE in old(client.holding)
      ensures r.Err? ==> r.error == ErrorResponse
      ensures client.holding == if r.Ok? then old(client.holding)[REG_OCV_STATE := OcvWord(enabled)]
                                else old(client.holding)
    {
      r := client.WriteU16(REG_OCV_STATE, OcvWord(enabled));
    }
  }
}
