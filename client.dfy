/** The register primitives of the Modbus client: cursor consumers that turn 16-bit
    holding-register words into integers, the word packings used by the writers, and
    the client itself, modelled over an abstract store of holding registers. */
module Client {
  import opened Results

  /** Number of distinct 16-bit words. */
  const WORD_SPAN := 0x1_0000
  /** Number of distinct 32-bit values. */
  const U32_SPAN := 0x1_0000_0000

  /** Largest quantity a Read Holding Registers request may ask for
      (section 6.3 of the MODBUS Application Protocol Specification V1.1b3). */
  const MAX_READ_QUANTITY := 125
  /** Largest quantity a Write Multiple Registers request may carry (section 6.12). */
  const MAX_WRITE_QUANTITY := 123

  /** The word whose writing to a control register triggers a device-side action
      (resetting active alarms, starting VAV calibration). */
  const ACTION_TRIGGER := 0x99C5

  predicate IsWord(w: int) {
    0 <= w < WORD_SPAN
  }

  predicate AreWords(s: seq<int>) {
    forall i :: 0 <= i < |s| ==> IsWord(s[i])
  }

  /** `x & 0xFFFF` on Python's unbounded two's-complement integers. */
  function Mask16(x: int): (r: int)
    ensures IsWord(r)
    ensures IsWord(x) ==> r == x
    ensures (x - r) % WORD_SPAN == 0
  {
    x % WORD_SPAN
  }

  // ---------------------------------------------------------------------------
  // Cursor consumers. Python advances an iterator with `next`; here each consumer
  // takes the remaining words and hands back the value with the words after it.
  // ---------------------------------------------------------------------------

  /** `consume_u16_from_registers`: the next word; StopIteration when none is left. */
  function ConsumeU16(regs: seq<int>): (r: Result<Consumed<int>>)
    ensures Advances(r, regs, 1)
    ensures r.Ok? <==> 1 <= |regs|
    ensures r.Ok? ==> r.value.value == regs[0]
  {
    if |regs| == 0 then Err(Exhausted) else Ok(Consumed(regs[0], regs[1..]))
  }

  /** `consume_u32_from_registers`: two words, high word first,
      combined as `((hi << 16) & 0xFFFF0000) | (lo & 0xFFFF)`. */
  function ConsumeU32(regs: seq<int>): (r: Result<Consumed<int>>)
    ensures Advances(r, regs, 2)
    ensures r.Ok? <==> 2 <= |regs|
    ensures r.Ok? ==> 0 <= r.value.value < U32_SPAN
    ensures r.Ok? ==> r.value.value == U32Of(regs[0], regs[1])
  {
    var hi :- ConsumeU16(regs);
    var lo :- ConsumeU16(hi.rest);
    Ok(Consumed(U32Of(hi.value, lo.value), lo.rest))
  }

  /** `((hi << 16) & 0xFFFF0000) | (lo & 0xFFFF)`: the 32-bit value whose high word is `hi`'s low
      16 bits and whose low word is `lo`'s. */
  function U32Of(hi: int, lo: int): (v: int)
    ensures 0 <= v < U32_SPAN
    ensures v / WORD_SPAN == Mask16(hi) && v % WORD_SPAN == Mask16(lo)
  {
    Mask16(hi) * WORD_SPAN + Mask16(lo)
  }

  /** Two's-complement reading of the low 16 bits of `w`. */
  function ToSigned16(w: int): (s: int)
    ensures -0x8000 <= s < 0x8000
    ensures (s - w) % WORD_SPAN == 0
  {
    var u := Mask16(w);
    if u >= 0x8000 then u - WORD_SPAN else u
  }

  /** A signed 16-bit reading of the next word (the `consume_i16` of the monitoring block). */
  function ConsumeI16(regs: seq<int>): (r: Result<Consumed<int>>)
    ensures Advances(r, regs, 1)
    ensures r.Ok? <==> 1 <= |regs|
    ensures r.Ok? ==> -0x8000 <= r.value.value < 0x8000
    ensures r.Ok? ==> (r.value.value - regs[0]) % WORD_SPAN == 0
  {
    var w :- ConsumeU16(regs);
    Ok(Consumed(ToSigned16(w.value), w.rest))
  }

  /** The next `n` words, kept raw. Stands for the consumers whose only known property is
      their register width (strings, IPv4 addresses, time and date groups). */
  function ConsumeWords(regs: seq<int>, n: nat): (r: Result<Consumed<seq<int>>>)
    ensures Advances(r, regs, n)
    ensures r.Ok? <==> n <= |regs|
    ensures r.Ok? ==> r.value.value == regs[..n]
  {
    if |regs| < n then Err(Exhausted) else Ok(Consumed(regs[..n], regs[n..]))
  }

  /** `consume_u8_couple_from_register`: `(register & 0x00FF, register & 0xFF00)`.
      The low byte comes first; the high byte is left in place, not shifted down. */
  function U8CoupleOf(register: int): (r: (int, int))
    ensures 0 <= r.0 < 0x100
    ensures 0 <= r.1 <= 0xFF00 && r.1 % 0x100 == 0
    ensures r.0 + r.1 == Mask16(register)
  {
    DivModWord(register);
    (register % 0x100, register / 0x100 % 0x100 * 0x100)
  }

  lemma {:induction false} DivModWord(v: int)
    ensures v / 0x100 % 0x100 * 0x100 + v % 0x100 == v % WORD_SPAN
  {
    var q := v / 0x100;
    assert v == q * 0x100 + v % 0x100;
    assert q == q / 0x100 * 0x100 + q % 0x100;
    assert v == (q / 0x100) * WORD_SPAN + (q % 0x100 * 0x100 + v % 0x100);
    assert 0 <= q % 0x100 * 0x100 + v % 0x100 < WORD_SPAN;
  }

  /** `consume_u8_couple_from_registers`: one word, split by `U8CoupleOf`. */
  function ConsumeU8Couple(regs: seq<int>): (r: Result<Consumed<(int, int)>>)
    ensures Advances(r, regs, 1)
    ensures r.Ok? <==> 1 <= |regs|
    ensures r.Ok? ==> r.value.value.0 + r.value.value.1 == Mask16(regs[0])
    ensures r.Ok? ==> r.value.value == U8CoupleOf(regs[0])
  {
    var w :- ConsumeU16(regs);
    Ok(Consumed(U8CoupleOf(w.value), w.rest))
  }

  // ---------------------------------------------------------------------------
  // Word packings of the writers
  // ---------------------------------------------------------------------------

  /** The two words `write_u32` sends, high word first:
      `((value & 0xFFFF0000) >> 16, value & 0x0000FFFF)`. */
  function U32Words(value: int): (ws: seq<int>)
    ensures |ws| == 2 && AreWords(ws)
  {
    [value / WORD_SPAN % WORD_SPAN, Mask16(value)]
  }

  /** The word `write_u8_couple` sends: `((hi << 8) & 0xFF00) | (lo & 0x00FF)`. */
  function PackU8Couple(lo: int, hi: int): (w: int)
    ensures IsWord(w)
    ensures w % 0x100 == lo % 0x100
    ensures w / 0x100 == hi % 0x100
  {
    hi % 0x100 * 0x100 + lo % 0x100
  }

  lemma {:induction false} DivModU32(v: int)
    ensures v / WORD_SPAN % WORD_SPAN * WORD_SPAN + v % WORD_SPAN == v % U32_SPAN
  {
    var q := v / WORD_SPAN;
    var m := v % U32_SPAN;
    assert v == q * WORD_SPAN + v % WORD_SPAN;
    assert q == q / WORD_SPAN * WORD_SPAN + q % WORD_SPAN;
    assert v == (q / WORD_SPAN) * U32_SPAN + (q % WORD_SPAN * WORD_SPAN + v % WORD_SPAN);
    assert 0 <= q % WORD_SPAN * WORD_SPAN + v % WORD_SPAN < U32_SPAN;
  }

  /** Sending `value` as `write_u32` does and reading it back with `consume_u32_from_registers`
      gives the value truncated to 32 bits; in particular every 32-bit value comes back unchanged. */
  lemma {:induction false} U32RoundTrip(value: int, rest: seq<int>)
    ensures ConsumeU32(U32Words(value) + rest) == Ok(Consumed(value % U32_SPAN, rest))
    ensures 0 <= value < U32_SPAN ==> ConsumeU32(U32Words(value) + rest) == Ok(Consumed(value, rest))
  {
    var ws := U32Words(value) + rest;
    assert ws[1..][1..] == rest;
    DivModU32(value);
  }

  /** The word `write_u32` puts first is the high half, the second the low half. */
  lemma {:induction false} U32WordsSplit(value: int)
    requires 0 <= value < U32_SPAN
    ensures U32Words(value)[0] * WORD_SPAN + U32Words(value)[1] == value
  {
    DivModU32(value);
  }

  /** A 16-bit word sent by `write_u16` and consumed again is the word itself. */
  lemma {:induction false} U16RoundTrip(value: int, rest: seq<int>)
    ensures ConsumeU16([Mask16(value)] + rest) == Ok(Consumed(Mask16(value), rest))
    ensures IsWord(value) ==> ConsumeU16([Mask16(value)] + rest) == Ok(Consumed(value, rest))
  {
    assert ([Mask16(value)] + rest)[1..] == rest;
  }

  /** As written, a byte pair packed by `write_u8_couple` and read back by
      `consume_u8_couple_from_register` returns its high byte multiplied by 256. */
  lemma {:induction false} U8CoupleReadBackScaled(lo: int, hi: int)
    ensures U8CoupleOf(PackU8Couple(lo, hi)) == (lo % 0x100, hi % 0x100 * 0x100)
    ensures hi % 0x100 != 0 ==> U8CoupleOf(PackU8Couple(lo, hi)) != (lo % 0x100, hi % 0x100)
  {
    var w := PackU8Couple(lo, hi);
    assert w / 0x100 % 0x100 == hi % 0x100;
  }

  /** The byte split a reader of `write_u8_couple` needs: the low byte and the high byte
      shifted down. */
  function U8CoupleOfShifted(register: int): (r: (int, int))
    ensures 0 <= r.0 < 0x100 && 0 <= r.1 < 0x100
    ensures r.1 * 0x100 + r.0 == Mask16(register)
  {
    DivModWord(register);
    (register % 0x100, register / 0x100 % 0x100)
  }

  /** With the shifted split, packing then unpacking returns both bytes. */
  lemma {:induction false} U8CoupleRoundTrip(lo: int, hi: int)
    ensures U8CoupleOfShifted(PackU8Couple(lo, hi)) == (lo % 0x100, hi % 0x100)
  {
    var w := PackU8Couple(lo, hi);
    assert w / 0x100 % 0x100 == hi % 0x100;
  }

  // ---------------------------------------------------------------------------
  // The device: a store of holding registers reached by three Modbus requests
  // ---------------------------------------------------------------------------

  datatype Request =
    | ReadHoldingRegisters(address: int, count: int)
    | WriteSingleRegister(address: int, value: int)
    | WriteMultipleRegisters(address: int, values: seq<int>)

  /** Every address in `[address, address + count)` is a register the device holds. */
  predicate Holds(holding: map<int, int>, address: int, count: int) {
    forall a :: address <= a < address + count ==> a in holding
  }

  /** The device answers a Read Holding Registers request for `count` words at `address`. */
  predicate Answers(holding: map<int, int>, address: int, count: int) {
    1 <= count <= MAX_READ_QUANTITY && Holds(holding, address, count)
  }

  /** The words at `[address, address + count)`, in address order. */
  function Window(holding: map<int, int>, address: int, count: nat): (r: seq<int>)
    requires Holds(holding, address, count)
    ensures |r| == count
    ensures forall i :: 0 <= i < count ==> r[i] == holding[address + i]
  {
    seq(count, i requires 0 <= i < count => holding[address + i])
  }

  /** A single write inside a window changes that one word of the window and no other. */
  lemma {:induction false} WindowAfterWrite(holding: map<int, int>, address: int, count: nat, k: int, x: int)
    requires Holds(holding, address, count) && 0 <= k < count
    ensures Holds(holding[address + k := x], address, count)
    ensures Window(holding[address + k := x], address, count) == Window(holding, address, count)[k := x]
  {
    var h := holding[address + k := x];
    assert Holds(h, address, count);
    assert forall i :: 0 <= i < count ==> Window(h, address, count)[i] == Window(holding, address, count)[k := x][i];
  }

  /** `holding` with `values` stored from `address` on. */
  function Overwrite(holding: map<int, int>, address: int, values: seq<int>): (h: map<int, int>)
    requires Holds(holding, address, |values|)
    ensures h.Keys == holding.Keys
    ensures forall a :: a in h && address <= a < address + |values| ==> h[a] == values[a - address]
    ensures forall a :: a in h && !(address <= a < address + |values|) ==> h[a] == holding[a]
  {
    map a | a in holding :: if address <= a < address + |values| then values[a - address] else holding[a]
  }

  /** The Modbus client bound to one device (`api/client.py`'s `Client`). The device's holding
      registers are `holding`; an address outside its key set is one the device refuses.
      `requests` records every request put on the wire, in order. */
  class Client {
    var holding: map<int, int>
    ghost var requests: seq<Request>

    ghost predicate Valid()
      reads this
    {
      forall a :: a in holding ==> 0 <= a < WORD_SPAN && IsWord(holding[a])
    }

    constructor (holding: map<int, int>)
      requires forall a :: a in holding ==> 0 <= a < WORD_SPAN && IsWord(holding[a])
      ensures Valid()
      ensures this.holding == holding && requests == []
    {
      this.holding := holding;
      requests := [];
    }

    /** The device's answer to Read Holding Registers (section 6.3): an exception response
        unless the quantity is 1 to 125 and every address is held. */
    method ReadHoldingRegisters(address: int, count: int) returns (r: Result<seq<int>>)
      modifies this`requests
      ensures requests == old(requests) + [Request.ReadHoldingRegisters(address, count)]
      ensures r.Ok? <==> Answers(holding, address, count)
      ensures r.Err? ==> r.error == ErrorResponse
      ensures r.Ok? ==> r.value == Window(holding, address, count)
    {
      requests := requests + [Request.ReadHoldingRegisters(address, count)];
      if Answers(holding, address, count) {
        r := Ok(Window(holding, address, count));
      } else {
        r := Err(ErrorResponse);
      }
    }

    /** The device's answer to Write Single Register (section 6.6). */
    method WriteRegister(address: int, value: int) returns (r: Result<()>)
      requires Valid() && IsWord(value)
      modifies this`holding, this`requests
      ensures Valid()
      ensures requests == old(requests) + [WriteSingleRegister(address, value)]
      ensures r.Ok? <==> address in old(holding)
      ensures r.Err? ==> r.error == ErrorResponse
      ensures holding == if r.Ok? then old(holding)[address := value] else old(holding)
    {
      requests := requests + [WriteSingleRegister(address, value)];
      if address in holding {
        holding := holding[address := value];
        r := Ok(());
      } else {
        r := Err(ErrorResponse);
      }
    }

    /** The device's answer to Write Multiple Registers (section 6.12): all words or none. */
    method WriteRegisters(address: int, values: seq<int>) returns (r: Result<()>)
      requires Valid() && AreWords(values)
      modifies this`holding, this`requests
      ensures Valid()
      ensures requests == old(requests) + [WriteMultipleRegisters(address, values)]
      ensures r.Ok? <==> 1 <= |values| <= MAX_WRITE_QUANTITY && Holds(old(holding), address, |values|)
      ensures r.Err? ==> r.error == ErrorResponse
      ensures holding == if r.Ok? then Overwrite(old(holding), address, values) else old(holding)
    {
      requests := requests + [WriteMultipleRegisters(address, values)];
      if 1 <= |values| <= MAX_WRITE_QUANTITY && Holds(holding, address, |values|) {
        holding := Overwrite(holding, address, values);
        r := Ok(());
      } else {
        r := Err(ErrorResponse);
      }
    }

    /** `read_u16`: one request for exactly one register; fails on an error response. */
    method ReadU16(address: int) returns (r: Result<int>)
      modifies this`requests
      ensures requests == old(requests) + [Request.ReadHoldingRegisters(address, 1)]
      ensures r.Ok? <==> address in holding
      ensures r.Err? ==> r.error == ErrorResponse
      ensures r.Ok? ==> r.value == holding[address]
    {
      var rr := ReadHoldingRegisters(address, 1);
      if rr.Err? {
        return Err(rr.error);
      }
      r := Ok(rr.value[0]);
    }

    /** `write_u16`: one Write Single Register request carrying `value & 0xFFFF`;
        only that register changes. */
    method WriteU16(address: int, value: int) returns (r: Result<()>)
      requires Valid()
      modifies this`holding, this`requests
      ensures Valid()
      ensures requests == old(requests) + [WriteSingleRegister(address, Mask16(value))]
      ensures r.Ok? <==> address in old(holding)
      ensures r.Err? ==> r.error == ErrorResponse
      ensures holding == if r.Ok? then old(holding)[address := Mask16(value)] else old(holding)
    {
      r := WriteRegister(address, Mask16(value));
    }

    /** `read_u8_couple`: one register split by `U8CoupleOf`. */
    method ReadU8Couple(address: int) returns (r: Result<(int, int)>)
      modifies this`requests
      ensures requests == old(requests) + [Request.ReadHoldingRegisters(address, 1)]
      ensures r.Ok? <==> address in holding
      ensures r.Err? ==> r.error == ErrorResponse
      ensures r.Ok? ==> r.value == U8CoupleOf(holding[address])
    {
      var w := ReadU16(address);
      if w.Err? {
        return Err(w.error);
      }
      r := Ok(U8CoupleOf(w.value));
    }

    /** `write_u8_couple`: the packed byte pair as one `write_u16`. */
    method WriteU8Couple(address: int, lo: int, hi: int) returns (r: Result<()>)
      requires Valid()
      modifies this`holding, this`requests
      ensures Valid()
      ensures requests == old(requests) + [WriteSingleRegister(address, PackU8Couple(lo, hi))]
      ensures r.Ok? <==> address in old(holding)
      ensures r.Err? ==> r.error == ErrorResponse
      ensures holding == if r.Ok? then old(holding)[address := PackU8Couple(lo, hi)] else old(holding)
    {
      r := WriteU16(address, PackU8Couple(lo, hi));
    }

    /** `read_u32`: one request for exactly two registers, high word first. */
    method ReadU32(address: int) returns (r: Result<int>)
      requires Valid()
      modifies this`requests
      ensures requests == old(requests) + [Request.ReadHoldingRegisters(address, 2)]
      ensures r.Ok? <==> address in holding && address + 1 in holding
      ensures r.Err? ==> r.error == ErrorResponse
      ensures r.Ok? ==> r.value == holding[address] * WORD_SPAN + holding[address + 1]
    {
      var rr := ReadHoldingRegisters(address, 2);
      if rr.Err? {
        return Err(rr.error);
      }
      var c := ConsumeU32(rr.value);
      r := Ok(c.value.value);
    }

    /** `write_u32`: one Write Multiple Registers request with the two words of `U32Words`;
        exactly the registers `address` and `address + 1` change. */
    method WriteU32(address: int, value: int) returns (r: Result<()>)
      requires Valid()
      modifies this`holding, this`requests
      ensures Valid()
      ensures requests == old(requests) + [WriteMultipleRegisters(address, U32Words(value))]
      ensures r.Ok? <==> address in old(holding) && address + 1 in old(holding)
      ensures r.Err? ==> r.error == ErrorResponse
      ensures holding == if r.Ok?
                         then old(holding)[address := U32Words(value)[0]][address + 1 := U32Words(value)[1]]
                         else old(holding)
    {
      var ws := U32Words(value);
      r := WriteRegisters(address, ws);
      assert Holds(old(holding), address, 2) <==> address in old(holding) && address + 1 in old(holding);
      if r.Ok? {
        assert holding == old(holding)[address := ws[0]][address + 1 := ws[1]];
      }
    }

    /** `read_many_u16`: exactly `count` registers in a single request, never split. */
    method ReadManyU16(address: int, count: int) returns (r: Result<seq<int>>)
      modifies this`requests
      ensures requests == old(requests) + [Request.ReadHoldingRegisters(address, count)]
      ensures r.Ok? <==> Answers(holding, address, count)
      ensures r.Err? ==> r.error == ErrorResponse
      ensures r.Ok? ==> r.value == Window(holding, address, count)
    {
      r := ReadHoldingRegisters(address, count);
    }

    /** A `read_many_u16` within the Read Holding Registers limit (section 6.3 of the MODBUS
        Application Protocol Specification V1.1b3): requests of at most 125 registers, one
        after another, joined in address order. Unlike the single request,
        it reads any number of held registers. */
    method ReadManyChunked(address: int, count: nat) returns (r: Result<seq<int>>)
      modifies this`requests
      ensures |old(requests)| <= |requests| && requests[..|old(requests)|] == old(requests)
      ensures forall q :: q in requests[|old(requests)|..] ==>
        q.ReadHoldingRegisters? && 1 <= q.count <= MAX_READ_QUANTITY
      ensures r.Ok? <==> Holds(holding, address, count)
      ensures r.Err? ==> r.error == ErrorResponse
      ensures r.Ok? ==> r.value == Window(holding, address, count)
    {
      var words: seq<int> := [];
      var done := 0;
      while done < count
        invariant 0 <= done <= count
        invariant |old(requests)| <= |requests| && requests[..|old(requests)|] == old(requests)
        invariant forall q :: q in requests[|old(requests)|..] ==>
          q.ReadHoldingRegisters? && 1 <= q.count <= MAX_READ_QUANTITY
        invariant Holds(holding, address, done) && words == Window(holding, address, done)
        decreases count - done
      {
        var n := if count - done < MAX_READ_QUANTITY then count - done else MAX_READ_QUANTITY;
        ghost var before := requests;
        var chunk := ReadHoldingRegisters(address + done, n);
        assert requests[|old(requests)|..] == before[|old(requests)|..] + [Request.ReadHoldingRegisters(address + done, n)];
        if chunk.Err? {
          return Err(ErrorResponse);
        }
        words := words + chunk.value;
        done := done + n;
      }
      r := Ok(words);
    }
  }
}
