/** The service logic behind the integration's actions: the special-mode configuration
    read-modify-write and the mode default of the setpoint and flow setters, applied to every
    targeted device in turn, with a failure on one device leaving the others to proceed. */
module Services {
  import opened Results
  import opened Client
  import opened Modes

  // ---------------------------------------------------------------------------
  // Configuration flags, as the sixteen bits of the configuration word
  // ---------------------------------------------------------------------------

  /** `a | b`, bit by bit. */
  function Or(a: seq<bool>, b: seq<bool>): (r: seq<bool>)
    requires |a| == |b|
    ensures |r| == |a|
    ensures forall i :: 0 <= i < |a| ==> (r[i] <==> a[i] || b[i])
  {
    seq(|a|, i requires 0 <= i < |a| => a[i] || b[i])
  }

  /** `a & ~b`, bit by bit. */
  function AndNot(a: seq<bool>, b: seq<bool>): (r: seq<bool>)
    requires |a| == |b|
    ensures |r| == |a|
    ensures forall i :: 0 <= i < |a| ==> (r[i] <==> a[i] && !b[i])
  {
    seq(|a|, i requires 0 <= i < |a| => a[i] && !b[i])
  }

  /** What a defined bit under a flag becomes: the control when given, else the old bit. */
  predicate FlagAfter(old_: bool, control: Option<bool>) {
    if control.Some? then control.value else old_
  }

  /** `maybe_set_bit`: a true control ORs the flag in, a false one clears it, a missing one
      leaves the flags as they are. On the defined bits 0..4, the bits under the flag take
      the control and every other bit keeps its value. */
  function MaybeSetBit(flags: seq<bool>, flag: seq<bool>, control: Option<bool>): (r: seq<bool>)
    requires |flags| == |flag|
    ensures |r| == |flags|
    ensures control.None? ==> r == flags
    ensures forall i :: 0 <= i < FLAG_BITS && i < |flags| && flag[i] ==> (r[i] <==> FlagAfter(flags[i], control))
    ensures forall i :: 0 <= i < FLAG_BITS && i < |flags| && !flag[i] ==> r[i] == flags[i]
  {
    match control
    case Some(true) => Or(flags, flag)
    case Some(false) => AndNot(flags, flag)
    case None => flags
  }

  /** The five controls of `set_special_mode_config`; `None` leaves a flag as it is. */
  datatype Controls = Controls(
    dehumidifying: Option<bool>,
    humidifying: Option<bool>,
    recirculation: Option<bool>,
    cooling: Option<bool>,
    heating: Option<bool>)

  /** The five `maybe_set_bit` steps, in the order `set_special_mode_config` applies them. */
  function ApplyControls(flags: seq<bool>, c: Controls): (r: seq<bool>)
    requires |flags| == WORD_BITS
    ensures |r| == WORD_BITS
  {
    var f1 := MaybeSetBit(flags, FlagMask(DEHUMIDIFYING), c.dehumidifying);
    var f2 := MaybeSetBit(f1, FlagMask(HUMIDIFYING), c.humidifying);
    var f3 := MaybeSetBit(f2, FlagMask(RECIRCULATION), c.recirculation);
    var f4 := MaybeSetBit(f3, FlagMask(COOLING), c.cooling);
    MaybeSetBit(f4, FlagMask(HEATING), c.heating)
  }

  /** Each flag ends up as its control says, or as it was when its control is missing, so a
      flag the caller leaves out keeps the device's value. */
  lemma {:induction false} ApplyControlsPerFlag(flags: seq<bool>, c: Controls)
    requires |flags| == WORD_BITS
    ensures var r := ApplyControls(flags, c);
      && (r[DEHUMIDIFYING] <==> FlagAfter(flags[DEHUMIDIFYING], c.dehumidifying))
      && (r[HUMIDIFYING] <==> FlagAfter(flags[HUMIDIFYING], c.humidifying))
      && (r[RECIRCULATION] <==> FlagAfter(flags[RECIRCULATION], c.recirculation))
      && (r[COOLING] <==> FlagAfter(flags[COOLING], c.cooling))
      && (r[HEATING] <==> FlagAfter(flags[HEATING], c.heating))
  {
  }

  /** Two `maybe_set_bit` steps on disjoint flags commute. */
  lemma {:induction false} MaybeSetBitCommutes(flags: seq<bool>, f: seq<bool>, cf: Option<bool>, g: seq<bool>, cg: Option<bool>)
    requires |flags| == |f| == |g|
    requires forall i :: 0 <= i < |f| ==> !(f[i] && g[i])
    ensures MaybeSetBit(MaybeSetBit(flags, f, cf), g, cg) == MaybeSetBit(MaybeSetBit(flags, g, cg), f, cf)
  {
  }

  /** The five steps in the opposite order: heating first, dehumidifying last. */
  function ApplyControlsReversed(flags: seq<bool>, c: Controls): (r: seq<bool>)
    requires |flags| == WORD_BITS
    ensures |r| == WORD_BITS
  {
    var f1 := MaybeSetBit(flags, FlagMask(HEATING), c.heating);
    var f2 := MaybeSetBit(f1, FlagMask(COOLING), c.cooling);
    var f3 := MaybeSetBit(f2, FlagMask(RECIRCULATION), c.recirculation);
    var f4 := MaybeSetBit(f3, FlagMask(HUMIDIFYING), c.humidifying);
    MaybeSetBit(f4, FlagMask(DEHUMIDIFYING), c.dehumidifying)
  }

  /** The flags target distinct bits, so the order of the five steps does not matter. */
  lemma {:induction false} ApplyControlsOrderIndependent(flags: seq<bool>, c: Controls)
    requires |flags| == WORD_BITS
    ensures ApplyControls(flags, c) == ApplyControlsReversed(flags, c)
  {
    var d, h, r, o, t := c.dehumidifying, c.humidifying, c.recirculation, c.cooling, c.heating;
    var D, H, R, O, T := FlagMask(DEHUMIDIFYING), FlagMask(HUMIDIFYING), FlagMask(RECIRCULATION),
                         FlagMask(COOLING), FlagMask(HEATING);
    // Move heating to the front, then cooling behind it, then recirculation.
    var a1 := MaybeSetBit(flags, D, d);
    var a2 := MaybeSetBit(a1, H, h);
    var a3 := MaybeSetBit(a2, R, r);
    MaybeSetBitCommutes(a3, O, o, T, t);
    MaybeSetBitCommutes(a2, R, r, T, t);
    MaybeSetBitCommutes(a1, H, h, T, t);
    MaybeSetBitCommutes(flags, D, d, T, t);
    var e := MaybeSetBit(flags, T, t);
    var b1 := MaybeSetBit(e, D, d);
    var b2 := MaybeSetBit(b1, H, h);
    MaybeSetBitCommutes(b2, R, r, O, o);
    MaybeSetBitCommutes(b1, H, h, O, o);
    MaybeSetBitCommutes(e, D, d, O, o);
    var e2 := MaybeSetBit(e, O, o);
    var c1 := MaybeSetBit(e2, D, d);
    MaybeSetBitCommutes(c1, H, h, R, r);
    MaybeSetBitCommutes(e2, D, d, R, r);
    var e3 := MaybeSetBit(e2, R, r);
    MaybeSetBitCommutes(e3, D, d, H, h);
  }

  /** The five defined flags of `r`, each as its control says or kept from `flags`. */
  predicate FlagsFollow(flags: seq<bool>, r: seq<bool>, c: Controls)
    requires |flags| == |r| == WORD_BITS
  {
    && (r[DEHUMIDIFYING] <==> FlagAfter(flags[DEHUMIDIFYING], c.dehumidifying))
    && (r[HUMIDIFYING] <==> FlagAfter(flags[HUMIDIFYING], c.humidifying))
    && (r[RECIRCULATION] <==> FlagAfter(flags[RECIRCULATION], c.recirculation))
    && (r[COOLING] <==> FlagAfter(flags[COOLING], c.cooling))
    && (r[HEATING] <==> FlagAfter(flags[HEATING], c.heating))
  }

  /** Following the same controls twice gives the defined bits of following them once. */
  lemma {:induction false} FlagsFollowTwice(flags: seq<bool>, once: seq<bool>, twice: seq<bool>, c: Controls)
    requires |flags| == |once| == |twice| == WORD_BITS
    requires FlagsFollow(flags, once, c) && FlagsFollow(once, twice, c)
    ensures twice[..FLAG_BITS] == once[..FLAG_BITS]
  {
    assert forall i :: 0 <= i < FLAG_BITS ==> twice[i] == once[i];
  }

  /** Applying the same controls twice changes nothing more on the defined bits. */
  lemma {:induction false} ApplyControlsIdempotent(flags: seq<bool>, c: Controls)
    requires |flags| == WORD_BITS
    ensures ApplyControls(ApplyControls(flags, c), c)[..FLAG_BITS] == ApplyControls(flags, c)[..FLAG_BITS]
  {
    var once := ApplyControls(flags, c);
    ApplyControlsPerFlag(flags, c);
    ApplyControlsPerFlag(once, c);
    FlagsFollowTwice(flags, once, ApplyControls(once, c), c);
  }

  // ---------------------------------------------------------------------------
  // Service targets
  // ---------------------------------------------------------------------------

  /** `call.data[ATTR_MODE] or OperationMode.SPECIAL`: every operation mode is a non-zero
      integer, so only a missing mode is replaced. */
  function TargetMode(mode: Option<OperationMode>): (m: OperationMode)
    ensures mode.Some? ==> m == mode.value
    ensures mode.None? ==> m == Special
  {
    mode.GetOr(Special)
  }

  /** The configuration register of the special mode. */
  const SPECIAL_CONFIGURATION := 120 + REG_OFF_CONFIGURATION

  lemma SpecialConfigurationRegister()
    ensures SPECIAL_CONFIGURATION == OP_MODE_OFFSET[Special] + REG_OFF_CONFIGURATION
  {
  }

  /** The configuration word `set_special_mode_config` writes back for a read word `w`. */
  function ConfiguredWord(w: int, c: Controls): (v: int)
    ensures IsWord(v)
  {
    WordBits();
    ValueOf(ApplyControls(BitsOf(w, WORD_BITS), c))
  }

  /** In the written word, each flag is its control, or the read word's flag when the
      control is missing. */
  lemma {:induction false} ConfiguredWordFlags(w: int, c: Controls)
    ensures var before, after := BitsOf(w, WORD_BITS), BitsOf(ConfiguredWord(w, c), WORD_BITS);
      && (after[DEHUMIDIFYING] <==> FlagAfter(before[DEHUMIDIFYING], c.dehumidifying))
      && (after[HUMIDIFYING] <==> FlagAfter(before[HUMIDIFYING], c.humidifying))
      && (after[RECIRCULATION] <==> FlagAfter(before[RECIRCULATION], c.recirculation))
      && (after[COOLING] <==> FlagAfter(before[COOLING], c.cooling))
      && (after[HEATING] <==> FlagAfter(before[HEATING], c.heating))
  {
    var bits := ApplyControls(BitsOf(w, WORD_BITS), c);
    BitsValueRoundTrip(bits);
    ApplyControlsPerFlag(BitsOf(w, WORD_BITS), c);
  }

  /** With no control given, the word written back is the word read. */
  lemma {:induction false} ConfiguredWordNoControls(w: int)
    requires IsWord(w)
    ensures ConfiguredWord(w, Controls(None, None, None, None, None)) == w
  {
    WordBits();
    ValueBitsRoundTrip(w, WORD_BITS);
  }

  /** A device's registers after `set_special_mode_config`: the special mode's configuration
      word rewritten, when the device holds that register. */
  function Configured(holding: map<int, int>, c: Controls): (h: map<int, int>)
    ensures h.Keys == holding.Keys
    ensures forall a :: a in h && a != SPECIAL_CONFIGURATION ==> h[a] == holding[a]
    ensures SPECIAL_CONFIGURATION in h ==> h[SPECIAL_CONFIGURATION] == ConfiguredWord(holding[SPECIAL_CONFIGURATION], c)
  {
    if SPECIAL_CONFIGURATION in holding
    then holding[SPECIAL_CONFIGURATION := ConfiguredWord(holding[SPECIAL_CONFIGURATION], c)]
    else holding
  }

  /** The device's registers after a mode setter writes `words` from `offset` in `mode`'s
      slot: unchanged for PROGRAM, which has no slot, or when the device does not hold them. */
  function SlotWritten(holding: map<int, int>, mode: OperationMode, offset: int, words: seq<int>): (h: map<int, int>)
    ensures h.Keys == holding.Keys
    ensures mode == Program || !Holds(holding, OP_MODE_OFFSET[mode] + offset, |words|) ==> h == holding
    ensures mode != Program && Holds(holding, OP_MODE_OFFSET[mode] + offset, |words|) ==>
              h == Overwrite(holding, OP_MODE_OFFSET[mode] + offset, words)
  {
    if mode == Program then holding
    else
      OpModeOffsetKeys(mode);
      if !Holds(holding, OP_MODE_OFFSET[mode] + offset, |words|) then holding
      else Overwrite(holding, OP_MODE_OFFSET[mode] + offset, words)
  }

  /** The requests `set_special_mode_config` sends one device: the configuration read, and
      the write when the read succeeded. */
  function ConfigRequests(holding: map<int, int>, c: Controls): seq<Request> {
    if SPECIAL_CONFIGURATION in holding
    then [Request.ReadHoldingRegisters(SPECIAL_CONFIGURATION, 1),
          WriteSingleRegister(SPECIAL_CONFIGURATION, ConfiguredWord(holding[SPECIAL_CONFIGURATION], c))]
    else [Request.ReadHoldingRegisters(SPECIAL_CONFIGURATION, 1)]
  }

  /** One device after `set_special_mode_config` has visited it, from registers `h0` and
      request log `r0`. */
  ghost predicate ConfigApplied(d: Client, h0: map<int, int>, r0: seq<Request>, c: Controls)
    reads d
  {
    d.holding == Configured(h0, c) && d.requests == r0 + ConfigRequests(h0, c)
  }

  /** No client is visited twice. Two device ids of one config entry reach the same client,
      so the services' loops can visit a client twice; that case is not covered. */
  predicate Distinct(devices: seq<Client>) {
    forall i, j :: 0 <= i < j < |devices| ==> devices[i] != devices[j]
  }

  // ---------------------------------------------------------------------------
  // Services
  // ---------------------------------------------------------------------------

  /** `set_special_mode_config`: for each device, the special mode's configuration is read
      once, the five controls applied, and the result written once. A device whose read fails
      is skipped; every device is visited. */
  method SetSpecialModeConfig(devices: seq<Client>, c: Controls)
    requires Distinct(devices)
    requires forall d :: d in devices ==> d.Valid()
    modifies set d | d in devices
    ensures forall d :: d in devices ==> d.Valid()
    ensures forall j :: 0 <= j < |devices| ==>
              ConfigApplied(devices[j], old(devices[j].holding), old(devices[j].requests), c)
  {
    var i := 0;
    while i < |devices|
      invariant 0 <= i <= |devices|
      invariant forall d :: d in devices ==> d.Valid()
      invariant forall j :: 0 <= j < i ==>
                  ConfigApplied(devices[j], old(devices[j].holding), old(devices[j].requests), c)
      invariant forall j :: i <= j < |devices| ==>
                  devices[j].holding == old(devices[j].holding) && devices[j].requests == old(devices[j].requests)
    {
      UpdateSpecialConfiguration(devices[i], c);
      i := i + 1;
    }
  }

  /** The body of `set_special_mode_config`'s loop for one device. */
  method UpdateSpecialConfiguration(device: Client, c: Controls)
    requires device.Valid()
    modifies device`holding, device`requests
    ensures device.Valid()
    ensures ConfigApplied(device, old(device.holding), old(device.requests), c)
  {
    var modes := new Modes(device);
    var regs := modes.ModeRegisters(Special);
    var mode := regs.value;
    var flags := mode.ReadConfiguration();
    if flags.Err? {
      return;
    }
    var updated := ValueOf(ApplyControls(BitsOf(flags.value, WORD_BITS), c));
    var _ := mode.SetConfiguration(updated);
  }

  /** `set_setpoint_temperature`: every device's slot of `TargetMode(mode)` gets the setpoint
      word; a device without that slot or register is left as it is. */
  method SetSetpointTemperature(devices: seq<Client>, mode: Option<OperationMode>, temperature: real)
    requires Distinct(devices)
    requires forall d :: d in devices ==> d.Valid()
    modifies set d | d in devices
    ensures forall d :: d in devices ==> d.Valid()
    ensures forall j :: 0 <= j < |devices| ==>
              devices[j].holding == SlotWritten(old(devices[j].holding), TargetMode(mode), REG_OFF_SETPOINT_TEMPERATURE,
                                                [SetpointWord(temperature)])
  {
    var target := TargetMode(mode);
    var i := 0;
    while i < |devices|
      invariant 0 <= i <= |devices|
      invariant forall d :: d in devices ==> d.Valid()
      invariant forall j :: 0 <= j < i ==>
                  devices[j].holding == SlotWritten(old(devices[j].holding), target, REG_OFF_SETPOINT_TEMPERATURE,
                                                    [SetpointWord(temperature)])
      invariant forall j :: i <= j < |devices| ==> devices[j].holding == old(devices[j].holding)
    {
      UpdateSetpointTemperature(devices[i], target, temperature);
      i := i + 1;
    }
  }

  /** The body of the loop for one device: `target`'s slot, when the device has it. */
  method UpdateSetpointTemperature(device: Client, target: OperationMode, temperature: real)
    requires device.Valid()
    modifies device`holding, device`requests
    ensures device.Valid()
    ensures device.holding == SlotWritten(old(device.holding), target, REG_OFF_SETPOINT_TEMPERATURE, [SetpointWord(temperature)])
  {
    var modes := new Modes(device);
    var regs := modes.ModeRegisters(target);
    if regs.Ok? {
      var _ := regs.value.SetSetpointTemperature(temperature);
    }
  }

  /** `set_supply_flow`: every device's slot of `TargetMode(mode)` gets the flow's two words. */
  method SetSupplyFlow(devices: seq<Client>, mode: Option<OperationMode>, value: int)
    requires Distinct(devices)
    requires forall d :: d in devices ==> d.Valid()
    modifies set d | d in devices
    ensures forall d :: d in devices ==> d.Valid()
    ensures forall j :: 0 <= j < |devices| ==>
              devices[j].holding == SlotWritten(old(devices[j].holding), TargetMode(mode), REG_OFF_SUPPLY_FLOW, U32Words(value))
  {
    var target := TargetMode(mode);
    var i := 0;
    while i < |devices|
      invariant 0 <= i <= |devices|
      invariant forall d :: d in devices ==> d.Valid()
      invariant forall j :: 0 <= j < i ==>
                  devices[j].holding == SlotWritten(old(devices[j].holding), target, REG_OFF_SUPPLY_FLOW, U32Words(value))
      invariant forall j :: i <= j < |devices| ==> devices[j].holding == old(devices[j].holding)
    {
      UpdateSupplyFlow(devices[i], target, value);
      i := i + 1;
    }
  }

  /** The body of the loop for one device: `target`'s slot, when the device has it. */
  method UpdateSupplyFlow(device: Client, target: OperationMode, value: int)
    requires device.Valid()
    modifies device`holding, device`requests
    ensures device.Valid()
    ensures device.holding == SlotWritten(old(device.holding), target, REG_OFF_SUPPLY_FLOW, U32Words(value))
  {
    var modes := new Modes(device);
    var regs := modes.ModeRegisters(target);
    if regs.Ok? {
      var _ := regs.value.SetSupplyFlow(value);
    }
  }

  /** `set_extract_flow`: every device's slot of `TargetMode(mode)` gets the flow's two words. */
  method SetExtractFlow(devices: seq<Client>, mode: Option<OperationMode>, value: int)
    requires Distinct(devices)
    requires forall d :: d in devices ==> d.Valid()
    modifies set d | d in devices
    ensures forall d :: d in devices ==> d.Valid()
    ensures forall j :: 0 <= j < |devices| ==>
              devices[j].holding == SlotWritten(old(devices[j].holding), TargetMode(mode), REG_OFF_EXTRACT_FLOW, U32Words(value))
  {
    var target := TargetMode(mode);
    var i := 0;
    while i < |devices|
      invariant 0 <= i <= |devices|
      invariant forall d :: d in devices ==> d.Valid()
      invariant forall j :: 0 <= j < i ==>
                  devices[j].holding == SlotWritten(old(devices[j].holding), target, REG_OFF_EXTRACT_FLOW, U32Words(value))
      invariant forall j :: i <= j < |devices| ==> devices[j].holding == old(devices[j].holding)
    {
      UpdateExtractFlow(devices[i], target, value);
      i := i + 1;
    }
  }

  /** The body of the loop for one device: `target`'s slot, when the device has it. */
  method UpdateExtractFlow(device: Client, target: OperationMode, value: int)
    requires device.Valid()
    modifies device`holding, device`requests
    ensures device.Valid()
    ensures device.holding == SlotWritten(old(device.holding), target, REG_OFF_EXTRACT_FLOW, U32Words(value))
  {
    var modes := new Modes(device);
    var regs := modes.ModeRegisters(target);
    if regs.Ok? {
      var _ := regs.value.SetExtractFlow(value);
    }
  }
}
