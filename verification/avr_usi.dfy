/** The AVR universal serial interface: a shift register, a 4-bit counter of clock edges that
    latches the register every sixteenth edge, and the lines it drives.

    The pins are inputs of the model: `Clk` and `Di` events say that the level of the clock or
    of the data input pin is now the given one. */
module AvrUsi {
  import opened Bits

  datatype ClockMode = Strobe | TimerCompare | PosEdge | NegEdge

  datatype WireMode = Disabled | ThreeWire | TwoWire | TwoWireHold

  /** The four-bit edge counter. */
  type Nibble = n: nat | n < 16

  function Next(n: Nibble): Nibble { if n == 15 then 0 else n + 1 }

  lemma NextIsModulo(n: Nibble)
    ensures Next(n) == (n + 1) % 16
  {
    if n < 15 { assert (n + 1) / 16 == 0; }
  }

  /** Pin levels, and the levels the driver puts on its three lines. */
  datatype Lines = Lines(clk: bool, di: bool, drvClk: bool, drvDo: bool, drvSda: bool, hold: bool, enabled: bool)

  /** The flags of USISR. */
  datatype Flags = Flags(ovf: bool, start: bool, stop: bool)

  const NO_FLAGS := Flags(false, false, false)

  datatype State = State(
    clkMode: ClockMode, wire: WireMode,
    data: Byte, buffer: Byte, counter: Nibble,
    usiclk: bool, flags: Flags,
    startDetected: bool,
    lines: Lines)

  predicate TwoWires(w: WireMode) { w == TwoWire || w == TwoWireHold }

  predicate OutputLatched(s: State) {
    (s.clkMode == PosEdge && !s.lines.clk) || (s.clkMode == NegEdge && s.lines.clk)
  }

  function Shifted(s: State): (t: State)
    ensures t.usiclk == s.usiclk
  {
    s.(data := ShiftLeft(s.data, s.lines.di))
  }

  /** The most significant bit goes to the data output, or to the shared data line. */
  function LinesDriven(lines: Lines, wire: WireMode, msb: bool): Lines {
    match wire
    case Disabled => lines
    case ThreeWire => lines.(drvDo := msb)
    case _ => lines.(drvSda := msb)
  }

  function OutputUpdated(s: State): (t: State)
    ensures t.usiclk == s.usiclk
  {
    s.(lines := LinesDriven(s.lines, s.wire, Msb(s.data)))
  }

  /** One counted edge; on the sixteenth the shift register is latched and the overflow flagged. */
  function Counted(s: State): (t: State)
    ensures t.usiclk == s.usiclk
  {
    if s.counter != 15 then s.(counter := Next(s.counter))
    else s.(counter := 0, buffer := s.data, flags := s.flags.(ovf := true),
            lines := if s.wire == TwoWireHold then s.lines.(hold := true) else s.lines)
  }

  function ClockChanged(s: State, level: bool): (t: State)
    ensures t.usiclk == s.usiclk
  {
    var s1 := s.(lines := s.lines.(clk := level));
    var s2 :=
      if s.clkMode == PosEdge || s.clkMode == NegEdge then
        var moved := if level == (s.clkMode == PosEdge) then Shifted(s1) else OutputUpdated(s1);
        if s.usiclk then moved else Counted(moved)
      else s1;
    if s2.startDetected && !level then s2.(startDetected := false, lines := s2.lines.(hold := true)) else s2
  }

  /** Start and stop conditions of the two-wire modes: the data line moves while the clock is high. */
  function DataChanged(s: State, level: bool): (t: State)
    ensures t.usiclk == s.usiclk
  {
    var t := s.(lines := s.lines.(di := level));
    if TwoWires(s.wire) && s.lines.clk then
      if level then t.(flags := t.flags.(stop := true))
      else t.(startDetected := true, flags := t.flags.(start := true))
    else t
  }

  /** The clock pin has the given level; only a change is an event. */
  function ClockPin(s: State, level: bool): (t: State)
    ensures t.usiclk == s.usiclk
  {
    if level == s.lines.clk then s else ClockChanged(s, level)
  }

  function DataPin(s: State, level: bool): (t: State)
    ensures t.usiclk == s.usiclk
  {
    if level == s.lines.di then s else DataChanged(s, level)
  }

  function OutputIfOpen(s: State): (t: State)
    ensures t.usiclk == s.usiclk
  {
    if OutputLatched(s) then s else OutputUpdated(s)
  }

  /** Outside the two-wire modes nothing holds the clock. */
  function HoldDropped(s: State): (t: State)
    ensures t.usiclk == s.usiclk
  {
    var lines := s.lines.(enabled := s.wire != Disabled);
    if TwoWires(s.wire) then s.(lines := lines) else s.(startDetected := false, lines := lines.(hold := false))
  }

  function WireModeSet(s: State, mode: WireMode, force: bool): (t: State)
    ensures t.usiclk == s.usiclk
  {
    if mode == s.wire && !force then s else HoldDropped(OutputIfOpen(s.(wire := mode)))
  }

  /** The output latch turns transparent: the bit that was held back goes out. */
  function ClockSelected(s: State, mode: ClockMode): (t: State)
    ensures t.usiclk == s.usiclk
  {
    var t := s.(clkMode := mode);
    if OutputLatched(s) && !OutputLatched(t) then OutputUpdated(t) else t
  }

  function Toggled(s: State): (t: State)
    ensures t.usiclk == s.usiclk
  {
    var t := s.(lines := s.lines.(drvClk := !s.lines.drvClk));
    if (s.clkMode == PosEdge || s.clkMode == NegEdge) && s.usiclk then Counted(t) else t
  }

  /** One shift from inside the device: by the strobe bit, or by the timer. */
  function Clocked(s: State): (t: State)
    ensures t.usiclk == s.usiclk
  {
    Counted(OutputUpdated(Shifted(s)))
  }

  function ClockBits(s: State, strobe: bool, toggle: bool): (t: State)
    ensures t.usiclk == s.usiclk
  {
    var t := if s.clkMode == Strobe && strobe then Clocked(s) else s;
    if toggle then Toggled(t) else t
  }

  /** A write to USICR. USICLK is a strobe bit: written to one it reads back zero. */
  function ControlWritten(s: State, wire: WireMode, mode: ClockMode, strobe: bool, toggle: bool): (t: State)
    ensures t.usiclk ==> s.usiclk
  {
    ClockBits(ClockSelected(WireModeSet(s.(usiclk := s.usiclk && !strobe), wire, false), mode), strobe, toggle)
  }

  /** A write to USISR: ones clear the flags, the counter is set. */
  function StatusWritten(s: State, ovf: bool, start: bool, stop: bool, counter: Nibble): (t: State)
    ensures t.usiclk == s.usiclk
  {
    var flags := Flags(s.flags.ovf && !ovf, s.flags.start && !start, s.flags.stop && !stop);
    var release := (ovf && s.wire == TwoWireHold && !flags.start)
                   || (start && (s.wire == TwoWire || (s.wire == TwoWireHold && !flags.ovf)));
    s.(flags := flags, counter := counter, startDetected := s.startDetected && !start,
       lines := if release then s.lines.(hold := false) else s.lines)
  }

  function DataWritten(s: State, data: Byte): (t: State)
    ensures t.usiclk == s.usiclk
  {
    OutputIfOpen(s.(data := data))
  }

  /** The registers have been zeroed by the core; the driver is disabled. */
  function WasReset(s: State): (t: State)
    ensures !t.usiclk
  {
    State(Strobe, Disabled, ZERO, ZERO, 0, false, NO_FLAGS, false, s.lines.(hold := false, enabled := false))
  }

  datatype Event =
    | Clk(level: bool)
    | Di(level: bool)
    | TimerMatch
    | WriteControl(wire: WireMode, mode: ClockMode, strobe: bool, toggle: bool)
    | WriteStatus(ovf: bool, start: bool, stop: bool, counter: Nibble)
    | WriteData(data: Byte)
    | Reset

  function Step(s: State, e: Event): State {
    match e
    case Clk(level) => ClockPin(s, level)
    case Di(level) => DataPin(s, level)
    case TimerMatch => if s.clkMode == TimerCompare then Clocked(s) else s
    case WriteControl(w, m, strobe, toggle) => ControlWritten(s, w, m, strobe, toggle)
    case WriteStatus(o, st, sp, c) => StatusWritten(s, o, st, sp, c)
    case WriteData(d) => DataWritten(s, d)
    case Reset => WasReset(s)
  }

  function Run(s: State, es: seq<Event>): State
    decreases |es|
  {
    if es == [] then s else Run(Step(s, es[0]), es[1..])
  }

  // ---------- USICLK never reads one ----------

  lemma StepKeepsUsiclkClear(s: State, e: Event)
    requires !s.usiclk
    ensures !Step(s, e).usiclk
  {
  }

  /** The clock strobe bit never reads back as one, so in the external clock modes every edge of
      the clock pin is counted and the software toggle never is. */
  lemma {:induction false} UsiclkNeverSet(s: State, es: seq<Event>)
    requires !s.usiclk
    ensures !Run(s, es).usiclk
    decreases |es|
  {
    if es != [] {
      StepKeepsUsiclkClear(s, es[0]);
      UsiclkNeverSet(Step(s, es[0]), es[1..]);
    }
  }

  // ---------- The stream theorem ----------

  predicate PinEvent(e: Event) { e.Clk? || e.Di? }

  /** An external clock mode, outside the two-wire modes. */
  predicate Sampling(s: State) {
    (s.clkMode == PosEdge || s.clkMode == NegEdge) && !s.usiclk && !TwoWires(s.wire)
  }

  /** The level to which the sampling edge takes the clock: high for the positive edge. */
  function SampleLevel(s: State): bool { s.clkMode == PosEdge }

  /** Levels of the data input at the edges of the clock to the level `at`, from the pin events alone. */
  function Samples(at: bool, clk: bool, di: bool, es: seq<Event>): seq<bool>
    decreases |es|
  {
    if es == [] then []
    else match es[0]
      case Clk(level) =>
        if level == at && level != clk then [di] + Samples(at, level, di, es[1..]) else Samples(at, level, di, es[1..])
      case Di(level) => Samples(at, clk, level, es[1..])
      case _ => Samples(at, clk, di, es[1..])
  }

  /** Level of the clock after the run. */
  function EndLevel(clk: bool, es: seq<Event>): bool
    decreases |es|
  {
    if es == [] then clk else EndLevel(if es[0].Clk? then es[0].level else clk, es[1..])
  }

  predicate Overflows(s: State, e: Event) {
    e.Clk? && e.level != s.lines.clk && Sampling(s) && s.counter == 15
  }

  /** The values latched into the buffer register during a run, in order. */
  function Latched(s: State, es: seq<Event>): seq<Byte>
    decreases |es|
  {
    if es == [] then []
    else
      var t := Step(s, es[0]);
      if Overflows(s, es[0]) then [t.buffer] + Latched(t, es[1..]) else Latched(t, es[1..])
  }

  /** Bytes of a bit stream, most significant bit first; an incomplete last byte is dropped. */
  function Bytes(bits: seq<bool>): seq<Byte> {
    if |bits| < 8 then [] else [bits[..8]] + Bytes(bits[8..])
  }

  /** `bits` have been sampled since the counter was last zero, over the register value `d`. */
  predicate InByte(s: State, d: Byte, bits: seq<bool>) {
    && Sampling(s) && |bits| <= 8
    && s.data == (d + bits)[|bits|..]
    && s.counter == 2 * |bits| - (if s.lines.clk == SampleLevel(s) then 1 else 0)
  }

  lemma AppendBit(d: Byte, bits: seq<bool>, data: Byte, bit: bool)
    requires |bits| < 8 && data == (d + bits)[|bits|..]
    ensures ShiftLeft(data, bit) == (d + (bits + [bit]))[|bits + [bit]|..]
  {
    assert d + (bits + [bit]) == (d + bits) + [bit];
  }

  lemma SampleStep(s: State, d: Byte, bits: seq<bool>)
    requires InByte(s, d, bits) && (s.counter == 0 ==> bits == []) && s.lines.clk != SampleLevel(s)
    ensures var t := ClockPin(s, SampleLevel(s));
            && InByte(t, d, bits + [s.lines.di]) && |bits| < 8 && t.counter != 0
            && t.clkMode == s.clkMode && t.lines.clk == SampleLevel(s) && t.lines.di == s.lines.di
  {
    AppendBit(d, bits, s.data, s.lines.di);
    SamplingClock(s);
  }

  /** What the two edges do to the fields the stream is made of. */
  lemma SamplingClock(s: State)
    requires Sampling(s) && s.lines.clk != SampleLevel(s) && s.counter < 15
    ensures var t := ClockPin(s, SampleLevel(s));
            && Sampling(t) && t.clkMode == s.clkMode
            && t.data == ShiftLeft(s.data, s.lines.di) && t.counter == s.counter + 1
            && t.lines.clk == SampleLevel(s) && t.lines.di == s.lines.di
  {
  }

  lemma OutputKeeps(s: State)
    ensures var t := OutputUpdated(s);
            && t == s.(lines := t.lines) && t.lines.clk == s.lines.clk && t.lines.di == s.lines.di
  {
  }

  predicate SameInputs(s: State, t: State) {
    && Sampling(t) && t.clkMode == s.clkMode && t.data == s.data
    && t.lines.clk == s.lines.clk && t.lines.di == s.lines.di
  }

  lemma CountedClock(s: State)
    requires Sampling(s)
    ensures var t := Counted(s);
            && SameInputs(s, t) && t.counter == Next(s.counter)
            && t.buffer == (if s.counter == 15 then s.data else s.buffer)
            && t.flags.ovf == (s.flags.ovf || s.counter == 15)
            && t.startDetected == s.startDetected
  {
  }

  lemma OutputClock(s: State)
    requires Sampling(s) && s.lines.clk == SampleLevel(s)
    ensures var t := ClockPin(s, !SampleLevel(s));
            && SameInputs(s.(lines := s.lines.(clk := !SampleLevel(s))), t) && t.counter == Next(s.counter)
            && t.buffer == (if s.counter == 15 then s.data else s.buffer)
            && t.flags.ovf == (s.flags.ovf || s.counter == 15)
  {
    var back := s.(lines := s.lines.(clk := !SampleLevel(s)));
    OutputKeeps(back);
    CountedClock(OutputUpdated(back));
  }

  lemma InputStep(s: State, d: Byte, bits: seq<bool>, level: bool)
    requires InByte(s, d, bits)
    ensures var t := DataPin(s, level);
            && InByte(t, d, bits) && t.clkMode == s.clkMode && t.counter == s.counter
            && t.lines.clk == s.lines.clk && t.lines.di == level
  {
  }

  /** The stream theorem. In either external clock mode, from a zero counter and a clock about to
      sample, whatever the clock and the data input do, the values latched into the buffer register are
      the bits sampled at the sampling edges taken eight at a time, most significant bit first.
      A byte is latched only at the edge back that ends its eighth clock pulse, which is why the
      stream is to end with the clock back. */
  lemma {:induction false} StreamOfBytes(s: State, es: seq<Event>, d: Byte, bits: seq<bool>)
    requires InByte(s, d, bits) && (s.counter == 0 ==> bits == [])
    requires forall i | 0 <= i < |es| :: PinEvent(es[i])
    requires EndLevel(s.lines.clk, es) != SampleLevel(s)
    ensures Latched(s, es) == Bytes(bits + Samples(SampleLevel(s), s.lines.clk, s.lines.di, es))
    decreases |es|, 1
  {
    if es == [] {
      assert bits + [] == bits;
    } else {
      var at := SampleLevel(s);
      match es[0]
      case Di(level) =>
        InputStep(s, d, bits, level);
        StreamOfBytes(Step(s, es[0]), es[1..], d, bits);
      case Clk(level) =>
        if level == s.lines.clk {
          StreamOfBytes(s, es[1..], d, bits);
        } else if level == at {
          StreamOn(s, es, d, bits);
        } else {
          StreamBack(s, es, d, bits);
        }
    }
  }

  /** The stream from an edge that samples. */
  lemma {:induction false} StreamOn(s: State, es: seq<Event>, d: Byte, bits: seq<bool>)
    requires InByte(s, d, bits) && (s.counter == 0 ==> bits == [])
    requires forall i | 0 <= i < |es| :: PinEvent(es[i])
    requires EndLevel(s.lines.clk, es) != SampleLevel(s)
    requires es != [] && es[0] == Clk(SampleLevel(s)) && s.lines.clk != SampleLevel(s)
    ensures Latched(s, es) == Bytes(bits + Samples(SampleLevel(s), s.lines.clk, s.lines.di, es))
    decreases |es|, 0
  {
    var at := SampleLevel(s);
    SampleStep(s, d, bits);
    StreamOfBytes(Step(s, es[0]), es[1..], d, bits + [s.lines.di]);
    var rest := Samples(at, at, s.lines.di, es[1..]);
    assert bits + [s.lines.di] + rest == bits + ([s.lines.di] + rest);
  }

  /** The stream from an edge that does not sample. */
  lemma {:induction false} StreamBack(s: State, es: seq<Event>, d: Byte, bits: seq<bool>)
    requires InByte(s, d, bits) && (s.counter == 0 ==> bits == [])
    requires forall i | 0 <= i < |es| :: PinEvent(es[i])
    requires EndLevel(s.lines.clk, es) != SampleLevel(s)
    requires es != [] && es[0] == Clk(!SampleLevel(s)) && s.lines.clk == SampleLevel(s)
    ensures Latched(s, es) == Bytes(bits + Samples(SampleLevel(s), s.lines.clk, s.lines.di, es))
    decreases |es|, 0
  {
    var t, at := Step(s, es[0]), SampleLevel(s);
    OutputClock(s);
    if s.counter == 15 {
      assert (t.data + [])[0..] == t.data;
      StreamOfBytes(t, es[1..], t.data, []);
      ByteComplete(d, bits, Samples(at, !at, s.lines.di, es[1..]));
    } else {
      StreamOfBytes(t, es[1..], d, bits);
    }
  }

  lemma ByteComplete(d: Byte, bits: seq<bool>, rest: seq<bool>)
    requires |bits| == 8
    ensures Bytes(bits + rest) == [bits] + Bytes([] + rest)
    ensures (d + bits)[8..] == bits
  {
    assert [] + rest == rest;
    assert (bits + rest)[..8] == bits && (bits + rest)[8..] == rest;
  }

  /** One byte: sixteen alternating edges from a zero counter latch exactly one byte. */
  lemma OneByte(s: State, es: seq<Event>)
    requires Sampling(s) && s.counter == 0 && s.lines.clk != SampleLevel(s)
    requires forall i | 0 <= i < |es| :: PinEvent(es[i])
    requires EndLevel(s.lines.clk, es) != SampleLevel(s)
    requires |Samples(SampleLevel(s), s.lines.clk, s.lines.di, es)| == 8
    ensures Latched(s, es) == [Samples(SampleLevel(s), s.lines.clk, s.lines.di, es)]
  {
    var bits := Samples(SampleLevel(s), s.lines.clk, s.lines.di, es);
    assert (s.data + [])[0..] == s.data;
    StreamOfBytes(s, es, s.data, []);
    assert [] + bits == bits && bits[..8] == bits;
  }

  // ---------- Clocked from inside the device ----------

  /** The event that shifts once: the timer in its mode, or the strobe bit in its own. */
  predicate ClocksOnce(s: State, e: Event) {
    || (s.clkMode == TimerCompare && e == TimerMatch)
    || (s.clkMode == Strobe && e == WriteControl(s.wire, Strobe, true, false))
  }

  lemma ClockedOnce(s: State, e: Event)
    requires ClocksOnce(s, e)
    ensures var t, data := Step(s, e), ShiftLeft(s.data, s.lines.di);
            && t.data == data && t.counter == Next(s.counter) && t.clkMode == s.clkMode && t.wire == s.wire
            && (if s.counter == 15 then t.buffer == data && t.flags == s.flags.(ovf := true)
                else t.buffer == s.buffer && t.flags == s.flags)
            && t.lines == s.lines.(drvDo := if s.wire == ThreeWire then Msb(data) else s.lines.drvDo,
                                   drvSda := if TwoWires(s.wire) then Msb(data) else s.lines.drvSda,
                                   hold := s.lines.hold || (s.counter == 15 && s.wire == TwoWireHold))
  {
    if e == TimerMatch { ClockedIs(s); } else { ClockedIs(s.(usiclk := false)); }
  }

  lemma ClockedIs(s: State)
    ensures var t, data := Clocked(s), ShiftLeft(s.data, s.lines.di);
            && t.data == data && t.counter == Next(s.counter) && t.clkMode == s.clkMode && t.wire == s.wire
            && (if s.counter == 15 then t.buffer == data && t.flags == s.flags.(ovf := true)
                else t.buffer == s.buffer && t.flags == s.flags)
            && t.lines == s.lines.(drvDo := if s.wire == ThreeWire then Msb(data) else s.lines.drvDo,
                                   drvSda := if TwoWires(s.wire) then Msb(data) else s.lines.drvSda,
                                   hold := s.lines.hold || (s.counter == 15 && s.wire == TwoWireHold))
  {
  }

  /** Each bit is put on the data input, outside the two-wire modes, and one shift made. */
  function ShiftRun(e: Event, bits: seq<bool>): seq<Event>
    decreases |bits|
  {
    if bits == [] then [] else [Di(bits[0]), e] + ShiftRun(e, bits[1..])
  }

  lemma ShiftOne(s: State, e: Event, bit: bool)
    requires ClocksOnce(s, e) && !TwoWires(s.wire)
    ensures var t := Step(Step(s, Di(bit)), e);
            && ClocksOnce(t, e) && t.wire == s.wire && t.data == ShiftLeft(s.data, bit) && t.counter == Next(s.counter)
            && t.buffer == (if s.counter == 15 then t.data else s.buffer)
            && (t.flags.ovf <==> s.flags.ovf || s.counter == 15)
  {
    ClockedOnce(DataPin(s, bit), e);
  }

  /** Up to eight shifts by the timer or by the strobe bit take in the bits of the data input in
      order; and at the sixteenth count the register is latched. */
  lemma {:induction false} ShiftsIn(s: State, e: Event, d: Byte, before: seq<bool>, bits: seq<bool>)
    requires ClocksOnce(s, e) && !TwoWires(s.wire)
    requires |before| + |bits| <= 8 && s.data == (d + before)[|before|..] && s.counter + |bits| <= 16
    ensures var t := Run(s, ShiftRun(e, bits)); var all := before + bits;
            && t.data == (d + all)[|all|..]
            && t.counter == (if s.counter + |bits| == 16 then 0 else s.counter + |bits|)
            && (s.counter + |bits| == 16 && bits != [] ==> t.buffer == t.data && t.flags.ovf)
    decreases |bits|
  {
    if bits == [] {
      assert before + bits == before;
    } else {
      var es := ShiftRun(e, bits);
      var t := Step(Step(s, Di(bits[0])), e);
      assert es[0] == Di(bits[0]) && es[1..][0] == e && es[1..][1..] == ShiftRun(e, bits[1..]);
      ShiftOne(s, e, bits[0]);
      AppendBit(d, before, s.data, bits[0]);
      assert before + [bits[0]] + bits[1..] == before + bits;
      assert Run(s, es) == Run(t, es[1..][1..]);
      ShiftsIn(t, e, d, before + [bits[0]], bits[1..]);
    }
  }

  // ---------- The registers ----------

  /** The latch is closed: an external mode with the clock at the level before its sampling edge. */
  predicate Closed(mode: ClockMode, clk: bool) { (mode == PosEdge && !clk) || (mode == NegEdge && clk) }

  lemma OutputIs(s: State)
    ensures OutputUpdated(s) ==
            s.(lines := s.lines.(drvDo := if s.wire == ThreeWire then Msb(s.data) else s.lines.drvDo,
                                 drvSda := if TwoWires(s.wire) then Msb(s.data) else s.lines.drvSda))
  {
  }

  lemma OutputIfOpenIs(s: State)
    ensures var open := !Closed(s.clkMode, s.lines.clk);
            OutputIfOpen(s) ==
            s.(lines := s.lines.(drvDo := if s.wire == ThreeWire && open then Msb(s.data) else s.lines.drvDo,
                                 drvSda := if TwoWires(s.wire) && open then Msb(s.data) else s.lines.drvSda))
  {
    OutputIs(s);
  }

  lemma HoldDroppedIs(s: State)
    ensures var two := TwoWires(s.wire);
            HoldDropped(s) ==
            s.(startDetected := s.startDetected && two,
               lines := s.lines.(hold := s.lines.hold && two, enabled := s.wire != Disabled))
  {
  }

  lemma ClockIsSet(s: State, mode: ClockMode)
    ensures var opens := Closed(s.clkMode, s.lines.clk) && !Closed(mode, s.lines.clk);
            ClockSelected(s, mode) ==
            s.(clkMode := mode,
               lines := s.lines.(drvDo := if s.wire == ThreeWire && opens then Msb(s.data) else s.lines.drvDo,
                                 drvSda := if TwoWires(s.wire) && opens then Msb(s.data) else s.lines.drvSda))
  {
    OutputIs(s.(clkMode := mode));
  }

  /** A write to USICR that changes the wire mode only. The highest bit appears on the line that the
      mode drives if the latch is open; out of the two-wire modes nothing holds the clock. */
  lemma WireModeTakes(s: State, wire: WireMode)
    requires wire != s.wire && !s.usiclk
    ensures var t, two := Step(s, WriteControl(wire, s.clkMode, false, false)), TwoWires(wire);
            var open := !Closed(s.clkMode, s.lines.clk);
            t == s.(wire := wire, startDetected := s.startDetected && two,
                    lines := s.lines.(hold := s.lines.hold && two, enabled := wire != Disabled,
                                      drvDo := if wire == ThreeWire && open then Msb(s.data) else s.lines.drvDo,
                                      drvSda := if two && open then Msb(s.data) else s.lines.drvSda))
  {
    var u := s.(wire := wire);
    OutputIfOpenIs(u);
    HoldDroppedIs(OutputIfOpen(u));
    ClockIsSet(HoldDropped(OutputIfOpen(u)), s.clkMode);
  }

  /** A write to USICR that changes the clock mode only. The highest bit appears if that opens the
      latch. */
  lemma ClockModeTakes(s: State, mode: ClockMode)
    requires !s.usiclk
    ensures var t := Step(s, WriteControl(s.wire, mode, false, false));
            var opens := Closed(s.clkMode, s.lines.clk) && !Closed(mode, s.lines.clk);
            t == s.(clkMode := mode,
                    lines := s.lines.(drvDo := if s.wire == ThreeWire && opens then Msb(s.data) else s.lines.drvDo,
                                      drvSda := if TwoWires(s.wire) && opens then Msb(s.data) else s.lines.drvSda))
  {
    ClockIsSet(s, mode);
  }

  /** The toggle bit turns the clock line over, and counts nothing while USICLK reads zero. */
  lemma ToggleTakes(s: State)
    requires !s.usiclk
    ensures Step(s, WriteControl(s.wire, s.clkMode, false, true)) == s.(lines := s.lines.(drvClk := !s.lines.drvClk))
  {
  }

  /** A write to USIDR sets the register, whose highest bit appears at once if the latch is open. */
  lemma DataTakes(s: State, d: Byte)
    ensures var t, open := Step(s, WriteData(d)), !Closed(s.clkMode, s.lines.clk);
            t == s.(data := d,
                    lines := s.lines.(drvDo := if s.wire == ThreeWire && open then Msb(d) else s.lines.drvDo,
                                      drvSda := if TwoWires(s.wire) && open then Msb(d) else s.lines.drvSda))
  {
    OutputIfOpenIs(s.(data := d));
  }

  /** A write to USISR clears the flags written as ones and sets the counter. */
  lemma StatusTakes(s: State, ovf: bool, start: bool, stop: bool, n: Nibble)
    ensures var t := Step(s, WriteStatus(ovf, start, stop, n));
            && t.counter == n && (t.flags.ovf <==> s.flags.ovf && !ovf)
            && (t.flags.start <==> s.flags.start && !start) && (t.flags.stop <==> s.flags.stop && !stop)
            && (t.startDetected <==> s.startDetected && !start)
            && t.data == s.data && t.buffer == s.buffer && t.wire == s.wire && t.clkMode == s.clkMode
            && t.lines == s.lines.(hold := t.lines.hold)
  {
  }

  /** After a reset everything reads zero, and the driver neither drives the lines nor holds the clock. */
  lemma AfterReset(s: State)
    ensures var t := Step(s, Reset);
            && t.clkMode == Strobe && t.wire == Disabled && t.data == ZERO && t.buffer == ZERO && t.counter == 0
            && !t.usiclk && t.flags == NO_FLAGS && !t.startDetected && !t.lines.hold && !t.lines.enabled
            && t.lines.clk == s.lines.clk && t.lines.di == s.lines.di
  {
  }

  // ---------- The two-wire modes ----------

  /** The data line falling while the clock is high is a start condition, rising a stop condition;
      while the clock is low, and in the other modes, it is neither. */
  lemma Conditions(s: State, level: bool)
    requires level != s.lines.di
    ensures var t := Step(s, Di(level)); var seen := TwoWires(s.wire) && s.lines.clk;
            && t.lines == s.lines.(di := level)
            && (t.flags.start <==> s.flags.start || (seen && !level))
            && (t.flags.stop <==> s.flags.stop || (seen && level))
            && (t.startDetected <==> s.startDetected || (seen && !level))
            && t.flags.ovf == s.flags.ovf && t.data == s.data && t.counter == s.counter
  {
  }

  /** An edge of the clock holds it down if it falls after a start condition, or if in the holding mode
      it is the sixteenth counted. */
  lemma HoldsIff(s: State, level: bool)
    requires level != s.lines.clk && !s.usiclk
    ensures var t := Step(s, Clk(level)); var counts := s.clkMode == PosEdge || s.clkMode == NegEdge;
            && (t.lines.hold <==> s.lines.hold || (s.startDetected && !level)
                                  || (counts && s.counter == 15 && s.wire == TwoWireHold))
            && (t.startDetected <==> s.startDetected && level)
            && t.counter == (if counts then Next(s.counter) else s.counter)
            && (t.flags.ovf <==> s.flags.ovf || (counts && s.counter == 15))
  {
    ClockEdgeIs(s.(lines := s.lines.(clk := level)), level);
  }

  lemma ClockEdgeIs(s: State, level: bool)
    requires !s.usiclk
    ensures var moved := if level == (s.clkMode == PosEdge) then Shifted(s) else OutputUpdated(s);
            && moved.lines.hold == s.lines.hold && moved.counter == s.counter && moved.flags == s.flags
            && moved.startDetected == s.startDetected && moved.wire == s.wire && moved.clkMode == s.clkMode
  {
    OutputIs(s);
  }

  /** The clock is let go by clearing the flag that holds it: the start flag, unless in the holding mode
      the overflow flag is still set; or in the holding mode the overflow flag, unless the start flag
      is still set. */
  lemma ReleasedIff(s: State, ovf: bool, start: bool, stop: bool, n: Nibble)
    requires s.lines.hold
    ensures var t := Step(s, WriteStatus(ovf, start, stop, n));
            !t.lines.hold <==>
              || (ovf && s.wire == TwoWireHold && !t.flags.start)
              || (start && (s.wire == TwoWire || (s.wire == TwoWireHold && !t.flags.ovf)))
  {
  }

  /** A start condition and the falling clock after it: the clock stays down, whatever the inputs then
      do, until USISR is written or the mode left. */
  lemma {:induction false} StaysHeld(s: State, es: seq<Event>)
    requires s.lines.hold && !s.usiclk && forall i | 0 <= i < |es| :: PinEvent(es[i])
    ensures Run(s, es).lines.hold
    decreases |es|
  {
    if es != [] {
      HeldStep(s, es[0]);
      StaysHeld(Step(s, es[0]), es[1..]);
    }
  }

  lemma HeldStep(s: State, e: Event)
    requires s.lines.hold && !s.usiclk && PinEvent(e)
    ensures Step(s, e).lines.hold && !Step(s, e).usiclk
  {
    if e.Clk? && e.level != s.lines.clk { HoldsIff(s, e.level); }
  }

  lemma StartHolds(s: State, es: seq<Event>)
    requires TwoWires(s.wire) && s.lines.clk && s.lines.di && !s.usiclk && forall i | 0 <= i < |es| :: PinEvent(es[i])
    ensures var t := Run(Step(Step(s, Di(false)), Clk(false)), es); t.lines.hold
    ensures Step(s, Di(false)).flags.start
  {
    Conditions(s, false);
    HoldsIff(Step(s, Di(false)), false);
    StaysHeld(Step(Step(s, Di(false)), Clk(false)), es);
  }

  // ---------- Two devices exchange their registers ----------

  datatype Pair = Pair(a: State, b: State)

  /** An edge reaches the first device, then the second; each output is the other's input. */
  function Linked(p: Pair, level: bool): Pair {
    var a := ClockPin(p.a, level);
    var b := ClockPin(DataPin(p.b, a.lines.drvDo), level);
    Pair(DataPin(a, b.lines.drvDo), b)
  }

  function Pulse(p: Pair): Pair { Linked(Linked(p, true), false) }

  function Pulses(p: Pair, n: nat): Pair {
    if n == 0 then p else Pulse(Pulses(p, n - 1))
  }

  /** Both devices wait for a rising edge, with their highest bit on the wire to the other. */
  predicate Coupled(p: Pair) {
    && Shifting(p.a) && Shifting(p.b) && !p.a.lines.clk && !p.b.lines.clk
    && p.a.lines.drvDo == Msb(p.a.data) && p.b.lines.drvDo == Msb(p.b.data)
    && p.a.lines.di == p.b.lines.drvDo && p.b.lines.di == p.a.lines.drvDo
    && p.a.counter == p.b.counter && p.a.counter % 2 == 0
  }

  /** A device before and after a rising and a falling edge. */
  function Raised(s: State): State {
    s.(data := ShiftLeft(s.data, s.lines.di), counter := Next(s.counter), lines := s.lines.(clk := true))
  }

  function Lowered(s: State): State {
    s.(counter := Next(s.counter), buffer := if s.counter == 15 then s.data else s.buffer,
       flags := if s.counter == 15 then s.flags.(ovf := true) else s.flags,
       lines := s.lines.(clk := false, drvDo := Msb(s.data)))
  }

  function WithInput(s: State, level: bool): State { s.(lines := s.lines.(di := level)) }

  predicate Shifting(s: State) { Sampling(s) && s.clkMode == PosEdge && s.wire == ThreeWire && !s.startDetected }

  lemma RisingEdge(s: State)
    requires Shifting(s) && !s.lines.clk && s.counter < 15
    ensures ClockPin(s, true) == Raised(s)
  {
  }

  lemma FallingEdge(s: State)
    requires Shifting(s) && s.lines.clk
    ensures ClockPin(s, false) == Lowered(s)
  {
  }

  lemma InputChange(s: State, level: bool)
    requires Shifting(s)
    ensures DataPin(s, level) == WithInput(s, level)
  {
  }

  lemma LinkedRise(p: Pair)
    requires Coupled(p)
    ensures Linked(p, true) == Pair(Raised(p.a), Raised(p.b))
  {
    RisingEdge(p.a);
    RisingEdge(p.b);
    InputChange(p.b, p.a.lines.drvDo);
    InputChange(Raised(p.a), p.b.lines.drvDo);
    assert WithInput(p.b, p.a.lines.drvDo) == p.b;
    assert WithInput(Raised(p.a), p.b.lines.drvDo) == Raised(p.a);
  }

  lemma LinkedFall(p: Pair)
    requires Shifting(p.a) && Shifting(p.b) && p.a.lines.clk && p.b.lines.clk
    ensures Linked(p, false) ==
            Pair(WithInput(Lowered(p.a), Msb(p.b.data)), Lowered(WithInput(p.b, Msb(p.a.data))))
  {
    FallingEdge(p.a);
    InputChange(p.b, Msb(p.a.data));
    FallingEdge(WithInput(p.b, Msb(p.a.data)));
    InputChange(Lowered(p.a), Msb(p.b.data));
  }

  /** One pulse moves the highest bit of each register to the lowest of the other. */
  predicate Pulsed(p: Pair, q: Pair) {
    && Coupled(q)
    && q.a.data == ShiftLeft(p.a.data, Msb(p.b.data)) && q.b.data == ShiftLeft(p.b.data, Msb(p.a.data))
    && q.a.counter == (if p.a.counter == 14 then 0 else p.a.counter + 2)
    && (p.a.counter == 14 ==> q.a.buffer == q.a.data && q.b.buffer == q.b.data && q.a.flags.ovf && q.b.flags.ovf)
  }

  lemma OnePulse(p: Pair)
    requires Coupled(p)
    ensures Pulsed(p, Pulse(p))
  {
    LinkedRise(p);
    LinkedFall(Pair(Raised(p.a), Raised(p.b)));
  }

  /** The registers are the two starting values rotated by `n` bits as one of sixteen. */
  predicate Rotated(p: Pair, q: Pair, n: nat)
    requires n <= 8
  {
    && Coupled(q) && q.a.counter == (if n == 8 then 0 else 2 * n)
    && q.a.data == p.a.data[n..] + p.b.data[..n] && q.b.data == p.b.data[n..] + p.a.data[..n]
    && (n == 8 ==> q.a.buffer == q.a.data && q.b.buffer == q.b.data && q.a.flags.ovf && q.b.flags.ovf)
  }

  lemma RotatedOneMore(p: Pair, q: Pair, r: Pair, n: nat)
    requires 0 < n <= 8 && Rotated(p, q, n - 1) && Pulsed(q, r)
    ensures Rotated(p, r, n)
  {
    RotateLeftOneMore(p.a.data, p.b.data, n);
    RotateLeftOneMore(p.b.data, p.a.data, n);
  }

  lemma {:induction false} PulsesRotate(p: Pair, n: nat)
    requires Coupled(p) && p.a.counter == 0 && n <= 8
    ensures Rotated(p, Pulses(p, n), n)
  {
    if n > 0 {
      PulsesRotate(p, n - 1);
      OnePulse(Pulses(p, n - 1));
      RotatedOneMore(p, Pulses(p, n - 1), Pulses(p, n), n);
    }
  }

  /** The exchange theorem. Two devices wired output to input, driven by the same clock
      pulses, one for each bit of the register, end with each other's data register, also in
      their buffer registers, and both report an overflow. */
  lemma Exchange(p: Pair)
    requires Coupled(p) && p.a.counter == 0
    ensures var q := Pulses(p, |p.a.data|);
            && q.a.data == p.b.data && q.b.data == p.a.data
            && q.a.buffer == p.b.data && q.b.buffer == p.a.data
            && q.a.flags.ovf && q.b.flags.ovf && q.a.counter == 0 && q.b.counter == 0 && Coupled(q)
  {
    PulsesRotate(p, |p.a.data|);
    FullRotation(p, Pulses(p, |p.a.data|));
  }

  lemma FullRotation(p: Pair, q: Pair)
    requires Rotated(p, q, |p.a.data|)
    ensures q.a.data == p.b.data && q.b.data == p.a.data
  {
    assert p.a.data[8..] + p.b.data[..8] == p.b.data;
    assert p.b.data[8..] + p.a.data[..8] == p.a.data;
  }

  // ---------- The peripheral ----------

  class Usi {
    var clkMode: ClockMode
    var wire: WireMode
    var data: Byte
    var buffer: Byte
    var counter: Nibble
    var usiclk: bool
    var flags: Flags
    var startDetected: bool
    var lines: Lines

    ghost function View(): State
      reads this
    {
      State(clkMode, wire, data, buffer, counter, usiclk, flags, startDetected, lines)
    }

    constructor (clkLevel: bool, dataLevel: bool)
      ensures View() == State(Strobe, Disabled, ZERO, ZERO, 0, false, NO_FLAGS, false,
                              Lines(clkLevel, dataLevel, false, false, false, false, false))
    {
      clkMode, wire, data, buffer, counter := Strobe, Disabled, ZERO, ZERO, 0;
      usiclk, flags, startDetected := false, NO_FLAGS, false;
      lines := Lines(clkLevel, dataLevel, false, false, false, false, false);
    }

    method IsOutputLatched() returns (latched: bool)
      ensures latched == OutputLatched(View())
    {
      latched := (clkMode == PosEdge && !lines.clk) || (clkMode == NegEdge && lines.clk);
    }

    method ShiftData()
      modifies `data
      ensures View() == Shifted(old(View()))
    {
      data := ShiftLeft(data, lines.di);
    }

    method UpdateDataOutput()
      modifies `lines
      ensures View() == OutputUpdated(old(View()))
    {
      var msb := data[0];
      if wire == ThreeWire {
        lines := lines.(drvDo := msb);
      } else if wire != Disabled {
        lines := lines.(drvSda := msb);
      }
    }

    method IncCounter()
      modifies `counter, `buffer, `flags, `lines
      ensures View() == Counted(old(View()))
    {
      counter := Next(counter);
      if counter == 0 {
        buffer := data;
        flags := flags.(ovf := true);
        if wire == TwoWireHold {
          lines := lines.(hold := true);
        }
      }
    }

    method ExternalEdge(sampling: bool)
      modifies `data, `lines, `counter, `buffer, `flags
      ensures View() == (var moved := if sampling then Shifted(old(View())) else OutputUpdated(old(View()));
                         if usiclk then moved else Counted(moved))
    {
      if sampling {
        ShiftData();
      } else {
        UpdateDataOutput();
      }
      if !usiclk {
        IncCounter();
      }
    }

    method ClockStateChanged(level: bool)
      modifies this
      ensures View() == ClockChanged(old(View()), level)
    {
      lines := lines.(clk := level);
      if clkMode == PosEdge {
        ExternalEdge(level);
      } else if clkMode == NegEdge {
        ExternalEdge(!level);
      }
      if startDetected && !level {
        startDetected := false;
        lines := lines.(hold := true);
      }
    }

    method DataStateChanged(level: bool)
      modifies this
      ensures View() == DataChanged(old(View()), level)
    {
      lines := lines.(di := level);
      if (wire == TwoWire || wire == TwoWireHold) && lines.clk {
        if level {
          flags := flags.(stop := true);
        } else {
          startDetected := true;
          flags := flags.(start := true);
        }
      }
    }

    /** The pin driver reports changes only. */
    method PinEvents(e: Event)
      requires PinEvent(e)
      modifies this
      ensures View() == Step(old(View()), e)
    {
      match e
      case Clk(level) =>
        if level != lines.clk {
          ClockStateChanged(level);
        }
      case Di(level) =>
        if level != lines.di {
          DataStateChanged(level);
        }
    }

    method ClockOnce()
      modifies `data, `counter, `buffer, `flags, `lines
      ensures View() == Clocked(old(View()))
    {
      ShiftData();
      UpdateDataOutput();
      IncCounter();
    }

    method TimerRaised()
      modifies `data, `counter, `buffer, `flags, `lines
      ensures View() == Step(old(View()), TimerMatch)
    {
      if clkMode == TimerCompare {
        ClockOnce();
      }
    }

    method SetWireMode(mode: WireMode, force: bool)
      modifies `wire, `startDetected, `lines
      ensures View() == WireModeSet(old(View()), mode, force)
    {
      if mode == wire && !force { return; }
      wire := mode;
      UpdateOutputIfOpen();
      DropHold();
    }

    method UpdateOutputIfOpen()
      modifies `lines
      ensures View() == OutputIfOpen(old(View()))
    {
      var latched := IsOutputLatched();
      if !latched {
        UpdateDataOutput();
      }
    }

    method DropHold()
      modifies `startDetected, `lines
      ensures View() == HoldDropped(old(View()))
    {
      lines := lines.(enabled := wire != Disabled);
      if !(wire == TwoWire || wire == TwoWireHold) {
        lines := lines.(hold := false);
        startDetected := false;
      }
    }

    method SelectClock(cs: ClockMode)
      modifies `clkMode, `lines
      ensures View() == ClockSelected(old(View()), cs)
    {
      var wasLatched := IsOutputLatched();
      clkMode := cs;
      var latched := IsOutputLatched();
      if wasLatched && !latched {
        UpdateDataOutput();
      }
    }

    method ToggleClock()
      modifies `counter, `buffer, `flags, `lines
      ensures View() == Toggled(old(View()))
    {
      lines := lines.(drvClk := !lines.drvClk);
      if (clkMode == PosEdge || clkMode == NegEdge) && usiclk {
        IncCounter();
      }
    }

    method WriteClockBits(strobe: bool, toggle: bool)
      modifies `data, `counter, `buffer, `flags, `lines
      ensures View() == ClockBits(old(View()), strobe, toggle)
    {
      if clkMode == Strobe && strobe {
        ClockOnce();
      }
      if toggle {
        ToggleClock();
      }
    }

    method WriteModes(mode: WireMode, cs: ClockMode)
      modifies `wire, `startDetected, `clkMode, `lines
      ensures View() == ClockSelected(WireModeSet(old(View()), mode, false), cs)
    {
      SetWireMode(mode, false);
      SelectClock(cs);
    }

    method WriteControlReg(mode: WireMode, cs: ClockMode, strobe: bool, toggle: bool)
      modifies this
      ensures View() == ControlWritten(old(View()), mode, cs, strobe, toggle)
    {
      usiclk := usiclk && !strobe;
      WriteModes(mode, cs);
      WriteClockBits(strobe, toggle);
    }

    method WriteStatusReg(clearOvf: bool, clearStart: bool, clearStop: bool, n: Nibble)
      modifies this
      ensures View() == StatusWritten(old(View()), clearOvf, clearStart, clearStop, n)
    {
      flags := Flags(flags.ovf && !clearOvf, flags.start && !clearStart, flags.stop && !clearStop);
      counter := n;
      var release := false;
      if clearOvf && wire == TwoWireHold && !flags.start {
        release := true;
      }
      if clearStart {
        startDetected := false;
        if wire == TwoWire || (wire == TwoWireHold && !flags.ovf) {
          release := true;
        }
      }
      if release {
        lines := lines.(hold := false);
      }
    }

    method WriteDataReg(d: Byte)
      modifies this
      ensures View() == Step(old(View()), WriteData(d))
    {
      data := d;
      UpdateOutputIfOpen();
    }

    /** The registers have been zeroed by the core. */
    method DoReset()
      modifies this
      ensures View() == WasReset(old(View()))
    {
      data, buffer, counter, usiclk, flags := ZERO, ZERO, 0, false, NO_FLAGS;
      clkMode := Strobe;
      SetWireMode(Disabled, true);
      startDetected := false;
    }
  }
}
