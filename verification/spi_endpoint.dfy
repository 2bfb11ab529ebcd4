/** A device on an SPI bus, bit by bit: a shift register with a separate output latch, clocked by
    the edges of the bus clock in any of the four modes and either bit order. */
module SpiEndPoint {
  import opened Bits

  /** `cpol` and `cpha` are the two bits of the serial mode; `out` is the level of the line driven
      by the end point. */
  datatype EndPoint = EndPoint(cpol: bool, cpha: bool, lsbFirst: bool,
                               step: nat, active: bool, shifter: Byte, clk: bool, out: bool)

  function OutBit(lsbFirst: bool, b: Byte): bool { if lsbFirst then Lsb(b) else Msb(b) }

  function ShiftedByte(lsbFirst: bool, b: Byte, bit: bool): Byte {
    if lsbFirst then ShiftRight(b, bit) else ShiftLeft(b, bit)
  }

  function OutputUpdated(ep: EndPoint): EndPoint { ep.(out := OutBit(ep.lsbFirst, ep.shifter)) }

  function Sampled(ep: EndPoint, input: bool): EndPoint {
    ep.(shifter := ShiftedByte(ep.lsbFirst, ep.shifter, input))
  }

  function Loaded(ep: EndPoint, frame: Byte): EndPoint { OutputUpdated(ep.(shifter := frame)) }

  function BitOrderSet(ep: EndPoint, lsbFirst: bool): EndPoint { OutputUpdated(ep.(lsbFirst := lsbFirst)) }

  function Activated(ep: EndPoint, active: bool): EndPoint {
    ep.(active := active, step := if active && !ep.active then 0 else ep.step)
  }

  /** The clock is now at `level`, the input line being at `input`. With CPHA clear the edge away
      from the idle level samples and the edge back shifts out; with CPHA set the other way round. */
  function Clocked(ep: EndPoint, level: bool, input: bool): EndPoint {
    if level == ep.clk then ep
    else if !ep.active then ep.(clk := level)
    else
      var e := ep.(clk := level);
      var leading := level != ep.cpol;
      var moved := if leading != ep.cpha then Sampled(e, input)
                   else if ep.cpha || ep.step < 15 then OutputUpdated(e) else e;
      moved.(step := if ep.step < 15 then ep.step + 1 else 0)
  }

  /** This clock change ends a frame. */
  predicate Completes(ep: EndPoint, level: bool) { ep.active && level != ep.clk && ep.step >= 15 }

  /** An end point that is not active only follows the level of the clock. */
  lemma InactiveFollows(ep: EndPoint, level: bool, input: bool)
    requires !ep.active
    ensures Clocked(ep, level, input) == ep.(clk := level)
  {
  }

  /** Activation starts a frame, and loading one puts its first bit on the line, by bit order. */
  lemma StartOfFrame(ep: EndPoint, frame: Byte)
    requires !ep.active
    ensures var e := Activated(Loaded(ep, frame), true);
            && e.active && e.step == 0 && e.shifter == frame && e.clk == ep.clk
            && e.out == if ep.lsbFirst then frame[7] else frame[0]
    ensures !Activated(ep, false).active
  {
  }

  // ---------- One frame ----------

  /** Between two clock pulses, `k` bits of the frame done. */
  predicate Resting(ep: EndPoint, k: nat) {
    && ep.active && ep.clk == ep.cpol
    && ep.step == (if k == 8 then 0 else 2 * k)
    && (!ep.cpha && k < 8 ==> ep.out == OutBit(ep.lsbFirst, ep.shifter))
  }

  /** A clock pulse: away from the idle level and back. */
  function Pulsed(ep: EndPoint, in0: bool, in1: bool): EndPoint {
    Clocked(Clocked(ep, !ep.cpol, in0), ep.cpol, in1)
  }

  /** Level of the output line when the far end samples it. */
  function Driven(ep: EndPoint, in0: bool): bool {
    if ep.cpha then Clocked(ep, !ep.cpol, in0).out else ep.out
  }

  /** Each pulse puts the next bit of the register on the line and takes one in, and only the
      eighth ends the frame. */
  lemma OnePulse(ep: EndPoint, k: nat, in0: bool, in1: bool)
    requires k < 8 && Resting(ep, k)
    ensures var e := Pulsed(ep, in0, in1); var mid := Clocked(ep, !ep.cpol, in0);
            && Resting(e, k + 1)
            && e.shifter == ShiftedByte(ep.lsbFirst, ep.shifter, if ep.cpha then in1 else in0)
            && Driven(ep, in0) == OutBit(ep.lsbFirst, ep.shifter)
            && e.lsbFirst == ep.lsbFirst && e.cpha == ep.cpha && e.cpol == ep.cpol
            && !Completes(ep, !ep.cpol) && (Completes(mid, ep.cpol) <==> k == 7)
  {
  }

  /** The levels of the input line at the two edges of each pulse. */
  type Input = seq<(bool, bool)>

  function PulsedBy(ep: EndPoint, ins: Input, n: nat): EndPoint
    requires n <= |ins|
  {
    if n == 0 then ep else var e := PulsedBy(ep, ins, n - 1); Pulsed(e, ins[n - 1].0, ins[n - 1].1)
  }

  /** The bits an end point samples, and the bits it drives when the far end samples. */
  function Taken(cpha: bool, ins: Input, n: nat): (bits: seq<bool>)
    requires n <= |ins|
    ensures |bits| == n
  {
    if n == 0 then [] else Taken(cpha, ins, n - 1) + [if cpha then ins[n - 1].1 else ins[n - 1].0]
  }

  function Given(ep: EndPoint, ins: Input, n: nat): (bits: seq<bool>)
    requires n <= |ins|
    ensures |bits| == n
  {
    if n == 0 then [] else Given(ep, ins, n - 1) + [Driven(PulsedBy(ep, ins, n - 1), ins[n - 1].0)]
  }

  /** The byte whose bits travel in the given order on the line. */
  function FromLine(lsbFirst: bool, bits: seq<bool>): Byte
    requires |bits| == 8
  {
    if lsbFirst then Reversed(bits) else bits
  }

  function Reversed(bits: seq<bool>): (r: seq<bool>)
    ensures |r| == |bits| && forall i :: 0 <= i < |r| ==> r[i] == bits[|bits| - 1 - i]
  {
    if bits == [] then [] else Reversed(bits[1..]) + [bits[0]]
  }

  /** `bits` have gone into the register `x`, and as many have left it in the same order. */
  predicate Passed(ep: EndPoint, x: Byte, taken: seq<bool>, given: seq<bool>)
    requires |taken| == |given| <= 8
  {
    var n := |taken|;
    if ep.lsbFirst then ep.shifter == Reversed(taken) + x[..8 - n] && given == Reversed(x)[..n]
    else ep.shifter == x[n..] + taken && given == x[..n]
  }

  lemma LowFirst(x: Byte, taken: seq<bool>, bit: bool)
    requires |taken| < 8
    ensures ShiftRight(Reversed(taken) + x[..8 - |taken|], bit) == Reversed(taken + [bit]) + x[..7 - |taken|]
    ensures Reversed(x)[..|taken|] + [x[7 - |taken|]] == Reversed(x)[..|taken| + 1]
  {
    assert Reversed(taken + [bit]) == [bit] + Reversed(taken);
  }

  lemma HighFirst(x: Byte, taken: seq<bool>, bit: bool)
    requires |taken| < 8
    ensures ShiftLeft(x[|taken|..] + taken, bit) == x[|taken| + 1..] + (taken + [bit])
    ensures x[..|taken|] + [x[|taken|]] == x[..|taken| + 1]
  {
  }

  lemma PassedOneMore(ep: EndPoint, e: EndPoint, x: Byte, taken: seq<bool>, given: seq<bool>, bit: bool)
    requires |taken| == |given| < 8 && Passed(ep, x, taken, given) && e.lsbFirst == ep.lsbFirst
    requires e.shifter == ShiftedByte(ep.lsbFirst, ep.shifter, bit)
    ensures Passed(e, x, taken + [bit], given + [OutBit(ep.lsbFirst, ep.shifter)])
  {
    if ep.lsbFirst { LowFirst(x, taken, bit); } else { HighFirst(x, taken, bit); }
  }

  /** The end point `e` that `ep` has become after the bits `taken` and `given`. */
  predicate Follows(ep: EndPoint, e: EndPoint, taken: seq<bool>, given: seq<bool>)
    requires |taken| == |given| <= 8
  {
    && Resting(e, |taken|) && e.lsbFirst == ep.lsbFirst && e.cpha == ep.cpha && e.cpol == ep.cpol
    && Passed(e, ep.shifter, taken, given)
  }

  lemma PulseFollows(ep: EndPoint, e: EndPoint, taken: seq<bool>, given: seq<bool>, in0: bool, in1: bool)
    requires |taken| == |given| < 8 && Follows(ep, e, taken, given)
    ensures Follows(ep, Pulsed(e, in0, in1), taken + [if ep.cpha then in1 else in0], given + [Driven(e, in0)])
  {
    OnePulse(e, |taken|, in0, in1);
    PassedOneMore(e, Pulsed(e, in0, in1), ep.shifter, taken, given, if e.cpha then in1 else in0);
  }

  lemma {:induction false} PulsesPass(ep: EndPoint, ins: Input, n: nat)
    requires n <= |ins| && n <= 8 && Resting(ep, 0)
    ensures Follows(ep, PulsedBy(ep, ins, n), Taken(ep.cpha, ins, n), Given(ep, ins, n))
  {
    if n > 0 {
      PulsesPass(ep, ins, n - 1);
      var e, taken, given := PulsedBy(ep, ins, n - 1), Taken(ep.cpha, ins, n - 1), Given(ep, ins, n - 1);
      PulseFollows(ep, e, taken, given, ins[n - 1].0, ins[n - 1].1);
    }
  }

  /** One frame, whatever is at the far end: the register ends with the byte sampled from the
      line, and the byte it held is what the far end could sample. */
  lemma OneFrame(ep: EndPoint, ins: Input)
    requires |ins| == |ep.shifter| && Resting(ep, 0)
    ensures FrameDone(ep, PulsedBy(ep, ins, |ins|), Taken(ep.cpha, ins, |ins|), Given(ep, ins, |ins|))
  {
    var n := |ins|;
    var e, taken, given := PulsedBy(ep, ins, n), Taken(ep.cpha, ins, n), Given(ep, ins, n);
    PulsesPass(ep, ins, n);
    WholeByte(e, ep.shifter, taken, given);
  }

  predicate FrameDone(ep: EndPoint, e: EndPoint, taken: seq<bool>, given: seq<bool>)
    requires |taken| == |given| == 8
  {
    && e.step == 0 && e.clk == ep.cpol
    && e.shifter == FromLine(ep.lsbFirst, taken) && FromLine(ep.lsbFirst, given) == ep.shifter
  }

  lemma WholeByte(ep: EndPoint, x: Byte, taken: seq<bool>, given: seq<bool>)
    requires |taken| == |given| == 8 && Passed(ep, x, taken, given)
    ensures ep.shifter == FromLine(ep.lsbFirst, taken) && FromLine(ep.lsbFirst, given) == x
  {
    if ep.lsbFirst {
      assert Reversed(taken) + x[..0] == Reversed(taken) && Reversed(x)[..8] == Reversed(x);
      ReversedTwice(x);
    } else {
      assert x[8..] + taken == taken && x[..8] == x;
    }
  }

  lemma ReversedTwice(x: seq<bool>)
    ensures Reversed(Reversed(x)) == x
  {
  }

  // ---------- Two end points on a bus ----------

  datatype Bus = Bus(host: EndPoint, client: EndPoint)

  /** The host moves the clock, then the client sees it; each samples the line the other drives. */
  function Toggled(b: Bus, level: bool): Bus {
    var h := Clocked(b.host, level, b.client.out);
    Bus(h, Clocked(b.client, level, h.out))
  }

  function Pulse(b: Bus): Bus { Toggled(Toggled(b, !b.host.cpol), b.host.cpol) }

  function Pulses(b: Bus, n: nat): Bus {
    if n == 0 then b else Pulse(Pulses(b, n - 1))
  }

  /** The two agree on the mode and the bit order. */
  predicate Matched(b: Bus, k: nat) {
    && b.host.cpol == b.client.cpol && b.host.cpha == b.client.cpha && b.host.lsbFirst == b.client.lsbFirst
    && Resting(b.host, k) && Resting(b.client, k)
  }

  /** Each takes in the bit the other has at its end of the register. */
  predicate Swapped(b: Bus, c: Bus) {
    var lsb := b.host.lsbFirst;
    && c.host.lsbFirst == lsb
    && c.host.shifter == ShiftedByte(lsb, b.host.shifter, OutBit(lsb, b.client.shifter))
    && c.client.shifter == ShiftedByte(lsb, b.client.shifter, OutBit(lsb, b.host.shifter))
  }

  lemma BusPulse(b: Bus, k: nat)
    requires k < 8 && Matched(b, k)
    ensures Matched(Pulse(b), k + 1) && Swapped(b, Pulse(b))
  {
    var m := Toggled(b, !b.host.cpol);
    OnePulse(b.host, k, b.client.out, m.client.out);
    OnePulse(b.client, k, m.host.out, Pulse(b).host.out);
  }

  /** After `n` pulses `n` bits have changed places. */
  predicate Exchanged(b: Bus, c: Bus, n: nat)
    requires n <= 8
  {
    && c.host.lsbFirst == b.host.lsbFirst
    && var x := b.host.shifter; var y := b.client.shifter;
       if b.host.lsbFirst then
         c.host.shifter == y[8 - n..] + x[..8 - n] && c.client.shifter == x[8 - n..] + y[..8 - n]
       else
         c.host.shifter == x[n..] + y[..n] && c.client.shifter == y[n..] + x[..n]
  }

  lemma ExchangedOneMore(b: Bus, c: Bus, d: Bus, n: nat)
    requires 0 < n <= 8 && Exchanged(b, c, n - 1) && Swapped(c, d)
    ensures Exchanged(b, d, n)
  {
    var x, y := b.host.shifter, b.client.shifter;
    if b.host.lsbFirst {
      RotateRightOneMore(x, y, n);
      RotateRightOneMore(y, x, n);
    } else {
      RotateLeftOneMore(x, y, n);
      RotateLeftOneMore(y, x, n);
    }
  }

  lemma {:induction false} BusPulses(b: Bus, n: nat)
    requires n <= 8 && Matched(b, 0)
    ensures Matched(Pulses(b, n), n) && Exchanged(b, Pulses(b, n), n)
  {
    if n > 0 {
      BusPulses(b, n - 1);
      BusPulse(Pulses(b, n - 1), n - 1);
      ExchangedOneMore(b, Pulses(b, n - 1), Pulses(b, n), n);
    }
  }

  /** The exchange theorem: in every mode and bit order, as many clock pulses as the register
      has bits swap the bytes of the two end points and bring both back to the start of a frame. */
  lemma Exchange(b: Bus)
    requires Matched(b, 0)
    ensures var c := Pulses(b, |b.host.shifter|);
            && c.host.shifter == b.client.shifter && c.client.shifter == b.host.shifter
            && c.host.step == 0 && c.client.step == 0
  {
    BusPulses(b, |b.host.shifter|);
    FullExchange(b, Pulses(b, |b.host.shifter|));
  }

  lemma FullExchange(b: Bus, c: Bus)
    requires Exchanged(b, c, |b.host.shifter|)
    ensures c.host.shifter == b.client.shifter && c.client.shifter == b.host.shifter
  {
    var x, y := b.host.shifter, b.client.shifter;
    assert x[8..] + y[..8] == y && y[8..] + x[..8] == x;
    assert y[0..] + x[..0] == y && x[0..] + y[..0] == x;
  }

  // ---------- The object ----------

  class Device {
    var cpol: bool
    var cpha: bool
    var lsbFirst: bool
    var step: nat
    var active: bool
    var shifter: Byte
    var clk: bool
    var out: bool

    ghost function View(): EndPoint
      reads this
    {
      EndPoint(cpol, cpha, lsbFirst, step, active, shifter, clk, out)
    }

    constructor ()
      ensures View() == EndPoint(false, false, false, 0, false, ZERO, false, false)
    {
      cpol, cpha, lsbFirst, step, active, shifter, clk, out := false, false, false, 0, false, ZERO, false, false;
    }

    method SetBitOrder(lsb: bool)
      modifies `lsbFirst, `out
      ensures View() == BitOrderSet(old(View()), lsb)
    {
      lsbFirst := lsb;
      UpdateSdo();
    }

    method SetShiftData(frame: Byte)
      modifies `shifter, `out
      ensures View() == Loaded(old(View()), frame)
    {
      shifter := frame;
      UpdateSdo();
    }

    method SetActive(on: bool)
      modifies `active, `step
      ensures View() == Activated(old(View()), on)
    {
      if on && !active {
        step := 0;
      }
      active := on;
    }

    method UpdateSdo()
      modifies `out
      ensures View() == OutputUpdated(old(View()))
    {
      out := if lsbFirst then shifter[7] else shifter[0];
    }

    method ShiftAndSample(input: bool)
      modifies `shifter
      ensures View() == Sampled(old(View()), input)
    {
      if lsbFirst {
        shifter := ShiftRight(shifter, input);
      } else {
        shifter := ShiftLeft(shifter, input);
      }
    }

    /** `completed` is the call of the upper layer at the last edge of a frame. */
    method SetShiftClock(level: bool, input: bool) returns (completed: bool)
      modifies `clk, `out, `shifter, `step
      ensures View() == Clocked(old(View()), level, input)
      ensures completed == Completes(old(View()), level)
    {
      completed := false;
      if level == clk { return; }
      clk := level;
      if !active { return; }
      var state := if cpol then !level else level;
      if cpha {
        if state { UpdateSdo(); } else { ShiftAndSample(input); }
      } else {
        if state {
          ShiftAndSample(input);
        } else if step < 15 {
          UpdateSdo();
        }
      }
      if step < 15 {
        step := step + 1;
      } else {
        step := 0;
        completed := true;
      }
    }
  }
}
