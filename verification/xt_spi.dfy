/** The XMEGA-style SPI controller: a transmitter with one buffered frame, a receive queue of
    three frames, and the flags that report on both.

    A frame is taken as a whole here: the bits of a frame are the subject of module SpiEndPoint,
    whose OneFrame says that the byte loaded is the byte given to the line and the byte sampled
    is the byte found in the register. Events that can end a frame carry that sampled byte. */
module XtSpi {
  import opened Bits
  import opened Subsequences

  datatype Mode = Disabled | Host | Client

  /** INTFLAGS. In normal mode the first two are IF and WRCOL, and the others do not exist. */
  datatype Flags = Flags(rxc: bool, txc: bool, dre: bool, ss: bool, bufovf: bool)

  const NONE := Flags(false, false, false, false, false)

  function Or(f: Flags, g: Flags): Flags {
    Flags(f.rxc || g.rxc, f.txc || g.txc, f.dre || g.dre, f.ss || g.ss, f.bufovf || g.bufovf)
  }

  function Minus(f: Flags, g: Flags): Flags {
    Flags(f.rxc && !g.rxc, f.txc && !g.txc, f.dre && !g.dre, f.ss && !g.ss, f.bufovf && !g.bufovf)
  }

  /** The flags that exist in the mode. */
  function Masked(f: Flags, bufEnabled: bool): Flags {
    if bufEnabled then f else Flags(f.rxc, f.txc, false, false, false)
  }

  datatype CtrlA = CtrlA(enable: bool, master: bool)

  datatype CtrlB = CtrlB(bufen: bool, bufwr: bool, ssd: bool)

  /** `bufEnabled` is the copy of BUFEN kept by the interrupt handler, `cleared` the flags written
      to INTFLAGS since the last read of DATA, `idle` the idle level of the clock. */
  datatype State = State(
    mode: Mode, active: bool, step: nat, clk: bool, idle: bool,
    shift: Byte, txBuf: Byte, txLoaded: bool, rx: seq<Byte>,
    timer: bool, selected: bool,
    bufEnabled: bool, flags: Flags, cleared: Flags,
    ctrla: CtrlA, ctrlb: CtrlB)

  // ---------- Flags ----------

  function FlagsSet(s: State, f: Flags): State { s.(flags := Or(s.flags, Masked(f, s.bufEnabled))) }

  function FlagsCleared(s: State, f: Flags): State { s.(flags := Minus(s.flags, Masked(f, s.bufEnabled))) }

  // ---------- The controller ----------

  /** The end of a frame as the registers see it. */
  function Reported(s: State): State {
    if s.ctrlb.bufen then
      FlagsSet(s, Flags(true, !s.txLoaded, true, false, false))
    else
      FlagsSet(s, NONE.(rxc := true)).(rx := if |s.rx| > 1 then s.rx[|s.rx| - 1..] else s.rx)
  }

  /** The end of a frame: `frame` is in the shift register. */
  function FrameCompleted(s: State, frame: Byte): State {
    Reported(s.(shift := frame, rx := if |s.rx| < 3 then s.rx + [frame] else s.rx))
  }

  /** The clock line goes to `level`; `frame` is what the register holds if that ends a frame. */
  function ClockTo(s: State, level: bool, frame: Byte): State {
    if level == s.clk then s
    else if !s.active then s.(clk := level)
    else if s.step < 15 then s.(clk := level, step := s.step + 1)
    else FrameCompleted(s.(clk := level, step := 0), frame)
  }

  function Activated(s: State): State { if s.active then s else s.(active := true, step := 0) }

  function WithoutShiftFrame(rx: seq<Byte>): seq<Byte> { if |rx| == 3 then rx[..2] else rx }

  function TransferStarted(s: State): State {
    Activated(s).(timer := true, rx := WithoutShiftFrame(s.rx))
  }

  function TxPushed(s: State, data: Byte, force: bool): State {
    var t := if s.active || force then s.(txBuf := data, txLoaded := true) else s.(shift := data);
    if t.mode == Host && !t.active then TransferStarted(t) else t
  }

  /** The host timer: the next edge of the clock, and after the last one the next frame. */
  function TimerNext(s: State, frame: Byte): State {
    var t := ClockTo(s, !s.clk, frame);
    if t.step != 0 then t
    else if t.txLoaded then t.(shift := t.txBuf, txLoaded := false)
    else t.(active := false, timer := false, clk := t.idle)
  }

  function ClientSelected(s: State, selected: bool): State {
    if selected then Activated(s) else s.(active := false)
  }

  /** A host that is selected by another one steps back to client, unless SSD is set. */
  function HostSelected(s: State): State {
    if s.ctrlb.ssd then s
    else
      var t := ClientSelected(s.(ctrla := s.ctrla.(master := false), mode := Client), s.selected);
      FlagsSet(t, if s.ctrlb.bufen then NONE.(ss := true) else NONE.(rxc := true))
  }

  function SelectChanged(s: State, selected: bool): State { SelectSeen(s.(selected := selected)) }

  function SelectSeen(s: State): State {
    match s.mode
    case Disabled => s
    case Host => if s.selected then HostSelected(s) else s
    case Client => ClientSelected(s, s.selected)
  }

  /** The clock line of a host is brought to its idle level. */
  function ClockIdled(s: State, frame: Byte): State { if s.mode == Host then ClockTo(s, s.idle, frame) else s }

  function ModeSet(s: State, mode: Mode, frame: Byte): State {
    if mode == s.mode then s else SelectChanged(ClockIdled(s.(mode := mode), frame), s.selected)
  }

  // ---------- Registers ----------

  function CtrlAWritten(s: State, r: CtrlA, frame: Byte): State {
    ModeSet(s.(ctrla := r), if !r.enable then Disabled else if r.master then Host else Client, frame)
  }

  function CtrlBWritten(s: State, r: CtrlB, idle: bool, frame: Byte): State {
    BufferSet(ClockIdled(s.(ctrlb := r, idle := idle), frame), r.bufen)
  }

  /** The interrupt handler takes over BUFEN. */
  function BufferSet(s: State, on: bool): State { s.(bufEnabled := on, flags := Masked(s.flags, on)) }

  /** In buffer mode all but DREIF are cleared at once; and all are cleared at the next read of
      DATA. */
  function IntFlagsWritten(s: State, f: Flags): State {
    var t := if s.ctrlb.bufen then FlagsCleared(s, f.(dre := false)) else s;
    t.(cleared := Or(t.cleared, Masked(f, t.bufEnabled)))
  }

  function BufferedWrite(s: State, data: Byte): State {
    DreUpdated(TxPushed(OverflowMarked(s), data, s.mode == Client && !s.ctrlb.bufwr))
  }

  function OverflowMarked(s: State): State { if |s.rx| == 3 then FlagsSet(s, NONE.(bufovf := true)) else s }

  function DreUpdated(s: State): State { if s.txLoaded then FlagsCleared(s, NONE.(dre := true)) else s }

  function DataWritten(s: State, data: Byte): State {
    if !s.ctrla.enable then s
    else if s.ctrlb.bufen then BufferedWrite(s, data)
    else if s.active then FlagsSet(s, NONE.(txc := true))
    else TxPushed(s, data, false)
  }

  /** The flags written to INTFLAGS are cleared by the read of DATA that follows. */
  function PendingCleared(s: State): State { FlagsCleared(s, s.cleared).(cleared := NONE) }

  function DataRead(s: State): State {
    var rx := if s.rx == [] then [] else s.rx[1..];
    var t := if s.ctrlb.bufen then FlagsCleared(s, Flags(rx == [], false, false, false, true)) else s;
    PendingCleared(t).(rx := rx)
  }

  /** A transfer made by the simulation itself, in one step. */
  function MockTransferred(s: State, frame: Byte): State {
    Reported(s.(shift := frame, rx := WithoutShiftFrame(s.rx) + [frame]))
  }

  datatype Event =
    | WriteCtrlA(a: CtrlA, in0: Byte)
    | WriteCtrlB(b: CtrlB, level: bool, in1: Byte)
    | WriteIntFlags(mask: Flags)
    | WriteData(data: Byte)
    | ReadData
    | Timer(in2: Byte)
    | ClockPin(clk: bool, in3: Byte)
    | SelectPin(selected: bool)
    | Mock(in4: Byte)

  /** The client follows the clock pin; the host ignores it. The timer fires only when it is
      running. */
  function PinStep(s: State, e: Event): State {
    match e
    case Timer(f) => if s.timer then TimerNext(s, f) else s
    case ClockPin(level, f) => if s.mode != Host then ClockTo(s, level, f) else s
    case SelectPin(sel) => SelectChanged(s, sel)
    case Mock(f) => MockTransferred(s, f)
    case _ => s
  }

  function Step(s: State, e: Event): State {
    match e
    case WriteCtrlA(r, f) => CtrlAWritten(s, r, f)
    case WriteCtrlB(r, idle, f) => CtrlBWritten(s, r, idle, f)
    case WriteIntFlags(f) => IntFlagsWritten(s, f)
    case WriteData(d) => DataWritten(s, d)
    case ReadData => DataRead(s)
    case _ => PinStep(s, e)
  }

  function Run(s: State, es: seq<Event>): State
    decreases |es|
  {
    if es == [] then s else Run(Step(s, es[0]), es[1..])
  }

  /** After a reset the data register is empty; the handler keeps its copy of BUFEN. */
  function WasReset(s: State): State {
    State(Disabled, false, s.step, false, s.idle, ZERO, s.txBuf, false, [], false, s.selected,
          s.bufEnabled, NONE.(dre := true), NONE, CtrlA(false, false), CtrlB(false, false, false))
  }

  // ---------- The receive queue ----------

  predicate Ends(s: State, level: bool) { level != s.clk && s.active && s.step >= 15 }

  /** The frame that ends at this step, if any. */
  function Received(s: State, e: Event): seq<Byte> {
    match e
    case WriteCtrlA(r, f) => if r.enable && r.master && s.mode != Host && Ends(s, s.idle) then [f] else []
    case WriteCtrlB(r, idle, f) => if s.mode == Host && Ends(s, idle) then [f] else []
    case Timer(f) => if s.timer && Ends(s, !s.clk) then [f] else []
    case ClockPin(level, f) => if s.mode != Host && Ends(s, level) then [f] else []
    case Mock(f) => [f]
    case _ => []
  }

  /** The frame a read of DATA takes out of the queue. */
  function Taken(s: State, e: Event): seq<Byte> {
    if e.ReadData? && s.rx != [] then [s.rx[0]] else []
  }

  function ReceivedAll(s: State, es: seq<Event>): seq<Byte>
    decreases |es|
  {
    if es == [] then [] else Received(s, es[0]) + ReceivedAll(Step(s, es[0]), es[1..])
  }

  function TakenAll(s: State, es: seq<Event>): seq<Byte>
    decreases |es|
  {
    if es == [] then [] else Taken(s, es[0]) + TakenAll(Step(s, es[0]), es[1..])
  }

  predicate Part(rx: seq<Byte>, whole: seq<Byte>) { Subsequence(rx, whole) && |rx| <= 3 }

  /** Nothing of the queue `rx` is reordered or repeated by the step, and it stays short. */
  predicate StepPart(s: State, e: Event, t: State) {
    |t.rx| <= 3 && Subsequence(Taken(s, e) + t.rx, s.rx + Received(s, e))
  }

  lemma NothingRead(s: State, e: Event, t: State)
    requires !e.ReadData? && Part(t.rx, s.rx + Received(s, e))
    ensures StepPart(s, e, t)
  {
    assert [] + t.rx == t.rx;
  }

  lemma NothingReceived(s: State, e: Event, t: State)
    requires !e.ReadData? && Received(s, e) == [] && Part(t.rx, s.rx)
    ensures StepPart(s, e, t)
  {
    assert s.rx + [] == s.rx;
    NothingRead(s, e, t);
  }

  lemma SamePart(rx: seq<Byte>)
    requires |rx| <= 3
    ensures Part(rx, rx)
  {
    Reflexive(rx);
  }

  lemma ReportedQueue(s: State)
    requires |s.rx| <= 3
    ensures Part(Reported(s).rx, s.rx)
  {
    Reflexive(s.rx);
    if |s.rx| > 1 { Drop(s.rx, |s.rx| - 1); }
  }

  lemma FrameCompletedQueue(s: State, f: Byte)
    requires |s.rx| <= 3
    ensures Part(FrameCompleted(s, f).rx, s.rx + [f])
  {
    var q := if |s.rx| < 3 then s.rx + [f] else s.rx;
    Reflexive(s.rx + [f]);
    Take(s.rx + [f], |s.rx|);
    assert (s.rx + [f])[..|s.rx|] == s.rx;
    ReportedQueue(s.(shift := f, rx := q));
    Transitive(FrameCompleted(s, f).rx, q, s.rx + [f]);
  }

  lemma ClockToQueue(s: State, level: bool, f: Byte)
    requires |s.rx| <= 3
    ensures if Ends(s, level) then Part(ClockTo(s, level, f).rx, s.rx + [f]) else ClockTo(s, level, f).rx == s.rx
  {
    if Ends(s, level) {
      FrameCompletedQueue(s.(clk := level, step := 0), f);
    }
  }

  lemma SelectKeepsQueue(s: State, sel: bool)
    ensures SelectChanged(s, sel).rx == s.rx
  {
    if s.mode == Host && sel { HostSelectKeepsQueue(s.(selected := sel)); }
  }

  lemma HostSelectKeepsQueue(s: State)
    ensures HostSelected(s).rx == s.rx
  {
  }

  lemma ModeSetQueue(s: State, mode: Mode, f: Byte)
    requires |s.rx| <= 3
    ensures var t := ModeSet(s, mode, f);
            if mode == Host && mode != s.mode && Ends(s, s.idle) then Part(t.rx, s.rx + [f]) else t.rx == s.rx
  {
    var u := s.(mode := mode);
    ClockToQueue(u, u.idle, f);
    SelectKeepsQueue(ClockIdled(u, f), s.selected);
  }

  lemma CtrlAQueue(s: State, r: CtrlA, f: Byte)
    requires |s.rx| <= 3
    ensures StepPart(s, WriteCtrlA(r, f), CtrlAWritten(s, r, f))
  {
    var e, t := WriteCtrlA(r, f), CtrlAWritten(s, r, f);
    ModeSetQueue(s.(ctrla := r), if !r.enable then Disabled else if r.master then Host else Client, f);
    if Received(s, e) != [] {
      NothingRead(s, e, t);
    } else {
      SamePart(s.rx);
      NothingReceived(s, e, t);
    }
  }

  lemma CtrlBQueue(s: State, r: CtrlB, idle: bool, f: Byte)
    requires |s.rx| <= 3
    ensures StepPart(s, WriteCtrlB(r, idle, f), CtrlBWritten(s, r, idle, f))
  {
    var e, t := WriteCtrlB(r, idle, f), CtrlBWritten(s, r, idle, f);
    SamePart(s.rx);
    ClockToQueue(s.(ctrlb := r, idle := idle), idle, f);
    if s.mode == Host && Ends(s, idle) {
      NothingRead(s, e, t);
    } else {
      NothingReceived(s, e, t);
    }
  }

  lemma MockQueue(s: State, f: Byte)
    requires |s.rx| <= 3
    ensures StepPart(s, Mock(f), MockTransferred(s, f))
  {
    var kept := WithoutShiftFrame(s.rx);
    Take(s.rx, |kept|);
    SameSuffix(kept, s.rx, [f]);
    ReportedQueue(s.(shift := f, rx := kept + [f]));
    Transitive(MockTransferred(s, f).rx, kept + [f], s.rx + [f]);
    NothingRead(s, Mock(f), MockTransferred(s, f));
  }

  lemma PushQueue(s: State, d: Byte, force: bool)
    ensures TxPushed(s, d, force).rx == s.rx || TxPushed(s, d, force).rx == WithoutShiftFrame(s.rx)
  {
  }

  lemma MarksKeepQueue(s: State)
    ensures OverflowMarked(s).rx == s.rx && DreUpdated(s).rx == s.rx
  {
  }

  lemma BufferedQueue(s: State, d: Byte)
    ensures BufferedWrite(s, d).rx == s.rx || BufferedWrite(s, d).rx == WithoutShiftFrame(s.rx)
  {
    var u, force := OverflowMarked(s), s.mode == Client && !s.ctrlb.bufwr;
    MarksKeepQueue(s);
    PushQueue(u, d, force);
    MarksKeepQueue(TxPushed(u, d, force));
  }

  lemma WrittenQueue(s: State, d: Byte)
    ensures DataWritten(s, d).rx == s.rx || DataWritten(s, d).rx == WithoutShiftFrame(s.rx)
  {
    if s.ctrlb.bufen { BufferedQueue(s, d); } else { PushQueue(s, d, false); }
  }

  lemma WriteQueue(s: State, d: Byte, t: State)
    requires |s.rx| <= 3 && t.rx in {s.rx, WithoutShiftFrame(s.rx)}
    ensures StepPart(s, WriteData(d), t)
  {
    SamePart(s.rx);
    Take(s.rx, |WithoutShiftFrame(s.rx)|);
    NothingReceived(s, WriteData(d), t);
  }

  lemma ReadQueue(s: State)
    requires |s.rx| <= 3
    ensures StepPart(s, ReadData, DataRead(s))
  {
    PopQueue(s, DataRead(s));
  }

  lemma PopQueue(s: State, t: State)
    requires |s.rx| <= 3 && t.rx == if s.rx == [] then [] else s.rx[1..]
    ensures StepPart(s, ReadData, t)
  {
    assert Taken(s, ReadData) + t.rx == s.rx;
    Reflexive(s.rx);
    assert s.rx + [] == s.rx;
  }

  lemma TimerQueue(s: State, f: Byte)
    requires |s.rx| <= 3 && s.timer
    ensures StepPart(s, Timer(f), TimerNext(s, f))
  {
    SamePart(s.rx);
    ClockToQueue(s, !s.clk, f);
    if Ends(s, !s.clk) { NothingRead(s, Timer(f), TimerNext(s, f)); }
    else { NothingReceived(s, Timer(f), TimerNext(s, f)); }
  }

  lemma ClockPinQueue(s: State, level: bool, f: Byte)
    requires |s.rx| <= 3 && s.mode != Host
    ensures StepPart(s, ClockPin(level, f), ClockTo(s, level, f))
  {
    SamePart(s.rx);
    ClockToQueue(s, level, f);
    if Ends(s, level) { NothingRead(s, ClockPin(level, f), ClockTo(s, level, f)); }
    else { NothingReceived(s, ClockPin(level, f), ClockTo(s, level, f)); }
  }

  lemma PinQueue(s: State, e: Event)
    requires |s.rx| <= 3 && (e.Timer? || e.ClockPin? || e.SelectPin? || e.Mock?)
    ensures StepPart(s, e, PinStep(s, e))
  {
    SamePart(s.rx);
    match e
    case Timer(f) => if s.timer { TimerQueue(s, f); } else { NothingReceived(s, e, s); }
    case ClockPin(level, f) => if s.mode != Host { ClockPinQueue(s, level, f); } else { NothingReceived(s, e, s); }
    case SelectPin(sel) => SelectKeepsQueue(s, sel); NothingReceived(s, e, SelectChanged(s, sel));
    case Mock(f) => MockQueue(s, f);
  }

  lemma StepQueue(s: State, e: Event)
    requires |s.rx| <= 3
    ensures StepPart(s, e, Step(s, e))
  {
    match e
    case WriteCtrlA(r, f) => CtrlAQueue(s, r, f);
    case WriteCtrlB(r, idle, f) => CtrlBQueue(s, r, idle, f);
    case WriteIntFlags(f) => SamePart(s.rx); NothingReceived(s, e, IntFlagsWritten(s, f));
    case WriteData(d) => WrittenQueue(s, d); WriteQueue(s, d, DataWritten(s, d));
    case ReadData => ReadQueue(s);
    case _ => PinQueue(s, e);
  }

  /** The receive queue only ever loses frames: what is read, followed by what is still queued, is
      a subsequence of the frames received, and at most three are queued. */
  lemma {:induction false} ReceiveQueue(s: State, es: seq<Event>)
    requires |s.rx| <= 3
    ensures |Run(s, es).rx| <= 3
    ensures Subsequence(TakenAll(s, es) + Run(s, es).rx, s.rx + ReceivedAll(s, es))
    decreases |es|
  {
    if es == [] {
      Reflexive(s.rx);
      assert [] + s.rx == s.rx && s.rx + [] == s.rx;
    } else {
      var e, t, rest := es[0], Step(s, es[0]), es[1..];
      StepQueue(s, e);
      ReceiveQueue(t, rest);
      ComposeQueues(Taken(s, e), TakenAll(t, rest), Run(t, rest).rx, t.rx, s.rx, Received(s, e), ReceivedAll(t, rest));
    }
  }

  lemma ComposeQueues(first: seq<Byte>, later: seq<Byte>, end: seq<Byte>, mid: seq<Byte>, start: seq<Byte>,
                      recv: seq<Byte>, recvs: seq<Byte>)
    requires Subsequence(first + mid, start + recv) && Subsequence(later + end, mid + recvs)
    ensures Subsequence((first + later) + end, start + (recv + recvs))
  {
    Stages(first, mid, start + recv, later + end, recvs);
    assert (first + later) + end == first + (later + end);
    assert start + (recv + recvs) == (start + recv) + recvs;
  }

  // ---------- What is lost ----------

  predicate BufferMode(s: State) { s.ctrlb.bufen && s.bufEnabled && |s.rx| <= 3 }

  predicate StaysBuffered(e: Event) { e.WriteCtrlB? ==> e.b.bufen }

  predicate EndsFrame(s: State, e: Event) { !e.Mock? && Received(s, e) != [] }

  /** A write to DATA that starts a transfer: the frame still in the shift register is discarded. */
  predicate StartsTransfer(s: State, e: Event) { e.WriteData? && s.ctrla.enable && s.mode == Host && !s.active }

  predicate Loses(s: State, e: Event) { |s.rx| == 3 && (EndsFrame(s, e) || StartsTransfer(s, e) || e.Mock?) }

  function Queued(rx: seq<Byte>, f: Byte): seq<Byte> { if |rx| < 3 then rx + [f] else rx }

  /** The queue after a step in buffer mode. */
  function QueueAfter(s: State, e: Event): seq<Byte> {
    match e
    case ReadData => if s.rx == [] then [] else s.rx[1..]
    case WriteData(_) => if StartsTransfer(s, e) then WithoutShiftFrame(s.rx) else s.rx
    case Mock(f) => WithoutShiftFrame(s.rx) + [f]
    case _ => if Received(s, e) != [] then Queued(s.rx, Received(s, e)[0]) else s.rx
  }

  /** A write to DATA with a full queue sets BUFOVF; a read of DATA and a one written to it clear it. */
  predicate OverflowAfter(s: State, e: Event) {
    match e
    case WriteData(_) => s.flags.bufovf || (s.ctrla.enable && |s.rx| == 3)
    case ReadData => false
    case WriteIntFlags(m) => s.flags.bufovf && !m.bufovf
    case _ => s.flags.bufovf
  }

  predicate Exact(t: State, rx: seq<Byte>, bufovf: bool) { BufferMode(t) && t.rx == rx && t.flags.bufovf == bufovf }

  lemma ReportedExact(s: State)
    requires BufferMode(s)
    ensures Exact(Reported(s), s.rx, s.flags.bufovf)
  {
  }

  lemma ClockToExact(s: State, level: bool, f: Byte)
    requires BufferMode(s)
    ensures Exact(ClockTo(s, level, f), if Ends(s, level) then Queued(s.rx, f) else s.rx, s.flags.bufovf)
  {
    if Ends(s, level) {
      ReportedExact(s.(clk := level, step := 0, shift := f, rx := Queued(s.rx, f)));
    }
  }

  lemma SelectExact(s: State, sel: bool)
    requires BufferMode(s)
    ensures Exact(SelectChanged(s, sel), s.rx, s.flags.bufovf)
  {
    if s.mode == Host && sel { HostSelectExact(s.(selected := sel)); }
  }

  lemma HostSelectExact(s: State)
    requires BufferMode(s)
    ensures Exact(HostSelected(s), s.rx, s.flags.bufovf)
  {
    SelectFlagExact(ClientSelected(s.(ctrla := s.ctrla.(master := false), mode := Client), s.selected));
  }

  lemma SelectFlagExact(s: State)
    requires BufferMode(s)
    ensures Exact(FlagsSet(s, NONE.(ss := true)), s.rx, s.flags.bufovf)
  {
  }

  lemma ModeSetExact(s: State, mode: Mode, f: Byte)
    requires BufferMode(s)
    ensures Exact(ModeSet(s, mode, f),
                  if mode == Host && mode != s.mode && Ends(s, s.idle) then Queued(s.rx, f) else s.rx, s.flags.bufovf)
  {
    var u := s.(mode := mode);
    ClockToExact(u, u.idle, f);
    SelectExact(ClockIdled(u, f), s.selected);
  }

  lemma PushExact(s: State, d: Byte, force: bool)
    requires BufferMode(s)
    ensures Exact(TxPushed(s, d, force),
                  if s.mode == Host && !s.active then WithoutShiftFrame(s.rx) else s.rx, s.flags.bufovf)
  {
  }

  lemma WriteExact(s: State, d: Byte)
    requires BufferMode(s)
    ensures Exact(DataWritten(s, d), QueueAfter(s, WriteData(d)), OverflowAfter(s, WriteData(d)))
  {
    if s.ctrla.enable { BufferedExact(s, d); }
  }

  lemma BufferedExact(s: State, d: Byte)
    requires BufferMode(s)
    ensures Exact(BufferedWrite(s, d), if s.mode == Host && !s.active then WithoutShiftFrame(s.rx) else s.rx,
                  s.flags.bufovf || |s.rx| == 3)
  {
    var u := OverflowMarked(s);
    var force := s.mode == Client && !s.ctrlb.bufwr;
    OverflowExact(s);
    PushExact(u, d, force);
    DreUpdatedExact(TxPushed(u, d, force));
  }

  lemma OverflowExact(s: State)
    requires BufferMode(s)
    ensures var u := OverflowMarked(s);
            Exact(u, s.rx, s.flags.bufovf || |s.rx| == 3) && u.mode == s.mode && u.active == s.active
  {
  }

  lemma DreUpdatedExact(s: State)
    requires BufferMode(s)
    ensures Exact(DreUpdated(s), s.rx, s.flags.bufovf)
  {
  }

  lemma ReadExact(s: State)
    requires BufferMode(s)
    ensures Exact(DataRead(s), QueueAfter(s, ReadData), false)
  {
  }

  lemma PinExact(s: State, e: Event)
    requires BufferMode(s) && (e.Timer? || e.ClockPin? || e.SelectPin? || e.Mock?)
    ensures Exact(PinStep(s, e), QueueAfter(s, e), s.flags.bufovf)
  {
    match e
    case Timer(f) => ClockToExact(s, !s.clk, f);
    case ClockPin(level, f) => ClockToExact(s, level, f);
    case SelectPin(sel) => SelectExact(s, sel);
    case Mock(f) => ReportedExact(s.(shift := f, rx := WithoutShiftFrame(s.rx) + [f]));
  }

  lemma CtrlAExact(s: State, r: CtrlA, f: Byte)
    requires BufferMode(s)
    ensures Exact(CtrlAWritten(s, r, f), QueueAfter(s, WriteCtrlA(r, f)), s.flags.bufovf)
  {
    ModeSetExact(s.(ctrla := r), if !r.enable then Disabled else if r.master then Host else Client, f);
  }

  lemma CtrlBExact(s: State, r: CtrlB, idle: bool, f: Byte)
    requires BufferMode(s) && r.bufen
    ensures Exact(CtrlBWritten(s, r, idle, f), QueueAfter(s, WriteCtrlB(r, idle, f)), s.flags.bufovf)
  {
    ClockToExact(s.(ctrlb := r, idle := idle), idle, f);
  }

  lemma IntFlagsExact(s: State, m: Flags)
    requires BufferMode(s)
    ensures Exact(IntFlagsWritten(s, m), s.rx, s.flags.bufovf && !m.bufovf)
  {
  }

  lemma StepExact(s: State, e: Event)
    requires BufferMode(s) && StaysBuffered(e)
    ensures Exact(Step(s, e), QueueAfter(s, e), OverflowAfter(s, e))
  {
    match e
    case WriteCtrlA(r, f) => CtrlAExact(s, r, f);
    case WriteCtrlB(r, idle, f) => CtrlBExact(s, r, idle, f);
    case WriteIntFlags(m) => IntFlagsExact(s, m);
    case WriteData(d) => WriteExact(s, d);
    case ReadData => ReadExact(s);
    case _ => PinExact(s, e);
  }

  /** In buffer mode, whatever ends a frame, the frame received is dropped if and only if the queue
      holds three, and BUFOVF does not change either way. */
  lemma FrameEndDropsIff(s: State, e: Event)
    requires BufferMode(s) && StaysBuffered(e) && EndsFrame(s, e)
    ensures Step(s, e).rx == s.rx + Received(s, e) <==> |s.rx| < 3
    ensures |s.rx| == 3 ==> Step(s, e).rx == s.rx
    ensures Step(s, e).flags.bufovf == s.flags.bufovf
  {
    StepExact(s, e);
  }

  predicate NoLoss(s: State, es: seq<Event>)
    decreases |es|
  {
    es == [] || (!Loses(s, es[0]) && NoLoss(Step(s, es[0]), es[1..]))
  }

  /** What goes through the queue in one step, and the one frame lost if any. */
  lemma StepBalance(s: State, e: Event)
    requires BufferMode(s) && StaysBuffered(e)
    ensures BufferMode(Step(s, e))
    ensures !Loses(s, e) ==> Taken(s, e) + Step(s, e).rx == s.rx + Received(s, e)
    ensures |Taken(s, e)| + |Step(s, e).rx| + (if Loses(s, e) then 1 else 0) == |s.rx| + |Received(s, e)|
  {
    StepExact(s, e);
    BalanceOf(s, e);
  }

  lemma BalanceOf(s: State, e: Event)
    requires |s.rx| <= 3
    ensures !Loses(s, e) ==> Taken(s, e) + QueueAfter(s, e) == s.rx + Received(s, e)
    ensures |Taken(s, e)| + |QueueAfter(s, e)| + (if Loses(s, e) then 1 else 0) == |s.rx| + |Received(s, e)|
  {
    assert |Received(s, e)| <= 1;
  }

  lemma {:induction false} LossShows(s: State, es: seq<Event>)
    requires BufferMode(s) && forall i | 0 <= i < |es| :: StaysBuffered(es[i])
    ensures NoLoss(s, es) ==> TakenAll(s, es) + Run(s, es).rx == s.rx + ReceivedAll(s, es)
    ensures |TakenAll(s, es)| + |Run(s, es).rx| <= |s.rx| + |ReceivedAll(s, es)|
    ensures !NoLoss(s, es) ==> |TakenAll(s, es)| + |Run(s, es).rx| < |s.rx| + |ReceivedAll(s, es)|
    decreases |es|
  {
    if es == [] {
      assert [] + s.rx == s.rx && s.rx + [] == s.rx;
    } else {
      var e, t, rest := es[0], Step(s, es[0]), es[1..];
      StepBalance(s, e);
      LossShows(t, rest);
      if NoLoss(s, es) {
        JoinQueues(Taken(s, e), TakenAll(t, rest), Run(t, rest).rx, t.rx, s.rx, Received(s, e), ReceivedAll(t, rest));
      }
    }
  }

  lemma JoinQueues(first: seq<Byte>, later: seq<Byte>, end: seq<Byte>, mid: seq<Byte>, start: seq<Byte>,
                   recv: seq<Byte>, recvs: seq<Byte>)
    requires first + mid == start + recv && later + end == mid + recvs
    ensures (first + later) + end == start + (recv + recvs)
  {
    assert (first + later) + end == first + (later + end);
    assert first + (mid + recvs) == (first + mid) + recvs;
    assert start + (recv + recvs) == (start + recv) + recvs;
  }

  /** Over every run in buffer mode the frames read, then those queued, are all the frames received,
      in order, if and only if no frame ends and no transfer starts while three frames are queued. */
  lemma NothingLostIff(s: State, es: seq<Event>)
    requires BufferMode(s) && forall i | 0 <= i < |es| :: StaysBuffered(es[i])
    ensures TakenAll(s, es) + Run(s, es).rx == s.rx + ReceivedAll(s, es) <==> NoLoss(s, es)
  {
    LossShows(s, es);
  }

  predicate WriteToFull(s: State, e: Event) { e.WriteData? && s.ctrla.enable && |s.rx| == 3 }

  /** DATA is written at some moment with three frames queued. */
  predicate WritesToFull(s: State, es: seq<Event>)
    decreases |es|
  {
    es != [] && (WriteToFull(s, es[0]) || WritesToFull(Step(s, es[0]), es[1..]))
  }

  predicate LeavesOverflow(e: Event) { !e.ReadData? && !(e.WriteIntFlags? && e.mask.bufovf) }

  predicate NeverCleared(es: seq<Event>) { forall i | 0 <= i < |es| :: LeavesOverflow(es[i]) }

  /** DATA is written at some moment with three frames queued, and BUFOVF not cleared after. */
  predicate WritesToFullLast(s: State, es: seq<Event>)
    decreases |es|
  {
    es != [] && ((WriteToFull(s, es[0]) && NeverCleared(es[1..])) || WritesToFullLast(Step(s, es[0]), es[1..]))
  }

  lemma NeverClearedSplits(es: seq<Event>)
    requires es != []
    ensures NeverCleared(es) <==> LeavesOverflow(es[0]) && NeverCleared(es[1..])
  {
    if LeavesOverflow(es[0]) && NeverCleared(es[1..]) {
      assert forall i | 1 <= i < |es| :: es[i] == es[1..][i - 1];
    }
  }

  /** Over every run in buffer mode BUFOVF is set if and only if it was and nothing has cleared it, or
      DATA has been written with three frames queued since it was last cleared: frames lost when they
      end leave no trace. */
  lemma {:induction false} OverflowIff(s: State, es: seq<Event>)
    requires BufferMode(s) && forall i | 0 <= i < |es| :: StaysBuffered(es[i])
    ensures Run(s, es).flags.bufovf <==> (s.flags.bufovf && NeverCleared(es)) || WritesToFullLast(s, es)
    decreases |es|
  {
    if es != [] {
      StepExact(s, es[0]);
      OverflowIff(Step(s, es[0]), es[1..]);
      NeverClearedSplits(es);
    }
  }

  /** BUFOVF is clear before the run and after each of its events. */
  predicate ClearThroughout(s: State, es: seq<Event>)
    decreases |es|
  {
    !s.flags.bufovf && (es == [] || ClearThroughout(Step(s, es[0]), es[1..]))
  }

  lemma {:induction false} ClearThroughoutIff(s: State, es: seq<Event>)
    requires BufferMode(s) && forall i | 0 <= i < |es| :: StaysBuffered(es[i])
    ensures ClearThroughout(s, es) <==> !s.flags.bufovf && !WritesToFull(s, es)
    decreases |es|
  {
    if es != [] {
      StepExact(s, es[0]);
      ClearThroughoutIff(Step(s, es[0]), es[1..]);
    }
  }

  /** So, from a clear flag, a run in buffer mode loses a frame and never shows it if and only if a
      frame ends or a transfer starts with three frames queued and DATA is never written then. */
  lemma SilentLossIff(s: State, es: seq<Event>)
    requires BufferMode(s) && !s.flags.bufovf && forall i | 0 <= i < |es| :: StaysBuffered(es[i])
    ensures (TakenAll(s, es) + Run(s, es).rx != s.rx + ReceivedAll(s, es) && ClearThroughout(s, es)) <==>
            !NoLoss(s, es) && !WritesToFull(s, es)
    ensures (TakenAll(s, es) + Run(s, es).rx != s.rx + ReceivedAll(s, es) && !Run(s, es).flags.bufovf) <==>
            !NoLoss(s, es) && !WritesToFullLast(s, es)
  {
    NothingLostIff(s, es);
    ClearThroughoutIff(s, es);
    OverflowIff(s, es);
  }

  // ---------- The receive flag ----------

  /** In buffer mode, with no flag waiting to be cleared, RXCIF says that the queue is not empty. */
  predicate RxcTracks(s: State) {
    && s.ctrlb.bufen && s.bufEnabled && s.cleared == NONE
    && |s.rx| <= 3 && (s.flags.rxc <==> s.rx != [])
  }

  /** Buffer mode stays on and INTFLAGS is not written. */
  predicate Buffered(e: Event) { !e.WriteIntFlags? && (e.WriteCtrlB? ==> e.b.bufen) }

  lemma ReportedTracks(s: State)
    requires s.ctrlb.bufen && s.bufEnabled && s.cleared == NONE && 0 < |s.rx| <= 3
    ensures RxcTracks(Reported(s))
  {
  }

  lemma ClockToTracks(s: State, level: bool, f: Byte)
    requires RxcTracks(s)
    ensures RxcTracks(ClockTo(s, level, f))
  {
    if Ends(s, level) {
      ReportedTracks(s.(clk := level, step := 0, shift := f, rx := if |s.rx| < 3 then s.rx + [f] else s.rx));
    }
  }

  lemma SelectTracks(s: State, sel: bool)
    requires RxcTracks(s)
    ensures RxcTracks(SelectChanged(s, sel))
  {
    if s.mode == Host && sel { HostSelectTracks(s.(selected := sel)); }
  }

  lemma HostSelectTracks(s: State)
    requires RxcTracks(s)
    ensures RxcTracks(HostSelected(s))
  {
  }

  lemma ModeSetTracks(s: State, mode: Mode, f: Byte)
    requires RxcTracks(s)
    ensures RxcTracks(ModeSet(s, mode, f))
  {
    var t := s.(mode := mode);
    ClockToTracks(t, t.idle, f);
    SelectTracks(ClockIdled(t, f), s.selected);
  }

  lemma PushTracks(s: State, d: Byte, force: bool)
    requires RxcTracks(s)
    ensures RxcTracks(TxPushed(s, d, force))
  {
  }

  lemma WriteTracks(s: State, d: Byte)
    requires RxcTracks(s)
    ensures RxcTracks(DataWritten(s, d))
  {
    PushTracks(OverflowMarked(s), d, s.mode == Client && !s.ctrlb.bufwr);
  }

  lemma ReadTracks(s: State)
    requires RxcTracks(s)
    ensures RxcTracks(DataRead(s))
  {
  }

  lemma PinTracks(s: State, e: Event)
    requires RxcTracks(s)
    ensures RxcTracks(PinStep(s, e))
  {
    match e
    case Timer(f) => ClockToTracks(s, !s.clk, f);
    case ClockPin(level, f) => ClockToTracks(s, level, f);
    case SelectPin(sel) => SelectTracks(s, sel);
    case Mock(f) => ReportedTracks(s.(shift := f, rx := WithoutShiftFrame(s.rx) + [f]));
    case _ =>
  }

  lemma StepTracks(s: State, e: Event)
    requires RxcTracks(s) && Buffered(e)
    ensures RxcTracks(Step(s, e))
  {
    match e
    case WriteCtrlA(r, f) =>
      ModeSetTracks(s.(ctrla := r), if !r.enable then Disabled else if r.master then Host else Client, f);
    case WriteCtrlB(r, idle, f) => ClockToTracks(s.(ctrlb := r, idle := idle), idle, f);
    case WriteData(d) => WriteTracks(s, d);
    case ReadData => ReadTracks(s);
    case _ => PinTracks(s, e);
  }

  /** While buffer mode stays on and INTFLAGS is not written, RXCIF is set exactly when a frame
      can be read. */
  lemma {:induction false} ReceiveFlag(s: State, es: seq<Event>)
    requires RxcTracks(s) && forall i | 0 <= i < |es| :: Buffered(es[i])
    ensures RxcTracks(Run(s, es))
    decreases |es|
  {
    if es != [] {
      StepTracks(s, es[0]);
      ReceiveFlag(Step(s, es[0]), es[1..]);
    }
  }

  // ---------- Transmission ----------

  /** A host in buffer mode, its transfers running on the timer. */
  predicate Streaming(s: State) {
    && s.mode == Host && s.ctrla.enable && s.ctrlb.bufen && s.bufEnabled
    && s.active == s.timer && (s.txLoaded ==> s.active) && s.step < 16
  }

  /** No change of mode: the host is not selected by another one, unless SSD makes it ignore that. */
  predicate Traffic(ssd: bool, e: Event) {
    || e.WriteData? || e.ReadData? || e.Timer? || e.WriteIntFlags? || e.ClockPin?
    || (e.SelectPin? && (ssd || !e.selected))
  }

  /** The frames not yet sent. */
  function Pending(s: State): seq<Byte> {
    (if s.active then [s.shift] else []) + (if s.txLoaded then [s.txBuf] else [])
  }

  predicate Sends(s: State, e: Event) { e.Timer? && s.timer && s.active && s.step == 15 }

  function SentAll(s: State, es: seq<Event>): seq<Byte>
    decreases |es|
  {
    if es == [] then []
    else var rest := SentAll(Step(s, es[0]), es[1..]); if Sends(s, es[0]) then [s.shift] + rest else rest
  }

  /** The bytes written, where a write while a frame is waiting takes that frame's place. */
  function Kept(s: State, es: seq<Event>, before: seq<Byte>): seq<Byte>
    decreases |es|
  {
    if es == [] then before
    else Kept(Step(s, es[0]), es[1..], KeptOne(s, es[0], before))
  }

  function KeptOne(s: State, e: Event, before: seq<Byte>): seq<Byte> {
    if !e.WriteData? then before
    else if s.txLoaded && before != [] then before[..|before| - 1] + [e.data]
    else before + [e.data]
  }

  lemma StreamingWrite(s: State, d: Byte)
    requires Streaming(s)
    ensures var t := DataWritten(s, d);
            Streaming(t) && t.ctrlb == s.ctrlb && Pending(t) == KeptOne(s, WriteData(d), Pending(s))
  {
    var u := OverflowMarked(s);
    assert Streaming(u) && u.ctrlb == s.ctrlb && Pending(u) == Pending(s);
    StreamingPush(u, d);
  }

  lemma StreamingPush(s: State, d: Byte)
    requires Streaming(s)
    ensures var t := TxPushed(s, d, false);
            Streaming(t) && t.ctrlb == s.ctrlb && Pending(t) == KeptOne(s, WriteData(d), Pending(s))
  {
  }

  lemma StreamingTimer(s: State, f: Byte)
    requires Streaming(s) && s.timer
    ensures var t := TimerNext(s, f);
            && Streaming(t) && t.ctrlb == s.ctrlb
            && Pending(s) == (if s.step == 15 then [s.shift] else []) + Pending(t)
  {
  }

  lemma StreamingOther(s: State, e: Event)
    requires Streaming(s) && Traffic(s.ctrlb.ssd, e) && !e.WriteData? && !e.Timer?
    ensures var t := Step(s, e); Streaming(t) && t.ctrlb == s.ctrlb && Pending(t) == Pending(s)
  {
  }

  /** `sent` frames are gone, the rest of `kept` is pending. */
  lemma {:induction false} Conserved(s: State, es: seq<Event>, sent: seq<Byte>)
    requires Streaming(s) && forall i | 0 <= i < |es| :: Traffic(s.ctrlb.ssd, es[i])
    ensures Streaming(Run(s, es))
    ensures sent + SentAll(s, es) + Pending(Run(s, es)) == Kept(s, es, sent + Pending(s))
    decreases |es|
  {
    if es == [] {
      assert sent + [] == sent;
    } else {
      var e, t, rest := es[0], Step(s, es[0]), es[1..];
      if e.WriteData? {
        StreamingWrite(s, e.data);
        KeptBehind(s, e, sent);
        Conserved(t, rest, sent);
      } else if e.Timer? && s.timer {
        StreamingTimer(s, e.in2);
        var now := if s.step == 15 then [s.shift] else [];
        Conserved(t, rest, sent + now);
        Regroup(sent, now, Pending(t), SentAll(t, rest));
      } else {
        if !e.Timer? { StreamingOther(s, e); }
        Conserved(t, rest, sent);
      }
    }
  }

  lemma KeptBehind(s: State, e: Event, sent: seq<Byte>)
    requires Streaming(s)
    ensures KeptOne(s, e, sent + Pending(s)) == sent + KeptOne(s, e, Pending(s))
  {
    var p := Pending(s);
    if e.WriteData? {
      if s.txLoaded {
        assert (sent + p)[..|sent + p| - 1] == sent + p[..|p| - 1];
      }
    }
  }

  lemma Regroup(sent: seq<Byte>, now: seq<Byte>, pending: seq<Byte>, later: seq<Byte>)
    ensures sent + (now + pending) == sent + now + pending
    ensures sent + (now + later) == sent + now + later
    ensures now == [] ==> sent + now == sent
  {
  }

  /** Transmission conserves: in host buffer mode the frames sent, then the one in the shift
      register, then the one waiting, are the bytes written, in order, except that a byte written
      while another is waiting takes its place. */
  lemma TransmitConserves(s: State, es: seq<Event>)
    requires Streaming(s) && forall i | 0 <= i < |es| :: Traffic(s.ctrlb.ssd, es[i])
    ensures SentAll(s, es) + Pending(Run(s, es)) == Kept(s, es, Pending(s))
  {
    Conserved(s, es, []);
    assert [] + SentAll(s, es) == SentAll(s, es) && [] + Pending(s) == Pending(s);
  }

  function Written(es: seq<Event>): seq<Byte>
    decreases |es|
  {
    if es == [] then [] else if es[0].WriteData? then [es[0].data] + Written(es[1..]) else Written(es[1..])
  }

  /** Every byte is written while no frame is waiting. */
  predicate Polite(s: State, es: seq<Event>)
    decreases |es|
  {
    es == [] || ((es[0].WriteData? ==> !s.txLoaded) && Polite(Step(s, es[0]), es[1..]))
  }

  lemma {:induction false} KeptLength(s: State, es: seq<Event>, before: seq<Byte>)
    requires Streaming(s) && (forall i | 0 <= i < |es| :: Traffic(s.ctrlb.ssd, es[i])) && |before| >= |Pending(s)|
    ensures |Kept(s, es, before)| <= |before| + |Written(es)|
    ensures Polite(s, es) ==> Kept(s, es, before) == before + Written(es)
    ensures !Polite(s, es) ==> |Kept(s, es, before)| < |before| + |Written(es)|
    decreases |es|
  {
    if es == [] {
      assert before + [] == before;
    } else {
      var t, kept := Step(s, es[0]), KeptOne(s, es[0], before);
      StreamingStep(s, es[0]);
      KeptLength(t, es[1..], kept);
      WrittenBehind(s, es, before);
    }
  }

  lemma WrittenBehind(s: State, es: seq<Event>, before: seq<Byte>)
    requires es != []
    ensures var kept := KeptOne(s, es[0], before);
            if es[0].WriteData? && s.txLoaded && before != [] then
              |kept| == |before| && |Written(es)| == |Written(es[1..])| + 1
            else kept + Written(es[1..]) == before + Written(es)
  {
    if es[0].WriteData? {
      assert before + ([es[0].data] + Written(es[1..])) == before + [es[0].data] + Written(es[1..]);
    }
  }

  lemma StreamingStep(s: State, e: Event)
    requires Streaming(s) && Traffic(s.ctrlb.ssd, e)
    ensures Streaming(Step(s, e)) && Step(s, e).ctrlb == s.ctrlb
    ensures |Pending(Step(s, e))| <= |Pending(s)| + (if e.WriteData? && !s.txLoaded then 1 else 0)
  {
    match e
    case WriteData(d) => StreamingWrite(s, d);
    case Timer(f) => if s.timer { StreamingTimer(s, f); }
    case _ => StreamingOther(s, e);
  }

  /** Nothing that is written is lost if and only if DATA is only written while no frame waits. */
  lemma AllBytesSent(s: State, es: seq<Event>)
    requires Streaming(s) && forall i | 0 <= i < |es| :: Traffic(s.ctrlb.ssd, es[i])
    ensures SentAll(s, es) + Pending(Run(s, es)) == Pending(s) + Written(es) <==> Polite(s, es)
  {
    TransmitConserves(s, es);
    KeptLength(s, es, Pending(s));
  }

  // ---------- Transmission in normal mode ----------

  /** A host in normal mode, its transfers running on the timer; no frame ever waits. */
  predicate Single(s: State) {
    && s.mode == Host && s.ctrla.enable && !s.ctrlb.bufen && !s.bufEnabled
    && s.active == s.timer && !s.txLoaded && s.step < 16 && |s.rx| <= 3
  }

  /** A write during a transfer is lost, and sets WRCOL and nothing else. */
  lemma WriteCollides(s: State, d: Byte)
    requires Single(s) && s.active
    ensures DataWritten(s, d) == s.(flags := s.flags.(txc := true))
  {
  }

  /** A write while idle starts a transfer of the byte. */
  lemma WriteStarts(s: State, d: Byte)
    requires Single(s) && !s.active
    ensures var t := DataWritten(s, d);
            && Single(t) && t.active && t.shift == d && t.step == 0 && t.clk == s.clk && t.idle == s.idle
            && t.ctrlb == s.ctrlb && |t.rx| < 3 && t.flags == s.flags && t.cleared == s.cleared
  {
  }

  lemma SingleTimer(s: State, f: Byte)
    requires Single(s) && s.timer
    ensures var t := TimerNext(s, f);
            && Single(t) && t.ctrlb == s.ctrlb && t.idle == s.idle
            && (if s.step < 15 then t == s.(clk := !s.clk, step := s.step + 1)
                else !t.active && t.step == 0 && t.clk == t.idle && t.shift == f && t.flags == s.flags.(rxc := true)
                     && t.rx == [if |s.rx| < 3 then f else s.rx[2]])
  {
  }

  lemma SingleOther(s: State, e: Event)
    requires Single(s) && Traffic(s.ctrlb.ssd, e) && !e.WriteData? && !e.Timer?
    ensures var t := Step(s, e);
            Single(t) && t.ctrlb == s.ctrlb && t.active == s.active && t.shift == s.shift
  {
  }

  /** The bytes written to DATA while no transfer is under way. */
  function WrittenIdle(s: State, es: seq<Event>): seq<Byte>
    decreases |es|
  {
    if es == [] then []
    else
      var rest := WrittenIdle(Step(s, es[0]), es[1..]);
      if es[0].WriteData? && !s.active then [es[0].data] + rest else rest
  }

  function InShift(s: State): seq<Byte> { if s.active then [s.shift] else [] }

  lemma SingleStep(s: State, e: Event)
    requires Single(s) && Traffic(s.ctrlb.ssd, e)
    ensures var t := Step(s, e);
            && Single(t) && t.ctrlb == s.ctrlb
            && (if Sends(s, e) then [s.shift] else []) + InShift(t)
               == InShift(s) + (if e.WriteData? && !s.active then [e.data] else [])
  {
    match e
    case WriteData(d) => if s.active { WriteCollides(s, d); } else { WriteStarts(s, d); }
    case Timer(f) => if s.timer { SingleTimer(s, f); }
    case _ => SingleOther(s, e);
  }

  /** Transmission in normal mode conserves: over every run the frames sent, then the one in the shift
      register, are the one that was there and the bytes written while no transfer was under way. */
  lemma {:induction false} SingleConserves(s: State, es: seq<Event>)
    requires Single(s) && forall i | 0 <= i < |es| :: Traffic(s.ctrlb.ssd, es[i])
    ensures Single(Run(s, es))
    ensures SentAll(s, es) + InShift(Run(s, es)) == InShift(s) + WrittenIdle(s, es)
    decreases |es|
  {
    if es == [] {
      assert [] + InShift(s) == InShift(s) && InShift(s) + [] == InShift(s);
    } else {
      var t, rest := Step(s, es[0]), es[1..];
      SingleStep(s, es[0]);
      SingleConserves(t, rest);
      var out := if Sends(s, es[0]) then [s.shift] else [];
      var more := if es[0].WriteData? && !s.active then [es[0].data] else [];
      assert SentAll(s, es) == out + SentAll(t, rest) && WrittenIdle(s, es) == more + WrittenIdle(t, rest);
      JoinFrames(out, InShift(t), InShift(s), more, SentAll(t, rest), InShift(Run(t, rest)), WrittenIdle(t, rest));
    }
  }

  lemma JoinFrames(out: seq<Byte>, mid: seq<Byte>, start: seq<Byte>, more: seq<Byte>,
                   sent: seq<Byte>, end: seq<Byte>, later: seq<Byte>)
    requires out + mid == start + more && sent + end == mid + later
    ensures (out + sent) + end == start + (more + later)
  {
    assert (out + sent) + end == out + (sent + end);
    assert out + (mid + later) == (out + mid) + later;
    assert (start + more) + later == start + (more + later);
  }

  lemma {:induction false} SingleRuns(s: State, es: seq<Event>)
    requires Single(s) && s.active && AllTimer(es) && |es| + s.step <= 15
    ensures var t := Run(s, es); t == s.(clk := t.clk, step := s.step + |es|)
    ensures SentAll(s, es) == []
    decreases |es|
  {
    if es != [] {
      SingleTimer(s, es[0].in2);
      SingleRuns(Step(s, es[0]), es[1..]);
    }
  }

  /** A byte written while idle is sent after sixteen clock edges; then the controller is idle, IF is
      set, and the frame received meanwhile is the one that a read of DATA gives. */
  lemma SingleTransfer(s: State, d: Byte, es: seq<Event>)
    requires Single(s) && !s.active && AllTimer(es) && |es| == 16
    ensures var t := Run(DataWritten(s, d), es);
            && SentAll(DataWritten(s, d), es) == [d]
            && Single(t) && !t.active && t.flags.rxc && t.clk == t.idle
            && t.rx == [es[15].in2] && Taken(t, ReadData) == [es[15].in2]
  {
    var t := DataWritten(s, d);
    WriteStarts(s, d);
    SingleRuns(t, es[..15]);
    RunSplits(t, es[..15], es[15..]);
    assert es[..15] + es[15..] == es;
    var u := Run(t, es[..15]);
    SingleTimer(u, es[15].in2);
    LastSingleEdge(u, es[15..]);
    assert [] + [d] == [d];
  }

  lemma LastSingleEdge(u: State, last: seq<Event>)
    requires Single(u) && u.active && u.step == 15 && |last| == 1 && last[0].Timer?
    ensures Run(u, last) == TimerNext(u, last[0].in2) && SentAll(u, last) == [u.shift]
  {
    assert last[1..] == [];
    assert Run(u, last) == Run(TimerNext(u, last[0].in2), []);
  }

  // ---------- The transmit flag ----------

  /** DREIF says that the transmit buffer is empty. */
  predicate DreTracks(s: State) { Streaming(s) && s.cleared == NONE && (s.flags.dre <==> !s.txLoaded) }

  lemma DreWrite(s: State, d: Byte)
    requires DreTracks(s)
    ensures DreTracks(DataWritten(s, d)) && DataWritten(s, d).ctrlb == s.ctrlb
  {
    StreamingWrite(s, d);
  }

  lemma DreTimer(s: State, f: Byte)
    requires DreTracks(s) && s.timer
    ensures DreTracks(TimerNext(s, f)) && TimerNext(s, f).ctrlb == s.ctrlb
  {
    StreamingTimer(s, f);
  }

  lemma DreOther(s: State, e: Event)
    requires DreTracks(s) && Traffic(s.ctrlb.ssd, e) && !e.WriteData? && !e.Timer? && !e.WriteIntFlags?
    ensures DreTracks(Step(s, e)) && Step(s, e).ctrlb == s.ctrlb
  {
  }

  /** While INTFLAGS is not written, DREIF is set exactly when the transmit buffer is empty. */
  lemma {:induction false} TransmitFlag(s: State, es: seq<Event>)
    requires DreTracks(s) && forall i | 0 <= i < |es| :: Traffic(s.ctrlb.ssd, es[i]) && !es[i].WriteIntFlags?
    ensures DreTracks(Run(s, es))
    decreases |es|
  {
    if es != [] {
      var e := es[0];
      if e.WriteData? {
        DreWrite(s, e.data);
      } else if !e.Timer? {
        DreOther(s, e);
      } else if s.timer {
        DreTimer(s, e.in2);
      }
      TransmitFlag(Step(s, es[0]), es[1..]);
    }
  }

  predicate DreAgrees(s: State) { s.flags.dre <==> !s.txLoaded }

  /** A write to CTRLB ends a frame: it moves the clock of a host in the middle of one. */
  predicate CtrlBEndsFrame(s: State, idle: bool) { s.mode == Host && Ends(s, idle) }

  lemma IdledFlags(s: State, f: Byte)
    requires s.bufEnabled
    ensures var t := ClockIdled(s, f);
            && t.txLoaded == s.txLoaded
            && (s.ctrlb.bufen ==> t.flags.dre == (s.flags.dre || CtrlBEndsFrame(s, s.idle)))
  {
    if CtrlBEndsFrame(s, s.idle) {
      ReportedDre(s.(clk := s.idle, step := 0, shift := f, rx := if |s.rx| < 3 then s.rx + [f] else s.rx));
    }
  }

  lemma ReportedDre(s: State)
    requires s.bufEnabled
    ensures Reported(s).txLoaded == s.txLoaded && (s.ctrlb.bufen ==> Reported(s).flags.dre)
  {
  }

  /** After a write to CTRLB in buffer mode DREIF still says that no frame is waiting if and only if
      buffer mode stays on, and no frame is waiting if the write ends one; or buffer mode goes off,
      which drops the flag, while a frame is waiting. */
  lemma CtrlBKeepsDreIff(s: State, r: CtrlB, idle: bool, f: Byte)
    requires s.bufEnabled && DreAgrees(s)
    ensures DreAgrees(CtrlBWritten(s, r, idle, f)) <==>
            if r.bufen then !CtrlBEndsFrame(s, idle) || !s.txLoaded else s.txLoaded
  {
    IdledFlags(s.(ctrlb := r, idle := idle), f);
  }

  /** So a host that leaves buffer mode with nothing to send and comes back to it reads a full
      transmit buffer that is empty. */
  lemma BufferModeLosesDre(s: State, b: CtrlB, in0: Byte, in1: Byte)
    requires Streaming(s) && !s.active && s.clk == s.idle && b == s.ctrlb && s.flags.dre
    ensures var t := CtrlBWritten(CtrlBWritten(s, b.(bufen := false), s.idle, in0), b, s.idle, in1);
            t == s.(flags := t.flags) && !t.flags.dre && !t.txLoaded
  {
  }

  // ---------- Frames take sixteen edges ----------

  predicate AllTimer(es: seq<Event>) { forall i | 0 <= i < |es| :: es[i].Timer? }

  lemma MidFrame(s: State, f: Byte)
    requires Streaming(s) && s.active && s.step < 15
    ensures TimerNext(s, f) == s.(clk := !s.clk, step := s.step + 1)
  {
  }

  /** The rest of the frame takes as many clock edges as are left of sixteen. */
  lemma {:induction false} FrameRuns(s: State, es: seq<Event>)
    requires Streaming(s) && s.active && AllTimer(es) && |es| + s.step <= 15
    ensures var t := Run(s, es); t == s.(clk := t.clk, step := s.step + |es|)
    ensures SentAll(s, es) == []
    decreases |es|
  {
    if es != [] {
      MidFrame(s, es[0].in2);
      FrameRuns(Step(s, es[0]), es[1..]);
    }
  }

  lemma {:induction false} RunSplits(s: State, es: seq<Event>, fs: seq<Event>)
    ensures Run(s, es + fs) == Run(Run(s, es), fs)
    ensures SentAll(s, es + fs) == SentAll(s, es) + SentAll(Run(s, es), fs)
    decreases |es|
  {
    if es == [] {
      assert es + fs == fs;
    } else {
      assert (es + fs)[1..] == es[1..] + fs;
      RunSplits(Step(s, es[0]), es[1..], fs);
    }
  }

  /** The last edge of a frame. */
  lemma FrameEnds(s: State, f: Byte)
    requires Streaming(s) && s.active && s.step == 15
    ensures var t := TimerNext(s, f);
            && Streaming(t) && t.rx == (if |s.rx| < 3 then s.rx + [f] else s.rx)
            && t.step == 0 && t.flags.bufovf == s.flags.bufovf && t.flags.rxc
            && t.active == s.txLoaded && !t.txLoaded && (s.txLoaded ==> t.shift == s.txBuf)
            && t.flags.dre && (t.flags.txc <==> s.flags.txc || !s.txLoaded)
  {
    StreamingTimer(s, f);
  }

  /** A frame is always sent: `16 - step` edges later it is out, and the next one has started. */
  lemma FrameIsSent(s: State, es: seq<Event>)
    requires Streaming(s) && s.active && AllTimer(es) && |es| + s.step == 16
    ensures var t := Run(s, es);
            && SentAll(s, es) == [s.shift]
            && Streaming(t) && t.rx == (if |s.rx| < 3 then s.rx + [es[|es| - 1].in2] else s.rx)
            && t.step == 0 && t.flags.bufovf == s.flags.bufovf
            && t.active == s.txLoaded && !t.txLoaded && (s.txLoaded ==> t.shift == s.txBuf)
            && t.flags.rxc && t.flags.dre && (t.flags.txc <==> s.flags.txc || !s.txLoaded)
  {
    var n := |es| - 1;
    var u := Run(s, es[..n]);
    FrameRuns(s, es[..n]);
    RunSplits(s, es[..n], es[n..]);
    assert es[..n] + es[n..] == es;
    LastEdge(u, es[n..]);
    assert [] + [s.shift] == [s.shift];
  }

  lemma LastEdge(u: State, last: seq<Event>)
    requires Streaming(u) && u.active && u.step == 15 && |last| == 1 && last[0].Timer?
    ensures var t := Run(u, last);
            && SentAll(u, last) == [u.shift]
            && Streaming(t) && t.rx == (if |u.rx| < 3 then u.rx + [last[0].in2] else u.rx)
            && t.step == 0 && t.flags.bufovf == u.flags.bufovf
            && t.active == u.txLoaded && !t.txLoaded && (u.txLoaded ==> t.shift == u.txBuf)
            && t.flags.rxc && t.flags.dre && (t.flags.txc <==> u.flags.txc || !u.txLoaded)
  {
    FrameEnds(u, last[0].in2);
    assert last[1..] == [];
    assert Run(u, last) == Run(TimerNext(u, last[0].in2), []);
  }

  /** And it happens in ordinary traffic. With two frames queued and two to send, the first frame
      received fills the queue and the second is dropped, while BUFOVF stays clear. */
  lemma SilentLoss(s: State, es: seq<Event>, fs: seq<Event>)
    requires Streaming(s) && s.active && s.txLoaded && |s.rx| == 2 && !s.flags.bufovf
    requires AllTimer(es) && |es| + s.step == 16 && AllTimer(fs) && |fs| == 16
    ensures var t := Run(Run(s, es), fs);
            && !t.flags.bufovf && t.rx == s.rx + [es[|es| - 1].in2] && !t.active
            && SentAll(s, es) + SentAll(Run(s, es), fs) == [s.shift, s.txBuf]
  {
    FrameIsSent(s, es);
    FrameIsSent(Run(s, es), fs);
  }

  // ---------- The client ----------

  /** The select line starts and stops a client; while it is not selected clock edges do nothing. */
  lemma ClientSelects(s: State, f: Byte)
    requires s.mode == Client
    ensures Step(s, SelectPin(true)) == s.(selected := true, active := true, step := if s.active then s.step else 0)
    ensures Step(s, SelectPin(false)) == s.(selected := false, active := false)
    ensures !s.active ==> Step(s, ClockPin(!s.clk, f)) == s.(clk := !s.clk)
  {
  }

  lemma ClientEdge(s: State, level: bool, f: Byte)
    requires s.mode == Client && s.active && s.step < 15 && level != s.clk
    ensures Step(s, ClockPin(level, f)) == s.(clk := level, step := s.step + 1)
  {
  }

  /** Edges of the clock pin, away from `level` and back. */
  predicate Edges(es: seq<Event>, level: bool)
    decreases |es|
  {
    es == [] || (es[0].ClockPin? && es[0].clk != level && Edges(es[1..], !level))
  }

  /** The last edge of a frame of a client: in buffer mode the frame is queued if there is room, in
      normal mode it becomes the one to read; and RXCIF or IF is set. */
  lemma ClientFrameEnds(s: State, e: Event)
    requires s.mode == Client && s.active && s.step == 15 && e.ClockPin? && e.clk != s.clk && |s.rx| <= 3
    requires s.ctrlb.bufen == s.bufEnabled
    ensures var t := Step(s, e);
            && t.step == 0 && t.active && t.mode == Client && t.flags.rxc
            && t.rx == (if s.ctrlb.bufen then Queued(s.rx, e.in3) else [if |s.rx| < 3 then e.in3 else s.rx[2]])
            && Received(s, e) == [e.in3]
  {
    var q := s.(clk := e.clk, step := 0, shift := e.in3, rx := Queued(s.rx, e.in3));
    LastClientEdge(s, e, q);
    ReportedFrame(q);
  }

  lemma LastClientEdge(s: State, e: Event, q: State)
    requires s.mode == Client && s.active && s.step == 15 && e.ClockPin? && e.clk != s.clk && |s.rx| <= 3
    requires q == s.(clk := e.clk, step := 0, shift := e.in3, rx := Queued(s.rx, e.in3))
    ensures Step(s, e) == Reported(q) && Received(s, e) == [e.in3]
  {
  }

  lemma ReportedFrame(s: State)
    requires s.ctrlb.bufen == s.bufEnabled && 0 < |s.rx| <= 3
    ensures var t := Reported(s);
            && t.flags.rxc && t.rx == (if s.ctrlb.bufen then s.rx else [s.rx[|s.rx| - 1]])
            && t.step == s.step && t.active == s.active && t.mode == s.mode
  {
  }

  /** A selected client takes in one frame every sixteen edges of the clock pin, and nothing before. */
  lemma {:induction false} ClientReceives(s: State, es: seq<Event>)
    requires s.mode == Client && s.active && Edges(es, s.clk) && es != [] && s.step + |es| == 16
    requires |s.rx| <= 3 && s.ctrlb.bufen == s.bufEnabled && es[|es| - 1].ClockPin?
    ensures var t, f := Run(s, es), es[|es| - 1].in3;
            && t.step == 0 && t.active && t.flags.rxc && ReceivedAll(s, es) == [f]
            && t.rx == (if s.ctrlb.bufen then Queued(s.rx, f) else [if |s.rx| < 3 then f else s.rx[2]])
    decreases |es|
  {
    if |es| == 1 {
      ClientFrameEnds(s, es[0]);
      assert es[1..] == [];
      assert Run(s, es) == Run(Step(s, es[0]), []);
    } else {
      ClientEdge(s, es[0].clk, es[0].in3);
      ClientReceives(Step(s, es[0]), es[1..]);
    }
  }

  /** What a client is given to send goes to the shift register while it is not selected, if BUFWR or
      normal mode allow it, and to the buffer otherwise. */
  lemma ClientWrite(s: State, d: Byte)
    requires s.mode == Client && s.ctrla.enable
    ensures var t := Step(s, WriteData(d));
            if s.ctrlb.bufen && (s.active || !s.ctrlb.bufwr) then t.txLoaded && t.txBuf == d && t.shift == s.shift
            else if s.active then t.txBuf == s.txBuf && t.txLoaded == s.txLoaded && t.shift == s.shift
            else t.shift == d && t.txBuf == s.txBuf && t.txLoaded == s.txLoaded
  {
    if s.ctrlb.bufen { ClientBuffered(s, d); } else { PushedByClient(s, d, false); }
  }

  lemma ClientBuffered(s: State, d: Byte)
    requires s.mode == Client
    ensures var t := BufferedWrite(s, d);
            if s.active || !s.ctrlb.bufwr then t.txLoaded && t.txBuf == d && t.shift == s.shift
            else t.shift == d && t.txBuf == s.txBuf && t.txLoaded == s.txLoaded
  {
    var u := OverflowMarked(s);
    MarksKeepFrames(s);
    PushedByClient(u, d, !s.ctrlb.bufwr);
    MarksKeepFrames(TxPushed(u, d, !s.ctrlb.bufwr));
  }

  lemma MarksKeepFrames(s: State)
    ensures OverflowMarked(s) == s.(flags := OverflowMarked(s).flags) && DreUpdated(s) == s.(flags := DreUpdated(s).flags)
  {
  }

  lemma PushedByClient(s: State, d: Byte, force: bool)
    requires s.mode == Client
    ensures TxPushed(s, d, force) == if s.active || force then s.(txBuf := d, txLoaded := true) else s.(shift := d)
  {
  }

  // ---------- The mode ----------

  /** A host selected by another one, unless SSD is set, becomes a selected client: MASTER is cleared,
      and SSIF is set, or IF in normal mode. */
  lemma HostStepsBack(s: State)
    requires s.mode == Host && s.ctrlb.bufen == s.bufEnabled
    ensures var t := Step(s, SelectPin(true));
            if s.ctrlb.ssd then t == s.(selected := true)
            else
              && t.mode == Client && t.active && t.selected && t.ctrla == s.ctrla.(master := false)
              && t.flags == (if s.ctrlb.bufen then s.flags.(ss := true) else s.flags.(rxc := true))
              && t.rx == s.rx && t.txBuf == s.txBuf && t.txLoaded == s.txLoaded && t.shift == s.shift
  {
  }

  /** The mode that a write to CTRLA leaves an idle controller in: none if disabled; client; or host,
      unless it is selected and does not ignore that. */
  lemma EnableTakes(s: State, r: CtrlA, f: Byte)
    requires !s.active && s.clk == s.idle && s.mode == Disabled
    ensures var t := Step(s, WriteCtrlA(r, f));
            && t.mode == (if !r.enable then Disabled
                          else if r.master && (s.ctrlb.ssd || !s.selected) then Host else Client)
            && (t.active <==> t.mode == Client && s.selected)
            && t.ctrla == (if r.enable && r.master && t.mode == Client then r.(master := false) else r)
            && t.rx == s.rx && t.clk == s.clk && t.txLoaded == s.txLoaded
  {
    var mode := if !r.enable then Disabled else if r.master then Host else Client;
    var u := s.(ctrla := r, mode := mode);
    assert ClockIdled(u, f) == u;
    SelectSeenIs(u);
  }

  lemma SelectSeenIs(s: State)
    requires !s.active
    ensures var t, steps := SelectSeen(s), s.mode == Host && s.selected && !s.ctrlb.ssd;
            && t.mode == (if steps then Client else s.mode) && (t.active <==> t.mode == Client && s.selected)
            && t.ctrla == (if steps then s.ctrla.(master := false) else s.ctrla)
            && t.rx == s.rx && t.clk == s.clk && t.txLoaded == s.txLoaded
  {
  }

  /** After a reset the controller is disabled and empty, with DREIF set and nothing to clear. */
  lemma AfterReset(s: State)
    ensures var t := WasReset(s);
            && t.mode == Disabled && !t.active && !t.timer && !t.txLoaded && t.rx == [] && t.shift == ZERO && !t.clk
            && t.flags == NONE.(dre := true) && t.cleared == NONE
            && t.ctrla == CtrlA(false, false) && t.ctrlb == CtrlB(false, false, false)
            && t.selected == s.selected && t.bufEnabled == s.bufEnabled
  {
  }

  /** So after a reset a program that enables the controller as a host, not selected, can transmit. */
  lemma ReadyToSend(s: State, f: Byte)
    requires !s.selected && !s.idle && !s.bufEnabled && s.step < 16
    ensures var t := Step(WasReset(s), WriteCtrlA(CtrlA(true, true), f));
            Single(t) && !t.active && t.rx == [] && t.flags == NONE.(dre := true)
  {
  }

  // ---------- Clearing the flags ----------

  /** In buffer mode ones written to INTFLAGS clear the flags at once, but for DREIF; in normal mode
      nothing is cleared yet. */
  lemma FlagsWritten(s: State, m: Flags)
    requires s.ctrlb.bufen == s.bufEnabled
    ensures var t := Step(s, WriteIntFlags(m));
            if s.ctrlb.bufen then
              && (t.flags.rxc <==> s.flags.rxc && !m.rxc) && (t.flags.txc <==> s.flags.txc && !m.txc)
              && (t.flags.ss <==> s.flags.ss && !m.ss) && (t.flags.bufovf <==> s.flags.bufovf && !m.bufovf)
              && t.flags.dre == s.flags.dre
            else t.flags == s.flags
  {
  }

  /** At the next read of DATA the flags so written are cleared, DREIF among them; moreover in buffer
      mode RXCIF if that read empties the queue, and BUFOVF. */
  lemma FlagsAfterRead(s: State, m: Flags)
    requires s.ctrlb.bufen == s.bufEnabled && s.cleared == NONE
    ensures var w := Step(s, WriteIntFlags(m)); var t := Step(w, ReadData);
            if s.ctrlb.bufen then
              && (t.flags.rxc <==> s.flags.rxc && !m.rxc && |s.rx| > 1) && (t.flags.txc <==> s.flags.txc && !m.txc)
              && (t.flags.dre <==> s.flags.dre && !m.dre) && (t.flags.ss <==> s.flags.ss && !m.ss) && !t.flags.bufovf
            else
              && (t.flags.rxc <==> s.flags.rxc && !m.rxc) && (t.flags.txc <==> s.flags.txc && !m.txc)
              && t.flags.dre == s.flags.dre && t.flags.ss == s.flags.ss && t.flags.bufovf == s.flags.bufovf
  {
    WrittenFlags(s, m);
    ReadFlags(Step(s, WriteIntFlags(m)));
  }

  lemma WrittenFlags(s: State, m: Flags)
    requires s.ctrlb.bufen == s.bufEnabled && s.cleared == NONE
    ensures var w := Step(s, WriteIntFlags(m));
            && w.cleared == (if s.ctrlb.bufen then m else Flags(m.rxc, m.txc, false, false, false))
            && w.flags == (if s.ctrlb.bufen then
                             Flags(s.flags.rxc && !m.rxc, s.flags.txc && !m.txc, s.flags.dre, s.flags.ss && !m.ss,
                                   s.flags.bufovf && !m.bufovf)
                           else s.flags)
            && w.rx == s.rx && w.ctrlb == s.ctrlb && w.bufEnabled == s.bufEnabled
  {
  }

  lemma ReadFlags(s: State)
    requires s.ctrlb.bufen == s.bufEnabled
    ensures var t, c := Step(s, ReadData).flags, s.cleared;
            if s.ctrlb.bufen then
              t == Flags(s.flags.rxc && !c.rxc && |s.rx| > 1, s.flags.txc && !c.txc, s.flags.dre && !c.dre,
                         s.flags.ss && !c.ss, false)
            else t == s.flags.(rxc := s.flags.rxc && !c.rxc, txc := s.flags.txc && !c.txc)
  {
  }

  // ---------- The peripheral ----------

  class Spi {
    var mode: Mode
    var active: bool
    var step: nat
    var clk: bool
    var idle: bool
    var shift: Byte
    var txBuf: Byte
    var txLoaded: bool
    var rx: seq<Byte>
    var timer: bool
    var selected: bool
    var bufEnabled: bool
    var flags: Flags
    var cleared: Flags
    var ctrla: CtrlA
    var ctrlb: CtrlB

    ghost function View(): State
      reads this
    {
      State(mode, active, step, clk, idle, shift, txBuf, txLoaded, rx, timer, selected,
            bufEnabled, flags, cleared, ctrla, ctrlb)
    }

    constructor ()
      ensures View() == State(Disabled, false, 0, false, false, ZERO, ZERO, false, [], false, false,
                              false, NONE, NONE, CtrlA(false, false), CtrlB(false, false, false))
    {
      mode, active, step, clk, idle := Disabled, false, 0, false, false;
      shift, txBuf, txLoaded, rx, timer, selected := ZERO, ZERO, false, [], false, false;
      bufEnabled, flags, cleared := false, NONE, NONE;
      ctrla, ctrlb := CtrlA(false, false), CtrlB(false, false, false);
    }

    method SetFlag(f: Flags)
      modifies `flags
      ensures View() == FlagsSet(old(View()), f)
    {
      flags := Or(flags, Masked(f, bufEnabled));
    }

    method ClearFlag(f: Flags)
      modifies `flags
      ensures View() == FlagsCleared(old(View()), f)
    {
      flags := Minus(flags, Masked(f, bufEnabled));
    }

    method UpdateFromDataAccess()
      modifies `flags, `cleared
      ensures View() == PendingCleared(old(View()))
    {
      ClearFlag(cleared);
      cleared := NONE;
    }

    method SetBufferEnabled(on: bool)
      modifies `bufEnabled, `flags
      ensures View() == BufferSet(old(View()), on)
    {
      bufEnabled := on;
      flags := Masked(flags, on);
    }

    /** The upper half of the end of a frame. */
    method ReportFrame()
      modifies `flags, `rx
      ensures View() == Reported(old(View()))
    {
      if ctrlb.bufen {
        SetFlag(Flags(true, !txLoaded, true, false, false));
      } else {
        SetFlag(NONE.(rxc := true));
        KeepLast();
      }
    }

    /** In normal mode the queue keeps one frame. */
    method KeepLast()
      modifies `rx
      ensures rx == if |old(rx)| > 1 then old(rx)[|old(rx)| - 1..] else old(rx)
    {
      while |rx| > 1
        invariant |rx| <= |old(rx)| && rx == old(rx)[|old(rx)| - |rx|..]
        invariant old(rx) != [] ==> rx != []
        decreases |rx|
      {
        rx := rx[1..];
      }
    }

    method FrameDone(frame: Byte)
      modifies `shift, `flags, `rx
      ensures View() == FrameCompleted(old(View()), frame)
    {
      shift := frame;
      if |rx| < 3 {
        rx := rx + [frame];
      }
      ReportFrame();
    }

    method SetShiftClock(level: bool, frame: Byte)
      modifies `clk, `step, `shift, `flags, `rx
      ensures View() == ClockTo(old(View()), level, frame)
    {
      if level == clk { return; }
      clk := level;
      if !active { return; }
      if step < 15 {
        step := step + 1;
      } else {
        step := 0;
        FrameDone(frame);
      }
    }

    method SetActive(on: bool)
      modifies `active, `step
      ensures View() == if on then Activated(old(View())) else old(View()).(active := false)
    {
      if on && !active {
        step := 0;
      }
      active := on;
    }

    method StartTransfer()
      modifies `active, `step, `timer, `rx
      ensures View() == TransferStarted(old(View()))
    {
      SetActive(true);
      timer := true;
      if |rx| == 3 {
        rx := rx[..2];
      }
    }

    method PushTx(data: Byte, force: bool)
      modifies `txBuf, `txLoaded, `shift, `active, `step, `timer, `rx
      ensures View() == TxPushed(old(View()), data, force)
    {
      if active || force {
        txBuf := data;
        txLoaded := true;
      } else {
        shift := data;
      }
      if mode == Host && !active {
        StartTransfer();
      }
    }

    method PopRx() returns (frame: Byte)
      modifies `rx
      ensures rx == (if old(rx) == [] then [] else old(rx)[1..]) && frame == (if old(rx) == [] then ZERO else old(rx)[0])
    {
      if |rx| == 0 { return ZERO; }
      frame := rx[0];
      rx := rx[1..];
    }

    method NextEdge(frame: Byte)
      modifies `clk, `step, `shift, `flags, `rx, `txLoaded, `active, `timer
      ensures View() == TimerNext(old(View()), frame)
    {
      SetShiftClock(!clk, frame);
      EndOfEdge();
    }

    method EndOfEdge()
      modifies `clk, `shift, `txLoaded, `active, `timer
      ensures View() == (var t := old(View());
                         if t.step != 0 then t
                         else if t.txLoaded then t.(shift := t.txBuf, txLoaded := false)
                         else t.(active := false, timer := false, clk := t.idle))
    {
      if step != 0 { return; }
      if txLoaded {
        shift := txBuf;
        txLoaded := false;
      } else {
        active := false;
        clk := idle;
        timer := false;
      }
    }

    method SelectHost()
      modifies `ctrla, `mode, `active, `step, `flags
      ensures View() == HostSelected(old(View()))
    {
      if ctrlb.ssd { return; }
      StepBack();
      SetFlag(if ctrlb.bufen then NONE.(ss := true) else NONE.(rxc := true));
    }

    method StepBack()
      modifies `ctrla, `mode, `active, `step
      ensures View() == ClientSelected(old(View()).(ctrla := old(ctrla).(master := false), mode := Client), selected)
    {
      ctrla := ctrla.(master := false);
      mode := Client;
      SetActive(selected);
    }

    method SetSelected(sel: bool)
      modifies `selected, `ctrla, `mode, `active, `step, `flags
      ensures View() == SelectChanged(old(View()), sel)
    {
      selected := sel;
      ReactToSelect();
    }

    method ReactToSelect()
      modifies `ctrla, `mode, `active, `step, `flags
      ensures View() == SelectSeen(old(View()))
    {
      if mode == Host {
        if selected {
          SelectHost();
        }
      } else if mode == Client {
        SetActive(selected);
      }
    }

    method IdleClock(frame: Byte)
      modifies `clk, `step, `shift, `flags, `rx
      ensures View() == ClockIdled(old(View()), frame)
    {
      if mode == Host {
        SetShiftClock(idle, frame);
      }
    }

    method SetMode(m: Mode, frame: Byte)
      modifies this
      ensures View() == ModeSet(old(View()), m, frame)
    {
      if m == mode { return; }
      mode := m;
      IdleClock(frame);
      SetSelected(selected);
    }

    method WriteCtrlAReg(r: CtrlA, frame: Byte)
      modifies this
      ensures View() == Step(old(View()), WriteCtrlA(r, frame))
    {
      ctrla := r;
      if !r.enable {
        SetMode(Disabled, frame);
      } else if r.master {
        SetMode(Host, frame);
      } else {
        SetMode(Client, frame);
      }
    }

    method WriteCtrlBReg(r: CtrlB, idleLevel: bool, frame: Byte)
      modifies `ctrlb, `idle, `clk, `step, `shift, `flags, `rx, `bufEnabled
      ensures View() == CtrlBWritten(old(View()), r, idleLevel, frame)
    {
      SetSerialMode(r, idleLevel, frame);
      SetBufferEnabled(r.bufen);
    }

    method SetSerialMode(r: CtrlB, idleLevel: bool, frame: Byte)
      modifies `ctrlb, `idle, `clk, `step, `shift, `flags, `rx
      ensures View() == ClockIdled(old(View()).(ctrlb := r, idle := idleLevel), frame)
    {
      ctrlb := r;
      idle := idleLevel;
      IdleClock(frame);
    }

    method WriteIntFlagsReg(f: Flags)
      modifies `flags, `cleared
      ensures View() == IntFlagsWritten(old(View()), f)
    {
      if ctrlb.bufen {
        ClearFlag(f.(dre := false));
      }
      cleared := Or(cleared, Masked(f, bufEnabled));
    }

    method WriteBuffered(data: Byte)
      modifies `flags, `txBuf, `txLoaded, `shift, `active, `step, `timer, `rx
      ensures View() == BufferedWrite(old(View()), data)
    {
      if |rx| == 3 {
        SetFlag(NONE.(bufovf := true));
      }
      PushTx(data, mode == Client && !ctrlb.bufwr);
      if txLoaded {
        ClearFlag(NONE.(dre := true));
      }
    }

    method WriteDataReg(data: Byte)
      modifies `flags, `txBuf, `txLoaded, `shift, `active, `step, `timer, `rx
      ensures View() == DataWritten(old(View()), data)
    {
      if !ctrla.enable { return; }
      if ctrlb.bufen {
        WriteBuffered(data);
      } else if active {
        SetFlag(NONE.(txc := true));
      } else {
        PushTx(data, false);
      }
    }

    /** `value` is the byte stored in the register, read when the queue is empty. */
    method ReadDataReg(value: Byte) returns (frame: Byte)
      modifies `rx, `flags, `cleared
      ensures View() == DataRead(old(View()))
      ensures frame == if old(rx) == [] then value else old(rx)[0]
    {
      frame := value;
      if |rx| > 0 {
        frame := PopRx();
      }
      if ctrlb.bufen {
        ClearFlag(Flags(rx == [], false, false, false, true));
      }
      UpdateFromDataAccess();
    }

    method MockTransfer(frame: Byte) returns (sent: Byte)
      modifies `shift, `rx, `flags
      ensures View() == MockTransferred(old(View()), frame) && sent == old(shift)
    {
      sent := shift;
      shift := frame;
      if |rx| == 3 {
        rx := rx[..2];
      }
      rx := rx + [frame];
      ReportFrame();
    }

    method DoReset()
      modifies this
      ensures View() == WasReset(old(View()))
    {
      ResetController();
      ctrla, ctrlb := CtrlA(false, false), CtrlB(false, false, false);
      flags, cleared := NONE.(dre := true), NONE;
    }

    method ResetController()
      modifies `mode, `active, `timer, `shift, `txLoaded, `rx, `clk
      ensures mode == Disabled && !active && !timer && shift == ZERO && !txLoaded && rx == [] && !clk
    {
      timer := false;
      mode := Disabled;
      active := false;
      shift := ZERO;
      txLoaded := false;
      rx := [];
      clk := false;
    }
  }
}
