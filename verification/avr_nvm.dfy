/** The AVR self-programming and EEPROM controller: two state machines, each with a command
    window and a busy period ended by its own timer, sharing the rule that flash and EEPROM
    are never written at the same time.

    A timer is modelled by whether it is scheduled; the event that fires it may come at any
    later moment. CPU events are those of a running CPU: a halted or crashed one issues none. */
module AvrNvm {
  import opened Arith
  import opened NvmMemory

  datatype Phase = Idle | Pending | Read | Write

  datatype Cpu = Running | Halted | Crashed

  // SPM commands
  const BUFFER_LOAD := 0x00
  const PAGE_ERASE := 0x01
  const PAGE_WRITE := 0x02
  const SIG_READ := 0x10

  // EEPROM programming modes
  const ERASE_WRITE := 0
  const ERASE_ONLY := 1
  const WRITE_ONLY := 2
  const READ_MODE := 3

  datatype Config = Config(
    pageSize: nat, flashSize: nat,
    spmWriteDelay: nat, spmEraseDelay: nat,
    eeWriteDelay: nat, eeEraseDelay: nat, eeEraseWriteDelay: nat,
    ignoreBadLpm: bool)
  {
    ghost predicate Valid() {
      pageSize > 0 && pageSize % 2 == 0 && flashSize > 0 && Divides(pageSize, flashSize)
    }
  }

  /** Page buffer, state and control register of the flash side. `bufset` marks the bytes
      loaded since the buffer was last cleared. */
  datatype Spm = Spm(
    buffer: seq<bv8>, bufset: seq<bool>,
    phase: Phase, command: nat, timer: bool,
    reg: SpmControl, irq: bool)

  /** What SPMCR holds. */
  datatype SpmControl = SpmControl(cmd: nat, enable: bool, inten: bool, rwwBusy: bool)

  const SPM_CLEAR := SpmControl(0, false, false, false)

  /** State and registers of the EEPROM side. */
  datatype Ee = Ee(
    phase: Phase, progMode: nat, timer: bool,
    reg: Control, eear: nat, eedr: bv8,
    irq: bool)

  /** What EECR holds. Its fifth field, EERE, is a strobe that always reads zero. */
  datatype Control = Control(eepm: nat, eerie: bool, eempe: bool, eepe: bool)

  const CLEAR := Control(0, false, false, false)

  datatype State = State(
    spm: Spm, ee: Ee, flash: Mem, eeprom: Mem,
    halt: bool, cpu: Cpu, directLpm: bool)

  ghost predicate WellFormed(c: Config, s: State) {
    && c.Valid() && |s.spm.buffer| == |s.spm.bufset| == c.pageSize
    && Sized(s.flash) && |s.flash.bytes| == c.flashSize
    && Sized(s.eeprom)
  }

  // ---------- Flash side ----------

  function ClearedBuffer(c: Config, p: Spm): Spm {
    p.(buffer := seq(c.pageSize, _ => 0xFF), bufset := seq(c.pageSize, _ => false))
  }

  /** A write to SPMCR opens the four-cycle command window, unless an operation or an EEPROM
      write is in progress, in which case the register keeps its value. */
  function SpmcrOutcome(p: Spm, eeWriting: bool, cmd: nat, enable: bool, inten: bool): Spm {
    var q :=
      if p.phase != Idle || eeWriting then p
      else if enable then
        p.(phase := Pending, command := cmd, timer := true, reg := SpmControl(cmd, true, inten, p.reg.rwwBusy))
      else p.(reg := SpmControl(0, false, inten, p.reg.rwwBusy));
    q.(irq := q.irq || (inten && q.phase == Idle))
  }

  function SpmcrWritten(s: State, cmd: nat, enable: bool, inten: bool): State {
    s.(spm := SpmcrOutcome(s.spm, s.ee.phase == Write, cmd, enable, inten))
  }

  function WordAddress(addr: nat): nat { addr - addr % 2 }

  function PageOffset(c: Config, addr: nat): nat
    requires c.Valid()
  {
    Remainder(WordAddress(addr), c.pageSize)
  }

  function PageStart(c: Config, addr: nat): nat
    requires c.Valid()
  {
    WordAddress(addr) - PageOffset(c, addr)
  }

  function WordLoaded(p: Spm, off: nat, lo: bv8, hi: bv8): Spm
    requires off + 1 < |p.buffer| == |p.bufset|
  {
    if p.bufset[off] then p
    else p.(buffer := p.buffer[off := lo][off + 1 := hi], bufset := p.bufset[off := true][off + 1 := true])
  }

  lemma PageOffsetFits(c: Config, addr: nat)
    requires c.Valid()
    ensures PageOffset(c, addr) + 1 < c.pageSize && PageOffset(c, addr) % 2 == 0
    ensures WordAddress(addr) < c.flashSize ==> PageStart(c, addr) + c.pageSize <= c.flashSize
  {
    if WordAddress(addr) < c.flashSize {
      PageIsInside(WordAddress(addr), c.pageSize, c.flashSize);
    }
  }

  /** An SPM instruction reaches the command window. */
  predicate SpmReaches(c: Config, s: State, addr: nat, canWrite: bool) {
    s.cpu == Running && s.spm.phase == Pending && WordAddress(addr) < c.flashSize && canWrite
  }

  predicate IsPageCommand(cmd: nat) { cmd == PAGE_ERASE || cmd == PAGE_WRITE }

  function SpmDelay(c: Config, cmd: nat): nat {
    if cmd == PAGE_ERASE then c.spmEraseDelay else if cmd == PAGE_WRITE then c.spmWriteDelay else 0
  }

  /** Effect of an accepted SPM instruction on the buffer and the flash. */
  function CommandDone(c: Config, s: State, addr: nat, lo: bv8, hi: bv8): (t: State)
    requires WellFormed(c, s) && WordAddress(addr) < c.flashSize
    ensures WellFormed(c, t)
  {
    PageOffsetFits(c, addr);
    if s.spm.command == BUFFER_LOAD then
      s.(spm := WordLoaded(s.spm, PageOffset(c, addr), lo, hi))
    else if s.spm.command == PAGE_ERASE then
      s.(flash := Erased(s.flash, PageStart(c, addr), c.pageSize))
    else if s.spm.command == PAGE_WRITE then
      s.(flash := ProgrammedWhere(s.flash, s.spm.buffer, s.spm.bufset, PageStart(c, addr)),
         spm := ClearedBuffer(c, s.spm))
    else s
  }

  /** Page operations make the controller busy and either close the read-while-write section
      or halt the CPU; other commands end at once. */
  function CommandStarted(c: Config, s: State, rww: bool): State {
    if IsPageCommand(s.spm.command) then PageOperationStarted(c, s, rww) else CommandEnded(c, s)
  }

  function PageOperationStarted(c: Config, s: State, rww: bool): State {
    FlashBlocked(s.(spm := s.spm.(timer := SpmDelay(c, s.spm.command) > 0, phase := Write)), rww)
  }

  function FlashBlocked(s: State, rww: bool): State {
    if rww then s.(spm := s.spm.(reg := s.spm.reg.(rwwBusy := true)), directLpm := false)
    else s.(cpu := Halted, halt := true)
  }

  function CommandEnded(c: Config, s: State): State {
    s.(spm := s.spm.(timer := SpmDelay(c, s.spm.command) > 0, phase := Idle,
                     reg := s.spm.reg.(cmd := 0, enable := false)))
  }

  function SpmExecuted(c: Config, s: State, addr: nat, lo: bv8, hi: bv8, canWrite: bool, rww: bool): (t: State)
    requires WellFormed(c, s)
    ensures WellFormed(c, t)
  {
    if s.spm.phase != Pending then (if c.ignoreBadLpm then s else s.(cpu := Crashed))
    else if WordAddress(addr) >= c.flashSize then s.(cpu := Crashed)
    else if !canWrite then (if c.ignoreBadLpm then s else s.(cpu := Crashed))
    else if s.spm.command == SIG_READ then s
    else CommandStarted(c, CommandDone(c, s, addr, lo, hi), rww)
  }

  /** Result of the request: 1 done, 0 ignored, -1 crash. */
  function SpmResult(c: Config, s: State, addr: nat, canWrite: bool): int {
    if s.spm.phase != Pending then (if c.ignoreBadLpm then 0 else -1)
    else if WordAddress(addr) >= c.flashSize then -1
    else if !canWrite then (if c.ignoreBadLpm then 0 else -1)
    else if s.spm.command == SIG_READ then 0
    else 1
  }

  /** An LPM instruction. It goes through the controller only while the direct mode is off. */
  function LpmExecuted(s: State, rww: bool): State {
    if s.directLpm then s
    else if s.spm.phase == Idle then s.(cpu := Crashed)
    else if s.spm.phase != Pending then (if rww then s.(cpu := Halted, halt := true) else s)
    else s
  }

  function SpmFinished(p: Spm): Spm {
    var done := p.phase == Read || p.phase == Write;
    p.(timer := false, phase := Idle, reg := SPM_CLEAR.(inten := p.reg.inten), irq := p.irq || (done && p.reg.inten))
  }

  function SpmTimerFired(s: State): State {
    if !s.spm.timer then s else
      s.(spm := SpmFinished(s.spm),
         directLpm := true,
         cpu := if s.halt && s.cpu == Halted then Running else s.cpu,
         halt := false)
  }

  // ---------- EEPROM side ----------

  function EeDelay(c: Config, mode: nat): nat {
    if mode == ERASE_WRITE then c.eeEraseWriteDelay
    else if mode == ERASE_ONLY then c.eeEraseDelay
    else if mode == WRITE_ONLY then c.eeWriteDelay
    else 0
  }

  function EepromByte(m: Mem, addr: nat): bv8 {
    if addr < |m.bytes| then m.bytes[addr] else 0xFF
  }

  /** Contents of the EEPROM after a command at an address with a data byte. */
  function EepromAfter(m: Mem, mode: nat, addr: nat, data: bv8): Mem
    requires Sized(m)
  {
    if mode == ERASE_WRITE then Programmed(ErasedByte(m, addr), data, addr)
    else if mode == ERASE_ONLY then ErasedByte(m, addr)
    else if mode == WRITE_ONLY then Programmed(m, data, addr)
    else m
  }

  /** A value written to EECR. */
  datatype Eecr = Eecr(reg: Control, eere: bool)

  function Bit(b: bool, weight: nat): nat { if b then weight else 0 }

  /** EECR as a number: EERE, EEPE, EEMPE, EERIE from bit 0 up, then EEPM in two bits. */
  function RegisterValue(r: Control): nat {
    Bit(r.eepe, 2) + Bit(r.eempe, 4) + Bit(r.eerie, 8) + 16 * r.eepm
  }

  /** The low two bits of the register. */
  function LowBits(r: Control): nat { Bit(r.eepe, 2) }

  /** A field whose write is refused is not given its former value: it is written with the former
      value of the whole register, of which it keeps as many low bits as it has. So one bit gets
      EERE, that is zero, and EEPM gets EEPE and EERE. */
  lemma RefusedFields(r: Control)
    ensures RegisterValue(r) % 2 == 0 && RegisterValue(r) % 4 == LowBits(r)
  {
    var upper := Bit(r.eempe, 1) + Bit(r.eerie, 2) + 4 * r.eepm;
    assert RegisterValue(r) == 4 * upper + LowBits(r);
    LowPart(upper, LowBits(r));
  }

  lemma LowPart(upper: nat, low: nat)
    requires low == 0 || low == 2
    ensures (4 * upper + low) % 4 == low && (4 * upper + low) % 2 == 0
  {
    var value, half := 4 * upper + low, 2 * upper + low / 2;
    assert value == 2 * half;
    assert value / 4 == upper;
    assert value / 2 == half;
  }

  /** EEMPE rising, with EEPE clear and the EEPROM idle, opens the write window. */
  predicate Unlocks(e: Ee, v: Eecr) {
    v.reg.eempe && !e.reg.eempe && !v.reg.eepe && e.phase == Idle
  }

  /** EEPE rising starts a programming operation inside the window, if no flash operation runs. */
  predicate Starts(e: Ee, v: Eecr, flashIdle: bool) {
    v.reg.eepe && !e.reg.eepe && e.phase == Pending && flashIdle
  }

  /** The register once EEMPE and EEPE are dealt with: refused, they read zero. */
  function WindowRegister(e: Ee, v: Eecr, flashIdle: bool): Control {
    v.reg.(eempe := Unlocks(e, v), eepe := Starts(e, v, flashIdle))
  }

  /** The EEPROM side once EEMPE and EEPE are dealt with. */
  function WindowOutcome(c: Config, e: Ee, v: Eecr, flashIdle: bool, m: Mem): Ee {
    var w := e.(reg := WindowRegister(e, v, flashIdle));
    if Starts(e, v, flashIdle) then
      var mode := v.reg.eepm;
      w.(phase := Write, timer := EeDelay(c, mode) > 0,
         progMode := if mode == READ_MODE then 0 else if mode < READ_MODE then mode else e.progMode,
         eedr := if mode == READ_MODE then EepromByte(m, e.eear) else e.eedr)
    else if Unlocks(e, v) then w.(phase := Pending, timer := true)
    else w
  }

  /** Then EERE, served unless a programming operation runs... */
  function ReadOutcome(e: Ee, eere: bool, m: Mem): Ee {
    if eere && (e.phase == Idle || e.phase == Pending) then
      e.(progMode := 0, timer := false, reg := e.reg.(eempe := false), eedr := EepromByte(m, e.eear))
    else e
  }

  /** ... then EERIE, and EEPM, which is refused during a programming operation. */
  function FinalOutcome(e: Ee, v: Eecr, was: Control): Ee {
    e.(irq := e.irq || (v.reg.eerie && !e.reg.eepe),
       reg := if e.phase == Write then e.reg.(eepm := LowBits(was)) else e.reg)
  }

  /** The EEPROM side after a write to EECR: the five fields share the register, so one write
      goes through all the rules in turn. */
  function EecrOutcome(c: Config, e: Ee, v: Eecr, flashIdle: bool, m: Mem): Ee {
    FinalOutcome(ReadOutcome(WindowOutcome(c, e, v, flashIdle, m), v.eere, m), v, e.reg)
  }

  /** A programming operation that starts leaves nothing to read, so the read never sees its effect. */
  lemma ReadAfterWindow(c: Config, e: Ee, v: Eecr, flashIdle: bool, m: Mem, m1: Mem)
    requires !Starts(e, v, flashIdle) ==> m1 == m
    ensures var w := WindowOutcome(c, e, v, flashIdle, m);
            ReadOutcome(w, v.eere, m1) == ReadOutcome(w, v.eere, m)
  {
  }

  function EecrWritten(c: Config, s: State, v: Eecr): (t: State)
    requires Sized(s.eeprom)
    ensures t == s.(ee := t.ee, eeprom := t.eeprom) && Sized(t.eeprom)
  {
    var idle := s.spm.phase == Idle;
    s.(ee := EecrOutcome(c, s.ee, v, idle, s.eeprom),
       eeprom := if Starts(s.ee, v, idle) then EepromAfter(s.eeprom, v.reg.eepm, s.ee.eear, s.ee.eedr) else s.eeprom)
  }

  function EeTimerFired(s: State): State {
    if !s.ee.timer then s else
      var e := s.ee.(timer := false);
      match e.phase
      case Pending => s.(ee := e.(reg := e.reg.(eempe := false), phase := Idle))
      case Write => s.(ee := e.(reg := e.reg.(eepe := false, eepm := 0), irq := e.irq || e.reg.eerie, phase := Idle))
      case _ => s.(ee := e.(phase := Idle))
  }

  // ---------- Reset ----------

  /** Registers and interrupt requests are zeroed and the direct LPM mode restored by the
      core; an EEPROM write in progress goes on and its control bits are put back. */
  function WasReset(c: Config, s: State): State {
    CpuRestarted(s).(spm := SpmAfterReset(c, s.spm), ee := EeAfterReset(s.ee))
  }

  function CpuRestarted(s: State): State {
    s.(halt := false, directLpm := true, cpu := if s.cpu == Crashed then Crashed else Running)
  }

  function SpmAfterReset(c: Config, p: Spm): Spm {
    ClearedBuffer(c, Spm(p.buffer, p.bufset, Idle, p.command, false, SPM_CLEAR, false))
  }

  function EeAfterReset(e: Ee): Ee {
    var z := Ee(e.phase, e.progMode, e.timer, CLEAR, 0, 0, false);
    if z.phase == Write then z.(reg := CLEAR.(eepm := z.progMode, eepe := true)) else z.(phase := Idle, timer := false)
  }

  // ---------- Runs ----------

  datatype Event =
    | WriteSpmcr(cmd: nat, enable: bool, inten: bool)
    | SpmInstr(addr: nat, lo: bv8, hi: bv8, canWrite: bool, rww: bool)
    | LpmInstr(rww: bool)
    | SpmTimer
    | WriteEecr(v: Eecr)
    | WriteEear(addr: nat)
    | WriteEedr(data: bv8)
    | EeTimer
    | AckSpmReady
    | AckEeReady
    | Reset

  predicate Available(p: Phase) { p == Idle || p == Pending }

  /** The events a running CPU causes. */
  function CpuStep(c: Config, s: State, e: Event): (t: State)
    requires WellFormed(c, s)
    ensures WellFormed(c, t)
  {
    match e
    case WriteSpmcr(cmd, enable, inten) => SpmcrWritten(s, cmd, enable, inten)
    case SpmInstr(a, lo, hi, cw, rww) => SpmExecuted(c, s, a, lo, hi, cw, rww)
    case LpmInstr(rww) => LpmExecuted(s, rww)
    case WriteEecr(v) => EecrWritten(c, s, v)
    case WriteEear(a) => s.(ee := s.ee.(eear := a))
    case WriteEedr(d) => s.(ee := s.ee.(eedr := d))
    case AckSpmReady => s.(spm := s.spm.(irq := s.spm.irq && Available(s.spm.phase) && s.spm.reg.inten))
    case AckEeReady => s.(ee := s.ee.(irq := s.ee.irq && Available(s.ee.phase) && s.ee.reg.eerie))
    case _ => s
  }

  function Step(c: Config, s: State, e: Event): (t: State)
    requires WellFormed(c, s)
    ensures WellFormed(c, t)
  {
    match e
    case SpmTimer => SpmTimerFired(s)
    case EeTimer => EeTimerFired(s)
    case Reset => WasReset(c, s)
    case _ => if s.cpu == Running then CpuStep(c, s, e) else s
  }

  function Run(c: Config, s: State, es: seq<Event>): (t: State)
    requires WellFormed(c, s)
    ensures WellFormed(c, t)
    decreases |es|
  {
    if es == [] then s else Run(c, Step(c, s, es[0]), es[1..])
  }

  /** A run with all its states: `tr[i]` is the state before `es[i]`. */
  ghost predicate Trace(c: Config, tr: seq<State>, es: seq<Event>) {
    |tr| == |es| + 1 && WellFormed(c, tr[|es|]) && forall i: nat | i < |es| :: Link(c, tr, es, i)
  }

  ghost predicate Link(c: Config, tr: seq<State>, es: seq<Event>, i: nat)
    requires i < |es| && |tr| == |es| + 1
  {
    WellFormed(c, tr[i]) && tr[i + 1] == Step(c, tr[i], es[i])
  }

  function Initial(c: Config, flash: Mem, eeprom: Mem): State {
    State(Spm(seq(c.pageSize, _ => 0xFF), seq(c.pageSize, _ => false), Idle, 0, false, SPM_CLEAR, false),
          Ee(Idle, 0, false, CLEAR, 0, 0, false),
          flash, eeprom, false, Running, true)
  }

  // ---------- The interlock, the halt and the direct LPM mode ----------

  ghost predicate Interlocked(s: State) {
    && (s.ee.phase == Write ==> s.spm.phase == Idle)
    && (s.halt ==> s.spm.phase == Write)
    && (s.cpu == Halted ==> s.halt)
    && (!s.directLpm ==> s.spm.phase == Write)
    && s.spm.phase != Read && s.ee.phase != Read
  }

  lemma EecrKeepsInterlock(c: Config, s: State, v: Eecr)
    requires Sized(s.eeprom) && Interlocked(s)
    ensures Interlocked(EecrWritten(c, s, v))
  {
  }

  lemma SpmKeepsInterlock(c: Config, s: State, a: nat, lo: bv8, hi: bv8, cw: bool, rww: bool)
    requires WellFormed(c, s) && Interlocked(s) && s.cpu == Running
    ensures Interlocked(SpmExecuted(c, s, a, lo, hi, cw, rww))
  {
    if SpmReaches(c, s, a, cw) {
      var d := CommandDone(c, s, a, lo, hi);
      assert d.spm.phase == Pending && d.spm.command == s.spm.command;
    }
  }

  lemma StepKeepsInterlock(c: Config, s: State, e: Event)
    requires WellFormed(c, s) && Interlocked(s)
    ensures Interlocked(Step(c, s, e))
  {
    match e
    case SpmInstr(a, lo, hi, cw, rww) =>
      if s.cpu == Running { SpmKeepsInterlock(c, s, a, lo, hi, cw, rww); }
    case WriteEecr(v) =>
      EecrKeepsInterlock(c, s, v);
    case _ =>
  }

  /** In every reachable state, resets included, an EEPROM write excludes any flash command; the
      CPU is halted only while a flash page operation runs; and the direct LPM mode is off only
      then. */
  lemma {:induction false} InterlockAlwaysHolds(c: Config, s: State, es: seq<Event>)
    requires WellFormed(c, s) && Interlocked(s)
    ensures Interlocked(Run(c, s, es))
    decreases |es|
  {
    if es != [] {
      StepKeepsInterlock(c, s, es[0]);
      InterlockAlwaysHolds(c, Step(c, s, es[0]), es[1..]);
    }
  }

  /** An LPM instruction therefore never crashes for want of an operation, and never meets an
      open command window: reading the lock bits or the signature through one is unreachable. */
  lemma LpmMeetsOnlyPageOperations(c: Config, s: State, es: seq<Event>, rww: bool)
    requires WellFormed(c, s) && Interlocked(s)
    ensures var t := Run(c, s, es);
            && (t.directLpm || t.spm.phase == Write)
            && (t.cpu == Running ==> Step(c, t, LpmInstr(rww)).cpu != Crashed)
  {
    InterlockAlwaysHolds(c, s, es);
  }

  // ---------- No lost wake-up ----------

  /** A halted CPU has the timer that will wake it scheduled. */
  predicate WillWake(s: State) {
    s.halt || s.cpu == Halted || !s.directLpm ==> s.spm.phase == Write && s.spm.timer
  }

  predicate WindowsClose(s: State) {
    s.spm.phase != Idle ==> s.spm.timer
  }

  lemma StepKeepsWindows(c: Config, s: State, e: Event)
    requires WellFormed(c, s) && Interlocked(s) && WindowsClose(s)
    requires c.spmEraseDelay > 0 && c.spmWriteDelay > 0
    ensures WindowsClose(Step(c, s, e))
  {
  }

  lemma {:induction false} WindowsAlwaysClose(c: Config, s: State, es: seq<Event>)
    requires WellFormed(c, s) && Interlocked(s) && WindowsClose(s)
    requires c.spmEraseDelay > 0 && c.spmWriteDelay > 0
    ensures WindowsClose(Run(c, s, es)) && Interlocked(Run(c, s, es))
    decreases |es|
  {
    if es != [] {
      StepKeepsInterlock(c, s, es[0]);
      StepKeepsWindows(c, s, es[0]);
      WindowsAlwaysClose(c, Step(c, s, es[0]), es[1..]);
    }
  }

  /** Firing the timer ends the operation, wakes the CPU and restores direct LPM, all at once. */
  lemma TimerWakesCpu(c: Config, s: State)
    requires WellFormed(c, s) && Interlocked(s) && s.spm.timer
    ensures var t := Step(c, s, SpmTimer);
            t.spm.phase == Idle && !t.halt && t.directLpm && !t.spm.reg.rwwBusy && t.cpu != Halted
  {
  }

  /** Without the timer, only a reset wakes a halted CPU. */
  lemma {:induction false} HaltedForEver(c: Config, s: State, es: seq<Event>)
    requires WellFormed(c, s) && s.cpu == Halted && !s.spm.timer
    requires Reset !in es
    ensures Run(c, s, es).cpu == Halted
    decreases |es|
  {
    if es != [] {
      HaltedForEver(c, Step(c, s, es[0]), es[1..]);
    }
  }

  /** A halted CPU is lost, staying halted in every run without a reset, if and only if the timer of
      the page operation is not scheduled. */
  lemma LostIff(c: Config, s: State)
    requires WellFormed(c, s) && Interlocked(s) && s.cpu == Halted
    ensures (forall es | Reset !in es :: Run(c, s, es).cpu == Halted) <==> !s.spm.timer
  {
    if s.spm.timer {
      TimerWakesCpu(c, s);
      var es := [SpmTimer];
      assert es[1..] == [] && Reset !in es;
      assert Run(c, s, es) == Run(c, Step(c, s, SpmTimer), []);
      assert Run(c, s, es).cpu != Halted;
    } else {
      forall es | Reset !in es ensures Run(c, s, es).cpu == Halted { HaltedForEver(c, s, es); }
    }
  }

  /** The run that halts the CPU: open the window for a page command, then execute it outside
      the read-while-write section. */
  function HaltingRun(cmd: nat): seq<Event> {
    [WriteSpmcr(cmd, true, false), SpmInstr(0, 0, 0, true, false)]
  }

  lemma HaltingRunHalts(c: Config, s: State, cmd: nat)
    requires WellFormed(c, s) && s == Initial(c, s.flash, s.eeprom) && IsPageCommand(cmd)
    ensures Run(c, s, HaltingRun(cmd)).cpu == Halted
    ensures Run(c, s, HaltingRun(cmd)).spm.timer == (SpmDelay(c, cmd) > 0)
  {
    var es := HaltingRun(cmd);
    var t := Step(c, s, es[0]);
    assert es[1..] == [es[1]];
    assert Run(c, t, [es[1]]) == Run(c, Step(c, t, es[1]), []);
  }

  /** No wake-up is ever lost, from power-on on, exactly when both page delays are positive. */
  lemma NoLostWakeUp(c: Config, s: State)
    requires WellFormed(c, s) && s == Initial(c, s.flash, s.eeprom)
    ensures (forall es: seq<Event> :: WillWake(Run(c, s, es))) <==> c.spmEraseDelay > 0 && c.spmWriteDelay > 0
  {
    if c.spmEraseDelay > 0 && c.spmWriteDelay > 0 {
      forall es: seq<Event> ensures WillWake(Run(c, s, es)) {
        WindowsAlwaysClose(c, s, es);
      }
    } else {
      var cmd := if c.spmEraseDelay == 0 then PAGE_ERASE else PAGE_WRITE;
      HaltingRunHalts(c, s, cmd);
      assert !WillWake(Run(c, s, HaltingRun(cmd)));
    }
  }

  // ---------- Page programming ----------

  datatype Load = Load(off: nat, lo: bv8, hi: bv8)

  /** The first word loaded at an even offset wins. */
  function FirstLoad(log: seq<Load>, off: nat): (i: nat)
    ensures i <= |log| && (i < |log| ==> log[i].off == off)
    ensures forall j | 0 <= j < i :: log[j].off != off
  {
    if log == [] then 0 else if log[0].off == off then 0 else 1 + FirstLoad(log[1..], off)
  }

  predicate Loaded(log: seq<Load>, i: nat) {
    FirstLoad(log, i - i % 2) < |log|
  }

  function LoadedByte(log: seq<Load>, i: nat): bv8 {
    var k := FirstLoad(log, i - i % 2);
    if k == |log| then 0xFF else if i % 2 == 0 then log[k].lo else log[k].hi
  }

  /** The log after an accepted command. */
  function LogDone(c: Config, log: seq<Load>, cmd: nat, off: nat, lo: bv8, hi: bv8): seq<Load> {
    if cmd == BUFFER_LOAD then log + [Load(off, lo, hi)] else if cmd == PAGE_WRITE then [] else log
  }

  /** Where a word at an address goes: its offset in the page, by repeated subtraction. */
  function LoadOffset(c: Config, a: nat): (off: nat)
    requires c.Valid()
  {
    Remainder(a - a % 2, c.pageSize)
  }

  lemma LoadOffsetIs(c: Config, a: nat)
    requires c.Valid()
    ensures LoadOffset(c, a) == (a - a % 2) % c.pageSize
  {
    RemainderIsMod(a - a % 2, c.pageSize);
  }

  /** The words loaded since the buffer was last cleared, in order. */
  function LogStep(c: Config, log: seq<Load>, s: State, e: Event): seq<Load>
    requires c.Valid()
  {
    match e
    case SpmInstr(a, lo, hi, cw, _) =>
      if SpmReaches(c, s, a, cw) then LogDone(c, log, s.spm.command, LoadOffset(c, a), lo, hi) else log
    case Reset => []
    case _ => log
  }

  /** The same at position `j` of a run that begins with `log`. */
  ghost function LogAt(c: Config, tr: seq<State>, es: seq<Event>, log: seq<Load>, j: nat): seq<Load>
    requires c.Valid() && j <= |es| < |tr|
    decreases j
  {
    if j == 0 then log else LogStep(c, LogAt(c, tr, es, log, j - 1), tr[j - 1], es[j - 1])
  }

  ghost predicate BufferHolds(c: Config, p: Spm, log: seq<Load>) {
    && |p.buffer| == |p.bufset| == c.pageSize
    && forall i: nat | i < c.pageSize :: p.bufset[i] == Loaded(log, i) && p.buffer[i] == LoadedByte(log, i)
  }

  lemma {:induction false} FirstLoadOfAppend(log: seq<Load>, l: Load, off: nat)
    ensures FirstLoad(log + [l], off) ==
            if FirstLoad(log, off) < |log| then FirstLoad(log, off)
            else if l.off == off then |log| else |log| + 1
  {
    if log != [] {
      FirstLoadOfAppend(log[1..], l, off);
      assert (log + [l])[1..] == log[1..] + [l];
    }
  }

  lemma SameWordIff(i: nat, off: nat)
    requires off % 2 == 0
    ensures i - i % 2 == off <==> i == off || i == off + 1
    ensures i == off ==> i % 2 == 0
    ensures i == off + 1 ==> i % 2 == 1
  {
  }

  lemma LogOneMore(log: seq<Load>, l: Load, i: nat)
    ensures Loaded(log + [l], i) == (Loaded(log, i) || i - i % 2 == l.off)
    ensures LoadedByte(log + [l], i) ==
            if Loaded(log, i) then LoadedByte(log, i)
            else if i - i % 2 != l.off then 0xFF
            else if i % 2 == 0 then l.lo else l.hi
  {
    FirstLoadOfAppend(log, l, i - i % 2);
  }

  lemma LoadKeepsByte(c: Config, p: Spm, log: seq<Load>, l: Load, i: nat)
    requires BufferHolds(c, p, log) && l.off + 1 < c.pageSize && l.off % 2 == 0 && i < c.pageSize
    ensures var q := WordLoaded(p, l.off, l.lo, l.hi);
            q.bufset[i] == Loaded(log + [l], i) && q.buffer[i] == LoadedByte(log + [l], i)
  {
    LogOneMore(log, l, i);
    SameWordIff(i, l.off);
    SameWord(c, p, log, l.off);
  }

  lemma LoadKeepsBuffer(c: Config, p: Spm, log: seq<Load>, off: nat, lo: bv8, hi: bv8)
    requires BufferHolds(c, p, log) && off + 1 < c.pageSize && off % 2 == 0
    ensures BufferHolds(c, WordLoaded(p, off, lo, hi), log + [Load(off, lo, hi)])
  {
    forall i: nat | i < c.pageSize
      ensures WordLoaded(p, off, lo, hi).bufset[i] == Loaded(log + [Load(off, lo, hi)], i)
      ensures WordLoaded(p, off, lo, hi).buffer[i] == LoadedByte(log + [Load(off, lo, hi)], i)
    {
      LoadKeepsByte(c, p, log, Load(off, lo, hi), i);
    }
  }

  /** The two bytes of a word are loaded together. */
  lemma SameWord(c: Config, p: Spm, log: seq<Load>, off: nat)
    requires BufferHolds(c, p, log) && off + 1 < c.pageSize && off % 2 == 0
    ensures p.bufset[off] == p.bufset[off + 1]
  {
    SameWordIff(off, off);
    SameWordIff(off + 1, off);
  }

  lemma ClearedHoldsNothing(c: Config, p: Spm)
    requires c.Valid()
    ensures BufferHolds(c, ClearedBuffer(c, p), [])
  {
  }

  lemma CommandKeepsBuffer(c: Config, s: State, log: seq<Load>, a: nat, lo: bv8, hi: bv8)
    requires WellFormed(c, s) && BufferHolds(c, s.spm, log) && WordAddress(a) < c.flashSize
    ensures BufferHolds(c, CommandDone(c, s, a, lo, hi).spm, LogDone(c, log, s.spm.command, PageOffset(c, a), lo, hi))
  {
    PageOffsetFits(c, a);
    if s.spm.command == BUFFER_LOAD {
      LoadKeepsBuffer(c, s.spm, log, PageOffset(c, a), lo, hi);
    } else if s.spm.command == PAGE_WRITE {
      ClearedHoldsNothing(c, s.spm);
    } else {
      assert CommandDone(c, s, a, lo, hi).spm == s.spm;
    }
  }

  lemma SameBufferHolds(c: Config, p: Spm, q: Spm, log: seq<Load>)
    requires BufferHolds(c, p, log) && p.buffer == q.buffer && p.bufset == q.bufset
    ensures BufferHolds(c, q, log)
  {
  }

  lemma SpmKeepsBuffer(c: Config, s: State, log: seq<Load>, a: nat, lo: bv8, hi: bv8, cw: bool, rww: bool)
    requires WellFormed(c, s) && BufferHolds(c, s.spm, log) && s.cpu == Running
    ensures BufferHolds(c, SpmExecuted(c, s, a, lo, hi, cw, rww).spm, LogStep(c, log, s, SpmInstr(a, lo, hi, cw, rww)))
  {
    if SpmReaches(c, s, a, cw) && s.spm.command != SIG_READ {
      CommandKeepsBuffer(c, s, log, a, lo, hi);
      var d, after := CommandDone(c, s, a, lo, hi), LogDone(c, log, s.spm.command, LoadOffset(c, a), lo, hi);
      SameBufferHolds(c, d.spm, CommandStarted(c, d, rww).spm, after);
    } else {
      SameBufferHolds(c, s.spm, SpmExecuted(c, s, a, lo, hi, cw, rww).spm, log);
    }
  }

  predicate SameBuffer(p: Spm, q: Spm) { p.buffer == q.buffer && p.bufset == q.bufset }

  lemma SpmcrKeepsBuffer(p: Spm, eeWriting: bool, cmd: nat, enable: bool, inten: bool)
    ensures SameBuffer(p, SpmcrOutcome(p, eeWriting, cmd, enable, inten))
  {
  }

  lemma CpuKeepsBuffer(c: Config, s: State, e: Event)
    requires WellFormed(c, s) && !e.SpmInstr?
    ensures SameBuffer(s.spm, CpuStep(c, s, e).spm)
  {
    if e.WriteSpmcr? {
      SpmcrKeepsBuffer(s.spm, s.ee.phase == Write, e.cmd, e.enable, e.inten);
    } else if e.WriteEecr? {
      assert EecrWritten(c, s, e.v).spm == s.spm;
    }
  }

  lemma OtherEventsKeepBuffer(c: Config, s: State, e: Event)
    requires WellFormed(c, s) && e != Reset && !e.SpmInstr?
    ensures SameBuffer(s.spm, Step(c, s, e).spm)
  {
    CpuKeepsBuffer(c, s, e);
  }

  lemma InstrKeepsBuffer(c: Config, s: State, log: seq<Load>, e: Event)
    requires WellFormed(c, s) && BufferHolds(c, s.spm, log) && e.SpmInstr?
    ensures BufferHolds(c, Step(c, s, e).spm, LogStep(c, log, s, e))
  {
    if s.cpu == Running {
      SpmKeepsBuffer(c, s, log, e.addr, e.lo, e.hi, e.canWrite, e.rww);
      assert Step(c, s, e) == SpmExecuted(c, s, e.addr, e.lo, e.hi, e.canWrite, e.rww);
    }
  }

  lemma StepKeepsBuffer(c: Config, s: State, log: seq<Load>, e: Event)
    requires WellFormed(c, s) && BufferHolds(c, s.spm, log)
    ensures BufferHolds(c, Step(c, s, e).spm, LogStep(c, log, s, e))
  {
    if e.SpmInstr? {
      InstrKeepsBuffer(c, s, log, e);
    } else if e == Reset {
      ClearedHoldsNothing(c, Spm(s.spm.buffer, s.spm.bufset, Idle, s.spm.command, false, SPM_CLEAR, false));
    } else {
      OtherEventsKeepBuffer(c, s, e);
      SameBufferHolds(c, s.spm, Step(c, s, e).spm, log);
    }
  }

  /** The page buffer is at all times the first-write-wins image of the loads since it was
      last cleared, whatever windows time out and whatever else happens in between. */
  lemma {:induction false} BufferIsLog(c: Config, tr: seq<State>, es: seq<Event>, log: seq<Load>, j: nat)
    requires Trace(c, tr, es) && c.Valid() && BufferHolds(c, tr[0].spm, log) && j <= |es|
    ensures BufferHolds(c, tr[j].spm, LogAt(c, tr, es, log, j))
    decreases j
  {
    if j > 0 {
      BufferIsLog(c, tr, es, log, j - 1);
      assert Link(c, tr, es, j - 1);
      StepKeepsBuffer(c, tr[j - 1], LogAt(c, tr, es, log, j - 1), es[j - 1]);
    }
  }

  /** The event is an accepted page erase or page write. */
  predicate ChangesFlash(c: Config, s: State, e: Event) {
    e.SpmInstr? && SpmReaches(c, s, e.addr, e.canWrite) && IsPageCommand(s.spm.command)
  }

  lemma OnlyPageCommandsChangeFlash(c: Config, s: State, e: Event)
    requires WellFormed(c, s) && !ChangesFlash(c, s, e)
    ensures Step(c, s, e).flash == s.flash
  {
  }

  /** The accepted page commands, on the flash and the buffer. */
  lemma PageEraseEffect(c: Config, s: State, e: Event)
    requires WellFormed(c, s) && ChangesFlash(c, s, e) && s.spm.command == PAGE_ERASE
    ensures Step(c, s, e).flash == Erased(s.flash, PageStart(c, e.addr), c.pageSize)
  {
  }

  lemma PageWriteEffect(c: Config, s: State, e: Event)
    requires WellFormed(c, s) && ChangesFlash(c, s, e) && s.spm.command == PAGE_WRITE
    ensures Step(c, s, e).flash == ProgrammedWhere(s.flash, s.spm.buffer, s.spm.bufset, PageStart(c, e.addr))
  {
  }

  lemma {:induction false} FlashUntouched(c: Config, tr: seq<State>, es: seq<Event>, i: nat, j: nat)
    requires Trace(c, tr, es) && i <= j <= |es|
    requires forall l | i <= l < j :: !ChangesFlash(c, tr[l], es[l])
    ensures tr[j].flash == tr[i].flash
    decreases j
  {
    if i < j {
      FlashUntouched(c, tr, es, i, j - 1);
      assert Link(c, tr, es, j - 1);
      OnlyPageCommandsChangeFlash(c, tr[j - 1], es[j - 1]);
    }
  }

  /** The address of the instruction and `x` are on the same page. */
  predicate SamePageAs(c: Config, addr: nat, x: nat)
    requires c.Valid()
  {
    x / c.pageSize == (addr - addr % 2) / c.pageSize
  }

  /** An accepted page erase: the bytes of the addressed page, and no others, become 0xFF. */
  lemma PageErased(c: Config, s: State, e: Event, x: nat)
    requires WellFormed(c, s) && ChangesFlash(c, s, e) && s.spm.command == PAGE_ERASE && x < c.flashSize
    ensures Step(c, s, e).flash.bytes[x] == if SamePageAs(c, e.addr, x) then 0xFF else s.flash.bytes[x]
  {
    PageOffsetFits(c, e.addr);
    PageEraseEffect(c, s, e);
    AddressedPage(c, e.addr, x);
  }

  lemma AddressedPage(c: Config, addr: nat, x: nat)
    requires c.Valid()
    ensures var p := PageStart(c, addr);
            && (p <= x < p + c.pageSize <==> SamePageAs(c, addr, x))
            && (p <= x < p + c.pageSize ==> x - p == x % c.pageSize)
  {
    SamePage(WordAddress(addr), c.pageSize, x);
  }

  /** An accepted page write: the bytes of the addressed page that have been loaded are ANDed in, and
      no others change. */
  lemma PageWritten(c: Config, s: State, log: seq<Load>, e: Event, x: nat)
    requires WellFormed(c, s) && BufferHolds(c, s.spm, log)
    requires ChangesFlash(c, s, e) && s.spm.command == PAGE_WRITE && x < c.flashSize
    ensures Step(c, s, e).flash.bytes[x] ==
            if SamePageAs(c, e.addr, x) && Loaded(log, x % c.pageSize) then
              s.flash.bytes[x] & LoadedByte(log, x % c.pageSize)
            else s.flash.bytes[x]
  {
    PageOffsetFits(c, e.addr);
    PageWriteEffect(c, s, e);
    AddressedPage(c, e.addr, x);
    LoadedAnded(c, s.flash, s.spm, log, PageStart(c, e.addr), x);
  }

  lemma LoadedAnded(c: Config, m: Mem, p: Spm, log: seq<Load>, start: nat, x: nat)
    requires c.Valid() && Sized(m) && |m.bytes| == c.flashSize && start + c.pageSize <= c.flashSize
    requires BufferHolds(c, p, log) && x < c.flashSize
    ensures ProgrammedWhere(m, p.buffer, p.bufset, start).bytes[x] ==
            if start <= x < start + c.pageSize && Loaded(log, x - start) then m.bytes[x] & LoadedByte(log, x - start)
            else m.bytes[x]
  {
    if start <= x < start + c.pageSize {
      var k: nat := x - start;
      assert p.bufset[k] == Loaded(log, k) && p.buffer[k] == LoadedByte(log, k);
    }
  }

  lemma ErasedAt(c: Config, tr: seq<State>, es: seq<Event>, i: nat, x: nat)
    requires Trace(c, tr, es) && i < |es| && ChangesFlash(c, tr[i], es[i]) && tr[i].spm.command == PAGE_ERASE
    requires x < c.flashSize
    ensures WellFormed(c, tr[i]) && WellFormed(c, tr[i + 1])
    ensures tr[i + 1].flash.bytes[x] == if SamePageAs(c, es[i].addr, x) then 0xFF else tr[i].flash.bytes[x]
  {
    assert Link(c, tr, es, i);
    PageErased(c, tr[i], es[i], x);
  }

  lemma WrittenAt(c: Config, tr: seq<State>, es: seq<Event>, log: seq<Load>, j: nat, x: nat)
    requires Trace(c, tr, es) && j < |es| && ChangesFlash(c, tr[j], es[j]) && tr[j].spm.command == PAGE_WRITE
    requires BufferHolds(c, tr[j].spm, log) && x < c.flashSize
    ensures WellFormed(c, tr[j]) && WellFormed(c, tr[j + 1])
    ensures tr[j + 1].flash.bytes[x] ==
            if SamePageAs(c, es[j].addr, x) && Loaded(log, x % c.pageSize) then
              tr[j].flash.bytes[x] & LoadedByte(log, x % c.pageSize)
            else tr[j].flash.bytes[x]
  {
    assert Link(c, tr, es, j);
    PageWritten(c, tr[j], log, es[j], x);
  }

  lemma ErasedTakesAll(b: bv8)
    ensures 0xFF & b == b
  {
  }

  /** Page programming is correct. In any run let a page erase be accepted at `i` and a page write to
      the same page at `j`, with nothing that changes the flash in between. Then each address of the
      page holds the first byte loaded at its offset since the buffer was last cleared, 0xFF where
      none was, and every other address is as it was before the erase. */
  lemma PageProgramming(c: Config, tr: seq<State>, es: seq<Event>, log: seq<Load>, i: nat, j: nat, x: nat)
    requires Trace(c, tr, es) && c.Valid() && BufferHolds(c, tr[0].spm, log) && i < j < |es| && x < c.flashSize
    requires ChangesFlash(c, tr[i], es[i]) && tr[i].spm.command == PAGE_ERASE
    requires forall l | i < l < j :: !ChangesFlash(c, tr[l], es[l])
    requires ChangesFlash(c, tr[j], es[j]) && tr[j].spm.command == PAGE_WRITE
    requires (es[j].addr - es[j].addr % 2) / c.pageSize == (es[i].addr - es[i].addr % 2) / c.pageSize
    ensures WellFormed(c, tr[i]) && WellFormed(c, tr[j + 1])
    ensures tr[j + 1].flash.bytes[x] ==
            if x / c.pageSize == (es[i].addr - es[i].addr % 2) / c.pageSize then
              LoadedByte(LogAt(c, tr, es, log, j), x % c.pageSize)
            else tr[i].flash.bytes[x]
  {
    var loads := LogAt(c, tr, es, log, j);
    BufferIsLog(c, tr, es, log, j);
    FlashUntouched(c, tr, es, i + 1, j);
    ErasedAt(c, tr, es, i, x);
    WrittenAt(c, tr, es, loads, j, x);
    ErasedTakesAll(LoadedByte(loads, x % c.pageSize));
  }

  // The command of the window

  /** A write to SPMCR that opens the command window. */
  predicate OpensWindow(s: State, e: Event) {
    e.WriteSpmcr? && e.enable && s.cpu == Running && s.spm.phase == Idle && s.ee.phase != Write
  }

  lemma WindowStep(c: Config, s: State, e: Event)
    requires WellFormed(c, s)
    ensures OpensWindow(s, e) ==> Step(c, s, e).spm.phase == Pending && Step(c, s, e).spm.command == e.cmd
    ensures Step(c, s, e).spm.phase == Pending && !OpensWindow(s, e) ==>
              s.spm.phase == Pending && Step(c, s, e).spm.command == s.spm.command
  {
    match e
    case SpmInstr(a, lo, hi, cw, rww) => if s.cpu == Running { SpmEndsWindow(c, s, a, lo, hi, cw, rww); }
    case WriteEecr(v) => if s.cpu == Running { assert Step(c, s, e).spm == s.spm; }
    case _ =>
  }

  lemma SpmEndsWindow(c: Config, s: State, a: nat, lo: bv8, hi: bv8, cw: bool, rww: bool)
    requires WellFormed(c, s)
    ensures var t := SpmExecuted(c, s, a, lo, hi, cw, rww);
            && t.spm.command == s.spm.command
            && (t.spm.phase == Pending ==> s.spm.phase == Pending)
  {
  }

  lemma WindowAt(c: Config, tr: seq<State>, es: seq<Event>, i: nat)
    requires Trace(c, tr, es) && i < |es|
    ensures OpensWindow(tr[i], es[i]) ==> tr[i + 1].spm.phase == Pending && tr[i + 1].spm.command == es[i].cmd
    ensures tr[i + 1].spm.phase == Pending && !OpensWindow(tr[i], es[i]) ==>
              tr[i].spm.phase == Pending && tr[i + 1].spm.command == tr[i].spm.command
  {
    assert Link(c, tr, es, i);
    WindowStep(c, tr[i], es[i]);
  }

  /** The command that an SPM instruction finds in the window is that of the write that opened it. */
  lemma {:induction false} WindowHasCommand(c: Config, tr: seq<State>, es: seq<Event>, j: nat) returns (k: nat)
    requires Trace(c, tr, es) && j <= |es| && tr[0].spm.phase != Pending && tr[j].spm.phase == Pending
    ensures k < j && OpensWindow(tr[k], es[k]) && tr[j].spm.command == es[k].cmd
    ensures forall l | k < l <= j :: tr[l].spm.phase == Pending
    decreases j
  {
    WindowAt(c, tr, es, j - 1);
    if OpensWindow(tr[j - 1], es[j - 1]) { k := j - 1; } else { k := WindowHasCommand(c, tr, es, j - 1); }
  }

  // ---------- What SPMCR tells, and who is blocked ----------

  /** SPMEN reads one, and the command bits tell the command, exactly from the write that opens the
      window to the end of the operation; and the busy bit of the section exactly while LPM goes
      through the controller. */
  predicate SpmcrTells(s: State) {
    && (s.spm.reg.enable <==> s.spm.phase != Idle)
    && s.spm.reg.cmd == (if s.spm.phase != Idle then s.spm.command else 0)
    && (s.spm.reg.rwwBusy <==> !s.directLpm)
  }

  lemma SpmTells(c: Config, s: State, a: nat, lo: bv8, hi: bv8, cw: bool, rww: bool)
    requires WellFormed(c, s) && Interlocked(s) && SpmcrTells(s)
    ensures SpmcrTells(SpmExecuted(c, s, a, lo, hi, cw, rww))
  {
    if s.spm.phase == Pending && WordAddress(a) < c.flashSize {
      var d := CommandDone(c, s, a, lo, hi);
      assert d.spm.reg == s.spm.reg && d.spm.phase == s.spm.phase && d.directLpm == s.directLpm;
    }
  }

  lemma StepTellsSpmcr(c: Config, s: State, e: Event)
    requires WellFormed(c, s) && Interlocked(s) && SpmcrTells(s)
    ensures SpmcrTells(Step(c, s, e))
  {
    match e
    case SpmInstr(a, lo, hi, cw, rww) => if s.cpu == Running { SpmTells(c, s, a, lo, hi, cw, rww); }
    case WriteEecr(v) => if s.cpu == Running { assert Step(c, s, e).spm == s.spm; }
    case _ =>
  }

  lemma {:induction false} SpmcrAlwaysTells(c: Config, s: State, es: seq<Event>)
    requires WellFormed(c, s) && Interlocked(s) && SpmcrTells(s)
    ensures SpmcrTells(Run(c, s, es))
    decreases |es|
  {
    if es != [] {
      StepTellsSpmcr(c, s, es[0]);
      StepKeepsInterlock(c, s, es[0]);
      SpmcrAlwaysTells(c, Step(c, s, es[0]), es[1..]);
    }
  }

  /** A page operation in the read-while-write section leaves the CPU running and takes LPM to the
      controller; any other halts the CPU. Its timer is scheduled if its delay is positive. */
  lemma PageOperationBlocks(c: Config, s: State, e: Event)
    requires WellFormed(c, s) && ChangesFlash(c, s, e)
    ensures var t := Step(c, s, e);
            && t.spm.phase == Write
            && t.spm.timer == (if s.spm.command == PAGE_ERASE then c.spmEraseDelay > 0 else c.spmWriteDelay > 0)
            && (if e.rww then t.cpu == Running && !t.directLpm && t.halt == s.halt
                else t.cpu == Halted && t.halt && t.directLpm == s.directLpm)
  {
  }

  /** During it an LPM in the read-while-write section halts the CPU until the end, which the timer
      brings; an LPM elsewhere is served. */
  lemma LpmWaits(c: Config, s: State, rww: bool)
    requires WellFormed(c, s) && s.cpu == Running && s.spm.phase == Write && !s.directLpm
    ensures var t := Step(c, s, LpmInstr(rww));
            && (if rww then t == s.(cpu := Halted, halt := true) else t == s)
            && (s.spm.timer ==> Step(c, t, SpmTimer).cpu == Running && Step(c, t, SpmTimer).directLpm)
  {
  }

  /** An SPM instruction crashes the device if and only if it comes outside the window, or writes
      where code of its section may not, unless that is to be ignored; or its address is not in the
      flash. What is not accepted and does not crash changes nothing. */
  lemma CrashIff(c: Config, s: State, e: Event)
    requires WellFormed(c, s) && e.SpmInstr? && s.cpu == Running
    ensures var t := Step(c, s, e);
            var outside := e.addr - e.addr % 2 >= c.flashSize;
            && (t.cpu == Crashed <==>
                  if s.spm.phase != Pending then !c.ignoreBadLpm else outside || (!e.canWrite && !c.ignoreBadLpm))
            && (t.cpu == Crashed ==> t == s.(cpu := Crashed))
            && (t.cpu != Crashed && !SpmReaches(c, s, e.addr, e.canWrite) ==> t == s)
  {
  }

  /** The signature command leaves everything as it is, the window open. */
  lemma SignatureIsIgnored(c: Config, s: State, e: Event)
    requires WellFormed(c, s) && e.SpmInstr? && SpmReaches(c, s, e.addr, e.canWrite) && s.spm.command == SIG_READ
    ensures Step(c, s, e) == s
  {
  }

  /** A reset leaves the flash side as at power-on but for its contents: no window and no operation, no
      interrupt, the buffer empty, LPM direct, and the CPU running unless it had crashed. */
  lemma ResetClears(c: Config, s: State, i: nat)
    requires WellFormed(c, s) && i < c.pageSize
    ensures var t := Step(c, s, Reset);
            && t.spm.phase == Idle && !t.spm.timer && !t.spm.irq && t.spm.reg == SpmControl(0, false, false, false)
            && t.spm.buffer[i] == 0xFF && !t.spm.bufset[i]
            && !t.halt && t.directLpm && t.cpu == (if s.cpu == Crashed then Crashed else Running)
            && t.flash == s.flash && t.eeprom == s.eeprom
            && (s.ee.phase != Write ==> t.ee.phase == Idle && !t.ee.timer && t.ee.reg == CLEAR)
            && !t.ee.irq && t.ee.eear == 0 && t.ee.eedr == 0
  {
  }

  /** The result of the request tells: minus one for a crash, one for an accepted command, zero
      otherwise. */
  lemma ResultTells(c: Config, s: State, e: Event)
    requires WellFormed(c, s) && e.SpmInstr? && s.cpu == Running
    ensures var r := SpmResult(c, s, e.addr, e.canWrite);
            && (r == -1 <==> Step(c, s, e).cpu == Crashed)
            && (r == 1 <==> SpmReaches(c, s, e.addr, e.canWrite) && s.spm.command != SIG_READ)
            && (r == -1 || r == 0 || r == 1)
  {
    CrashIff(c, s, e);
  }

  // The ready interrupts

  /** SPMIE is written with the flash side idle after the write, or set when a page operation ends. */
  predicate RaisesSpmReady(s: State, e: Event) {
    || (e.WriteSpmcr? && s.cpu == Running && e.inten && s.spm.phase == Idle && (!e.enable || s.ee.phase == Write))
    || (e == SpmTimer && s.spm.timer && (s.spm.phase == Write || s.spm.phase == Read) && s.spm.reg.inten)
  }

  /** It is acknowledged while an operation runs or SPMIE is clear. */
  predicate LowersSpmReady(s: State, e: Event) {
    e == AckSpmReady && s.cpu == Running && (s.spm.phase == Write || s.spm.phase == Read || !s.spm.reg.inten)
  }

  /** The flash ready interrupt, event by event. */
  lemma SpmReadyIff(c: Config, s: State, e: Event)
    requires WellFormed(c, s)
    ensures Step(c, s, e).spm.irq <==>
            e != Reset && (RaisesSpmReady(s, e) || (s.spm.irq && !LowersSpmReady(s, e)))
    ensures Step(c, s, e).spm.reg.inten <==>
            if e == Reset then false
            else if e.WriteSpmcr? && s.cpu == Running && s.spm.phase == Idle && s.ee.phase != Write then e.inten
            else s.spm.reg.inten
  {
    match e
    case SpmInstr(a, lo, hi, cw, rww) => if s.cpu == Running { SpmKeepsIrq(c, s, a, lo, hi, cw, rww); }
    case WriteEecr(v) => if s.cpu == Running { assert Step(c, s, e).spm == s.spm; }
    case _ =>
  }

  lemma SpmKeepsIrq(c: Config, s: State, a: nat, lo: bv8, hi: bv8, cw: bool, rww: bool)
    requires WellFormed(c, s)
    ensures var t := SpmExecuted(c, s, a, lo, hi, cw, rww); t.spm.irq == s.spm.irq && t.spm.reg.inten == s.spm.reg.inten
  {
    if s.spm.phase == Pending && WordAddress(a) < c.flashSize {
      var d := CommandDone(c, s, a, lo, hi);
      assert d.spm.irq == s.spm.irq && d.spm.reg == s.spm.reg;
    }
  }

  // ---------- EEPROM ----------

  /** A programming command changes the addressed byte only, to the value its mode says... */
  lemma EepromCommandInRange(m: Mem, mode: nat, addr: nat, data: bv8, i: nat)
    requires Sized(m) && addr < |m.bytes| && i < |m.bytes|
    ensures EepromAfter(m, mode, addr, data).bytes[i] ==
            if i != addr || mode >= READ_MODE then m.bytes[i]
            else if mode == ERASE_WRITE then data
            else if mode == ERASE_ONLY then 0xFF
            else m.bytes[i] & data
  {
  }

  /** ... but an erasing command with an address past the end erases the last byte. Exactly the
      commands that write without erasing, or whose address exists, spare it for every content. */
  lemma EepromCommandOutOfRange(size: nat, mode: nat, addr: nat, data: bv8)
    requires size > 0 && mode < READ_MODE
    ensures (forall m | Sized(m) && |m.bytes| == size ::
               forall i | 0 <= i < size && i != addr :: EepromAfter(m, mode, addr, data).bytes[i] == m.bytes[i])
            <==> addr < size || mode == WRITE_ONLY
  {
    if addr >= size && mode != WRITE_ONLY {
      var m := Mem(seq(size, _ => 0), seq(size, _ => true));
      assert EepromAfter(m, mode, addr, data).bytes[size - 1] == 0xFF;
    }
  }

  /** The event starts an EEPROM programming operation. */
  predicate StartsEepromWrite(s: State, e: Event) {
    s.cpu == Running && e.WriteEecr? && Starts(s.ee, e.v, s.spm.phase == Idle)
  }

  predicate UnlocksEeprom(s: State, e: Event) {
    s.cpu == Running && e.WriteEecr? && Unlocks(s.ee, e.v)
  }

  predicate WritesEecr(s: State, e: Event) { s.cpu == Running && e.WriteEecr? }

  // What EEMPE and EEPE say

  /** EEMPE reads one only inside the window, with the timer of the window running, and EEPE only
      during a programming operation. */
  predicate BitsTell(e: Ee) {
    (e.reg.eempe ==> e.phase == Pending && e.timer) && (e.reg.eepe ==> e.phase == Write)
  }

  lemma EecrTells(c: Config, e: Ee, v: Eecr, flashIdle: bool, m: Mem)
    requires BitsTell(e)
    ensures BitsTell(EecrOutcome(c, e, v, flashIdle, m))
  {
  }

  lemma StepTells(c: Config, s: State, e: Event)
    requires WellFormed(c, s) && BitsTell(s.ee)
    ensures BitsTell(Step(c, s, e).ee)
  {
    if WritesEecr(s, e) { EecrTells(c, s.ee, e.v, s.spm.phase == Idle, s.eeprom); }
  }

  lemma {:induction false} BitsAlwaysTell(c: Config, s: State, es: seq<Event>)
    requires WellFormed(c, s) && BitsTell(s.ee)
    ensures BitsTell(Run(c, s, es).ee)
    decreases |es|
  {
    if es != [] {
      StepTells(c, s, es[0]);
      BitsAlwaysTell(c, Step(c, s, es[0]), es[1..]);
    }
  }

  /** In every reachable state with the CPU running and the EEPROM idle, a write to EECR opens the
      window if and only if it has EEMPE set and EEPE clear: no earlier write locks it out. */
  lemma UnlockAlwaysWorks(c: Config, s: State, es: seq<Event>, v: Eecr)
    requires WellFormed(c, s) && BitsTell(s.ee)
    requires var t := Run(c, s, es); t.cpu == Running && t.ee.phase == Idle
    ensures Step(c, Run(c, s, es), WriteEecr(v)).ee.phase == Pending <==> v.reg.eempe && !v.reg.eepe
  {
    BitsAlwaysTell(c, s, es);
  }

  lemma EecrPending(c: Config, e: Ee, v: Eecr, flashIdle: bool, m: Mem)
    ensures var t := EecrOutcome(c, e, v, flashIdle, m);
            && (t.phase == Pending <==> Unlocks(e, v) || (e.phase == Pending && !Starts(e, v, flashIdle)))
            && (t.reg.eempe <==> Unlocks(e, v) && !v.eere)
  {
  }

  lemma PendingStep(c: Config, s: State, e: Event)
    requires WellFormed(c, s) && Step(c, s, e).ee.phase == Pending
    ensures if s.ee.phase == Pending then !StartsEepromWrite(s, e) && !UnlocksEeprom(s, e) else UnlocksEeprom(s, e)
    ensures Step(c, s, e).ee.reg.eempe <==>
            if UnlocksEeprom(s, e) then !e.v.eere else s.ee.reg.eempe && !WritesEecr(s, e)
  {
    if WritesEecr(s, e) { EecrPending(c, s.ee, e.v, s.spm.phase == Idle, s.eeprom); }
  }

  lemma EecrTimer(c: Config, e: Ee, v: Eecr, flashIdle: bool, m: Mem)
    requires EecrOutcome(c, e, v, flashIdle, m).phase == Pending
    ensures EecrOutcome(c, e, v, flashIdle, m).timer <==> (Unlocks(e, v) || e.timer) && !v.eere
  {
  }

  /** A write to EECR with EERE set. */
  predicate ReadsEeprom(s: State, e: Event) { WritesEecr(s, e) && e.v.eere }

  lemma PendingTimer(c: Config, s: State, e: Event)
    requires WellFormed(c, s) && Step(c, s, e).ee.phase == Pending
    ensures Step(c, s, e).ee.timer <==> (UnlocksEeprom(s, e) || s.ee.timer) && !ReadsEeprom(s, e)
  {
    if WritesEecr(s, e) { EecrTimer(c, s.ee, e.v, s.spm.phase == Idle, s.eeprom); }
  }

  lemma PendingTimerAt(c: Config, tr: seq<State>, es: seq<Event>, i: nat)
    requires Trace(c, tr, es) && i < |es| && tr[i + 1].ee.phase == Pending
    ensures tr[i + 1].ee.timer <==> (UnlocksEeprom(tr[i], es[i]) || tr[i].ee.timer) && !ReadsEeprom(tr[i], es[i])
  {
    assert Link(c, tr, es, i);
    PendingTimer(c, tr[i], es[i]);
  }

  predicate NotRead(tr: seq<State>, es: seq<Event>, i: nat, j: nat)
    requires j <= |es| < |tr|
  {
    forall l | i <= l < j :: !ReadsEeprom(tr[l], es[l])
  }

  lemma PendingAt(c: Config, tr: seq<State>, es: seq<Event>, i: nat)
    requires Trace(c, tr, es) && i < |es| && tr[i + 1].ee.phase == Pending
    ensures var s, e := tr[i], es[i];
            && (if s.ee.phase == Pending then !StartsEepromWrite(s, e) && !UnlocksEeprom(s, e) else UnlocksEeprom(s, e))
            && (tr[i + 1].ee.reg.eempe <==>
                if UnlocksEeprom(s, e) then !e.v.eere else s.ee.reg.eempe && !WritesEecr(s, e))
  {
    assert Link(c, tr, es, i);
    PendingStep(c, tr[i], es[i]);
  }

  predicate NoStrobe(tr: seq<State>, es: seq<Event>, i: nat, j: nat)
    requires j <= |es| < |tr|
  {
    forall l | i < l < j :: !StartsEepromWrite(tr[l], es[l])
  }

  predicate EecrUntouched(tr: seq<State>, es: seq<Event>, i: nat, j: nat)
    requires j <= |es| < |tr|
  {
    forall l | i < l < j :: !WritesEecr(tr[l], es[l])
  }

  /** An open window was opened by an unlock, with no programming operation since; EEMPE reads one in
      it if and only if EECR has not been written, nor read through EERE, since; and its timer, which
      closes it, is scheduled if and only if the EEPROM has not been read, at the unlock or since. */
  lemma {:induction false} WindowWasUnlocked(c: Config, tr: seq<State>, es: seq<Event>, i: nat, j: nat) returns (k: nat)
    requires Trace(c, tr, es) && i <= j <= |es| && tr[i].ee.phase != Pending && tr[j].ee.phase == Pending
    ensures i <= k < j && UnlocksEeprom(tr[k], es[k]) && NoStrobe(tr, es, k, j)
    ensures tr[j].ee.reg.eempe <==> !es[k].v.eere && EecrUntouched(tr, es, k, j)
    ensures tr[j].ee.timer <==> NotRead(tr, es, k, j)
    decreases j
  {
    PendingAt(c, tr, es, j - 1);
    PendingTimerAt(c, tr, es, j - 1);
    if tr[j - 1].ee.phase == Pending {
      k := WindowWasUnlocked(c, tr, es, i, j - 1);
    } else {
      k := j - 1;
    }
  }

  /** One unlock, one programming operation: in any run, resets and reads included, the window is
      opened between two of them, and before the first. */
  lemma EachWriteIsUnlocked(c: Config, tr: seq<State>, es: seq<Event>, i: nat, j: nat) returns (k: nat)
    requires Trace(c, tr, es) && i <= j < |es| && StartsEepromWrite(tr[j], es[j])
    requires if i == 0 then tr[0].ee.phase != Pending else StartsEepromWrite(tr[i - 1], es[i - 1])
    ensures i <= k < j && UnlocksEeprom(tr[k], es[k]) && NoStrobe(tr, es, k, j)
  {
    if i > 0 {
      assert Link(c, tr, es, i - 1);
      StrobeLeaves(c, tr[i - 1], es[i - 1]);
    }
    k := WindowWasUnlocked(c, tr, es, i, j);
  }

  /** The strobe that starts a programming operation leaves EEPE set, and EEMPE and EEPM zero. */
  lemma StrobeLeaves(c: Config, s: State, e: Event)
    requires WellFormed(c, s) && StartsEepromWrite(s, e)
    ensures var t := Step(c, s, e).ee; t.phase == Write && t.reg == e.v.reg.(eempe := false, eepm := 0)
  {
  }

  // What EEPE says during a programming operation

  /** The events that set EEPE: the strobe, and the reset that puts it back. */
  predicate SetsBusy(s: State, e: Event) { StartsEepromWrite(s, e) || (e == Reset && s.ee.phase == Write) }

  lemma EecrBusy(c: Config, e: Ee, v: Eecr, flashIdle: bool, m: Mem)
    ensures var t := EecrOutcome(c, e, v, flashIdle, m);
            && (t.phase == Write <==> Starts(e, v, flashIdle) || e.phase == Write)
            && (t.reg.eepe <==> Starts(e, v, flashIdle))
  {
  }

  lemma BusyStep(c: Config, s: State, e: Event)
    requires WellFormed(c, s) && Step(c, s, e).ee.phase == Write
    ensures SetsBusy(s, e) || s.ee.phase == Write
    ensures Step(c, s, e).ee.reg.eepe <==> SetsBusy(s, e) || (s.ee.reg.eepe && !WritesEecr(s, e))
  {
    if WritesEecr(s, e) { EecrBusy(c, s.ee, e.v, s.spm.phase == Idle, s.eeprom); }
  }

  lemma BusyAt(c: Config, tr: seq<State>, es: seq<Event>, i: nat)
    requires Trace(c, tr, es) && i < |es| && tr[i + 1].ee.phase == Write
    ensures SetsBusy(tr[i], es[i]) || tr[i].ee.phase == Write
    ensures tr[i + 1].ee.reg.eepe <==> SetsBusy(tr[i], es[i]) || (tr[i].ee.reg.eepe && !WritesEecr(tr[i], es[i]))
  {
    assert Link(c, tr, es, i);
    BusyStep(c, tr[i], es[i]);
  }

  predicate BusyKept(tr: seq<State>, es: seq<Event>, i: nat, j: nat)
    requires j <= |es| < |tr|
  {
    forall l | i < l < j :: !SetsBusy(tr[l], es[l])
  }

  /** During a programming operation EEPE reads one if and only if EECR has not been written since
      the operation was started, or put back by the last reset. */
  lemma {:induction false} BusyBitReads(c: Config, tr: seq<State>, es: seq<Event>, j: nat) returns (i: nat)
    requires Trace(c, tr, es) && j <= |es| && tr[0].ee.phase != Write && tr[j].ee.phase == Write
    ensures i < j && SetsBusy(tr[i], es[i]) && BusyKept(tr, es, i, j)
    ensures tr[j].ee.reg.eepe <==> EecrUntouched(tr, es, i, j)
    decreases j
  {
    BusyAt(c, tr, es, j - 1);
    if SetsBusy(tr[j - 1], es[j - 1]) {
      i := j - 1;
    } else {
      i := BusyBitReads(c, tr, es, j - 1);
    }
  }

  /** What such a write leaves: the operation goes on, EEPE reads zero and EEPM the low bits of what
      the register was, and if it sets EERIE the ready interrupt is raised too early. */
  lemma WriteWhileBusy(c: Config, s: State, v: Eecr)
    requires WellFormed(c, s) && s.cpu == Running && s.ee.phase == Write
    ensures var t := Step(c, s, WriteEecr(v));
            && t.ee.phase == Write && t.ee.timer == s.ee.timer && t.eeprom == s.eeprom
            && t.ee.reg == Control(if s.ee.reg.eepe then 2 else 0, v.reg.eerie, false, false)
            && (t.ee.irq <==> s.ee.irq || v.reg.eerie)
  {
  }

  /** A reset leaves an EEPROM write in progress, with its control bits, and its timer ends it. */
  lemma ResetSparesEepromWrite(c: Config, s: State)
    requires WellFormed(c, s) && s.ee.phase == Write && s.ee.timer
    ensures var t := Step(c, s, Reset);
            && t.ee.phase == Write && t.ee.reg == CLEAR.(eepe := true, eepm := s.ee.progMode) && t.eeprom == s.eeprom
            && Step(c, t, EeTimer).ee.phase == Idle && Step(c, t, EeTimer).ee.reg == CLEAR
  {
  }

  /** An EEPROM read inside the write window cancels its timer but not the window: however long
      one waits, the next EEPE strobe still starts a write. */
  lemma {:induction false} ReadLeavesWindowOpen(c: Config, s: State, es: seq<Event>, r: Control, v: Eecr)
    requires WellFormed(c, s) && s.cpu == Running && s.ee.phase == Pending && s.spm.phase == Idle && !s.spm.timer
    requires !s.ee.reg.eepe && !r.eepe && v.reg.eepe
    requires forall i | 0 <= i < |es| :: es[i] == EeTimer || es[i] == SpmTimer
    ensures var t := Run(c, Step(c, s, WriteEecr(Eecr(r, true))), es);
            !t.ee.reg.eempe && Step(c, t, WriteEecr(v)).ee.phase == Write
  {
    TimersDoNothing(c, Step(c, s, WriteEecr(Eecr(r, true))), es);
  }

  lemma {:induction false} TimersDoNothing(c: Config, s: State, es: seq<Event>)
    requires WellFormed(c, s) && !s.ee.timer && !s.spm.timer
    requires forall i | 0 <= i < |es| :: es[i] == EeTimer || es[i] == SpmTimer
    ensures Run(c, s, es) == s
    decreases |es|
  {
    if es != [] {
      TimersDoNothing(c, s, es[1..]);
    }
  }

  // ---------- What is written is read ----------

  /** A write to EECR that reads the EEPROM: through EERE, with no programming operation, or as the
      command of a strobe in the reading mode. */
  predicate ReadsByte(s: State, e: Event) {
    WritesEecr(s, e) &&
    if StartsEepromWrite(s, e) then e.v.reg.eepm == READ_MODE
    else e.v.eere && (s.ee.phase == Idle || s.ee.phase == Pending)
  }

  lemma EecrReads(c: Config, e: Ee, v: Eecr, flashIdle: bool, m: Mem)
    ensures var t := EecrOutcome(c, e, v, flashIdle, m);
            && t.eear == e.eear
            && t.eedr == (if (if Starts(e, v, flashIdle) then v.reg.eepm == READ_MODE
                              else v.eere && (e.phase == Idle || e.phase == Pending))
                          then (if e.eear < |m.bytes| then m.bytes[e.eear] else 0xFF)
                          else e.eedr)
  {
  }

  /** EEAR and EEDR hold what was last written to them, zero after a reset; and a read puts the byte at
      EEAR in EEDR, 0xFF if there is none. */
  lemma DataRegisters(c: Config, s: State, e: Event)
    requires WellFormed(c, s)
    ensures var t := Step(c, s, e).ee;
            && t.eear == (if e == Reset then 0 else if e.WriteEear? && s.cpu == Running then e.addr else s.ee.eear)
            && t.eedr == (if e == Reset then 0
                          else if e.WriteEedr? && s.cpu == Running then e.data
                          else if ReadsByte(s, e) then
                            (if s.ee.eear < |s.eeprom.bytes| then s.eeprom.bytes[s.ee.eear] else 0xFF)
                          else s.ee.eedr)
  {
    if WritesEecr(s, e) { EecrReads(c, s.ee, e.v, s.spm.phase == Idle, s.eeprom); }
  }

  /** Only a strobe changes the EEPROM, to what its mode makes of the addressed byte. */
  lemma OnlyStrobesChangeEeprom(c: Config, s: State, e: Event)
    requires WellFormed(c, s)
    ensures Step(c, s, e).eeprom ==
            if StartsEepromWrite(s, e) then EepromAfter(s.eeprom, e.v.reg.eepm, s.ee.eear, s.ee.eedr) else s.eeprom
  {
  }

  lemma EepromAt(c: Config, tr: seq<State>, es: seq<Event>, i: nat)
    requires Trace(c, tr, es) && i < |es|
    ensures Sized(tr[i].eeprom) && Sized(tr[i + 1].eeprom)
    ensures tr[i + 1].eeprom ==
            if StartsEepromWrite(tr[i], es[i]) then
              EepromAfter(tr[i].eeprom, es[i].v.reg.eepm, tr[i].ee.eear, tr[i].ee.eedr)
            else tr[i].eeprom
    ensures ReadsByte(tr[i], es[i]) && tr[i].ee.eear < |tr[i].eeprom.bytes| ==>
              tr[i + 1].ee.eedr == tr[i].eeprom.bytes[tr[i].ee.eear]
  {
    assert Link(c, tr, es, i);
    OnlyStrobesChangeEeprom(c, tr[i], es[i]);
    if ReadsByte(tr[i], es[i]) { DataRegisters(c, tr[i], es[i]); }
  }

  lemma {:induction false} EepromStays(c: Config, tr: seq<State>, es: seq<Event>, i: nat, j: nat)
    requires Trace(c, tr, es) && i <= j <= |es|
    requires forall l | i <= l < j :: !StartsEepromWrite(tr[l], es[l])
    ensures tr[j].eeprom == tr[i].eeprom
    decreases j
  {
    if i < j {
      EepromStays(c, tr, es, i, j - 1);
      EepromAt(c, tr, es, j - 1);
    }
  }

  /** The EEPROM round trip. In every run, resets included, a byte that an erase-and-write strobe has
      programmed at an address is what a read of that address returns, as long as no strobe comes
      between. */
  lemma WrittenIsRead(c: Config, tr: seq<State>, es: seq<Event>, i: nat, j: nat)
    requires Trace(c, tr, es) && i < j < |es|
    requires StartsEepromWrite(tr[i], es[i]) && es[i].v.reg.eepm == ERASE_WRITE
    requires forall l | i < l < j :: !StartsEepromWrite(tr[l], es[l])
    requires ReadsByte(tr[j], es[j]) && tr[j].ee.eear == tr[i].ee.eear < |tr[i].eeprom.bytes|
    ensures tr[j + 1].ee.eedr == tr[i].ee.eedr
  {
    EepromAt(c, tr, es, i);
    EepromCommandInRange(tr[i].eeprom, ERASE_WRITE, tr[i].ee.eear, tr[i].ee.eedr, tr[i].ee.eear);
    EepromStays(c, tr, es, i + 1, j);
    EepromAt(c, tr, es, j);
  }

  // The operation that a strobe starts

  /** The timer of the operation is scheduled if its mode has a delay, and the mode is kept for a reset
      to put back. */
  lemma StrobeSchedules(c: Config, s: State, e: Event)
    requires WellFormed(c, s) && StartsEepromWrite(s, e)
    ensures var t, mode := Step(c, s, e).ee, e.v.reg.eepm;
            && (t.timer <==> (mode == ERASE_WRITE && c.eeEraseWriteDelay > 0)
                             || (mode == ERASE_ONLY && c.eeEraseDelay > 0)
                             || (mode == WRITE_ONLY && c.eeWriteDelay > 0))
            && (mode < READ_MODE ==> t.progMode == mode) && (mode == READ_MODE ==> t.progMode == 0)
  {
  }

  lemma BusyMode(c: Config, s: State, e: Event)
    requires WellFormed(c, s) && s.ee.phase == Write && !StartsEepromWrite(s, e)
    ensures Step(c, s, e).ee.phase == Write ==> Step(c, s, e).ee.progMode == s.ee.progMode
    ensures e == Reset ==> Step(c, s, e).ee.reg == CLEAR.(eepm := s.ee.progMode, eepe := true)
  {
  }

  lemma BusyModeAt(c: Config, tr: seq<State>, es: seq<Event>, i: nat)
    requires Trace(c, tr, es) && i < |es| && tr[i].ee.phase == Write && tr[i + 1].ee.phase == Write
    requires !StartsEepromWrite(tr[i], es[i])
    ensures tr[i + 1].ee.progMode == tr[i].ee.progMode
    ensures es[i] == Reset ==> tr[i + 1].ee.reg == CLEAR.(eepm := tr[i].ee.progMode, eepe := true)
  {
    assert Link(c, tr, es, i);
    BusyMode(c, tr[i], es[i]);
  }

  lemma {:induction false} ModeStays(c: Config, tr: seq<State>, es: seq<Event>, i: nat, j: nat)
    requires Trace(c, tr, es) && i <= j <= |es|
    requires forall l | i <= l <= j :: tr[l].ee.phase == Write
    requires forall l | i <= l < j :: !StartsEepromWrite(tr[l], es[l])
    ensures tr[j].ee.progMode == tr[i].ee.progMode
    decreases j
  {
    if i < j {
      ModeStays(c, tr, es, i, j - 1);
      BusyModeAt(c, tr, es, j - 1);
    }
  }

  lemma StrobeAt(c: Config, tr: seq<State>, es: seq<Event>, i: nat)
    requires Trace(c, tr, es) && i < |es| && StartsEepromWrite(tr[i], es[i]) && es[i].v.reg.eepm < READ_MODE
    ensures tr[i + 1].ee.phase == Write && tr[i + 1].ee.progMode == es[i].v.reg.eepm
  {
    assert Link(c, tr, es, i);
    StrobeLeaves(c, tr[i], es[i]);
    StrobeSchedules(c, tr[i], es[i]);
  }

  /** A reset during an operation puts EEPE back, and in EEPM the mode that the strobe was given. */
  lemma ResetRestoresMode(c: Config, tr: seq<State>, es: seq<Event>, i: nat, j: nat)
    requires Trace(c, tr, es) && i < j < |es| && es[j] == Reset
    requires StartsEepromWrite(tr[i], es[i]) && es[i].v.reg.eepm < READ_MODE
    requires forall l | i < l <= j + 1 :: tr[l].ee.phase == Write
    requires forall l | i < l < j :: !StartsEepromWrite(tr[l], es[l])
    ensures tr[j + 1].ee.reg == CLEAR.(eepm := es[i].v.reg.eepm, eepe := true)
  {
    StrobeAt(c, tr, es, i);
    ModeStays(c, tr, es, i + 1, j);
    BusyModeAt(c, tr, es, j);
  }

  // The EEPROM ready interrupt

  /** EECR is written with EERIE set and EEPE not accepted, or the timer ends an operation with EERIE
      set. */
  predicate RaisesEeReady(s: State, e: Event) {
    || (WritesEecr(s, e) && e.v.reg.eerie && !StartsEepromWrite(s, e))
    || (e == EeTimer && s.ee.timer && s.ee.phase == Write && s.ee.reg.eerie)
  }

  /** It is acknowledged while an operation runs or EERIE is clear. */
  predicate LowersEeReady(s: State, e: Event) {
    e == AckEeReady && s.cpu == Running && (s.ee.phase == Write || s.ee.phase == Read || !s.ee.reg.eerie)
  }

  lemma WindowKeepsEnable(c: Config, e: Ee, v: Eecr, flashIdle: bool, m: Mem)
    ensures var r := ReadOutcome(WindowOutcome(c, e, v, flashIdle, m), v.eere, m);
            r.irq == e.irq && r.reg.eerie == v.reg.eerie && r.reg.eepe == Starts(e, v, flashIdle)
  {
  }

  lemma EecrRaises(c: Config, e: Ee, v: Eecr, flashIdle: bool, m: Mem)
    ensures var t := EecrOutcome(c, e, v, flashIdle, m);
            (t.irq <==> e.irq || (v.reg.eerie && !Starts(e, v, flashIdle))) && t.reg.eerie == v.reg.eerie
  {
    WindowKeepsEnable(c, e, v, flashIdle, m);
  }

  /** The EEPROM ready interrupt and its enable bit, event by event. */
  lemma EeReadyIff(c: Config, s: State, e: Event)
    requires WellFormed(c, s)
    ensures Step(c, s, e).ee.irq <==>
            e != Reset && (RaisesEeReady(s, e) || (s.ee.irq && !LowersEeReady(s, e)))
    ensures Step(c, s, e).ee.reg.eerie <==>
            if e == Reset then false else if WritesEecr(s, e) then e.v.reg.eerie else s.ee.reg.eerie
  {
    if WritesEecr(s, e) { EecrRaises(c, s.ee, e.v, s.spm.phase == Idle, s.eeprom); }
  }

  // ---------- The controller ----------

  class Controller {
    const config: Config
    const buffer: array<bv8>
    const bufset: array<bool>
    const flash: NonVolatileMemory
    const eeprom: NonVolatileMemory
    var spmState: Phase
    var spmCommand: nat
    var spmTimer: bool
    var halt: bool
    var eeState: Phase
    var eeProgMode: nat
    var eeTimer: bool
    // SPMCR
    var spmcr: SpmControl
    // EECR, EEAR, EEDR
    var eecr: Control
    var eear: nat
    var eedr: bv8
    // the core and the interrupt controller, as seen from here
    var cpu: Cpu
    var directLpm: bool
    var spmIrq: bool
    var eeIrq: bool

    /** The arrays are distinct and have the configured sizes; no method can change that. */
    ghost predicate Valid() {
      && config.Valid() && buffer.Length == bufset.Length == config.pageSize && flash.memory.Length == config.flashSize
      && flash.Valid() && eeprom.Valid()
      && buffer != flash.memory && buffer != eeprom.memory && flash.memory != eeprom.memory
      && bufset != flash.tag && bufset != eeprom.tag && flash.tag != eeprom.tag
      && buffer as object != bufset && buffer as object != flash.tag && buffer as object != eeprom.tag
      && bufset as object != flash.memory && bufset as object != eeprom.memory
      && flash.memory as object != eeprom.tag && flash.tag as object != eeprom.memory
    }

    ghost function SpmView(): Spm
      reads this, buffer, bufset
    {
      Spm(buffer[..], bufset[..], spmState, spmCommand, spmTimer, spmcr, spmIrq)
    }

    ghost function EeView(): Ee
      reads this
    {
      Ee(eeState, eeProgMode, eeTimer, eecr, eear, eedr, eeIrq)
    }

    ghost function View(): State
      reads this, buffer, bufset, flash.memory, flash.tag, eeprom.memory, eeprom.tag
    {
      State(SpmView(), EeView(), flash.View(), eeprom.View(), halt, cpu, directLpm)
    }

    constructor (config: Config, eepromSize: nat)
      requires config.Valid()
      ensures Valid() && this.config == config && View() == Initial(config, flash.View(), eeprom.View())
      ensures |View().eeprom.bytes| == eepromSize
    {
      this.config := config;
      buffer := new bv8[config.pageSize](_ => 0xFF);
      bufset := new bool[config.pageSize](_ => false);
      var f := new NonVolatileMemory(config.flashSize);
      var e := new NonVolatileMemory(eepromSize);
      flash, eeprom := f, e;
      spmState, spmCommand, spmTimer, halt := Idle, 0, false, false;
      eeState, eeProgMode, eeTimer := Idle, 0, false;
      spmcr := SPM_CLEAR;
      eecr, eear, eedr := CLEAR, 0, 0;
      cpu, directLpm, spmIrq, eeIrq := Running, true, false, false;
      new;
      assert buffer[..] == seq(config.pageSize, _ => 0xFF);
      assert bufset[..] == seq(config.pageSize, _ => false);
    }

    method ClearSpmBuffer()
      requires Valid()
      modifies buffer, bufset
      ensures View() == old(View()).(spm := ClearedBuffer(config, old(SpmView())))
    {
      for i := 0 to config.pageSize
        invariant forall k | 0 <= k < i :: buffer[k] == 0xFF && !bufset[k]
      {
        buffer[i], bufset[i] := 0xFF, false;
      }
      assert buffer[..] == seq(config.pageSize, _ => 0xFF);
      assert bufset[..] == seq(config.pageSize, _ => false);
    }

    method WriteSpmcrReg(cmd: nat, enable: bool, inten: bool)
      requires Valid() && cpu == Running
      modifies `spmcr, `spmState, `spmCommand, `spmTimer, `spmIrq
      ensures View() == SpmcrWritten(old(View()), cmd, enable, inten)
    {
      WriteSpmcrBits(cmd, enable, inten);
    }

    method WriteSpmcrBits(cmd: nat, enable: bool, inten: bool)
      modifies `spmcr, `spmState, `spmCommand, `spmTimer, `spmIrq
      ensures SpmView() == SpmcrOutcome(old(SpmView()), eeState == Write, cmd, enable, inten)
    {
      var was := spmcr;
      spmcr := SpmControl(cmd, enable, inten, was.rwwBusy);
      if spmState == Idle && eeState != Write {
        if enable {
          spmState, spmCommand, spmTimer := Pending, cmd, true;
        } else {
          spmcr := spmcr.(cmd := 0);
        }
      } else {
        spmcr := was;
      }
      if inten && spmState == Idle {
        spmIrq := true;
      }
    }

    method LoadWord(off: nat, lo: bv8, hi: bv8)
      requires Valid() && off + 1 < config.pageSize
      modifies buffer, bufset
      ensures View() == old(View()).(spm := WordLoaded(old(SpmView()), off, lo, hi))
    {
      if !bufset[off] {
        buffer[off] := lo;
        buffer[off + 1] := hi;
        bufset[off] := true;
        bufset[off + 1] := true;
        assert buffer[..] == old(buffer[..])[off := lo][off + 1 := hi];
        assert bufset[..] == old(bufset[..])[off := true][off + 1 := true];
      }
    }

    /** The part of an SPM instruction that touches the buffer and the flash. */
    method PerformCommand(addr: nat, lo: bv8, hi: bv8)
      requires Valid() && WordAddress(addr) < config.flashSize
      modifies buffer, bufset, flash.memory, flash.tag
      ensures View() == CommandDone(config, old(View()), addr, lo, hi)
    {
      PageOffsetFits(config, addr);
      var spmAddr := addr - addr % 2;
      var pageOffset := spmAddr % config.pageSize;
      RemainderIsMod(spmAddr, config.pageSize);
      if spmCommand == BUFFER_LOAD {
        LoadWord(pageOffset, lo, hi);
      } else if spmCommand == PAGE_ERASE {
        flash.Erase(spmAddr - pageOffset, config.pageSize);
      } else if spmCommand == PAGE_WRITE {
        flash.SpmWriteSelected(buffer[..], bufset[..], spmAddr - pageOffset);
        ClearSpmBuffer();
      }
    }

    /** The part of an SPM instruction that moves the state machine on. */
    method StartCommand(rww: bool)
      requires Valid()
      modifies `spmTimer, `spmState, `directLpm, `spmcr, `cpu, `halt
      ensures View() == CommandStarted(config, old(View()), rww)
    {
      var delay := 0;
      if spmCommand == PAGE_ERASE {
        delay := config.spmEraseDelay;
      } else if spmCommand == PAGE_WRITE {
        delay := config.spmWriteDelay;
      }
      if spmCommand == PAGE_ERASE || spmCommand == PAGE_WRITE {
        StartPageOperation(delay, rww);
      } else {
        EndCommand(delay);
      }
    }

    method StartPageOperation(delay: nat, rww: bool)
      requires delay == SpmDelay(config, spmCommand)
      modifies `spmTimer, `spmState, `directLpm, `spmcr, `cpu, `halt
      ensures View() == PageOperationStarted(config, old(View()), rww)
    {
      spmTimer := delay > 0;
      spmState := Write;
      BlockCpu(rww);
    }

    method EndCommand(delay: nat)
      requires delay == SpmDelay(config, spmCommand)
      modifies `spmTimer, `spmState, `spmcr
      ensures View() == CommandEnded(config, old(View()))
    {
      spmTimer := delay > 0;
      spmState := Idle;
      spmcr := spmcr.(cmd := 0, enable := false);
    }

    method BlockCpu(rww: bool)
      modifies `directLpm, `spmcr, `cpu, `halt
      ensures View() == FlashBlocked(old(View()), rww)
    {
      if rww {
        directLpm := false;
        spmcr := spmcr.(rwwBusy := true);
      } else {
        cpu := Halted;
        halt := true;
      }
    }

    method ProcessNvmWrite(addr: nat, lo: bv8, hi: bv8, canWrite: bool, rww: bool) returns (result: int)
      requires Valid() && cpu == Running
      modifies this, buffer, bufset, flash.memory, flash.tag
      ensures View() == SpmExecuted(config, old(View()), addr, lo, hi, canWrite, rww)
      ensures result == SpmResult(config, old(View()), addr, canWrite)
    {
      if spmState != Pending {
        if config.ignoreBadLpm {
          return 0;
        }
        cpu := Crashed;
        return -1;
      }
      if addr - addr % 2 >= config.flashSize {
        cpu := Crashed;
        return -1;
      }
      if !canWrite {
        if config.ignoreBadLpm {
          return 0;
        }
        cpu := Crashed;
        return -1;
      }
      if spmCommand == SIG_READ {
        return 0;
      }
      PerformCommand(addr, lo, hi);
      StartCommand(rww);
      result := 1;
    }

    /** An LPM instruction, which the core hands over only when the direct mode is off. */
    method ProcessNvmRead(rww: bool)
      requires Valid() && cpu == Running && !directLpm
      modifies this
      ensures View() == LpmExecuted(old(View()), rww)
    {
      if spmState == Idle {
        cpu := Crashed;
      } else if spmState != Pending {
        if rww {
          cpu := Halted;
          halt := true;
        }
      }
    }

    method SpmTimerNext()
      requires Valid() && spmTimer
      modifies `spmTimer, `spmIrq, `spmState, `spmcr, `directLpm, `cpu, `halt
      ensures View() == SpmTimerFired(old(View()))
    {
      FinishSpm();
      directLpm := true;
      WakeUp();
    }

    method FinishSpm()
      modifies `spmTimer, `spmIrq, `spmState, `spmcr
      ensures SpmView() == SpmFinished(old(SpmView()))
    {
      spmTimer := false;
      if spmState == Read || spmState == Write {
        if spmcr.inten {
          spmIrq := true;
        }
      }
      spmState := Idle;
      spmcr := SPM_CLEAR.(inten := spmcr.inten);
    }

    method WakeUp()
      modifies `cpu, `halt
      ensures !halt && cpu == if old(halt) && old(cpu) == Halted then Running else old(cpu)
    {
      if halt {
        if cpu == Halted {
          cpu := Running;
        }
        halt := false;
      }
    }

    method StartEepromCommand(command: nat)
      requires eeprom.Valid()
      modifies `eeProgMode, `eeTimer, `eedr, eeprom.memory, eeprom.tag
      ensures eeprom.View() == EepromAfter(old(eeprom.View()), command, eear, old(eedr))
      ensures eeProgMode == if command == READ_MODE then 0 else if command < READ_MODE then command else old(eeProgMode)
      ensures eeTimer == (EeDelay(config, command) > 0)
      ensures eedr == if command == READ_MODE then EepromByte(old(eeprom.View()), eear) else old(eedr)
    {
      var delay := 0;
      if command == READ_MODE {
        eeProgMode := 0;
        eedr := if eear < eeprom.memory.Length then eeprom.memory[eear] else 0xFF;
      } else if command == ERASE_ONLY {
        eeProgMode := ERASE_ONLY;
        ErasingOneByte(eeprom.View(), eear);
        eeprom.Erase(eear, 1);
        delay := config.eeEraseDelay;
      } else if command == WRITE_ONLY {
        eeProgMode := WRITE_ONLY;
        eeprom.SpmWrite(eedr, eear);
        delay := config.eeWriteDelay;
      } else if command == ERASE_WRITE {
        eeProgMode := ERASE_WRITE;
        ErasingOneByte(eeprom.View(), eear);
        eeprom.Erase(eear, 1);
        eeprom.SpmWrite(eedr, eear);
        delay := config.eeEraseWriteDelay;
      }
      eeTimer := delay > 0;
    }

    /** `oldValue` is the former value of the register, as the write handlers are given it. */
    method TryUnlock(v: Eecr, was: Control, oldValue: nat)
      requires oldValue % 2 == 0
      modifies `eecr, `eeState, `eeTimer
      ensures var unlocks := v.reg.eempe && !was.eempe && !eecr.eepe && old(eeState) == Idle;
              && eecr == old(eecr).(eempe := unlocks)
              && eeState == (if unlocks then Pending else old(eeState))
              && eeTimer == (unlocks || old(eeTimer))
    {
      if v.reg.eempe && !was.eempe && !eecr.eepe && eeState == Idle {
        eecr := eecr.(eempe := true);
        eeState := Pending;
        eeTimer := true;
      } else {
        eecr := eecr.(eempe := oldValue % 2 == 1);
      }
    }

    method TryWrite(v: Eecr, was: Control, oldValue: nat)
      requires eeprom.Valid() && oldValue % 2 == 0 && eecr.eepe == v.reg.eepe
      modifies `eecr, `eeState, `eeProgMode, `eeTimer, `eedr, eeprom.memory, eeprom.tag
      ensures var starts := v.reg.eepe && !was.eepe && old(eeState) == Pending && spmState == Idle;
              && eecr == old(eecr).(eepe := starts)
              && eeState == (if starts then Write else old(eeState))
              && eeProgMode == (if starts && eecr.eepm == READ_MODE then 0
                                else if starts && eecr.eepm < READ_MODE then eecr.eepm else old(eeProgMode))
              && eeTimer == (if starts then EeDelay(config, eecr.eepm) > 0 else old(eeTimer))
              && eedr == (if starts && eecr.eepm == READ_MODE then EepromByte(old(eeprom.View()), eear) else old(eedr))
              && eeprom.View() == (if starts then EepromAfter(old(eeprom.View()), eecr.eepm, eear, old(eedr))
                                   else old(eeprom.View()))
    {
      if v.reg.eepe && !was.eepe && eeState == Pending && spmState == Idle {
        eeState := Write;
        StartEepromCommand(eecr.eepm);
      } else {
        eecr := eecr.(eepe := oldValue % 2 == 1);
      }
    }

    method TryRead(eere: bool)
      requires eeprom.Valid()
      modifies `eecr, `eeProgMode, `eeTimer, `eedr, eeprom.memory, eeprom.tag
      ensures EeView() == ReadOutcome(old(EeView()), eere, old(eeprom.View()))
      ensures eeprom.View() == old(eeprom.View())
    {
      if eere && (eeState == Idle || eeState == Pending) {
        StartEepromCommand(READ_MODE);
        eecr := eecr.(eempe := false);
      }
    }

    method FinishEecr(v: Eecr, was: Control, oldValue: nat)
      requires oldValue % 4 == LowBits(was)
      modifies `eeIrq, `eecr
      ensures EeView() == FinalOutcome(old(EeView()), v, was)
    {
      if v.reg.eerie && !eecr.eepe {
        eeIrq := true;
      }
      if eeState == Write {
        eecr := eecr.(eepm := oldValue % 4);
      }
    }

    method UnlockOrWrite(v: Eecr, oldValue: nat, ghost e: Ee, was: Control)
      requires eeprom.Valid() && oldValue % 2 == 0 && was == e.reg && EeView() == e.(reg := v.reg)
      modifies `eecr, `eeState, `eeTimer, `eeProgMode, `eedr, eeprom.memory, eeprom.tag
      ensures EeView() == WindowOutcome(config, e, v, spmState == Idle, old(eeprom.View()))
      ensures eeprom.View() == (if Starts(e, v, spmState == Idle)
                                then EepromAfter(old(eeprom.View()), v.reg.eepm, eear, e.eedr)
                                else old(eeprom.View()))
    {
      TryUnlock(v, was, oldValue);
      TryWrite(v, was, oldValue);
    }

    /** The rules for EEMPE, EEPE and EERE. */
    method RunEepromRules(v: Eecr, oldValue: nat, ghost e: Ee, was: Control)
      requires eeprom.Valid() && oldValue % 2 == 0 && was == e.reg && EeView() == e.(reg := v.reg)
      modifies `eecr, `eeState, `eeTimer, `eeProgMode, `eedr, eeprom.memory, eeprom.tag
      ensures var m := old(eeprom.View());
              && EeView() == ReadOutcome(WindowOutcome(config, e, v, spmState == Idle, m), v.eere, m)
              && eeprom.View() == (if Starts(e, v, spmState == Idle) then EepromAfter(m, v.reg.eepm, eear, e.eedr) else m)
    {
      ghost var m := eeprom.View();
      UnlockOrWrite(v, oldValue, e, was);
      ghost var m1 := eeprom.View();
      TryRead(v.eere);
      ReadAfterWindow(config, e, v, spmState == Idle, m, m1);
    }

    method WriteEecrBits(v: Eecr)
      requires eeprom.Valid()
      modifies `eecr, `eeState, `eeTimer, `eeProgMode, `eedr, `eeIrq, eeprom.memory, eeprom.tag
      ensures EeView() == EecrOutcome(config, old(EeView()), v, spmState == Idle, old(eeprom.View()))
      ensures eeprom.View() == if Starts(old(EeView()), v, spmState == Idle)
                               then EepromAfter(old(eeprom.View()), v.reg.eepm, eear, old(eedr)) else old(eeprom.View())
    {
      var was := eecr;
      var oldValue := RegisterValue(eecr);
      RefusedFields(eecr);
      ghost var e := EeView();
      eecr := v.reg;
      RunEepromRules(v, oldValue, e, was);
      FinishEecr(v, was, oldValue);
    }

    method WriteEecrReg(v: Eecr)
      requires Valid() && cpu == Running
      modifies `eecr, `eeState, `eeTimer, `eeProgMode, `eedr, `eeIrq, eeprom.memory, eeprom.tag
      ensures View() == EecrWritten(config, old(View()), v)
    {
      WriteEecrBits(v);
    }

    method EeTimerNext()
      requires Valid() && eeTimer
      modifies `eeTimer, `eecr, `eeIrq, `eeState
      ensures View() == EeTimerFired(old(View()))
    {
      eeTimer := false;
      if eeState == Pending {
        eecr := eecr.(eempe := false);
      } else if eeState == Write {
        eecr := eecr.(eepe := false, eepm := 0);
        if eecr.eerie {
          eeIrq := true;
        }
      }
      eeState := Idle;
    }

    /** The core zeroes the registers and the interrupt controller the requests. */
    method ResetSpm()
      requires Valid()
      modifies `spmcr, `spmIrq, `spmState, `spmTimer, buffer, bufset
      ensures View() == old(View()).(spm := SpmAfterReset(config, old(SpmView())))
    {
      ClearSpmBuffer();
      spmcr, spmIrq := SPM_CLEAR, false;
      spmState := Idle;
      spmTimer := false;
    }

    method DoReset()
      requires Valid()
      modifies this, buffer, bufset
      ensures View() == WasReset(config, old(View()))
    {
      RestartCpu();
      ResetSpm();
      ResetEeprom();
    }

    /** A crashed CPU stays crashed. */
    method RestartCpu()
      modifies `cpu, `halt, `directLpm
      ensures View() == CpuRestarted(old(View()))
    {
      directLpm, halt := true, false;
      if cpu == Halted {
        cpu := Running;
      }
    }

    method ResetEeprom()
      modifies `eecr, `eear, `eedr, `eeIrq, `eeState, `eeTimer
      ensures EeView() == EeAfterReset(old(EeView()))
    {
      eecr, eear, eedr := CLEAR, 0, 0;
      eeIrq := false;
      if eeState == Write {
        eecr := eecr.(eepm := eeProgMode, eepe := true);
      } else {
        eeState := Idle;
        eeTimer := false;
      }
    }

    /** Acknowledging a ready interrupt keeps it raised while the side is ready and enabled. */
    method InterruptAckHandler(spmReady: bool)
      requires Valid() && cpu == Running
      modifies this
      ensures View() == Step(config, old(View()), if spmReady then AckSpmReady else AckEeReady)
    {
      if spmReady {
        if !((spmState == Idle || spmState == Pending) && spmcr.inten) {
          spmIrq := false;
        }
      } else {
        if !((eeState == Idle || eeState == Pending) && eecr.eerie) {
          eeIrq := false;
        }
      }
    }
  }
}
