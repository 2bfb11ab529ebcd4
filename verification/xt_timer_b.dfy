/** The XMEGA-style timer B: a 16-bit counter, a capture and compare register, and the state
    machine that starts and stops the counter on the edges of an event input. */
module XtTimerB {
  import opened Arith
  import T = TimerCounter

  datatype Clock = Off | Div1 | Div2 | FromTca | OnEvent

  datatype Mode = Interrupt | Timeout | Capture | Freq | PulseWidth | FreqPulseWidth | Single | Pwm8

  datatype Phase = Ready | Running | End

  datatype Source = Stopped | External | Prescaler

  /** `run` is STATUS.RUN, `capt` the capture flag. */
  datatype State = State(
    enable: bool, clock: Clock, mode: Mode, phase: Phase, source: Source, run: bool,
    ccmp: nat, counter: nat, top: nat, compare: T.Compare,
    event: bool, output: bool, capt: bool,
    captei: bool, edge: bool, ccmpinit: bool)

  const RESET := State(false, Off, Interrupt, Running, Stopped, false, 0, 0, 0, T.Compare(0, false),
                       false, false, false, false, false, false)

  const WRAP := 0x10000

  function SourceOf(clock: Clock, phase: Phase): Source {
    if clock == Off || phase != Running then Stopped else if clock == OnEvent then External else Prescaler
  }

  function InPhase(s: State, phase: Phase): State {
    var source := SourceOf(s.clock, phase);
    s.(phase := phase, source := source, run := source != Stopped)
  }

  function TopOf(mode: Mode, ccmp: nat): nat {
    match mode
    case Interrupt => ccmp
    case Single => ccmp
    case Pwm8 => ccmp % 0x100
    case _ => 0xFFFF
  }

  // ---------- Registers ----------

  function CtrlAWritten(s: State, enable: bool, clock: Clock): State {
    InPhase(s.(enable := enable, clock := if enable then clock else Off), s.phase)
  }

  /** The modes that wait for an edge before they count. */
  function StartPhase(mode: Mode): Phase {
    if mode == Timeout || mode == FreqPulseWidth || mode == Single then Ready else Running
  }

  function CtrlBWritten(s: State, mode: Mode, ccmpinit: bool): State {
    ModeSettled(InPhase(s.(mode := mode, ccmpinit := ccmpinit), StartPhase(mode)))
  }

  /** The counter and the output are set up for the mode. */
  function ModeSettled(s: State): State {
    s.(compare := s.compare.(enabled := s.mode == Pwm8 || s.mode == Timeout), top := TopOf(s.mode, s.ccmp),
       output := if s.mode == Single || s.mode == Pwm8 then false else s.ccmpinit)
  }

  function CcmpWritten(s: State, v: nat): State {
    s.(ccmp := v, compare := s.compare.(value := v), top := TopOf(s.mode, v))
  }

  /** Reading the capture clears its flag, and readies the timer for the next measurement. */
  function CcmpRead(s: State): State {
    var captures := s.mode == Capture || s.mode == Freq || s.mode == PulseWidth || s.mode == FreqPulseWidth;
    s.(capt := s.capt && !captures, phase := if s.mode == FreqPulseWidth && s.phase == End then Ready else s.phase)
  }

  // ---------- The event input ----------

  /** The edge that counts as rising: in single mode any edge if EDGE is set, otherwise the falling
      one if EDGE is set. */
  predicate EdgeValue(s: State, level: bool) {
    if s.mode == Single then s.edge || level else level != s.edge
  }

  function Captured(s: State): State { s.(ccmp := s.counter, capt := true) }

  function Cleared(s: State): State { s.(counter := 0) }

  function MeasureStep(s: State, rising: bool): State {
    match s.phase
    case Ready => if rising then Cleared(InPhase(s, Running)) else s
    case Running => if rising then InPhase(s, End).(capt := true) else s.(ccmp := s.counter)
    case End => s
  }

  function EdgeSeen(s: State, rising: bool): State {
    match s.mode
    case Timeout => if rising then InPhase(Cleared(s), Running) else InPhase(s, Ready)
    case Capture => if rising then Captured(s) else s
    case Freq => if rising then Cleared(Captured(s)) else s
    case PulseWidth => if rising then Cleared(s) else Captured(s)
    case FreqPulseWidth => MeasureStep(s, rising)
    case Single => if rising && s.phase == Ready then Cleared(InPhase(s, Running)).(output := true) else s
    case _ => s
  }

  function EventLevel(s: State, level: bool): State {
    if level == s.event then s
    else
      var t := s.(event := level);
      if t.enable && t.captei then EdgeSeen(t, EdgeValue(t, level)) else t
  }

  // ---------- The counter ----------

  function CounterOf(s: State): T.Counter { T.Counter(WRAP, s.counter, s.top, T.Up, false, [s.compare]) }

  function NextCount(s: State): nat { if s.counter == s.top || s.counter == 0xFFFF then 0 else s.counter + 1 }

  function AtTop(s: State): State {
    match s.mode
    case Interrupt => s.(capt := true)
    case Pwm8 => s.(capt := true)
    case Single => InPhase(s.(capt := true, output := false), Ready)
    case _ => s
  }

  function AtBottom(s: State): State { if s.mode == Pwm8 then s.(output := true) else s }

  function AtCompare(s: State): State {
    match s.mode
    case Timeout => s.(capt := true)
    case Pwm8 => s.(output := false)
    case _ => s
  }

  /** One tick; the events are those of the value before it. A stopped counter does not tick. */
  function Ticked(s: State): State {
    if s.source == Stopped then s
    else
      var r := T.ReachedNow(CounterOf(s));
      var t := s.(counter := NextCount(s));
      var t1 := if r.top then AtTop(t) else t;
      var t2 := if r.bottom then AtBottom(t1) else t1;
      if r.cmp[0] then AtCompare(t2) else t2
  }

  datatype Event =
    | WriteCtrlA(enable: bool, clock: Clock)
    | WriteCtrlB(mode: Mode, ccmpinit: bool)
    | WriteEvCtrl(captei: bool, edge: bool)
    | WriteCnt(cnt: nat)
    | WriteCcmp(value: nat)
    | ReadCcmp
    | ClearFlag
    | Level(level: bool)
    | Tick

  function Step(s: State, e: Event): State {
    match e
    case WriteCtrlA(en, c) => CtrlAWritten(s, en, c)
    case WriteCtrlB(m, i) => CtrlBWritten(s, m, i)
    case WriteEvCtrl(c, d) => s.(captei := c, edge := d)
    case WriteCnt(n) => s.(counter := n % WRAP)
    case WriteCcmp(v) => CcmpWritten(s, v % WRAP)
    case ReadCcmp => CcmpRead(s)
    case ClearFlag => s.(capt := false)
    case Level(l) => EventLevel(s, l)
    case Tick => Ticked(s)
  }

  function Run(s: State, es: seq<Event>): State
    decreases |es|
  {
    if es == [] then s else Run(Step(s, es[0]), es[1..])
  }

  // ---------- What every step keeps ----------

  /** RUN is one exactly when the clock is on and the phase is Running; the counter has a source
      exactly then; in single mode the output is one exactly while the pulse runs; and the top of
      the counter is that of the mode. */
  predicate Agrees(s: State) {
    && (s.run <==> s.clock != Off && s.phase == Running)
    && s.source == SourceOf(s.clock, s.phase)
    && (s.clock != Off ==> s.enable)
    && (s.mode == Single ==> (s.output <==> s.phase == Running))
    && s.top == TopOf(s.mode, s.ccmp)
    && (s.compare.enabled <==> s.mode == Pwm8 || s.mode == Timeout)
    && s.counter < WRAP && s.ccmp < WRAP && 0 <= s.compare.value < WRAP
  }

  lemma WritesAgree(s: State, e: Event)
    requires Agrees(s) && !e.Level? && !e.Tick?
    ensures Agrees(Step(s, e))
  {
  }

  lemma PhaseAgrees(s: State, phase: Phase)
    requires Agrees(s) && s.mode != Single
    ensures Agrees(InPhase(s, phase))
  {
  }

  lemma MeasureAgrees(s: State, rising: bool)
    requires Agrees(s) && s.mode == FreqPulseWidth
    ensures Agrees(MeasureStep(s, rising))
  {
    if s.phase == Ready && rising {
      PhaseAgrees(s, Running);
    } else if s.phase == Running && rising {
      PhaseAgrees(s, End);
    }
  }

  lemma SingleAgrees(s: State)
    requires Agrees(s) && s.mode == Single
    ensures Agrees(Cleared(InPhase(s, Running)).(output := true))
  {
  }

  lemma CaptureAgrees(s: State)
    requires Agrees(s) && s.mode in {Capture, Freq, PulseWidth}
    ensures Agrees(Captured(s)) && Agrees(Cleared(Captured(s))) && Agrees(Cleared(s))
  {
  }

  lemma EdgesAgree(s: State, rising: bool)
    requires Agrees(s)
    ensures Agrees(EdgeSeen(s, rising))
  {
    if s.mode == Timeout {
      PhaseAgrees(Cleared(s), Running);
      PhaseAgrees(s, Ready);
    } else if s.mode == FreqPulseWidth {
      MeasureAgrees(s, rising);
    } else if s.mode == Single {
      SingleAgrees(s);
    } else if s.mode in {Capture, Freq, PulseWidth} {
      CaptureAgrees(s);
    }
  }

  lemma TopAgrees(s: State)
    requires Agrees(s)
    ensures Agrees(AtTop(s))
  {
    if s.mode == Single {
      assert AtTop(s) == InPhase(s.(capt := true, output := false), Ready);
    } else {
      assert AtTop(s) == s.(capt := AtTop(s).capt);
    }
  }

  lemma MarksAgree(s: State)
    requires Agrees(s)
    ensures Agrees(AtBottom(s)) && Agrees(AtCompare(s))
  {
  }

  lemma TickAgrees(s: State)
    requires Agrees(s)
    ensures Agrees(Ticked(s))
  {
    if s.source != Stopped {
      var r := T.ReachedNow(CounterOf(s));
      var t := s.(counter := NextCount(s));
      TopAgrees(t);
      var t1 := if r.top then AtTop(t) else t;
      MarksAgree(t1);
      MarksAgree(if r.bottom then AtBottom(t1) else t1);
    }
  }

  lemma StepAgrees(s: State, e: Event)
    requires Agrees(s)
    ensures Agrees(Step(s, e))
  {
    match e
    case Level(l) => EdgesAgree(s.(event := l), EdgeValue(s.(event := l), l));
    case Tick => TickAgrees(s);
    case _ => WritesAgree(s, e);
  }

  lemma {:induction false} StateAgreement(es: seq<Event>, s: State)
    requires Agrees(s)
    ensures Agrees(Run(s, es))
    decreases |es|
  {
    if es != [] {
      StepAgrees(s, es[0]);
      StateAgreement(es[1..], Step(s, es[0]));
    }
  }

  lemma AlwaysAgrees(es: seq<Event>)
    ensures Agrees(Run(RESET, es))
  {
    StateAgreement(es, RESET);
  }

  /** Where the counter gets its ticks, where its top is, and whether its compare channel is used, in
      every reachable state: nowhere unless the clock is on and the phase is Running, and then from
      events or from the prescaler; at CCMP, at its low byte, or at the largest value. */
  lemma CounterSettings(es: seq<Event>)
    ensures var s := Run(RESET, es);
            && (s.source == Stopped <==> s.clock == Off || s.phase != Running)
            && (s.source == External <==> s.clock == OnEvent && s.phase == Running)
            && (s.run <==> s.source != Stopped) && (s.clock != Off ==> s.enable)
            && (s.mode == Interrupt || s.mode == Single ==> s.top == s.ccmp)
            && (s.mode == Pwm8 ==> s.top == s.ccmp % 256)
            && (s.mode != Interrupt && s.mode != Single && s.mode != Pwm8 ==> s.top == 65535)
            && (s.compare.enabled <==> s.mode == Pwm8 || s.mode == Timeout)
  {
    AlwaysAgrees(es);
  }

  /** A timer that has only been enabled since the reset counts at once, without a flag or an output. */
  lemma EnabledCounts(clock: Clock)
    requires clock != Off
    ensures var t := Run(RESET, [WriteCtrlA(true, clock)]);
            t.run && t.mode == Interrupt && t.counter == 0 && t.ccmp == 0 && !t.capt && !t.output && !t.captei
  {
    assert [WriteCtrlA(true, clock)][1..] == [];
    assert Run(RESET, [WriteCtrlA(true, clock)]) == Run(CtrlAWritten(RESET, true, clock), []);
  }

  // ---------- What the registers hold ----------

  /** What a register write sets: the clock only of an enabled timer, the phase that the mode starts in,
      the idle level of the output, and the compare value with CCMP. */
  lemma WritesTake(s: State, e: Event)
    ensures var t := Step(s, e);
            match e
            case WriteCtrlA(en, c) => t.enable == en && t.clock == (if en then c else Off) && t.phase == s.phase
            case WriteCtrlB(m, i) =>
              && t.mode == m && t.ccmpinit == i
              && (t.phase == Ready <==> m == Timeout || m == FreqPulseWidth || m == Single)
              && (t.phase == Running <==> t.phase != Ready)
              && (t.output <==> i && m != Single && m != Pwm8)
            case WriteEvCtrl(c, d) => t.captei == c && t.edge == d
            case WriteCnt(n) => t.counter == n % 65536
            case WriteCcmp(v) => t.ccmp == v % 65536 && t.compare.value == v % 65536
            case ClearFlag => !t.capt
            case ReadCcmp =>
              && t.ccmp == s.ccmp && t.counter == s.counter
              && (t.capt <==> s.capt && (s.mode == Interrupt || s.mode == Timeout || s.mode == Single || s.mode == Pwm8))
            case _ => true
  {
  }

  /** The settings of the timer are the same. */
  predicate SameSettings(s: State, t: State) {
    && t.enable == s.enable && t.clock == s.clock && t.mode == s.mode && t.captei == s.captei
    && t.edge == s.edge && t.ccmpinit == s.ccmpinit && t.compare == s.compare
  }

  predicate NoWrite(e: Event) { e.ReadCcmp? || e.ClearFlag? || e.Level? || e.Tick? }

  lemma PhaseKeepsSettings(s: State, phase: Phase)
    ensures SameSettings(s, InPhase(s, phase)) && SameSettings(s, Cleared(InPhase(s, phase)))
  {
  }

  lemma MeasureKeepsSettings(s: State, rising: bool)
    ensures SameSettings(s, MeasureStep(s, rising))
  {
    PhaseKeepsSettings(s, Running);
    PhaseKeepsSettings(s, End);
  }

  lemma CaptureKeepsSettings(s: State)
    ensures SameSettings(s, Captured(s)) && SameSettings(s, Cleared(s)) && SameSettings(s, Cleared(Captured(s)))
  {
  }

  lemma EdgeKeepsSettings(s: State, rising: bool)
    ensures SameSettings(s, EdgeSeen(s, rising))
  {
    if s.mode == FreqPulseWidth {
      MeasureKeepsSettings(s, rising);
      assert EdgeSeen(s, rising) == MeasureStep(s, rising);
    } else if s.mode == Single {
      SingleKeepsSettings(s, rising);
    } else if s.mode == Timeout {
      TimeoutKeepsSettings(s, rising);
    } else {
      OthersKeepSettings(s, rising);
    }
  }

  lemma TimeoutKeepsSettings(s: State, rising: bool)
    requires s.mode == Timeout
    ensures SameSettings(s, EdgeSeen(s, rising))
  {
    PhaseKeepsSettings(s, Ready);
    PhaseKeepsSettings(Cleared(s), Running);
  }

  lemma OthersKeepSettings(s: State, rising: bool)
    requires s.mode != Timeout && s.mode != Single && s.mode != FreqPulseWidth
    ensures SameSettings(s, EdgeSeen(s, rising))
  {
    CaptureKeepsSettings(s);
    assert EdgeSeen(s, rising) in {s, Captured(s), Cleared(s), Cleared(Captured(s))};
  }

  lemma SingleKeepsSettings(s: State, rising: bool)
    requires s.mode == Single
    ensures SameSettings(s, EdgeSeen(s, rising))
  {
    PhaseKeepsSettings(s, Running);
  }

  lemma TopKeepsSettings(s: State)
    ensures SameSettings(s, AtTop(s))
  {
    PhaseKeepsSettings(s.(capt := true, output := false), Ready);
  }

  lemma BottomKeepsSettings(s: State)
    ensures SameSettings(s, AtBottom(s))
  {
  }

  lemma CompareKeepsSettings(s: State)
    ensures SameSettings(s, AtCompare(s))
  {
    if s.mode == Timeout {
      assert AtCompare(s) == s.(capt := true);
    } else if s.mode == Pwm8 {
      assert AtCompare(s) == s.(output := false);
    } else {
      assert AtCompare(s) == s;
    }
  }

  lemma TickKeepsSettings(s: State)
    ensures SameSettings(s, Ticked(s))
  {
    if s.source != Stopped {
      var r := T.ReachedNow(CounterOf(s));
      var t := s.(counter := NextCount(s));
      var t1 := if r.top then AtTop(t) else t;
      var t2 := if r.bottom then AtBottom(t1) else t1;
      TopKeepsSettings(t);
      BottomKeepsSettings(t1);
      CompareKeepsSettings(t2);
      assert Ticked(s) == if r.cmp[0] then AtCompare(t2) else t2;
    }
  }

  lemma StepKeepsSettings(s: State, e: Event)
    requires NoWrite(e)
    ensures SameSettings(s, Step(s, e))
  {
    if e.Level? {
      EdgeKeepsSettings(s.(event := e.level), EdgeValue(s.(event := e.level), e.level));
    } else if e.Tick? {
      TickKeepsSettings(s);
    }
  }

  /** They stay, whatever edges, ticks, reads and clears come, until a register is written. */
  lemma {:induction false} SettingsStay(s: State, es: seq<Event>)
    requires forall i | 0 <= i < |es| :: NoWrite(es[i])
    ensures SameSettings(s, Run(s, es))
    decreases |es|
  {
    if es != [] {
      StepKeepsSettings(s, es[0]);
      SettingsStay(Step(s, es[0]), es[1..]);
    }
  }

  /** A timer that is not enabled, or not set to capture events, ignores the event input. */
  lemma EventsAreIgnored(s: State, level: bool)
    requires !s.enable || !s.captei
    ensures Step(s, Level(level)) == s.(event := level)
  {
  }

  /** The tick above is that of the shared counter. */
  lemma TickIsCounterTick(s: State)
    requires Agrees(s)
    ensures T.Valid(CounterOf(s)) && T.Tick(CounterOf(s)) == CounterOf(s.(counter := NextCount(s)))
  {
    assert T.InRange(s.compare, WRAP);
    T.TickKeepsValid(CounterOf(s));
  }

  // ---------- Measurements ----------

  /** The counter ticks, the event input is said to be where it already is, CCMP is read or the
      capture flag cleared. */
  predicate Quiet(e: Event, level: bool) { e == Tick || e == Level(level) || e == ReadCcmp || e == ClearFlag }

  function Wrapped(n: nat): (r: nat)
    ensures r < WRAP
  {
    n % WRAP
  }

  lemma WrappedSum(a: nat, b: nat)
    ensures Wrapped(Wrapped(a) + b) == Wrapped(a + b)
    ensures a < WRAP ==> Wrapped(a) == a
  {
  }

  predicate Measures(m: Mode) { m == Capture || m == Freq || m == PulseWidth || m == FreqPulseWidth }

  /** The timer counts freely, ready for an edge away from `level`. */
  predicate Counting(s: State, level: bool) {
    Agrees(s) && Measures(s.mode) && s.phase == Running && s.clock != Off && s.enable && s.captei && s.event == level
  }

  lemma QuietStep(s: State, e: Event, level: bool)
    requires Counting(s, level) && Quiet(e, level)
    ensures var t := Step(s, e); t == s.(counter := if e.Tick? then NextCount(s) else s.counter, capt := t.capt)
    ensures Counting(Step(s, e), level)
  {
    if e.Tick? { QuietTick(s, level); }
  }

  lemma QuietTick(s: State, level: bool)
    requires Counting(s, level)
    ensures Ticked(s) == s.(counter := NextCount(s), capt := Ticked(s).capt) && Counting(Ticked(s), level)
  {
    TickAgrees(s);
  }

  /** A run with all its states: `tr[i]` is the state before `es[i]`. */
  predicate Trace(tr: seq<State>, es: seq<Event>) {
    |tr| == |es| + 1 && forall i: nat | i < |es| :: Link(tr, es, i)
  }

  predicate Link(tr: seq<State>, es: seq<Event>, i: nat)
    requires i < |es| && |tr| == |es| + 1
  {
    tr[i + 1] == Step(tr[i], es[i])
  }

  // ---------- Counting without events ----------

  predicate TicksOnly(es: seq<Event>, i: nat, j: nat)
    requires j <= |es|
  {
    forall k | i <= k < j :: es[k] == Tick
  }

  lemma TickAt(tr: seq<State>, es: seq<Event>, i: nat)
    requires Trace(tr, es) && i < |es| && es[i] == Tick
    ensures tr[i + 1] == Ticked(tr[i])
  {
    assert Link(tr, es, i);
  }

  lemma {:induction false} CycleBelow(n: nat, k: nat)
    requires n < k
    ensures Cycle(n, k) == n
  {
    if n > 0 { CycleBelow(n - 1, k); }
  }

  predicate Counts(s: State, mode: Mode) {
    Agrees(s) && s.mode == mode && s.phase == Running && s.clock != Off
  }

  lemma InterruptTick(s: State)
    requires Counts(s, Interrupt) && s.counter <= s.ccmp
    ensures Ticked(s) == s.(counter := if s.counter == s.ccmp then 0 else s.counter + 1,
                              capt := s.capt || s.counter == s.ccmp)
  {
  }

  lemma InterruptStep(s: State, b: State, n: nat)
    requires Counts(s, Interrupt) && b == s.(counter := Cycle(n, s.ccmp + 1), capt := n > s.ccmp)
    ensures Ticked(b) == s.(counter := Cycle(n + 1, s.ccmp + 1), capt := n + 1 > s.ccmp)
  {
    InterruptTick(b);
    if n <= s.ccmp { CycleBelow(n, s.ccmp + 1); }
  }

  /** Periodic interrupt: the counter runs modulo CCMP plus one, and the flag is raised for the first
      time by the tick after CCMP ticks. */
  lemma {:induction false} Periodic(tr: seq<State>, es: seq<Event>, i: nat, j: nat)
    requires Trace(tr, es) && i <= j <= |es| && TicksOnly(es, i, j)
    requires Counts(tr[i], Interrupt) && tr[i].counter == 0 && !tr[i].capt
    ensures tr[j] == tr[i].(counter := Cycle(j - i, tr[i].ccmp + 1), capt := j - i > tr[i].ccmp)
    decreases j
  {
    if i < j {
      Periodic(tr, es, i, j - 1);
      TickAt(tr, es, j - 1);
      InterruptStep(tr[i], tr[j - 1], j - 1 - i);
    }
  }

  lemma PwmTick(s: State)
    requires Counts(s, Pwm8) && s.counter <= s.ccmp % 256
    ensures Ticked(s) ==
            s.(counter := if s.counter == s.ccmp % 256 then 0 else s.counter + 1,
               capt := s.capt || s.counter == s.ccmp % 256,
               output := if s.counter == s.compare.value then false else s.counter == 0 || s.output)
  {
  }

  predicate PwmState(s: State, b: State, n: nat) {
    && b == s.(counter := Cycle(n, s.ccmp % 256 + 1), capt := b.capt, output := b.output)
    && (n > 0 ==> (b.output <==> s.ccmp >= 256 || Cycle(n, s.ccmp % 256 + 1) != 0))
  }

  lemma PwmStep(s: State, b: State, n: nat)
    requires Counts(s, Pwm8) && s.compare.value == s.ccmp && PwmState(s, b, n)
    ensures PwmState(s, Ticked(b), n + 1)
  {
    PwmTick(b);
  }

  /** The 8-bit pulse width mode: the period is the low byte of CCMP plus one. The output is high for
      all of it unless the high byte, which is to set its width, is zero; then it is low for one tick
      in each period. */
  lemma {:induction false} PwmOutput(tr: seq<State>, es: seq<Event>, i: nat, j: nat)
    requires Trace(tr, es) && i <= j <= |es| && TicksOnly(es, i, j)
    requires Counts(tr[i], Pwm8) && tr[i].counter == 0 && tr[i].compare.value == tr[i].ccmp
    ensures PwmState(tr[i], tr[j], j - i)
    decreases j
  {
    if i < j {
      PwmOutput(tr, es, i, j - 1);
      TickAt(tr, es, j - 1);
      PwmStep(tr[i], tr[j - 1], j - 1 - i);
    }
  }

  // The input timeout

  lemma TimeoutTick(s: State)
    requires Counts(s, Timeout)
    ensures Ticked(s) == s.(counter := NextCount(s), capt := s.capt || s.counter == s.compare.value)
  {
  }

  lemma TimeoutStep(s: State, b: State, n: nat)
    requires Counts(s, Timeout) && b == s.(counter := Cycle(n, WRAP), capt := n > s.compare.value)
    ensures Ticked(b) == s.(counter := Cycle(n + 1, WRAP), capt := n + 1 > s.compare.value)
  {
    TimeoutTick(b);
    if n <= s.compare.value { CycleBelow(n, WRAP); }
  }

  lemma {:induction false} TimeoutRuns(tr: seq<State>, es: seq<Event>, i: nat, j: nat)
    requires Trace(tr, es) && i <= j <= |es| && TicksOnly(es, i, j)
    requires Counts(tr[i], Timeout) && tr[i].counter == 0 && !tr[i].capt
    ensures tr[j] == tr[i].(counter := Cycle(j - i, WRAP), capt := j - i > tr[i].compare.value)
    decreases j
  {
    if i < j {
      TimeoutRuns(tr, es, i, j - 1);
      TickAt(tr, es, j - 1);
      TimeoutStep(tr[i], tr[j - 1], j - 1 - i);
    }
  }

  lemma {:induction false} StoppedStays(tr: seq<State>, es: seq<Event>, i: nat, j: nat)
    requires Trace(tr, es) && i <= j <= |es| && TicksOnly(es, i, j) && tr[i].source == Stopped
    ensures tr[j] == tr[i]
    decreases j
  {
    if i < j {
      StoppedStays(tr, es, i, j - 1);
      TickAt(tr, es, j - 1);
    }
  }

  lemma TimeoutStarts(s: State)
    requires Agrees(s) && s.mode == Timeout && s.clock != Off && s.enable && s.captei && s.event == s.edge
    ensures var t := Step(s, Level(!s.edge));
            && Counts(t, Timeout) && t.counter == 0 && t.capt == s.capt && t.compare == s.compare && t.run
            && t.enable && t.captei && t.event == !s.edge && t.edge == s.edge
  {
    StepAgrees(s, Level(!s.edge));
  }

  lemma TimeoutStops(s: State)
    requires Counts(s, Timeout) && s.enable && s.captei && s.event == !s.edge
    ensures var t := Step(s, Level(s.edge));
            !t.run && t.source == Stopped && t.capt == s.capt && t.counter == s.counter
  {
  }

  /** Input timeout: with the input active from `i` to `j`, the flag is raised if and only if that is
      more ticks than the compare value; and after the input goes inactive nothing more is counted. */
  lemma TimeoutIff(tr: seq<State>, es: seq<Event>, i: nat, j: nat, k: nat)
    requires Trace(tr, es) && i < j < k <= |es| && Agrees(tr[i]) && tr[i].mode == Timeout && tr[i].clock != Off
    requires tr[i].enable && tr[i].captei && !tr[i].capt && tr[i].event == tr[i].edge
    requires es[i] == Level(!tr[i].edge) && TicksOnly(es, i + 1, j)
    requires es[j] == Level(tr[i].edge) && TicksOnly(es, j + 1, k)
    ensures var ticks := j - i - 1;
            && (tr[j].capt <==> ticks > tr[i].compare.value) && tr[j].run && tr[j].counter == Cycle(ticks, WRAP)
            && !tr[k].run && tr[k].capt == tr[j].capt && tr[k].counter == tr[j].counter
  {
    assert Link(tr, es, i) && Link(tr, es, j);
    TimeoutStarts(tr[i]);
    TimeoutRuns(tr, es, i + 1, j);
    TimeoutStops(tr[j]);
    StoppedStays(tr, es, j + 1, k);
  }

  /** Ticks between two positions of a run. */
  function TicksIn(es: seq<Event>, i: nat, j: nat): nat
    requires i <= j <= |es|
    decreases j
  {
    if i == j then 0 else TicksIn(es, i, j - 1) + if es[j - 1].Tick? then 1 else 0
  }

  lemma {:induction false} TicksAdd(es: seq<Event>, i: nat, j: nat, k: nat)
    requires i <= j <= k <= |es|
    ensures TicksIn(es, i, k) == TicksIn(es, i, j) + TicksIn(es, j, k)
    decreases k
  {
    if j < k { TicksAdd(es, i, j, k - 1); }
  }

  predicate QuietBetween(es: seq<Event>, i: nat, j: nat, level: bool)
    requires j <= |es|
  {
    forall k | i <= k < j :: Quiet(es[k], level)
  }

  lemma {:induction false} QuietRun(tr: seq<State>, es: seq<Event>, i: nat, j: nat, level: bool)
    requires Trace(tr, es) && i <= j <= |es| && Counting(tr[i], level) && QuietBetween(es, i, j, level)
    ensures Counting(tr[j], level)
    ensures tr[j] == tr[i].(counter := Wrapped(tr[i].counter + TicksIn(es, i, j)), capt := tr[j].capt)
    decreases j
  {
    WrappedSum(tr[i].counter, 0);
    if i < j {
      QuietRun(tr, es, i, j - 1, level);
      assert Link(tr, es, j - 1);
      QuietStep(tr[j - 1], es[j - 1], level);
      CountOn(tr[j - 1], tr[i].counter + TicksIn(es, i, j - 1));
    }
  }

  lemma CountOn(s: State, n: nat)
    requires Agrees(s) && s.top == 0xFFFF && s.counter == Wrapped(n)
    ensures NextCount(s) == Wrapped(n + 1)
  {
  }

  // Capture

  lemma CaptureEdge(s: State, level: bool)
    requires Counting(s, !level) && s.mode == Capture
    ensures var t := Step(s, Level(level));
            && Counting(t, level)
            && t == if level != s.edge then s.(event := level, ccmp := s.counter, capt := true) else s.(event := level)
  {
  }

  /** Input capture: at a rising edge the capture register takes the count, which goes on undisturbed;
      a falling edge changes nothing. */
  lemma CaptureTaken(tr: seq<State>, es: seq<Event>, i: nat, j: nat, level: bool)
    requires Trace(tr, es) && i <= j < |es| && Counting(tr[i], !level) && tr[i].mode == Capture
    requires QuietBetween(es, i, j, !level) && es[j] == Level(level)
    ensures var count := Wrapped(tr[i].counter + TicksIn(es, i, j));
            && tr[j + 1].counter == count && Counting(tr[j + 1], level)
            && (if level != tr[i].edge then tr[j + 1].ccmp == count && tr[j + 1].capt else tr[j + 1].ccmp == tr[i].ccmp)
  {
    assert Link(tr, es, j);
    QuietRun(tr, es, i, j, !level);
    CaptureEdge(tr[j], level);
  }

  // Pulse width and frequency

  lemma PulseRises(s: State)
    requires Counting(s, s.edge) && s.mode == PulseWidth
    ensures var t := Step(s, Level(!s.edge)); Counting(t, !s.edge) && t == s.(event := !s.edge, counter := 0)
  {
  }

  lemma PulseFalls(s: State)
    requires Counting(s, !s.edge) && s.mode == PulseWidth
    ensures var t := Step(s, Level(s.edge));
            Counting(t, s.edge) && t == s.(event := s.edge, ccmp := s.counter, capt := true)
  {
  }

  /** Pulse width: after a rising edge, quiet time, and a falling edge, the capture register holds
      the ticks between the two. */
  lemma PulseWidthMeasured(tr: seq<State>, es: seq<Event>, i: nat, j: nat, edge: bool)
    requires Trace(tr, es) && i < j < |es| && Counting(tr[i], edge) && tr[i].mode == PulseWidth && tr[i].edge == edge
    requires es[i] == Level(!edge) && QuietBetween(es, i + 1, j, !edge) && es[j] == Level(edge)
    ensures tr[j + 1].ccmp == Wrapped(TicksIn(es, i + 1, j)) && tr[j + 1].capt
  {
    assert Link(tr, es, i) && Link(tr, es, j);
    PulseRises(tr[i]);
    QuietRun(tr, es, i + 1, j, !edge);
    PulseFalls(tr[j]);
  }

  lemma PeriodRises(s: State)
    requires Counting(s, s.edge) && s.mode == Freq
    ensures var t := Step(s, Level(!s.edge));
            Counting(t, !s.edge) && t == s.(event := !s.edge, ccmp := s.counter, capt := true, counter := 0)
  {
  }

  lemma PeriodFalls(s: State)
    requires Counting(s, !s.edge) && s.mode == Freq
    ensures var t := Step(s, Level(s.edge)); Counting(t, s.edge) && t == s.(event := s.edge)
  {
  }

  /** Frequency: from rising edge to rising edge, whatever the falling edge between, the capture
      register holds the ticks of the whole period and the count starts again. */
  lemma PeriodMeasured(tr: seq<State>, es: seq<Event>, i: nat, j: nat, k: nat, edge: bool)
    requires Trace(tr, es) && i < j < k < |es| && Counting(tr[i], edge) && tr[i].mode == Freq && tr[i].edge == edge
    requires es[i] == Level(!edge) && QuietBetween(es, i + 1, j, !edge) && es[j] == Level(edge)
    requires QuietBetween(es, j + 1, k, edge) && es[k] == Level(!edge)
    ensures tr[k + 1].ccmp == Wrapped(TicksIn(es, i, k)) && tr[k + 1].capt && tr[k + 1].counter == 0
  {
    assert Link(tr, es, i) && Link(tr, es, j) && Link(tr, es, k);
    PeriodRises(tr[i]);
    QuietRun(tr, es, i + 1, j, !edge);
    PeriodFalls(tr[j]);
    QuietRun(tr, es, j + 1, k, edge);
    PeriodRises(tr[k]);
    TicksAcross(es, i, j, k);
  }

  /** An edge is no tick. */
  lemma TicksAcross(es: seq<Event>, i: nat, j: nat, k: nat)
    requires i < j < k <= |es| && es[i].Level? && es[j].Level?
    ensures TicksIn(es, i, k) == TicksIn(es, i + 1, j) + TicksIn(es, j + 1, k)
    ensures Wrapped(Wrapped(TicksIn(es, i + 1, j)) + TicksIn(es, j + 1, k)) == Wrapped(TicksIn(es, i, k))
  {
    TicksAdd(es, i, i + 1, j);
    TicksAdd(es, i, j, j + 1);
    TicksAdd(es, i, j + 1, k);
    assert TicksIn(es, i, i) == 0 && TicksIn(es, j, j) == 0;
    WrappedSum(TicksIn(es, i + 1, j), TicksIn(es, j + 1, k));
  }

  // ---------- Frequency and pulse width together ----------

  /** Ready to measure, the input at its low level. */
  predicate Waiting(s: State) {
    && Agrees(s) && s.mode == FreqPulseWidth && s.phase == Ready
    && s.clock != Off && s.enable && s.captei && s.event == s.edge
  }

  /** Between two measurements: the counter is stopped and the captures can be read. */
  predicate Between(s: State) {
    && Agrees(s) && s.mode == FreqPulseWidth && s.phase != Running
    && s.clock != Off && s.enable && s.captei
  }

  predicate Frozen(s: State) { Between(s) && s.phase == End }

  predicate TickOrLevel(e: Event) { e.Tick? || e.Level? }

  lemma FrozenStep(s: State, e: Event)
    requires Frozen(s) && (TickOrLevel(e) || e == ClearFlag)
    ensures var t := Step(s, e); Frozen(t) && t == s.(event := t.event, capt := s.capt && e != ClearFlag)
  {
  }

  /** The capture flag is cleared. */
  predicate ClearedIn(es: seq<Event>, i: nat, j: nat)
    requires j <= |es|
  {
    exists k :: i <= k < j && es[k] == ClearFlag
  }

  lemma {:induction false} StaysFrozen(tr: seq<State>, es: seq<Event>, i: nat, j: nat)
    requires Trace(tr, es) && i <= j <= |es| && Frozen(tr[i])
    requires forall k | i <= k < j :: TickOrLevel(es[k]) || es[k] == ClearFlag
    ensures Frozen(tr[j]) && tr[j] == tr[i].(event := tr[j].event, capt := tr[i].capt && !ClearedIn(es, i, j))
    decreases j
  {
    if i < j {
      StaysFrozen(tr, es, i, j - 1);
      assert Link(tr, es, j - 1);
      FrozenStep(tr[j - 1], es[j - 1]);
    }
  }

  lemma MeasureStarts(s: State)
    requires Waiting(s)
    ensures var t := Step(s, Level(!s.edge));
            Counting(t, !s.edge) && t.mode == FreqPulseWidth && t.counter == 0 && t.edge == s.edge
  {
    StepAgrees(s, Level(!s.edge));
  }

  lemma MeasureFalls(s: State)
    requires Counting(s, !s.edge) && s.mode == FreqPulseWidth
    ensures var t := Step(s, Level(s.edge)); t == s.(event := s.edge, ccmp := s.counter) && Counting(t, s.edge)
  {
    StepAgrees(s, Level(s.edge));
  }

  lemma MeasureEnds(s: State)
    requires Counting(s, s.edge) && s.mode == FreqPulseWidth
    ensures var t := Step(s, Level(!s.edge)); Frozen(t) && t.capt && t.ccmp == s.ccmp && t.counter == s.counter
  {
  }

  /** The measurement: after a rising, a falling and a rising edge CCMP holds the ticks from the
      first to the second and CNT those from the first to the third, both modulo 65536, and neither
      moves on any further edge or tick. */
  lemma Measurement(tr: seq<State>, es: seq<Event>, i: nat, j: nat, k: nat, end: nat, edge: bool)
    requires Trace(tr, es) && i < j < k < end <= |es| && Waiting(tr[i]) && tr[i].edge == edge
    requires es[i] == Level(!edge) && QuietBetween(es, i + 1, j, !edge) && es[j] == Level(edge)
    requires QuietBetween(es, j + 1, k, edge) && es[k] == Level(!edge)
    requires forall l | k < l < end :: TickOrLevel(es[l]) || es[l] == ClearFlag
    ensures tr[end].ccmp == Wrapped(TicksIn(es, i + 1, j)) && tr[end].counter == Wrapped(TicksIn(es, i, k))
    ensures Frozen(tr[end]) && (tr[end].capt <==> !ClearedIn(es, k + 1, end))
  {
    assert Link(tr, es, i) && Link(tr, es, j) && Link(tr, es, k);
    MeasureStarts(tr[i]);
    QuietRun(tr, es, i + 1, j, !edge);
    MeasureFalls(tr[j]);
    QuietRun(tr, es, j + 1, k, edge);
    MeasureEnds(tr[k]);
    TicksAcross(es, i, j, k);
    StaysFrozen(tr, es, k + 1, end);
  }

  predicate EventOrRead(e: Event) { TickOrLevel(e) || e.ReadCcmp? || e == ClearFlag }

  function ReadIn(es: seq<Event>, i: nat, j: nat): bool
    requires i <= j <= |es|
    decreases j
  {
    i < j && (ReadIn(es, i, j - 1) || es[j - 1].ReadCcmp?)
  }

  predicate Rises(s: State, e: Event) { e.Level? && s.event == s.edge && e.level != s.edge }

  lemma BetweenStep(s: State, e: Event)
    requires Between(s) && EventOrRead(e) && !(s.phase == Ready && Rises(s, e))
    ensures var t := Step(s, e);
            && Between(t) && t.ccmp == s.ccmp && t.counter == s.counter && t.edge == s.edge
            && (t.phase == Ready <==> s.phase == Ready || e.ReadCcmp?)
  {
    StepAgrees(s, e);
  }

  /** The next measurement: once one has ended, whatever ticks, edges and reads follow, both
      captures stay until a rising edge that comes after a read of CCMP; and the timer waits for
      such an edge if and only if CCMP has been read since and the input is low. */
  lemma {:induction false} WaitsAgainIff(tr: seq<State>, es: seq<Event>, i: nat, j: nat)
    requires Trace(tr, es) && i <= j <= |es| && Frozen(tr[i])
    requires forall l | i <= l < j :: EventOrRead(es[l]) && (ReadIn(es, i, l) ==> !Rises(tr[l], es[l]))
    ensures Between(tr[j]) && tr[j].ccmp == tr[i].ccmp && tr[j].counter == tr[i].counter && tr[j].edge == tr[i].edge
    ensures tr[j].phase == Ready <==> ReadIn(es, i, j)
    ensures Waiting(tr[j]) <==> ReadIn(es, i, j) && tr[j].event == tr[j].edge
    decreases j
  {
    if i < j {
      WaitsAgainIff(tr, es, i, j - 1);
      assert Link(tr, es, j - 1);
      BetweenStep(tr[j - 1], es[j - 1]);
    }
  }

  // ---------- The single pulse ----------

  function TickCount(es: seq<Event>): nat
    decreases |es|
  {
    if es == [] then 0 else (if es[0].Tick? then 1 else 0) + TickCount(es[1..])
  }

  /** A pulse is running and the counter has not passed the compare value. */
  predicate Pulsing(s: State) {
    Agrees(s) && s.mode == Single && s.phase == Running && s.clock != Off && s.counter <= s.ccmp
  }

  lemma PulseGoesOn(s: State, e: Event)
    requires Pulsing(s) && TickOrLevel(e) && (e.Tick? ==> s.counter < s.ccmp)
    ensures var t := Step(s, e);
            t == s.(event := t.event, counter := if e.Tick? then s.counter + 1 else s.counter)
  {
  }

  /** A pulse lasts as many ticks as the compare value and one more, whatever edges come meanwhile. */
  lemma {:induction false} PulseLasts(s: State, es: seq<Event>)
    requires Pulsing(s) && (forall i | 0 <= i < |es| :: TickOrLevel(es[i])) && s.counter + TickCount(es) <= s.ccmp
    ensures var t := Run(s, es);
            Pulsing(t) && t.output && t == s.(event := t.event, counter := s.counter + TickCount(es))
    decreases |es|
  {
    if es != [] {
      PulseGoesOn(s, es[0]);
      PulseLasts(Step(s, es[0]), es[1..]);
    }
  }

  lemma PulseEnds(s: State)
    requires Pulsing(s) && s.counter == s.ccmp
    ensures var t := Ticked(s); !t.output && t.phase == Ready && !t.run && t.capt
  {
  }

  /** One shot: after the edge that starts it, the output is high for `ccmp` ticks and low, with the
      capture flag raised, at the next. */
  lemma OneShot(s: State, level: bool, es: seq<Event>)
    requires Agrees(s) && s.mode == Single && s.phase == Ready && s.clock != Off && s.captei
    requires s.enable && level != s.event && (level || s.edge)
    requires (forall i | 0 <= i < |es| :: TickOrLevel(es[i])) && TickCount(es) == s.ccmp
    ensures var t := Run(EventLevel(s, level), es);
            t.output && t.run && !Ticked(t).output && !Ticked(t).run && Ticked(t).capt
  {
    StepAgrees(s, Level(level));
    PulseLasts(EventLevel(s, level), es);
    PulseEnds(Run(EventLevel(s, level), es));
  }

  // ---------- The peripheral ----------

  class TimerB {
    var enable: bool
    var clock: Clock
    var mode: Mode
    var phase: Phase
    var source: Source
    var run: bool
    var ccmp: nat
    var counter: nat
    var top: nat
    var compare: T.Compare
    var event: bool
    var output: bool
    var capt: bool
    var captei: bool
    var edge: bool
    var ccmpinit: bool

    ghost function View(): State
      reads this
    {
      State(enable, clock, mode, phase, source, run, ccmp, counter, top, compare,
            event, output, capt, captei, edge, ccmpinit)
    }

    constructor ()
      ensures View() == RESET
    {
      enable, clock, mode, phase, source, run := false, Off, Interrupt, Running, Stopped, false;
      ccmp, counter, top, compare := 0, 0, 0, T.Compare(0, false);
      event, output, capt, captei, edge, ccmpinit := false, false, false, false, false, false;
    }

    method SetCounterState(p: Phase)
      modifies `phase, `source, `run
      ensures View() == InPhase(old(View()), p)
    {
      phase := p;
      if clock == Off || p != Running {
        source := Stopped;
      } else if clock == OnEvent {
        source := External;
      } else {
        source := Prescaler;
      }
      run := source != Stopped;
    }

    method UpdateCounterTop()
      modifies `top
      ensures top == TopOf(mode, ccmp)
    {
      if mode == Interrupt || mode == Single {
        top := ccmp;
      } else if mode == Pwm8 {
        top := ccmp % 0x100;
      } else {
        top := 0xFFFF;
      }
    }

    method WriteCtrlAReg(en: bool, clk: Clock)
      modifies `enable, `clock, `phase, `source, `run
      ensures View() == CtrlAWritten(old(View()), en, clk)
    {
      enable := en;
      if en {
        clock := clk;
      } else {
        clock := Off;
      }
      SetCounterState(phase);
    }

    method WriteCtrlBReg(m: Mode, init: bool)
      modifies this
      ensures View() == CtrlBWritten(old(View()), m, init)
    {
      mode, ccmpinit := m, init;
      SetCounterState(StartPhase(m));
      SettleMode();
    }

    method SettleMode()
      modifies `compare, `top, `output
      ensures View() == ModeSettled(old(View()))
    {
      compare := compare.(enabled := mode == Pwm8 || mode == Timeout);
      UpdateCounterTop();
      output := if mode == Single || mode == Pwm8 then false else ccmpinit;
    }

    method WriteCcmpReg(v: nat)
      modifies `ccmp, `compare, `top
      ensures View() == CcmpWritten(old(View()), v)
    {
      ccmp := v;
      compare := compare.(value := v);
      UpdateCounterTop();
    }

    method ReadCcmpReg() returns (v: nat)
      modifies `capt, `phase
      ensures View() == CcmpRead(old(View())) && v == ccmp
    {
      v := ccmp;
      if mode == Capture || mode == Freq || mode == PulseWidth || mode == FreqPulseWidth {
        capt := false;
      }
      if mode == FreqPulseWidth && phase == End {
        phase := Ready;
      }
    }

    method ProcessCaptureEvent(level: bool)
      modifies this
      ensures View() == EventLevel(old(View()), level)
    {
      if level == event { return; }
      event := level;
      if !enable || !captei { return; }
      var rising := if mode == Single then edge || level else level != edge;
      if mode == FreqPulseWidth {
        Measure(rising);
      } else {
        EdgeAction(rising);
      }
    }

    method Measure(rising: bool)
      modifies `phase, `source, `run, `counter, `capt, `ccmp
      ensures View() == MeasureStep(old(View()), rising)
    {
      if rising {
        if phase == Ready {
          SetCounterState(Running);
          counter := 0;
        } else if phase == Running {
          SetCounterState(End);
          capt := true;
        }
      } else if phase == Running {
        ccmp := counter;
      }
    }

    method EdgeAction(rising: bool)
      requires mode != FreqPulseWidth
      modifies `phase, `source, `run, `counter, `capt, `ccmp, `output
      ensures View() == EdgeSeen(old(View()), rising)
    {
      if mode == Timeout {
        if rising {
          counter := 0;
          SetCounterState(Running);
        } else {
          SetCounterState(Ready);
        }
      } else if mode == Single {
        if rising && phase == Ready {
          SetCounterState(Running);
          counter := 0;
          output := true;
        }
      } else {
        CaptureAction(rising);
      }
    }

    method CaptureAction(rising: bool)
      requires mode != FreqPulseWidth && mode != Timeout && mode != Single
      modifies `counter, `capt, `ccmp
      ensures View() == EdgeSeen(old(View()), rising)
    {
      if mode == Capture {
        if rising {
          ccmp, capt := counter, true;
        }
      } else if mode == Freq {
        if rising {
          ccmp, capt := counter, true;
          counter := 0;
        }
      } else if mode == PulseWidth {
        if rising {
          counter := 0;
        } else {
          ccmp, capt := counter, true;
        }
      }
    }

    method TopReached()
      modifies `capt, `output, `phase, `source, `run
      ensures View() == AtTop(old(View()))
    {
      if mode == Interrupt || mode == Pwm8 {
        capt := true;
      } else if mode == Single {
        capt := true;
        output := false;
        SetCounterState(Ready);
      }
    }

    method BottomReached()
      modifies `output
      ensures View() == AtBottom(old(View()))
    {
      if mode == Pwm8 {
        output := true;
      }
    }

    method Advance()
      modifies `counter
      ensures counter == NextCount(old(View()))
    {
      if counter == top || counter == 0xFFFF {
        counter := 0;
      } else {
        counter := counter + 1;
      }
    }

    method CompareReached()
      modifies `capt, `output
      ensures View() == AtCompare(old(View()))
    {
      if mode == Timeout {
        capt := true;
      } else if mode == Pwm8 {
        output := false;
      }
    }

    /** One tick of the counter and what it raises. */
    method TickOnce()
      modifies `counter, `capt, `output, `phase, `source, `run
      ensures View() == Ticked(old(View()))
    {
      if source == Stopped { return; }
      var atTop, atBottom, atCompare := counter == top, counter == 0, compare.enabled && counter == compare.value;
      Advance();
      if atTop {
        TopReached();
      }
      if atBottom {
        BottomReached();
      }
      if atCompare {
        CompareReached();
      }
    }

    method DoReset()
      modifies this
      ensures View() == RESET
    {
      ClearRegisters();
      clock, mode := Off, Interrupt;
      SetCounterState(Running);
      ccmp, event, output := 0, false, false;
    }

    /** The registers read zero, and so does the counter. */
    method ClearRegisters()
      modifies `enable, `captei, `edge, `ccmpinit, `capt, `counter, `top, `compare
      ensures !enable && !captei && !edge && !ccmpinit && !capt && counter == top == 0 && compare == T.Compare(0, false)
    {
      enable, captei, edge, ccmpinit, capt := false, false, false, false, false;
      counter, top, compare := 0, 0, T.Compare(0, false);
    }
  }
}
