/** The AVR watchdog and the timed sequence that protects its settings: the prescaler can be
    changed and the reset mode left only within four cycles of an unlocking write. */
module AvrWdt {
  import opened Arith

  /** Fields of WDTCSR: prescaler, reset enable, change enable, interrupt enable and flag. */
  datatype Reg = Reg(wdp: nat, wde: bool, wdce: bool, wdie: bool, wdif: bool)

  datatype Lock = Locked | UnlockedUntil(time: nat)

  /** `wdt` is the number of cycles of its own clock left to the watchdog timer, 0 when it is off.
      `now` counts CPU cycles; `wdrf` is the watchdog reset flag of the reset register. */
  datatype State = State(
    now: nat, reg: Reg, lock: Lock, wdt: nat, wdrf: bool, irq: bool, resetRequested: bool)

  function Delay(wdp: nat): nat {
    if wdp <= 9 then Pow2(wdp + 11) else 0
  }

  /** The value that lands in the register. While locked, the prescaler is kept and WDE cannot
      be cleared; while unlocked, WDCE reads one; WDRF forces WDE. */
  function Landed(s: State, v: Reg): Reg {
    var wde := v.wde || s.wdrf;
    if s.lock == Locked then v.(wdp := s.reg.wdp, wde := wde || s.reg.wde)
    else v.(wde := wde, wdce := true)
  }

  /** A write that starts the timed sequence. */
  predicate Unlocks(s: State, v: Reg) {
    s.lock == Locked && v.wdce && Landed(s, v).wde
  }

  function Written(s: State, v: Reg): State {
    var r := Landed(s, v);
    var started := (r.wde && !s.reg.wde) || (r.wdie && !s.reg.wdie);
    s.(reg := r.(wdif := false),
       lock := if Unlocks(s, v) then UnlockedUntil(s.now + 4) else s.lock,
       wdt := if started then Delay(r.wdp)
              else if s.reg.wde && !r.wde then 0
              else if r.wdp != s.reg.wdp then Delay(r.wdp)
              else s.wdt)
  }

  /** One CPU cycle. When the sequence times out WDCE is cleared. */
  function Ticked(s: State): State {
    var t := s.(now := s.now + 1);
    if t.lock == UnlockedUntil(t.now) then t.(lock := Locked, reg := t.reg.(wdce := false)) else t
  }

  /** The timer has run out. */
  function TimedOut(s: State): State {
    if s.reg.wdie && !s.reg.wdif then s.(reg := s.reg.(wdif := true), irq := true, wdt := Delay(s.reg.wdp))
    else s.(resetRequested := s.resetRequested || s.reg.wde || s.reg.wdif)
  }

  /** One cycle of the watchdog clock. */
  function WdtTicked(s: State): State {
    if s.wdt == 0 then s
    else
      var t := s.(wdt := s.wdt - 1);
      if t.wdt == 0 then TimedOut(t) else t
  }

  function WdrExecuted(s: State): State {
    if s.wdt > 0 then s.(wdt := Delay(s.reg.wdp)) else s
  }

  function Acknowledged(s: State): State {
    s.(reg := s.reg.(wdif := false, wdie := false), irq := false, wdt := Delay(s.reg.wdp))
  }

  /** After a watchdog reset the watchdog is restarted with the default prescaler. */
  function WasReset(s: State, byWatchdog: bool, wdrf: bool): State {
    State(s.now, Reg(0, byWatchdog, false, false, false), Locked, if byWatchdog then Delay(0) else 0, wdrf, false, false)
  }

  datatype Event =
    | Tick
    | Write(v: Reg)
    | Wdr
    | WdtTick
    | AckInterrupt
    | WriteResetFlag(wdrf: bool)
    | Reset(byWatchdog: bool, wdrf: bool)

  function Step(s: State, e: Event): State {
    match e
    case Tick => Ticked(s)
    case Write(v) => Written(s, v)
    case Wdr => WdrExecuted(s)
    case WdtTick => WdtTicked(s)
    case AckInterrupt => Acknowledged(s)
    case WriteResetFlag(f) => s.(wdrf := f)
    case Reset(w, f) => WasReset(s, w, f)
  }

  /** The state before event number `i` of a run. */
  function StateAt(s: State, es: seq<Event>, i: nat): State
    requires i <= |es|
  {
    if i == 0 then s else Step(StateAt(s, es, i - 1), es[i - 1])
  }

  function Run(s: State, es: seq<Event>): State
    decreases |es|
  {
    if es == [] then s else Run(Step(s, es[0]), es[1..])
  }

  // ---------- The timed sequence ----------

  /** What a write can do to the protected fields, locked and unlocked. */
  lemma WriteEffect(s: State, v: Reg)
    ensures var t := Step(s, Write(v));
            && (s.lock == Locked ==> t.reg.wdp == s.reg.wdp && (t.reg.wde <==> s.reg.wde || v.wde || s.wdrf))
            && (s.lock != Locked ==> t.reg.wdp == v.wdp && (t.reg.wde <==> v.wde || s.wdrf) && t.lock == s.lock)
            && (s.lock == Locked ==> t.lock == if v.wdce && t.reg.wde then UnlockedUntil(s.now + 4) else Locked)
            && t.reg.wdie == v.wdie && !t.reg.wdif && (t.reg.wdce <==> v.wdce || s.lock != Locked)
  {
  }

  /** While the register is unlocked WDCE reads one, and the end of the sequence clears it. */
  lemma {:induction false} ChangeBitShows(s: State, es: seq<Event>, i: nat)
    requires i <= |es| && (s.lock != Locked ==> s.reg.wdce)
    ensures var t := StateAt(s, es, i); t.lock != Locked ==> t.reg.wdce
    ensures i < |es| && StateAt(s, es, i).lock != Locked && StateAt(s, es, i + 1).lock == Locked ==>
              !StateAt(s, es, i + 1).reg.wdce
  {
    if i > 0 {
      ChangeBitShows(s, es, i - 1);
      ChangeBitStep(StateAt(s, es, i - 1), es[i - 1]);
    }
    if i < |es| { ChangeBitStep(StateAt(s, es, i), es[i]); }
  }

  lemma ChangeBitStep(s: State, e: Event)
    requires s.lock != Locked ==> s.reg.wdce
    ensures var t := Step(s, e); if t.lock != Locked then t.reg.wdce else s.lock != Locked ==> !t.reg.wdce
  {
  }

  /** WDRF is what the program last wrote to it, or what the last reset was. */
  lemma {:induction false} ResetFlagHolds(s: State, es: seq<Event>, i: nat, j: nat)
    requires i < j <= |es| && (es[i].WriteResetFlag? || es[i].Reset?)
    requires forall k | i < k < j :: !es[k].WriteResetFlag? && !es[k].Reset?
    ensures StateAt(s, es, j).wdrf == es[i].wdrf
  {
    if j > i + 1 { ResetFlagHolds(s, es, i, j - 1); }
  }

  /** Nothing but a register write or a reset touches the protected fields. */
  lemma OnlyWritesTouchSettings(s: State, e: Event)
    requires !e.Write? && !e.Reset?
    ensures Step(s, e).reg.wdp == s.reg.wdp && Step(s, e).reg.wde == s.reg.wde
  {
  }

  /** Event `j` is an unlocking write, and no reset came between it and event `i`. */
  predicate UnlockedAt(s: State, es: seq<Event>, j: nat, i: nat)
    requires j < i <= |es|
  {
    && es[j].Write? && Unlocks(StateAt(s, es, j), es[j].v)
    && forall k | j < k < i :: !es[k].Reset?
  }

  /** An unlocked register was unlocked by a write less than four cycles ago. */
  lemma {:induction false} UnlockIsRecent(s: State, es: seq<Event>, i: nat) returns (j: nat)
    requires i <= |es| && s.lock == Locked && StateAt(s, es, i).lock != Locked
    ensures j < i && UnlockedAt(s, es, j, i)
    ensures StateAt(s, es, i).lock == UnlockedUntil(StateAt(s, es, j).now + 4)
    ensures StateAt(s, es, j).now <= StateAt(s, es, i).now < StateAt(s, es, j).now + 4
  {
    var before, e := StateAt(s, es, i - 1), es[i - 1];
    UnlockedStep(before, e);
    if before.lock == Locked {
      j := i - 1;
    } else {
      j := UnlockIsRecent(s, es, i - 1);
    }
  }

  /** A register found unlocked was unlocked by the last event, or was so before it and its time
      has not come. */
  lemma UnlockedStep(s: State, e: Event)
    requires Step(s, e).lock != Locked
    ensures var t := Step(s, e);
            if s.lock == Locked then e.Write? && Unlocks(s, e.v) && t.lock == UnlockedUntil(s.now + 4) && t.now == s.now
            else !e.Reset? && t.lock == s.lock && s.now <= t.now <= s.now + 1
                 && (s.lock.UnlockedUntil? && s.now < s.lock.time ==> t.now < s.lock.time)
  {
    match e
    case Tick =>
    case Write(v) =>
    case _ =>
  }

  /** The timed sequence. In any run from a locked watchdog, resets included, a write that
      changes the prescaler or clears WDE was preceded, less than four cycles before and with no
      reset in between, by a write to the locked register with WDCE and effective WDE set. */
  lemma TimedSequence(s: State, es: seq<Event>, i: nat) returns (j: nat)
    requires i < |es| && s.lock == Locked && es[i].Write?
    requires var a, b := StateAt(s, es, i), StateAt(s, es, i + 1);
             a.reg.wdp != b.reg.wdp || (a.reg.wde && !b.reg.wde)
    ensures j < i && UnlockedAt(s, es, j, i)
    ensures StateAt(s, es, i).now < StateAt(s, es, j).now + 4
  {
    WriteEffect(StateAt(s, es, i), es[i].v);
    j := UnlockIsRecent(s, es, i);
  }

  // ---------- The watchdog stays armed ----------

  /** The timer is running, with no more left than the delay of the prescaler; for the reserved
      settings, which have none, it is off. */
  predicate Running(s: State) {
    s.wdt <= Delay(s.reg.wdp) && (s.wdt == 0 <==> s.reg.wdp > 9)
  }

  /** With WDE set the timer runs until it requests a reset. */
  predicate Armed(s: State) { s.reg.wde && !s.resetRequested ==> Running(s) }

  lemma StepKeepsArmed(s: State, e: Event)
    requires Armed(s)
    ensures Armed(Step(s, e))
  {
    DelayIsPositive(s.reg.wdp);
    match e
    case Write(v) => DelayIsPositive(Landed(s, v).wdp);
    case Reset(_, _) => DelayIsPositive(0);
    case _ =>
  }

  lemma {:induction false} ArmedAlways(s: State, es: seq<Event>, i: nat)
    requires Armed(s) && i <= |es|
    ensures Armed(StateAt(s, es, i))
  {
    if i > 0 {
      ArmedAlways(s, es, i - 1);
      StepKeepsArmed(StateAt(s, es, i - 1), es[i - 1]);
    }
  }

  /** So in reset mode the timer is off exactly when the prescaler setting is reserved. */
  lemma ResetModeIsLive(s: State, es: seq<Event>, i: nat)
    requires Armed(s) && i <= |es|
    requires StateAt(s, es, i).reg.wde && !StateAt(s, es, i).resetRequested
    ensures StateAt(s, es, i).wdt == 0 <==> StateAt(s, es, i).reg.wdp > 9
  {
    ArmedAlways(s, es, i);
  }

  /** With WDIE set the timer runs until it requests a reset. */
  predicate InterruptArmed(s: State) { s.reg.wdie && !s.resetRequested ==> Running(s) }

  /** The write that leaves the reset mode while the interrupt mode stays enabled, with a prescaler
      setting that is not reserved. */
  predicate LeavesResetMode(s: State, e: Event) {
    && e.Write? && !s.resetRequested && s.lock != Locked
    && s.reg.wde && !e.v.wde && !s.wdrf
    && s.reg.wdie && e.v.wdie && e.v.wdp <= 9
  }

  lemma DelayIsPositive(wdp: nat)
    ensures Delay(wdp) > 0 <==> wdp <= 9
  {
    if wdp <= 9 { PowIsPositive(wdp + 11); }
  }

  lemma {:induction false} PowIsPositive(k: nat)
    ensures Pow2(k) > 0
  {
    if k > 0 { PowIsPositive(k - 1); }
  }

  /** One event stops the interrupt mode if and only if it is that write: WDE is cleared, so the
      timer is, and WDIE, already set, does not start it again. */
  lemma InterruptModeStepIff(s: State, e: Event)
    requires InterruptArmed(s)
    ensures InterruptArmed(Step(s, e)) <==> !LeavesResetMode(s, e)
  {
    DelayIsPositive(s.reg.wdp);
    match e
    case Write(v) => WrittenArmedIff(s, v);
    case _ =>
  }

  lemma WrittenArmedIff(s: State, v: Reg)
    requires InterruptArmed(s)
    ensures InterruptArmed(Written(s, v)) <==> !LeavesResetMode(s, Write(v))
  {
    DelayIsPositive(Landed(s, v).wdp);
  }

  /** The interrupt mode is armed in every state of the run. */
  predicate ArmedThroughout(s: State, es: seq<Event>)
    decreases |es|
  {
    InterruptArmed(s) && (es == [] || ArmedThroughout(Step(s, es[0]), es[1..]))
  }

  /** No event of the run leaves the reset mode with the interrupt mode enabled. */
  predicate NeverLeavesResetMode(s: State, es: seq<Event>)
    decreases |es|
  {
    es == [] || (!LeavesResetMode(s, es[0]) && NeverLeavesResetMode(Step(s, es[0]), es[1..]))
  }

  /** The interrupt mode is live throughout a run, its timer running whenever WDIE is set, if and
      only if no event of the run is such a write. */
  lemma {:induction false} InterruptModeIsLiveIff(s: State, es: seq<Event>)
    requires InterruptArmed(s)
    ensures ArmedThroughout(s, es) <==> NeverLeavesResetMode(s, es)
    decreases |es|
  {
    if es != [] {
      InterruptModeStepIff(s, es[0]);
      if InterruptArmed(Step(s, es[0])) { InterruptModeIsLiveIff(Step(s, es[0]), es[1..]); }
    }
  }

  // ---------- How long it runs, and what it does then ----------

  /** Cycles of the watchdog clock for each prescaler setting; the others are reserved. */
  const CYCLES: seq<nat> := [2048, 4096, 8192, 16384, 32768, 65536, 131072, 262144, 524288, 1048576]

  lemma {:induction false} PrescalerCycles(wdp: nat)
    requires wdp < |CYCLES|
    ensures Delay(wdp) == CYCLES[wdp]
  {
    if wdp > 0 {
      PrescalerCycles(wdp - 1);
      assert CYCLES[wdp] == 2 * CYCLES[wdp - 1];
    } else {
      assert Pow2(11) == 2048;
    }
  }

  function CyclesOf(wdp: nat): nat { if wdp < |CYCLES| then CYCLES[wdp] else 0 }

  lemma DelayIsCycles(wdp: nat)
    ensures Delay(wdp) == CyclesOf(wdp)
  {
    if wdp < |CYCLES| { PrescalerCycles(wdp); }
  }

  /** What a write does to the timer: a mode that is set and a prescaler that is changed start it with
      the cycles of the prescaler; leaving the reset mode otherwise stops it; and nothing else moves it. */
  lemma WriteStarts(s: State, v: Reg)
    ensures var t := Step(s, Write(v));
            var modeSet := (t.reg.wde && !s.reg.wde) || (t.reg.wdie && !s.reg.wdie);
            t.wdt == if modeSet || (t.reg.wdp != s.reg.wdp && (t.reg.wde || !s.reg.wde)) then CyclesOf(t.reg.wdp)
                     else if s.reg.wde && !t.reg.wde then 0
                     else s.wdt
  {
    DelayIsCycles(Landed(s, v).wdp);
  }

  predicate Passes(e: Event) { e == Tick || e == Wdr || e == WdtTick }

  /** Among the events of a run, as many watchdog clock cycles as are `left`, or later as `limit`
      says, pass with no WDR between. */
  predicate GoesHungry(left: nat, limit: nat, es: seq<Event>)
    decreases |es|
  {
    if es == [] then false
    else if es[0] == WdtTick then left == 1 || GoesHungry(if left > 0 then left - 1 else 0, limit, es[1..])
    else GoesHungry(if es[0] == Wdr && left > 0 then limit else left, limit, es[1..])
  }

  lemma RequestSticks(s: State, e: Event)
    requires s.resetRequested && !e.Reset?
    ensures Step(s, e).resetRequested
  {
  }

  lemma {:induction false} RequestStays(s: State, es: seq<Event>)
    requires s.resetRequested && forall i | 0 <= i < |es| :: !es[i].Reset?
    ensures Run(s, es).resetRequested
    decreases |es|
  {
    if es != [] {
      RequestSticks(s, es[0]);
      RequestStays(Step(s, es[0]), es[1..]);
    }
  }

  /** The reset mode. Without the interrupt mode, a run of cycles and WDR instructions requests a reset
      if and only if the cycles of the prescaler setting pass with no WDR between, what is left of them
      for the first. */
  lemma {:induction false} ResetIffHungry(s: State, es: seq<Event>)
    requires s.reg.wde && !s.reg.wdie && !s.resetRequested && Running(s)
    requires forall i | 0 <= i < |es| :: Passes(es[i])
    ensures Run(s, es).resetRequested <==> GoesHungry(s.wdt, CyclesOf(s.reg.wdp), es)
    decreases |es|
  {
    if es != [] {
      var t := Step(s, es[0]);
      DelayIsCycles(s.reg.wdp);
      DelayIsPositive(s.reg.wdp);
      if es[0] == WdtTick && s.wdt == 1 {
        RequestStays(t, es[1..]);
      } else {
        PassingStep(s, es[0]);
        ResetIffHungry(t, es[1..]);
      }
    }
  }

  /** So a program that never executes WDR is reset after exactly those cycles from a watchdog reset,
      which leaves the shortest setting. */
  lemma ResetAgain(s: State, wdrf: bool, es: seq<Event>)
    requires forall i | 0 <= i < |es| :: es[i] == WdtTick
    ensures Run(Step(s, Reset(true, wdrf)), es).resetRequested <==> |es| >= 2048
  {
    DelayIsPositive(0);
    DelayIsCycles(0);
    ResetIffHungry(Step(s, Reset(true, wdrf)), es);
    AllTicksHungry(2048, 2048, es);
  }

  lemma {:induction false} AllTicksHungry(left: nat, limit: nat, es: seq<Event>)
    requires left > 0 && forall i | 0 <= i < |es| :: es[i] == WdtTick
    ensures GoesHungry(left, limit, es) <==> |es| >= left
    decreases |es|
  {
    if es != [] && left > 1 { AllTicksHungry(left - 1, limit, es[1..]); }
  }

  // The interrupt mode

  lemma {:induction false} FullDelay(s: State, es: seq<Event>)
    requires !s.resetRequested && Running(s) && forall i | 0 <= i < |es| :: Passes(es[i])
    requires !GoesHungry(s.wdt, CyclesOf(s.reg.wdp), es)
    ensures var t := Run(s, es);
            && Running(t) && t.reg == s.reg.(wdce := t.reg.wdce) && t.irq == s.irq && !t.resetRequested
    decreases |es|
  {
    if es != [] {
      DelayIsCycles(s.reg.wdp);
      DelayIsPositive(s.reg.wdp);
      PassingStep(s, es[0]);
      FullDelay(Step(s, es[0]), es[1..]);
    }
  }

  lemma PassingStep(s: State, e: Event)
    requires !s.resetRequested && Running(s) && Passes(e) && !(e == WdtTick && s.wdt == 1)
    ensures var t := Step(s, e);
            && Running(t) && t.reg == s.reg.(wdce := t.reg.wdce) && t.irq == s.irq && !t.resetRequested
            && t.wdt == if e == WdtTick && s.wdt > 0 then s.wdt - 1
                        else if e == Wdr && s.wdt > 0 then Delay(s.reg.wdp) else s.wdt
  {
    DelayIsPositive(s.reg.wdp);
  }

  /** The timer runs out at the cycle that ends the run. */
  predicate RunsOutAtEnd(s: State, es: seq<Event>) {
    && (forall i | 0 <= i < |es| :: Passes(es[i])) && !GoesHungry(s.wdt, CyclesOf(s.reg.wdp), es)
    && Run(s, es).wdt == 1
  }

  /** The first time the timer runs out in interrupt mode an interrupt is requested, and no reset
      whatever WDE is; and the timer starts again. */
  lemma FirstTimeout(s: State, es: seq<Event>)
    requires Running(s) && s.reg.wdie && !s.reg.wdif && !s.resetRequested && RunsOutAtEnd(s, es)
    ensures var t := Step(Run(s, es), WdtTick);
            && t.irq && !t.resetRequested && Running(t) && t.wdt == CyclesOf(s.reg.wdp)
            && t.reg == s.reg.(wdif := true, wdce := t.reg.wdce)
  {
    FullDelay(s, es);
    DelayIsCycles(s.reg.wdp);
    DelayIsPositive(s.reg.wdp);
  }

  /** If the interrupt has not been acknowledged when it runs out again, a reset is requested, even
      with WDE clear. */
  lemma SecondTimeout(s: State, es: seq<Event>)
    requires Running(s) && s.reg.wdie && s.reg.wdif && !s.resetRequested && RunsOutAtEnd(s, es)
    ensures Step(Run(s, es), WdtTick).resetRequested
  {
    FullDelay(s, es);
  }

  /** If it has, the timer has started again with WDIE clear, and when it runs out a reset is requested
      if and only if WDE is set. */
  lemma AcknowledgedTimeout(s: State, es: seq<Event>)
    requires Running(s) && s.reg.wdie && s.reg.wdif && !s.resetRequested
    requires RunsOutAtEnd(Step(s, AckInterrupt), es)
    ensures Step(s, AckInterrupt).wdt == CyclesOf(s.reg.wdp) && !Step(s, AckInterrupt).irq
    ensures var t := Step(Run(Step(s, AckInterrupt), es), WdtTick); (t.resetRequested <==> s.reg.wde) && !t.irq
  {
    DelayIsCycles(s.reg.wdp);
    DelayIsPositive(s.reg.wdp);
    FullDelay(Step(s, AckInterrupt), es);
  }

  // ---------- The watchdog ----------

  class Watchdog {
    var now: nat
    var reg: Reg
    var lock: Lock
    var wdt: nat
    var wdrf: bool
    var irq: bool
    var resetRequested: bool

    ghost function View(): State
      reads this
    {
      State(now, reg, lock, wdt, wdrf, irq, resetRequested)
    }

    constructor ()
      ensures View() == State(0, Reg(0, false, false, false, false), Locked, 0, false, false, false)
    {
      now, reg := 0, Reg(0, false, false, false, false);
      lock, wdt, wdrf, irq, resetRequested := Locked, 0, false, false, false;
    }

    method CalculateDelay() returns (delay: nat)
      ensures delay == Delay(reg.wdp)
    {
      if reg.wdp > 9 {
        return 0;
      }
      delay := 1;
      for k := 0 to reg.wdp + 11
        invariant delay == Pow2(k)
      {
        delay := 2 * delay;
      }
    }

    method RescheduleTimer()
      modifies `wdt
      ensures wdt == Delay(reg.wdp)
    {
      var delay := CalculateDelay();
      wdt := delay;
    }

    /** Stores the value that lands in the register. */
    method StoreReg(v: Reg)
      modifies `reg
      ensures reg == Landed(old(View()), v)
    {
      var was := reg;
      reg := v;
      if wdrf {
        reg := reg.(wde := true);
      }
      if lock != Locked {
        reg := reg.(wdce := true);
      } else {
        reg := reg.(wdp := was.wdp);
        if was.wde && !v.wde {
          reg := reg.(wde := true);
        }
      }
    }

    method WriteReg(v: Reg)
      modifies `reg, `lock, `wdt
      ensures View() == Written(old(View()), v)
    {
      var was := reg;
      StoreReg(v);
      if lock != Locked {
        if reg.wdp != was.wdp {
          RescheduleTimer();
        }
        if was.wde && !reg.wde {
          wdt := 0;
        }
      } else {
        if reg.wdce && reg.wde {
          lock := UnlockedUntil(now + 4);
        }
      }
      if (reg.wde && !was.wde) || (reg.wdie && !was.wdie) {
        RescheduleTimer();
      }
      if reg.wdif {
        reg := reg.(wdif := false);
      }
    }

    method ProcessCycle()
      modifies `now, `reg, `lock
      ensures View() == Step(old(View()), Tick)
    {
      now := now + 1;
      if lock == UnlockedUntil(now) {
        LockTimeout();
      }
    }

    /** The lock timer fires. */
    method LockTimeout()
      modifies `lock, `reg
      ensures View() == old(View()).(lock := Locked, reg := old(reg).(wdce := false))
    {
      lock := Locked;
      reg := reg.(wdce := false);
    }

    method WatchdogReset()
      modifies `wdt
      ensures View() == Step(old(View()), Wdr)
    {
      if wdt > 0 {
        RescheduleTimer();
      }
    }

    /** One cycle of the watchdog clock. */
    method ProcessWdtCycle()
      modifies `wdt, `reg, `irq, `resetRequested
      ensures View() == Step(old(View()), WdtTick)
    {
      if wdt > 0 {
        wdt := wdt - 1;
        if wdt == 0 {
          WdtTimeout();
        }
      }
    }

    /** The timer fires. */
    method WdtTimeout()
      requires wdt == 0
      modifies `wdt, `reg, `irq, `resetRequested
      ensures View() == TimedOut(old(View()))
    {
      if reg.wdie && !reg.wdif {
        reg := reg.(wdif := true);
        irq := true;
        RescheduleTimer();
      } else if reg.wde || reg.wdif {
        resetRequested := true;
      }
    }

    method InterruptAckHandler()
      modifies `reg, `wdt, `irq
      ensures View() == Step(old(View()), AckInterrupt)
    {
      reg := reg.(wdif := false, wdie := false);
      RescheduleTimer();
      irq := false;
    }

    method DoReset(byWatchdog: bool, flag: bool)
      modifies this
      ensures View() == Step(old(View()), Reset(byWatchdog, flag))
    {
      reg := Reg(0, false, false, false, false);
      irq, resetRequested, wdrf := false, false, flag;
      wdt := 0;
      lock := Locked;
      if byWatchdog {
        reg := reg.(wde := true);
        RescheduleTimer();
      }
    }
  }
}
