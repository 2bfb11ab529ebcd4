/** The XT window watchdog. Time is counted in watchdog clock cycles; the watchdog timer and
    the timer that synchronises a WDR instruction are kept as the times they fire at, in the
    order of the cycle manager's queue: by time, then by order of scheduling. */
module XtWdt {
  import opened Arith

  datatype Timer = Off | At(time: nat)

  datatype State = State(
    now: nat,
    period: nat, window: nat,      // CTRLA fields
    lock: bool,                    // STATUS.LOCK
    wdt: Timer, sync: Timer,
    wdtFirst: bool,                // the watchdog timer was scheduled before the other
    firstWdr: bool,
    resetRequested: bool)

  /** Cycles of a PERIOD or WINDOW setting; 0 for off and for the reserved values. */
  function Delay(index: nat): nat {
    if 1 <= index <= 11 then Pow2(index + 2) else 0
  }

  function Scheduled(now: nat, delay: nat): Timer {
    if delay == 0 then Off else At(now + delay)
  }

  function Rescheduled(s: State): State {
    s.(wdt := Scheduled(s.now, Delay(s.period) + Delay(s.window)), wdtFirst := s.sync == Off)
  }

  /** A WDR instruction starts the three-cycle synchronisation, unless one is under way. */
  function WdrExecuted(s: State): State {
    if s.period != 0 && s.sync == Off then s.(sync := At(s.now + 3), wdtFirst := true) else s
  }

  /** Once locked, CTRLA cannot be changed. */
  function CtrlaWritten(s: State, period: nat, window: nat): State {
    if s.lock then s else
      var t := s.(period := period, window := window);
      if Delay(period) > 0 then Rescheduled(t.(firstWdr := t.firstWdr || t.wdt == Off)) else t.(wdt := Off)
  }

  function TimedOut(s: State): State { s.(resetRequested := true) }

  function Remaining(s: State): int {
    match s.wdt case Off => -1 case At(t) => if t < s.now then 0 else t - s.now
  }

  /** End of a synchronisation: too early is a reset, except for the first one. */
  function Synced(s: State): State {
    var t := s.(sync := Off);
    if Delay(s.window) > 0 && Remaining(s) > Delay(s.period) && !s.firstWdr then TimedOut(t)
    else Rescheduled(t).(firstWdr := false)
  }

  function FireWdt(s: State): State {
    if s.wdt == At(s.now) then TimedOut(s.(wdt := Off)) else s
  }

  function FireSync(s: State): State {
    if s.sync == At(s.now) then Synced(s) else s
  }

  /** One watchdog clock cycle: the timers that are due fire in queue order. */
  function Ticked(s: State): State {
    var t := s.(now := s.now + 1);
    if t.wdtFirst then FireSync(FireWdt(t)) else FireWdt(FireSync(t))
  }

  /** Reset copies the fuse to CTRLA; a non-zero period locks the watchdog and starts it. */
  function WasReset(s: State, period: nat, window: nat): State {
    var t := State(s.now, period, window, period != 0, Off, Off, true, true, false);
    if period != 0 then Rescheduled(t) else t
  }

  datatype Event =
    | Tick
    | Wdr
    | WriteCtrla(period: nat, window: nat)
    | WriteStatus(lock: bool)
    | Reset(period: nat, window: nat)

  function Step(s: State, e: Event): State {
    match e
    case Tick => Ticked(s)
    case Wdr => WdrExecuted(s)
    case WriteCtrla(p, w) => CtrlaWritten(s, p, w)
    case WriteStatus(l) => s.(lock := s.lock || l)
    case Reset(p, w) => WasReset(s, p, w)
  }

  function Run(s: State, es: seq<Event>): State
    decreases |es|
  {
    if es == [] then s else Run(Step(s, es[0]), es[1..])
  }

  // ---------- When the program's WDR instructions complete ----------

  function EndTime(es: seq<Event>, now: nat): nat {
    if es == [] then now else EndTime(es[1..], if es[0] == Tick then now + 1 else now)
  }

  /** Completion times of the WDR instructions of a run, from the events alone: each takes
      three cycles, and those executed in the meantime are lost. */
  function SyncTimes(es: seq<Event>, now: nat, pending: Timer): seq<nat> {
    if es == [] then []
    else if es[0] == Tick then
      if pending == At(now + 1) then [now + 1] + SyncTimes(es[1..], now + 1, Off)
      else SyncTimes(es[1..], now + 1, pending)
    else if es[0] == Wdr && pending == Off then SyncTimes(es[1..], now, At(now + 3))
    else SyncTimes(es[1..], now, pending)
  }

  /** Every synchronisation comes less than `limit` after the one before, none but the first
      closer than `window` to it, and the end is less than `limit` after the last one. */
  predicate InWindow(last: nat, first: bool, syncs: seq<nat>, end: nat, window: nat, limit: nat)
    decreases |syncs|
  {
    if syncs == [] then end < last + limit
    else
      && syncs[0] < last + limit
      && (first || syncs[0] >= last + window)
      && InWindow(syncs[0], false, syncs[1..], end, window, limit)
  }

  // ---------- The window theorem ----------

  /** A locked, running watchdog last restarted at time `last`. */
  predicate Guarding(s: State, last: nat, first: bool) {
    && s.lock && 1 <= s.period <= 11 && !s.resetRequested
    && s.wdt == At(last + Delay(s.period) + Delay(s.window)) && last <= s.now < s.wdt.time
    && s.firstWdr == first
    && (s.sync.At? ==> s.now < s.sync.time && (s.wdtFirst || s.sync.time < s.wdt.time))
  }

  lemma {:induction false} ResetSticks(s: State, es: seq<Event>)
    requires s.resetRequested && forall i | 0 <= i < |es| :: !es[i].Reset?
    ensures Run(s, es).resetRequested
    decreases |es|
  {
    if es != [] { ResetSticks(Step(s, es[0]), es[1..]); }
  }

  lemma {:induction false} TimeOnlyAdvances(es: seq<Event>, now: nat, pending: Timer)
    requires pending.At? ==> pending.time >= now
    ensures EndTime(es, now) >= now
    ensures SyncTimes(es, now, pending) != [] ==> SyncTimes(es, now, pending)[0] >= now
    decreases |es|
  {
    if es != [] {
      if es[0] == Tick {
        TimeOnlyAdvances(es[1..], now + 1,
                         if pending == At(now + 1) then Off else if pending == At(now) then At(now + 1) else pending);
        if pending == At(now) { LateSyncNeverComes(es[1..], now + 1, now); }
      } else {
        TimeOnlyAdvances(es[1..], now, if es[0] == Wdr && pending == Off then At(now + 3) else pending);
      }
    }
  }

  lemma {:induction false} LateSyncNeverComes(es: seq<Event>, now: nat, late: nat)
    requires late < now
    ensures SyncTimes(es, now, At(late)) == [] && EndTime(es, now) >= now
    decreases |es|
  {
    if es != [] { LateSyncNeverComes(es[1..], if es[0] == Tick then now + 1 else now, late); }
  }

  /** Once the limit has passed without a synchronisation the run is outside its window. */
  lemma PastTheLimit(es: seq<Event>, now: nat, pending: Timer, last: nat, first: bool, window: nat, limit: nat)
    requires now >= last + limit && (pending.At? ==> pending.time >= now)
    ensures !InWindow(last, first, SyncTimes(es, now, pending), EndTime(es, now), window, limit)
  {
    TimeOnlyAdvances(es, now, pending);
  }

  /** One cycle of a guarding watchdog: time out, restart, or wait. */
  lemma GuardingTick(s: State, last: nat, first: bool)
    requires Guarding(s, last, first)
    ensures var t := Ticked(s);
            var window, limit := Delay(s.window), Delay(s.period) + Delay(s.window);
            && t.now == s.now + 1 && t.period == s.period && t.window == s.window
            && if t.now == last + limit then t.resetRequested
               else if s.sync != At(t.now) then Guarding(t, last, first) && t.sync == s.sync
               else if !first && t.now < last + window then t.resetRequested
               else Guarding(t, t.now, false) && t.sync == Off
  {
  }

  lemma GuardingOther(s: State, last: nat, first: bool, e: Event)
    requires Guarding(s, last, first) && e != Tick && !e.Reset?
    ensures var t := Step(s, e);
            && Guarding(t, last, first) && t.now == s.now && t.period == s.period && t.window == s.window
            && t.sync == if e == Wdr && s.sync == Off then At(s.now + 3) else s.sync
  {
  }

  /** A cycle that ends the limit, or a synchronisation that comes too early. */
  lemma LastTick(s: State, es: seq<Event>, last: nat, first: bool)
    requires Guarding(s, last, first) && es != [] && es[0] == Tick && forall i | 0 <= i < |es| :: !es[i].Reset?
    requires || s.now + 1 == last + Delay(s.period) + Delay(s.window)
             || (s.sync == At(s.now + 1) && !first && s.now + 1 < last + Delay(s.window))
    ensures Run(s, es).resetRequested
    ensures !InWindow(last, first, SyncTimes(es, s.now, s.sync), EndTime(es, s.now),
                      Delay(s.window), Delay(s.period) + Delay(s.window))
  {
    var t := Step(s, es[0]);
    var window, limit := Delay(s.window), Delay(s.period) + Delay(s.window);
    GuardingTick(s, last, first);
    ResetSticks(t, es[1..]);
    if t.now == last + limit {
      PastTheLimit(es[1..], t.now, if s.sync == At(t.now) then Off else s.sync, last, first, window, limit);
    }
  }

  /** The window theorem. A locked watchdog requests no reset in a run exactly when the run's
      synchronisations stay in the window: all less than period plus window apart, and all but
      the first at least the window apart. Attempts to change CTRLA or STATUS do not matter. */
  lemma {:induction false} NoResetIffInWindow(s: State, es: seq<Event>, last: nat, first: bool)
    requires Guarding(s, last, first) && forall i | 0 <= i < |es| :: !es[i].Reset?
    ensures !Run(s, es).resetRequested <==>
            InWindow(last, first, SyncTimes(es, s.now, s.sync), EndTime(es, s.now),
                     Delay(s.window), Delay(s.period) + Delay(s.window))
    decreases |es|
  {
    if es != [] {
      var t := Step(s, es[0]);
      var window, limit := Delay(s.window), Delay(s.period) + Delay(s.window);
      if es[0] == Tick {
        GuardingTick(s, last, first);
        if t.now == last + limit || (s.sync == At(t.now) && !first && t.now < last + window) {
          LastTick(s, es, last, first);
        } else if s.sync != At(t.now) {
          NoResetIffInWindow(t, es[1..], last, first);
        } else {
          NoResetIffInWindow(t, es[1..], t.now, false);
        }
      } else {
        GuardingOther(s, last, first, es[0]);
        NoResetIffInWindow(t, es[1..], last, first);
      }
    }
  }

  // ---------- In clock cycles ----------

  /** Cycles of the settings of PERIOD and WINDOW; the others are reserved. */
  const CYCLES: seq<nat> := [0, 8, 16, 32, 64, 128, 256, 512, 1024, 2048, 4096, 8192]

  function Cycles(setting: nat): nat { if setting < |CYCLES| then CYCLES[setting] else 0 }

  lemma DelayIsCycles(setting: nat)
    ensures Delay(setting) == Cycles(setting)
  {
    if 1 <= setting <= 11 { PowIsCycles(setting); }
  }

  lemma {:induction false} PowIsCycles(setting: nat)
    requires 1 <= setting <= 11
    ensures Pow2(setting + 2) == Cycles(setting)
  {
    if setting > 1 {
      PowIsCycles(setting - 1);
      assert Cycles(setting) == 2 * Cycles(setting - 1);
    } else {
      assert Pow2(3) == 2 * Pow2(2) && Pow2(2) == 2 * Pow2(1) && Pow2(1) == 2 * Pow2(0);
    }
  }

  function Ticks(n: nat): seq<Event> { if n == 0 then [] else [Tick] + Ticks(n - 1) }

  /** With no synchronisation under way the timer is left to run out. */
  lemma {:induction false} RunsOut(s: State, n: nat)
    requires s.sync == Off && !s.resetRequested && (s.wdt.At? ==> s.now < s.wdt.time)
    ensures Run(s, Ticks(n)).resetRequested <==> s.wdt.At? && s.wdt.time <= s.now + n
    decreases n
  {
    if n > 0 {
      var t := Step(s, Tick);
      assert Ticks(n)[1..] == Ticks(n - 1);
      if t.resetRequested { TicksStick(t, n - 1); } else { RunsOut(t, n - 1); }
    }
  }

  lemma {:induction false} TicksStick(s: State, n: nat)
    requires s.resetRequested
    ensures Run(s, Ticks(n)).resetRequested
    decreases n
  {
    if n > 0 {
      assert Ticks(n)[1..] == Ticks(n - 1);
      TicksStick(Step(s, Tick), n - 1);
    }
  }

  /** A program that never executes WDR is reset after exactly the cycles of the period and of the
      window in the fuse, or not at all if the period is zero or both settings are reserved. A
      reserved period does not disable the watchdog: the window alone then counts. */
  lemma ResetWithoutWdr(s: State, period: nat, window: nat, n: nat)
    ensures Run(Step(s, Reset(period, window)), Ticks(n)).resetRequested <==>
            period != 0 && 0 < Cycles(period) + Cycles(window) <= n
  {
    DelayIsCycles(period);
    DelayIsCycles(window);
    RunsOut(Step(s, Reset(period, window)), n);
  }

  /** With a period of zero the watchdog stays off, whatever WDR instructions are executed. */
  predicate Off0(s: State) { s.period == 0 && s.wdt == Off && s.sync == Off && !s.resetRequested }

  lemma {:induction false} StaysOff(s: State, es: seq<Event>)
    requires Off0(s) && forall i | 0 <= i < |es| :: !es[i].Reset? && !es[i].WriteCtrla?
    ensures Off0(Run(s, es))
    decreases |es|
  {
    if es != [] { StaysOff(Step(s, es[0]), es[1..]); }
  }

  lemma OffByFuse(s: State, window: nat, es: seq<Event>)
    requires forall i | 0 <= i < |es| :: !es[i].Reset? && !es[i].WriteCtrla?
    ensures !Run(Step(s, Reset(0, window)), es).resetRequested
  {
    StaysOff(Step(s, Reset(0, window)), es);
  }

  predicate Locks(es: seq<Event>) { exists i :: 0 <= i < |es| && es[i] == WriteStatus(true) }

  lemma {:induction false} LockStays(s: State, es: seq<Event>)
    requires forall i | 0 <= i < |es| :: !es[i].Reset?
    ensures Run(s, es).lock <==> s.lock || Locks(es)
    decreases |es|
  {
    if es != [] {
      LockStays(Step(s, es[0]), es[1..]);
      if Locks(es[1..]) {
        var i :| 0 <= i < |es[1..]| && es[1..][i] == WriteStatus(true);
        assert es[i + 1] == WriteStatus(true);
      }
      if Locks(es) && es[0] != WriteStatus(true) {
        var i :| 0 <= i < |es| && es[i] == WriteStatus(true);
        assert es[1..][i - 1] == WriteStatus(true);
      }
    }
  }

  /** LOCK is set if and only if the fuse has a period or a one has been written to it since the
      reset; and once it is, CTRLA keeps its value. */
  lemma LockIff(s: State, period: nat, window: nat, es: seq<Event>)
    requires forall i | 0 <= i < |es| :: !es[i].Reset?
    ensures Run(Step(s, Reset(period, window)), es).lock <==> period != 0 || Locks(es)
  {
    LockStays(Step(s, Reset(period, window)), es);
  }

  lemma {:induction false} LockedSettingsStay(s: State, es: seq<Event>)
    requires s.lock && forall i | 0 <= i < |es| :: !es[i].Reset?
    ensures Run(s, es).period == s.period && Run(s, es).window == s.window
    decreases |es|
  {
    if es != [] { LockedSettingsStay(Step(s, es[0]), es[1..]); }
  }

  /** So a period setting `p`, without a window, lasts two to the power of `p + 2` cycles. */
  lemma PeriodLasts(s: State, p: nat, n: nat)
    requires 1 <= p <= 11
    ensures Run(Step(s, Reset(p, 0)), Ticks(n)).resetRequested <==> n >= Pow2(p + 2)
    ensures Pow2(3) == 8
  {
    ResetWithoutWdr(s, p, 0, n);
    PowIsCycles(p);
    PowIsCycles(1);
  }

  /** A synchronisation that completes without a valid period starts the timer with the window. */
  lemma {:induction false} SyncStartsWindow(s: State, n: nat)
    requires s.sync.At? && s.now < s.sync.time && s.wdt == Off && Cycles(s.period) == 0 && !s.resetRequested
    ensures Run(s, Ticks(n)).resetRequested <==> 0 < Cycles(s.window) <= s.now + n - s.sync.time
    decreases n
  {
    if n > 0 {
      var t := Step(s, Tick);
      assert Ticks(n)[1..] == Ticks(n - 1);
      WindowStarts(s);
      if s.sync.time == t.now { RunsOut(t, n - 1); } else { SyncStartsWindow(t, n - 1); }
    }
  }

  lemma WindowStarts(s: State)
    requires s.sync.At? && s.now < s.sync.time && s.wdt == Off && Cycles(s.period) == 0 && !s.resetRequested
    ensures var t := Step(s, Tick);
            if s.sync.time == s.now + 1 then
              && t.sync == Off && t.now == s.now + 1 && !t.resetRequested
              && t.wdt == if Cycles(s.window) > 0 then At(t.now + Cycles(s.window)) else Off
            else t == s.(now := s.now + 1)
  {
    DelayIsCycles(s.period);
    DelayIsCycles(s.window);
  }

  /** Writing a period of zero, or a reserved one, stops the timer; but a synchronisation under way
      starts it again with the window, if there is one, and the device is reset after that. */
  lemma StoppedIff(s: State, period: nat, window: nat, n: nat)
    requires !s.lock && !s.resetRequested && Cycles(period) == 0 && (s.sync.At? ==> s.now < s.sync.time)
    ensures Run(Step(s, WriteCtrla(period, window)), Ticks(n)).resetRequested <==>
            s.sync.At? && 0 < Cycles(window) <= s.now + n - s.sync.time
  {
    DelayIsCycles(period);
    var t := Step(s, WriteCtrla(period, window));
    if s.sync.At? { SyncStartsWindow(t, n); } else { RunsOut(t, n); }
  }

  /** The window theorem from a reset with a valid period in the fuse. */
  lemma LockedByFuse(s: State, period: nat, window: nat, es: seq<Event>)
    requires 1 <= period <= 11 && forall i | 0 <= i < |es| :: !es[i].Reset?
    ensures !Run(Step(s, Reset(period, window)), es).resetRequested <==>
            InWindow(s.now, true, SyncTimes(es, s.now, Off), EndTime(es, s.now),
                     Cycles(window), Cycles(period) + Cycles(window))
  {
    DelayIsCycles(period);
    DelayIsCycles(window);
    NoResetIffInWindow(Step(s, Reset(period, window)), es, s.now, true);
  }

  /** The same from a program that sets a valid period and locks the watchdog, which may be running
      and have a synchronisation under way. */
  lemma LockedByProgram(s: State, period: nat, window: nat, es: seq<Event>)
    requires !s.lock && !s.resetRequested && (s.sync.At? ==> s.now < s.sync.time <= s.now + 3)
    requires 1 <= period <= 11 && forall i | 0 <= i < |es| :: !es[i].Reset?
    ensures !Run(Step(Step(s, WriteCtrla(period, window)), WriteStatus(true)), es).resetRequested <==>
            InWindow(s.now, s.firstWdr || s.wdt == Off, SyncTimes(es, s.now, s.sync), EndTime(es, s.now),
                     Cycles(window), Cycles(period) + Cycles(window))
  {
    DelayIsCycles(period);
    DelayIsCycles(window);
    CyclesAreMany(period);
    var t := Step(Step(s, WriteCtrla(period, window)), WriteStatus(true));
    NoResetIffInWindow(t, es, s.now, t.firstWdr);
  }

  lemma CyclesAreMany(setting: nat)
    requires 1 <= setting <= 11
    ensures Cycles(setting) >= 8
  {
  }

  /** The synchronisation before number `i`, or the start. */
  function Before(last: nat, syncs: seq<nat>, i: nat): nat
    requires i <= |syncs|
  {
    if i == 0 then last else syncs[i - 1]
  }

  predicate GapFits(last: nat, first: bool, syncs: seq<nat>, i: nat, window: nat, limit: nat)
    requires i < |syncs|
  {
    && syncs[i] < Before(last, syncs, i) + limit
    && ((i == 0 && first) || syncs[i] >= Before(last, syncs, i) + window)
  }

  /** `InWindow` spelled out: the gap before each synchronisation, and after the last. */
  lemma {:induction false} InWindowMeansGaps(last: nat, first: bool, syncs: seq<nat>, end: nat, window: nat, limit: nat)
    ensures InWindow(last, first, syncs, end, window, limit) <==>
            && (forall i | 0 <= i < |syncs| :: GapFits(last, first, syncs, i, window, limit))
            && end < Before(last, syncs, |syncs|) + limit
    decreases |syncs|
  {
    if syncs != [] {
      var rest := syncs[1..];
      InWindowMeansGaps(syncs[0], false, rest, end, window, limit);
      assert Before(last, syncs, |syncs|) == Before(syncs[0], rest, |rest|);
      assert GapFits(last, first, syncs, 0, window, limit) <==>
             syncs[0] < last + limit && (first || syncs[0] >= last + window);
      assert forall i | 0 <= i < |rest| ::
          GapFits(syncs[0], false, rest, i, window, limit) == GapFits(last, first, syncs, i + 1, window, limit);
      assert forall i | 1 <= i < |syncs| ::
          GapFits(syncs[0], false, rest, i - 1, window, limit) == GapFits(last, first, syncs, i, window, limit);
    }
  }

  // ---------- The watchdog ----------

  class Watchdog {
    var now: nat
    var period: nat
    var window: nat
    var lock: bool
    var wdt: Timer
    var sync: Timer
    var wdtFirst: bool
    var firstWdr: bool
    var resetRequested: bool

    ghost function View(): State
      reads this
    {
      State(now, period, window, lock, wdt, sync, wdtFirst, firstWdr, resetRequested)
    }

    constructor ()
      ensures View() == State(0, 0, 0, false, Off, Off, true, true, false)
    {
      now, period, window, lock := 0, 0, 0, false;
      wdt, sync, wdtFirst, firstWdr, resetRequested := Off, Off, true, true, false;
    }

    static method CalculateDelay(index: nat) returns (delay: nat)
      ensures delay == Delay(index)
    {
      if 1 <= index <= 11 {
        delay := 1;
        for k := 0 to index + 2
          invariant delay == Pow2(k)
        {
          delay := 2 * delay;
        }
      } else {
        delay := 0;
      }
    }

    method RestartTimer()
      modifies `wdt, `wdtFirst
      ensures View() == Rescheduled(old(View()))
    {
      var p := CalculateDelay(period);
      var w := CalculateDelay(window);
      wdt := if p + w == 0 then Off else At(now + p + w);
      wdtFirst := sync == Off;
    }

    method WatchdogReset()
      modifies this
      ensures View() == Step(old(View()), Wdr)
    {
      if period != 0 && sync == Off {
        sync := At(now + 3);
        wdtFirst := true;
      }
    }

    method WriteCtrlaReg(p: nat, w: nat)
      modifies this
      ensures View() == Step(old(View()), WriteCtrla(p, w))
    {
      var oldPeriod, oldWindow := period, window;
      period, window := p, w;
      if lock {
        period, window := oldPeriod, oldWindow;
        return;
      }
      var delay := CalculateDelay(p);
      if delay > 0 {
        if wdt == Off {
          firstWdr := true;
        }
        RestartTimer();
      } else {
        wdt := Off;
      }
    }

    method WriteStatusReg(l: bool)
      modifies this
      ensures View() == Step(old(View()), WriteStatus(l))
    {
      var oldLock := lock;
      lock := l;
      if oldLock && !l {
        lock := true;
      }
    }

    method Timeout()
      modifies `resetRequested
      ensures View() == TimedOut(old(View()))
    {
      resetRequested := true;
    }

    method WdrSyncTimerNext()
      requires sync == At(now)
      modifies this
      ensures View() == Synced(old(View()))
    {
      sync := Off;
      var p := CalculateDelay(period);
      var w := CalculateDelay(window);
      var remaining := if wdt == Off then -1 else if wdt.time < now then 0 else wdt.time - now;
      if w > 0 && remaining > p && !firstWdr {
        Timeout();
      } else {
        RestartTimer();
        firstWdr := false;
      }
    }

    method ProcessWdt()
      modifies this
      ensures View() == FireWdt(old(View()))
    {
      if wdt == At(now) {
        wdt := Off;
        Timeout();
      }
    }

    method ProcessSync()
      modifies this
      ensures View() == FireSync(old(View()))
    {
      if sync == At(now) {
        WdrSyncTimerNext();
      }
    }

    method ProcessTimers()
      modifies this
      ensures View() == Step(old(View()), Tick)
    {
      now := now + 1;
      if wdtFirst {
        ProcessWdt();
        ProcessSync();
      } else {
        ProcessSync();
        ProcessWdt();
      }
    }

    method DoReset(fusePeriod: nat, fuseWindow: nat)
      modifies this
      ensures View() == Step(old(View()), Reset(fusePeriod, fuseWindow))
    {
      lock, resetRequested := false, false;
      wdt, sync, wdtFirst, firstWdr := Off, Off, true, true;
      period, window := fusePeriod, fuseWindow;
      if period != 0 {
        lock := true;
        RestartTimer();
      }
    }
  }
}
