/** The counter shared by the timers. It is advanced in two ways: one tick at a time, or by asking
    for the delay to the next event and crediting all the ticks at once when that has elapsed. */
module TimerCounter {
  import opened Arith

  datatype Slope = Up | Down | Double

  datatype Compare = Compare(value: int, enabled: bool)

  /** `wrap` is one more than the largest value of the counter. */
  datatype Counter = Counter(wrap: int, counter: int, top: int, slope: Slope, countdown: bool, cmp: seq<Compare>)

  /** Events reached by a tick; `cmp` tells the compare channels. */
  datatype Reached = Reached(max: bool, top: bool, bottom: bool, cmp: seq<bool>)

  predicate Valid(c: Counter) {
    && 0 <= c.counter < c.wrap && 0 <= c.top < c.wrap
    && forall i | 0 <= i < |c.cmp| :: InRange(c.cmp[i], c.wrap)
  }

  predicate InRange(m: Compare, wrap: int) { 0 <= m.value < wrap }

  predicate Any(r: Reached) { r.max || r.top || r.bottom || exists i | 0 <= i < |r.cmp| :: r.cmp[i] }

  // ---------- One tick ----------

  /** The events of a manual tick, from the value of the counter before it. */
  function ReachedNow(c: Counter): (r: Reached)
    ensures |r.cmp| == |c.cmp|
  {
    Reached(c.counter == c.wrap - 1, c.counter == c.top, c.counter == 0,
            seq(|c.cmp|, i requires 0 <= i < |c.cmp| => c.cmp[i].enabled && c.counter == c.cmp[i].value))
  }

  /** At the top the counter goes back to zero, or turns round. A top of zero holds it there. */
  function AtTop(c: Counter): Counter {
    if c.slope == Up || c.top == 0 then c.(counter := 0)
    else if c.slope == Double && !c.countdown then c.(countdown := true, counter := c.top - 1)
    else c
  }

  function AtBottom(c: Counter): Counter {
    if c.top == 0 then c
    else if c.slope == Down then c.(counter := c.top)
    else if c.slope == Double && c.countdown then c.(countdown := false, counter := 1)
    else c
  }

  /** `n` ticks, at the last of which the events are reached. */
  function Advanced(c: Counter, n: int, r: Reached): Counter {
    var moved := c.(counter := if c.countdown then c.counter - n else c.counter + n);
    var wrapped := if r.max && !r.top then moved.(counter := 0) else moved;
    var turned := if r.top then AtTop(wrapped) else wrapped;
    if r.bottom then AtBottom(turned) else turned
  }

  function Tick(c: Counter): Counter { Advanced(c, 1, ReachedNow(c)) }

  // ---------- Many ticks at once ----------

  function TicksTo(c: Counter, event: int): int {
    var ticks := (if c.countdown then c.counter - event else event - c.counter) + 1;
    if ticks <= 0 then ticks + c.wrap else ticks
  }

  function TicksToMax(c: Counter): int { if c.countdown then c.wrap else TicksTo(c, c.wrap - 1) }

  function Min(a: int, b: int): int { if b < a then b else a }

  /** The nearest of the first `n` compare channels, or `limit`. */
  function TicksToCompare(c: Counter, n: nat, limit: int): int
    requires n <= |c.cmp|
  {
    if n == 0 then limit
    else
      var t := TicksToCompare(c, n - 1, limit);
      if c.cmp[n - 1].enabled then Min(t, TicksTo(c, c.cmp[n - 1].value)) else t
  }

  function Delay(c: Counter): int {
    Min(Min(TicksToCompare(c, |c.cmp|, TicksToMax(c)), TicksTo(c, c.top)), TicksTo(c, 0))
  }

  /** The events found at the end of the delay. */
  function ReachedNext(c: Counter): (r: Reached)
    ensures |r.cmp| == |c.cmp|
  {
    var n := Delay(c);
    Reached(n == TicksToMax(c), n == TicksTo(c, c.top), n == TicksTo(c, 0),
            seq(|c.cmp|, i requires 0 <= i < |c.cmp| => c.cmp[i].enabled && n == TicksTo(c, c.cmp[i].value)))
  }

  function Ticks(c: Counter, n: nat): Counter {
    if n == 0 then c else Tick(Ticks(c, n - 1))
  }

  // ---------- The two ways agree ----------

  lemma {:induction false} CompareBounds(c: Counter, n: nat, limit: int)
    requires n <= |c.cmp|
    ensures TicksToCompare(c, n, limit) <= limit
    ensures forall i | 0 <= i < n :: c.cmp[i].enabled ==> TicksToCompare(c, n, limit) <= TicksTo(c, c.cmp[i].value)
  {
    if n > 0 { CompareBounds(c, n - 1, limit); }
  }

  lemma {:induction false} CompareIsPositive(c: Counter, n: nat, limit: int)
    requires n <= |c.cmp| && Valid(c) && limit >= 1
    ensures TicksToCompare(c, n, limit) >= 1
  {
    if n > 0 {
      CompareIsPositive(c, n - 1, limit);
      assert InRange(c.cmp[n - 1], c.wrap);
    }
  }

  /** The delay is positive and ends no later than any event. */
  lemma DelayIsNearest(c: Counter)
    requires Valid(c)
    ensures 1 <= Delay(c) <= TicksToMax(c) && Delay(c) <= TicksTo(c, c.top) && Delay(c) <= TicksTo(c, 0)
    ensures forall i | 0 <= i < |c.cmp| :: c.cmp[i].enabled ==> Delay(c) <= TicksTo(c, c.cmp[i].value)
  {
    CompareBounds(c, |c.cmp|, TicksToMax(c));
    CompareIsPositive(c, |c.cmp|, TicksToMax(c));
  }

  /** The counter `k` quiet ticks later. */
  function Moved(c: Counter, k: int): Counter {
    c.(counter := if c.countdown then c.counter - k else c.counter + k)
  }

  /** A counter going down is not at the largest value. */
  predicate Proper(c: Counter) { Valid(c) && (c.countdown ==> c.counter < c.wrap - 1) }

  predicate Inside(c: Counter, k: int) { 0 <= k && 0 <= c.counter < c.wrap && 0 <= Moved(c, k).counter < c.wrap }

  /** A value is met at the tick that the delay to it says. */
  lemma MetAt(c: Counter, event: int, k: int)
    requires Inside(c, k) && 0 <= event < c.wrap
    ensures Moved(c, k).counter == event <==> TicksTo(c, event) == k + 1
  {
  }

  lemma CompareMetAt(c: Counter, i: nat, k: int)
    requires Valid(c) && Inside(c, k) && i < |c.cmp|
    ensures Moved(c, k).counter == c.cmp[i].value <==> TicksTo(c, c.cmp[i].value) == k + 1
  {
    assert InRange(c.cmp[i], c.wrap);
    MetAt(c, c.cmp[i].value, k);
  }

  lemma MaxMetAt(c: Counter, k: int)
    requires Proper(c) && Inside(c, k)
    ensures Moved(c, k).counter == c.wrap - 1 <==> TicksToMax(c) == k + 1
  {
    MetAt(c, c.wrap - 1, k);
  }

  /** Until the delay has elapsed no tick reaches an event. */
  lemma QuietUntilDelay(c: Counter, k: nat)
    requires Proper(c) && k + 1 < Delay(c)
    ensures !Any(ReachedNow(Moved(c, k)))
  {
    DelayIsNearest(c);
    MaxMetAt(c, k);
    MetAt(c, c.top, k);
    MetAt(c, 0, k);
    forall i | 0 <= i < |c.cmp| ensures !ReachedNow(Moved(c, k)).cmp[i] {
      CompareMetAt(c, i, k);
    }
  }

  /** At the end of the delay the events are those announced. */
  lemma ReachedAtDelay(c: Counter, k: nat)
    requires Proper(c) && k + 1 == Delay(c)
    ensures ReachedNow(Moved(c, k)) == ReachedNext(c)
  {
    DelayIsNearest(c);
    MaxMetAt(c, k);
    MetAt(c, c.top, k);
    MetAt(c, 0, k);
    forall i | 0 <= i < |c.cmp| ensures ReachedNow(Moved(c, k)).cmp[i] == ReachedNext(c).cmp[i] {
      CompareMetAt(c, i, k);
    }
  }

  lemma {:induction false} TicksBeforeDelay(c: Counter, k: nat)
    requires Proper(c) && k < Delay(c)
    ensures Ticks(c, k) == Moved(c, k)
  {
    if k > 0 {
      TicksBeforeDelay(c, k - 1);
      QuietUntilDelay(c, k - 1);
    }
  }

  lemma AdvancedAfter(c: Counter, k: nat, r: Reached)
    ensures Advanced(Moved(c, k), 1, r) == Advanced(c, k + 1, r)
  {
  }

  /** Crediting the ticks all at once when the delay has elapsed is the same as counting them one
      by one: the counter ends in the same state, and the last tick reaches the events announced. */
  lemma BatchedTicks(c: Counter, k: nat)
    requires Proper(c) && k + 1 == Delay(c)
    ensures ReachedNow(Ticks(c, k)) == ReachedNext(c) && Any(ReachedNext(c))
    ensures Ticks(c, k + 1) == Advanced(c, k + 1, ReachedNext(c))
  {
    TicksBeforeDelay(c, k);
    ReachedAtDelay(c, k);
    DelayIsSome(c);
    AdvancedAfter(c, k, ReachedNext(c));
  }

  /** And no tick before the last reaches any. */
  lemma NoEventIsMissed(c: Counter, k: nat)
    requires Proper(c) && k + 1 < Delay(c)
    ensures !Any(ReachedNow(Ticks(c, k)))
  {
    TicksBeforeDelay(c, k);
    QuietUntilDelay(c, k);
  }

  /** The two ways of counting reach the same events at the same ticks. */
  ghost predicate SameEvents(c: Counter) {
    && Delay(c) >= 1
    && ReachedNow(Ticks(c, Delay(c) - 1)) == ReachedNext(c)
    && forall k: nat | k + 1 < Delay(c) :: !Any(ReachedNow(Ticks(c, k)))
  }

  /** They do exactly when a counter going down is not at the largest value, which a manual tick
      takes for the maximum of a counter going up. */
  lemma SameEventsIff(c: Counter)
    requires Valid(c) && c.wrap > 1
    ensures SameEvents(c) <==> Proper(c)
  {
    DelayIsNearest(c);
    if Proper(c) {
      BatchedTicks(c, Delay(c) - 1);
      forall k: nat | k + 1 < Delay(c) ensures !Any(ReachedNow(Ticks(c, k))) { NoEventIsMissed(c, k); }
    } else {
      MaxIsMistaken(c);
    }
  }

  lemma MaxIsMistaken(c: Counter)
    requires Valid(c) && c.wrap > 1 && c.countdown && c.counter == c.wrap - 1
    ensures !SameEvents(c)
  {
    assert Ticks(c, 0) == c && ReachedNow(c).max && Any(ReachedNow(c));
    DelayIsNearest(c);
  }

  /** And then the counter itself goes wrong: unless it is at its top, it is set to zero. */
  lemma CountdownFromMax(c: Counter)
    requires Valid(c) && c.countdown && c.counter == c.wrap - 1 && 0 < c.top < c.counter
    ensures Tick(c).counter == 0 && Moved(c, 1).counter == c.wrap - 2
  {
  }

  /** The delay is the distance of one of the events. */
  lemma DelayIsSome(c: Counter)
    ensures Any(ReachedNext(c))
  {
    CompareIsSome(c, |c.cmp|, TicksToMax(c));
    var n := TicksToCompare(c, |c.cmp|, TicksToMax(c));
    if Delay(c) == n && n != TicksToMax(c) {
      var i :| 0 <= i < |c.cmp| && c.cmp[i].enabled && n == TicksTo(c, c.cmp[i].value);
      assert ReachedNext(c).cmp[i];
    }
  }

  lemma {:induction false} CompareIsSome(c: Counter, n: nat, limit: int)
    requires n <= |c.cmp|
    ensures var t := TicksToCompare(c, n, limit);
            t == limit || exists i :: 0 <= i < n && c.cmp[i].enabled && t == TicksTo(c, c.cmp[i].value)
  {
    if n > 0 { CompareIsSome(c, n - 1, limit); }
  }

  /** `k` ticks later every event still to come is `k` ticks closer. */
  lemma CloserBy(c: Counter, event: int, k: nat)
    requires Inside(c, k) && 0 <= event < c.wrap && k < TicksTo(c, event)
    ensures TicksTo(Moved(c, k), event) == TicksTo(c, event) - k
  {
  }

  lemma AllCloserBy(c: Counter, k: nat)
    requires Proper(c) && k < Delay(c)
    ensures var d := Moved(c, k);
            && Valid(d) && TicksTo(d, c.top) == TicksTo(c, c.top) - k && TicksTo(d, 0) == TicksTo(c, 0) - k
            && (if c.countdown then Delay(c) < TicksToMax(c) && Delay(d) < TicksToMax(d)
                else TicksToMax(d) == TicksToMax(c) - k)
    ensures forall i | 0 <= i < |c.cmp| :: c.cmp[i].enabled ==>
              TicksTo(Moved(c, k), c.cmp[i].value) == TicksTo(c, c.cmp[i].value) - k
  {
    var d := Moved(c, k);
    DelayIsNearest(c);
    DelayIsNearest(d);
    CloserBy(c, c.top, k);
    CloserBy(c, 0, k);
    if !c.countdown { CloserBy(c, c.wrap - 1, k); }
    forall i | 0 <= i < |c.cmp| && c.cmp[i].enabled ensures TicksTo(d, c.cmp[i].value) == TicksTo(c, c.cmp[i].value) - k {
      assert InRange(c.cmp[i], c.wrap);
      CloserBy(c, c.cmp[i].value, k);
    }
  }

  lemma DelayCloserBy(c: Counter, k: nat)
    requires Proper(c) && k < Delay(c)
    ensures Delay(Moved(c, k)) == Delay(c) - k
  {
    var d := Moved(c, k);
    AllCloserBy(c, k);
    DelayIsNearest(c);
    DelayIsNearest(d);
    DelayIsSome(c);
    DelayIsSome(d);
  }

  /** Ticks may also be credited before the delay has elapsed, as every register access does: the
      delay left, and the events at its end, are those of the delay that was interrupted. */
  lemma PartialCredit(c: Counter, k: nat)
    requires Proper(c) && k < Delay(c)
    ensures Delay(Moved(c, k)) == Delay(c) - k && ReachedNext(Moved(c, k)) == ReachedNext(c)
    ensures Ticks(c, k) == Moved(c, k)
  {
    TicksBeforeDelay(c, k);
    AllCloserBy(c, k);
    DelayCloserBy(c, k);
    assert ReachedNext(Moved(c, k)).cmp == ReachedNext(c).cmp;
  }

  lemma TickKeepsValid(c: Counter)
    requires Valid(c) && c.slope == Up && !c.countdown
    ensures Valid(Tick(c)) && Tick(c).slope == Up && !Tick(c).countdown
    ensures Tick(c) == c.(counter := if c.counter == c.top || c.counter == c.wrap - 1 then 0 else c.counter + 1)
  {
  }

  // ---------- Runs of any length ----------

  /** The events of tick number `i` of a run, the first being number 0, when ticks are counted one
      by one. */
  function EventsOf(c: Counter, i: nat): Reached { ReachedNow(Ticks(c, i)) }

  function Nothing(channels: nat): Reached { Reached(false, false, false, seq(channels, _ => false)) }

  /** The counter as the end of a delay leaves it. */
  function AfterDelay(c: Counter): Counter { Advanced(c, Delay(c), ReachedNext(c)) }

  /** The events of the same tick when the ticks are credited one delay after the other: a delay is
      silent but for its last tick. */
  function BatchedEventsOf(c: Counter, i: nat): Reached
    decreases i
  {
    var d := Delay(c);
    if d < 1 || i + 1 < d then Nothing(|c.cmp|)
    else if i + 1 == d then ReachedNext(c)
    else BatchedEventsOf(AfterDelay(c), i - d)
  }

  /** The counter after `n` ticks credited in that way. */
  function Batched(c: Counter, n: nat): Counter
    decreases n
  {
    var d := Delay(c);
    if d < 1 || n < d then Moved(c, n) else Batched(AfterDelay(c), n - d)
  }

  /** The direction agrees with the slope, as every way of setting either leaves them. */
  predicate Coherent(c: Counter) {
    Valid(c) && c.wrap > 1 && (c.slope == Up ==> !c.countdown) && (c.slope == Down ==> c.countdown)
  }

  /** A counter going down is never at the largest value, not even when it starts again. */
  predicate Steady(c: Counter) { Coherent(c) && Proper(c) && (c.slope == Down ==> c.top < c.wrap - 1) }

  lemma TickKeepsUp(c: Counter)
    requires Steady(c) && c.slope == Up
    ensures Steady(Tick(c))
  {
  }

  lemma TickKeepsDown(c: Counter)
    requires Coherent(c) && Proper(c) && c.slope == Down
    ensures Tick(c) == c.(counter := if c.counter > 0 then c.counter - 1 else c.top)
  {
  }

  lemma TickKeepsDouble(c: Counter)
    requires Steady(c) && c.slope == Double
    ensures Steady(Tick(c))
  {
  }

  lemma {:induction false} TicksKeepSteady(c: Counter, n: nat)
    requires Steady(c)
    ensures Steady(Ticks(c, n))
  {
    if n > 0 {
      TicksKeepSteady(c, n - 1);
      var b := Ticks(c, n - 1);
      match b.slope
      case Up => TickKeepsUp(b);
      case Down => TickKeepsDown(b);
      case Double => TickKeepsDouble(b);
    }
  }

  lemma {:induction false} TicksAdd(c: Counter, m: nat, n: nat)
    ensures Ticks(c, m + n) == Ticks(Ticks(c, m), n)
  {
    if n > 0 { TicksAdd(c, m, n - 1); }
  }

  lemma SilentUntilDelay(c: Counter, i: nat)
    requires Proper(c) && i + 1 < Delay(c)
    ensures EventsOf(c, i) == Nothing(|c.cmp|)
  {
    NoEventIsMissed(c, i);
    TicksBeforeDelay(c, i);
    assert EventsOf(c, i).cmp == Nothing(|c.cmp|).cmp;
  }

  lemma DelayKeepsSteady(c: Counter)
    requires Steady(c)
    ensures Steady(AfterDelay(c))
  {
    DelayIsNearest(c);
    DelayElapses(c, Delay(c));
    TicksKeepSteady(c, Delay(c));
  }

  /** Ticks beyond a delay are those of the counter that it leaves. */
  lemma BeyondDelay(c: Counter, n: nat)
    requires Proper(c) && Delay(c) <= n
    ensures Delay(c) >= 1 && Ticks(c, n) == Ticks(AfterDelay(c), n - Delay(c))
  {
    DelayIsNearest(c);
    DelayElapses(c, Delay(c));
    TicksAdd(c, Delay(c), n - Delay(c));
  }

  lemma DelayElapses(c: Counter, d: nat)
    requires Proper(c) && d == Delay(c)
    ensures Ticks(c, d) == AfterDelay(c)
  {
    DelayIsNearest(c);
    BatchedTicks(c, d - 1);
  }

  /** Any number of delays: whatever its length, a run reaches the same events at the same ticks
      whether the ticks are credited one delay after the other or counted one by one. */
  lemma {:induction false} SameRunEvents(c: Counter, i: nat)
    requires Steady(c)
    ensures BatchedEventsOf(c, i) == EventsOf(c, i)
    decreases i
  {
    DelayIsNearest(c);
    if i + 1 < Delay(c) {
      SilentUntilDelay(c, i);
    } else if i + 1 == Delay(c) {
      BatchedTicks(c, i);
    } else {
      DelayKeepsSteady(c);
      BeyondDelay(c, i);
      SameRunEvents(AfterDelay(c), i - Delay(c));
    }
  }

  /** And the counter ends in the same state. */
  lemma {:induction false} SameRunCounter(c: Counter, n: nat)
    requires Steady(c)
    ensures Batched(c, n) == Ticks(c, n)
    decreases n
  {
    DelayIsNearest(c);
    if n < Delay(c) {
      TicksBeforeDelay(c, n);
    } else {
      DelayKeepsSteady(c);
      BeyondDelay(c, n);
      SameRunCounter(AfterDelay(c), n - Delay(c));
    }
  }

  /** So the moment at which ticks are credited never matters: an access to the counter after any
      `m` ticks starts the delays afresh, and the events still to come are the same. */
  lemma AccessChangesNothing(c: Counter, m: nat, i: nat)
    requires Steady(c)
    ensures BatchedEventsOf(Batched(c, m), i) == BatchedEventsOf(c, m + i)
    ensures Batched(Batched(c, m), i) == Batched(c, m + i)
  {
    TicksKeepSteady(c, m);
    TicksAdd(c, m, i);
    SameRunCounter(c, m);
    SameRunEvents(c, m + i);
    SameRunEvents(Ticks(c, m), i);
    SameRunCounter(c, m + i);
    SameRunCounter(Ticks(c, m), i);
  }

  lemma TellsApart(c: Counter)
    requires Coherent(c) && !Proper(c)
    ensures BatchedEventsOf(c, 0) != EventsOf(c, 0)
  {
    assert Ticks(c, 0) == c && EventsOf(c, 0).max;
    DelayIsNearest(c);
  }

  /** A difference that shows after a delay shows in the run that begins with it. */
  lemma DifferenceRemains(c: Counter, i: nat)
    requires Proper(c) && BatchedEventsOf(AfterDelay(c), i) != EventsOf(AfterDelay(c), i)
    ensures Delay(c) >= 1 && BatchedEventsOf(c, Delay(c) + i) != EventsOf(c, Delay(c) + i)
  {
    DelayIsNearest(c);
    BeyondDelay(c, Delay(c) + i);
  }

  /** Going down from a top at the largest value, a delay brings the counter lower, or to that top. */
  lemma GoesLower(c: Counter)
    requires Coherent(c) && Proper(c) && c.slope == Down && c.top == c.wrap - 1
    ensures var e := AfterDelay(c);
            Coherent(e) && e.slope == Down && e.top == e.wrap - 1 && (Proper(e) ==> e.counter < c.counter)
  {
    DelayIsNearest(c);
    var k := Delay(c) - 1;
    BatchedTicks(c, k);
    TicksBeforeDelay(c, k);
    AllCloserBy(c, k);
    TickKeepsDown(Moved(c, k));
  }

  lemma {:induction false} UnsteadyShows(c: Counter) returns (i: nat)
    requires Coherent(c) && !Steady(c)
    ensures BatchedEventsOf(c, i) != EventsOf(c, i)
    decreases Proper(c), c.counter
  {
    if !Proper(c) {
      TellsApart(c);
      i := 0;
    } else {
      GoesLower(c);
      i := UnsteadyShows(AfterDelay(c));
      DifferenceRemains(c, i);
      i := Delay(c) + i;
    }
  }

  /** Exactly: the two ways of counting reach the same events over every run if and only if a counter
      going down is not at the largest value and does not start again there. */
  lemma SameRunsIff(c: Counter)
    requires Coherent(c)
    ensures (forall i: nat :: BatchedEventsOf(c, i) == EventsOf(c, i)) <==> Steady(c)
  {
    if Steady(c) {
      forall i: nat ensures BatchedEventsOf(c, i) == EventsOf(c, i) { SameRunEvents(c, i); }
    } else {
      var i := UnsteadyShows(c);
    }
  }

  // ---------- The three waveforms ----------

  // `Cycle(n, k)` is `n` modulo `k`.

  /** Counting up: the counter goes from zero to the top and starts again. */
  lemma {:induction false} SawtoothUp(c: Counter, n: nat)
    requires Valid(c) && c.slope == Up && !c.countdown && c.counter == 0
    ensures Ticks(c, n) == c.(counter := Cycle(n, c.top + 1))
  {
    if n > 0 {
      SawtoothUp(c, n - 1);
      UpTick(Ticks(c, n - 1));
    }
  }

  lemma UpTick(c: Counter)
    requires Valid(c) && c.slope == Up && !c.countdown && c.counter <= c.top
    ensures Tick(c) == c.(counter := if c.counter == c.top then 0 else c.counter + 1)
  {
  }

  /** Counting down: from the top to zero, and again from the top. */
  lemma {:induction false} SawtoothDown(c: Counter, n: nat)
    requires Steady(c) && c.slope == Down && c.counter == c.top
    ensures Ticks(c, n) == c.(counter := c.top - Cycle(n, c.top + 1))
  {
    if n > 0 {
      SawtoothDown(c, n - 1);
      var b := Ticks(c, n - 1);
      TicksKeepSteady(c, n - 1);
      TickKeepsDown(b);
    }
  }

  /** Double slope: up to the top and down to zero, without staying at either. */
  lemma {:induction false} Triangle(c: Counter, n: nat)
    requires Steady(c) && c.slope == Double && !c.countdown && c.counter == 0 && c.top > 0
    ensures var m := Cycle(n, 2 * c.top);
            Ticks(c, n) == c.(counter := if m <= c.top then m else 2 * c.top - m,
                              countdown := n > 0 && (m == 0 || m > c.top))
  {
    if n > 0 {
      Triangle(c, n - 1);
      TicksKeepSteady(c, n - 1);
      DoubleTick(Ticks(c, n - 1));
    }
  }

  lemma DoubleTick(c: Counter)
    requires Steady(c) && c.slope == Double && c.top > 0 && c.counter <= c.top
    ensures Tick(c) == if c.countdown then (if c.counter == 0 then c.(countdown := false, counter := 1)
                                            else c.(counter := c.counter - 1))
                       else (if c.counter == c.top then c.(countdown := true, counter := c.top - 1)
                             else c.(counter := c.counter + 1))
  {
  }

  /** A top of zero holds the counter there, in the direction it has. */
  lemma {:induction false} TopOfZeroHolds(c: Counter, n: nat)
    requires Valid(c) && c.top == 0 && c.counter == 0
    ensures Ticks(c, n) == c
  {
    if n > 0 { TopOfZeroHolds(c, n - 1); }
  }

  // ---------- The object ----------

  class Device {
    const wrap: int
    var counter: int
    var top: int
    var slope: Slope
    var countdown: bool
    const cmp: array<Compare>

    ghost function View(): Counter
      reads this, cmp
    {
      Counter(wrap, counter, top, slope, countdown, cmp[..])
    }

    constructor (wrapAt: int, channels: nat)
      ensures fresh(cmp) && cmp.Length == channels
      ensures wrap == wrapAt && counter == 0 && top == wrapAt - 1 && slope == Up && !countdown
      ensures forall i :: 0 <= i < cmp.Length ==> cmp[i] == Compare(0, false)
    {
      wrap, counter, top, slope, countdown := wrapAt, 0, wrapAt - 1, Up, false;
      cmp := new Compare[channels](_ => Compare(0, false));
    }

    method TicksToEvent(event: int) returns (ticks: int)
      ensures ticks == TicksTo(View(), event)
    {
      if countdown {
        ticks := counter - event + 1;
      } else {
        ticks := event - counter + 1;
      }
      if ticks <= 0 {
        ticks := ticks + wrap;
      }
    }

    /** The delay to the next event, and the events it ends with. */
    method DelayToEvent() returns (ticks: int, next: Reached)
      ensures ticks == Delay(View()) && next == ReachedNext(View())
    {
      var toMax: int;
      if countdown {
        toMax := wrap;
      } else {
        toMax := TicksToEvent(wrap - 1);
      }
      ticks := toMax;
      for i := 0 to cmp.Length
        invariant ticks == TicksToCompare(View(), i, toMax)
      {
        if cmp[i].enabled {
          var t := TicksToEvent(cmp[i].value);
          if t < ticks {
            ticks := t;
          }
        }
      }
      var toTop := TicksToEvent(top);
      if toTop < ticks {
        ticks := toTop;
      }
      var toBottom := TicksToEvent(0);
      if toBottom < ticks {
        ticks := toBottom;
      }
      var flags := FlagCompares(ticks);
      next := Reached(ticks == toMax, ticks == toTop, ticks == toBottom, flags);
    }

    method FlagCompares(ticks: int) returns (flags: seq<bool>)
      ensures |flags| == cmp.Length
      ensures forall i :: 0 <= i < |flags| ==> flags[i] == (cmp[i].enabled && ticks == TicksTo(View(), cmp[i].value))
    {
      flags := [];
      for i := 0 to cmp.Length
        invariant |flags| == i
        invariant forall k :: 0 <= k < i ==> flags[k] == (cmp[k].enabled && ticks == TicksTo(View(), cmp[k].value))
      {
        var t := TicksToEvent(cmp[i].value);
        flags := flags + [cmp[i].enabled && ticks == t];
      }
    }

    method ProcessTicks(ticks: int, next: Reached)
      modifies `counter, `countdown
      ensures View() == Advanced(old(View()), ticks, next)
    {
      if countdown {
        counter := counter - ticks;
      } else {
        counter := counter + ticks;
      }
      if next.max && !next.top {
        counter := 0;
      }
      if next.top {
        if slope == Up || top == 0 {
          counter := 0;
        } else if slope == Double && !countdown {
          countdown := true;
          counter := top - 1;
        }
      }
      if next.bottom && top != 0 {
        if slope == Down {
          counter := top;
        } else if slope == Double && countdown {
          countdown := false;
          counter := 1;
        }
      }
    }

    /** A manual tick. */
    method AddTick() returns (reached: Reached)
      modifies `counter, `countdown
      ensures View() == Tick(old(View())) && reached == ReachedNow(old(View()))
    {
      var flags := [];
      for i := 0 to cmp.Length
        modifies {}
        invariant |flags| == i
        invariant forall k :: 0 <= k < i ==> flags[k] == (cmp[k].enabled && counter == cmp[k].value)
      {
        flags := flags + [cmp[i].enabled && counter == cmp[i].value];
      }
      reached := Reached(counter == wrap - 1, counter == top, counter == 0, flags);
      assert reached == ReachedNow(View());
      ProcessTicks(1, reached);
    }
  }
}
