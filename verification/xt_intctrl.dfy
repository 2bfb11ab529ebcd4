/** The XT interrupt controller: three priority levels, nested execution tracked by three
    STATUS bits, and a static or round-robin scan of the level 0 vectors.

    `Serves` says declaratively which vector must be served next; the scan that the
    controller performs is proved to find exactly that vector. The theorems are about
    arbitrary runs of raise, cancel, acknowledge, return and register-write events. */
module XtIntCtrl {
  import opened Arith

  datatype Priority = Level0 | Level1 | Nmi

  /** A request to the CPU; the handler is at flash address `base + slot * vectorSize`. */
  datatype Irq = NoIrq | Irq(vector: nat, base: nat, slot: nat, nmi: bool)

  datatype Config = Config(
    vectorCount: nat,
    used: seq<bool>,         // vectors that have a registered source
    appCodeSize: nat,        // size of the application code section
    appCodeBase: nat,        // flash addresses of the two candidate vector tables
    bootBase: nat)
  {
    ghost predicate Valid() {
      2 <= vectorCount <= 256 && |used| == vectorCount
    }
  }

  /** The abstract value of the controller. STATUS, CTRLA, LVL0PRI and LVL1VEC are kept as
      their fields; `irq` is the request last computed for the CPU. */
  datatype State = State(
    raised: seq<bool>,
    nmiEx: bool, lvl1Ex: bool, lvl0Ex: bool,
    roundRobin: bool, compact: bool, ivsel: bool,
    lvl0Pri: nat, lvl1Vec: nat,
    irq: Irq)

  ghost predicate WellFormed(c: Config, s: State) {
    c.Valid() && |s.raised| == c.vectorCount && s.lvl0Pri < 256 && s.lvl1Vec < c.vectorCount
  }

  // ---------- Which vector is served next ----------

  function PriorityOf(s: State, v: nat): Priority {
    if v == 1 then Nmi else if v > 0 && v == s.lvl1Vec then Level1 else Level0
  }

  function Height(p: Priority): nat {
    match p case Level0 => 1 case Level1 => 2 case Nmi => 3
  }

  /** Height of the highest level whose STATUS bit is set, 0 when no handler is executing. */
  function Executing(s: State): nat {
    if s.nmiEx then 3 else if s.lvl1Ex then 2 else if s.lvl0Ex then 1 else 0
  }

  /** Position of a vector in the level 0 order: by index when LVL0PRI is zero, otherwise
      starting just after LVL0PRI and wrapping around. */
  function ScanRank(c: Config, pri: nat, v: nat): (r: nat)
    requires c.Valid() && v < c.vectorCount
    ensures r < c.vectorCount
  {
    if pri == 0 then v else (v - pri - 1) % c.vectorCount
  }

  /** `v` is raised and may interrupt the executing level, and no other raised vector is
      ahead of it by priority or, at equal priority, by rank. */
  ghost predicate Serves(c: Config, s: State, v: nat)
    requires WellFormed(c, s)
  {
    && v < c.vectorCount && s.raised[v]
    && Height(PriorityOf(s, v)) > Executing(s)
    && forall w | 0 <= w < c.vectorCount && s.raised[w] && w != v ::
         || Height(PriorityOf(s, w)) < Height(PriorityOf(s, v))
         || (PriorityOf(s, w) == PriorityOf(s, v) && ScanRank(c, s.lvl0Pri, v) < ScanRank(c, s.lvl0Pri, w))
  }

  ghost function NextVector(c: Config, s: State): (r: int)
    requires WellFormed(c, s)
    ensures -1 <= r < c.vectorCount
    ensures r >= 0 <==> exists v: nat :: Serves(c, s, v)
    ensures r >= 0 ==> Serves(c, s, r)
  {
    if exists v: nat :: Serves(c, s, v) then var v: nat :| Serves(c, s, v); v else -1
  }

  lemma ServedVectorIsUnique(c: Config, s: State, v: nat, w: nat)
    requires WellFormed(c, s) && Serves(c, s, v) && Serves(c, s, w)
    ensures v == w
  {
  }

  // ---------- Arithmetic of the circular scan ----------

  /** The vector visited at step `i` of the circular scan has rank `i - 1`, and is the only one. */
  lemma ScanVisits(c: Config, pri: nat, i: nat, w: nat)
    requires c.Valid() && pri > 0 && 1 <= i <= c.vectorCount && w < c.vectorCount
    ensures w == (i + pri) % c.vectorCount <==> ScanRank(c, pri, w) == i - 1
  {
    var n := c.vectorCount;
    if w == (i + pri) % n {
      var q := (i + pri) / n;
      assert w - pri - 1 == (i - 1) + (-q) * n;
      ModOfShift(i - 1, -q, n);
    }
    if (w - pri - 1) % n == i - 1 {
      var q := (w - pri - 1) / n;
      assert i + pri == w + (-q) * n;
      ModOfShift(w, -q, n);
    }
  }

  lemma RankIsInjective(c: Config, pri: nat, v: nat, w: nat)
    requires c.Valid() && v < c.vectorCount && w < c.vectorCount
    requires ScanRank(c, pri, v) == ScanRank(c, pri, w)
    ensures v == w
  {
    if pri > 0 {
      ScanVisits(c, pri, ScanRank(c, pri, v) + 1, v);
      ScanVisits(c, pri, ScanRank(c, pri, v) + 1, w);
    }
  }

  // ---------- Progress: something is served whenever something may be ----------

  /** Among the raised vectors below `k` there is one of least rank. */
  lemma {:induction false} LeastRank(c: Config, s: State, k: nat) returns (m: nat)
    requires WellFormed(c, s) && k <= c.vectorCount
    requires exists v :: 0 <= v < k && s.raised[v]
    ensures m < k && s.raised[m]
    ensures forall w | 0 <= w < k && s.raised[w] && w != m ::
              ScanRank(c, s.lvl0Pri, m) < ScanRank(c, s.lvl0Pri, w)
  {
    if exists v :: 0 <= v < k - 1 && s.raised[v] {
      m := LeastRank(c, s, k - 1);
      if s.raised[k - 1] {
        if ScanRank(c, s.lvl0Pri, k - 1) == ScanRank(c, s.lvl0Pri, m) { RankIsInjective(c, s.lvl0Pri, k - 1, m); }
        if ScanRank(c, s.lvl0Pri, k - 1) < ScanRank(c, s.lvl0Pri, m) { m := k - 1; }
      }
    } else {
      m := k - 1;
    }
  }

  /** A raised vector above the executing level is never left without an interrupt request. */
  lemma Progress(c: Config, s: State, v: nat)
    requires WellFormed(c, s) && v < c.vectorCount && s.raised[v]
    requires Height(PriorityOf(s, v)) > Executing(s)
    ensures NextVector(c, s) >= 0
  {
    if s.raised[1] && !s.nmiEx {
      assert Serves(c, s, 1);
    } else if s.lvl1Vec > 0 && s.raised[s.lvl1Vec] && PriorityOf(s, s.lvl1Vec) == Level1 && Executing(s) < 2 {
      assert Serves(c, s, s.lvl1Vec);
    } else {
      var m := LeastRank(c, s, c.vectorCount);
      assert PriorityOf(s, m) == Level0;
      assert Serves(c, s, m);
    }
  }

  // ---------- Events ----------

  datatype Event =
    | Raise(v: nat)
    | Cancel(v: nat)
    | Ack
    | Reti
    | WriteCtrlA(rr: bool, cvt: bool, ivsel: bool)
    | WriteLvl0Pri(value: nat)
    | WriteLvl1Vec(value: nat)
    | Reset

  predicate Legal(c: Config, e: Event) {
    match e
    case Raise(v) => v < c.vectorCount
    case Cancel(v) => v < c.vectorCount
    case WriteLvl0Pri(x) => x < 256
    case WriteLvl1Vec(x) => x < c.vectorCount
    case _ => true
  }

  function TableBase(c: Config, s: State): nat {
    if !s.ivsel && c.appCodeSize > 0 then c.appCodeBase else c.bootBase
  }

  /** Slot of a vector in the table: its index, or one slot a priority in compact mode. */
  function TableSlot(s: State, v: nat): nat {
    if !s.compact then v else match PriorityOf(s, v) case Level0 => 3 case Level1 => 2 case Nmi => 1
  }

  ghost function NextIrq(c: Config, s: State): Irq
    requires WellFormed(c, s)
  {
    var v := NextVector(c, s);
    if v < 0 then NoIrq
    else Irq(v, TableBase(c, s), TableSlot(s, v), PriorityOf(s, v) == Nmi)
  }

  ghost function Refresh(c: Config, s: State): State
    requires WellFormed(c, s)
  {
    s.(irq := NextIrq(c, s))
  }

  function Enter(s: State, p: Priority): State {
    match p case Level0 => s.(lvl0Ex := true) case Level1 => s.(lvl1Ex := true) case Nmi => s.(nmiEx := true)
  }

  /** Acknowledging a vector marks its level as executing; the vector itself stays raised. */
  function Acked(s: State, v: nat): State
    requires v < |s.raised|
  {
    var p := PriorityOf(s, v);
    var t := s.(lvl0Pri := if v > 0 && p == Level0 && s.roundRobin then v % 256 else s.lvl0Pri,
                raised := s.raised[v := true]);
    if v == 0 then t else Enter(t, p)
  }

  function Returned(s: State): State {
    if s.nmiEx then s.(nmiEx := false) else if s.lvl1Ex then s.(lvl1Ex := false) else s.(lvl0Ex := false)
  }

  function Initial(c: Config): State {
    State(seq(c.vectorCount, _ => false), false, false, false, false, false, false, 0, 0, NoIrq)
  }

  predicate IrqInRange(c: Config, s: State) {
    s.irq.Irq? ==> s.irq.vector < c.vectorCount
  }

  /** What an event does to everything but the cached request. */
  function Effect(c: Config, s: State, e: Event): (t: State)
    requires c.Valid() && |s.raised| == c.vectorCount && Legal(c, e) && IrqInRange(c, s)
  {
    match e
    case Raise(v) => if c.used[v] then s.(raised := s.raised[v := true]) else s
    case Cancel(v) => if c.used[v] then s.(raised := s.raised[v := false]) else s
    case Ack => if s.irq.Irq? then Acked(s, s.irq.vector) else s
    case Reti => Returned(s)
    case WriteCtrlA(rr, cvt, iv) => s.(roundRobin := rr, compact := cvt, ivsel := iv)
    case WriteLvl0Pri(x) => s.(lvl0Pri := x)
    case WriteLvl1Vec(x) => s.(lvl1Vec := x)
    case Reset => Initial(c)
  }

  /** The events after which the controller scans again. A cancellation does so only if it
      withdraws the vector of the cached request. */
  predicate Rescans(c: Config, s: State, e: Event)
    requires c.Valid() && |s.raised| == c.vectorCount && Legal(c, e)
  {
    match e
    case Raise(v) => c.used[v] && !s.raised[v]
    case Cancel(v) => c.used[v] && s.raised[v] && s.irq.Irq? && s.irq.vector == v
    case Ack => s.irq.Irq?
    case Reset => false
    case _ => true
  }

  lemma EffectIsWellFormed(c: Config, s: State, e: Event)
    requires WellFormed(c, s) && Legal(c, e) && IrqInRange(c, s)
    ensures WellFormed(c, Effect(c, s, e))
  {
  }

  ghost function Step(c: Config, s: State, e: Event): (t: State)
    requires WellFormed(c, s) && Legal(c, e) && IrqInRange(c, s)
    ensures WellFormed(c, t) && t == Effect(c, s, e).(irq := t.irq)
  {
    EffectIsWellFormed(c, s, e);
    if Rescans(c, s, e) then Refresh(c, Effect(c, s, e)) else Effect(c, s, e)
  }

  /** The cached request is the one a fresh scan would compute. */
  ghost predicate Coherent(c: Config, s: State) {
    WellFormed(c, s) && s.irq == NextIrq(c, s)
  }

  lemma NextIrqIgnoresCache(c: Config, s: State, r: Irq)
    requires WellFormed(c, s)
    ensures NextIrq(c, s.(irq := r)) == NextIrq(c, s)
  {
    var t := s.(irq := r);
    assert forall v: nat :: Serves(c, t, v) <==> Serves(c, s, v);
    if NextVector(c, s) >= 0 {
      ServedVectorIsUnique(c, s, NextVector(c, s), NextVector(c, t));
    }
  }

  /** Withdrawing a vector other than the next one leaves the next one unchanged. */
  lemma WithdrawingAnotherVector(c: Config, s: State, v: nat)
    requires WellFormed(c, s) && v < c.vectorCount && NextVector(c, s) != v
    ensures NextVector(c, s.(raised := s.raised[v := false])) == NextVector(c, s)
  {
    var t := s.(raised := s.raised[v := false]);
    if NextVector(c, t) >= 0 {
      Progress(c, s, NextVector(c, t));
    }
    if NextVector(c, s) >= 0 {
      assert Serves(c, t, NextVector(c, s));
      ServedVectorIsUnique(c, t, NextVector(c, s), NextVector(c, t));
    }
  }

  lemma NothingRaisedNothingServed(c: Config)
    requires c.Valid()
    ensures Coherent(c, Initial(c))
  {
  }

  /** Every step keeps the cached request fresh, even a cancellation that skips the rescan. */
  lemma StepKeepsCoherent(c: Config, s: State, e: Event)
    requires Coherent(c, s) && Legal(c, e)
    ensures Coherent(c, Step(c, s, e))
  {
    EffectIsWellFormed(c, s, e);
    if Rescans(c, s, e) {
      var u := Effect(c, s, e);
      NextIrqIgnoresCache(c, u, NextIrq(c, u));
    } else {
      SkippedRescan(c, s, e);
    }
  }

  lemma SkippedRescan(c: Config, s: State, e: Event)
    requires Coherent(c, s) && Legal(c, e) && !Rescans(c, s, e)
    ensures Coherent(c, Effect(c, s, e))
  {
    match e
    case Raise(v) => assert Effect(c, s, e).raised == s.raised;
    case Cancel(v) =>
      if c.used[v] && s.raised[v] { WithdrawingAnotherVector(c, s, v); }
      else { assert Effect(c, s, e).raised == s.raised; }
    case Reset => NothingRaisedNothingServed(c);
    case Ack =>
  }

  /** What a pending request says about the vector it names. */
  predicate Pending(c: Config, s: State) {
    s.irq.Irq? ==>
      && s.irq.vector < c.vectorCount == |s.raised| && s.raised[s.irq.vector]
      && Height(PriorityOf(s, s.irq.vector)) > Executing(s)
  }

  lemma CoherentIsPending(c: Config, s: State)
    requires Coherent(c, s)
    ensures Pending(c, s)
  {
  }

  ghost function Run(c: Config, s: State, es: seq<Event>): (t: State)
    requires Coherent(c, s) && forall e | e in es :: Legal(c, e)
    ensures Coherent(c, t)
    decreases |es|
  {
    if es == [] then s else
      StepKeepsCoherent(c, s, es[0]);
      Run(c, Step(c, s, es[0]), es[1..])
  }

  /** An acknowledge raises nothing new, and only a level 0 one moves LVL0PRI. */
  lemma AckedFrame(s: State, v: nat)
    requires v < |s.raised| && s.raised[v]
    ensures Acked(s, v).raised == s.raised && Acked(s, v).roundRobin == s.roundRobin
    ensures Acked(s, v).lvl1Vec == s.lvl1Vec
    ensures Acked(s, v).lvl0Pri ==
            if v > 0 && PriorityOf(s, v) == Level0 && s.roundRobin then v % 256 else s.lvl0Pri
  {
  }

  // ---------- What is raised, from the events alone ----------

  predicate Withdraws(e: Event, v: nat) { e == Cancel(v) || e == Reset }

  /** Nothing withdraws `v` from position `i` on. */
  predicate KeptFrom(es: seq<Event>, i: nat, v: nat) { forall l | i <= l < |es| :: !Withdraws(es[l], v) }

  /** `v` is raised at position `i` and not withdrawn after. */
  predicate RaisedAt(es: seq<Event>, i: nat, v: nat)
    requires i < |es|
  {
    es[i] == Raise(v) && KeptFrom(es, i + 1, v)
  }

  /** The last Raise, Cancel or Reset of `v` is a Raise. */
  predicate RaisedLast(es: seq<Event>, v: nat) { exists i: nat :: i < |es| && RaisedAt(es, i, v) }

  lemma KeptAfterFirst(es: seq<Event>, i: nat, v: nat)
    requires es != []
    ensures KeptFrom(es, i + 1, v) <==> KeptFrom(es[1..], i, v)
  {
    if KeptFrom(es, i + 1, v) {
      assert forall l | i <= l < |es| - 1 :: es[1..][l] == es[l + 1];
    }
    if KeptFrom(es[1..], i, v) {
      assert forall l | i + 1 <= l < |es| :: es[l] == es[1..][l - 1];
    }
  }

  lemma RaisedLastSplits(es: seq<Event>, v: nat)
    requires es != []
    ensures RaisedLast(es, v) <==> RaisedLast(es[1..], v) || (es[0] == Raise(v) && KeptFrom(es[1..], 0, v))
  {
    var rest := es[1..];
    KeptAfterFirst(es, 0, v);
    if RaisedLast(es, v) {
      var i: nat :| i < |es| && RaisedAt(es, i, v);
      if i > 0 {
        KeptAfterFirst(es, i, v);
        assert RaisedAt(rest, i - 1, v);
      }
    }
    if RaisedLast(rest, v) {
      var i: nat :| i < |rest| && RaisedAt(rest, i, v);
      KeptAfterFirst(es, i + 1, v);
      assert RaisedAt(es, i + 1, v);
    }
    if es[0] == Raise(v) && KeptFrom(rest, 0, v) { assert RaisedAt(es, 0, v); }
  }

  lemma RaiseEffect(c: Config, s: State, w: nat, v: nat)
    requires c.Valid() && |s.raised| == c.vectorCount && Pending(c, s) && w < c.vectorCount && v < c.vectorCount
    ensures var t := Effect(c, s, Raise(w));
            |t.raised| == c.vectorCount && (t.raised[v] <==> s.raised[v] || (v == w && c.used[v]))
  {
  }

  lemma CancelEffect(c: Config, s: State, w: nat, v: nat)
    requires c.Valid() && |s.raised| == c.vectorCount && Pending(c, s) && w < c.vectorCount && v < c.vectorCount
    ensures var t := Effect(c, s, Cancel(w));
            |t.raised| == c.vectorCount && (t.raised[v] <==> s.raised[v] && !(v == w && c.used[v]))
  {
  }

  lemma EffectRaises(c: Config, s: State, e: Event, v: nat)
    requires c.Valid() && |s.raised| == c.vectorCount && Pending(c, s) && Legal(c, e) && v < c.vectorCount && !e.Ack?
    ensures var t := Effect(c, s, e);
            && |t.raised| == c.vectorCount
            && (c.used[v] ==> (t.raised[v] <==> e == Raise(v) || (s.raised[v] && !Withdraws(e, v))))
            && (!c.used[v] ==> (t.raised[v] <==> s.raised[v] && e != Reset))
  {
    match e
    case Raise(w) => RaiseEffect(c, s, w, v);
    case Cancel(w) => CancelEffect(c, s, w, v);
    case Reset =>
    case _ =>
  }

  lemma AckRaisesNothing(c: Config, s: State)
    requires c.Valid() && |s.raised| == c.vectorCount && Pending(c, s)
    ensures Effect(c, s, Ack).raised == s.raised
  {
    if s.irq.Irq? { AckedFrame(s, s.irq.vector); }
  }

  lemma StepRaises(c: Config, s: State, e: Event, v: nat)
    requires Coherent(c, s) && Legal(c, e) && v < c.vectorCount
    ensures c.used[v] ==> (Step(c, s, e).raised[v] <==> e == Raise(v) || (s.raised[v] && !Withdraws(e, v)))
    ensures !c.used[v] ==> (Step(c, s, e).raised[v] <==> s.raised[v] && e != Reset)
  {
    CoherentIsPending(c, s);
    if e == Ack { AckRaisesNothing(c, s); } else { EffectRaises(c, s, e, v); }
  }

  /** In every run a vector with a source is raised if and only if the last of the events that raise
      or withdraw it is a raise, or there is none and it was raised at the start: acknowledges and
      returns do not count. */
  lemma {:induction false} RaisedIff(c: Config, s: State, es: seq<Event>, v: nat)
    requires Coherent(c, s) && (forall e | e in es :: Legal(c, e)) && v < c.vectorCount && c.used[v]
    ensures Run(c, s, es).raised[v] <==> RaisedLast(es, v) || (s.raised[v] && KeptFrom(es, 0, v))
    decreases |es|
  {
    if es != [] {
      StepKeepsCoherent(c, s, es[0]);
      StepRaises(c, s, es[0], v);
      RaisedIff(c, Step(c, s, es[0]), es[1..], v);
      RaisedLastSplits(es, v);
      KeptAfterFirst(es, 0, v);
    }
  }

  /** A vector without a source is never raised, and only a reset withdraws it. */
  lemma {:induction false} UnusedIff(c: Config, s: State, es: seq<Event>, v: nat)
    requires Coherent(c, s) && (forall e | e in es :: Legal(c, e)) && v < c.vectorCount && !c.used[v]
    ensures Run(c, s, es).raised[v] <==> s.raised[v] && Reset !in es
    decreases |es|
  {
    if es != [] {
      StepKeepsCoherent(c, s, es[0]);
      StepRaises(c, s, es[0], v);
      UnusedIff(c, Step(c, s, es[0]), es[1..], v);
    }
  }

  /** At all times a vector raised above the executing level has a request pending, of its own
      priority or a higher one; and what is requested is raised and above the executing level. */
  lemma RequestIff(c: Config, s: State, es: seq<Event>)
    requires Coherent(c, s) && forall e | e in es :: Legal(c, e)
    ensures var t := Run(c, s, es);
            t.irq.Irq? <==> exists v: nat :: v < c.vectorCount && t.raised[v] && Height(PriorityOf(t, v)) > Executing(t)
    ensures var t := Run(c, s, es);
            forall v: nat | v < c.vectorCount && t.raised[v] && t.irq.Irq? ::
              Height(PriorityOf(t, v)) <= Height(PriorityOf(t, t.irq.vector))
  {
    var t := Run(c, s, es);
    CoherentIsPending(c, t);
    if v: nat :| v < c.vectorCount && t.raised[v] && Height(PriorityOf(t, v)) > Executing(t) { Progress(c, t, v); }
  }

  /** So raising a vector above the executing level requests an interrupt at once. */
  lemma RaiseRequests(c: Config, s: State, v: nat)
    requires Coherent(c, s) && v < c.vectorCount && c.used[v] && Height(PriorityOf(s, v)) > Executing(s)
    ensures var t := Step(c, s, Raise(v));
            && t.raised[v] && t.irq.Irq? && t.irq.vector < c.vectorCount
            && Height(PriorityOf(t, v)) <= Height(PriorityOf(t, t.irq.vector))
  {
    StepKeepsCoherent(c, s, Raise(v));
    StepRaises(c, s, Raise(v), v);
    var t := Step(c, s, Raise(v));
    Progress(c, t, v);
  }

  /** A request names the slot of its vector, or in compact mode one slot a priority, the highest
      first; and a table: that of the boot section if IVSEL says so or there is no other. */
  lemma RequestPlace(c: Config, s: State)
    requires Coherent(c, s) && s.irq.Irq?
    ensures var p := PriorityOf(s, s.irq.vector);
            && (s.irq.nmi <==> s.irq.vector == 1)
            && (if s.compact then s.irq.slot + Height(p) == 4 else s.irq.slot == s.irq.vector)
            && (c.bootBase != c.appCodeBase ==> (s.irq.base == c.bootBase <==> s.ivsel || c.appCodeSize == 0))
            && (s.irq.base == c.bootBase || s.irq.base == c.appCodeBase)
  {
  }

  /** Some raised level 0 vector is the first of the order that starts after `pri`, or with vector 0 if
      `pri` is zero. */
  predicate FirstAfter(n: nat, raised: seq<bool>, pri: nat, v: nat)
    requires 0 < n == |raised|
  {
    && v < n && raised[v]
    && forall w | 0 <= w < n && raised[w] ::
         if pri == 0 then v <= w else (v - pri - 1) % n <= (w - pri - 1) % n
  }

  /** What is requested in every reachable state, from the bits: the NMI unless one runs; else, unless
      level 1 or the NMI runs, the vector of LVL1VEC; else, with nothing running, the first raised
      vector of the order after LVL0PRI; else nothing. */
  lemma RequestedVector(c: Config, s: State)
    requires Coherent(c, s)
    ensures if s.nmiEx then s.irq == NoIrq
            else if s.raised[1] then s.irq.Irq? && s.irq.vector == 1
            else if s.lvl1Ex then s.irq == NoIrq
            else if s.lvl1Vec > 0 && s.raised[s.lvl1Vec] then s.irq.Irq? && s.irq.vector == s.lvl1Vec
            else if s.lvl0Ex then s.irq == NoIrq
            else if s.irq.Irq? then FirstAfter(c.vectorCount, s.raised, s.lvl0Pri, s.irq.vector)
            else forall v | 0 <= v < c.vectorCount :: !s.raised[v]
  {
    if s.nmiEx {
      NothingAbove(c, s);
    } else if s.raised[1] {
      HigherLevelIsServed(c, s, 1);
    } else if s.lvl1Ex {
      NothingAbove(c, s);
    } else if s.lvl1Vec > 0 && s.raised[s.lvl1Vec] {
      HigherLevelIsServed(c, s, s.lvl1Vec);
    } else if s.lvl0Ex {
      NothingAbove(c, s);
    } else {
      OnlyLevel0Served(c, s);
    }
  }

  lemma OnlyLevel0Served(c: Config, s: State)
    requires Coherent(c, s) && Executing(s) == 0 && !s.raised[1] && (s.lvl1Vec == 0 || !s.raised[s.lvl1Vec])
    ensures if s.irq.Irq? then FirstAfter(c.vectorCount, s.raised, s.lvl0Pri, s.irq.vector)
            else forall v | 0 <= v < c.vectorCount :: !s.raised[v]
  {
    if v :| 0 <= v < c.vectorCount && s.raised[v] { Progress(c, s, v); }
    if s.irq.Irq? {
      var u := s.irq.vector;
      assert Serves(c, s, u);
      forall w | 0 <= w < c.vectorCount && s.raised[w] ensures ScanRank(c, s.lvl0Pri, u) <= ScanRank(c, s.lvl0Pri, w) {
        assert PriorityOf(s, w) == Level0 && PriorityOf(s, u) == Level0;
      }
    }
  }

  /** What an acknowledge enters: the NMI for vector 1, level 1 for LVL1VEC, level 0 for the others, and
      nothing for vector 0. */
  lemma AckEnters(c: Config, s: State)
    requires Coherent(c, s) && s.irq.Irq?
    ensures var t, v := Step(c, s, Ack), s.irq.vector;
            && (t.nmiEx <==> s.nmiEx || v == 1)
            && (t.lvl1Ex <==> s.lvl1Ex || (v > 1 && v == s.lvl1Vec))
            && (t.lvl0Ex <==> s.lvl0Ex || (v > 1 && v != s.lvl1Vec))
  {
  }

  // What the registers hold

  predicate SetsCtrlA(e: Event) { e.WriteCtrlA? || e == Reset }

  predicate SetsLvl1Vec(e: Event) { e.WriteLvl1Vec? || e == Reset }

  /** Events that move LVL0PRI. */
  predicate MovesLvl0Pri(s: State, e: Event) {
    e.WriteLvl0Pri? || e == Reset ||
    (e == Ack && s.roundRobin && s.irq.Irq? && s.irq.vector > 0 && PriorityOf(s, s.irq.vector) == Level0)
  }

  lemma EffectKeepsRegisters(c: Config, s: State, e: Event)
    requires c.Valid() && |s.raised| == c.vectorCount && Pending(c, s) && Legal(c, e)
    ensures var t := Effect(c, s, e);
            && (!SetsCtrlA(e) ==> (t.roundRobin, t.compact, t.ivsel) == (s.roundRobin, s.compact, s.ivsel))
            && (!SetsLvl1Vec(e) ==> t.lvl1Vec == s.lvl1Vec)
            && (!MovesLvl0Pri(s, e) ==> t.lvl0Pri == s.lvl0Pri)
            && (e == Ack && MovesLvl0Pri(s, e) ==> t.lvl0Pri == s.irq.vector)
  {
    match e
    case Ack => if s.irq.Irq? { AckedFrame(s, s.irq.vector); AckedSettings(s, s.irq.vector); }
    case Reti =>
    case Raise(_) =>
    case Cancel(_) =>
    case _ =>
  }

  lemma AckedSettings(s: State, v: nat)
    requires v < |s.raised|
    ensures Acked(s, v).compact == s.compact && Acked(s, v).ivsel == s.ivsel
  {
  }

  lemma StepKeepsRegisters(c: Config, s: State, e: Event)
    requires Coherent(c, s) && Legal(c, e)
    ensures var t := Step(c, s, e);
            && (!SetsCtrlA(e) ==> (t.roundRobin, t.compact, t.ivsel) == (s.roundRobin, s.compact, s.ivsel))
            && (!SetsLvl1Vec(e) ==> t.lvl1Vec == s.lvl1Vec)
            && (!MovesLvl0Pri(s, e) ==> t.lvl0Pri == s.lvl0Pri)
            && (e == Ack && MovesLvl0Pri(s, e) ==> t.lvl0Pri == s.irq.vector)
  {
    CoherentIsPending(c, s);
    EffectKeepsRegisters(c, s, e);
  }

  lemma StepWritesRegisters(c: Config, s: State, e: Event)
    requires Coherent(c, s) && Legal(c, e) && (e.WriteCtrlA? || e.WriteLvl0Pri? || e.WriteLvl1Vec? || e == Reset)
    ensures var t := Step(c, s, e);
            match e
            case WriteCtrlA(rr, cvt, iv) => (t.roundRobin, t.compact, t.ivsel) == (rr, cvt, iv)
            case WriteLvl0Pri(x) => t.lvl0Pri == x
            case WriteLvl1Vec(x) => t.lvl1Vec == x
            case Reset => !t.roundRobin && !t.compact && !t.ivsel && t.lvl0Pri == 0 && t.lvl1Vec == 0
  {
  }

  lemma {:induction false} SettingsStay(c: Config, s: State, es: seq<Event>)
    requires Coherent(c, s) && forall e | e in es :: Legal(c, e)
    ensures var t := Run(c, s, es);
            && ((forall e | e in es :: !SetsCtrlA(e)) ==>
                  (t.roundRobin, t.compact, t.ivsel) == (s.roundRobin, s.compact, s.ivsel))
            && ((forall e | e in es :: !SetsLvl1Vec(e)) ==> t.lvl1Vec == s.lvl1Vec)
    decreases |es|
  {
    if es != [] {
      StepKeepsCoherent(c, s, es[0]);
      StepKeepsRegisters(c, s, es[0]);
      SettingsStay(c, Step(c, s, es[0]), es[1..]);
    }
  }

  /** CTRLA and LVL1VEC hold what was last written to them, zero after a reset, in every run. */
  lemma SettingsHold(c: Config, s: State, e: Event, es: seq<Event>)
    requires Coherent(c, s) && Legal(c, e) && forall f | f in es :: Legal(c, f)
    ensures Coherent(c, Step(c, s, e))
    ensures var t := Run(c, Step(c, s, e), es);
            && (SetsCtrlA(e) && (forall f | f in es :: !SetsCtrlA(f)) ==>
                  (t.roundRobin, t.compact, t.ivsel) ==
                    if e.WriteCtrlA? then (e.rr, e.cvt, e.ivsel) else (false, false, false))
            && (SetsLvl1Vec(e) && (forall f | f in es :: !SetsLvl1Vec(f)) ==>
                  t.lvl1Vec == if e.WriteLvl1Vec? then e.value else 0)
  {
    StepKeepsCoherent(c, s, e);
    if SetsCtrlA(e) || SetsLvl1Vec(e) { StepWritesRegisters(c, s, e); }
    SettingsStay(c, Step(c, s, e), es);
  }

  ghost predicate NeverMovesLvl0Pri(c: Config, s: State, es: seq<Event>)
    requires Coherent(c, s) && forall e | e in es :: Legal(c, e)
    decreases |es|
  {
    es == [] ||
    (StepKeepsCoherent(c, s, es[0]);
     !MovesLvl0Pri(s, es[0]) && NeverMovesLvl0Pri(c, Step(c, s, es[0]), es[1..]))
  }

  lemma {:induction false} Lvl0PriStays(c: Config, s: State, es: seq<Event>)
    requires Coherent(c, s) && (forall e | e in es :: Legal(c, e)) && NeverMovesLvl0Pri(c, s, es)
    ensures Run(c, s, es).lvl0Pri == s.lvl0Pri
    decreases |es|
  {
    if es != [] {
      StepKeepsCoherent(c, s, es[0]);
      StepKeepsRegisters(c, s, es[0]);
      Lvl0PriStays(c, Step(c, s, es[0]), es[1..]);
    }
  }

  /** LVL0PRI holds the last of what was written to it, the level 0 vector acknowledged under
      round-robin scheduling, and the zero of a reset. */
  lemma Lvl0PriHolds(c: Config, s: State, e: Event, es: seq<Event>)
    requires Coherent(c, s) && Legal(c, e) && (forall f | f in es :: Legal(c, f)) && MovesLvl0Pri(s, e)
    requires Coherent(c, Step(c, s, e)) && NeverMovesLvl0Pri(c, Step(c, s, e), es)
    ensures Run(c, Step(c, s, e), es).lvl0Pri ==
            if e.WriteLvl0Pri? then e.value else if e == Reset then 0 else s.irq.vector
  {
    if e.WriteLvl0Pri? || e == Reset { StepWritesRegisters(c, s, e); } else { StepKeepsRegisters(c, s, e); }
    Lvl0PriStays(c, Step(c, s, e), es);
  }

  // ---------- Nesting: STATUS is a stack of strictly increasing levels ----------

  /** The levels of the handlers entered and not yet returned from, outermost first. */
  function StackStep(st: seq<Priority>, s: State, e: Event): seq<Priority> {
    match e
    case Ack => if s.irq.Irq? then st + [PriorityOf(s, s.irq.vector)] else st
    case Reti => if st != [] then st[..|st| - 1] else st
    case Reset => []
    case _ => st
  }

  ghost function RunStack(c: Config, st: seq<Priority>, s: State, es: seq<Event>): seq<Priority>
    requires Coherent(c, s) && forall e | e in es :: Legal(c, e)
    decreases |es|
  {
    if es == [] then st else
      StepKeepsCoherent(c, s, es[0]);
      RunStack(c, StackStep(st, s, es[0]), Step(c, s, es[0]), es[1..])
  }

  ghost predicate StatusIsStack(s: State, st: seq<Priority>) {
    && (forall i, j | 0 <= i < j < |st| :: Height(st[i]) < Height(st[j]))
    && (s.lvl0Ex <==> Level0 in st) && (s.lvl1Ex <==> Level1 in st) && (s.nmiEx <==> Nmi in st)
  }

  lemma TopOfStackIsExecuting(s: State, st: seq<Priority>)
    requires StatusIsStack(s, st)
    ensures Executing(s) == if st == [] then 0 else Height(st[|st| - 1])
  {
    if st != [] {
      var top := st[|st| - 1];
      assert top in st;
      forall p | p in st ensures Height(p) <= Height(top) {
        var i :| 0 <= i < |st| && st[i] == p;
      }
    }
  }

  lemma PushKeepsStack(s: State, st: seq<Priority>, p: Priority)
    requires StatusIsStack(s, st) && Height(p) > Executing(s)
    ensures StatusIsStack(Enter(s, p), st + [p])
  {
    TopOfStackIsExecuting(s, st);
    assert forall q :: q in st + [p] <==> q in st || q == p;
    if st != [] {
      assert forall i | 0 <= i < |st| - 1 :: Height(st[i]) < Height(st[|st| - 1]);
    }
  }

  lemma PopKeepsStack(s: State, st: seq<Priority>)
    requires StatusIsStack(s, st) && st != []
    ensures StatusIsStack(Returned(s), st[..|st| - 1])
  {
    TopOfStackIsExecuting(s, st);
    var top, rest := st[|st| - 1], st[..|st| - 1];
    assert st == rest + [top];
    assert forall q :: q in st <==> q in rest || q == top;
    assert forall i | 0 <= i < |rest| :: Height(rest[i]) < Height(top);
    assert top !in rest;
  }

  lemma StatusSeesOnlyTheBits(s: State, t: State, st: seq<Priority>)
    requires StatusIsStack(s, st) && s.lvl0Ex == t.lvl0Ex && s.lvl1Ex == t.lvl1Ex && s.nmiEx == t.nmiEx
    ensures StatusIsStack(t, st)
  {
  }

  /** The event acknowledges the reset vector. */
  predicate AcksReset(s: State, e: Event) { e == Ack && s.irq.Irq? && s.irq.vector == 0 }

  lemma AckKeepsStack(c: Config, s: State, st: seq<Priority>)
    requires c.Valid() && |s.raised| == c.vectorCount && Pending(c, s) && StatusIsStack(s, st)
    requires s.irq.Irq? && s.irq.vector != 0
    ensures StatusIsStack(Acked(s, s.irq.vector), st + [PriorityOf(s, s.irq.vector)])
  {
    var p := PriorityOf(s, s.irq.vector);
    PushKeepsStack(s, st, p);
    StatusSeesOnlyTheBits(Enter(s, p), Acked(s, s.irq.vector), st + [p]);
  }

  /** An acknowledge keeps the STATUS bits equal to the stack if and only if the vector is not the
      reset vector, whose handler is entered with no bit set. */
  lemma AckKeepsStackIff(c: Config, s: State, st: seq<Priority>)
    requires c.Valid() && |s.raised| == c.vectorCount && Pending(c, s) && StatusIsStack(s, st) && s.irq.Irq?
    ensures StatusIsStack(Effect(c, s, Ack), StackStep(st, s, Ack)) <==> s.irq.vector != 0
  {
    if s.irq.vector != 0 {
      AckKeepsStack(c, s, st);
    } else {
      assert Level0 in StackStep(st, s, Ack);
      assert !Effect(c, s, Ack).lvl0Ex;
    }
  }

  lemma EffectKeepsStack(c: Config, s: State, st: seq<Priority>, e: Event)
    requires c.Valid() && |s.raised| == c.vectorCount && Pending(c, s) && Legal(c, e) && StatusIsStack(s, st)
    requires !AcksReset(s, e)
    ensures StatusIsStack(Effect(c, s, e), StackStep(st, s, e))
  {
    match e
    case Ack =>
      if s.irq.Irq? { AckKeepsStack(c, s, st); }
    case Reti =>
      if st != [] { PopKeepsStack(s, st); }
    case Reset =>
    case _ =>
      StatusSeesOnlyTheBits(s, Effect(c, s, e), st);
  }

  lemma ResetStaysUnraised(c: Config, s: State, e: Event)
    requires c.Valid() && |s.raised| == c.vectorCount && Pending(c, s) && Legal(c, e)
    requires !s.raised[0] && e != Raise(0)
    ensures !Effect(c, s, e).raised[0] && !AcksReset(s, e)
  {
    match e
    case Ack => if s.irq.Irq? { AckedFrame(s, s.irq.vector); }
    case Raise(_) =>
    case _ =>
  }

  /** In every run in which the reset vector is never raised, the STATUS bits are exactly the
      levels of the handlers being executed, those levels are strictly increasing, every
      acknowledge enters a level above all of them and every RETI leaves the innermost one. */
  lemma {:induction false} NestingIsAStack(c: Config, s: State, st: seq<Priority>, es: seq<Event>)
    requires Coherent(c, s) && StatusIsStack(s, st) && !s.raised[0]
    requires forall e | e in es :: Legal(c, e) && e != Raise(0)
    ensures StatusIsStack(Run(c, s, es), RunStack(c, st, s, es))
    decreases |es|
  {
    if es != [] {
      StepKeepsCoherent(c, s, es[0]);
      CoherentIsPending(c, s);
      ResetStaysUnraised(c, s, es[0]);
      EffectKeepsStack(c, s, st, es[0]);
      StatusSeesOnlyTheBits(Effect(c, s, es[0]), Step(c, s, es[0]), StackStep(st, s, es[0]));
      NestingIsAStack(c, Step(c, s, es[0]), StackStep(st, s, es[0]), es[1..]);
    }
  }

  /** The bits equal the stack in every state of the run. */
  ghost predicate StackThroughout(c: Config, s: State, st: seq<Priority>, es: seq<Event>)
    requires Coherent(c, s) && forall e | e in es :: Legal(c, e)
    decreases |es|
  {
    StatusIsStack(s, st) &&
    (es == [] ||
     (StepKeepsCoherent(c, s, es[0]);
      StackThroughout(c, Step(c, s, es[0]), StackStep(st, s, es[0]), es[1..])))
  }

  ghost predicate NeverAcksReset(c: Config, s: State, es: seq<Event>)
    requires Coherent(c, s) && forall e | e in es :: Legal(c, e)
    decreases |es|
  {
    es == [] ||
    (!AcksReset(s, es[0]) &&
     (StepKeepsCoherent(c, s, es[0]); NeverAcksReset(c, Step(c, s, es[0]), es[1..])))
  }

  lemma StepKeepsStackIff(c: Config, s: State, st: seq<Priority>, e: Event)
    requires Coherent(c, s) && Legal(c, e) && StatusIsStack(s, st)
    ensures StatusIsStack(Step(c, s, e), StackStep(st, s, e)) <==> !AcksReset(s, e)
  {
    CoherentIsPending(c, s);
    if AcksReset(s, e) {
      AckKeepsStackIff(c, s, st);
    } else {
      EffectKeepsStack(c, s, st, e);
      StatusSeesOnlyTheBits(Effect(c, s, e), Step(c, s, e), StackStep(st, s, e));
    }
  }

  /** So over every run, whatever is raised, nesting is a stack throughout if and only if the reset
      vector is never acknowledged. */
  lemma {:induction false} NestingIff(c: Config, s: State, st: seq<Priority>, es: seq<Event>)
    requires Coherent(c, s) && StatusIsStack(s, st) && forall e | e in es :: Legal(c, e)
    ensures StackThroughout(c, s, st, es) <==> NeverAcksReset(c, s, es)
    decreases |es|
  {
    if es != [] {
      var t, next := Step(c, s, es[0]), StackStep(st, s, es[0]);
      StepKeepsCoherent(c, s, es[0]);
      StepKeepsStackIff(c, s, st, es[0]);
      if StatusIsStack(t, next) { NestingIff(c, t, next, es[1..]); }
    }
  }

  /** And it can be acknowledged: two events from the start are enough. */
  lemma ResetVectorBreaksNesting(c: Config, s: State)
    requires c.Valid() && c.used[0] && s == Initial(c)
    ensures Coherent(c, s)
    ensures RunStack(c, [], s, [Raise(0), Ack]) == [Level0] && !Run(c, s, [Raise(0), Ack]).lvl0Ex
  {
    var s1 := s.(raised := s.raised[0 := true]);
    Progress(c, s1, 0);
    StepKeepsCoherent(c, s, Raise(0));
    var t := Step(c, s, Raise(0));
    assert t.irq.Irq? && t.irq.vector == 0;
    assert [Raise(0), Ack][1..] == [Ack];
    assert Run(c, t, [Ack]) == Step(c, t, Ack) by { StepKeepsCoherent(c, t, Ack); }
    assert Run(c, s, [Raise(0), Ack]) == Run(c, t, [Ack]);
    assert RunStack(c, [], t, [Ack]) == [Level0] by { StepKeepsCoherent(c, t, Ack); }
    assert RunStack(c, [], s, [Raise(0), Ack]) == RunStack(c, [], t, [Ack]);
  }

  // ---------- Round robin: no level 0 vector starves ----------

  ghost predicate AcksLevel0(s: State, e: Event) {
    e.Ack? && s.irq.Irq? && PriorityOf(s, s.irq.vector) == Level0
  }

  /** Events that leave the waiting vector raised and the round-robin scheduling on. */
  predicate Waits(e: Event, v: nat) {
    match e
    case Cancel(w) => w != v
    case WriteCtrlA(rr, _, _) => rr
    case WriteLvl0Pri(_) => false
    case Reset => false
    case _ => true
  }

  /** The reset vector is never recorded in LVL0PRI, so it never goes to the end of the order. It
      is behind `v` only if LVL0PRI, not zero, is before `v` in the table. */
  predicate BeforeReset(c: Config, pri: nat, v: nat)
    requires c.Valid()
  {
    pri > 0 && pri % c.vectorCount < v
  }

  /** The reset vector does not hold `v` back. */
  predicate Unblocked(c: Config, s: State, v: nat)
    requires WellFormed(c, s)
  {
    !s.raised[0] || BeforeReset(c, s.lvl0Pri, v)
  }

  /** The reset vector is only raised when it is behind `v`. */
  ghost predicate StaysUnblocked(c: Config, s: State, es: seq<Event>, v: nat)
    requires Coherent(c, s) && forall e | e in es :: Legal(c, e)
    decreases |es|
  {
    es == [] ||
    (StepKeepsCoherent(c, s, es[0]);
     && (es[0] == Raise(0) ==> BeforeReset(c, s.lvl0Pri, v))
     && StaysUnblocked(c, Step(c, s, es[0]), es[1..], v))
  }

  /** Ranks after LVL0PRI, without the modulo. */
  lemma RankAfter(c: Config, pri: nat, x: nat)
    requires c.Valid() && pri > 0 && x < c.vectorCount
    ensures var q := pri % c.vectorCount;
            ScanRank(c, pri, x) == if x > q then x - q - 1 else x - q - 1 + c.vectorCount
  {
    var n := c.vectorCount;
    var q, k := pri % n, pri / n;
    if x > q {
      assert x - pri - 1 == (x - q - 1) + (-k) * n;
      ModOfShift(x - q - 1, -k, n);
    } else {
      assert x - pri - 1 == (x - q - 1 + n) + (-k - 1) * n;
      ModOfShift(x - q - 1 + n, -k - 1, n);
    }
  }

  lemma BeforeResetIff(c: Config, pri: nat, v: nat)
    requires c.Valid() && 0 < v < c.vectorCount
    ensures BeforeReset(c, pri, v) <==> ScanRank(c, pri, v) < ScanRank(c, pri, 0)
  {
    if pri > 0 {
      RankAfter(c, pri, v);
      RankAfter(c, pri, 0);
    }
  }

  /** A vector between LVL0PRI and `v` that becomes the last of the order leaves `v` before the
      reset vector. */
  lemma StaysBeforeReset(c: Config, pri: nat, v: nat, w: nat)
    requires c.Valid() && 0 < v < c.vectorCount && 0 < w < c.vectorCount
    requires BeforeReset(c, pri, v) && ScanRank(c, pri, w) < ScanRank(c, pri, v)
    ensures BeforeReset(c, w, v)
  {
    RankAfter(c, pri, v);
    RankAfter(c, pri, w);
    ModOfShift(w, 0, c.vectorCount);
  }

  /** Number of level 0 acknowledges in a run. */
  ghost function Level0Acks(c: Config, s: State, es: seq<Event>): nat
    requires Coherent(c, s) && forall e | e in es :: Legal(c, e)
    decreases |es|
  {
    if es == [] then 0 else
      StepKeepsCoherent(c, s, es[0]);
      (if AcksLevel0(s, es[0]) then 1 else 0) + Level0Acks(c, Step(c, s, es[0]), es[1..])
  }

  ghost predicate NeverAcked(c: Config, s: State, es: seq<Event>, v: nat)
    requires Coherent(c, s) && forall e | e in es :: Legal(c, e)
    decreases |es|
  {
    es == [] ||
    (StepKeepsCoherent(c, s, es[0]);
     && !(es[0].Ack? && s.irq.Irq? && s.irq.vector == v)
     && NeverAcked(c, Step(c, s, es[0]), es[1..], v))
  }

  /** Number of vectors ahead of `v`: its rank, not counting the reset vector, which is behind or not
      raised. */
  function Ahead(c: Config, s: State, v: nat): nat
    requires c.Valid() && v < c.vectorCount
  {
    (v - s.lvl0Pri - 1) % c.vectorCount
  }

  lemma AheadIsRank(c: Config, s: State, v: nat)
    requires c.Valid() && 0 < v < c.vectorCount
    ensures Ahead(c, s, v) == ScanRank(c, s.lvl0Pri, v) - (if s.lvl0Pri == 0 then 1 else 0)
  {
    if s.lvl0Pri == 0 { ModOfShift(v - 1, 0, c.vectorCount); }
  }

  /** If `w` is ahead of `v`, then making `w` the last vector of the order brings `v` closer. */
  lemma RotatingPast(n: nat, pri: nat, v: nat, w: nat)
    requires 0 < v < n && 0 < w < n && (w - pri - 1) % n < (v - pri - 1) % n
    ensures (v - w - 1) % n < (v - pri - 1) % n
  {
    var x, y := (w - pri - 1) % n, (v - pri - 1) % n;
    var q := (v - pri - 1) / n - (w - pri - 1) / n;
    assert v - w - 1 == (y - x - 1) + q * n;
    ModOfShift(y - x - 1, q, n);
  }

  lemma CoherentServesInOrder(c: Config, s: State, v: nat)
    requires Coherent(c, s) && s.irq.Irq? && s.irq.vector != v && AcksLevel0(s, Ack)
    requires 0 < v < c.vectorCount && s.raised[v] && Unblocked(c, s, v)
    ensures 0 < s.irq.vector < c.vectorCount
    ensures ScanRank(c, s.lvl0Pri, s.irq.vector) < ScanRank(c, s.lvl0Pri, v)
  {
    BeforeResetIff(c, s.lvl0Pri, v);
  }

  lemma AckTakesPriority(c: Config, s: State)
    requires c.Valid() && |s.raised| == c.vectorCount && Pending(c, s) && AcksLevel0(s, Ack)
    requires s.irq.vector > 0 && s.roundRobin
    ensures Effect(c, s, Ack).lvl0Pri == s.irq.vector
  {
    AckedFrame(s, s.irq.vector);
  }

  /** An acknowledge of another level 0 vector strictly lowers the distance to `v`. */
  lemma Level0AckComesCloser(c: Config, s: State, v: nat)
    requires Coherent(c, s) && s.irq.Irq? && s.irq.vector != v && AcksLevel0(s, Ack)
    requires 0 < v < c.vectorCount && s.raised[v] && Unblocked(c, s, v) && s.roundRobin
    ensures Ahead(c, Effect(c, s, Ack), v) < Ahead(c, s, v)
    ensures BeforeReset(c, s.lvl0Pri, v) ==> BeforeReset(c, Effect(c, s, Ack).lvl0Pri, v)
  {
    CoherentServesInOrder(c, s, v);
    CoherentIsPending(c, s);
    AckTakesPriority(c, s);
    AheadInOrder(c, s, v, s.irq.vector);
    RotatingPast(c.vectorCount, s.lvl0Pri, v, s.irq.vector);
    if BeforeReset(c, s.lvl0Pri, v) { StaysBeforeReset(c, s.lvl0Pri, v, s.irq.vector); }
  }

  lemma AheadInOrder(c: Config, s: State, v: nat, w: nat)
    requires c.Valid() && 0 < v < c.vectorCount && 0 < w < c.vectorCount
    requires ScanRank(c, s.lvl0Pri, w) < ScanRank(c, s.lvl0Pri, v)
    ensures Ahead(c, s, w) < Ahead(c, s, v)
  {
    AheadIsRank(c, s, v);
    AheadIsRank(c, s, w);
  }

  lemma EffectKeepsWaiting(c: Config, s: State, e: Event, v: nat)
    requires c.Valid() && |s.raised| == c.vectorCount && Pending(c, s) && Legal(c, e) && Waits(e, v)
    requires 0 < v < c.vectorCount && s.raised[v] && s.roundRobin
    ensures Effect(c, s, e).raised[v] && Effect(c, s, e).roundRobin
    ensures !AcksLevel0(s, e) ==> Effect(c, s, e).lvl0Pri == s.lvl0Pri
    ensures !s.raised[0] && e != Raise(0) ==> !Effect(c, s, e).raised[0]
  {
    match e
    case Ack => if s.irq.Irq? { AckedFrame(s, s.irq.vector); }
    case Raise(_) =>
    case Cancel(_) =>
    case _ =>
  }

  /** No starvation: while a vector waits raised under round-robin scheduling, not held back by
      the reset vector, the number of level 0 acknowledges given to other vectors is at most the
      number of vectors ahead of it, hence at most one less than the size of the vector table.
      Level 1 and NMI acknowledges, and writes that move the level 1 vector, do not count against
      it; and the reset vector may be raised whenever it is behind. */
  lemma {:induction false} NoStarvation(c: Config, s: State, es: seq<Event>, v: nat)
    requires Coherent(c, s) && forall e | e in es :: Legal(c, e) && Waits(e, v)
    requires 0 < v < c.vectorCount && s.raised[v] && s.roundRobin
    requires Unblocked(c, s, v) && StaysUnblocked(c, s, es, v)
    requires NeverAcked(c, s, es, v)
    ensures Level0Acks(c, s, es) <= Ahead(c, s, v) <= c.vectorCount - 1
    decreases |es|
  {
    if es != [] {
      StepKeepsCoherent(c, s, es[0]);
      CoherentIsPending(c, s);
      EffectKeepsWaiting(c, s, es[0], v);
      if AcksLevel0(s, es[0]) { Level0AckComesCloser(c, s, v); }
      NoStarvation(c, Step(c, s, es[0]), es[1..], v);
    }
  }

  // ---------- Exactly when a vector starves ----------

  /** The reset vector is raised and ahead of `v`. */
  predicate Blocked(c: Config, s: State, v: nat)
    requires WellFormed(c, s)
  {
    s.raised[0] && !BeforeReset(c, s.lvl0Pri, v)
  }

  /** Events that leave the reset vector raised and do not move `v` past it. */
  predicate LeavesBlocked(c: Config, e: Event, v: nat)
    requires c.Valid()
  {
    match e
    case Cancel(w) => w != 0
    case WriteLvl0Pri(x) => !BeforeReset(c, x, v)
    case WriteLvl1Vec(x) => x != v
    case Reset => false
    case _ => true
  }

  lemma BlockedIsNotServed(c: Config, s: State, v: nat)
    requires Coherent(c, s) && 0 < v < c.vectorCount && PriorityOf(s, v) == Level0 && Blocked(c, s, v)
    ensures s.irq.Irq? ==> s.irq.vector != v
  {
    BeforeResetIff(c, s.lvl0Pri, v);
  }

  /** Whatever is acknowledged in front of the reset vector becomes the last of the order, and is
      after LVL0PRI in the table: `v` only falls further behind. */
  lemma AckLeavesBlocked(c: Config, s: State, v: nat)
    requires Coherent(c, s) && 0 < v < c.vectorCount && Blocked(c, s, v) && s.irq.Irq?
    ensures var t := Acked(s, s.irq.vector);
            t.raised == s.raised && t.lvl1Vec == s.lvl1Vec && !BeforeReset(c, t.lvl0Pri, v)
  {
    var w := s.irq.vector;
    if w != 0 && PriorityOf(s, w) == Level0 {
      BeforeResetIff(c, s.lvl0Pri, w);
      assert s.lvl0Pri % c.vectorCount < w;
      ModOfShift(w, 0, c.vectorCount);
    }
    AckedFrame(s, w);
  }

  lemma EffectLeavesBlocked(c: Config, s: State, e: Event, v: nat)
    requires Coherent(c, s) && Legal(c, e) && LeavesBlocked(c, e, v) && Blocked(c, s, v)
    requires 0 < v < c.vectorCount && PriorityOf(s, v) == Level0 && IrqInRange(c, s)
    ensures var t := Effect(c, s, e);
            |t.raised| == c.vectorCount && t.raised[0] && !BeforeReset(c, t.lvl0Pri, v) && PriorityOf(t, v) == Level0
  {
    match e
    case Ack => if s.irq.Irq? { AckLeavesBlocked(c, s, v); }
    case Raise(_) =>
    case Cancel(_) =>
    case _ =>
  }

  /** Starvation: a level 0 vector behind the raised reset vector is never acknowledged, in any run
      that leaves the reset vector raised and does not write LVL0PRI or LVL1VEC in its favour. */
  lemma {:induction false} Starvation(c: Config, s: State, es: seq<Event>, v: nat)
    requires Coherent(c, s) && forall e | e in es :: Legal(c, e) && LeavesBlocked(c, e, v)
    requires 0 < v < c.vectorCount && PriorityOf(s, v) == Level0 && Blocked(c, s, v)
    ensures NeverAcked(c, s, es, v)
    decreases |es|
  {
    if es != [] {
      StepKeepsCoherent(c, s, es[0]);
      CoherentIsPending(c, s);
      BlockedIsNotServed(c, s, v);
      EffectLeavesBlocked(c, s, es[0], v);
      Starvation(c, Step(c, s, es[0]), es[1..], v);
    }
  }

  /** `k` times: acknowledge the pending request and return from its handler. */
  function Services(k: nat): seq<Event> {
    if k == 0 then [] else [Ack, Reti] + Services(k - 1)
  }

  lemma {:induction false} ServicesAreLegal(c: Config, k: nat)
    ensures forall e | e in Services(k) :: Legal(c, e)
  {
    if k > 0 { ServicesAreLegal(c, k - 1); }
  }

  ghost predicate NeverServed(c: Config, s: State, k: nat, v: nat)
    requires Coherent(c, s)
  {
    ServicesAreLegal(c, k);
    NeverAcked(c, s, Services(k), v)
  }

  /** Only level 0 vectors are raised, `v` among them, and only their handlers run. */
  ghost predicate OnlyLevel0(c: Config, s: State, v: nat) {
    && Coherent(c, s) && Executing(s) <= 1 && 0 < v < c.vectorCount && s.raised[v]
    && !s.raised[1] && (s.lvl1Vec == 0 || !s.raised[s.lvl1Vec])
  }

  /** And no handler runs. */
  ghost predicate Quiet(c: Config, s: State, v: nat) { OnlyLevel0(c, s, v) && Executing(s) == 0 }

  /** An acknowledge then serves a level 0 vector. */
  lemma AckService(c: Config, s: State, v: nat, rest: seq<Event>) returns (t: State)
    requires Quiet(c, s, v) && forall e | e in [Ack] + rest :: Legal(c, e)
    ensures OnlyLevel0(c, t, v) && Level0Acks(c, s, [Ack] + rest) == 1 + Level0Acks(c, t, rest)
  {
    assert ([Ack] + rest)[1..] == rest;
    Progress(c, s, v);
    CoherentIsPending(c, s);
    AckedFrame(s, s.irq.vector);
    StepKeepsCoherent(c, s, Ack);
    t := Step(c, s, Ack);
  }

  lemma RetiService(c: Config, s: State, v: nat, rest: seq<Event>) returns (t: State)
    requires OnlyLevel0(c, s, v) && forall e | e in [Reti] + rest :: Legal(c, e)
    ensures Quiet(c, t, v) && Level0Acks(c, s, [Reti] + rest) == Level0Acks(c, t, rest)
  {
    assert ([Reti] + rest)[1..] == rest;
    StepKeepsCoherent(c, s, Reti);
    t := Step(c, s, Reti);
  }

  lemma OneService(c: Config, s: State, v: nat, rest: seq<Event>) returns (t: State)
    requires Quiet(c, s, v) && forall e | e in [Ack, Reti] + rest :: Legal(c, e)
    ensures Quiet(c, t, v) && Level0Acks(c, s, [Ack, Reti] + rest) == 1 + Level0Acks(c, t, rest)
  {
    assert [Ack, Reti] + rest == [Ack] + ([Reti] + rest);
    t := AckService(c, s, v, [Reti] + rest);
    t := RetiService(c, t, v, rest);
  }

  lemma {:induction false} EachServiceCounts(c: Config, s: State, es: seq<Event>, k: nat, v: nat)
    requires Quiet(c, s, v) && es == Services(k) && forall e | e in es :: Legal(c, e)
    ensures Level0Acks(c, s, es) == k
    decreases k
  {
    if k > 0 {
      var t := OneService(c, s, v, Services(k - 1));
      EachServiceCounts(c, t, Services(k - 1), k - 1, v);
    }
  }

  lemma {:induction false} ServicesWait(c: Config, k: nat, v: nat)
    requires c.Valid()
    ensures forall e | e in Services(k) :: Legal(c, e) && Waits(e, v) && LeavesBlocked(c, e, v) && !e.Raise?
  {
    if k > 0 { ServicesWait(c, k - 1, v); }
  }

  lemma {:induction false} NothingRaisedStaysUnblocked(c: Config, s: State, es: seq<Event>, v: nat)
    requires Coherent(c, s) && forall e | e in es :: Legal(c, e) && !e.Raise?
    ensures StaysUnblocked(c, s, es, v)
    decreases |es|
  {
    if es != [] {
      StepKeepsCoherent(c, s, es[0]);
      NothingRaisedStaysUnblocked(c, Step(c, s, es[0]), es[1..], v);
    }
  }

  /** Exactly: with round-robin scheduling and only level 0 vectors raised, however many requests are
      acknowledged and returned from, `v` is never served if and only if the reset vector is raised
      and LVL0PRI is zero or, modulo the vector count, not before `v` in the table. */
  lemma StarvesIff(c: Config, s: State, v: nat)
    requires Quiet(c, s, v) && s.roundRobin
    ensures (forall k: nat :: NeverServed(c, s, k, v)) <==>
            s.raised[0] && (s.lvl0Pri == 0 || v <= s.lvl0Pri % c.vectorCount)
  {
    if Blocked(c, s, v) {
      forall k: nat ensures NeverServed(c, s, k, v) {
        ServicesWait(c, k, v);
        Starvation(c, s, Services(k), v);
      }
    } else {
      var n := c.vectorCount;
      ServicesWait(c, n, v);
      EachServiceCounts(c, s, Services(n), n, v);
      NothingRaisedStaysUnblocked(c, s, Services(n), v);
      if NeverServed(c, s, n, v) { NoStarvation(c, s, Services(n), v); }
    }
  }

  /** An instance, whatever the scheduling mode: with LVL0PRI zero the raised reset vector is served
      for ever. */
  lemma {:induction false} ResetVectorStarvesOthers(c: Config, s: State, k: nat, v: nat)
    requires Coherent(c, s) && Executing(s) == 0 && s.lvl0Pri == 0
    requires s.raised[0] && !s.raised[1] && (s.lvl1Vec == 0 || !s.raised[s.lvl1Vec]) && v != 0
    ensures (ServicesAreLegal(c, k); NeverAcked(c, s, Services(k), v))
    decreases k
  {
    ServicesAreLegal(c, k);
    if k > 0 {
      ServicesAreLegal(c, k - 1);
      Progress(c, s, 0);
      assert s.irq.vector == 0;
      StepKeepsCoherent(c, s, Ack);
      var t := Step(c, s, Ack);
      StepKeepsCoherent(c, t, Reti);
      var u := Step(c, t, Reti);
      assert t.raised == s.raised && u.raised == s.raised;
      Progress(c, t, 0);
      assert t.irq.vector == 0;
      ResetVectorStarvesOthers(c, u, k - 1, v);
      var es := Services(k);
      assert es[0] == Ack && es[1..][0] == Reti && es[1..][1..] == Services(k - 1);
    }
  }

  // ---------- The scan, step by step ----------

  ghost predicate NoneBefore(c: Config, s: State, k: nat)
    requires WellFormed(c, s)
  {
    forall w | 0 <= w < c.vectorCount && ScanRank(c, s.lvl0Pri, w) < k :: !s.raised[w]
  }

  /** The scan is at a raised vector of rank `k` and found nothing before it. */
  lemma FirstFoundIsServed(c: Config, s: State, k: nat, v: nat)
    requires WellFormed(c, s) && NoneBefore(c, s, k)
    requires v < c.vectorCount && s.raised[v] && ScanRank(c, s.lvl0Pri, v) == k && Executing(s) == 0
    requires !s.raised[1] && (s.lvl1Vec == 0 || !s.raised[s.lvl1Vec])
    ensures NextVector(c, s) == v && PriorityOf(s, v) == Level0
  {
    forall w | 0 <= w < c.vectorCount && s.raised[w] && w != v
      ensures ScanRank(c, s.lvl0Pri, v) < ScanRank(c, s.lvl0Pri, w)
    {
      if ScanRank(c, s.lvl0Pri, w) == k { RankIsInjective(c, s.lvl0Pri, v, w); }
    }
    assert Serves(c, s, v);
    ServedVectorIsUnique(c, s, v, NextVector(c, s));
  }

  lemma NotFoundMovesOn(c: Config, s: State, k: nat, v: nat)
    requires WellFormed(c, s) && NoneBefore(c, s, k)
    requires v < c.vectorCount && !s.raised[v] && ScanRank(c, s.lvl0Pri, v) == k
    ensures NoneBefore(c, s, k + 1)
  {
    forall w | 0 <= w < c.vectorCount && ScanRank(c, s.lvl0Pri, w) < k + 1
      ensures !s.raised[w]
    {
      if ScanRank(c, s.lvl0Pri, w) == k { RankIsInjective(c, s.lvl0Pri, v, w); }
    }
  }

  lemma NothingFound(c: Config, s: State)
    requires WellFormed(c, s) && NoneBefore(c, s, c.vectorCount)
    ensures NextVector(c, s) == -1
  {
  }

  lemma HigherLevelIsServed(c: Config, s: State, v: nat)
    requires WellFormed(c, s) && v < c.vectorCount && s.raised[v] && !s.nmiEx
    requires PriorityOf(s, v) == Nmi || (PriorityOf(s, v) == Level1 && !s.raised[1] && !s.lvl1Ex)
    ensures NextVector(c, s) == v
  {
    assert Serves(c, s, v);
    ServedVectorIsUnique(c, s, v, NextVector(c, s));
  }

  lemma NothingAbove(c: Config, s: State)
    requires WellFormed(c, s)
    requires forall v | 0 <= v < c.vectorCount && s.raised[v] :: Height(PriorityOf(s, v)) <= Executing(s)
    ensures NextVector(c, s) == -1
  {
  }

  // ---------- The controller ----------

  class InterruptController {
    const config: Config
    const raised: array<bool>
    var nmiEx: bool
    var lvl1Ex: bool
    var lvl0Ex: bool
    var roundRobin: bool
    var compact: bool
    var ivsel: bool
    var lvl0Pri: nat
    var lvl1Vec: nat
    var irq: Irq

    ghost function View(): State
      reads this, raised
    {
      State(raised[..], nmiEx, lvl1Ex, lvl0Ex, roundRobin, compact, ivsel, lvl0Pri, lvl1Vec, irq)
    }

    ghost predicate Valid()
      reads this, raised
    {
      Coherent(config, View())
    }

    constructor (config: Config)
      requires config.Valid()
      ensures Valid() && fresh(raised) && this.config == config && View() == Initial(config)
    {
      this.config := config;
      raised := new bool[config.vectorCount](_ => false);
      nmiEx, lvl1Ex, lvl0Ex := false, false, false;
      roundRobin, compact, ivsel := false, false, false;
      lvl0Pri, lvl1Vec, irq := 0, 0, NoIrq;
      new;
      assert View() == Initial(config);
    }

    /** The scan: NMI, then the level 1 vector, then level 0 in static or round-robin order. */
    method GetNextVector() returns (v: int, p: Priority)
      requires WellFormed(config, View())
      ensures v == NextVector(config, View())
      ensures v >= 0 ==> p == PriorityOf(View(), v)
    {
      v, p := -1, Level0;
      ghost var s := View();
      if nmiEx {
        NothingAbove(config, s);
        return;
      }
      if raised[1] {
        HigherLevelIsServed(config, s, 1);
        return 1, Nmi;
      }
      if lvl1Ex {
        NothingAbove(config, s);
        return;
      }
      if lvl1Vec > 0 && raised[lvl1Vec] {
        HigherLevelIsServed(config, s, lvl1Vec);
        return lvl1Vec, Level1;
      }
      if lvl0Ex {
        NothingAbove(config, s);
        return;
      }
      if lvl0Pri == 0 {
        for i := 0 to config.vectorCount
          invariant NoneBefore(config, s, i)
        {
          if raised[i] {
            FirstFoundIsServed(config, s, i, i);
            return i, Level0;
          }
          NotFoundMovesOn(config, s, i, i);
        }
      } else {
        for i := 1 to config.vectorCount + 1
          invariant NoneBefore(config, s, i - 1)
        {
          var w := (i + lvl0Pri) % config.vectorCount;
          ScanVisits(config, lvl0Pri, i, w);
          if raised[w] {
            FirstFoundIsServed(config, s, i - 1, w);
            return w, Level0;
          }
          NotFoundMovesOn(config, s, i - 1, w);
        }
      }
      NothingFound(config, s);
    }

    method GetTableBase() returns (base: nat)
      ensures base == TableBase(config, View())
    {
      base := config.bootBase;
      if !ivsel && config.appCodeSize > 0 {
        base := config.appCodeBase;
      }
    }

    method GetNextIrq() returns (r: Irq)
      requires WellFormed(config, View())
      ensures r == NextIrq(config, View())
    {
      var v, p := GetNextVector();
      if v < 0 {
        return NoIrq;
      }
      var pos := v;
      if compact {
        pos := if p == Level0 then 3 else if p == Level1 then 2 else 1;
      }
      var base := GetTableBase();
      r := Irq(v, base, pos, p == Nmi);
    }

    method UpdateIrq()
      requires WellFormed(config, View())
      modifies this`irq
      ensures Valid() && View() == Refresh(config, old(View()))
    {
      var r := GetNextIrq();
      NextIrqIgnoresCache(config, View(), r);
      irq := r;
      assert View() == old(View()).(irq := r);
    }

    method RaiseInterrupt(v: nat)
      requires Valid() && v < config.vectorCount
      modifies this, raised
      ensures Valid() && View() == Step(config, old(View()), Raise(v))
    {
      if config.used[v] && !raised[v] {
        raised[v] := true;
        assert raised[..] == old(raised[..])[v := true];
        UpdateIrq();
      }
    }

    method CancelInterrupt(v: nat)
      requires Valid() && v < config.vectorCount
      modifies this, raised
      ensures Valid() && View() == Step(config, old(View()), Cancel(v))
    {
      StepKeepsCoherent(config, View(), Cancel(v));
      if config.used[v] && raised[v] {
        Withdraw(v);
        if irq.Irq? && irq.vector == v {
          UpdateIrq();
        }
      }
    }

    method Withdraw(v: nat)
      requires v < raised.Length
      modifies raised
      ensures View() == old(View()).(raised := old(raised[..])[v := false])
    {
      raised[v] := false;
      assert raised[..] == old(raised[..])[v := false];
    }

    /** The CPU takes the pending request. */
    method CpuAckIrq()
      requires Valid() && irq.Irq?
      modifies this, raised
      ensures Valid() && View() == Step(config, old(View()), Ack)
    {
      var vector := irq.vector;
      if vector > 0 {
        var priority;
        if vector <= 1 {
          priority := Nmi;
        } else if vector == lvl1Vec {
          priority := Level1;
        } else {
          priority := Level0;
        }
        match priority {
          case Level0 => lvl0Ex := true;
          case Level1 => lvl1Ex := true;
          case Nmi => nmiEx := true;
        }
        if priority == Level0 && roundRobin {
          lvl0Pri := vector % 256;
        }
      }
      raised[vector] := true;
      assert raised[..] == old(raised[..])[vector := true];
      assert View() == Acked(old(View()), vector);
      UpdateIrq();
    }

    method CpuReti()
      requires Valid()
      modifies this
      ensures Valid() && View() == Step(config, old(View()), Reti)
    {
      if nmiEx {
        nmiEx := false;
      } else if lvl1Ex {
        lvl1Ex := false;
      } else {
        lvl0Ex := false;
      }
      UpdateIrq();
    }

    /** All vectors are withdrawn; the registers are zeroed by the core before this. */
    method DoReset()
      requires Valid()
      modifies this, raised
      ensures Valid() && View() == Step(config, old(View()), Reset)
    {
      for v := 0 to config.vectorCount
        invariant forall w | 0 <= w < v :: !raised[w]
      {
        raised[v] := false;
      }
      nmiEx, lvl1Ex, lvl0Ex := false, false, false;
      roundRobin, compact, ivsel := false, false, false;
      lvl0Pri, lvl1Vec, irq := 0, 0, NoIrq;
      assert View() == Initial(config);
      NothingRaisedNothingServed(config);
    }

    method WriteCtrlAReg(rr: bool, cvt: bool, iv: bool)
      requires Valid()
      modifies this
      ensures Valid() && View() == Step(config, old(View()), WriteCtrlA(rr, cvt, iv))
    {
      roundRobin, compact, ivsel := rr, cvt, iv;
      UpdateIrq();
    }

    method WriteLvl0PriReg(value: nat)
      requires Valid() && value < 256
      modifies this
      ensures Valid() && View() == Step(config, old(View()), WriteLvl0Pri(value))
    {
      lvl0Pri := value;
      UpdateIrq();
    }

    method WriteLvl1VecReg(value: nat)
      requires Valid() && value < config.vectorCount
      modifies this
      ensures Valid() && View() == Step(config, old(View()), WriteLvl1Vec(value))
    {
      lvl1Vec := value;
      UpdateIrq();
    }
  }
}
