/** The XT clock controller: selection of the main clock, the switch to an external source that
    waits until the source runs, and the configuration lock. */
module XtClock {

  // CLKSEL; bit 1 marks the external sources
  const OSC20M := 0
  const ULP32K := 1
  const XOSC32K := 2
  const EXTCLK := 3

  /** `active` is the source in use, `domain` the last configuration of the main clock
      domain. Frequencies are in Hz, 0 for a clock that is not connected. */
  datatype State = State(
    main: MainControl, xosc: Oscillator, status: Status,
    active: nat, crystalFreq: nat, clockFreq: nat, domain: Domain)

  /** MCLKCTRLA, MCLKCTRLB and MCLKLOCK. */
  datatype MainControl = MainControl(clksel: nat, clkout: bool, pen: bool, pdiv: nat, locken: bool)

  /** XOSC32KCTRLA. */
  datatype Oscillator = Oscillator(enable: bool, sel: bool, csut: nat)

  /** MCLKSTATUS. */
  datatype Status = Status(sosc: bool, xosc32ks: bool, exts: bool)

  datatype Domain = Domain(source: nat, divider: nat)

  predicate External(sel: nat) { sel == XOSC32K || sel == EXTCLK }

  predicate Runs(s: State, sel: nat) {
    (sel == XOSC32K && s.xosc.enable && s.crystalFreq > 0) || (sel == EXTCLK && s.clockFreq > 0)
  }

  function Prescaler(pdiv: nat): nat {
    match pdiv
    case 0 => 2 case 1 => 4 case 2 => 8 case 3 => 16 case 4 => 32 case 5 => 64
    case 8 => 6 case 9 => 10 case 10 => 12 case 11 => 24 case 12 => 48
    case _ => 2
  }

  function Divider(s: State): nat { if s.main.pen then Prescaler(s.main.pdiv) else 1 }

  /** A switch from an internal to an external source waits for the source to run. */
  predicate Waits(s: State) {
    External(s.main.clksel) && !External(s.active) && !Runs(s, s.main.clksel)
  }

  /** The source in use follows the selection as soon as it may. */
  function SourceSelected(s: State): State {
    s.(status := s.status.(sosc := if External(s.main.clksel) && !External(s.active) then Waits(s) else s.status.sosc),
       active := if Waits(s) then s.active else s.main.clksel)
  }

  /** The main clock domain and the status bits follow the source in use. */
  function DomainConfigured(s: State): State {
    s.(domain := Domain(if s.active <= EXTCLK then s.active else OSC20M, Divider(s)),
       status := Status(s.status.sosc, s.xosc.enable && s.crystalFreq > 0, s.clockFreq > 0))
  }

  function ClocksUpdated(s: State): State { DomainConfigured(SourceSelected(s)) }

  datatype Event =
    | WriteMclkctrla(clksel: nat, clkout: bool)
    | WriteMclkctrlb(pen: bool, pdiv: nat)
    | WriteMclklock(locken: bool)
    | WriteXosc32kctrla(enable: bool, sel: bool, csut: nat)
    | SetExternal(crystal: bool, freq: int)
    | Reset(fuseLock: bool)

  predicate Legal(e: Event) {
    e.WriteMclkctrla? ==> e.clksel <= EXTCLK
  }

  /** What an event does to the registers and the external clocks. */
  function Changed(s: State, e: Event): State {
    match e
    case WriteMclkctrla(sel, out) => s.(main := SelectionWritten(s.main, sel, out))
    case WriteMclkctrlb(pen, pdiv) => if s.main.locken then s else s.(main := s.main.(pen := pen, pdiv := pdiv))
    case WriteMclklock(l) => s.(main := s.main.(locken := s.main.locken || l))
    case WriteXosc32kctrla(en, sel, csut) => s.(xosc := OscillatorWritten(s, en, sel, csut))
    case SetExternal(crystal, f) =>
      var freq: nat := if f < 0 then 0 else f;
      if crystal then s.(crystalFreq := freq) else s.(clockFreq := freq)
    case Reset(fuseLock) => WasReset(s, fuseLock)
  }

  /** An external selection stays; the lock keeps both fields. */
  function SelectionWritten(m: MainControl, sel: nat, out: bool): MainControl {
    if m.locken then m
    else m.(clksel := if External(m.clksel) then m.clksel else sel, clkout := out)
  }

  /** Only the enable bit may change while the oscillator is enabled or running. */
  function OscillatorWritten(s: State, en: bool, sel: bool, csut: nat): Oscillator {
    if s.xosc.enable || s.status.xosc32ks then s.xosc.(enable := en) else Oscillator(en, sel, csut)
  }

  function WasReset(s: State, fuseLock: bool): State {
    s.(main := MainControl(OSC20M, false, true, 8, fuseLock), xosc := Oscillator(false, false, 0),
       status := Status(false, false, false), active := OSC20M)
  }

  function Step(s: State, e: Event): State {
    if e.WriteMclklock? then Changed(s, e) else ClocksUpdated(Changed(s, e))
  }

  function Run(s: State, es: seq<Event>): State
    decreases |es|
  {
    if es == [] then s else Run(Step(s, es[0]), es[1..])
  }

  // ---------- The switch ----------

  ghost predicate Consistent(s: State) {
    && s.main.clksel <= EXTCLK && s.active <= EXTCLK
    && (s.status.sosc <==> External(s.main.clksel) && !External(s.active))
    && (!s.status.sosc ==> s.active == s.main.clksel)
    && (s.status.sosc ==> !Runs(s, s.main.clksel))
    && s.domain.source == s.active && s.domain.divider == Divider(s)
    && s.status.xosc32ks == (s.xosc.enable && s.crystalFreq > 0) && s.status.exts == (s.clockFreq > 0)
  }

  /** What an update needs of the registers to leave them consistent. */
  predicate Settled(s: State) {
    && s.main.clksel <= EXTCLK && s.active <= EXTCLK
    && (External(s.active) ==> s.active == s.main.clksel)
    && (s.status.sosc ==> External(s.main.clksel) && !External(s.active))
  }

  lemma UpdateIsConsistent(s: State)
    requires Settled(s)
    ensures Consistent(ClocksUpdated(s))
  {
  }

  lemma ChangeKeepsSettled(s: State, e: Event)
    requires Consistent(s) && Legal(e)
    ensures Settled(Changed(s, e))
  {
    match e
    case WriteMclkctrla(_, _) =>
    case Reset(_) =>
    case _ =>
      var t := Changed(s, e);
      assert t.main.clksel == s.main.clksel && t.active == s.active && t.status.sosc == s.status.sosc;
  }

  lemma StepKeepsConsistent(s: State, e: Event)
    requires Consistent(s) && Legal(e)
    ensures Consistent(Step(s, e))
  {
    if !e.WriteMclklock? {
      ChangeKeepsSettled(s, e);
      UpdateIsConsistent(Changed(s, e));
    }
  }

  /** In every reachable state SOSC is set exactly while an external source is selected and an
      internal one still in use, which is only while the selected source does not run;
      otherwise the source in use is the selected one. The main clock domain is always
      configured from the source in use and the prescaler setting. */
  lemma {:induction false} AlwaysConsistent(s: State, es: seq<Event>)
    requires Consistent(s) && forall i | 0 <= i < |es| :: Legal(es[i])
    ensures Consistent(Run(s, es))
    decreases |es|
  {
    if es != [] {
      StepKeepsConsistent(s, es[0]);
      AlwaysConsistent(Step(s, es[0]), es[1..]);
    }
  }

  /** So a pending switch completes with the event that starts the source, whichever it is. */
  lemma SwitchCompletes(s: State, e: Event)
    requires Consistent(s) && Legal(e) && !e.Reset? && s.status.sosc
    ensures Step(s, e).main.clksel == s.main.clksel && External(s.main.clksel)
    ensures var t := Step(s, e);
            && (t.active == t.main.clksel <==>
                (t.main.clksel == XOSC32K && t.status.xosc32ks) || (t.main.clksel == EXTCLK && t.status.exts))
            && (t.status.sosc <==> t.active != t.main.clksel)
  {
    StepKeepsConsistent(s, e);
    StepKeepsSelection(s, e);
    SettledOrWaiting(Step(s, e));
  }

  lemma SettledOrWaiting(s: State)
    requires Consistent(s) && External(s.main.clksel)
    ensures s.status.sosc <==> s.active != s.main.clksel
    ensures s.status.sosc ==> !Runs(s, s.main.clksel)
  {
  }

  lemma StepKeepsSelection(s: State, e: Event)
    requires External(s.main.clksel) && !e.Reset?
    ensures Step(s, e).main.clksel == s.main.clksel
    ensures Changed(s, e).main.clksel == s.main.clksel && Changed(s, e).active == s.active
  {
    ChangeKeepsSelection(s, e);
    UpdateKeepsSelection(Changed(s, e));
  }

  lemma ChangeKeepsSelection(s: State, e: Event)
    requires External(s.main.clksel) && !e.Reset?
    ensures Changed(s, e).main.clksel == s.main.clksel && Changed(s, e).active == s.active
  {
    match e
    case WriteMclkctrla(_, _) =>
    case WriteXosc32kctrla(_, _, _) =>
    case _ =>
  }

  lemma UpdateKeepsSelection(s: State)
    ensures ClocksUpdated(s).main.clksel == s.main.clksel
  {
  }

  lemma UpdateKeepsExternal(s: State)
    requires External(s.main.clksel) && External(s.active) && s.active == s.main.clksel
    ensures ClocksUpdated(s).active == s.active
  {
  }

  lemma StepKeepsExternal(s: State, e: Event)
    requires External(s.main.clksel) && !e.Reset? && External(s.active) && s.active == s.main.clksel
    ensures Step(s, e).active == s.main.clksel
  {
    StepKeepsSelection(s, e);
    UpdateKeepsExternal(Changed(s, e));
  }

  lemma StepSwitchesOnlyToSelected(s: State, e: Event)
    requires External(s.main.clksel) && !e.Reset? && !External(s.active)
    ensures External(Step(s, e).active) ==> Step(s, e).active == s.main.clksel
  {
    StepKeepsSelection(s, e);
  }

  /** An external selection is final until a reset, and so is the switch to it, even if the
      source stops. */
  lemma {:induction false} ExternalIsFinal(s: State, es: seq<Event>)
    requires External(s.main.clksel) && s.active <= EXTCLK && (External(s.active) ==> s.active == s.main.clksel)
    requires forall i | 0 <= i < |es| :: !es[i].Reset? && Legal(es[i])
    ensures Run(s, es).main.clksel == s.main.clksel
    ensures s.active == s.main.clksel ==> Run(s, es).active == s.active
    decreases |es|
  {
    if es != [] {
      StepKeepsSelection(s, es[0]);
      if External(s.active) { StepKeepsExternal(s, es[0]); } else { StepSwitchesOnlyToSelected(s, es[0]); }
      ExternalIsFinal(Step(s, es[0]), es[1..]);
    }
  }

  predicate SameSettings(s: State, t: State) {
    t.main == s.main
  }

  lemma StepKeepsLocked(s: State, e: Event)
    requires s.main.locken && !e.Reset?
    ensures SameSettings(s, Step(s, e)) && (s.active == s.main.clksel ==> Step(s, e).active == s.active)
  {
    var u := Changed(s, e);
    assert SameSettings(s, u) && u.active == s.active;
    UpdateKeepsSettings(u);
  }

  lemma UpdateKeepsSettings(s: State)
    requires s.main.locken
    ensures SameSettings(s, ClocksUpdated(s)) && (s.active == s.main.clksel ==> ClocksUpdated(s).active == s.active)
  {
  }

  /** Once LOCKEN is set, it stays set and the two main clock registers never change until a
      reset; nor can a switch that had already completed be undone. */
  lemma {:induction false} LockIsFinal(s: State, es: seq<Event>)
    requires s.main.locken && forall i | 0 <= i < |es| :: !es[i].Reset?
    ensures var t := Run(s, es);
            && SameSettings(s, t)
            && (s.active == s.main.clksel ==> t.active == s.active)
    decreases |es|
  {
    if es != [] {
      StepKeepsLocked(s, es[0]);
      LockIsFinal(Step(s, es[0]), es[1..]);
    }
  }

  // ---------- What the registers and the domain hold ----------

  /** A write to MCLKCTRLA takes effect if and only if the registers are not locked, and on the
      selection if that is moreover an internal source. */
  lemma SelectionIff(s: State, sel: nat, out: bool)
    ensures var t := Step(s, WriteMclkctrla(sel, out));
            && t.main == s.main.(clksel := t.main.clksel, clkout := t.main.clkout)
            && (t.main.clksel == sel <==> sel == s.main.clksel || (!s.main.locken && !External(s.main.clksel)))
            && (t.main.clksel == sel || t.main.clksel == s.main.clksel)
            && (t.main.clkout == out <==> out == s.main.clkout || !s.main.locken)
  {
  }

  /** So does a write to MCLKCTRLB if and only if they are not locked. */
  lemma PrescalerIff(s: State, pen: bool, pdiv: nat)
    ensures var t := Step(s, WriteMclkctrlb(pen, pdiv));
            && t.main == s.main.(pen := t.main.pen, pdiv := t.main.pdiv)
            && ((t.main.pen, t.main.pdiv) == (pen, pdiv) <==> (pen, pdiv) == (s.main.pen, s.main.pdiv) || !s.main.locken)
            && ((t.main.pen, t.main.pdiv) == (pen, pdiv) || t.main == s.main)
  {
  }

  /** ENABLE of the oscillator can always be written, its mode and start-up time if and only if it is
      neither enabled nor running. */
  lemma OscillatorIff(s: State, en: bool, sel: bool, csut: nat)
    requires Consistent(s)
    ensures var t := Step(s, WriteXosc32kctrla(en, sel, csut)).xosc;
            && t.enable == en
            && ((t.sel, t.csut) == (sel, csut) <==> (sel, csut) == (s.xosc.sel, s.xosc.csut) || !s.xosc.enable)
            && ((t.sel, t.csut) == (sel, csut) || (t.sel, t.csut) == (s.xosc.sel, s.xosc.csut))
  {
  }

  /** Every other register and clock is left as it is by an event. */
  lemma StepTouches(s: State, e: Event)
    requires !e.Reset?
    ensures var t := Step(s, e);
            && (!e.WriteMclkctrla? && !e.WriteMclkctrlb? && !e.WriteMclklock? ==> t.main == s.main)
            && (!e.WriteXosc32kctrla? ==> t.xosc == s.xosc)
            && (!(e.SetExternal? && e.crystal) ==> t.crystalFreq == s.crystalFreq)
            && (!(e.SetExternal? && !e.crystal) ==> t.clockFreq == s.clockFreq)
  {
    match e
    case WriteMclkctrla(_, _) =>
    case WriteMclkctrlb(_, _) =>
    case WriteMclklock(_) =>
    case WriteXosc32kctrla(_, _, _) =>
    case SetExternal(_, _) =>
  }

  predicate Locks(es: seq<Event>) {
    es != [] && ((es[0].WriteMclklock? && es[0].locken) || Locks(es[1..]))
  }

  lemma {:induction false} LockStays(s: State, es: seq<Event>)
    requires forall i | 0 <= i < |es| :: !es[i].Reset?
    ensures Run(s, es).main.locken <==> s.main.locken || Locks(es)
    decreases |es|
  {
    if es != [] { LockStays(Step(s, es[0]), es[1..]); }
  }

  /** LOCKEN is set if and only if the fuse says so or a one has been written to it since the reset. */
  lemma LockIff(s: State, fuseLock: bool, es: seq<Event>)
    requires forall i | 0 <= i < |es| :: !es[i].Reset?
    ensures Run(Step(s, Reset(fuseLock)), es).main.locken <==> fuseLock || Locks(es)
  {
    LockStays(Step(s, Reset(fuseLock)), es);
  }

  /** The frequency last given to an external clock, none if it was negative. */
  lemma FrequencyIs(s: State, crystal: bool, f: int)
    ensures var t := Step(s, SetExternal(crystal, f));
            && (if crystal then t.crystalFreq else t.clockFreq) == (if f > 0 then f else 0)
  {
  }

  /** After a reset the main clock is the internal oscillator divided by six, and the external clocks
      are connected as before. */
  lemma AfterReset(s: State, fuseLock: bool)
    ensures var t := Step(s, Reset(fuseLock));
            && Consistent(t) && t.domain == Domain(OSC20M, 6) && t.active == t.main.clksel == OSC20M
            && t.main.pen && !t.main.clkout && !t.xosc.enable && !t.xosc.sel && t.xosc.csut == 0
            && t.crystalFreq == s.crystalFreq && t.clockFreq == s.clockFreq
  {
    UpdateIsConsistent(WasReset(s, fuseLock));
  }

  /** The dividers of the main clock prescaler. */
  const DIVIDERS: seq<nat> := [2, 4, 8, 16, 32, 64, 2, 2, 6, 10, 12, 24, 48]

  /** In every reachable state the main clock domain runs from the source in use, divided as PEN and
      PDIV say; and the status bits tell which external clocks run, the crystal only if enabled. */
  lemma DomainIs(s: State, es: seq<Event>)
    requires Consistent(s) && forall i | 0 <= i < |es| :: Legal(es[i])
    ensures var t := Run(s, es);
            && t.domain.source == t.active
            && t.domain.divider == (if !t.main.pen then 1
                                    else if t.main.pdiv < |DIVIDERS| then DIVIDERS[t.main.pdiv] else 2)
            && (t.status.xosc32ks <==> t.xosc.enable && t.crystalFreq > 0)
            && (t.status.exts <==> t.clockFreq > 0)
  {
    AlwaysConsistent(s, es);
    PrescalerIs(Run(s, es).main.pdiv);
  }

  lemma PrescalerIs(pdiv: nat)
    ensures Prescaler(pdiv) == if pdiv < |DIVIDERS| then DIVIDERS[pdiv] else 2
  {
  }

  /** A switch is complete exactly when the source is internal or its status bit was set when the
      switch was made; while it is pending the status bit of the selected source is clear. */
  lemma PendingMeansStopped(s: State, es: seq<Event>)
    requires Consistent(s) && forall i | 0 <= i < |es| :: Legal(es[i])
    ensures var t := Run(s, es);
            t.status.sosc ==> (t.main.clksel == XOSC32K && !t.status.xosc32ks)
                              || (t.main.clksel == EXTCLK && !t.status.exts)
  {
    AlwaysConsistent(s, es);
  }

  // ---------- The controller ----------

  class ClockController {
    var main: MainControl
    var xosc: Oscillator
    var status: Status
    var activeMainSel: nat
    var crystalFreq: nat
    var clockFreq: nat
    var domain: Domain

    ghost function View(): State
      reads this
    {
      State(main, xosc, status, activeMainSel, crystalFreq, clockFreq, domain)
    }

    /** The controller as the first reset leaves it. */
    constructor (fuseLock: bool)
      ensures Consistent(View()) && main.locken == fuseLock && main.clksel == OSC20M
    {
      main := MainControl(OSC20M, false, true, 8, fuseLock);
      xosc := Oscillator(false, false, 0);
      status := Status(false, false, false);
      activeMainSel, crystalFreq, clockFreq := OSC20M, 0, 0;
      domain := Domain(OSC20M, 6);
    }

    method UpdateClocks()
      modifies `status, `activeMainSel, `domain
      ensures View() == ClocksUpdated(old(View()))
    {
      var extCrystOn := xosc.enable && crystalFreq > 0;
      SelectSource(extCrystOn);
      ConfigureDomain();
      status := status.(xosc32ks := extCrystOn, exts := clockFreq > 0);
    }

    method SelectSource(extCrystOn: bool)
      requires extCrystOn == (xosc.enable && crystalFreq > 0)
      modifies `status, `activeMainSel
      ensures View() == SourceSelected(old(View()))
    {
      var clksel := main.clksel;
      if (clksel == XOSC32K || clksel == EXTCLK) && !(activeMainSel == XOSC32K || activeMainSel == EXTCLK) {
        var canSwitch := (clksel == XOSC32K && extCrystOn) || (clksel == EXTCLK && clockFreq > 0);
        if canSwitch {
          activeMainSel := clksel;
        }
        status := status.(sosc := !canSwitch);
      } else {
        activeMainSel := clksel;
      }
    }

    method ConfigureDomain()
      modifies `domain
      ensures domain == Domain(if activeMainSel <= EXTCLK then activeMainSel else OSC20M, Divider(View()))
    {
      var source := OSC20M;
      if activeMainSel == ULP32K || activeMainSel == XOSC32K || activeMainSel == EXTCLK {
        source := activeMainSel;
      }
      var divider := 1;
      if main.pen {
        divider := Prescaler(main.pdiv);
      }
      domain := Domain(source, divider);
    }

    method WriteMclkctrlaReg(sel: nat, out: bool)
      modifies `main, `status, `activeMainSel, `domain
      ensures View() == Step(old(View()), WriteMclkctrla(sel, out))
    {
      var was := main;
      main := main.(clksel := sel, clkout := out);
      if was.locken {
        main := was;
      }
      if (was.clksel == XOSC32K || was.clksel == EXTCLK) && sel != was.clksel {
        main := main.(clksel := was.clksel);
      }
      UpdateClocks();
    }

    method WriteMclkctrlbReg(p: bool, d: nat)
      modifies `main, `status, `activeMainSel, `domain
      ensures View() == Step(old(View()), WriteMclkctrlb(p, d))
    {
      var was := main;
      main := main.(pen := p, pdiv := d);
      if was.locken {
        main := was;
      }
      UpdateClocks();
    }

    method WriteMclklockReg(l: bool)
      modifies `main
      ensures View() == Step(old(View()), WriteMclklock(l))
    {
      var oldLock := main.locken;
      main := main.(locken := l);
      if oldLock && !l {
        main := main.(locken := true);
      }
    }

    method WriteXosc32kctrlaReg(enable: bool, sel: bool, startup: nat)
      modifies `xosc, `status, `activeMainSel, `domain
      ensures View() == Step(old(View()), WriteXosc32kctrla(enable, sel, startup))
    {
      var was := xosc;
      xosc := Oscillator(enable, sel, startup);
      if was.enable || status.xosc32ks {
        xosc := xosc.(sel := was.sel, csut := was.csut);
      }
      UpdateClocks();
    }

    method SetExternalClock(crystal: bool, freq: int)
      modifies `crystalFreq, `clockFreq, `status, `activeMainSel, `domain
      ensures View() == Step(old(View()), SetExternal(crystal, freq))
    {
      if crystal {
        crystalFreq := if freq < 0 then 0 else freq;
      } else {
        clockFreq := if freq < 0 then 0 else freq;
      }
      UpdateClocks();
    }

    /** The core zeroes the registers before the controller takes its part of the reset. */
    method DoReset(fuseLock: bool)
      modifies `main, `xosc, `status, `activeMainSel, `domain
      ensures View() == Step(old(View()), Reset(fuseLock))
    {
      main := MainControl(OSC20M, false, false, 0, false);
      xosc := Oscillator(false, false, 0);
      status := Status(false, false, false);
      activeMainSel := OSC20M;
      main := main.(pen := true, pdiv := 8);
      main := main.(locken := fuseLock);
      UpdateClocks();
    }
  }
}
