/** The double-buffered registers of the XMEGA-style timer A in single mode: the period and three
    compare values, their buffers, the lock that keeps an update whole, and the 16-bit accesses
    through the shared TEMP register. The counter appears as the configuration it is given and
    as the events it raises. */
module XtTimerA {

  type Octet = n: nat | n < 256

  /** A 16-bit register. */
  datatype Word = Word(hi: Octet, lo: Octet)

  /** A register, its buffer, and whether the buffer waits to be moved. */
  datatype Buffered = Buffered(value: Word, buffer: Word, flag: bool)

  type Index = i: nat | i < 3

  const UNSET := Buffered(Word(0, 0), Word(0, 0), false)

  type Channels = s: seq<Buffered> | |s| == 3 witness [UNSET, UNSET, UNSET]

  type Values = s: seq<Word> | |s| == 3 witness [Word(0, 0), Word(0, 0), Word(0, 0)]

  /** The valid bits of CTRLFSET and CTRLFCLR: the period, then the compare channels. */
  type ValidBits = s: seq<bool> | |s| == 4 witness [false, false, false, false]

  datatype Wave = Normal | Frequency | SingleSlope | DsTop | DsBoth | DsBottom | Reserved

  /** `top` and `comp` are the settings of the counter. */
  datatype State = State(
    wave: Wave, alupd: bool, lupd: bool,
    per: Buffered, cmp: Channels,
    fset: ValidBits, fclr: ValidBits,
    temp: Octet,
    top: Word, comp: Values)

  predicate AllFlagged(s: State) { s.per.flag && s.cmp[0].flag && s.cmp[1].flag && s.cmp[2].flag }

  /** With ALUPD set the lock is released only when every buffer has been written. */
  function LockUpdated(s: State): State { if s.alupd then s.(lupd := !AllFlagged(s)) else s }

  function TopOf(s: State): Word { if s.wave == Frequency then s.cmp[0].value else s.per.value }

  function CompOf(s: State): Values { [s.cmp[0].value, s.cmp[1].value, s.cmp[2].value] }

  function Configured(s: State): State { s.(top := TopOf(s), comp := CompOf(s)) }

  function Moved(b: Buffered): Buffered { if b.flag then Buffered(b.buffer, b.buffer, false) else b }

  function AllMoved(cs: Channels): Channels { [Moved(cs[0]), Moved(cs[1]), Moved(cs[2])] }

  function Unmarked(bits: ValidBits, per: Buffered, cs: Channels): ValidBits {
    [bits[0] && !per.flag, bits[1] && !cs[0].flag, bits[2] && !cs[1].flag, bits[3] && !cs[2].flag]
  }

  /** The waiting buffers move into their registers. The counter is told of it only when the
      period or the first compare channel is among them. */
  function RegistersMoved(s: State): State {
    var t := s.(per := Moved(s.per), cmp := AllMoved(s.cmp),
                fset := Unmarked(s.fset, s.per, s.cmp), fclr := Unmarked(s.fclr, s.per, s.cmp));
    if s.per.flag || s.cmp[0].flag then Configured(t) else t
  }

  function Transferred(s: State): State { if s.lupd then s else LockUpdated(RegistersMoved(s)) }

  datatype Target = Cnt | Per | Cmp(i: Index) | PerBuf | CmpBuf(j: Index)

  function PerBuffered(s: State, w: Word): State {
    LockUpdated(s.(per := Buffered(s.per.value, w, true), fset := s.fset[0 := true], fclr := s.fclr[0 := true]))
  }

  /** The valid bit of a compare channel appears in CTRLFSET alone. */
  function CmpBuffered(s: State, i: Index, w: Word): State {
    LockUpdated(s.(cmp := s.cmp[i := Buffered(s.cmp[i].value, w, true)], fset := s.fset[i + 1 := true]))
  }

  function CmpWritten(s: State, i: Index, w: Word): State {
    Configured(s.(cmp := s.cmp[i := s.cmp[i].(value := w)]))
  }

  function HighWritten(s: State, t: Target, v: Octet): State {
    var w := Word(v, s.temp);
    match t
    case Cnt => s
    case Per => Configured(s.(per := s.per.(value := w)))
    case Cmp(i) => CmpWritten(s, i, w)
    case PerBuf => PerBuffered(s, w)
    case CmpBuf(i) => CmpBuffered(s, i, w)
  }

  /** The register behind a 16-bit access; the counter value comes from outside. */
  function Register(s: State, t: Target, cnt: Word): Word {
    match t
    case Cnt => cnt
    case Per => s.per.value
    case Cmp(i) => s.cmp[i].value
    case PerBuf => s.per.buffer
    case CmpBuf(i) => s.cmp[i].buffer
  }

  /** The high byte of a register as TEMP holds it after its low byte was read. */
  function LowRead(s: State, source: Target, cnt: Word): State { s.(temp := Register(s, source, cnt).hi) }

  function CtrlBWritten(s: State, wave: Wave, alupd: bool): State {
    Configured(LockUpdated(s.(wave := wave, alupd := alupd)))
  }

  datatype Command = NoCommand | Update | Restart | HardReset

  const RESET := State(Normal, false, false, Buffered(Word(255, 255), Word(255, 255), false), [UNSET, UNSET, UNSET],
                       [false, false, false, false], [false, false, false, false], 0,
                       Word(255, 255), [Word(0, 0), Word(0, 0), Word(0, 0)])

  function CtrlESetWritten(s: State, lupd: bool, cmd: Command): State {
    match cmd
    case HardReset => RESET
    case Update => Transferred(s.(lupd := s.lupd || lupd))
    case _ => s.(lupd := s.lupd || lupd)
  }

  function OrBits(a: ValidBits, b: ValidBits): ValidBits { [a[0] || b[0], a[1] || b[1], a[2] || b[2], a[3] || b[3]] }

  function MinusBits(a: ValidBits, b: ValidBits): ValidBits {
    [a[0] && !b[0], a[1] && !b[1], a[2] && !b[2], a[3] && !b[3]]
  }

  /** Each of the two registers computes from its own old value and overwrites the other. */
  function CtrlFSetWritten(s: State, mask: ValidBits): State { var v := OrBits(s.fset, mask); s.(fset := v, fclr := v) }

  function CtrlFClrWritten(s: State, mask: ValidBits): State {
    var v := MinusBits(s.fclr, mask);
    s.(fset := v, fclr := v)
  }

  /** Where the counter has to be for the buffers to move. */
  predicate UpdatesAtTop(wave: Wave, countdown: bool) { (wave == Normal || wave == Frequency) && !countdown }

  predicate UpdatesAtBottom(wave: Wave, countdown: bool) {
    || ((wave == Normal || wave == Frequency) && countdown)
    || wave == SingleSlope || wave == DsTop || wave == DsBoth || wave == DsBottom
  }

  datatype Event =
    | WriteCtrlB(wave: Wave, alupd: bool)
    | WriteCtrlESet(lock: bool, cmd: Command)
    | WriteCtrlEClr(unlock: bool)
    | WriteCtrlFSet(setMask: ValidBits)
    | WriteCtrlFClr(clrMask: ValidBits)
    | WriteLow(low: Octet)
    | WriteHigh(target: Target, high: Octet)
    | ReadLow(source: Target, cnt: Word)
    | CounterTop(topDown: bool)
    | CounterBottom(bottomDown: bool)

  function AccessStep(s: State, e: Event): State {
    match e
    case WriteLow(v) => s.(temp := v)
    case WriteHigh(t, v) => HighWritten(s, t, v)
    case ReadLow(t, cnt) => LowRead(s, t, cnt)
    case _ => s
  }

  function Step(s: State, e: Event): State {
    match e
    case WriteCtrlB(w, a) => CtrlBWritten(s, w, a)
    case WriteCtrlESet(l, c) => CtrlESetWritten(s, l, c)
    case WriteCtrlEClr(l) => s.(lupd := s.lupd && !l)
    case WriteCtrlFSet(m) => CtrlFSetWritten(s, m)
    case WriteCtrlFClr(m) => CtrlFClrWritten(s, m)
    case CounterTop(down) => if UpdatesAtTop(s.wave, down) then Transferred(s) else s
    case CounterBottom(down) => if UpdatesAtBottom(s.wave, down) then Transferred(s) else s
    case _ => AccessStep(s, e)
  }

  function Run(s: State, es: seq<Event>): State
    decreases |es|
  {
    if es == [] then s else Run(Step(s, es[0]), es[1..])
  }

  // ---------- The automatic lock ----------

  /** The lock is held exactly while some buffer has not been written. */
  predicate AutoLocked(s: State) { s.alupd && (s.lupd <==> !AllFlagged(s)) }

  /** ALUPD stays set, LUPD is never written directly, and there is no reset by command. */
  predicate Automatic(e: Event) {
    && (e.WriteCtrlB? ==> e.alupd)
    && (e.WriteCtrlESet? ==> !e.lock && e.cmd != HardReset)
    && (e.WriteCtrlEClr? ==> !e.unlock)
  }

  lemma TransferLocks(s: State)
    requires AutoLocked(s)
    ensures AutoLocked(Transferred(s))
  {
  }

  lemma AccessLocks(s: State, e: Event)
    requires AutoLocked(s)
    ensures AutoLocked(AccessStep(s, e))
  {
    if e.WriteHigh? { HighLocks(s, e.target, e.high); }
  }

  lemma HighLocks(s: State, t: Target, v: Octet)
    requires AutoLocked(s)
    ensures AutoLocked(HighWritten(s, t, v))
  {
  }

  lemma StepLocks(s: State, e: Event)
    requires AutoLocked(s) && Automatic(e)
    ensures AutoLocked(Step(s, e))
  {
    TransferLocks(s);
    AccessLocks(s, e);
  }

  lemma {:induction false} LockIsAutomatic(s: State, es: seq<Event>)
    requires AutoLocked(s) && forall i | 0 <= i < |es| :: Automatic(es[i])
    ensures AutoLocked(Run(s, es))
    decreases |es|
  {
    if es != [] {
      StepLocks(s, es[0]);
      LockIsAutomatic(Step(s, es[0]), es[1..]);
    }
  }

  /** All or nothing: under the automatic lock an update moves all four buffers and clears all four
      flags, or changes nothing at all. */
  lemma AllOrNothing(s: State)
    requires AutoLocked(s)
    ensures var t := Transferred(s);
            if AllFlagged(s) then
              && t.per == Buffered(s.per.buffer, s.per.buffer, false)
              && (forall i: Index :: t.cmp[i] == Buffered(s.cmp[i].buffer, s.cmp[i].buffer, false))
              && t.lupd && InSync(t)
            else t == s
  {
  }

  // ---------- What the counter is told ----------

  /** The settings of the counter are those of the registers. */
  predicate InSync(s: State) { s.top == TopOf(s) && s.comp == CompOf(s) }

  /** A buffered update of the second or third compare channel alone does not reach the counter:
      the settings still agree after an update if and only if nothing moved, or the period or the
      first channel was among what moved, or what moved was no change. */
  lemma UpdateReachesCounter(s: State)
    requires InSync(s)
    ensures InSync(Transferred(s)) <==>
            s.lupd || s.per.flag || s.cmp[0].flag
            || (Moved(s.cmp[1]).value == s.cmp[1].value && Moved(s.cmp[2]).value == s.cmp[2].value)
  {
  }

  lemma StepSyncs(s: State, e: Event)
    requires AutoLocked(s) && InSync(s) && Automatic(e)
    ensures InSync(Step(s, e))
  {
    UpdateReachesCounter(s);
    if e.WriteHigh? { HighSyncs(s, e.target, e.high); }
  }

  lemma HighSyncs(s: State, t: Target, v: Octet)
    requires InSync(s)
    ensures InSync(HighWritten(s, t, v))
  {
  }

  /** Under the automatic lock the counter always runs with the registers a program reads: its top is
      the first compare register in frequency mode and the period otherwise, and its compare values
      those of the three compare registers. */
  lemma {:induction false} CounterFollows(s: State, es: seq<Event>)
    requires AutoLocked(s) && InSync(s) && forall i | 0 <= i < |es| :: Automatic(es[i])
    ensures var t := Run(s, es);
            && InSync(t)
            && t.top == (if t.wave == Frequency then t.cmp[0].value else t.per.value)
            && t.comp[0] == t.cmp[0].value && t.comp[1] == t.cmp[1].value && t.comp[2] == t.cmp[2].value
    decreases |es|
  {
    if es != [] {
      StepLocks(s, es[0]);
      StepSyncs(s, es[0]);
      CounterFollows(Step(s, es[0]), es[1..]);
    }
  }

  // ---------- When the buffers move ----------

  /** A register after an update: the buffer if it waits. */
  predicate Took(b: Buffered, c: Buffered) {
    if b.flag then c == Buffered(b.buffer, b.buffer, false) else c == b
  }

  /** An update with the lock open, whichever buffers wait: each that does, and no other, moves into
      its register and its flag is cleared; only the lock can change besides, and the counter. */
  lemma UpdateMovesWaiting(s: State)
    requires !s.lupd
    ensures var t := Transferred(s);
            && Took(s.per, t.per) && (forall i: Index :: Took(s.cmp[i], t.cmp[i]))
            && t.wave == s.wave && t.alupd == s.alupd && t.temp == s.temp
            && (t.lupd <==> s.alupd)
  {
  }

  lemma LockedDoesNothing(s: State)
    requires s.lupd
    ensures Transferred(s) == s
  {
  }

  /** Which counter events are updates: in normal and frequency mode the end of the count in its
      direction, in the slope modes the bottom; nothing in the reserved mode. */
  predicate IsUpdate(wave: Wave, e: Event) {
    match e
    case CounterTop(down) => (wave == Normal || wave == Frequency) && !down
    case CounterBottom(down) =>
      if wave == Normal || wave == Frequency then down else wave != Reserved
    case WriteCtrlESet(lock, cmd) => cmd == Update && !lock
    case _ => false
  }

  /** With a buffer waiting and the lock open, an event of the counter or an update command moves the
      buffers if and only if it is an update; without that it changes nothing but the lock. */
  lemma MovesIff(s: State, e: Event)
    requires (e.CounterTop? || e.CounterBottom? || (e.WriteCtrlESet? && e.cmd != HardReset)) && !s.lupd
    ensures var t := Step(s, e);
            && (IsUpdate(s.wave, e) ==> t == Transferred(s))
            && (!IsUpdate(s.wave, e) ==> t == s.(lupd := t.lupd))
            && (!IsUpdate(s.wave, e) && (e.CounterTop? || e.CounterBottom?) ==> t == s)
            && (e.WriteCtrlESet? && e.lock ==> t.lupd)
  {
    if e.WriteCtrlESet? && e.lock { LockedDoesNothing(s.(lupd := true)); }
  }

  // ---------- The control registers ----------

  /** Without ALUPD, LUPD is set and cleared by CTRLESET and CTRLECLR, and by nothing else. */
  lemma ManualLock(s: State, e: Event)
    requires !s.alupd && (e.WriteCtrlESet? ==> e.cmd != HardReset) && (e.WriteCtrlB? ==> !e.alupd)
    ensures var t := Step(s, e);
            !t.alupd && (t.lupd <==> (s.lupd || (e.WriteCtrlESet? && e.lock)) && !(e.WriteCtrlEClr? && e.unlock))
  {
    if e.WriteHigh? { HighStaysLocked(s, e.target, e.high); }
    if e.WriteCtrlESet? && e.cmd == Update { TransferKeepsManualLock(s.(lupd := s.lupd || e.lock)); }
    if e.CounterTop? || e.CounterBottom? { TransferKeepsManualLock(s); }
  }

  lemma TransferKeepsManualLock(s: State)
    requires !s.alupd
    ensures Transferred(s).lupd == s.lupd && !Transferred(s).alupd
  {
  }

  /** CTRLB sets the waveform and the automatic lock at once: the counter is told of the new top, and
      LUPD says whether a buffer has not been written. */
  lemma ModeTakesEffect(s: State, wave: Wave, alupd: bool)
    ensures var t := Step(s, WriteCtrlB(wave, alupd));
            && t.wave == wave && t.alupd == alupd && t.per == s.per && t.cmp == s.cmp
            && t.top == (if wave == Frequency then s.cmp[0].value else s.per.value)
            && (t.lupd <==> if alupd then !AllFlagged(s) else s.lupd)
  {
  }

  /** The reset command: the period and its buffer are the largest value, everything else is zero,
      clear and unlocked, and the counter runs in normal mode to the largest value. */
  lemma ResetCommand(s: State, lock: bool)
    ensures var t := Step(s, WriteCtrlESet(lock, HardReset));
            && t.wave == Normal && !t.alupd && !t.lupd && t.temp == 0
            && t.per == Buffered(Word(255, 255), Word(255, 255), false) && t.top == Word(255, 255)
            && (forall i: Index :: t.cmp[i] == Buffered(Word(0, 0), Word(0, 0), false) && t.comp[i] == Word(0, 0))
            && (forall k | 0 <= k < 4 :: !t.fset[k] && !t.fclr[k])
  {
  }

  /** A write to CTRLFSET sets the chosen valid bits, in both registers alike; it makes no buffer wait. */
  lemma SettingIsCosmetic(s: State, mask: ValidBits, k: nat)
    requires k < 4
    ensures var t := Step(s, WriteCtrlFSet(mask));
            && (t.fset[k] <==> s.fset[k] || mask[k]) && t.fclr == t.fset
            && t == s.(fset := t.fset, fclr := t.fclr)
  {
  }

  /** Writes to the unbuffered registers take effect at once, on the counter too; they leave the
      buffers and the lock alone. */
  lemma DirectWrites(s: State, high: Octet, i: Index)
    ensures var t, w := Step(s, WriteHigh(Per, high)), Word(high, s.temp);
            && t.per == s.per.(value := w) && t.cmp == s.cmp && t.lupd == s.lupd
            && (s.wave != Frequency ==> t.top == w)
    ensures var t, w := Step(s, WriteHigh(Cmp(i), high)), Word(high, s.temp);
            && t.cmp[i] == s.cmp[i].(value := w) && t.per == s.per && t.lupd == s.lupd && t.comp[i] == w
            && (s.wave == Frequency && i == 0 ==> t.top == w)
  {
  }

  // ---------- Between two updates ----------

  /** The four buffers: the period, then the compare channels. */
  type Channel = c: nat | c < 4

  function BufferOf(s: State, c: Channel): Buffered { if c == 0 then s.per else s.cmp[c - 1] }

  /** The event completes a write to the buffer. */
  predicate WritesBuffer(e: Event, c: Channel) {
    e.WriteHigh? && match e.target { case PerBuf => c == 0 case CmpBuf(i) => c == i + 1 case _ => false }
  }

  /** The event moves the buffers. */
  predicate Moves(s: State, e: Event) {
    && !s.lupd && AllFlagged(s)
    && ((e.WriteCtrlESet? && e.cmd == Update && !e.lock)
        || (e.CounterTop? && UpdatesAtTop(s.wave, e.topDown))
        || (e.CounterBottom? && UpdatesAtBottom(s.wave, e.bottomDown)))
  }

  predicate NoMove(s: State, es: seq<Event>)
    decreases |es|
  {
    es == [] || (!Moves(s, es[0]) && NoMove(Step(s, es[0]), es[1..]))
  }

  lemma StepNeedsWrite(s: State, e: Event, c: Channel)
    requires AutoLocked(s) && Automatic(e) && !BufferOf(s, c).flag && !WritesBuffer(e, c)
    ensures !BufferOf(Step(s, e), c).flag && !Moves(s, e)
  {
    AllOrNothing(s);
    if e.WriteHigh? { HighNeedsWrite(s, e.target, e.high, c); }
  }

  lemma HighNeedsWrite(s: State, t: Target, v: Octet, c: Channel)
    requires !BufferOf(s, c).flag && !WritesBuffer(WriteHigh(t, v), c)
    ensures !BufferOf(HighWritten(s, t, v), c).flag
  {
  }

  /** Once its buffer has been moved, a register holds back every further update until that buffer
      is written again: each of the four buffers is rewritten between two updates. */
  lemma {:induction false} EachBufferIsRewritten(s: State, es: seq<Event>, c: Channel)
    requires AutoLocked(s) && !BufferOf(s, c).flag
    requires forall i | 0 <= i < |es| :: Automatic(es[i]) && !WritesBuffer(es[i], c)
    ensures NoMove(s, es) && !AllFlagged(Run(s, es))
    decreases |es|
  {
    if es != [] {
      StepLocks(s, es[0]);
      StepNeedsWrite(s, es[0], c);
      EachBufferIsRewritten(Step(s, es[0]), es[1..], c);
    }
  }

  /** The last word written to a buffer, from the accesses alone: a write of the high byte takes the
      low byte from TEMP, which holds the last low byte written. */
  function LastWord(es: seq<Event>, c: Channel, temp: Octet, word: Word): Word
    decreases |es|
  {
    if es == [] then word
    else LastWord(es[1..], c, if es[0].WriteLow? then es[0].low else temp,
                  if WritesBuffer(es[0], c) then Word(es[0].high, temp) else word)
  }

  predicate NoRead(e: Event) { !e.ReadLow? && (e.WriteCtrlESet? ==> e.cmd != HardReset) }

  lemma StepBuffers(s: State, e: Event, c: Channel)
    requires NoRead(e)
    ensures Step(s, e).temp == if e.WriteLow? then e.low else s.temp
    ensures BufferOf(Step(s, e), c).buffer == if WritesBuffer(e, c) then Word(e.high, s.temp) else BufferOf(s, c).buffer
  {
    TransferKeepsBuffers(s, c);
    TransferKeepsBuffers(s.(lupd := true), c);
    if e.WriteHigh? { HighBuffers(s, e.target, e.high, c); }
  }

  lemma TransferKeepsBuffers(s: State, c: Channel)
    ensures Transferred(s).temp == s.temp && BufferOf(Transferred(s), c).buffer == BufferOf(s, c).buffer
  {
  }

  lemma HighBuffers(s: State, t: Target, v: Octet, c: Channel)
    ensures var u := HighWritten(s, t, v);
            && u.temp == s.temp
            && BufferOf(u, c).buffer == if WritesBuffer(WriteHigh(t, v), c) then Word(v, s.temp) else BufferOf(s, c).buffer
  {
  }

  /** What an update moves into a register is the last word written to its buffer. */
  lemma {:induction false} BuffersHoldLastWords(s: State, es: seq<Event>, c: Channel)
    requires forall i | 0 <= i < |es| :: NoRead(es[i])
    ensures BufferOf(Run(s, es), c).buffer == LastWord(es, c, s.temp, BufferOf(s, c).buffer)
    decreases |es|
  {
    if es != [] {
      StepBuffers(s, es[0], c);
      BuffersHoldLastWords(Step(s, es[0]), es[1..], c);
    }
  }

  // ---------- The valid bits ----------

  function ValidOf(s: State): ValidBits { [s.per.flag, s.cmp[0].flag, s.cmp[1].flag, s.cmp[2].flag] }

  /** CTRLFSET shows the four flags; CTRLFCLR shows the period only. */
  predicate ValidShown(s: State) {
    && s.fset == ValidOf(s)
    && s.fclr == [s.per.flag, false, false, false]
  }

  predicate NoValidWrite(e: Event) { !e.WriteCtrlFSet? && !e.WriteCtrlFClr? }

  lemma TransferShows(s: State)
    requires ValidShown(s)
    ensures ValidShown(Transferred(s))
  {
  }

  lemma StepShows(s: State, e: Event)
    requires ValidShown(s) && NoValidWrite(e)
    ensures ValidShown(Step(s, e))
  {
    match e
    case WriteHigh(t, v) => HighShows(s, t, v);
    case WriteCtrlESet(lock, cmd) => TransferShows(s.(lupd := s.lupd || lock));
    case CounterTop(_) => TransferShows(s);
    case CounterBottom(_) => TransferShows(s);
    case _ =>
  }

  lemma HighShows(s: State, t: Target, v: Octet)
    requires ValidShown(s)
    ensures ValidShown(HighWritten(s, t, v))
  {
  }

  /** Until one of the two is written, CTRLFSET reports every waiting buffer and CTRLFCLR none of
      the compare channels. */
  lemma {:induction false} ValidBitsDiffer(s: State, es: seq<Event>)
    requires ValidShown(s) && forall i | 0 <= i < |es| :: NoValidWrite(es[i])
    ensures ValidShown(Run(s, es))
    decreases |es|
  {
    if es != [] {
      StepShows(s, es[0]);
      ValidBitsDiffer(Step(s, es[0]), es[1..]);
    }
  }

  /** A write to CTRLFCLR, even of zeros, wipes the valid bits of the compare channels, and does not
      stop the buffers they stood for from being moved. */
  lemma ClearingIsCosmetic(s: State, mask: ValidBits)
    requires ValidShown(s)
    ensures var t := CtrlFClrWritten(s, mask);
            && t.fset == [s.per.flag && !mask[0], false, false, false]
            && Transferred(t).per == Transferred(s).per && Transferred(t).cmp == Transferred(s).cmp
  {
  }

  // ---------- 16-bit accesses ----------

  /** No other 16-bit access comes between. */
  predicate LeavesTemp(e: Event) { !e.WriteLow? && !e.ReadLow? && (e.WriteCtrlESet? ==> e.cmd != HardReset) }

  lemma {:induction false} TempKept(s: State, es: seq<Event>)
    requires forall i | 0 <= i < |es| :: LeavesTemp(es[i])
    ensures Run(s, es).temp == s.temp
    decreases |es|
  {
    if es != [] {
      StepBuffers(s, es[0], 0);
      TempKept(Step(s, es[0]), es[1..]);
    }
  }

  /** A 16-bit read is atomic: the high byte belongs to the low byte read before it, whatever
      updates and writes of high bytes come between the two. */
  lemma ReadIsAtomic(s: State, source: Target, cnt: Word, es: seq<Event>)
    requires forall i | 0 <= i < |es| :: LeavesTemp(es[i])
    ensures Run(LowRead(s, source, cnt), es).temp == Register(s, source, cnt).hi
  {
    TempKept(LowRead(s, source, cnt), es);
  }

  /** And so is a 16-bit write. */
  lemma WriteIsAtomic(s: State, low: Octet, es: seq<Event>, t: Target, high: Octet, cnt: Word)
    requires t != Cnt && forall i | 0 <= i < |es| :: LeavesTemp(es[i])
    ensures Register(HighWritten(Run(s.(temp := low), es), t, high), t, cnt) == Word(high, low)
  {
    TempKept(s.(temp := low), es);
    HighWrites(Run(s.(temp := low), es), t, high, cnt);
  }

  lemma HighWrites(s: State, t: Target, high: Octet, cnt: Word)
    requires t != Cnt
    ensures Register(HighWritten(s, t, high), t, cnt) == Word(high, s.temp)
  {
  }

  // ---------- A lock that stays ----------

  predicate LeavesLock(e: Event) {
    && (e.WriteCtrlB? ==> !e.alupd)
    && (e.WriteCtrlESet? ==> e.cmd != HardReset)
    && (e.WriteCtrlEClr? ==> !e.unlock)
  }

  lemma StepStaysLocked(s: State, e: Event)
    requires s.lupd && !s.alupd && LeavesLock(e)
    ensures Step(s, e).lupd && !Step(s, e).alupd && !Moves(s, e)
  {
    if e.WriteHigh? { HighStaysLocked(s, e.target, e.high); }
  }

  lemma HighStaysLocked(s: State, t: Target, v: Octet)
    requires !s.alupd
    ensures HighWritten(s, t, v).lupd == s.lupd && !HighWritten(s, t, v).alupd
  {
  }

  /** A lock left behind when ALUPD is cleared holds back every update until LUPD is cleared. */
  lemma {:induction false} LockOutlivesAutomatic(s: State, wave: Wave, es: seq<Event>)
    requires s.lupd && forall i | 0 <= i < |es| :: LeavesLock(es[i])
    ensures NoMove(CtrlBWritten(s, wave, false), es)
  {
    StaysLocked(CtrlBWritten(s, wave, false), es);
  }

  lemma {:induction false} StaysLocked(s: State, es: seq<Event>)
    requires s.lupd && !s.alupd && forall i | 0 <= i < |es| :: LeavesLock(es[i])
    ensures NoMove(s, es) && Run(s, es).lupd
    decreases |es|
  {
    if es != [] {
      StepStaysLocked(s, es[0]);
      StaysLocked(Step(s, es[0]), es[1..]);
    }
  }

  // ---------- The peripheral ----------

  class TimerA {
    var wave: Wave
    var alupd: bool
    var lupd: bool
    var per: Buffered
    const cmp: array<Buffered>
    var fset: ValidBits
    var fclr: ValidBits
    var temp: Octet
    var top: Word
    const comp: array<Word>

    ghost predicate Valid()
    {
      cmp.Length == 3 && comp.Length == 3
    }

    ghost function View(): State
      requires Valid()
      reads this, cmp, comp
    {
      State(wave, alupd, lupd, per, cmp[..], fset, fclr, temp, top, comp[..])
    }

    constructor ()
      ensures Valid() && fresh(cmp) && fresh(comp)
      ensures View() == RESET
    {
      wave, alupd, lupd, per := Normal, false, false, Buffered(Word(255, 255), Word(255, 255), false);
      cmp := new Buffered[3](_ => UNSET);
      fset, fclr := [false, false, false, false], [false, false, false, false];
      temp, top := 0, Word(255, 255);
      comp := new Word[3](_ => Word(0, 0));
      new;
      assert cmp[..] == [UNSET, UNSET, UNSET];
      assert comp[..] == [Word(0, 0), Word(0, 0), Word(0, 0)];
    }

    method UpdateAlupdStatus()
      requires Valid()
      modifies `lupd
      ensures View() == LockUpdated(old(View()))
    {
      if alupd {
        var locked := !per.flag;
        for i := 0 to 3
          invariant locked == !(per.flag && (forall k :: 0 <= k < i ==> cmp[k].flag))
          invariant View() == old(View())
        {
          locked := locked || !cmp[i].flag;
        }
        lupd := locked;
      }
    }

    method ConfigureSingleCounter()
      requires Valid()
      modifies `top, comp
      ensures View() == Configured(old(View()))
    {
      top := if wave == Frequency then cmp[0].value else per.value;
      for i := 0 to 3
        modifies comp
        invariant cmp[..] == old(cmp[..])
        invariant forall k :: 0 <= k < i ==> comp[k] == cmp[k].value
      {
        comp[i] := cmp[i].value;
      }
      assert comp[..] == [cmp[0].value, cmp[1].value, cmp[2].value];
    }

    method MovePeriod() returns (moved: bool)
      modifies `per, `fset, `fclr
      ensures moved == old(per).flag && per == Moved(old(per))
      ensures fset == old(fset)[0 := old(fset)[0] && !moved] && fclr == old(fclr)[0 := old(fclr)[0] && !moved]
    {
      moved := per.flag;
      if per.flag {
        per := Buffered(per.buffer, per.buffer, false);
        fset := fset[0 := false];
        fclr := fclr[0 := false];
      }
    }

    method MoveChannels()
      requires Valid()
      modifies `fset, `fclr, cmp
      ensures cmp[..] == AllMoved(old(cmp[..]))
      ensures fset == Unmarked(old(fset), UNSET, old(cmp[..])) && fclr == Unmarked(old(fclr), UNSET, old(cmp[..]))
    {
      for i := 0 to 3
        invariant forall k :: 0 <= k < i ==> cmp[k] == Moved(old(cmp[k]))
        invariant forall k :: i <= k < 3 ==> cmp[k] == old(cmp[k])
        invariant fset[0] == old(fset)[0] && fclr[0] == old(fclr)[0]
        invariant forall k :: 1 <= k < 4 ==> fset[k] == (old(fset)[k] && !(k <= i && old(cmp[k - 1]).flag))
        invariant forall k :: 1 <= k < 4 ==> fclr[k] == (old(fclr)[k] && !(k <= i && old(cmp[k - 1]).flag))
      {
        if cmp[i].flag {
          cmp[i] := Buffered(cmp[i].buffer, cmp[i].buffer, false);
          fset := fset[i + 1 := false];
          fclr := fclr[i + 1 := false];
        }
      }
    }

    method UpdateBufferedRegisters()
      requires Valid()
      modifies this, cmp, comp
      ensures View() == Transferred(old(View()))
    {
      if lupd { return; }
      MoveRegisters();
      UpdateAlupdStatus();
    }

    method MoveRegisters()
      requires Valid()
      modifies `per, `fset, `fclr, `top, cmp, comp
      ensures View() == RegistersMoved(old(View()))
    {
      var reconfig := MovePeriod();
      reconfig := reconfig || cmp[0].flag;
      MoveChannels();
      if reconfig {
        ConfigureSingleCounter();
      }
    }

    method WriteCtrlBReg(w: Wave, a: bool)
      requires Valid()
      modifies `wave, `alupd, `lupd, `top, comp
      ensures View() == CtrlBWritten(old(View()), w, a)
    {
      wave, alupd := w, a;
      UpdateAlupdStatus();
      ConfigureSingleCounter();
    }

    method WriteCtrlESetReg(lock: bool, cmd: Command)
      requires Valid()
      modifies this, cmp, comp
      ensures View() == CtrlESetWritten(old(View()), lock, cmd)
    {
      lupd := lupd || lock;
      if cmd == Update {
        UpdateBufferedRegisters();
      } else if cmd == HardReset {
        DoReset();
      }
    }

    method WriteCtrlEClrReg(unlock: bool)
      requires Valid()
      modifies `lupd
      ensures View() == Step(old(View()), WriteCtrlEClr(unlock))
    {
      lupd := lupd && !unlock;
    }

    method WriteCtrlFSetReg(mask: ValidBits)
      requires Valid()
      modifies `fset, `fclr
      ensures View() == CtrlFSetWritten(old(View()), mask)
    {
      fset := OrBits(fset, mask);
      fclr := fset;
    }

    method WriteCtrlFClrReg(mask: ValidBits)
      requires Valid()
      modifies `fset, `fclr
      ensures View() == CtrlFClrWritten(old(View()), mask)
    {
      fclr := MinusBits(fclr, mask);
      fset := fclr;
    }

    method WriteLowByte(v: Octet)
      requires Valid()
      modifies `temp
      ensures View() == Step(old(View()), WriteLow(v))
    {
      temp := v;
    }

    method WriteHighByte(t: Target, v: Octet)
      requires Valid()
      modifies `per, `fset, `fclr, `lupd, `top, cmp, comp
      ensures View() == HighWritten(old(View()), t, v)
    {
      var w := Word(v, temp);
      match t
      case Cnt =>
      case Per => per := per.(value := w); ConfigureSingleCounter();
      case Cmp(i) => WriteCompare(i, w);
      case PerBuf => WritePeriodBuffer(w);
      case CmpBuf(i) => WriteCompareBuffer(i, w);
    }

    method WriteCompare(i: Index, w: Word)
      requires Valid()
      modifies `top, cmp, comp
      ensures View() == CmpWritten(old(View()), i, w)
    {
      cmp[i] := cmp[i].(value := w);
      ConfigureSingleCounter();
    }

    method WritePeriodBuffer(w: Word)
      requires Valid()
      modifies `per, `fset, `fclr, `lupd
      ensures View() == PerBuffered(old(View()), w)
    {
      per := Buffered(per.value, w, true);
      fset := fset[0 := true];
      fclr := fclr[0 := true];
      UpdateAlupdStatus();
    }

    method WriteCompareBuffer(i: Index, w: Word)
      requires Valid()
      modifies `fset, `lupd, cmp
      ensures View() == CmpBuffered(old(View()), i, w)
    {
      cmp[i] := Buffered(cmp[i].value, w, true);
      fset := fset[i + 1 := true];
      UpdateAlupdStatus();
    }

    /** The low byte of a 16-bit register; the high byte goes to TEMP. */
    method ReadLowByte(t: Target, cnt: Word) returns (v: Octet)
      requires Valid()
      modifies `temp
      ensures View() == LowRead(old(View()), t, cnt) && v == Register(old(View()), t, cnt).lo
    {
      var w: Word;
      match t {
        case Cnt => w := cnt;
        case Per => w := per.value;
        case Cmp(i) => w := cmp[i].value;
        case PerBuf => w := per.buffer;
        case CmpBuf(i) => w := cmp[i].buffer;
      }
      v := w.lo;
      temp := w.hi;
    }

    /** The counter reaches the top or the bottom. */
    method ProcessCounter(e: Event)
      requires Valid() && (e.CounterTop? || e.CounterBottom?)
      modifies this, cmp, comp
      ensures View() == Step(old(View()), e)
    {
      var update := false;
      if e.CounterTop? {
        if wave == Normal || wave == Frequency {
          update := !e.topDown;
        }
      } else {
        if wave == Normal || wave == Frequency {
          update := e.bottomDown;
        } else if wave != Reserved {
          update := true;
        }
      }
      if update {
        UpdateBufferedRegisters();
      }
    }

    method DoReset()
      requires Valid()
      modifies this, cmp, comp
      ensures View() == RESET
    {
      per := Buffered(Word(255, 255), Word(255, 255), false);
      for i := 0 to 3
        modifies cmp, comp
        invariant forall k :: 0 <= k < i ==> cmp[k] == UNSET && comp[k] == Word(0, 0)
      {
        cmp[i] := UNSET;
        comp[i] := Word(0, 0);
      }
      top, wave := Word(255, 255), Normal;
      alupd, lupd, temp := false, false, 0;
      fset, fclr := [false, false, false, false], [false, false, false, false];
      assert cmp[..] == [UNSET, UNSET, UNSET] && comp[..] == [Word(0, 0), Word(0, 0), Word(0, 0)];
    }
  }
}
