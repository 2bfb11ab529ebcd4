/** The XT non-volatile memory controller: a page buffer that accumulates writes to one memory
    block by ANDing them, and the commands that erase and program a page from it.

    The buffer is proved to refine a plain log of the accepted writes, and the page commands
    to move exactly that log into the selected page. */
module XtNvm {
  import opened Arith
  import opened NvmMemory

  datatype Block = Flash | Eeprom | Userrow | Other

  /** What the buffer is bound to: nothing yet, a block, or nothing any more after an
      inconsistent write. */
  datatype Target = None | Invalid | Bound(block: Block)

  datatype Command = NoCommand | PageWrite | PageErase | PageEraseWrite | BufferErase | ChipErase | EepromErase

  datatype Config = Config(
    flashPageSize: nat, eepromPageSize: nat,
    flashSize: nat, eepromSize: nat, userrowSize: nat)
  {
    ghost predicate Valid() {
      && 0 < eepromPageSize <= flashPageSize && userrowSize <= flashPageSize
      && Divides(flashPageSize, flashSize) && Divides(eepromPageSize, eepromSize)
    }
  }

  datatype State = State(
    buffer: seq<bv8>, bufset: seq<bool>, target: Target, page: nat,
    flash: Mem, eeprom: Mem, userrow: Mem)

  ghost predicate WellFormed(c: Config, s: State) {
    && c.Valid() && |s.buffer| == |s.bufset| == c.flashPageSize
    && Sized(s.flash) && |s.flash.bytes| == c.flashSize
    && Sized(s.eeprom) && |s.eeprom.bytes| == c.eepromSize
    && Sized(s.userrow) && |s.userrow.bytes| == c.userrowSize
    && (s.target.Bound? ==> s.target.block != Other)
  }

  // ---------- Buffer writes ----------

  function PageOf(c: Config, block: Block, addr: nat): nat
    requires c.Valid()
  {
    match block
    case Flash => Quotient(addr, c.flashPageSize)
    case Eeprom => Quotient(addr, c.eepromPageSize)
    case _ => 0
  }

  function OffsetOf(c: Config, block: Block, addr: nat): nat
    requires c.Valid()
  {
    match block
    case Flash => Remainder(addr, c.flashPageSize)
    case Eeprom => Remainder(addr, c.eepromPageSize)
    case _ => addr
  }

  function BlockSize(c: Config, block: Block): nat {
    match block case Flash => c.flashSize case Eeprom => c.eepromSize case Userrow => c.userrowSize case Other => 0
  }

  /** A write is accepted if the buffer is free or bound to the same block. */
  predicate Accepts(s: State, block: Block) {
    block != Other && (s.target == None || s.target == Bound(block))
  }

  /** Addresses come from the windows onto the three blocks. */
  predicate Legal(c: Config, e: Event) {
    e.Write? && e.block != Other ==> e.addr < BlockSize(c, e.block)
  }

  function ByteStored(c: Config, s: State, block: Block, page: nat, i: nat, data: bv8): (t: State)
    requires WellFormed(c, s) && i < c.flashPageSize && block != Other
    ensures WellFormed(c, t)
  {
    s.(buffer := s.buffer[i := s.buffer[i] & data], bufset := s.bufset[i := true], target := Bound(block), page := page)
  }

  function BufferWritten(c: Config, s: State, block: Block, addr: nat, data: bv8): (t: State)
    requires WellFormed(c, s) && (block != Other ==> addr < BlockSize(c, block))
    ensures WellFormed(c, t)
  {
    if Accepts(s, block) then ByteStored(c, s, block, PageOf(c, block, addr), OffsetOf(c, block, addr), data)
    else s.(target := Invalid)
  }

  function Cleared(c: Config, s: State): State {
    s.(buffer := seq(c.flashPageSize, _ => 0xFF), bufset := seq(c.flashPageSize, _ => false), target := None)
  }

  // ---------- Commands ----------

  predicate Erases(cmd: Command) { cmd == PageErase || cmd == PageEraseWrite }

  predicate Writes(cmd: Command) { cmd == PageWrite || cmd == PageEraseWrite }

  /** The flash is erased and written a page at a time, and written by copy. */
  function FlashAfter(c: Config, s: State, cmd: Command): (m: Mem)
    requires WellFormed(c, s)
    ensures Sized(m) && |m.bytes| == c.flashSize
  {
    var base := PageBase(s.page, c.flashPageSize);
    var m := if Erases(cmd) then Erased(s.flash, base, c.flashPageSize) else s.flash;
    if Writes(cmd) then Copied(m, s.buffer, base) else m
  }

  /** The other blocks are erased and written for the loaded bytes only, and written by AND. */
  function BytesAfter(c: Config, s: State, m: Mem, cmd: Command): (r: Mem)
    requires WellFormed(c, s) && Sized(m)
    ensures Sized(r) && |r.bytes| == |m.bytes|
  {
    var base := PageBase(s.page, c.eepromPageSize);
    var n := c.eepromPageSize;
    var e := if Erases(cmd) then ErasedWhere(m, s.bufset[..n], base) else m;
    if Writes(cmd) then ProgrammedWhere(e, s.buffer[..n], s.bufset[..n], base) else e
  }

  /** Erase and write commands need a buffer bound to a block; they use it up. */
  function PageCommandDone(c: Config, s: State, cmd: Command): (t: State)
    requires WellFormed(c, s)
    ensures WellFormed(c, t)
  {
    if !s.target.Bound? then s
    else if s.target.block == Flash then Cleared(c, s.(flash := FlashAfter(c, s, cmd)))
    else if s.target.block == Eeprom then Cleared(c, s.(eeprom := BytesAfter(c, s, s.eeprom, cmd)))
    else Cleared(c, s.(userrow := BytesAfter(c, s, s.userrow, cmd)))
  }

  function Executed(c: Config, s: State, cmd: Command): (t: State)
    requires WellFormed(c, s)
    ensures WellFormed(c, t)
  {
    match cmd
    case NoCommand => s
    case BufferErase => Cleared(c, s)
    case ChipErase => s.(flash := Erased(s.flash, 0, c.flashSize), eeprom := Erased(s.eeprom, 0, c.eepromSize))
    case EepromErase => s.(eeprom := Erased(s.eeprom, 0, c.eepromSize))
    case _ => PageCommandDone(c, s, cmd)
  }

  datatype Event =
    | Write(block: Block, addr: nat, data: bv8, canWrite: bool)
    | Execute(cmd: Command)
    | Reset

  /** A write refused by the section access rights does not reach the buffer. */
  function Step(c: Config, s: State, e: Event): (t: State)
    requires WellFormed(c, s) && Legal(c, e)
    ensures WellFormed(c, t)
  {
    match e
    case Write(b, a, d, ok) => if ok then BufferWritten(c, s, b, a, d) else s
    case Execute(cmd) => Executed(c, s, cmd)
    case Reset => Cleared(c, s)
  }

  function Run(c: Config, s: State, es: seq<Event>): (t: State)
    requires WellFormed(c, s) && forall i | 0 <= i < |es| :: Legal(c, es[i])
    ensures WellFormed(c, t)
    decreases |es|
  {
    if es == [] then s else Run(c, Step(c, s, es[0]), es[1..])
  }

  // ---------- The buffer refines a log of writes ----------

  datatype Entry = Entry(block: Block, page: nat, off: nat, data: bv8)

  /** AND of all bytes written at an offset, 0xFF if there is none. */
  function AndAt(log: seq<Entry>, i: nat): bv8 {
    if log == [] then 0xFF
    else
      var last := log[|log| - 1];
      var rest := AndAt(log[..|log| - 1], i);
      if last.off == i then rest & last.data else rest
  }

  predicate WrittenAt(log: seq<Entry>, i: nat) {
    exists k :: 0 <= k < |log| && log[k].off == i
  }

  /** The entry of a write: the page and the offset of its address, by repeated subtraction of the page
      size of the block; the user row is one page. */
  function LogEntry(c: Config, b: Block, a: nat, d: bv8): Entry
    requires c.Valid()
  {
    if b == Flash then Entry(b, Quotient(a, c.flashPageSize), Remainder(a, c.flashPageSize), d)
    else if b == Eeprom then Entry(b, Quotient(a, c.eepromPageSize), Remainder(a, c.eepromPageSize), d)
    else Entry(b, 0, a, d)
  }

  lemma LogEntryIs(c: Config, b: Block, a: nat, d: bv8)
    requires c.Valid()
    ensures var n := LogEntry(c, b, a, d);
            && (b == Flash ==> n.page == a / c.flashPageSize && n.off == a % c.flashPageSize)
            && (b == Eeprom ==> n.page == a / c.eepromPageSize && n.off == a % c.eepromPageSize)
  {
    if b == Flash {
      QuotientIsDiv(a, c.flashPageSize);
      RemainderIsMod(a, c.flashPageSize);
    } else if b == Eeprom {
      QuotientIsDiv(a, c.eepromPageSize);
      RemainderIsMod(a, c.eepromPageSize);
    }
  }

  function LogStep(c: Config, log: seq<Entry>, s: State, e: Event): seq<Entry>
    requires c.Valid()
  {
    match e
    case Write(b, a, d, ok) =>
      if ok && Accepts(s, b) then log + [LogEntry(c, b, a, d)] else log
    case Execute(cmd) =>
      if cmd == BufferErase || ((Erases(cmd) || Writes(cmd)) && s.target.Bound?) then [] else log
    case Reset => []
  }

  function RunLog(c: Config, log: seq<Entry>, s: State, es: seq<Event>): seq<Entry>
    requires WellFormed(c, s) && forall i | 0 <= i < |es| :: Legal(c, es[i])
    decreases |es|
  {
    if es == [] then log else RunLog(c, LogStep(c, log, s, es[0]), Step(c, s, es[0]), es[1..])
  }

  ghost predicate BufferIs(c: Config, s: State, log: seq<Entry>)
    requires WellFormed(c, s)
  {
    forall i: nat | i < c.flashPageSize :: s.bufset[i] == WrittenAt(log, i) && s.buffer[i] == AndAt(log, i)
  }

  function PageSizeOf(c: Config, block: Block): nat {
    if block == Flash then c.flashPageSize else c.eepromPageSize
  }

  /** The log of a bound buffer is not empty, is of its block, and ends on its page, which is
      inside the block; a free buffer has an empty log. */
  ghost predicate TargetIs(c: Config, s: State, log: seq<Entry>) {
    && (s.target == None ==> log == [])
    && (s.target.Bound? ==>
          && log != [] && log[|log| - 1].page == s.page
          && (forall k | 0 <= k < |log| :: log[k].block == s.target.block)
          && (s.target.block == Flash || s.target.block == Eeprom ==>
                PageBase(s.page, PageSizeOf(c, s.target.block)) + PageSizeOf(c, s.target.block) <= BlockSize(c, s.target.block)))
  }

  lemma AndOfAppend(log: seq<Entry>, n: Entry, i: nat)
    ensures AndAt(log + [n], i) == if n.off == i then AndAt(log, i) & n.data else AndAt(log, i)
  {
    var log' := log + [n];
    assert log'[..|log|] == log && log'[|log|] == n;
  }

  lemma LogOfAppend(log: seq<Entry>, n: Entry, i: nat)
    ensures WrittenAt(log + [n], i) == (WrittenAt(log, i) || n.off == i)
  {
    var log' := log + [n];
    assert log'[|log|] == n;
    if WrittenAt(log, i) {
      var k :| 0 <= k < |log| && log[k].off == i;
      assert log'[k].off == i;
    }
  }

  lemma WriteKeepsBuffer(c: Config, s: State, log: seq<Entry>, n: Entry)
    requires WellFormed(c, s) && BufferIs(c, s, log) && n.off < c.flashPageSize && n.block != Other
    ensures BufferIs(c, ByteStored(c, s, n.block, n.page, n.off, n.data), log + [n])
  {
    var t := ByteStored(c, s, n.block, n.page, n.off, n.data);
    forall i: nat | i < c.flashPageSize
      ensures t.bufset[i] == WrittenAt(log + [n], i) && t.buffer[i] == AndAt(log + [n], i)
    {
      LogOfAppend(log, n, i);
      AndOfAppend(log, n, i);
    }
  }

  lemma ClearedIsEmpty(c: Config, s: State)
    requires WellFormed(c, s)
    ensures BufferIs(c, Cleared(c, s), []) && TargetIs(c, Cleared(c, s), [])
  {
  }

  lemma AddressFits(c: Config, block: Block, addr: nat)
    requires c.Valid() && block != Other && addr < BlockSize(c, block)
    ensures OffsetOf(c, block, addr) < c.flashPageSize
    ensures block == Flash || block == Eeprom ==>
              PageBase(PageOf(c, block, addr), PageSizeOf(c, block)) + PageSizeOf(c, block) <= BlockSize(c, block)
  {
    if block == Flash || block == Eeprom {
      PageBaseOfQuotient(addr, PageSizeOf(c, block));
      PageIsInside(addr, PageSizeOf(c, block), BlockSize(c, block));
    }
  }

  ghost predicate LogIs(c: Config, s: State, log: seq<Entry>)
    requires WellFormed(c, s)
  {
    BufferIs(c, s, log) && TargetIs(c, s, log)
  }

  lemma ByteKeepsLog(c: Config, s: State, log: seq<Entry>, n: Entry)
    requires WellFormed(c, s) && LogIs(c, s, log) && n.block != Other && Accepts(s, n.block) && n.off < c.flashPageSize
    requires n.block == Flash || n.block == Eeprom ==>
               PageBase(n.page, PageSizeOf(c, n.block)) + PageSizeOf(c, n.block) <= BlockSize(c, n.block)
    ensures LogIs(c, ByteStored(c, s, n.block, n.page, n.off, n.data), log + [n])
  {
    WriteKeepsBuffer(c, s, log, n);
    TargetOfAppend(c, s, log, n);
  }

  lemma TargetOfAppend(c: Config, s: State, log: seq<Entry>, n: Entry)
    requires TargetIs(c, s, log) && Accepts(s, n.block)
    requires n.block == Flash || n.block == Eeprom ==>
               PageBase(n.page, PageSizeOf(c, n.block)) + PageSizeOf(c, n.block) <= BlockSize(c, n.block)
    ensures TargetIs(c, s.(target := Bound(n.block), page := n.page), log + [n])
  {
  }

  lemma ExecuteKeepsLog(c: Config, s: State, log: seq<Entry>, cmd: Command)
    requires WellFormed(c, s) && LogIs(c, s, log)
    ensures LogIs(c, Executed(c, s, cmd), LogStep(c, log, s, Execute(cmd)))
  {
    ClearedIsEmpty(c, s);
  }

  lemma StepKeepsLog(c: Config, s: State, log: seq<Entry>, e: Event)
    requires WellFormed(c, s) && Legal(c, e) && LogIs(c, s, log)
    ensures LogIs(c, Step(c, s, e), LogStep(c, log, s, e))
  {
    match e
    case Write(b, a, d, ok) =>
      if ok && Accepts(s, b) {
        AddressFits(c, b, a);
        ByteKeepsLog(c, s, log, LogEntry(c, b, a, d));
      }
    case Execute(cmd) => ExecuteKeepsLog(c, s, log, cmd);
    case Reset => ClearedIsEmpty(c, s);
  }

  /** Whatever commands and writes a run contains, the buffer holds at each offset the AND of
      the bytes accepted there since it was last cleared, 0xFF where none was, all of one block. */
  lemma {:induction false} BufferIsLog(c: Config, s: State, log: seq<Entry>, es: seq<Event>)
    requires WellFormed(c, s) && LogIs(c, s, log)
    requires forall i | 0 <= i < |es| :: Legal(c, es[i])
    ensures LogIs(c, Run(c, s, es), RunLog(c, log, s, es))
    decreases |es|
  {
    if es != [] {
      StepKeepsLog(c, s, log, es[0]);
      BufferIsLog(c, Step(c, s, es[0]), LogStep(c, log, s, es[0]), es[1..]);
    }
  }

  /** After a write to a second block nothing is accepted, and page commands do nothing, until
      the buffer is erased or the device reset. */
  lemma {:induction false} MixedBlocksAreRefused(c: Config, s: State, log: seq<Entry>, es: seq<Event>)
    requires WellFormed(c, s) && s.target == Invalid
    requires forall i | 0 <= i < |es| :: Legal(c, es[i]) && es[i] != Reset && es[i] != Execute(BufferErase)
    ensures var t := Run(c, s, es);
            t.target == Invalid && t.buffer == s.buffer && t.userrow == s.userrow && RunLog(c, log, s, es) == log
    decreases |es|
  {
    if es != [] { MixedBlocksAreRefused(c, Step(c, s, es[0]), LogStep(c, log, s, es[0]), es[1..]); }
  }

  // ---------- Programming a page ----------

  /** Start of the page the log ends on. */
  function LogBase(c: Config, log: seq<Entry>, k: nat): nat
    requires log != []
  {
    PageBase(log[|log| - 1].page, k)
  }

  /** Erase-write of a flash page: after any run that leaves the buffer bound to the flash, each address
      of the page that the last write was to holds the AND of the writes at its offset, and every other
      is unchanged. */
  lemma FlashEraseWrite(c: Config, s: State, log: seq<Entry>, es: seq<Event>, i: nat)
    requires WellFormed(c, s) && BufferIs(c, s, log) && TargetIs(c, s, log)
    requires forall k | 0 <= k < |es| :: Legal(c, es[k])
    requires Run(c, s, es).target == Bound(Flash) && i < c.flashSize
    ensures var t := Run(c, s, es);
            var all := RunLog(c, log, s, es);
            && all != []
            && Step(c, t, Execute(PageEraseWrite)).flash.bytes[i] ==
               if i / c.flashPageSize == all[|all| - 1].page then AndAt(all, i % c.flashPageSize)
               else t.flash.bytes[i]
  {
    BufferIsLog(c, s, log, es);
    FlashEraseWriteByPage(c, Run(c, s, es), RunLog(c, log, s, es), i);
  }

  lemma FlashEraseWriteByPage(c: Config, t: State, log: seq<Entry>, i: nat)
    requires WellFormed(c, t) && BufferIs(c, t, log) && TargetIs(c, t, log)
    requires t.target == Bound(Flash) && i < c.flashSize
    ensures Step(c, t, Execute(PageEraseWrite)).flash.bytes[i] ==
            if i / c.flashPageSize == log[|log| - 1].page then AndAt(log, i % c.flashPageSize) else t.flash.bytes[i]
  {
    FlashEraseWriteAt(c, t, log, i);
    PageRange(log[|log| - 1].page, c.flashPageSize, i);
  }

  lemma PageRange(q: nat, k: nat, x: nat)
    requires k > 0
    ensures var b := PageBase(q, k);
            && (b <= x < b + k <==> x / k == q)
            && (b <= x < b + k ==> x - b == x % k)
  {
    PageBaseIsProduct(q, k);
    QuotientRange(PageBase(q, k), q, k, x);
  }

  lemma FlashEraseWriteAt(c: Config, t: State, log: seq<Entry>, i: nat)
    requires WellFormed(c, t) && BufferIs(c, t, log) && TargetIs(c, t, log)
    requires t.target == Bound(Flash) && i < c.flashSize
    ensures var b := LogBase(c, log, c.flashPageSize);
            Step(c, t, Execute(PageEraseWrite)).flash.bytes[i] ==
            if b <= i < b + c.flashPageSize then AndAt(log, i - b) else t.flash.bytes[i]
  {
    FlashCommand(c, t, PageEraseWrite, i);
    var b := PageBase(t.page, c.flashPageSize);
    if b <= i < b + c.flashPageSize {
      var k: nat := i - b;
      assert t.buffer[k] == AndAt(log, k);
    }
  }

  /** The three page commands on a flash page. */
  lemma FlashCommand(c: Config, s: State, cmd: Command, i: nat)
    requires WellFormed(c, s) && s.target == Bound(Flash) && (Erases(cmd) || Writes(cmd))
    requires PageBase(s.page, c.flashPageSize) + c.flashPageSize <= c.flashSize && i < c.flashSize
    ensures var b := PageBase(s.page, c.flashPageSize);
            Step(c, s, Execute(cmd)).flash.bytes[i] ==
            if !(b <= i < b + c.flashPageSize) then s.flash.bytes[i]
            else if Writes(cmd) then s.buffer[i - b] else 0xFF
  {
  }

  /** A flash page write needs no erase: it replaces the page instead of clearing bits in it. */
  lemma FlashWriteOverwrites(c: Config, s: State)
    requires WellFormed(c, s) && s.target == Bound(Flash)
    requires PageBase(s.page, c.flashPageSize) + c.flashPageSize <= c.flashSize
    ensures Step(c, s, Execute(PageWrite)).flash.bytes == Step(c, s, Execute(PageEraseWrite)).flash.bytes
  {
    forall i: nat | i < c.flashSize
      ensures Step(c, s, Execute(PageWrite)).flash.bytes[i] == Step(c, s, Execute(PageEraseWrite)).flash.bytes[i]
    {
      FlashCommand(c, s, PageWrite, i);
      FlashCommand(c, s, PageEraseWrite, i);
    }
  }

  /** The three page commands on EEPROM or user row bytes, for the bytes loaded only. */
  lemma BytesCommand(c: Config, s: State, m: Mem, cmd: Command, i: nat)
    requires WellFormed(c, s) && Sized(m) && (Erases(cmd) || Writes(cmd))
    requires PageBase(s.page, c.eepromPageSize) + c.eepromPageSize <= |m.bytes| && i < |m.bytes|
    ensures var b := PageBase(s.page, c.eepromPageSize);
            BytesAfter(c, s, m, cmd).bytes[i] ==
            if !(b <= i < b + c.eepromPageSize) || !s.bufset[i - b] then m.bytes[i]
            else if cmd == PageEraseWrite then s.buffer[i - b]
            else if cmd == PageErase then 0xFF
            else m.bytes[i] & s.buffer[i - b]
  {
    var b, n := PageBase(s.page, c.eepromPageSize), c.eepromPageSize;
    if cmd == PageEraseWrite {
      EraseThenProgram(m, s.buffer[..n], s.bufset[..n], b, i);
    }
  }

  /** Erase-write of an EEPROM page: exactly the bytes written since the buffer was last
      cleared change, to the AND of what was written; the rest of the page and of the EEPROM
      is unchanged. */
  lemma EepromEraseWrite(c: Config, s: State, log: seq<Entry>, es: seq<Event>, i: nat)
    requires WellFormed(c, s) && BufferIs(c, s, log) && TargetIs(c, s, log)
    requires forall k | 0 <= k < |es| :: Legal(c, es[k])
    requires Run(c, s, es).target == Bound(Eeprom) && i < c.eepromSize
    ensures var t := Run(c, s, es);
            var all := RunLog(c, log, s, es);
            && all != []
            && Step(c, t, Execute(PageEraseWrite)).eeprom.bytes[i] ==
               if i / c.eepromPageSize == all[|all| - 1].page && WrittenAt(all, i % c.eepromPageSize) then
                 AndAt(all, i % c.eepromPageSize)
               else t.eeprom.bytes[i]
  {
    BufferIsLog(c, s, log, es);
    EepromEraseWriteByPage(c, Run(c, s, es), RunLog(c, log, s, es), i);
  }

  lemma EepromEraseWriteByPage(c: Config, t: State, log: seq<Entry>, i: nat)
    requires WellFormed(c, t) && BufferIs(c, t, log) && TargetIs(c, t, log)
    requires t.target == Bound(Eeprom) && i < c.eepromSize
    ensures Step(c, t, Execute(PageEraseWrite)).eeprom.bytes[i] ==
            if i / c.eepromPageSize == log[|log| - 1].page && WrittenAt(log, i % c.eepromPageSize) then
              AndAt(log, i % c.eepromPageSize)
            else t.eeprom.bytes[i]
  {
    EepromEraseWriteAt(c, t, log, i);
    PageRange(log[|log| - 1].page, c.eepromPageSize, i);
  }

  lemma EepromEraseWriteAt(c: Config, t: State, log: seq<Entry>, i: nat)
    requires WellFormed(c, t) && BufferIs(c, t, log) && TargetIs(c, t, log)
    requires t.target == Bound(Eeprom) && i < c.eepromSize
    ensures var b := LogBase(c, log, c.eepromPageSize);
            Step(c, t, Execute(PageEraseWrite)).eeprom.bytes[i] ==
            if b <= i < b + c.eepromPageSize && WrittenAt(log, i - b) then AndAt(log, i - b) else t.eeprom.bytes[i]
  {
    BytesCommand(c, t, t.eeprom, PageEraseWrite, i);
    var b := PageBase(t.page, c.eepromPageSize);
    if b <= i < b + c.eepromPageSize {
      var k: nat := i - b;
      assert t.buffer[k] == AndAt(log, k) && t.bufset[k] == WrittenAt(log, k);
    }
  }

  /** The erase commands of whole blocks: both blocks or the EEPROM alone become 0xFF, whatever the
      buffer is bound to, and the buffer and the rest stay. */
  lemma BlockErases(c: Config, s: State, i: nat)
    requires WellFormed(c, s)
    ensures var t := Step(c, s, Execute(ChipErase));
            && (i < c.flashSize ==> t.flash.bytes[i] == 0xFF) && (i < c.eepromSize ==> t.eeprom.bytes[i] == 0xFF)
            && t == s.(flash := t.flash, eeprom := t.eeprom)
    ensures var t := Step(c, s, Execute(EepromErase));
            && (i < c.eepromSize ==> t.eeprom.bytes[i] == 0xFF) && t == s.(eeprom := t.eeprom)
  {
    if i < c.flashSize { ErasedBytes(s.flash, 0, c.flashSize, i); }
    if i < c.eepromSize { ErasedBytes(s.eeprom, 0, c.eepromSize, i); }
  }

  /** A reset, a buffer erase and every page command that is carried out leave the buffer free and empty. */
  lemma EmptiedBy(c: Config, s: State, e: Event, i: nat)
    requires WellFormed(c, s) && i < c.flashPageSize
    requires e == Reset || e == Execute(BufferErase) ||
             (e.Execute? && e.cmd in {PageErase, PageWrite, PageEraseWrite} && s.target.Bound?)
    ensures var t := Step(c, s, e); t.target == None && t.buffer[i] == 0xFF && !t.bufset[i]
  {
  }

  // ---------- What the buffer is bound to ----------

  /** A write that the access rights let through. */
  predicate Arrives(e: Event) { e.Write? && e.canWrite }

  predicate AllTo(es: seq<Event>, b: Block) { forall i | 0 <= i < |es| && Arrives(es[i]) :: es[i].block == b }

  predicate SomeArrives(es: seq<Event>) { exists i :: 0 <= i < |es| && Arrives(es[i]) }

  lemma {:induction false} StaysInvalid(c: Config, s: State, es: seq<Event>)
    requires WellFormed(c, s) && s.target == Invalid
    requires forall i | 0 <= i < |es| :: Legal(c, es[i]) && es[i].Write?
    ensures Run(c, s, es).target == Invalid
    decreases |es|
  {
    if es != [] { StaysInvalid(c, Step(c, s, es[0]), es[1..]); }
  }

  lemma AllToSplits(es: seq<Event>, b: Block)
    requires es != []
    ensures AllTo(es, b) <==> (Arrives(es[0]) ==> es[0].block == b) && AllTo(es[1..], b)
  {
    if AllTo(es, b) { assert forall i | 0 <= i < |es| - 1 :: es[1..][i] == es[i + 1]; }
    if (Arrives(es[0]) ==> es[0].block == b) && AllTo(es[1..], b) {
      assert forall i | 1 <= i < |es| :: es[i] == es[1..][i - 1];
    }
  }

  lemma {:induction false} StaysBound(c: Config, s: State, es: seq<Event>)
    requires WellFormed(c, s) && s.target.Bound?
    requires forall i | 0 <= i < |es| :: Legal(c, es[i]) && es[i].Write?
    ensures Run(c, s, es).target == if AllTo(es, s.target.block) then s.target else Invalid
    decreases |es|
  {
    if es != [] {
      var t := Step(c, s, es[0]);
      AllToSplits(es, s.target.block);
      if t.target == Invalid { StaysInvalid(c, t, es[1..]); } else { StaysBound(c, t, es[1..]); }
    }
  }

  /** From a free buffer, a sequence of writes leaves it free if none arrives, bound to a block if all
      that arrive are to it, and invalid if they are to two blocks or to none of the three. */
  lemma {:induction false} BoundIff(c: Config, s: State, es: seq<Event>)
    requires WellFormed(c, s) && s.target == None
    requires forall i | 0 <= i < |es| :: Legal(c, es[i]) && es[i].Write?
    ensures Run(c, s, es).target == None <==> forall i | 0 <= i < |es| :: !Arrives(es[i])
    ensures forall b: Block :: Run(c, s, es).target == Bound(b) <==> b != Other && AllTo(es, b) && SomeArrives(es)
    decreases |es|
  {
    if es != [] {
      var t, rest := Step(c, s, es[0]), es[1..];
      forall b: Block ensures AllTo(es, b) <==> (Arrives(es[0]) ==> es[0].block == b) && AllTo(rest, b) {
        AllToSplits(es, b);
      }
      SomeSplits(es);
      if !Arrives(es[0]) {
        BoundIff(c, t, rest);
      } else if es[0].block == Other {
        StaysInvalid(c, t, rest);
      } else {
        StaysBound(c, t, rest);
      }
    }
  }

  lemma SomeSplits(es: seq<Event>)
    requires es != []
    ensures SomeArrives(es) <==> Arrives(es[0]) || SomeArrives(es[1..])
  {
    if SomeArrives(es[1..]) {
      var i :| 0 <= i < |es[1..]| && Arrives(es[1..][i]);
      assert Arrives(es[i + 1]);
    }
    if SomeArrives(es) && !Arrives(es[0]) {
      var i :| 0 <= i < |es| && Arrives(es[i]);
      assert Arrives(es[1..][i - 1]);
    }
  }

  // ---------- The user row ----------

  /** A log bound to the user row is on page zero and inside the user row. */
  predicate UserrowIs(c: Config, s: State, log: seq<Entry>) {
    s.target == Bound(Userrow) ==> s.page == 0 && forall k | 0 <= k < |log| :: log[k].off < c.userrowSize
  }

  lemma WriteKeepsUserrow(c: Config, s: State, log: seq<Entry>, b: Block, a: nat, d: bv8)
    requires WellFormed(c, s) && TargetIs(c, s, log) && UserrowIs(c, s, log) && Legal(c, Write(b, a, d, true))
    ensures UserrowIs(c, BufferWritten(c, s, b, a, d), LogStep(c, log, s, Write(b, a, d, true)))
  {
  }

  lemma StepKeepsUserrow(c: Config, s: State, log: seq<Entry>, e: Event)
    requires WellFormed(c, s) && TargetIs(c, s, log) && UserrowIs(c, s, log) && Legal(c, e)
    ensures UserrowIs(c, Step(c, s, e), LogStep(c, log, s, e))
  {
    match e
    case Write(b, a, d, ok) => if ok { WriteKeepsUserrow(c, s, log, b, a, d); }
    case Execute(_) =>
    case Reset =>
  }

  lemma {:induction false} UserrowLog(c: Config, s: State, log: seq<Entry>, es: seq<Event>)
    requires WellFormed(c, s) && LogIs(c, s, log) && UserrowIs(c, s, log)
    requires forall k | 0 <= k < |es| :: Legal(c, es[k])
    ensures UserrowIs(c, Run(c, s, es), RunLog(c, log, s, es))
    decreases |es|
  {
    if es != [] {
      StepKeepsLog(c, s, log, es[0]);
      StepKeepsUserrow(c, s, log, es[0]);
      UserrowLog(c, Step(c, s, es[0]), LogStep(c, log, s, es[0]), es[1..]);
    }
  }

  /** The bytes loaded for the user row that an erase-write programs are those below the page size of
      the EEPROM. */
  lemma UserrowCommand(c: Config, t: State, log: seq<Entry>, i: nat)
    requires WellFormed(c, t) && BufferIs(c, t, log) && UserrowIs(c, t, log)
    requires t.target == Bound(Userrow) && i < c.userrowSize
    ensures Step(c, t, Execute(PageEraseWrite)).userrow.bytes[i] ==
            if i < c.eepromPageSize && WrittenAt(log, i) then AndAt(log, i) else t.userrow.bytes[i]
  {
    var n := c.eepromPageSize;
    assert PageBase(0, n) == 0;
    ErasedThenWritten(t.userrow, t.buffer[..n], t.bufset[..n], i);
    if i < n { assert t.buffer[i] == AndAt(log, i) && t.bufset[i] == WrittenAt(log, i); }
  }

  lemma ErasedThenWritten(m: Mem, buf: seq<bv8>, sel: seq<bool>, i: nat)
    requires Sized(m) && |buf| == |sel| && i < |m.bytes|
    ensures ProgrammedWhere(ErasedWhere(m, sel, 0), buf, sel, 0).bytes[i] ==
            if i < |sel| && sel[i] then buf[i] else m.bytes[i]
  {
  }

  /** Every byte written reaches the user row, and no other changes. */
  ghost predicate Reaches(c: Config, t: State, log: seq<Entry>)
    requires WellFormed(c, t)
  {
    forall i: nat | i < c.userrowSize :: ByteReaches(c, t, log, i)
  }

  predicate ByteReaches(c: Config, t: State, log: seq<Entry>, i: nat)
    requires WellFormed(c, t) && i < c.userrowSize
  {
    Step(c, t, Execute(PageEraseWrite)).userrow.bytes[i] ==
      if WrittenAt(log, i) then AndAt(log, i) else t.userrow.bytes[i]
  }

  /** Erase-write of the user row: after any run that leaves the buffer bound to the user row, every
      byte written reaches it, whatever it holds, if and only if every byte was written below the page
      size of the EEPROM, which the command takes for the size of the row. */
  lemma UserrowReachedIff(c: Config, s: State, log: seq<Entry>, es: seq<Event>)
    requires WellFormed(c, s) && LogIs(c, s, log) && UserrowIs(c, s, log)
    requires forall k | 0 <= k < |es| :: Legal(c, es[k])
    requires Run(c, s, es).target == Bound(Userrow)
    ensures var t := Run(c, s, es);
            var all := RunLog(c, log, s, es);
            (forall m: Mem | Sized(m) && |m.bytes| == c.userrowSize :: Reaches(c, t.(userrow := m), all)) <==>
            forall k | 0 <= k < |all| :: all[k].off < c.eepromPageSize
  {
    BufferIsLog(c, s, log, es);
    UserrowLog(c, s, log, es);
    ReachedIff(c, Run(c, s, es), RunLog(c, log, s, es));
  }

  lemma ReachedIff(c: Config, t: State, log: seq<Entry>)
    requires WellFormed(c, t) && BufferIs(c, t, log) && UserrowIs(c, t, log) && t.target == Bound(Userrow)
    ensures (forall m: Mem | Sized(m) && |m.bytes| == c.userrowSize :: Reaches(c, t.(userrow := m), log)) <==>
            forall k | 0 <= k < |log| :: log[k].off < c.eepromPageSize
  {
    if k :| 0 <= k < |log| && log[k].off >= c.eepromPageSize {
      BeyondIsLost(c, t, log, k);
    } else {
      forall m: Mem | Sized(m) && |m.bytes| == c.userrowSize ensures Reaches(c, t.(userrow := m), log) {
        AllReach(c, t.(userrow := m), log);
      }
    }
  }

  lemma AllReach(c: Config, t: State, log: seq<Entry>)
    requires WellFormed(c, t) && BufferIs(c, t, log) && UserrowIs(c, t, log) && t.target == Bound(Userrow)
    requires forall k | 0 <= k < |log| :: log[k].off < c.eepromPageSize
    ensures Reaches(c, t, log)
  {
    forall i: nat | i < c.userrowSize ensures ByteReaches(c, t, log, i) { UserrowCommand(c, t, log, i); }
  }

  /** A byte written further up stays as it was, which shows wherever it was something else. */
  lemma BeyondIsLost(c: Config, t: State, log: seq<Entry>, k: nat)
    requires WellFormed(c, t) && BufferIs(c, t, log) && UserrowIs(c, t, log) && t.target == Bound(Userrow)
    requires k < |log| && log[k].off >= c.eepromPageSize
    ensures exists m: Mem :: Sized(m) && |m.bytes| == c.userrowSize && !Reaches(c, t.(userrow := m), log)
  {
    var i := log[k].off;
    var m := Mem(seq(c.userrowSize, _ => !AndAt(log, i)), seq(c.userrowSize, _ => false));
    var u := t.(userrow := m);
    UserrowCommand(c, u, log, i);
    NotItself(AndAt(log, i));
    assert WrittenAt(log, i) && !ByteReaches(c, u, log, i);
  }

  lemma NotItself(x: bv8)
    ensures !x != x
  {
  }

  // ---------- Bits ----------

  predicate HasBits(x: bv8, bits: bv8) { x & bits == bits }

  lemma AndHasBits(x: bv8, y: bv8, bits: bv8)
    ensures HasBits(x & y, bits) <==> HasBits(x, bits) && HasBits(y, bits)
  {
  }

  /** AND accumulation: bits are kept at an offset exactly when every write there has them. */
  lemma {:induction false} AndKeepsCommonBits(log: seq<Entry>, i: nat, bits: bv8)
    ensures HasBits(AndAt(log, i), bits) <==> forall k | 0 <= k < |log| && log[k].off == i :: HasBits(log[k].data, bits)
  {
    if log != [] {
      var last := log[|log| - 1];
      var rest := log[..|log| - 1];
      AndKeepsCommonBits(rest, i, bits);
      assert log == rest + [last];
      var x := AndAt(rest, i);
      AndOfAppend(rest, last, i);
      AndHasBits(x, last.data, bits);
    }
  }

  // ---------- The controller ----------

  class Controller {
    const config: Config
    const buffer: array<bv8>
    const bufset: array<bool>
    const flash: NonVolatileMemory
    const eeprom: NonVolatileMemory
    const userrow: NonVolatileMemory
    var target: Target
    var page: nat

    ghost predicate Separate() {
      && flash.Valid() && eeprom.Valid() && userrow.Valid()
      && flash.memory != eeprom.memory && flash.memory != userrow.memory && eeprom.memory != userrow.memory
      && flash.tag != eeprom.tag && flash.tag != userrow.tag && eeprom.tag != userrow.tag
      && buffer != flash.memory && buffer != eeprom.memory && buffer != userrow.memory
      && bufset != flash.tag && bufset != eeprom.tag && bufset != userrow.tag
      && buffer as object != bufset
      && buffer as object != flash.tag && buffer as object != eeprom.tag && buffer as object != userrow.tag
      && bufset as object != flash.memory && bufset as object != eeprom.memory && bufset as object != userrow.memory
      && flash.memory as object != eeprom.tag && flash.memory as object != userrow.tag
      && eeprom.memory as object != flash.tag && eeprom.memory as object != userrow.tag
      && userrow.memory as object != flash.tag && userrow.memory as object != eeprom.tag
    }

    ghost function View(): State
      reads this, buffer, bufset, flash.memory, flash.tag, eeprom.memory, eeprom.tag, userrow.memory, userrow.tag
    {
      State(buffer[..], bufset[..], target, page, flash.View(), eeprom.View(), userrow.View())
    }

    ghost predicate Valid()
      reads this, buffer, bufset, flash.memory, flash.tag, eeprom.memory, eeprom.tag, userrow.memory, userrow.tag
    {
      Separate() && WellFormed(config, View())
    }

    constructor (config: Config)
      requires config.Valid()
      ensures Valid() && this.config == config && View() == Cleared(config, View())
      ensures BufferIs(config, View(), []) && TargetIs(config, View(), [])
    {
      this.config := config;
      buffer := new bv8[config.flashPageSize](_ => 0xFF);
      bufset := new bool[config.flashPageSize](_ => false);
      var f := new NonVolatileMemory(config.flashSize);
      var e := new NonVolatileMemory(config.eepromSize);
      var u := new NonVolatileMemory(config.userrowSize);
      flash, eeprom, userrow := f, e, u;
      target, page := None, 0;
      new;
      assert buffer[..] == seq(config.flashPageSize, _ => 0xFF);
      assert bufset[..] == seq(config.flashPageSize, _ => false);
    }

    method ClearBuffer()
      requires Valid()
      modifies `target, buffer, bufset
      ensures Valid() && View() == Cleared(config, old(View()))
    {
      for i := 0 to config.flashPageSize
        invariant forall k | 0 <= k < i :: buffer[k] == 0xFF && !bufset[k]
      {
        buffer[i], bufset[i] := 0xFF, false;
      }
      target := None;
      assert buffer[..] == seq(config.flashPageSize, _ => 0xFF);
      assert bufset[..] == seq(config.flashPageSize, _ => false);
    }

    method Locate(block: Block, addr: nat) returns (pageNum: nat, pageOffset: nat)
      requires config.Valid() && block != Other && addr < BlockSize(config, block)
      ensures pageNum == PageOf(config, block, addr) && pageOffset == OffsetOf(config, block, addr)
      ensures pageOffset < config.flashPageSize
    {
      AddressFits(config, block, addr);
      if block == Flash {
        pageNum, pageOffset := SplitAddress(addr, config.flashPageSize);
      } else if block == Eeprom {
        pageNum, pageOffset := SplitAddress(addr, config.eepromPageSize);
      } else {
        pageNum, pageOffset := 0, addr;
      }
    }

    static method SplitAddress(addr: nat, pageSize: nat) returns (pageNum: nat, pageOffset: nat)
      requires pageSize > 0
      ensures pageNum == Quotient(addr, pageSize) && pageOffset == Remainder(addr, pageSize)
    {
      QuotientIsDiv(addr, pageSize);
      RemainderIsMod(addr, pageSize);
      pageNum, pageOffset := addr / pageSize, addr % pageSize;
    }

    /** Binds a free buffer to the block; a write to another block invalidates it. */
    method BindBuffer(block: Block) returns (accepted: bool)
      modifies `target
      ensures accepted == Accepts(old(View()), block)
      ensures View() == old(View()).(target := if accepted then Bound(block) else Invalid)
    {
      accepted := false;
      if target == Invalid {
        return;
      }
      if block == Other {
        target := Invalid;
        return;
      }
      if target == None {
        target := Bound(block);
      } else if target != Bound(block) {
        target := Invalid;
        return;
      }
      accepted := true;
    }

    /** A write to the data space window of a block; the result is 1 when accepted, -1 when not. */
    method WriteNvm(block: Block, addr: nat, data: bv8) returns (result: int)
      requires Valid() && (block != Other ==> addr < BlockSize(config, block))
      modifies `target, `page, buffer, bufset
      ensures Valid() && View() == BufferWritten(config, old(View()), block, addr, data)
      ensures result == if Accepts(old(View()), block) then 1 else -1
    {
      if block == Other {
        var _ := BindBuffer(block);
        return -1;
      }
      var pageNum, pageOffset := Locate(block, addr);
      result := Store(block, pageNum, pageOffset, data);
    }

    method Store(block: Block, pageNum: nat, off: nat, data: bv8) returns (result: int)
      requires Valid() && block != Other && off < config.flashPageSize
      modifies `target, `page, buffer, bufset
      ensures Valid()
      ensures View() == if Accepts(old(View()), block) then ByteStored(config, old(View()), block, pageNum, off, data)
                        else old(View()).(target := Invalid)
      ensures result == if Accepts(old(View()), block) then 1 else -1
    {
      var accepted := BindBuffer(block);
      if !accepted {
        return -1;
      }
      StoreByte(pageNum, off, data);
      result := 1;
    }

    method StoreByte(pageNum: nat, off: nat, data: bv8)
      requires Separate() && off < buffer.Length == bufset.Length
      modifies `page, buffer, bufset
      ensures var s := old(View());
              View() == s.(page := pageNum, buffer := s.buffer[off := s.buffer[off] & data], bufset := s.bufset[off := true])
    {
      buffer[off] := buffer[off] & data;
      bufset[off] := true;
      page := pageNum;
    }

    /** Erase and write of a flash page. */
    method FlashPageCommand(cmd: Command)
      requires Valid()
      modifies flash.memory, flash.tag
      ensures Valid() && View() == old(View()).(flash := FlashAfter(config, old(View()), cmd))
    {
      var base := config.flashPageSize * page;
      PageBaseIsProduct(page, config.flashPageSize);
      if cmd == PageErase || cmd == PageEraseWrite {
        flash.Erase(base, config.flashPageSize);
      }
      if cmd == PageWrite || cmd == PageEraseWrite {
        flash.SpmCopy(buffer[..], base);
      }
    }

    /** Erase and write of the loaded bytes of an EEPROM or user row page. */
    method BytesPageCommand(nvm: NonVolatileMemory, cmd: Command)
      requires Valid() && (nvm == eeprom || nvm == userrow)
      modifies nvm.memory, nvm.tag
      ensures nvm.View() == BytesAfter(config, old(View()), old(nvm.View()), cmd)
    {
      var base := config.eepromPageSize * page;
      PageBaseIsProduct(page, config.eepromPageSize);
      if cmd == PageErase || cmd == PageEraseWrite {
        nvm.EraseSelected(bufset[..config.eepromPageSize], base);
      }
      if cmd == PageWrite || cmd == PageEraseWrite {
        nvm.SpmWriteSelected(buffer[..config.eepromPageSize], bufset[..config.eepromPageSize], base);
      }
    }

    method ExecutePageCommand(cmd: Command)
      requires Valid() && target.Bound? && (Erases(cmd) || Writes(cmd))
      modifies this, buffer, bufset, flash.memory, flash.tag, eeprom.memory, eeprom.tag, userrow.memory, userrow.tag
      ensures Valid() && View() == Step(config, old(View()), Execute(cmd))
    {
      ghost var s := View();
      if target.block == Flash {
        FlashPageCommand(cmd);
      } else if target.block == Eeprom {
        BytesPageCommand(eeprom, cmd);
        assert View() == s.(eeprom := BytesAfter(config, s, s.eeprom, cmd));
      } else {
        BytesPageCommand(userrow, cmd);
        assert View() == s.(userrow := BytesAfter(config, s, s.userrow, cmd));
      }
      ClearBuffer();
    }

    /** The result says whether the command is refused for want of a bound buffer. */
    method ExecuteCommand(cmd: Command) returns (writeError: bool)
      requires Valid()
      modifies this, buffer, bufset, flash.memory, flash.tag, eeprom.memory, eeprom.tag, userrow.memory, userrow.tag
      ensures Valid() && View() == Step(config, old(View()), Execute(cmd))
      ensures writeError <==> (Erases(cmd) || Writes(cmd)) && !old(target).Bound?
    {
      writeError := false;
      match cmd {
        case NoCommand =>
        case BufferErase =>
          ClearBuffer();
        case ChipErase =>
          flash.EraseAll();
          eeprom.EraseAll();
        case EepromErase =>
          eeprom.EraseAll();
        case _ =>
          if target.Bound? {
            ExecutePageCommand(cmd);
          } else {
            writeError := true;
          }
      }
    }
  }
}
