/** Flash sections of the XT core and the rights code in one section has on the others: the
    section manager with its page access map, the fuses that set the section limits, and the
    two protection bits of the NVM controller, APCWP and BOOTLOCK.

    Flash pages here are section pages. The boot lock takes effect when execution leaves the
    boot section; until then it is pending. */
module XtSections {

  const BOOT := 0
  const APPCODE := 1
  const APPDATA := 2
  const SECTIONS := 3

  /** An entry of the access matrix. `fetch` is meaningful from a section to itself. */
  datatype Access = Access(read: bool, write: bool, fetch: bool)

  /** An entry of the page map; `current` marks the pages of the section being executed. */
  datatype PageFlags = PageFlags(access: Access, current: bool)

  const NO_ACCESS := Access(false, false, false)
  const UNMAPPED := PageFlags(NO_ACCESS, false)

  datatype State = State(
    pageCount: nat, limit1: nat, limit2: nat,
    flags: seq<Access>,        // entry src * SECTIONS + dst
    current: nat,              // SECTIONS before the first fetch
    pages: seq<PageFlags>,
    apcwp: bool, bootlock: bool, pendingLock: bool)

  predicate WellFormed(s: State) {
    && s.limit1 <= s.limit2 <= s.pageCount && |s.flags| == 9 && s.current <= SECTIONS
    && |s.pages| == s.pageCount
    && OwnFetchOnly(s.flags)
  }

  /** Only the right of a section to be executed by itself is ever given. */
  predicate OwnFetchOnly(flags: seq<Access>)
    requires |flags| == 9
  {
    && !flags[1].fetch && !flags[2].fetch && !flags[3].fetch
    && !flags[5].fetch && !flags[6].fetch && !flags[7].fetch
  }

  function SectionOf(s: State, page: nat): (k: nat)
    ensures k < SECTIONS
  {
    if page < s.limit1 then BOOT else if page < s.limit2 then APPCODE else APPDATA
  }

  function Rights(s: State, src: nat, dst: nat): Access
    requires |s.flags| == 9 && src < SECTIONS && dst < SECTIONS
  {
    s.flags[src * SECTIONS + dst]
  }

  // ---------- Limits from the fuses ----------

  function Limit1(pageCount: nat, bootend: nat): nat {
    if bootend == 0 || bootend >= pageCount then pageCount else bootend
  }

  function Limit2(pageCount: nat, bootend: nat, append: nat): nat {
    if bootend == 0 || bootend >= pageCount || append == 0 || append >= pageCount then pageCount
    else if append < bootend then bootend
    else append
  }

  /** The three sections tile the flash in order; the boot section is never empty, and the
      fuses decide as follows which of the other two are. */
  lemma SectionsTileFlash(pageCount: nat, bootend: nat, append: nat)
    ensures Limit1(pageCount, bootend) <= Limit2(pageCount, bootend, append) <= pageCount
    ensures pageCount > 0 ==> Limit1(pageCount, bootend) > 0
    ensures Limit1(pageCount, bootend) < Limit2(pageCount, bootend, append) <==>
            0 < bootend < pageCount && (append == 0 || append > bootend)
    ensures Limit2(pageCount, bootend, append) < pageCount <==>
            0 < bootend < pageCount && 0 < append < pageCount
  {
  }

  // ---------- Transitions ----------

  function Unmapped(s: State): State {
    s.(pages := seq(s.pageCount, _ => UNMAPPED))
  }

  /** Default rights: everything is readable, boot writes the application, the application code
      writes the application data, and every section may be executed. */
  function DefaultFlags(): seq<Access> {
    var ro, rw := Access(true, false, false), Access(true, true, false);
    [ro.(fetch := true), rw, rw,
     ro, ro.(fetch := true), rw,
     ro, ro, ro.(fetch := true)]
  }

  predicate DefaultWrite(src: nat, dst: nat) {
    (src == BOOT && dst != BOOT) || (src == APPCODE && dst == APPDATA)
  }

  /** The first `j` entries of a row get their default read and write rights. */
  function AccessSet(flags: seq<Access>, src: nat, j: nat): (r: seq<Access>)
    requires |flags| == 9 && src < SECTIONS && j <= SECTIONS
    ensures |r| == 9
  {
    if j == 0 then flags
    else
      var r, k := AccessSet(flags, src, j - 1), src * SECTIONS + j - 1;
      r[k := Access(true, DefaultWrite(src, j - 1), r[k].fetch)]
  }

  function DefaultRow(flags: seq<Access>, src: nat): (r: seq<Access>)
    requires |flags| == 9 && src < SECTIONS
    ensures |r| == 9
  {
    var r, k := AccessSet(flags, src, SECTIONS), src * (SECTIONS + 1);
    r[k := r[k].(fetch := true)]
  }

  /** The first `i` rows get their default rights. */
  function RowsSet(flags: seq<Access>, i: nat): (r: seq<Access>)
    requires |flags| == 9 && i <= SECTIONS
    ensures |r| == 9
  {
    if i == 0 then flags else DefaultRow(RowsSet(flags, i - 1), i - 1)
  }

  lemma {:induction false} AccessSetAt(flags: seq<Access>, src: nat, j: nat, k: nat)
    requires |flags| == 9 && src < SECTIONS && j <= SECTIONS && k < 9
    ensures AccessSet(flags, src, j)[k] ==
            if src * SECTIONS <= k < src * SECTIONS + j then
              Access(true, DefaultWrite(src, k - src * SECTIONS), flags[k].fetch)
            else flags[k]
  {
    if j > 0 { AccessSetAt(flags, src, j - 1, k); }
  }

  lemma {:induction false} RowsSetAt(flags: seq<Access>, i: nat, src: nat, dst: nat)
    requires |flags| == 9 && i <= SECTIONS && src < SECTIONS && dst < SECTIONS
    ensures var k := src * SECTIONS + dst;
            RowsSet(flags, i)[k] ==
              if src < i then Access(true, DefaultWrite(src, dst), src == dst || flags[k].fetch) else flags[k]
  {
    if i > 0 {
      RowsSetAt(flags, i - 1, src, dst);
      AccessSetAt(RowsSet(flags, i - 1), i - 1, SECTIONS, src * SECTIONS + dst);
    }
  }

  /** Whatever the rights were, the rows set are those of the default matrix. */
  lemma RowsSetAreDefault(flags: seq<Access>, i: nat)
    requires |flags| == 9 && i <= SECTIONS && OwnFetchOnly(flags)
    ensures forall k | 0 <= k < i * SECTIONS :: RowsSet(flags, i)[k] == DefaultFlags()[k]
  {
    forall k | 0 <= k < i * SECTIONS
      ensures RowsSet(flags, i)[k] == DefaultFlags()[k]
    {
      RowsSetAt(flags, i, k / SECTIONS, k % SECTIONS);
    }
  }

  function WasReset(s: State, bootend: nat, append: nat): State {
    Unmapped(s.(limit1 := Limit1(s.pageCount, bootend), limit2 := Limit2(s.pageCount, bootend, append),
                flags := DefaultFlags(), apcwp := false, bootlock := false, pendingLock := false))
  }

  /** APCWP takes the right to write the application code from every section. */
  function WriteProtected(flags: seq<Access>): seq<Access>
    requires |flags| == 9
  {
    flags[1 := flags[1].(write := false)][4 := flags[4].(write := false)][7 := flags[7].(write := false)]
  }

  /** BOOTLOCK takes all rights on the boot section from the other two, and makes it not
      executable. */
  function BootLocked(flags: seq<Access>): seq<Access>
    requires |flags| == 9
  {
    flags[3 := flags[3].(read := false, write := false)][6 := flags[6].(read := false, write := false)]
         [0 := flags[0].(fetch := false)]
  }

  /** A write to CTRLB. Both bits can only be set; BOOTLOCK only from the boot section. */
  function CtrlbWritten(s: State, apcwp: bool, bootlock: bool): State
    requires WellFormed(s)
  {
    var s1 := if apcwp && !s.apcwp then Unmapped(s.(flags := WriteProtected(s.flags), apcwp := true)) else s;
    if bootlock && !s.bootlock && s.current == BOOT then s1.(bootlock := true, pendingLock := true) else s1
  }

  function Mapped(s: State): seq<PageFlags>
    requires WellFormed(s) && s.current < SECTIONS
  {
    seq(s.pageCount, p requires 0 <= p < s.pageCount =>
      PageFlags(Rights(s, s.current, SectionOf(s, p)), SectionOf(s, p) == s.current))
  }

  /** Execution reaches another section: a pending boot lock takes effect on the way out, then
      the map is rebuilt from the resulting rights. */
  function SectionEntered(s: State, section: nat): State
    requires WellFormed(s) && section < SECTIONS
  {
    var t := Left(s.(current := section), s.current);
    t.(pages := Mapped(t))
  }

  /** The rights once `from` has been left for the current section. */
  function Left(s: State, from: nat): State
    requires WellFormed(s)
  {
    if s.current != from == BOOT && s.pendingLock then Unmapped(s.(flags := BootLocked(s.flags), pendingLock := false))
    else s
  }

  function Fetched(s: State, page: nat): State
    requires WellFormed(s) && page < s.pageCount
  {
    if s.pages[page].current then s else SectionEntered(s, SectionOf(s, page))
  }

  /** Whether an instruction at the page may be executed. */
  predicate FetchAllowed(s: State, page: nat)
    requires WellFormed(s) && page < s.pageCount
  {
    Fetched(s, page).pages[page].access.fetch
  }

  predicate CanWrite(s: State, page: nat)
    requires WellFormed(s) && page < s.pageCount
  {
    s.pages[page].access.write
  }

  predicate CanRead(s: State, page: nat)
    requires WellFormed(s) && page < s.pageCount
  {
    s.pages[page].access.read
  }

  datatype Event =
    | Fetch(page: nat)
    | WriteCtrlb(apcwp: bool, bootlock: bool)
    | Reset(bootend: nat, append: nat)

  predicate Legal(pageCount: nat, e: Event) {
    e.Fetch? ==> e.page < pageCount
  }

  function Step(s: State, e: Event): (t: State)
    requires WellFormed(s) && Legal(s.pageCount, e)
    ensures WellFormed(t) && t.pageCount == s.pageCount
  {
    match e
    case Fetch(p) => Fetched(s, p)
    case WriteCtrlb(a, b) => CtrlbWritten(s, a, b)
    case Reset(b, a) => WasReset(s, b, a)
  }

  function Run(s: State, es: seq<Event>): (t: State)
    requires WellFormed(s) && forall i | 0 <= i < |es| :: Legal(s.pageCount, es[i])
    ensures WellFormed(t) && t.pageCount == s.pageCount
    decreases |es|
  {
    if es == [] then s else Run(Step(s, es[0]), es[1..])
  }

  // ---------- What every run keeps ----------

  /** The page map is either invalid as a whole or exactly the rights of the current section. */
  ghost predicate MapIsCoherent(s: State)
    requires WellFormed(s)
  {
    || (forall p | 0 <= p < s.pageCount :: s.pages[p] == UNMAPPED)
    || (s.current < SECTIONS && s.pages == Mapped(s))
  }

  predicate CodeProtected(s: State)
    requires |s.flags| == 9
  {
    !s.flags[1].write && !s.flags[4].write && !s.flags[7].write
  }

  predicate LockInForce(s: State)
    requires |s.flags| == 9
  {
    && !s.flags[3].read && !s.flags[3].write && !s.flags[6].read && !s.flags[6].write
    && !s.flags[0].fetch
  }

  ghost predicate Protected(s: State) {
    && WellFormed(s) && MapIsCoherent(s)
    && (s.apcwp ==> CodeProtected(s))
    && (s.pendingLock ==> s.bootlock && s.current == BOOT)
    && (s.bootlock && !s.pendingLock ==> LockInForce(s))
  }

  lemma EntryKeepsRights(s: State, section: nat)
    requires Protected(s) && section < SECTIONS && section != s.current
    ensures var t := SectionEntered(s, section);
            && (t.apcwp ==> CodeProtected(t)) && (t.bootlock ==> LockInForce(t)) && !t.pendingLock
  {
  }

  lemma EntryIsCoherent(s: State, section: nat)
    requires WellFormed(s) && section < SECTIONS
    ensures var t := SectionEntered(s, section); WellFormed(t) && MapIsCoherent(t)
  {
    var t := SectionEntered(s, section);
    assert t.pages == Mapped(t);
  }

  /** An unmapped page may be fetched from the section in force. */
  lemma RemapKeepsRights(s: State)
    requires Protected(s) && s.current < SECTIONS
    ensures var t := SectionEntered(s, s.current);
            && t.flags == s.flags && t.pendingLock == s.pendingLock
  {
  }

  lemma FetchKeepsProtected(s: State, page: nat)
    requires Protected(s) && page < s.pageCount
    ensures Protected(Fetched(s, page))
  {
    if !s.pages[page].current {
      var section := SectionOf(s, page);
      EntryIsCoherent(s, section);
      if section == s.current { RemapKeepsRights(s); } else { EntryKeepsRights(s, section); }
    }
  }

  lemma CtrlbKeepsProtected(s: State, a: bool, b: bool)
    requires Protected(s)
    ensures Protected(CtrlbWritten(s, a, b))
  {
  }

  lemma StepKeepsProtected(s: State, e: Event)
    requires Protected(s) && Legal(s.pageCount, e)
    ensures Protected(Step(s, e))
  {
    match e
    case Fetch(p) => FetchKeepsProtected(s, p);
    case WriteCtrlb(a, b) => CtrlbKeepsProtected(s, a, b);
    case Reset(_, _) =>
  }

  /** In every reachable state the page map is coherent, APCWP set means that no section may
      write the application code, and BOOTLOCK set with no lock pending means that the
      application has no rights on the boot section and the boot section is not executable. A
      lock can only be pending while the boot section is being executed. */
  lemma {:induction false} ProtectionAlwaysHolds(s: State, es: seq<Event>)
    requires Protected(s) && forall i | 0 <= i < |es| :: Legal(s.pageCount, es[i])
    ensures Protected(Run(s, es))
    decreases |es|
  {
    if es != [] {
      var t := Step(s, es[0]);
      StepKeepsProtected(s, es[0]);
      ProtectionAlwaysHolds(t, es[1..]);
    }
  }

  predicate AtMost(a: Access, b: Access) {
    (a.read ==> b.read) && (a.write ==> b.write) && (a.fetch ==> b.fetch)
  }

  predicate RightsShrink(s: State, t: State)
    requires |s.flags| == |t.flags|
  {
    && (forall i | 0 <= i < |s.flags| :: AtMost(t.flags[i], s.flags[i]))
    && (s.apcwp ==> t.apcwp) && (s.bootlock ==> t.bootlock)
  }

  lemma StepShrinks(s: State, e: Event)
    requires WellFormed(s) && Legal(s.pageCount, e) && !e.Reset?
    ensures RightsShrink(s, Step(s, e))
  {
  }

  /** Between resets rights are only ever taken away and the two bits never go back to zero. */
  lemma {:induction false} RightsOnlyShrink(s: State, es: seq<Event>)
    requires WellFormed(s) && forall i | 0 <= i < |es| :: Legal(s.pageCount, es[i]) && !es[i].Reset?
    ensures RightsShrink(s, Run(s, es))
    decreases |es|
  {
    if es != [] {
      var t := Step(s, es[0]);
      StepShrinks(s, es[0]);
      RightsOnlyShrink(t, es[1..]);
      assert forall i | 0 <= i < 9 :: AtMost(t.flags[i], s.flags[i]) && AtMost(Run(s, es).flags[i], t.flags[i]);
    }
  }

  lemma ProtectedCodeIsNotWritable(s: State, page: nat)
    requires WellFormed(s) && MapIsCoherent(s) && CodeProtected(s)
    requires page < s.pageCount && SectionOf(s, page) == APPCODE
    ensures !CanWrite(s, page)
  {
    if s.current < SECTIONS && s.pages == Mapped(s) {
      assert s.pages[page].access == Rights(s, s.current, APPCODE);
    }
  }

  /** Once APCWP is set, no write to an application code page is ever allowed before a reset,
      from whatever section and at whatever moment. */
  lemma AppCodeStaysProtected(s: State, es: seq<Event>, page: nat)
    requires Protected(s) && s.apcwp
    requires forall i | 0 <= i < |es| :: Legal(s.pageCount, es[i]) && !es[i].Reset?
    requires page < s.pageCount && SectionOf(Run(s, es), page) == APPCODE
    ensures !CanWrite(Run(s, es), page)
  {
    ProtectionAlwaysHolds(s, es);
    RightsOnlyShrink(s, es);
    ProtectedCodeIsNotWritable(Run(s, es), page);
  }

  /** Once BOOTLOCK is set, code outside the boot section can neither read nor write it and
      execution can never enter it again, until a reset. */
  lemma BootStaysLocked(s: State, es: seq<Event>, page: nat)
    requires Protected(s) && s.bootlock
    requires forall i | 0 <= i < |es| :: Legal(s.pageCount, es[i]) && !es[i].Reset?
    requires page < s.pageCount
    ensures var t := Run(s, es);
            SectionOf(t, page) == BOOT && t.current != BOOT ==>
              !CanRead(t, page) && !CanWrite(t, page) && !FetchAllowed(t, page)
  {
    ProtectionAlwaysHolds(s, es);
    RightsOnlyShrink(s, es);
    LockedShut(Run(s, es), page);
  }

  lemma LockedShut(t: State, page: nat)
    requires Protected(t) && t.bootlock && page < t.pageCount
    ensures SectionOf(t, page) == BOOT && t.current != BOOT ==>
              !CanRead(t, page) && !CanWrite(t, page) && !FetchAllowed(t, page)
  {
    if SectionOf(t, page) == BOOT && t.current != BOOT {
      assert LockInForce(t);
      assert !t.pages[page].current;
    }
  }

  // ---------- The exact rights ----------

  /** The section of a page as the fuses decide: 0 boot, 1 application code, 2 application data. */
  function Where(pageCount: nat, bootend: nat, append: nat, page: nat): nat {
    if bootend == 0 || bootend >= pageCount || page < bootend then 0
    else if append == 0 || append >= pageCount || page < append then 1
    else 2
  }

  /** The lock no longer waits for execution to leave the boot section. */
  predicate LockedNow(s: State) { s.bootlock && !s.pendingLock }

  // What code in section `src` may do in section `dst`

  predicate MayWrite(s: State, src: nat, dst: nat) {
    (src == 0 && dst == 1 && !s.apcwp) || (src <= 1 && dst == 2)
  }

  predicate MayRead(s: State, src: nat, dst: nat) { !(src != 0 && dst == 0 && LockedNow(s)) }

  predicate MayExecute(s: State, src: nat, dst: nat) { src == dst && !(dst == 0 && LockedNow(s)) }

  predicate ExactEntry(s: State, src: nat, dst: nat)
    requires |s.flags| == 9 && src < 3 && dst < 3
  {
    s.flags[src * 3 + dst] == Access(MayRead(s, src, dst), MayWrite(s, src, dst), MayExecute(s, src, dst))
  }

  predicate ExactFlags(s: State)
    requires |s.flags| == 9
  {
    && ExactEntry(s, 0, 0) && ExactEntry(s, 0, 1) && ExactEntry(s, 0, 2)
    && ExactEntry(s, 1, 0) && ExactEntry(s, 1, 1) && ExactEntry(s, 1, 2)
    && ExactEntry(s, 2, 0) && ExactEntry(s, 2, 1) && ExactEntry(s, 2, 2)
  }

  ghost predicate Exact(s: State) {
    WellFormed(s) && MapIsCoherent(s) && ExactFlags(s) && (s.pendingLock ==> s.bootlock && s.current == BOOT)
  }

  lemma ResetIsExact(s: State, b: nat, a: nat)
    requires WellFormed(s)
    ensures Exact(WasReset(s, b, a))
  {
  }

  lemma EntryKeepsFlags(s: State, section: nat)
    requires Exact(s) && section < SECTIONS
    ensures var t := SectionEntered(s, section);
            && WellFormed(t) && ExactFlags(t) && (t.pendingLock ==> t.bootlock && t.current == BOOT)
  {
  }

  lemma FetchKeepsExact(s: State, page: nat)
    requires Exact(s) && page < s.pageCount
    ensures Exact(Fetched(s, page))
  {
    if !s.pages[page].current {
      EntryIsCoherent(s, SectionOf(s, page));
      EntryKeepsFlags(s, SectionOf(s, page));
    }
  }

  lemma CtrlbKeepsExact(s: State, a: bool, b: bool)
    requires Exact(s)
    ensures Exact(CtrlbWritten(s, a, b))
  {
  }

  /** A run after a reset. */
  lemma {:induction false} AlwaysExact(s: State, es: seq<Event>)
    requires Exact(s) && forall i | 0 <= i < |es| :: Legal(s.pageCount, es[i])
    ensures Exact(Run(s, es))
    decreases |es|
  {
    if es != [] {
      match es[0] {
        case Fetch(p) => FetchKeepsExact(s, p);
        case WriteCtrlb(a, b) => CtrlbKeepsExact(s, a, b);
        case Reset(b, a) => ResetIsExact(s, b, a);
      }
      AlwaysExact(Step(s, es[0]), es[1..]);
    }
  }

  /** The limits are those of the fuses. */
  predicate Placed(s: State, bootend: nat, append: nat) {
    s.limit1 == Limit1(s.pageCount, bootend) && s.limit2 == Limit2(s.pageCount, bootend, append)
  }

  lemma {:induction false} StaysPlaced(s: State, es: seq<Event>, bootend: nat, append: nat)
    requires WellFormed(s) && Placed(s, bootend, append)
    requires forall i | 0 <= i < |es| :: Legal(s.pageCount, es[i]) && !es[i].Reset?
    ensures Placed(Run(s, es), bootend, append)
    decreases |es|
  {
    if es != [] { StaysPlaced(Step(s, es[0]), es[1..], bootend, append); }
  }

  lemma SectionIsWhere(s: State, bootend: nat, append: nat, page: nat)
    requires WellFormed(s) && Placed(s, bootend, append) && page < s.pageCount
    ensures SectionOf(s, page) == Where(s.pageCount, bootend, append, page)
  {
  }

  /** The rights in force on a page of a mapped state. */
  lemma MappedRights(s: State, page: nat)
    requires Exact(s) && page < s.pageCount && s.current < SECTIONS && s.pages == Mapped(s)
    ensures var dst := SectionOf(s, page);
            && (CanRead(s, page) <==> MayRead(s, s.current, dst))
            && (CanWrite(s, page) <==> MayWrite(s, s.current, dst))
            && (s.pages[page].access.fetch <==> MayExecute(s, s.current, dst))
  {
    var src, dst := s.current, SectionOf(s, page);
    assert s.pages[page].access == s.flags[src * 3 + dst];
    EntryIsExact(s, src, dst);
  }

  lemma EntryIsExact(s: State, src: nat, dst: nat)
    requires |s.flags| == 9 && ExactFlags(s) && src < 3 && dst < 3
    ensures ExactEntry(s, src, dst)
  {
  }

  lemma FetchMaps(s: State, page: nat)
    requires Exact(s) && page < s.pageCount
    ensures var t := Fetched(s, page); t.current == SectionOf(s, page) && t.pages == Mapped(t)
  {
    if s.pages[page].current {
      assert s.current < SECTIONS && s.pages == Mapped(s);
    } else {
      var t := Fetched(s, page);
      assert Mapped(t) == t.pages;
    }
  }

  /** The exact rights. After a reset with any fuses and any run of fetches and writes to CTRLB, let an
      instruction of page `p` be fetched. From then on, execution being in the section of `p`, a page
      may be written, read and executed exactly as its section, the section of `p`, APCWP and a lock
      in force say; and the fetch itself was allowed if and only if `p` is not in a locked boot
      section. */
  lemma RightsAreExact(s: State, bootend: nat, append: nat, es: seq<Event>, p: nat, page: nat)
    requires WellFormed(s) && p < s.pageCount && page < s.pageCount
    requires forall i | 0 <= i < |es| :: Legal(s.pageCount, es[i]) && !es[i].Reset?
    ensures var u := Run(Step(s, Reset(bootend, append)), es);
            var t := Step(u, Fetch(p));
            var src, dst := Where(s.pageCount, bootend, append, p), Where(s.pageCount, bootend, append, page);
            && t.current == src
            && (CanWrite(t, page) <==> MayWrite(t, src, dst))
            && (CanRead(t, page) <==> MayRead(t, src, dst))
            && (FetchAllowed(u, p) <==> !(src == 0 && LockedNow(t)))
  {
    var r := Step(s, Reset(bootend, append));
    var u := Run(r, es);
    var t := Step(u, Fetch(p));
    ResetIsExact(s, bootend, append);
    AlwaysExact(r, es);
    StaysPlaced(r, es, bootend, append);
    FetchKeepsExact(u, p);
    FetchMaps(u, p);
    SectionIsWhere(u, bootend, append, p);
    SectionIsWhere(t, bootend, append, p);
    SectionIsWhere(t, bootend, append, page);
    MappedRights(t, page);
    MappedRights(t, p);
  }

  // How the two bits get there

  /** A one is written to APCWP. */
  predicate WritesApcwp(es: seq<Event>) {
    es != [] && ((es[0].WriteCtrlb? && es[0].apcwp) || WritesApcwp(es[1..]))
  }

  /** Between resets APCWP is set if and only if it was, or a one has been written to it. */
  lemma {:induction false} ApcwpIff(s: State, es: seq<Event>)
    requires WellFormed(s) && forall i | 0 <= i < |es| :: Legal(s.pageCount, es[i]) && !es[i].Reset?
    ensures Run(s, es).apcwp <==> s.apcwp || WritesApcwp(es)
    decreases |es|
  {
    if es != [] { ApcwpIff(Step(s, es[0]), es[1..]); }
  }

  /** A one has been written to BOOTLOCK by code of the boot section. */
  predicate BootLocks(s: State, es: seq<Event>)
    requires WellFormed(s) && forall i | 0 <= i < |es| :: Legal(s.pageCount, es[i])
    decreases |es|
  {
    es != [] &&
    ((es[0].WriteCtrlb? && es[0].bootlock && s.current == BOOT) || BootLocks(Step(s, es[0]), es[1..]))
  }

  /** Between resets BOOTLOCK is set if and only if it was, or boot code has written a one to it. */
  lemma {:induction false} BootlockIff(s: State, es: seq<Event>)
    requires WellFormed(s) && forall i | 0 <= i < |es| :: Legal(s.pageCount, es[i]) && !es[i].Reset?
    ensures Run(s, es).bootlock <==> s.bootlock || BootLocks(s, es)
    decreases |es|
  {
    if es != [] { BootlockIff(Step(s, es[0]), es[1..]); }
  }

  /** The lock comes into force with the first fetch outside the boot section after BOOTLOCK is set. */
  lemma LockTakesEffect(s: State, e: Event)
    requires Exact(s) && Legal(s.pageCount, e) && !e.Reset?
    ensures LockedNow(Step(s, e)) <==>
            LockedNow(s) || (s.bootlock && e.Fetch? && SectionOf(s, e.page) != BOOT)
  {
    if e.Fetch? { FetchMaps(s, e.page); }
  }

  // ---------- The section manager and the two bits ----------

  class SectionManager {
    const pageCount: nat
    const limits: array<nat>
    const flags: array<Access>
    const pages: array<PageFlags>
    var current: nat
    var apcwp: bool
    var bootlock: bool
    var pendingLock: bool

    ghost function View(): State
      requires limits.Length == 4
      reads this, limits, flags, pages
    {
      State(pageCount, limits[1], limits[2], flags[..], current, pages[..], apcwp, bootlock, pendingLock)
    }

    ghost predicate Valid()
      reads this, limits, flags, pages
    {
      && limits.Length == 4 && limits[0] == 0 && limits[3] == pageCount
      && limits as object != flags && limits as object != pages && flags as object != pages
      && WellFormed(View())
    }

    constructor (pageCount: nat)
      ensures Valid() && this.pageCount == pageCount && current == SECTIONS
      ensures Protected(View())
    {
      this.pageCount := pageCount;
      limits := new nat[4](i => if i == 0 then 0 else pageCount);
      flags := new Access[9](_ => NO_ACCESS);
      pages := new PageFlags[pageCount](_ => UNMAPPED);
      current := SECTIONS;
      apcwp, bootlock, pendingLock := false, false, false;
    }

    method PageToSection(page: nat) returns (k: nat)
      requires Valid()
      ensures k == SectionOf(View(), page)
    {
      var start := 0;
      for i := 0 to SECTIONS
        invariant start == limits[i] && start <= limits[i]
        invariant page < limits[i] ==> false
      {
        if start <= page && page < limits[i + 1] {
          return i;
        }
        start := limits[i + 1];
      }
      k := SECTIONS - 1;
    }

    method InvalidatePageAccessMap()
      requires Valid()
      modifies pages
      ensures Valid() && View() == Unmapped(old(View()))
    {
      for p := 0 to pageCount
        invariant forall q | 0 <= q < p :: pages[q] == UNMAPPED
      {
        pages[p] := UNMAPPED;
      }
      assert pages[..] == seq(pageCount, _ => UNMAPPED);
    }

    method SetAccessFlags(src: nat, dst: nat, read: bool, write: bool)
      requires Valid() && src < SECTIONS && dst < SECTIONS
      modifies flags, pages
      ensures Valid()
      ensures View() == Unmapped(old(View()).(flags := old(flags[..])[src * SECTIONS + dst :=
                          Access(read, write, old(flags[src * SECTIONS + dst]).fetch)]))
    {
      var k := src * SECTIONS + dst;
      flags[k] := Access(read, write, flags[k].fetch);
      assert flags[..] == old(flags[..])[k := Access(read, write, old(flags[k]).fetch)];
      InvalidatePageAccessMap();
    }

    method SetFetchAllowed(section: nat, allowed: bool)
      requires Valid() && section < SECTIONS
      modifies flags, pages
      ensures Valid()
      ensures View() == Unmapped(old(View()).(flags := old(flags[..])[section * (SECTIONS + 1) :=
                          old(flags[section * (SECTIONS + 1)]).(fetch := allowed)]))
    {
      var k := section * (SECTIONS + 1);
      flags[k] := flags[k].(fetch := allowed);
      assert flags[..] == old(flags[..])[k := old(flags[k]).(fetch := allowed)];
      InvalidatePageAccessMap();
    }

    /** The NVM controller hears that execution leaves a section. */
    method SectionLeft(section: nat)
      requires Valid()
      modifies `pendingLock, flags, pages
      ensures Valid()
      ensures if old(pendingLock) && section == BOOT
              then View() == Unmapped(old(View()).(flags := BootLocked(old(flags[..])), pendingLock := false))
              else View() == old(View())
    {
      if pendingLock && section == BOOT {
        SetAccessFlags(APPCODE, BOOT, false, false);
        SetAccessFlags(APPDATA, BOOT, false, false);
        SetFetchAllowed(BOOT, false);
        pendingLock := false;
      }
    }

    method BuildMap()
      requires Valid() && current < SECTIONS
      modifies pages
      ensures Valid() && View() == old(View()).(pages := Mapped(old(View())))
    {
      ghost var m := Mapped(View());
      var start := 0;
      for k := 0 to SECTIONS
        invariant Valid() && start == limits[k]
        invariant forall p | 0 <= p < limits[k] :: pages[p] == m[p]
      {
        var end := limits[k + 1];
        if start < end {
          var f := PageFlags(flags[current * SECTIONS + k], k == current);
          for p := start to end
            invariant forall q | 0 <= q < p :: pages[q] == m[q]
          {
            pages[p] := f;
          }
        }
        start := end;
      }
      assert pages[..] == m;
    }

    method UpdateCurrentSection(page: nat)
      requires Valid() && page < pageCount
      modifies `current, `pendingLock, flags, pages
      ensures Valid() && View() == SectionEntered(old(View()), SectionOf(old(View()), page))
    {
      var oldSection := current;
      ghost var s := View();
      var section := PageToSection(page);
      current := section;
      LeaveSection(oldSection);
      BuildMap();
    }

    /** The section just left is told, unless it is entered again. */
    method LeaveSection(oldSection: nat)
      requires Valid() && current < SECTIONS
      modifies `pendingLock, flags, pages
      ensures Valid()
      ensures View() == Left(old(View()), oldSection)
    {
      if current != oldSection && oldSection < SECTIONS {
        SectionLeft(oldSection);
      }
    }

    method FetchAddress(page: nat) returns (allowed: bool)
      requires Valid() && page < pageCount
      modifies `current, `pendingLock, flags, pages
      ensures Valid() && View() == Step(old(View()), Fetch(page))
      ensures allowed == FetchAllowed(old(View()), page)
    {
      if !pages[page].current {
        UpdateCurrentSection(page);
      }
      allowed := pages[page].access.fetch;
    }

    method WriteCtrlbReg(a: bool, b: bool)
      requires Valid()
      modifies this, flags, pages
      ensures Valid() && View() == Step(old(View()), WriteCtrlb(a, b))
    {
      var oldA, oldB := apcwp, bootlock;
      apcwp, bootlock := a, b;
      if a && !oldA {
        ProtectAppCode();
      }
      if b && !oldB {
        if current == BOOT {
          pendingLock := true;
        } else {
          bootlock := false;
        }
      }
      if oldA && !a {
        apcwp := true;
      }
      if oldB && !b {
        bootlock := true;
      }
    }

    method ProtectAppCode()
      requires Valid()
      modifies flags, pages
      ensures Valid() && View() == Unmapped(old(View()).(flags := WriteProtected(old(flags[..]))))
    {
      ghost var f := flags[..];
      for i := 0 to SECTIONS
        invariant Valid()
        invariant View() == (if i == 0 then old(View()) else Unmapped(old(View()).(flags := flags[..])))
        invariant forall k | 0 <= k < 9 ::
                    flags[k] == if k % SECTIONS == APPCODE && k < i * SECTIONS then f[k].(write := false) else f[k]
      {
        var a := flags[i * SECTIONS + APPCODE];
        SetAccessFlags(i, APPCODE, a.read, false);
      }
      assert flags[..] == WriteProtected(f);
    }

    /** Limits from the fuses and default rights; the core has zeroed CTRLB. */
    method ConfigureFlashSections(bootend: nat, append: nat)
      requires Valid()
      modifies this, limits, flags, pages
      ensures Valid() && View() == Step(old(View()), Reset(bootend, append))
    {
      var limit1, limit2;
      if bootend == 0 || bootend >= pageCount {
        limit1, limit2 := pageCount, pageCount;
      } else {
        limit1 := bootend;
        if append == 0 || append >= pageCount {
          limit2 := pageCount;
        } else if append < bootend {
          limit2 := bootend;
        } else {
          limit2 := append;
        }
      }
      limits[1], limits[2] := limit1, limit2;
      apcwp, bootlock, pendingLock := false, false, false;
      SetDefaultRights();
    }

    method SetDefaultRow(i: nat)
      requires Valid() && i < SECTIONS
      modifies flags, pages
      ensures Valid() && View() == Unmapped(old(View()).(flags := DefaultRow(old(flags[..]), i)))
    {
      ghost var f := flags[..];
      for j := 0 to SECTIONS
        invariant Valid()
        invariant View() == if j == 0 then old(View()) else Unmapped(old(View()).(flags := AccessSet(f, i, j)))
      {
        SetAccessFlags(i, j, true, DefaultWrite(i, j));
      }
      SetFetchAllowed(i, true);
    }

    method SetDefaultRights()
      requires Valid()
      modifies flags, pages
      ensures Valid() && View() == Unmapped(old(View()).(flags := DefaultFlags()))
    {
      ghost var f := flags[..];
      for i := 0 to SECTIONS
        invariant Valid()
        invariant View() == if i == 0 then old(View()) else Unmapped(old(View()).(flags := RowsSet(f, i)))
        invariant forall k | 0 <= k < i * SECTIONS :: flags[k] == DefaultFlags()[k]
      {
        SetDefaultRow(i);
        RowsSetAreDefault(f, i + 1);
      }
      assert flags[..] == DefaultFlags();
    }
  }
}
