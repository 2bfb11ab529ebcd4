/** A non-volatile memory block: bytes and, for each, whether it is programmed. Every range
    operation clips its range to the block the same way, moving an out-of-range base back
    to the last byte. */
module NvmMemory {

  datatype Mem = Mem(bytes: seq<bv8>, tags: seq<bool>)

  ghost predicate Sized(m: Mem) {
    |m.bytes| == |m.tags|
  }

  function ClipBase(base: nat, size: nat): (b: nat)
    requires size > 0
    ensures b < size && (base < size ==> b == base)
  {
    if base >= size then size - 1 else base
  }

  function ClipLen(base: nat, len: nat, size: nat): (l: nat)
    requires base < size
    ensures base + l <= size && (base + len <= size ==> l == len)
  {
    if base + len > size then size - base else len
  }

  /** Address `i` is in the clipped range `[base, base + len)` of a block of `size` bytes. */
  predicate InRange(i: nat, base: nat, len: nat, size: nat) {
    size > 0 && len > 0 &&
    var b := ClipBase(base, size);
    b <= i < b + ClipLen(b, len, size)
  }

  /** All bytes of the range read 0xFF and are unprogrammed. */
  function Erased(m: Mem, base: nat, len: nat): (r: Mem)
    requires Sized(m)
    ensures Sized(r) && |r.bytes| == |m.bytes|
  {
    var n := |m.bytes|;
    Mem(seq(n, i requires 0 <= i < n => if InRange(i, base, len, n) then 0xFF else m.bytes[i]),
        seq(n, i requires 0 <= i < n => if InRange(i, base, len, n) then false else m.tags[i]))
  }

  /** Erasing one byte: the addressed one or, past the end, the last one. */
  function ErasedByte(m: Mem, addr: nat): (r: Mem)
    requires Sized(m)
    ensures Sized(r) && |r.bytes| == |m.bytes|
  {
    if |m.bytes| == 0 then m
    else Mem(m.bytes[ClipBase(addr, |m.bytes|) := 0xFF], m.tags[ClipBase(addr, |m.bytes|) := false])
  }

  lemma ErasingOneByte(m: Mem, addr: nat)
    requires Sized(m)
    ensures Erased(m, addr, 1) == ErasedByte(m, addr)
  {
    assert Erased(m, addr, 1).bytes == ErasedByte(m, addr).bytes;
    assert Erased(m, addr, 1).tags == ErasedByte(m, addr).tags;
  }

  /** As `Erased`, for the bytes whose entry in `sel` is set. */
  function ErasedWhere(m: Mem, sel: seq<bool>, base: nat): (r: Mem)
    requires Sized(m)
    ensures Sized(r) && |r.bytes| == |m.bytes|
  {
    var n := |m.bytes|;
    Mem(seq(n, i requires 0 <= i < n => if Selected(i, sel, base, n) then 0xFF else m.bytes[i]),
        seq(n, i requires 0 <= i < n => if Selected(i, sel, base, n) then false else m.tags[i]))
  }

  predicate Selected(i: nat, sel: seq<bool>, base: nat, size: nat) {
    InRange(i, base, |sel|, size) && sel[i - ClipBase(base, size)]
  }

  /** One byte ANDed in; nothing when the address is outside the block. */
  function Programmed(m: Mem, v: bv8, pos: nat): (r: Mem)
    requires Sized(m)
    ensures Sized(r) && |r.bytes| == |m.bytes|
  {
    if pos < |m.bytes| then Mem(m.bytes[pos := m.bytes[pos] & v], m.tags[pos := true]) else m
  }

  /** The selected bytes of `buf` are ANDed in. */
  function ProgrammedWhere(m: Mem, buf: seq<bv8>, sel: seq<bool>, base: nat): (r: Mem)
    requires Sized(m) && |buf| == |sel|
    ensures Sized(r) && |r.bytes| == |m.bytes|
  {
    var n := |m.bytes|;
    Mem(seq(n, i requires 0 <= i < n =>
          if Selected(i, sel, base, n) then m.bytes[i] & buf[i - ClipBase(base, n)] else m.bytes[i]),
        seq(n, i requires 0 <= i < n => Selected(i, sel, base, n) || m.tags[i]))
  }

  /** The first `k` bytes of the buffer, programmed one after the other from address `b` on. */
  function ProgrammedFirst(m: Mem, buf: seq<bv8>, sel: seq<bool>, b: nat, k: nat): (r: Mem)
    requires Sized(m) && k <= |buf| == |sel|
    ensures Sized(r) && |r.bytes| == |m.bytes|
  {
    if k == 0 then m
    else
      var p := ProgrammedFirst(m, buf, sel, b, k - 1);
      if sel[k - 1] then Programmed(p, buf[k - 1], b + k - 1) else p
  }

  lemma ProgrammedAt(m: Mem, v: bv8, pos: nat, i: nat)
    requires Sized(m) && i < |m.bytes|
    ensures Programmed(m, v, pos).bytes[i] == if i == pos then m.bytes[i] & v else m.bytes[i]
    ensures Programmed(m, v, pos).tags[i] == (i == pos || m.tags[i])
  {
  }

  /** Bytes outside the range or not selected stay, and each selected one is programmed once. */
  lemma {:induction false} OthersStay(m: Mem, buf: seq<bv8>, sel: seq<bool>, b: nat, k: nat, i: nat)
    requires Sized(m) && k <= |buf| == |sel| && i < |m.bytes| && !(b <= i < b + k && sel[i - b])
    ensures var r := ProgrammedFirst(m, buf, sel, b, k); r.bytes[i] == m.bytes[i] && r.tags[i] == m.tags[i]
  {
    if k > 0 {
      OthersStay(m, buf, sel, b, k - 1, i);
      ProgrammedAt(ProgrammedFirst(m, buf, sel, b, k - 1), buf[k - 1], b + k - 1, i);
    }
  }

  lemma {:induction false} SelectedOnce(m: Mem, buf: seq<bv8>, sel: seq<bool>, b: nat, k: nat, j: nat)
    requires Sized(m) && j < k <= |buf| == |sel| && b + j < |m.bytes| && sel[j]
    ensures var r := ProgrammedFirst(m, buf, sel, b, k); r.bytes[b + j] == m.bytes[b + j] & buf[j] && r.tags[b + j]
  {
    if j == k - 1 { OthersStay(m, buf, sel, b, j, b + j); } else { SelectedOnce(m, buf, sel, b, k - 1, j); }
    ProgrammedAt(ProgrammedFirst(m, buf, sel, b, k - 1), buf[k - 1], b + k - 1, b + j);
  }

  /** Byte by byte or at once, the clipped range is the same. */
  lemma FirstAreSelected(m: Mem, buf: seq<bv8>, sel: seq<bool>, base: nat, b: nat, l: nat)
    requires Sized(m) && |buf| == |sel| > 0 && |m.bytes| > 0
    requires b == ClipBase(base, |m.bytes|) && l == ClipLen(b, |buf|, |m.bytes|)
    ensures l <= |buf| && ProgrammedFirst(m, buf, sel, b, l) == ProgrammedWhere(m, buf, sel, base)
  {
    var r, q := ProgrammedFirst(m, buf, sel, b, l), ProgrammedWhere(m, buf, sel, base);
    forall i: nat | i < |m.bytes| ensures r.bytes[i] == q.bytes[i] && r.tags[i] == q.tags[i] {
      if b <= i < b + l && sel[i - b] { SelectedOnce(m, buf, sel, b, l, i - b); }
      else { OthersStay(m, buf, sel, b, l, i); }
    }
  }

  /** Without a selection the bytes are copied, not ANDed. */
  function Copied(m: Mem, buf: seq<bv8>, base: nat): (r: Mem)
    requires Sized(m)
    ensures Sized(r) && |r.bytes| == |m.bytes|
  {
    var n := |m.bytes|;
    Mem(seq(n, i requires 0 <= i < n =>
          if InRange(i, base, |buf|, n) then buf[i - ClipBase(base, n)] else m.bytes[i]),
        seq(n, i requires 0 <= i < n => InRange(i, base, |buf|, n) || m.tags[i]))
  }

  class NonVolatileMemory {
    const memory: array<bv8>
    const tag: array<bool>

    ghost predicate Valid() {
      memory.Length == tag.Length && memory as object != tag
    }

    ghost function View(): Mem
      reads memory, tag
    {
      Mem(memory[..], tag[..])
    }

    /** A fresh block is unprogrammed and reads 0xFF. */
    constructor (size: nat)
      ensures Valid() && fresh(memory) && fresh(tag) && memory.Length == size
      ensures View() == Mem(seq(size, _ => 0xFF), seq(size, _ => false))
    {
      memory := new bv8[size](_ => 0xFF);
      tag := new bool[size](_ => false);
      new;
      assert memory[..] == seq(size, _ => 0xFF);
      assert tag[..] == seq(size, _ => false);
    }

    method EraseAll()
      requires Valid()
      modifies memory, tag
      ensures View() == Erased(old(View()), 0, memory.Length)
    {
      Erase(0, memory.Length);
    }

    method Erase(base: nat, len: nat)
      requires Valid()
      modifies memory, tag
      ensures View() == Erased(old(View()), base, len)
    {
      ghost var m := View();
      if memory.Length == 0 || len == 0 {
        assert View() == Erased(m, base, len);
        return;
      }
      var b := ClipBase(base, memory.Length);
      var l := ClipLen(b, len, memory.Length);
      for k := 0 to l
        invariant forall i | 0 <= i < memory.Length ::
                    memory[i] == (if b <= i < b + k then 0xFF else m.bytes[i])
                    && tag[i] == (if b <= i < b + k then false else m.tags[i])
      {
        memory[b + k] := 0xFF;
        tag[b + k] := false;
      }
      assert View() == Erased(m, base, len);
    }

    method EraseSelected(sel: seq<bool>, base: nat)
      requires Valid()
      modifies memory, tag
      ensures View() == ErasedWhere(old(View()), sel, base)
    {
      ghost var m := View();
      if memory.Length == 0 || |sel| == 0 {
        assert View() == ErasedWhere(m, sel, base);
        return;
      }
      var b := ClipBase(base, memory.Length);
      var l := ClipLen(b, |sel|, memory.Length);
      for k := 0 to l
        invariant forall i | 0 <= i < memory.Length ::
                    memory[i] == (if b <= i < b + k && sel[i - b] then 0xFF else m.bytes[i])
                    && tag[i] == (if b <= i < b + k && sel[i - b] then false else m.tags[i])
      {
        if sel[k] {
          memory[b + k] := 0xFF;
          tag[b + k] := false;
        }
      }
      assert View() == ErasedWhere(m, sel, base);
    }

    method SpmWrite(v: bv8, pos: nat)
      requires Valid()
      modifies memory, tag
      ensures View() == Programmed(old(View()), v, pos)
    {
      if pos < memory.Length {
        memory[pos] := memory[pos] & v;
        tag[pos] := true;
        assert memory[..] == old(memory[..])[pos := old(memory[pos]) & v];
        assert tag[..] == old(tag[..])[pos := true];
      }
    }

    method SpmWriteSelected(buf: seq<bv8>, sel: seq<bool>, base: nat)
      requires Valid() && |buf| == |sel|
      modifies memory, tag
      ensures View() == ProgrammedWhere(old(View()), buf, sel, base)
    {
      ghost var m := View();
      if memory.Length == 0 || |buf| == 0 {
        assert View() == ProgrammedWhere(m, buf, sel, base);
        return;
      }
      var b := ClipBase(base, memory.Length);
      var l := ClipLen(b, |buf|, memory.Length);
      FirstAreSelected(m, buf, sel, base, b, l);
      for k := 0 to l
        invariant View() == ProgrammedFirst(m, buf, sel, b, k)
      {
        if sel[k] {
          SpmWrite(buf[k], b + k);
        }
      }
    }

    /** The write with an empty selection. */
    method SpmCopy(buf: seq<bv8>, base: nat)
      requires Valid()
      modifies memory, tag
      ensures View() == Copied(old(View()), buf, base)
    {
      ghost var m := View();
      if memory.Length == 0 || |buf| == 0 {
        assert View() == Copied(m, buf, base);
        return;
      }
      var b := ClipBase(base, memory.Length);
      var l := ClipLen(b, |buf|, memory.Length);
      for k := 0 to l
        invariant forall i | 0 <= i < memory.Length ::
                    memory[i] == (if b <= i < b + k then buf[i - b] else m.bytes[i])
                    && tag[i] == (b <= i < b + k || m.tags[i])
      {
        memory[b + k] := buf[k];
        tag[b + k] := true;
      }
      assert View() == Copied(m, buf, base);
    }
  }

  /** The bytes that an operation at a base address reaches: `len` of them, cut off at the end of the
      block; and of a base past the end, the last byte of the block. */
  predicate Reached(size: nat, base: nat, len: nat, i: nat) {
    len > 0 && i < size && if base < size then base <= i < base + len else i == size - 1
  }

  lemma RangeIsReached(size: nat, base: nat, len: nat, i: nat)
    requires i < size
    ensures InRange(i, base, len, size) <==> Reached(size, base, len, i)
    ensures InRange(i, base, len, size) ==> i - ClipBase(base, size) == if base < size then i - base else 0
  {
  }

  /** Erasing, byte by byte. */
  lemma ErasedBytes(m: Mem, base: nat, len: nat, i: nat)
    requires Sized(m) && i < |m.bytes|
    ensures var r := Erased(m, base, len);
            if Reached(|m.bytes|, base, len, i) then r.bytes[i] == 0xFF && !r.tags[i]
            else r.bytes[i] == m.bytes[i] && r.tags[i] == m.tags[i]
  {
    RangeIsReached(|m.bytes|, base, len, i);
  }

  /** Copying, byte by byte. */
  lemma CopiedBytes(m: Mem, buf: seq<bv8>, base: nat, i: nat)
    requires Sized(m) && i < |m.bytes|
    ensures var r := Copied(m, buf, base);
            if Reached(|m.bytes|, base, |buf|, i) then
              r.bytes[i] == buf[if base < |m.bytes| then i - base else 0] && r.tags[i]
            else r.bytes[i] == m.bytes[i] && r.tags[i] == m.tags[i]
  {
    RangeIsReached(|m.bytes|, base, |buf|, i);
  }

  /** Which selected byte, if any, an operation takes to address `i`. */
  predicate Hit(size: nat, sel: seq<bool>, base: nat, i: nat) {
    Reached(size, base, |sel|, i) && sel[if base < size then i - base else 0]
  }

  lemma SelectedIsHit(size: nat, sel: seq<bool>, base: nat, i: nat)
    requires i < size
    ensures Selected(i, sel, base, size) <==> Hit(size, sel, base, i)
  {
    RangeIsReached(size, base, |sel|, i);
  }

  /** Erasing selected bytes, byte by byte. */
  lemma SelectedErased(m: Mem, sel: seq<bool>, base: nat, i: nat)
    requires Sized(m) && i < |m.bytes|
    ensures var r := ErasedWhere(m, sel, base);
            if Hit(|m.bytes|, sel, base, i) then r.bytes[i] == 0xFF && !r.tags[i]
            else r.bytes[i] == m.bytes[i] && r.tags[i] == m.tags[i]
  {
    SelectedIsHit(|m.bytes|, sel, base, i);
  }

  /** Programming selected bytes, byte by byte. */
  lemma SelectedProgrammed(m: Mem, buf: seq<bv8>, sel: seq<bool>, base: nat, i: nat)
    requires Sized(m) && |buf| == |sel| && i < |m.bytes|
    ensures var r := ProgrammedWhere(m, buf, sel, base);
            if Hit(|m.bytes|, sel, base, i) then
              r.bytes[i] == m.bytes[i] & buf[if base < |m.bytes| then i - base else 0] && r.tags[i]
            else r.bytes[i] == m.bytes[i] && r.tags[i] == m.tags[i]
  {
    SelectedIsHit(|m.bytes|, sel, base, i);
    RangeIsReached(|m.bytes|, base, |sel|, i);
  }

  /** A write after an erase of the same selected bytes leaves exactly the buffer there. */
  lemma EraseThenProgram(m: Mem, buf: seq<bv8>, sel: seq<bool>, base: nat, i: nat)
    requires Sized(m) && |buf| == |sel| && base + |buf| <= |m.bytes| && i < |m.bytes|
    ensures var r := ProgrammedWhere(ErasedWhere(m, sel, base), buf, sel, base);
            r.bytes[i] == if base <= i < base + |buf| && sel[i - base] then buf[i - base] else m.bytes[i]
  {
  }

  /** Programming without erasing first can only clear bits. */
  lemma ProgramOnlyClearsBits(m: Mem, buf: seq<bv8>, sel: seq<bool>, base: nat, i: nat)
    requires Sized(m) && |buf| == |sel| && i < |m.bytes|
    ensures ProgrammedWhere(m, buf, sel, base).bytes[i] & m.bytes[i] == ProgrammedWhere(m, buf, sel, base).bytes[i]
  {
  }
}
