/** Bytes of the serial interfaces, bit by bit. */
module Bits {

  /** A byte as its eight bits, most significant first. */
  type Byte = b: seq<bool> | |b| == 8 witness [false, false, false, false, false, false, false, false]

  const ZERO: Byte := [false, false, false, false, false, false, false, false]

  predicate Msb(b: Byte) { b[0] }

  predicate Lsb(b: Byte) { b[7] }

  /** Shift left by one, the new bit entering at the bottom. */
  function ShiftLeft(b: Byte, bit: bool): Byte { b[1..] + [bit] }

  /** Shift right by one, the new bit entering at the top. */
  function ShiftRight(b: Byte, bit: bool): Byte { [bit] + b[..7] }

  function ToBits(b: Byte): bv8 {
    (if b[0] then 0x80 else 0) | (if b[1] then 0x40 else 0) | (if b[2] then 0x20 else 0) | (if b[3] then 0x10 else 0)
    | (if b[4] then 0x08 else 0) | (if b[5] then 0x04 else 0) | (if b[6] then 0x02 else 0) | (if b[7] then 0x01 else 0)
  }

  /** The shifts above are those of the registers, on eight-bit words. */
  lemma ShiftLeftIsShift(b: Byte, bit: bool)
    ensures ToBits(ShiftLeft(b, bit)) == ((ToBits(b) << 1) & 0xFE) | (if bit then 0x01 else 0x00)
    ensures Msb(b) <==> ToBits(b) & 0x80 != 0
  {
  }

  lemma ShiftRightIsShift(b: Byte, bit: bool)
    ensures ToBits(ShiftRight(b, bit)) == ((ToBits(b) >> 1) & 0x7F) | (if bit then 0x80 else 0x00)
    ensures Lsb(b) <==> ToBits(b) & 0x01 != 0
  {
  }

  /** `n` left shifts move the top `n` bits of one register into another. */
  lemma RotateLeftOneMore(a: Byte, b: Byte, n: nat)
    requires 0 < n <= 8
    ensures ShiftLeft(a[n - 1..] + b[..n - 1], Msb(b[n - 1..] + a[..n - 1])) == a[n..] + b[..n]
  {
    assert b[..n] == b[..n - 1] + [b[n - 1]];
  }

  /** `n` right shifts move the bottom `n` bits of one register into another. */
  lemma RotateRightOneMore(a: Byte, b: Byte, n: nat)
    requires 0 < n <= 8
    ensures ShiftRight(b[9 - n..] + a[..9 - n], Lsb(a[9 - n..] + b[..9 - n])) == b[8 - n..] + a[..8 - n]
  {
    assert b[8 - n..] == [b[8 - n]] + b[9 - n..];
  }
}
