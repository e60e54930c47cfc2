/** Bit-level helpers over 8-bit registers and bytes (`uint8_t` in the source).
    Bit `n` of a byte is its n-th least significant bit. */
module Bits {

  /** The mask with only bit `n` set: `_BV(n)`, written `(1<<n)` in the register macros. */
  function BV(n: nat): bv8
    requires n < 8
  {
    match n
    case 0 => 0x01
    case 1 => 0x02
    case 2 => 0x04
    case 3 => 0x08
    case 4 => 0x10
    case 5 => 0x20
    case 6 => 0x40
    case 7 => 0x80
  }

  /** Whether bit `n` of `r` is set (`r & _BV(n)` is non-zero). */
  predicate Bit(r: bv8, n: nat)
    requires n < 8
  {
    r & BV(n) != 0
  }

  /** `r |= _BV(n)`. */
  function SetBit(r: bv8, n: nat): bv8
    requires n < 8
  {
    r | BV(n)
  }

  /** `r &= ~_BV(n)`. */
  function ClearBit(r: bv8, n: nat): bv8
    requires n < 8
  {
    r & !BV(n)
  }

  /** Setting bit `n` sets it and keeps every other bit. */
  lemma SetBitOnly(r: bv8, n: nat)
    requires n < 8
    ensures Bit(SetBit(r, n), n)
    ensures forall j :: 0 <= j < 8 && j != n ==> Bit(SetBit(r, n), j) == Bit(r, j)
  {
  }

  /** Clearing bit `n` clears it and keeps every other bit. */
  lemma ClearBitOnly(r: bv8, n: nat)
    requires n < 8
    ensures !Bit(ClearBit(r, n), n)
    ensures forall j :: 0 <= j < 8 && j != n ==> Bit(ClearBit(r, n), j) == Bit(r, j)
  {
  }

  /** Clearing a bit twice is clearing it once. */
  lemma ClearBitTwice(r: bv8, n: nat)
    requires n < 8
    ensures ClearBit(ClearBit(r, n), n) == ClearBit(r, n)
  {
  }

  /** Two bytes that agree on all eight bits are equal. */
  lemma BitsDetermine(a: bv8, b: bv8)
    requires forall j :: 0 <= j < 8 ==> Bit(a, j) == Bit(b, j)
    ensures a == b
  {
    assert Bit(a, 0) == Bit(b, 0) && Bit(a, 1) == Bit(b, 1);
    assert Bit(a, 2) == Bit(b, 2) && Bit(a, 3) == Bit(b, 3);
    assert Bit(a, 4) == Bit(b, 4) && Bit(a, 5) == Bit(b, 5);
    assert Bit(a, 6) == Bit(b, 6) && Bit(a, 7) == Bit(b, 7);
  }

  /** The eight bits of `b`, least significant first: the order in which the
      line protocol puts them on the wire. */
  function BitsOf(b: bv8): seq<bool>
  {
    seq(8, i requires 0 <= i < 8 => Bit(b, i))
  }

  /** The byte whose bits 0..n-1 are `s[0..n)` and whose higher bits are clear:
      the value `byte` holds after `n` rounds of `if (bit) byte |= _BV(i)`. */
  function Accumulate(s: seq<bool>, n: nat): bv8
    requires n <= |s| && n <= 8
  {
    if n == 0 then 0
    else if s[n - 1] then SetBit(Accumulate(s, n - 1), n - 1)
    else Accumulate(s, n - 1)
  }

  /** Bit j of `Accumulate(s, n)` is `s[j]` below n and clear from n up. */
  lemma {:induction false} AccumulateBits(s: seq<bool>, n: nat)
    requires n <= |s| && n <= 8
    ensures forall j :: 0 <= j < n ==> Bit(Accumulate(s, n), j) == s[j]
    ensures forall j :: n <= j < 8 ==> !Bit(Accumulate(s, n), j)
  {
    if n > 0 {
      AccumulateBits(s, n - 1);
      SetBitOnly(Accumulate(s, n - 1), n - 1);
    }
  }

  /** The byte assembled from eight bits received least significant first. */
  function FromBits(s: seq<bool>): bv8
    requires |s| == 8
  {
    Accumulate(s, 8)
  }

  /** Bit j of the assembled byte is the j-th bit received. */
  lemma FromBitsBits(s: seq<bool>)
    requires |s| == 8
    ensures forall j :: 0 <= j < 8 ==> Bit(FromBits(s), j) == s[j]
  {
    AccumulateBits(s, 8);
  }

  /** Assembling the bits of a byte gives the byte back. */
  lemma FromBitsOfBits(b: bv8)
    ensures FromBits(BitsOf(b)) == b
  {
    FromBitsBits(BitsOf(b));
    BitsDetermine(FromBits(BitsOf(b)), b);
  }

  /** Splitting an assembled byte gives the bits back. */
  lemma BitsOfFromBits(s: seq<bool>)
    requires |s| == 8
    ensures BitsOf(FromBits(s)) == s
  {
    FromBitsBits(s);
    assert forall j :: 0 <= j < 8 ==> BitsOf(FromBits(s))[j] == s[j];
  }
}
