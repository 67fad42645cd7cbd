/**
  Why one table lookup per byte is enough: the register's response to its low byte is stored, and
  the other three bytes only move down.
 */
module Crc32cTable {
  import opened BitStrings
  import opened Words
  import opened Lfsr
  import opened Crc32cSpec
  import opened Crc32cTheorems

  /** The register after k clocks from the number i. */
  function PartialResponse(i: nat, k: nat): (r: Word) {
    Idle(Castagnoli(), FromNat(i, 32), k)
  }

  function Response(i: nat): (r: Word) {
    PartialResponse(i, 8)
  }

  ghost predicate FilledTo(table: seq<Word>, n: nat) {
    n <= |table| && forall i :: 0 <= i < n ==> table[i] == Response(i)
  }

  ghost predicate IsTable(table: seq<Word>) {
    |table| == 256 && FilledTo(table, 256)
  }

  /** One clock, in the operations the program uses. */
  lemma ClockByShift(c: Word)
    ensures Clock(Castagnoli(), c, false) ==
      if c[0] then Xor(ShiftRight(c, 1), Castagnoli()) else ShiftRight(c, 1)
  {
  }

  lemma ResponseStarts(i: nat)
    ensures PartialResponse(i, 0) == FromNat(i, 32)
  {
  }

  lemma ResponseNext(i: nat, k: nat)
    ensures PartialResponse(i, k + 1) ==
      var c := PartialResponse(i, k);
      if c[0] then Xor(ShiftRight(c, 1), Castagnoli()) else ShiftRight(c, 1)
  {
    assert Zeros(k + 1)[..k] == Zeros(k);
    ClockByShift(PartialResponse(i, k));
  }

  /** The low byte of the register and an input byte, combined, index the table. */
  function Index(s: Word, b: Byte): (i: Byte) {
    var low := Xor(s, FromNat(b, 32))[..8];
    ByteValue(low);
    Value(low)
  }

  lemma SplitAtByte(x: Word)
    ensures Xor(x[..8] + Zeros(24), Zeros(8) + x[8..]) == x
  {
  }

  lemma InputStaysLow(s: Word, b: Byte)
    ensures Xor(s, FromNat(b, 32))[8..] == s[8..]
  {
    assert Pow2(8) == 0x100;
    FromNatPads(b, 8, 24);
  }

  lemma Lookup(table: seq<Word>, s: Word, b: Byte)
    requires IsTable(table)
    ensures Xor(ShiftRight(s, 8), table[Index(s, b)]) == Idle(Castagnoli(), Xor(s, FromNat(b, 32)), 8)
  {
    var g := Castagnoli();
    var x := Xor(s, FromNat(b, 32));
    var low, high := x[..8], x[8..];
    InputStaysLow(s, b);
    SplitAtByte(x);
    XorZero(Zeros(8));
    RunXor(g, low + Zeros(24), Zeros(8) + high, Zeros(8), Zeros(8));
    IdleShifts(g, high, 8);
    LowAsNumber(low);
    assert Idle(g, x, 8) == Xor(table[Index(s, b)], ShiftRight(s, 8));
    XorCommutes(table[Index(s, b)], ShiftRight(s, 8));
  }

  /** One table lookup is one byte of the specification. */
  lemma UpdateStep(table: seq<Word>, start: Word, data: seq<Byte>, i: nat)
    requires IsTable(table) && i < |data|
    ensures var state := Feed(start, data[..i]);
      Xor(ShiftRight(state, 8), table[Index(state, data[i])]) == Feed(start, data[..i + 1])
  {
    FeedByte(start, data[..i], data[i]);
    assert data[..i + 1] == data[..i] + [data[i]];
    Lookup(table, Feed(start, data[..i]), data[i]);
  }

  lemma LowAsNumber(low: seq<bool>)
    requires |low| == 8
    ensures FromNat(Value(low), 32) == low + Zeros(24)
  {
    ValueBound(low);
    FromNatPads(Value(low), 8, 24);
    FromNatValue(low);
  }
}
