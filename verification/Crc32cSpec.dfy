/**
  CRC-32C as specified by section 12.1 of RFC 3720: the Castagnoli divisor, an all-ones start
  value, bytes least significant bit first, and a complemented result.
 */
module Crc32cSpec {
  import opened BitStrings
  import opened Words
  import opened Lfsr

  /** The powers of x below x^32 in the divisor (0x11EDC6F41). */
  const EXPONENTS: set<nat> := {28, 27, 26, 25, 23, 22, 20, 19, 18, 14, 13, 11, 10, 9, 8, 6, 0}

  /** The divisor below its leading term, highest power first. */
  function Castagnoli(): (g: Word)
  {
    seq(32, k requires 0 <= k < 32 => 31 - k in EXPONENTS)
  }

  function Ones(): (w: Word)
    ensures forall k :: 0 <= k < 32 ==> w[k]
  {
    seq(32, _ => true)
  }

  function Complement(w: Word): (r: Word)
  {
    Xor(w, Ones())
  }

  /** The bits of a message in transmission order. */
  function Bits(m: seq<Byte>): (r: seq<bool>)
    ensures |r| == 8 * |m|
  {
    if m == [] then [] else Bits(m[..|m| - 1]) + ByteBits(m[|m| - 1])
  }

  /** The register after a message, from any start value. */
  function Feed(s: Word, m: seq<Byte>): (r: Word) {
    Run(Castagnoli(), s, Bits(m))
  }

  function Crc(m: seq<Byte>): (r: Word) {
    Complement(Feed(Ones(), m))
  }

  /** The checksum as the unsigned integer the program handles. */
  function CrcValue(m: seq<Byte>): (v: nat) {
    Value(Crc(m))
  }

  /** n bytes of clocks without input. */
  function Advance(w: Word, n: nat): (r: Word) {
    Idle(Castagnoli(), w, 8 * n)
  }

  // The divisor a byte at a time, for the lemmas that have to look at every coefficient.
  const HIGHEST: seq<bool> := [false, false, false, true, true, true, true, false]
  const HIGH: seq<bool> := [true, true, false, true, true, true, false, false]
  const LOW: seq<bool> := [false, true, true, false, true, true, true, true]
  const LOWEST: seq<bool> := [false, true, false, false, false, false, false, true]

  lemma CastagnoliBytes()
    ensures Castagnoli() == HIGHEST + (HIGH + (LOW + LOWEST))
  {
  }

  /** A constant term, and an even number of terms with the leading one. */
  lemma CastagnoliFacts()
    ensures Castagnoli()[31]
    ensures Parity(Castagnoli())
  {
    CastagnoliBytes();
    ParityAppend(HIGHEST, HIGH + (LOW + LOWEST));
    ParityAppend(HIGH, LOW + LOWEST);
    ParityAppend(LOW, LOWEST);
    ParityEight(HIGHEST);
    ParityEight(HIGH);
    ParityEight(LOW);
    ParityEight(LOWEST);
  }

  lemma ParityEight(x: seq<bool>)
    requires |x| == 8
    ensures Parity(x) == (((x[0] != x[1]) != (x[2] != x[3])) != ((x[4] != x[5]) != (x[6] != x[7])))
  {
    ParityFour(x[..4]);
    ParityFour(x[4..]);
    ParityAppend(x[..4], x[4..]);
    assert x == x[..4] + x[4..];
  }

  lemma ParityFour(x: seq<bool>)
    requires |x| == 4
    ensures Parity(x) == ((x[0] != x[1]) != (x[2] != x[3]))
  {
    var y := x[..3];
    var z := y[..2];
    assert Parity(x) == (Parity(y) != x[3]);
    assert Parity(y) == (Parity(z) != x[2]);
    assert Parity(z) == (Parity(z[..1]) != x[1]);
    assert Parity(z[..1]) == (Parity(z[..1][..0]) != x[0]);
  }

  /** The number the program writes for the divisor has the divisor's bits. */
  lemma PolynomialConstant(n: nat)
    requires n == 0x82F63B78
    ensures Value(Castagnoli()) == n
    ensures FromNat(n, 32) == Castagnoli()
  {
    CastagnoliValue(Castagnoli());
    FromNatValue(Castagnoli());
  }

  lemma CastagnoliValue(g: Word)
    requires g == Castagnoli()
    ensures Value(g) == 0x82F63B78
  {
    CastagnoliBytes();
    LowHalfValue(LOW + LOWEST);
    ValueOfByte(HIGHEST, HIGH + (LOW + LOWEST));
    ValueOfByte(HIGH, LOW + LOWEST);
  }

  lemma LowHalfValue(w: seq<bool>)
    requires w == LOW + LOWEST
    ensures Value(w) == 0x82F6
  {
    ValueOfByte(LOW, LOWEST);
    ValueOfByte(LOWEST, []);
    assert LOWEST + [] == LOWEST;
  }

  lemma ValueOfByte(x: seq<bool>, rest: seq<bool>)
    requires |x| == 8
    ensures Value(x + rest) == Digit(x[0]) + 2 * Digit(x[1]) + 4 * Digit(x[2]) + 8 * Digit(x[3])
      + 16 * Digit(x[4]) + 32 * Digit(x[5]) + 64 * Digit(x[6]) + 128 * Digit(x[7]) + 256 * Value(rest)
  {
    ValueFour(x[..4], x[4..] + rest);
    ValueFour(x[4..], rest);
    assert x + rest == x[..4] + (x[4..] + rest);
  }

  lemma ValueFour(x: seq<bool>, rest: seq<bool>)
    requires |x| == 4
    ensures Value(x + rest) ==
      Digit(x[0]) + 2 * Digit(x[1]) + 4 * Digit(x[2]) + 8 * Digit(x[3]) + 16 * Value(rest)
  {
    var w := x + rest;
    assert Value(w) == Digit(x[0]) + 2 * Value(w[1..]);
    assert Value(w[1..]) == Digit(x[1]) + 2 * Value(w[2..]) by { assert w[1..][1..] == w[2..]; }
    assert Value(w[2..]) == Digit(x[2]) + 2 * Value(w[3..]) by { assert w[2..][1..] == w[3..]; }
    assert Value(w[3..]) == Digit(x[3]) + 2 * Value(w[4..]) by { assert w[3..][1..] == w[4..]; }
    assert w[4..] == rest;
  }
}
