/**
  What the checksum is worth: how it composes, what appending it does, and which corruptions it
  can never miss. Every statement is about all messages of all lengths.
 */
module Crc32cTheorems {
  import opened BitStrings
  import opened Words
  import opened Lfsr
  import opened PolynomialRemainder
  import opened Crc32cSpec

  // ---- Messages as bit strings ----

  lemma {:induction false} BitsAppend(a: seq<Byte>, b: seq<Byte>)
    ensures Bits(a + b) == Bits(a) + Bits(b)
  {
    if b == [] {
      assert a + b == a;
    } else {
      var n := |b| - 1;
      BitsSnoc(a + b, a + b[..n], b[n]);
      BitsSnoc(b, b[..n], b[n]);
      BitsAppend(a, b[..n]);
      Associative(Bits(a), Bits(b[..n]), ByteBits(b[n]));
    }
  }

  lemma Associative(x: seq<bool>, y: seq<bool>, z: seq<bool>)
    ensures x + (y + z) == x + y + z
  {
  }

  lemma BitsSnoc(m: seq<Byte>, front: seq<Byte>, last: Byte)
    requires m == front + [last]
    ensures Bits(m) == Bits(front) + ByteBits(last)
  {
    assert m[..|m| - 1] == front;
  }

  /** Bit 8i + j of a message is bit j of its byte i. */
  lemma {:induction false} BitsAt(m: seq<Byte>, i: nat, j: nat)
    requires i < |m| && j < 8
    ensures Bits(m)[8 * i + j] == BitOf(m[i], j)
  {
    if i < |m| - 1 {
      BitsAt(m[..|m| - 1], i, j);
    }
  }

  lemma BitsInjective(a: seq<Byte>, b: seq<Byte>)
    ensures Bits(a) == Bits(b) <==> a == b
  {
    if Bits(a) == Bits(b) {
      assert 8 * |a| == 8 * |b|;
      forall i | 0 <= i < |a|
        ensures a[i] == b[i]
      {
        forall j | 0 <= j < 8
          ensures ByteBits(a[i])[j] == ByteBits(b[i])[j]
        {
          BitsAt(a, i, j);
          BitsAt(b, i, j);
        }
        SameByte(a[i], b[i]);
      }
    }
  }

  lemma SameByte(x: Byte, y: Byte)
    ensures ByteBits(x) == ByteBits(y) <==> x == y
  {
    assert Pow2(8) == 0x100;
    var width := 8;
    BytesAreFromNat(x, width);
    BytesAreFromNat(y, width);
    ValueFromNat(x, width);
    ValueFromNat(y, width);
  }

  // ---- The three levels agree ----

  /** One more byte is an exclusive or into the register and eight bit-serial clocks. */
  lemma FeedByte(s: Word, m: seq<Byte>, b: Byte)
    ensures Feed(s, m + [b]) == Idle(Castagnoli(), Xor(Feed(s, m), FromNat(b, 32)), 8)
  {
    assert (m + [b])[..|m|] == m;
    var bits := ByteBits(b);
    BytesAreFromNat(b, |bits|);
    RunAppend(Castagnoli(), s, Bits(m), bits);
    RunWord(Castagnoli(), Feed(s, m), bits);
    assert Pow2(8) == 0x100;
    FromNatPads(b, 8, 24);
  }

  /**
    The register after m is the remainder of start * x^(8|m|) + m * x^32 by the divisor: that word
    and no other.
   */
  lemma FeedIsTheRemainder(s: Word, m: seq<Byte>, r: Word)
    ensures IsRemainder(Dividend(s, Bits(m)), [true] + Castagnoli(), r) <==> r == Feed(s, m)
  {
    RunIsTheRemainder(Castagnoli(), s, Bits(m), r);
  }

  lemma CrcIsTheRemainder(m: seq<Byte>, r: Word)
    ensures IsRemainder(Dividend(Ones(), Bits(m)), [true] + Castagnoli(), Complement(r)) <==> r == Crc(m)
  {
    FeedIsTheRemainder(Ones(), m, Complement(r));
    ComplementTwice(r);
    ComplementTwice(Feed(Ones(), m));
  }

  lemma ComplementTwice(w: Word)
    ensures Complement(Complement(w)) == w
  {
  }

  // ---- Algebra ----

  /** Streaming: a message may be fed in pieces. */
  lemma FeedAppend(s: Word, a: seq<Byte>, b: seq<Byte>)
    ensures Feed(s, a + b) == Feed(Feed(s, a), b)
  {
    BitsAppend(a, b);
    RunAppend(Castagnoli(), s, Bits(a), Bits(b));
  }

  /** Two start values stay apart by their difference, advanced. */
  lemma FeedShift(s: Word, t: Word, m: seq<Byte>)
    ensures Feed(s, m) == Xor(Advance(Xor(s, t), |m|), Feed(t, m))
  {
    var d := Xor(s, t);
    assert Xor(d, t) == s;
    XorZero(Bits(m));
    RunXor(Castagnoli(), d, t, Zeros(|Bits(m)|), Bits(m));
  }

  /** The checksum of a concatenation from the checksums of its parts. */
  lemma CrcCombine(a: seq<Byte>, b: seq<Byte>)
    ensures Crc(a + b) == Xor(Advance(Crc(a), |b|), Crc(b))
  {
    FeedAppend(Ones(), a, b);
    FeedShift(Feed(Ones(), a), Ones(), b);
    XorAssociative(Advance(Crc(a), |b|), Feed(Ones(), b), Ones());
  }

  function XorBytes(a: seq<Byte>, b: seq<Byte>, c: seq<Byte>): (r: seq<Byte>)
    requires |a| == |b| == |c|
    ensures |r| == |a|
  {
    seq(|a|, i requires 0 <= i < |a| =>
      XorByte(XorByte(a[i], b[i]), c[i]))
  }

  function XorByte(x: Byte, y: Byte): Byte {
    var w := Xor(ByteBits(x), ByteBits(y));
    ByteValue(w);
    Value(w)
  }

  lemma XorByteBits(x: Byte, y: Byte)
    ensures ByteBits(XorByte(x, y)) == Xor(ByteBits(x), ByteBits(y))
  {
    ByteBitsValue(Xor(ByteBits(x), ByteBits(y)));
  }

  lemma {:induction false} XorBytesBits(a: seq<Byte>, b: seq<Byte>, c: seq<Byte>)
    requires |a| == |b| == |c|
    ensures Bits(XorBytes(a, b, c)) == Xor(Xor(Bits(a), Bits(b)), Bits(c))
  {
    if a != [] {
      var n := |a| - 1;
      XorBytesBits(a[..n], b[..n], c[..n]);
      XorBytesSnoc(a[..n], b[..n], c[..n], a[n], b[n], c[n]);
      LastApart(a);
      LastApart(b);
      LastApart(c);
    }
  }

  lemma LastApart(m: seq<Byte>)
    requires m != []
    ensures m[..|m| - 1] + [m[|m| - 1]] == m
  {
  }

  lemma XorBytesSnoc(a: seq<Byte>, b: seq<Byte>, c: seq<Byte>, x: Byte, y: Byte, z: Byte)
    requires |a| == |b| == |c|
    requires Bits(XorBytes(a, b, c)) == Xor(Xor(Bits(a), Bits(b)), Bits(c))
    ensures Bits(XorBytes(a + [x], b + [y], c + [z]))
      == Xor(Xor(Bits(a + [x]), Bits(b + [y])), Bits(c + [z]))
  {
    BitsSnoc(a + [x], a, x);
    BitsSnoc(b + [y], b, y);
    BitsSnoc(c + [z], c, z);
    BitsSnoc(XorBytes(a + [x], b + [y], c + [z]), XorBytes(a, b, c), XorByte(XorByte(x, y), z));
    XorByteBits(x, y);
    XorByteBits(XorByte(x, y), z);
    XorThree(Bits(a), Bits(b), Bits(c), ByteBits(x), ByteBits(y), ByteBits(z));
  }

  lemma XorThree(a: seq<bool>, b: seq<bool>, c: seq<bool>, x: seq<bool>, y: seq<bool>, z: seq<bool>)
    requires |a| == |b| == |c| && |x| == |y| == |z|
    ensures Xor(Xor(a + x, b + y), c + z) == Xor(Xor(a, b), c) + Xor(Xor(x, y), z)
  {
    XorAppend(a, b, x, y);
    XorAppend(Xor(a, b), c, Xor(x, y), z);
  }

  /** The checksum is affine over messages of one length. */
  lemma CrcAffine(a: seq<Byte>, b: seq<Byte>, c: seq<Byte>)
    requires |a| == |b| == |c|
    ensures Crc(XorBytes(a, b, c)) == Xor(Xor(Crc(a), Crc(b)), Crc(c))
  {
    var g := Castagnoli();
    var one := Ones();
    XorBytesBits(a, b, c);
    RunXor(g, one, one, Bits(a), Bits(b));
    RunXor(g, Xor(one, one), one, Xor(Bits(a), Bits(b)), Bits(c));
    OnesThrice();
    ComplementThree(Feed(one, a), Feed(one, b), Feed(one, c));
  }

  lemma OnesThrice()
    ensures Xor(Xor(Ones(), Ones()), Ones()) == Ones()
  {
  }

  lemma ComplementThree(u: Word, v: Word, w: Word)
    ensures Complement(Xor(Xor(u, v), w)) == Xor(Xor(Complement(u), Complement(v)), Complement(w))
  {
  }

  // ---- Appending the checksum ----

  function ByteOf(bits: seq<bool>): Byte
    requires |bits| == 8
  {
    ByteValue(bits);
    Value(bits)
  }

  /** The four bytes of a word, least significant first. */
  function LittleEndian(w: Word): (r: seq<Byte>)
    ensures |r| == 4
  {
    [ByteOf(w[..8]), ByteOf(w[8..16]), ByteOf(w[16..24]), ByteOf(w[24..])]
  }

  lemma LittleEndianBits(w: Word)
    ensures Bits(LittleEndian(w)) == w
  {
    FourBytes(w[..8], w[8..16], w[16..24], w[24..]);
    QuartersJoin(w);
  }

  lemma FourBytes(p: seq<bool>, q: seq<bool>, r: seq<bool>, s: seq<bool>)
    requires |p| == |q| == |r| == |s| == 8
    ensures Bits([ByteOf(p), ByteOf(q), ByteOf(r), ByteOf(s)]) == (p + q) + (r + s)
  {
    BitsOfOne(p);
    BitsOfOne(q);
    BitsOfOne(r);
    BitsOfOne(s);
    BitsAppend([ByteOf(p)], [ByteOf(q)]);
    BitsAppend([ByteOf(r)], [ByteOf(s)]);
    BitsAppend([ByteOf(p), ByteOf(q)], [ByteOf(r), ByteOf(s)]);
    assert [ByteOf(p)] + [ByteOf(q)] == [ByteOf(p), ByteOf(q)];
    assert [ByteOf(r)] + [ByteOf(s)] == [ByteOf(r), ByteOf(s)];
    assert [ByteOf(p), ByteOf(q)] + [ByteOf(r), ByteOf(s)] == [ByteOf(p), ByteOf(q), ByteOf(r), ByteOf(s)];
  }

  lemma BitsOfOne(bits: seq<bool>)
    requires |bits| == 8
    ensures Bits([ByteOf(bits)]) == bits
  {
    var m := [ByteOf(bits)];
    ByteBitsValue(bits);
    assert m[..0] == [];
    assert Bits(m) == Bits(m[..0]) + ByteBits(m[0]);
  }

  lemma QuartersJoin(w: Word)
    ensures (w[..8] + w[8..16]) + (w[16..24] + w[24..]) == w
  {
  }

  /** The value every intact message-and-checksum frame leaves. */
  function Residue(): Word {
    Complement(Advance(Ones(), 4))
  }

  lemma IdleInjective(r: Word, s: Word, n: nat)
    ensures Idle(Castagnoli(), r, n) == Idle(Castagnoli(), s, n) <==> r == s
  {
    var g := Castagnoli();
    CastagnoliFacts();
    XorSelf(Zeros(n));
    RunXor(g, r, s, Zeros(n), Zeros(n));
    XorDetectsDifference(r, s);
    XorDetectsDifference(Idle(g, r, n), Idle(g, s, n));
    if r != s {
      IdleNonzero(g, Xor(r, s), n);
    }
  }

  /** Four trailing bytes leave the residue exactly when they are the checksum of the rest. */
  lemma ResidueExact(m: seq<Byte>, w: Word)
    ensures Crc(m + LittleEndian(w)) == Residue() <==> w == Crc(m)
  {
    var g := Castagnoli();
    var s := Feed(Ones(), m);
    FeedFour(m, w);
    IdleInjective(Xor(s, w), Ones(), 32);
    ComplementInjective(Idle(g, Xor(s, w), 32), Idle(g, Ones(), 32));
    OnesDifference(s, w);
  }

  /** What four appended bytes do to the register. */
  lemma FeedFour(m: seq<Byte>, w: Word)
    ensures Feed(Ones(), m + LittleEndian(w)) == Idle(Castagnoli(), Xor(Feed(Ones(), m), w), 32)
  {
    FeedAppend(Ones(), m, LittleEndian(w));
    LittleEndianBits(w);
    RunWord(Castagnoli(), Feed(Ones(), m), w);
    assert w + Zeros(0) == w;
  }

  /** Whatever comes before, some four bytes lead to any given checksum; by the burst bound, only one four. */
  lemma TailFor(m: seq<Byte>, target: Word) returns (tail: seq<Byte>)
    ensures |tail| == 4 && Crc(m + tail) == target
  {
    var s := Feed(Ones(), m);
    CastagnoliFacts();
    var u := IdleOnto(Castagnoli(), Complement(target), 32);
    var w: Word := Xor(s, u);
    tail := LittleEndian(w);
    FeedFour(m, w);
    assert Xor(s, w) == u;
    ComplementTwice(target);
  }

  lemma ComplementInjective(v: Word, w: Word)
    ensures Complement(v) == Complement(w) <==> v == w
  {
    ComplementTwice(v);
    ComplementTwice(w);
  }

  lemma OnesDifference(s: Word, w: Word)
    ensures Xor(s, w) == Ones() <==> w == Complement(s)
  {
    if Xor(s, w) == Ones() {
      forall k | 0 <= k < 32
        ensures w[k] == Complement(s)[k]
      {
        assert Xor(s, w)[k];
      }
    }
  }

  // ---- Corruptions that are always detected ----

  ghost predicate DifferOnlyWithin(a: seq<Byte>, b: seq<Byte>, start: nat, w: nat)
    requires |a| == |b|
  {
    forall k :: 0 <= k < 8 * |a| && !(start <= k < start + w) ==> Bits(a)[k] == Bits(b)[k]
  }

  /** Any change confined to 32 consecutive transmitted bits, wherever it starts. */
  lemma BurstDetected(a: seq<Byte>, b: seq<Byte>, start: nat, w: nat)
    requires |a| == |b| && a != b
    requires w <= 32 && start + w <= 8 * |a|
    requires DifferOnlyWithin(a, b, start, w)
    ensures Crc(a) != Crc(b)
    ensures CrcValue(a) != CrcValue(b)
  {
    CastagnoliFacts();
    BitsInjective(a, b);
    BurstSurvives(Castagnoli(), Ones(), Bits(a), Bits(b), start, w);
    ComplementInjective(Feed(Ones(), a), Feed(Ones(), b));
    ValueInjective(Crc(a), Crc(b));
  }

  /** In particular any change to at most four adjacent bytes. */
  lemma FourByteChangeDetected(prefix: seq<Byte>, x: seq<Byte>, y: seq<Byte>, suffix: seq<Byte>)
    requires |x| == |y| <= 4 && x != y
    ensures CrcValue(prefix + x + suffix) != CrcValue(prefix + y + suffix)
  {
    var a, b := prefix + x + suffix, prefix + y + suffix;
    BitsAppend(prefix + x, suffix);
    BitsAppend(prefix, x);
    BitsAppend(prefix + y, suffix);
    BitsAppend(prefix, y);
    assert a != b by {
      assert a[|prefix|..|prefix| + |x|] == x && b[|prefix|..|prefix| + |y|] == y;
    }
    SameOutside(Bits(prefix), Bits(x), Bits(y), Bits(suffix));
    BurstDetected(a, b, 8 * |prefix|, 8 * |x|);
  }

  lemma SameOutside(u: seq<bool>, x: seq<bool>, y: seq<bool>, v: seq<bool>)
    requires |x| == |y|
    ensures forall k :: 0 <= k < |u| + |x| + |v| && !(|u| <= k < |u| + |x|) ==>
      (u + x + v)[k] == (u + y + v)[k]
  {
  }

  /** Any change to an odd number of bits, however far apart. */
  lemma OddChangeDetected(a: seq<Byte>, b: seq<Byte>)
    requires |a| == |b|
    requires Weight(Xor(Bits(a), Bits(b))) % 2 == 1
    ensures CrcValue(a) != CrcValue(b)
  {
    CastagnoliFacts();
    ParityIsWeight(Xor(Bits(a), Bits(b)));
    ParityXor(Bits(a), Bits(b));
    RunParity(Castagnoli(), Ones(), Bits(a));
    RunParity(Castagnoli(), Ones(), Bits(b));
    ComplementInjective(Feed(Ones(), a), Feed(Ones(), b));
    ValueInjective(Crc(a), Crc(b));
  }
}
