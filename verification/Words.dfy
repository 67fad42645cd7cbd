/**
  Fixed-width unsigned integers as bit strings, least significant bit first, and their values.
 */
module Words {
  import opened BitStrings

  type Byte = n: nat | n < 0x100
  type Word = w: seq<bool> | |w| == 32 witness Zeros(32)

  function Pow2(n: nat): (p: nat)
    ensures p > 0
  {
    if n == 0 then 1 else 2 * Pow2(n - 1)
  }

  /** The low `width` bits of n. */
  function FromNat(n: nat, width: nat): (w: seq<bool>)
    ensures |w| == width
    decreases width
  {
    if width == 0 then [] else [n % 2 == 1] + FromNat(n / 2, width - 1)
  }

  /** Bit j of n, counted from the least significant. */
  function BitOf(n: nat, j: nat): bool {
    if j == 0 then n % 2 == 1 else BitOf(n / 2, j - 1)
  }

  function ByteBits(b: Byte): (w: seq<bool>)
    ensures |w| == 8
  {
    seq(8, j requires 0 <= j < 8 => BitOf(b, j))
  }

  lemma {:induction false} FromNatAt(n: nat, width: nat, j: nat)
    requires j < width
    ensures FromNat(n, width)[j] == BitOf(n, j)
    decreases j
  {
    if j > 0 {
      FromNatAt(n / 2, width - 1, j - 1);
    }
  }

  lemma BytesAreFromNat(b: Byte, width: nat)
    requires width == 8
    ensures ByteBits(b) == FromNat(b, width)
  {
    forall j | 0 <= j < width
      ensures ByteBits(b)[j] == FromNat(b, width)[j]
    {
      FromNatAt(b, width, j);
    }
  }

  /** Eight bits are those of their value. */
  lemma ByteBitsValue(w: seq<bool>)
    requires |w| == 8
    ensures Value(w) < 0x100 && ByteBits(Value(w)) == w
  {
    ByteValue(w);
    BytesAreFromNat(Value(w), |w|);
    FromNatValue(w);
  }

  function Digit(b: bool): nat {
    if b then 1 else 0
  }

  function Value(w: seq<bool>): nat {
    if w == [] then 0 else Digit(w[0]) + 2 * Value(w[1..])
  }

  function ShiftRight(w: Word, n: nat): (r: Word)
    requires n <= 32
  {
    w[n..] + Zeros(n)
  }

  lemma {:induction false} ValueBound(w: seq<bool>)
    ensures Value(w) < Pow2(|w|)
  {
    if w != [] {
      ValueBound(w[1..]);
    }
  }

  lemma {:induction false} ValueZeros(n: nat)
    ensures Value(Zeros(n)) == 0
  {
    if n > 0 {
      assert Zeros(n)[1..] == Zeros(n - 1);
      ValueZeros(n - 1);
    }
  }

  lemma {:induction false} FromNatValue(w: seq<bool>)
    ensures FromNat(Value(w), |w|) == w
  {
    if w != [] {
      FromNatValue(w[1..]);
    }
  }

  lemma {:induction false} ValueFromNat(n: nat, width: nat)
    requires n < Pow2(width)
    ensures Value(FromNat(n, width)) == n
    decreases width
  {
    if width > 0 {
      ValueFromNat(n / 2, width - 1);
      var w := FromNat(n, width);
      assert w[1..] == FromNat(n / 2, width - 1);
    }
  }

  lemma ValueInjective(v: seq<bool>, w: seq<bool>)
    requires |v| == |w|
    ensures Value(v) == Value(w) <==> v == w
  {
    FromNatValue(v);
    FromNatValue(w);
  }

  /** A number below 2^width has no bits from `width` on. */
  lemma {:induction false} FromNatPads(n: nat, width: nat, extra: nat)
    requires n < Pow2(width)
    ensures FromNat(n, width + extra) == FromNat(n, width) + Zeros(extra)
    decreases width + extra
  {
    if width > 0 {
      FromNatPads(n / 2, width - 1, extra);
    } else if extra > 0 {
      FromNatPads(n / 2, 0, extra - 1);
    }
  }

  lemma ByteValue(w: seq<bool>)
    requires |w| == 8
    ensures Value(w) < 0x100
  {
    ValueBound(w);
    assert Pow2(8) == 0x100;
  }

  lemma WordValue(w: Word)
    ensures Value(w) < 0x1_0000_0000
  {
    ValueBound(w);
    PowAdds(16, 16);
    PowAdds(8, 8);
    assert Pow2(8) == 0x100;
  }

  lemma {:induction false} PowAdds(a: nat, b: nat)
    ensures Pow2(a + b) == Pow2(a) * Pow2(b)
    decreases a
  {
    if a > 0 {
      PowAdds(a - 1, b);
      assert Pow2(a + b) == 2 * (Pow2(a - 1) * Pow2(b)) == Pow2(a) * Pow2(b);
    }
  }
}
