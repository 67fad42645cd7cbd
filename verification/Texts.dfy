/** Numbers as text: what std::to_string and the hexadecimal printf formats produce. */
module Texts {
  import opened Numbers

  function DigitChar(d: nat): (c: char)
    requires d < 16
  {
    if d < 10 then '0' + d as char else 'a' + (d - 10) as char
  }

  predicate IsDecimal(c: char) {
    '0' <= c <= '9'
  }

  function DigitValue(c: char): (d: nat) {
    if IsDecimal(c) then c as nat - '0' as nat
    else if 'a' <= c <= 'f' then c as nat - 'a' as nat + 10
    else 0
  }

  lemma DigitRoundTrip(d: nat)
    requires d < 16
    ensures DigitValue(DigitChar(d)) == d
  {
  }

  /** std::to_string */
  function Decimal(n: nat): (s: string)
    ensures s != ""
  {
    if n < 10 then [DigitChar(n)] else Decimal(n / 10) + [DigitChar(n % 10)]
  }

  function DecimalValue(s: string): nat {
    if s == "" then 0 else 10 * DecimalValue(s[..|s| - 1]) + DigitValue(s[|s| - 1])
  }

  lemma {:induction false} DecimalRoundTrip(n: nat)
    ensures DecimalValue(Decimal(n)) == n
    ensures forall i :: 0 <= i < |Decimal(n)| ==> IsDecimal(Decimal(n)[i])
  {
    var s := Decimal(n);
    if n < 10 {
      assert s[..0] == "";
    } else {
      DecimalRoundTrip(n / 10);
      assert s[..|s| - 1] == Decimal(n / 10);
    }
  }

  lemma DecimalInjective(m: nat, n: nat)
    ensures Decimal(m) == Decimal(n) <==> m == n
  {
    DecimalRoundTrip(m);
    DecimalRoundTrip(n);
  }

  /** The low `width` hexadecimal digits, most significant first: "%0<width>x" for numbers that fit. */
  function Hex(n: nat, width: nat): (s: string)
    ensures |s| == width
    decreases width
  {
    if width == 0 then "" else Hex(n / 16, width - 1) + [DigitChar(n % 16)]
  }

  function HexValue(s: string): nat {
    if s == "" then 0 else 16 * HexValue(s[..|s| - 1]) + DigitValue(s[|s| - 1])
  }

  function Pow16(n: nat): (p: nat)
    ensures p > 0
  {
    if n == 0 then 1 else 16 * Pow16(n - 1)
  }

  lemma {:induction false} HexRoundTrip(n: nat, width: nat)
    requires n < Pow16(width)
    ensures HexValue(Hex(n, width)) == n
    decreases width
  {
    if width > 0 {
      HexRoundTrip(n / 16, width - 1);
      DigitRoundTrip(n % 16);
      assert Hex(n, width)[..width - 1] == Hex(n / 16, width - 1);
    }
  }

  /** The digit at i is that of its power of sixteen: q is n with the lower places cut off. */
  lemma {:induction false} HexAt(n: nat, width: nat, i: nat) returns (q: nat, r: nat)
    requires i < width
    ensures n == Pow16(width - 1 - i) * q + r && r < Pow16(width - 1 - i)
    ensures DigitValue(Hex(n, width)[i]) == q % 16
    decreases width
  {
    DigitRoundTrip(n % 16);
    q, r := n, 0;
    if i < width - 1 {
      var p := Pow16(width - 2 - i);
      q, r := HexAt(n / 16, width - 1, i);
      DigitMore(n, p, q, r);
      r := 16 * r + n % 16;
    }
  }

  lemma DigitMore(n: nat, p: nat, q: nat, r: nat)
    requires n / 16 == p * q + r && r < p
    ensures n == 16 * p * q + (16 * r + n % 16) && 16 * r + n % 16 < 16 * p
  {
    assert 16 * (p * q) == 16 * p * q;
  }

  predicate IsLowerHex(c: char) {
    IsDecimal(c) || 'a' <= c <= 'f'
  }

  lemma {:induction false} HexDigits(n: nat, width: nat)
    ensures forall i :: 0 <= i < width ==> IsLowerHex(Hex(n, width)[i])
    decreases width
  {
    if width > 0 {
      HexDigits(n / 16, width - 1);
    }
  }

  lemma {:induction false} Pow16Adds(a: nat, b: nat)
    ensures Pow16(a + b) == Pow16(a) * Pow16(b)
    decreases a
  {
    if a > 0 {
      Pow16Adds(a - 1, b);
      assert Pow16(a + b) == 16 * (Pow16(a - 1) * Pow16(b)) == Pow16(a) * Pow16(b);
    }
  }

  /** A 64-bit number's sixteen-digit form identifies it. */
  lemma SixteenDigits(a: nat, b: nat)
    requires a < UINT64 && b < UINT64
    ensures Hex(a, 16) == Hex(b, 16) <==> a == b
  {
    var half := 8;
    assert Pow16(8) == 0x1_0000_0000;
    Pow16Adds(half, half);
    HexRoundTrip(a, half + half);
    HexRoundTrip(b, half + half);
  }

  /** A checksum's eight-digit form identifies it. */
  lemma EightDigits(a: nat, b: nat)
    requires a < 0x1_0000_0000 && b < 0x1_0000_0000
    ensures Hex(a, 8) == Hex(b, 8) <==> a == b
  {
    assert Pow16(8) == 0x1_0000_0000;
    HexRoundTrip(a, 8);
    HexRoundTrip(b, 8);
  }
}
