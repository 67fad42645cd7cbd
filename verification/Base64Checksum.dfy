/**
  The decoder for a base64 checksum header, against section 4 of RFC 4648.

  The decoder keeps a 32-bit accumulator that it never masks, so on long input the oldest bits
  fall off; it accepts any string whose characters before the first '=' are in the alphabet and
  number at least six, and reads the first four octets.
 */
module Base64Checksum {
  import opened Options
  import opened Words

  type Sextet = v: nat | v < 64

  const UINT32: nat := 0x1_0000_0000

  // ---- The encoding, from the standard ----

  function CharOf(v: Sextet): (c: char) {
    if v < 26 then 'A' + v as char
    else if v < 52 then 'a' + (v - 26) as char
    else if v < 62 then '0' + (v - 52) as char
    else if v == 62 then '+'
    else '/'
  }

  function EncodeSextets(b: seq<Byte>): (v: seq<Sextet>) {
    if |b| == 0 then []
    else if |b| == 1 then [b[0] / 4, b[0] % 4 * 16]
    else if |b| == 2 then [b[0] / 4, b[0] % 4 * 16 + b[1] / 16, b[1] % 16 * 4]
    else
      [b[0] / 4, b[0] % 4 * 16 + b[1] / 16, b[1] % 16 * 4 + b[2] / 64, b[2] % 64] + EncodeSextets(b[3..])
  }

  function Text(v: seq<Sextet>): (s: string)
    ensures |s| == |v|
  {
    seq(|v|, i requires 0 <= i < |v| => CharOf(v[i]))
  }

  function Padding(n: nat): string {
    if n % 3 == 1 then "==" else if n % 3 == 2 then "=" else ""
  }

  function Encode(b: seq<Byte>): string {
    Text(EncodeSextets(b)) + Padding(|b|)
  }

  // ---- Decoding, as a property of the text ----

  /** The alphabet position of a character, or -1. */
  function Index(c: char): (v: int)
    ensures -1 <= v < 64
  {
    if 'A' <= c <= 'Z' then c as int - 'A' as int
    else if 'a' <= c <= 'z' then c as int - 'a' as int + 26
    else if '0' <= c <= '9' then c as int - '0' as int + 52
    else if c == '+' then 62
    else if c == '/' then 63
    else -1
  }

  // Table 1 of RFC 4648, in runs of consecutive characters.
  const UPPER: string := "ABCDEFGHIJKLM" + "NOPQRSTUVWXYZ"
  const LOWER: string := "abcdefghijklm" + "nopqrstuvwxyz"
  const DIGITS: string := "0123456789"
  const ALPHABET: string := UPPER + LOWER + DIGITS + "+/"

  /** Characters that follow one another from `first` on. */
  predicate Consecutive(s: string, first: char) {
    |s| <= 26 && first <= 'z' && forall k :: 0 <= k < |s| ==> s[k] as nat == first as nat + k
  }

  lemma ConsecutiveJoin(a: string, b: string, first: char)
    requires Consecutive(a, first) && |a| == |b| == 13 && Consecutive(b, (first as nat + 13) as char)
    ensures Consecutive(a + b, first)
  {
  }

  lemma AlphabetRuns()
    ensures Consecutive(UPPER, 'A') && |UPPER| == 26
    ensures Consecutive(LOWER, 'a') && |LOWER| == 26
    ensures Consecutive(DIGITS, '0') && |DIGITS| == 10
  {
    ConsecutiveJoin("ABCDEFGHIJKLM", "NOPQRSTUVWXYZ", 'A');
    ConsecutiveJoin("abcdefghijklm", "nopqrstuvwxyz", 'a');
  }

  /** The sextets' characters are the alphabet's, in its order. */
  lemma CharsAreTheAlphabet(v: Sextet)
    ensures |ALPHABET| == 64 && CharOf(v) == ALPHABET[v]
  {
    AlphabetRuns();
    if v < 26 {
      assert ALPHABET[v] == UPPER[v];
    } else if v < 52 {
      assert ALPHABET[v] == LOWER[v - 26];
    } else if v < 62 {
      assert ALPHABET[v] == DIGITS[v - 52];
    }
  }

  /** A character has index v exactly if it is the alphabet's at v, and none exactly if it is not in it. */
  lemma IndexIsThePosition(c: char, v: Sextet)
    ensures |ALPHABET| == 64
    ensures Index(c) == v <==> c == ALPHABET[v]
    ensures Index(c) == -1 <==> c !in ALPHABET
  {
    CharsAreTheAlphabet(v);
    IndexOfChar(v);
    if Index(c) >= 0 {
      CharsAreTheAlphabet(Index(c));
    }
    forall w: Sextet
      ensures Index(ALPHABET[w]) == w
    {
      CharsAreTheAlphabet(w);
      IndexOfChar(w);
    }
  }

  function BeforePad(s: string): (p: string)
    ensures p <= s
    ensures '=' !in p
    ensures |p| < |s| ==> s[|p|] == '='
  {
    if s == [] || s[0] == '=' then [] else [s[0]] + BeforePad(s[1..])
  }

  predicate InAlphabet(s: string) {
    forall i :: 0 <= i < |s| ==> Index(s[i]) >= 0
  }

  function Sextets(s: string): (v: seq<Sextet>)
    requires InAlphabet(s)
    ensures |v| == |s|
  {
    seq(|s|, i requires 0 <= i < |s| => Index(s[i]))
  }

  function OctetCount(n: nat): nat {
    6 * n / 8
  }

  // The three ways an octet straddles two neighbouring sextets.

  function HighOctet(a: nat, b: nat): nat {
    a * 4 + b / 16
  }

  function MiddleOctet(a: nat, b: nat): nat {
    a % 16 * 16 + b / 4
  }

  function LowOctet(a: nat, b: nat): nat {
    a % 4 * 64 + b
  }

  /** Octet k of the bit string that the sextets spell: eight of the 24 bits of group k / 3. */
  function Octet(v: seq<Sextet>, k: nat): (b: Byte)
    requires k < OctetCount(|v|)
  {
    var i := k / 3 * 4;
    if k % 3 == 0 then HighOctet(v[i], v[i + 1])
    else if k % 3 == 1 then MiddleOctet(v[i + 1], v[i + 2])
    else LowOctet(v[i + 2], v[i + 3])
  }

  function BigEndian(a: Byte, b: Byte, c: Byte, d: Byte): (n: nat)
    ensures n < UINT32
  {
    a * 0x100_0000 + b * 0x1_0000 + c * 0x100 + d
  }

  predicate Accepted(s: string) {
    InAlphabet(BeforePad(s)) && |BeforePad(s)| >= 6
  }

  function Decoded(s: string): (n: nat)
    requires Accepted(s)
  {
    var v := Sextets(BeforePad(s));
    BigEndian(Octet(v, 0), Octet(v, 1), Octet(v, 2), Octet(v, 3))
  }

  // ---- The program ----

  /** n in 32 bits: the remainder by 2^32, taken off in steps. */
  function Wrap(n: nat): (r: nat)
    ensures r < UINT32
  {
    if n < UINT32 then n else Wrap(n - UINT32)
  }

  lemma {:induction false} WrapDrops(n: nat) returns (wrapped: nat)
    ensures n == UINT32 * wrapped + Wrap(n)
  {
    wrapped := 0;
    if n >= UINT32 {
      wrapped := WrapDrops(n - UINT32);
      wrapped := wrapped + 1;
    }
  }

  /** (buf << 6) | v in 32 bits */
  function Accumulate(buf: nat, v: Sextet): (r: nat)
    ensures r < UINT32
  {
    Wrap(buf * 64 + v)
  }

  /** The last two sextets survive any number of wrap-arounds. */
  lemma AccumulatorKeepsTwo(buf: nat, v: Sextet)
    ensures Accumulate(buf, v) % 4096 == Pair(buf % 64, v)
  {
    var q, r := buf / 64, buf % 64;
    var n := buf * 64 + v;
    var wrapped := WrapDrops(n);
    assert Wrap(n) == 4096 * (q - 0x10_0000 * wrapped) + (64 * r + v);
    RemainderOf4096(Wrap(n), q - 0x10_0000 * wrapped, 64 * r + v);
  }

  // Division by a constant, once quotient and remainder are known.

  lemma RemainderOf4096(n: nat, q: int, r: nat)
    requires r < 4096 && n == 4096 * q + r
    ensures n % 4096 == r
  {
  }

  lemma RemainderOf64(n: nat, q: int, r: nat)
    requires r < 64 && n == 64 * q + r
    ensures n % 64 == r
  {
  }

  lemma RemainderOf256(n: nat, q: int, r: nat)
    requires r < 256 && n == 256 * q + r
    ensures n % 256 == r
  {
  }

  lemma QuotientBy16(n: nat, q: nat, r: nat)
    requires r < 16 && n == 16 * q + r
    ensures n / 16 == q
  {
  }

  lemma QuotientBy4(n: nat, q: nat, r: nat)
    requires r < 4 && n == 4 * q + r
    ensures n / 4 == q && n % 4 == r
  {
  }

  function Pair(a: nat, b: nat): nat {
    a * 64 + b
  }

  lemma HighDigits(buf: nat, q: nat, a: Sextet, bh: nat, bl: nat)
    requires bh < 4 && bl < 16 && buf == 4096 * q + 64 * a + 16 * bh + bl
    ensures buf / 16 % 256 == 4 * a + bh
  {
    QuotientBy16(buf, 256 * q + 4 * a + bh, bl);
    RemainderOf256(256 * q + 4 * a + bh, q, 4 * a + bh);
  }

  lemma MiddleDigits(buf: nat, q: nat, ah: nat, al: nat, bh: nat, bl: nat)
    requires ah < 4 && al < 16 && bh < 16 && bl < 4
    requires buf == 4096 * q + 1024 * ah + 64 * al + 4 * bh + bl
    ensures buf / 4 % 256 == 16 * al + bh
  {
    QuotientBy4(buf, 1024 * q + 256 * ah + 16 * al + bh, bl);
    RemainderOf256(1024 * q + 256 * ah + 16 * al + bh, 4 * q + ah, 16 * al + bh);
  }

  lemma HighFromPair(buf: nat, a: Sextet, b: Sextet)
    requires buf % 4096 == Pair(a, b)
    ensures buf / 16 % 256 == HighOctet(a, b)
  {
    HighDigits(buf, buf / 4096, a, b / 16, b % 16);
  }

  lemma MiddleFromPair(buf: nat, a: Sextet, b: Sextet)
    requires buf % 4096 == Pair(a, b)
    ensures buf / 4 % 256 == MiddleOctet(a, b)
  {
    MiddleDigits(buf, buf / 4096, a / 16, a % 16, b / 4, b % 4);
  }

  lemma LowFromPair(buf: nat, a: Sextet, b: Sextet)
    requires buf % 4096 == Pair(a, b)
    ensures buf % 256 == LowOctet(a, b)
  {
    RemainderOf256(buf, 16 * (buf / 4096) + a / 4, 64 * (a % 4) + b);
  }

  function Shr(n: nat, k: nat): nat {
    if k == 0 then n else Shr(n / 2, k - 1)
  }

  /** (buf >> bits) & 0xFF */
  function Shifted(buf: nat, bits: nat): Byte {
    Shr(buf, bits) % 256
  }

  lemma ShiftedCases(buf: nat)
    ensures Shifted(buf, 0) == buf % 256
    ensures Shifted(buf, 2) == buf / 4 % 256
    ensures Shifted(buf, 4) == buf / 16 % 256
  {
    ShrTwice(buf, 0);
    ShrTwice(buf, 2);
    ShrTwice(buf / 4, 0);
    assert buf / 4 / 4 == buf / 16;
  }

  lemma ShrTwice(n: nat, k: nat)
    ensures Shr(n, k + 2) == Shr(n / 4, k)
  {
    assert n / 2 / 2 == n / 4;
    assert Shr(n, k + 2) == Shr(n / 2, k + 1) == Shr(n / 2 / 2, k);
  }

  /** How many bits are left over after n sextets and the octets they complete. */
  function Unread(n: nat): (bits: nat)
    ensures bits in {0, 2, 4, 6}
  {
    if n == 0 then 0 else if Unread(n - 1) == 0 then 6 else Unread(n - 1) - 2
  }

  /** The octet that two neighbouring sextets complete when they leave so many bits over. */
  function Completed(bits: nat, a: Sextet, b: Sextet): Byte {
    if bits == 4 then HighOctet(a, b) else if bits == 2 then MiddleOctet(a, b) else LowOctet(a, b)
  }

  /** The octets that the sextets spell, one completed at a time. */
  function Octets(v: seq<Sextet>): seq<Byte> {
    if v == [] then []
    else
      var n := |v| - 1;
      Octets(v[..n]) + if Unread(n) == 0 then [] else [Completed(Unread(n + 1), v[n - 1], v[n])]
  }

  lemma {:induction false} UnreadIs(n: nat)
    ensures Unread(n) == if n % 4 == 0 then 0 else 8 - 2 * (n % 4)
  {
    if n > 0 {
      UnreadIs(n - 1);
    }
  }

  /** The octet that sextet n completes, and where in its group it lies. */
  lemma OctetIndex(n: nat, m: nat, r: nat)
    requires n == 4 * m + r && r < 4
    ensures OctetCount(n) == 3 * m + (if r == 0 then 0 else r - 1)
    ensures OctetCount(n + 1) == 3 * m + r
    ensures r > 0 ==> OctetCount(n) % 3 == r - 1 && OctetCount(n) / 3 == m
  {
  }

  lemma OctetsStay(v: seq<Sextet>, x: Sextet, k: nat)
    requires k < OctetCount(|v|)
    ensures k < OctetCount(|v + [x]|) && Octet(v + [x], k) == Octet(v, k)
  {
  }

  /** Octet by octet, they are the eight bits that the groups say. */
  lemma {:induction false} OctetsAre(v: seq<Sextet>)
    ensures |Octets(v)| == OctetCount(|v|)
    ensures forall k :: 0 <= k < |Octets(v)| ==> Octets(v)[k] == Octet(v, k)
  {
    if v != [] {
      var n := |v| - 1;
      OctetsAre(v[..n]);
      UnreadIs(n);
      OctetIndex(n, n / 4, n % 4);
      UnreadIs(n + 1);
      assert v[..n] + [v[n]] == v;
      forall k | 0 <= k < |Octets(v)|
        ensures Octets(v)[k] == Octet(v, k)
      {
        if k < OctetCount(n) {
          OctetsStay(v[..n], v[n], k);
        }
      }
    }
  }

  /** The low six bits. */
  function Low6(n: nat): (r: Sextet) {
    if n < 64 then n else Low6(n - 64)
  }

  lemma {:induction false} Low6IsRemainder(n: nat)
    ensures Low6(n) == n % 64
  {
    if n >= 64 {
      Low6IsRemainder(n - 64);
    }
  }

  /** The decoder after consuming exactly the sextets v. */
  ghost predicate Decoding(v: seq<Sextet>, buf: nat, bits: nat, out: seq<Byte>) {
    && out == Octets(v)
    && bits == Unread(|v|)
    && (v != [] ==> Low6(buf) == v[|v| - 1])
  }

  lemma AccumulatorKeepsLast(buf: nat, x: Sextet)
    ensures Low6(Accumulate(buf, x)) == x
  {
    AccumulatorKeepsTwo(buf, x);
    Low6IsRemainder(Accumulate(buf, x));
    LastOfPair(Accumulate(buf, x), buf % 64, x);
  }

  lemma LastOfPair(n: nat, a: Sextet, x: Sextet)
    requires n % 4096 == Pair(a, x)
    ensures n % 64 == x
  {
    RemainderOf64(n, 64 * (n / 4096) + a, x);
  }

  /** The eight bits above those left over are the octet that the last two sextets complete. */
  lemma ShiftedIsCompleted(buf: nat, a: Sextet, x: Sextet, bits: nat)
    requires buf % 4096 == Pair(a, x) && bits in {0, 2, 4}
    ensures Shifted(buf, bits) == Completed(bits, a, x)
  {
    ShiftedCases(buf);
    HighFromPair(buf, a, x);
    MiddleFromPair(buf, a, x);
    LowFromPair(buf, a, x);
  }

  lemma DecodeStep(v: seq<Sextet>, buf: nat, bits: nat, out: seq<Byte>, x: Sextet)
    requires Decoding(v, buf, bits, out)
    ensures var buf' := Accumulate(buf, x);
      if bits + 6 < 8 then Decoding(v + [x], buf', bits + 6, out)
      else Decoding(v + [x], buf', bits - 2, out + [Shifted(buf', bits - 2)])
  {
    var w := v + [x];
    assert w[..|v|] == v;
    AccumulatorKeepsLast(buf, x);
    if bits > 0 {
      AccumulatorKeepsTwo(buf, x);
      Low6IsRemainder(buf);
      ShiftedIsCompleted(Accumulate(buf, x), v[|v| - 1], x, bits - 2);
    }
  }

  lemma SextetsExtend(p: string, i: nat)
    requires i < |p| && InAlphabet(p[..i]) && Index(p[i]) >= 0
    ensures InAlphabet(p[..i + 1])
    ensures Sextets(p[..i + 1]) == Sextets(p[..i]) + [Index(p[i])]
  {
  }

  /** The loop has consumed the first i characters, none of them '=' or outside the alphabet. */
  ghost predicate Consumed(s: string, i: nat, buf: nat, bits: nat, out: seq<Byte>) {
    var p := BeforePad(s);
    && i <= |p|
    && InAlphabet(p[..i])
    && Decoding(Sextets(p[..i]), buf, bits, out)
  }

  lemma ConsumeStep(s: string, i: nat, buf: nat, bits: nat, out: seq<Byte>)
    requires i < |s| && s[i] != '=' && Consumed(s, i, buf, bits, out)
    ensures Index(s[i]) < 0 ==> !Accepted(s)
    ensures Index(s[i]) >= 0 ==>
      var buf' := Accumulate(buf, Index(s[i]));
      if bits + 6 < 8 then Consumed(s, i + 1, buf', bits + 6, out)
      else bits < 8 && Consumed(s, i + 1, buf', bits - 2, out + [Shifted(buf', bits - 2)])
  {
    var p := BeforePad(s);
    assert i < |p| && p[i] == s[i];
    if Index(s[i]) >= 0 {
      SextetsExtend(p, i);
      DecodeStep(Sextets(p[..i]), buf, bits, out, Index(s[i]));
    }
  }

  lemma ConsumeEnd(s: string, i: nat, buf: nat, bits: nat, out: seq<Byte>)
    requires i <= |s| && (i < |s| ==> s[i] == '=') && Consumed(s, i, buf, bits, out)
    ensures |out| >= 4 <==> Accepted(s)
    ensures |out| >= 4 ==> BigEndian(out[0], out[1], out[2], out[3]) == Decoded(s)
  {
    var p := BeforePad(s);
    assert i == |p| && p[..i] == p;
    OctetsAre(Sextets(p));
  }

  method ParseBase64Crc32c(s: string) returns (r: Option<nat>)
    ensures r == if Accepted(s) then Some(Decoded(s)) else None
    ensures r.Some? ==>
      var v := Sextets(BeforePad(s));
      r.value == 0x100_0000 * Octet(v, 0) + 0x1_0000 * Octet(v, 1) + 0x100 * Octet(v, 2) + Octet(v, 3)
  {
    if s == [] {
      return None;
    }
    var out: seq<Byte> := [];
    var buf: nat, bits: nat := 0, 0;
    var i := 0;
    while i < |s|
      invariant i <= |s| && Consumed(s, i, buf, bits, out)
    {
      var c := s[i];
      if c == '=' {
        break;
      }
      var v := Index(c);
      ConsumeStep(s, i, buf, bits, out);
      if v < 0 {
        return None;
      }
      buf := Accumulate(buf, v);
      bits := bits + 6;
      if bits >= 8 {
        bits := bits - 8;
        out := out + [Shifted(buf, bits)];
      }
      i := i + 1;
    }
    ConsumeEnd(s, i, buf, bits, out);
    if |out| < 4 {
      return None;
    }
    return Some(BigEndian(out[0], out[1], out[2], out[3]));
  }

  // ---- What it accepts, and the round trip ----

  lemma IndexOfChar(v: Sextet)
    ensures Index(CharOf(v)) == v
  {
  }

  lemma TextReads(v: seq<Sextet>, pad: string)
    requires pad == [] || pad[0] == '='
    ensures BeforePad(Text(v) + pad) == Text(v)
    ensures InAlphabet(Text(v)) && Sextets(Text(v)) == v
  {
    forall i | 0 <= i < |v|
      ensures Index(Text(v)[i]) == v[i] && Text(v)[i] != '='
    {
      IndexOfChar(v[i]);
    }
    BeforePadOf(Text(v), pad);
  }

  lemma {:induction false} BeforePadOf(t: string, pad: string)
    requires '=' !in t
    requires pad == [] || pad[0] == '='
    ensures BeforePad(t + pad) == t
  {
    if t == [] {
      assert t + pad == pad;
    } else {
      assert (t + pad)[1..] == t[1..] + pad;
      BeforePadOf(t[1..], pad);
    }
  }

  lemma EncodedLength(b: seq<Byte>)
    ensures |EncodeSextets(b)| == (4 * |b| + 2) / 3
  {
  }

  lemma FirstGroup(b: seq<Byte>)
    requires |b| >= 4
    ensures |EncodeSextets(b)| >= 6
    ensures var v := EncodeSextets(b);
      && v[0] == b[0] / 4 && v[1] == b[0] % 4 * 16 + b[1] / 16
      && v[2] == b[1] % 16 * 4 + b[2] / 64 && v[3] == b[2] % 64
      && v[4] == b[3] / 4 && v[5] / 16 == b[3] % 4
  {
    var rest := b[3..];
    assert rest[0] == b[3];
    assert EncodeSextets(b)[4..] == EncodeSextets(rest);
    if |rest| >= 3 {
      assert EncodeSextets(rest)[1] == rest[0] % 4 * 16 + rest[1] / 16;
    }
  }

  /** Decoding an encoding gives its first four octets, and needs exactly that many. */
  lemma RoundTrip(b: seq<Byte>)
    ensures Accepted(Encode(b)) <==> |b| >= 4
    ensures |b| >= 4 ==>
      var value := 0x100_0000 * (b[0] as nat) + 0x1_0000 * (b[1] as nat) + 0x100 * (b[2] as nat) + b[3] as nat;
      Decoded(Encode(b)) == value
  {
    var v := EncodeSextets(b);
    TextReads(v, Padding(|b|));
    EncodedLength(b);
    if |b| >= 4 {
      FirstGroup(b);
      assert Octet(v, 0) == b[0];
      assert Octet(v, 1) == b[1];
      assert Octet(v, 2) == b[2];
      assert Octet(v, 3) == b[3];
    }
  }

  function BigEndianOctets(n: nat): (b: seq<Byte>)
    requires n < UINT32
    ensures |b| == 4
  {
    [n / 0x100_0000, n / 0x1_0000 % 0x100, n / 0x100 % 0x100, n % 0x100]
  }

  lemma OctetsRebuild(n: nat)
    requires n < UINT32
    ensures var b := BigEndianOctets(n); BigEndian(b[0], b[1], b[2], b[3]) == n
  {
    var x := n / 0x100;
    var y := x / 0x100;
    assert n / 0x1_0000 == y && n / 0x100_0000 == y / 0x100;
  }

  /** A checksum survives the header: its big-endian octets, encoded, decode to it. */
  lemma ChecksumRoundTrip(crc: nat)
    requires crc < UINT32
    ensures Accepted(Encode(BigEndianOctets(crc)))
    ensures Decoded(Encode(BigEndianOctets(crc))) == crc
  {
    RoundTrip(BigEndianOctets(crc));
    OctetsRebuild(crc);
  }

  /** Only the text before the first '=' matters, and of that only its first six characters' value. */
  lemma OnlyTheHeadMatters(s: string, t: string)
    requires Accepted(s) && Accepted(t)
    requires BeforePad(s)[..6] == BeforePad(t)[..6]
    ensures Decoded(s) == Decoded(t)
  {
    var v, w := Sextets(BeforePad(s)), Sextets(BeforePad(t));
    forall i | 0 <= i < 6
      ensures v[i] == w[i]
    {
      assert BeforePad(s)[i] == BeforePad(s)[..6][i];
      assert BeforePad(t)[i] == BeforePad(t)[..6][i];
    }
  }
}
