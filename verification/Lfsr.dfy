/**
  A linear feedback shift register, as a bit string whose head is the bit shifted out next.

  The feedback g lists the coefficients of the divisor polynomial below its leading one, highest
  power first; the register holds a remainder in the same order.
 */
module Lfsr {
  import opened BitStrings

  /** One clock that consumes input bit b. */
  function Clock(g: seq<bool>, r: seq<bool>, b: bool): (r': seq<bool>)
    requires |r| == |g| > 0
    ensures |r'| == |g|
    ensures forall k :: 0 <= k < |g| ==>
      r'[k] == ((k + 1 < |g| && r[k + 1]) != ((r[0] != b) && g[k]))
  {
    seq(|g|, k requires 0 <= k < |g| => (k + 1 < |g| && r[k + 1]) != ((r[0] != b) && g[k]))
  }

  function Run(g: seq<bool>, r: seq<bool>, bits: seq<bool>): (r': seq<bool>)
    requires |r| == |g| > 0
    ensures |r'| == |g|
    decreases |bits|
  {
    if bits == [] then r else Clock(g, Run(g, r, bits[..|bits| - 1]), bits[|bits| - 1])
  }

  /** n clocks without input. */
  function Idle(g: seq<bool>, r: seq<bool>, n: nat): (r': seq<bool>)
    requires |r| == |g| > 0
    ensures |r'| == |g|
  {
    Run(g, r, Zeros(n))
  }

  lemma {:induction false} RunAppend(g: seq<bool>, r: seq<bool>, x: seq<bool>, y: seq<bool>)
    requires |r| == |g| > 0
    ensures Run(g, r, x + y) == Run(g, Run(g, r, x), y)
    decreases |y|
  {
    if y == [] {
      assert x + y == x;
    } else {
      assert (x + y)[..|x + y| - 1] == x + y[..|y| - 1];
      RunAppend(g, r, x, y[..|y| - 1]);
    }
  }

  lemma RunOne(g: seq<bool>, r: seq<bool>, b: bool)
    requires |r| == |g| > 0
    ensures Run(g, r, [b]) == Clock(g, r, b)
  {
    assert [b][..0] == [];
  }

  lemma IdleSum(g: seq<bool>, r: seq<bool>, a: nat, b: nat)
    requires |r| == |g| > 0
    ensures Idle(g, r, a + b) == Idle(g, Idle(g, r, a), b)
  {
    assert Zeros(a + b) == Zeros(a) + Zeros(b);
    RunAppend(g, r, Zeros(a), Zeros(b));
  }

  lemma ClockXor(g: seq<bool>, r: seq<bool>, s: seq<bool>, a: bool, b: bool)
    requires |r| == |s| == |g| > 0
    ensures Clock(g, Xor(r, s), a != b) == Xor(Clock(g, r, a), Clock(g, s, b))
  {
  }

  /** The register is linear in its start value and its input together. */
  lemma {:induction false} RunXor(g: seq<bool>, r: seq<bool>, s: seq<bool>, x: seq<bool>, y: seq<bool>)
    requires |r| == |s| == |g| > 0
    requires |x| == |y|
    ensures Run(g, Xor(r, s), Xor(x, y)) == Xor(Run(g, r, x), Run(g, s, y))
    decreases |x|
  {
    if x != [] {
      var n := |x| - 1;
      assert Xor(x, y)[..n] == Xor(x[..n], y[..n]);
      RunXor(g, r, s, x[..n], y[..n]);
      ClockXor(g, Run(g, r, x[..n]), Run(g, s, y[..n]), x[n], y[n]);
    }
  }

  lemma {:induction false} RunZeros(g: seq<bool>, n: nat)
    requires |g| > 0
    ensures Idle(g, Zeros(|g|), n) == Zeros(|g|)
  {
    if n > 0 {
      assert Zeros(n)[..n - 1] == Zeros(n - 1);
      RunZeros(g, n - 1);
      assert Clock(g, Zeros(|g|), false) == Zeros(|g|);
    }
  }

  /** With a constant term in the divisor, the clock loses nothing. */
  lemma ClockNonzero(g: seq<bool>, q: seq<bool>)
    requires |q| == |g| > 0 && g[|g| - 1]
    requires Clock(g, q, false) == Zeros(|g|)
    ensures q == Zeros(|g|)
  {
    var c := Clock(g, q, false);
    assert !c[|g| - 1] && !q[0];
    forall k | 0 <= k < |g|
      ensures !q[k]
    {
      if k > 0 {
        assert !c[k - 1];
      }
    }
  }

  lemma {:induction false} IdleNonzero(g: seq<bool>, r: seq<bool>, n: nat)
    requires |r| == |g| > 0 && g[|g| - 1]
    requires r != Zeros(|g|)
    ensures Idle(g, r, n) != Zeros(|g|)
  {
    if n > 0 {
      assert Zeros(n)[..n - 1] == Zeros(n - 1);
      IdleNonzero(g, r, n - 1);
      var q := Idle(g, r, n - 1);
      if Clock(g, q, false) == Zeros(|g|) {
        ClockNonzero(g, q);
      }
    }
  }

  /** Every register value has a predecessor, and so one n clocks ago. */
  lemma ClockOnto(g: seq<bool>, r: seq<bool>) returns (q: seq<bool>)
    requires |r| == |g| > 0 && g[|g| - 1]
    ensures |q| == |g| && Clock(g, q, false) == r
  {
    var n := |g|;
    q := [r[n - 1]] + seq(n - 1, k requires 0 <= k < n - 1 => r[k] != (r[n - 1] && g[k]));
    assert q[0] == r[n - 1];
    forall k | 0 <= k < n
      ensures Clock(g, q, false)[k] == r[k]
    {
      if k + 1 < n {
        assert q[k + 1] == (r[k] != (r[n - 1] && g[k]));
      }
    }
  }

  lemma {:induction false} IdleOnto(g: seq<bool>, r: seq<bool>, n: nat) returns (q: seq<bool>)
    requires |r| == |g| > 0 && g[|g| - 1]
    ensures |q| == |g| && Idle(g, q, n) == r
    decreases n
  {
    if n == 0 {
      q := r;
    } else {
      var later := ClockOnto(g, r);
      q := IdleOnto(g, later, n - 1);
      assert Zeros(n)[..n - 1] == Zeros(n - 1);
    }
  }

  /** Feeding at most |g| bits is xoring them into the front of the register and idling. */
  lemma {:induction false} RunWord(g: seq<bool>, r: seq<bool>, e: seq<bool>)
    requires |r| == |g| > 0 && |e| <= |g|
    ensures Run(g, r, e) == Idle(g, Xor(r, e + Zeros(|g| - |e|)), |e|)
    decreases |e|
  {
    var pad := e + Zeros(|g| - |e|);
    if e == [] {
      assert Xor(r, pad) == r;
    } else {
      var rest := e[1..];
      var r' := Clock(g, r, e[0]);
      var pad' := rest + Zeros(|g| - |rest|);
      assert e == [e[0]] + rest;
      RunAppend(g, r, [e[0]], rest);
      RunOne(g, r, e[0]);
      RunWord(g, r', rest);
      assert Clock(g, Xor(r, pad), false) == Xor(r', pad');
      IdleSum(g, Xor(r, pad), 1, |e| - 1);
      assert Zeros(1) == [false];
      RunOne(g, Xor(r, pad), false);
    }
  }

  /** Idling past leading zeros only shifts. */
  lemma {:induction false} IdleShifts(g: seq<bool>, h: seq<bool>, n: nat)
    requires n + |h| == |g| > 0
    ensures Idle(g, Zeros(n) + h, n) == h + Zeros(n)
    decreases n
  {
    if n > 0 {
      IdleSum(g, Zeros(n) + h, 1, n - 1);
      assert Zeros(1) == [false];
      RunOne(g, Zeros(n) + h, false);
      assert Clock(g, Zeros(n) + h, false) == Zeros(n - 1) + (h + [false]);
      IdleShifts(g, h + [false], n - 1);
      assert (h + [false]) + Zeros(n - 1) == h + Zeros(n);
    } else {
      assert Zeros(n) + h == h + Zeros(n);
    }
  }

  /** A nonzero burst of at most |g| bits leaves the zero register nonzero. */
  lemma BurstEnters(g: seq<bool>, e: seq<bool>)
    requires 0 < |e| <= |g| && g[|g| - 1]
    requires e != Zeros(|e|)
    ensures Run(g, Zeros(|g|), e) != Zeros(|g|)
  {
    var pad := e + Zeros(|g| - |e|);
    assert pad != Zeros(|g|) by {
      PadNonzero(e, |g| - |e|);
    }
    RunWord(g, Zeros(|g|), e);
    XorZero(pad);
    IdleNonzero(g, pad, |e|);
  }

  lemma PadNonzero(e: seq<bool>, n: nat)
    requires e != Zeros(|e|)
    ensures e + Zeros(n) != Zeros(|e| + n)
  {
    assert (e + Zeros(n))[..|e|] == e && Zeros(|e| + n)[..|e|] == Zeros(|e|);
  }

  lemma BurstFromZero(g: seq<bool>, before: nat, e: seq<bool>, after: nat)
    requires 0 < |e| <= |g| && g[|g| - 1]
    requires e != Zeros(|e|)
    ensures Run(g, Zeros(|g|), Zeros(before) + (e + Zeros(after))) != Zeros(|g|)
  {
    RunAppend(g, Zeros(|g|), Zeros(before), e + Zeros(after));
    RunZeros(g, before);
    RunAppend(g, Zeros(|g|), e, Zeros(after));
    BurstEnters(g, e);
    IdleNonzero(g, Run(g, Zeros(|g|), e), after);
  }

  lemma RunDifference(g: seq<bool>, r: seq<bool>, x: seq<bool>, y: seq<bool>)
    requires |r| == |g| > 0 && |x| == |y|
    ensures Run(g, Zeros(|g|), Xor(x, y)) == Xor(Run(g, r, x), Run(g, r, y))
  {
    XorSelf(r);
    RunXor(g, r, r, x, y);
  }

  lemma IsolateBurst(d: seq<bool>, start: nat, w: nat)
    requires start + w <= |d| && d != Zeros(|d|)
    requires forall k :: 0 <= k < |d| && !(start <= k < start + w) ==> !d[k]
    ensures d == Zeros(start) + (d[start..start + w] + Zeros(|d| - start - w))
    ensures w > 0 && d[start..start + w] != Zeros(w)
  {
    var e := d[start..start + w];
    if e == Zeros(w) {
      forall k | 0 <= k < |d|
        ensures !d[k]
      {
        if start <= k < start + w {
          assert !e[k - start];
        }
      }
    }
  }

  /** A difference confined to at most |g| consecutive bits always survives to the end. */
  lemma BurstSurvives(g: seq<bool>, r: seq<bool>, x: seq<bool>, y: seq<bool>, start: nat, w: nat)
    requires |r| == |g| > 0 && g[|g| - 1]
    requires |x| == |y| && x != y && start + w <= |x| && w <= |g|
    requires forall k :: 0 <= k < |x| && !(start <= k < start + w) ==> x[k] == y[k]
    ensures Run(g, r, x) != Run(g, r, y)
  {
    var d := Xor(x, y);
    XorDetectsDifference(x, y);
    IsolateBurst(d, start, w);
    BurstFromZero(g, start, d[start..start + w], |x| - start - w);
    RunDifference(g, r, x, y);
    XorDetectsDifference(Run(g, r, x), Run(g, r, y));
  }

  /** When the divisor has an even number of terms, the register keeps the parity of what it saw. */
  lemma {:induction false} RunParity(g: seq<bool>, r: seq<bool>, x: seq<bool>)
    requires |r| == |g| > 0 && Parity(g)
    ensures Parity(Run(g, r, x)) == (Parity(r) != Parity(x))
    decreases |x|
  {
    if x != [] {
      var n := |x| - 1;
      RunParity(g, r, x[..n]);
      ClockParity(g, Run(g, r, x[..n]), x[n]);
    }
  }

  lemma ClockParity(g: seq<bool>, r: seq<bool>, b: bool)
    requires |r| == |g| > 0 && Parity(g)
    ensures Parity(Clock(g, r, b)) == (Parity(r) != b)
  {
    var shifted := r[1..] + [false];
    var feedback := if r[0] != b then g else Zeros(|g|);
    assert Clock(g, r, b) == Xor(shifted, feedback);
    ParityXor(shifted, feedback);
    ParityZeros(|g|);
    ParityShift(r);
  }

  lemma ParityShift(r: seq<bool>)
    requires r != []
    ensures Parity(r[1..] + [false]) == (Parity(r) != r[0])
  {
    ParityAppend(r[1..], [false]);
    ParityAppend([r[0]], r[1..]);
    assert r == [r[0]] + r[1..];
    ParityOne(r[0]);
    ParityOne(false);
  }

  lemma ParityOne(b: bool)
    ensures Parity([b]) == b
  {
    assert [b][..0] == [];
  }
}
