/**
  Division of polynomials over GF(2), stated without an algorithm, and the theorem that the shift
  register computes its remainder.

  A polynomial is the list of its coefficients, highest power first. Leading zeros are allowed.
 */
module PolynomialRemainder {
  import opened BitStrings
  import opened Lfsr

  /** Coefficient k, counted from the front, of the schoolbook product of q and d. */
  function ProductAt(q: seq<bool>, d: seq<bool>, k: nat): bool {
    if q == [] then false
    else
      var n := |q| - 1;
      ProductAt(q[..n], d, k) != (q[n] && n <= k < n + |d| && d[k - n])
  }

  /** p == q * d + r, with r of lower degree than d. */
  ghost predicate IsDivision(p: seq<bool>, d: seq<bool>, q: seq<bool>, r: seq<bool>) {
    && |d| == |r| + 1
    && |p| == |q| + |r|
    && forall k :: 0 <= k < |p| ==> p[k] == (ProductAt(q, d, k) != (k >= |q| && r[k - |q|]))
  }

  ghost predicate IsRemainder(p: seq<bool>, d: seq<bool>, r: seq<bool>) {
    exists q :: IsDivision(p, d, q, r)
  }

  /** init * x^|msg| + msg * x^|init| */
  function Dividend(init: seq<bool>, msg: seq<bool>): (p: seq<bool>)
    ensures |p| == |init| + |msg|
  {
    Xor(init + Zeros(|msg|), msg + Zeros(|init|))
  }

  function Quotient(g: seq<bool>, init: seq<bool>, msg: seq<bool>): (q: seq<bool>)
    requires |init| == |g| > 0
    ensures |q| == |msg|
  {
    if msg == [] then []
    else
      var n := |msg| - 1;
      Quotient(g, init, msg[..n]) + [Run(g, init, msg[..n])[0] != msg[n]]
  }

  lemma {:induction false} ProductBeyond(q: seq<bool>, d: seq<bool>, k: nat)
    requires k + 1 >= |q| + |d| && |d| > 0
    ensures !ProductAt(q, d, k)
  {
    if q != [] {
      ProductBeyond(q[..|q| - 1], d, k);
    }
  }

  lemma DividendExtends(init: seq<bool>, msg: seq<bool>, b: bool)
    ensures forall k :: 0 <= k < |init| + |msg| + 1 ==>
      Dividend(init, msg + [b])[k] ==
        ((k < |init| + |msg| && Dividend(init, msg)[k]) != (k == |msg| && b))
  {
  }

  lemma DivisionStep(g: seq<bool>, init: seq<bool>, msg: seq<bool>, b: bool, q: seq<bool>, r: seq<bool>)
    requires |init| == |g| == |r| > 0
    requires IsDivision(Dividend(init, msg), [true] + g, q, r)
    ensures IsDivision(Dividend(init, msg + [b]), [true] + g, q + [r[0] != b], Clock(g, r, b))
  {
    var d := [true] + g;
    var n := |q|;
    var t := r[0] != b;
    var p, p' := Dividend(init, msg), Dividend(init, msg + [b]);
    var r' := Clock(g, r, b);
    var q' := q + [t];
    assert q'[..n] == q;
    DividendExtends(init, msg, b);
    forall k | 0 <= k < |p'|
      ensures p'[k] == (ProductAt(q', d, k) != (k >= n + 1 && r'[k - n - 1]))
    {
      assert ProductAt(q', d, k) == (ProductAt(q, d, k) != (t && n <= k < n + |d| && d[k - n]));
      if k == |p| {
        ProductBeyond(q, d, k);
      } else {
        assert p[k] == (ProductAt(q, d, k) != (k >= n && r[k - n]));
      }
    }
  }

  lemma {:induction false} RunDivides(g: seq<bool>, init: seq<bool>, msg: seq<bool>)
    requires |init| == |g| > 0
    ensures IsDivision(Dividend(init, msg), [true] + g, Quotient(g, init, msg), Run(g, init, msg))
    decreases |msg|
  {
    if msg == [] {
      assert Dividend(init, msg) == init;
    } else {
      var n := |msg| - 1;
      RunDivides(g, init, msg[..n]);
      assert msg[..n] + [msg[n]] == msg;
      DivisionStep(g, init, msg[..n], msg[n], Quotient(g, init, msg[..n]), Run(g, init, msg[..n]));
    }
  }

  // ---- Uniqueness ----

  /** Product coefficient k only depends on the first k + 1 coefficients of the quotient. */
  lemma {:induction false} ProductPrefix(q: seq<bool>, d: seq<bool>, k: nat)
    requires k < |q| && |d| > 0 && d[0]
    ensures ProductAt(q, d, k) == (ProductAt(q[..k], d, k) != q[k])
  {
    var n := |q| - 1;
    if k < n {
      ProductPrefix(q[..n], d, k);
      assert q[..n][..k] == q[..k];
    }
  }

  lemma {:induction false} SameQuotient(
      p: seq<bool>, d: seq<bool>, q1: seq<bool>, r1: seq<bool>, q2: seq<bool>, r2: seq<bool>, n: nat)
    requires IsDivision(p, d, q1, r1) && IsDivision(p, d, q2, r2)
    requires d[0] && n <= |q1|
    ensures q1[..n] == q2[..n]
  {
    if n > 0 {
      var k := n - 1;
      SameQuotient(p, d, q1, r1, q2, r2, k);
      ProductPrefix(q1, d, k);
      ProductPrefix(q2, d, k);
      assert p[k] == ProductAt(q1, d, k) == ProductAt(q2, d, k);
      assert q1[..n] == q1[..k] + [q1[k]];
      assert q2[..n] == q2[..k] + [q2[k]];
    }
  }

  lemma DivisionUnique(
      p: seq<bool>, d: seq<bool>, q1: seq<bool>, r1: seq<bool>, q2: seq<bool>, r2: seq<bool>)
    requires IsDivision(p, d, q1, r1) && IsDivision(p, d, q2, r2) && d[0]
    ensures q1 == q2 && r1 == r2
  {
    SameQuotient(p, d, q1, r1, q2, r2, |q1|);
    assert q1[..|q1|] == q1 && q2[..|q1|] == q2;
    forall k | 0 <= k < |r1|
      ensures r1[k] == r2[k]
    {
      assert p[|q1| + k] == (ProductAt(q1, d, |q1| + k) != r1[k]);
      assert p[|q1| + k] == (ProductAt(q2, d, |q1| + k) != r2[k]);
    }
  }

  /** The register ends with exactly the remainder, and with nothing else. */
  lemma RunIsTheRemainder(g: seq<bool>, init: seq<bool>, msg: seq<bool>, r: seq<bool>)
    requires |init| == |g| > 0
    ensures IsRemainder(Dividend(init, msg), [true] + g, r) <==> r == Run(g, init, msg)
  {
    var p, d := Dividend(init, msg), [true] + g;
    RunDivides(g, init, msg);
    if IsRemainder(p, d, r) {
      var q :| IsDivision(p, d, q, r);
      DivisionUnique(p, d, q, r, Quotient(g, init, msg), Run(g, init, msg));
    }
  }
}
