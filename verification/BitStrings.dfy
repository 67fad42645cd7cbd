/** Bit strings, and the operations on them that the checksum theory needs. */
module BitStrings {
  function Zeros(n: nat): (r: seq<bool>)
    ensures |r| == n
    ensures forall k :: 0 <= k < n ==> !r[k]
  {
    seq(n, _ => false)
  }

  function Xor(x: seq<bool>, y: seq<bool>): (r: seq<bool>)
    requires |x| == |y|
    ensures |r| == |x|
    ensures forall k :: 0 <= k < |x| ==> r[k] == (x[k] != y[k])
  {
    seq(|x|, k requires 0 <= k < |x| => x[k] != y[k])
  }

  /** Exclusive or of all the bits: true when an odd number of them is set. */
  function Parity(x: seq<bool>): bool {
    if x == [] then false else Parity(x[..|x| - 1]) != x[|x| - 1]
  }

  function Weight(x: seq<bool>): nat {
    if x == [] then 0 else Weight(x[..|x| - 1]) + (if x[|x| - 1] then 1 else 0)
  }

  lemma {:induction false} ParityIsWeight(x: seq<bool>)
    ensures Parity(x) <==> Weight(x) % 2 == 1
  {
    if x != [] {
      ParityIsWeight(x[..|x| - 1]);
    }
  }

  lemma {:induction false} ParityXor(x: seq<bool>, y: seq<bool>)
    requires |x| == |y|
    ensures Parity(Xor(x, y)) == (Parity(x) != Parity(y))
  {
    if x != [] {
      var n := |x| - 1;
      assert Xor(x, y)[..n] == Xor(x[..n], y[..n]);
      ParityXor(x[..n], y[..n]);
    }
  }

  lemma {:induction false} ParityZeros(n: nat)
    ensures !Parity(Zeros(n))
  {
    if n > 0 {
      assert Zeros(n)[..n - 1] == Zeros(n - 1);
      ParityZeros(n - 1);
    }
  }

  lemma {:induction false} ParityAppend(x: seq<bool>, y: seq<bool>)
    ensures Parity(x + y) == (Parity(x) != Parity(y))
  {
    if y == [] {
      assert x + y == x;
    } else {
      var n := |y| - 1;
      assert (x + y)[..|x + y| - 1] == x + y[..n];
      ParityAppend(x, y[..n]);
    }
  }

  lemma XorAppend(x: seq<bool>, y: seq<bool>, u: seq<bool>, v: seq<bool>)
    requires |x| == |y| && |u| == |v|
    ensures Xor(x + u, y + v) == Xor(x, y) + Xor(u, v)
  {
  }

  lemma XorZero(x: seq<bool>)
    ensures Xor(x, Zeros(|x|)) == x
    ensures Xor(Zeros(|x|), x) == x
  {
  }

  lemma XorSelf(x: seq<bool>)
    ensures Xor(x, x) == Zeros(|x|)
  {
  }

  lemma XorAssociative(x: seq<bool>, y: seq<bool>, z: seq<bool>)
    requires |x| == |y| == |z|
    ensures Xor(Xor(x, y), z) == Xor(x, Xor(y, z))
  {
  }

  lemma XorCommutes(x: seq<bool>, y: seq<bool>)
    requires |x| == |y|
    ensures Xor(x, y) == Xor(y, x)
  {
  }

  /** Two strings of one length are equal exactly when their difference is zero. */
  lemma XorDetectsDifference(x: seq<bool>, y: seq<bool>)
    requires |x| == |y|
    ensures Xor(x, y) == Zeros(|x|) <==> x == y
  {
    if Xor(x, y) == Zeros(|x|) {
      forall k | 0 <= k < |x|
        ensures x[k] == y[k]
      {
        assert !Xor(x, y)[k];
      }
    }
  }
}
