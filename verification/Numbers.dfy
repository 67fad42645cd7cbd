/** Counting helpers shared by the models. */
module Numbers {
  /** The number of values of a 64-bit unsigned integer. */
  const UINT64: nat := 0x1_0000_0000_0000_0000

  /** A positive number above all of a finite set. */
  lemma FreshNumber(used: set<nat>) returns (n: nat)
    ensures n > 0 && forall u :: u in used ==> u < n
  {
    if used == {} {
      n := 1;
    } else {
      var u :| u in used;
      n := FreshNumber(used - {u});
      assert used == (used - {u}) + {u};
      if n <= u {
        n := u + 1;
      }
    }
  }
}
