/** The client's retry policy: how many calls, and how long the pauses between them. */
module RetrySpec {
  import opened Words

  datatype RetryPolicy = RetryPolicy(maxAttempts: int, initialBackoff: nat, maxBackoff: nat)

  const DEFAULT_POLICY := RetryPolicy(3, 100, 2000)

  /** The shift and its product stay within a signed 64-bit number. */
  predicate NoOverflow(policy: RetryPolicy) {
    && policy.maxAttempts <= 64
    && (policy.maxAttempts >= 2 ==> policy.initialBackoff * Pow2(policy.maxAttempts - 2) < 0x8000_0000_0000_0000)
  }

  /** ms doubled k times. */
  function Doubled(ms: nat, k: nat): nat {
    if k == 0 then ms else 2 * Doubled(ms, k - 1)
  }

  /** Doubling is what multiplying by 1 << k does. */
  lemma {:induction false} DoubledIsShift(ms: nat, k: nat)
    ensures Doubled(ms, k) == ms * Pow2(k)
  {
    if k > 0 {
      DoubledIsShift(ms, k - 1);
      assert ms * Pow2(k) == 2 * (ms * Pow2(k - 1));
    }
  }

  /** The unjittered pause after failure number k: doubled each time, up to the maximum. */
  function Backoff(policy: RetryPolicy, k: nat): (ms: nat)
    requires k > 0
  {
    var doubled := Doubled(policy.initialBackoff, k - 1);
    if doubled > policy.maxBackoff then policy.maxBackoff else doubled
  }

  /** It is the lesser of initial * 2^(k - 1) and the maximum. */
  lemma BackoffIs(policy: RetryPolicy, k: nat)
    requires k > 0
    ensures Backoff(policy, k) == policy.initialBackoff * Pow2(k - 1) || Backoff(policy, k) == policy.maxBackoff
    ensures Backoff(policy, k) <= policy.initialBackoff * Pow2(k - 1) && Backoff(policy, k) <= policy.maxBackoff
  {
    DoubledIsShift(policy.initialBackoff, k - 1);
  }

  function TotalBackoff(policy: RetryPolicy, n: nat): nat {
    if n == 0 then 0 else TotalBackoff(policy, n - 1) + Backoff(policy, n)
  }

  /** How many calls are allowed: at least one whatever the policy says. */
  function MaxCalls(policy: RetryPolicy): nat {
    if policy.maxAttempts < 1 then 1 else policy.maxAttempts
  }

  predicate FailsBefore(results: seq<bool>, n: nat)
    requires n <= |results|
  {
    forall i :: 0 <= i < n ==> !results[i]
  }

  /** `results` are those of a run that stops at the first success or at the last call allowed. */
  predicate StopsRight(policy: RetryPolicy, results: seq<bool>) {
    && 0 < |results| <= MaxCalls(policy)
    && FailsBefore(results, |results| - 1)
    && (results[|results| - 1] || |results| == MaxCalls(policy))
  }

  /** The calls so far are those of such a run, the last of them returning `ok`. */
  predicate GoingRight(policy: RetryPolicy, results: seq<bool>, ok: bool) {
    && 0 < |results| <= MaxCalls(policy)
    && FailsBefore(results, |results| - 1) && results[|results| - 1] == ok
  }

  lemma GoesOn(policy: RetryPolicy, results: seq<bool>)
    requires GoingRight(policy, results, false) && |results| < policy.maxAttempts
    ensures forall ok :: GoingRight(policy, results + [ok], ok)
  {
  }

  /** A run that stops right is as long as the first success's place says, or as the policy allows. */
  lemma CallsMade(policy: RetryPolicy, results: seq<bool>, outcomes: seq<bool>, first: nat)
    requires StopsRight(policy, results) && results <= outcomes
    requires first <= |outcomes| && FailsBefore(outcomes, first) && (first < |outcomes| ==> outcomes[first])
    requires first == |outcomes| ==> MaxCalls(policy) <= |outcomes|
    ensures |results| == if first + 1 < MaxCalls(policy) then first + 1 else MaxCalls(policy)
  {
    assert outcomes[..|results|] == results;
    assert results[|results| - 1] == outcomes[|results| - 1];
  }

  predicate IsJitter(x: real) {
    0.5 <= x <= 1.5
  }

  /** A pause between half and three halves of backoff k, up to truncation. */
  predicate PauseFits(policy: RetryPolicy, k: nat, pause: int)
    requires k > 0
  {
    Backoff(policy, k) - 1 <= 2 * pause <= 3 * Backoff(policy, k)
  }

  /** The pauses after the failures 1, 2 and so on. */
  predicate PausesFit(policy: RetryPolicy, pauses: seq<nat>) {
    forall k :: 0 <= k < |pauses| ==> PauseFits(policy, k + 1, pauses[k])
  }

  function Sum(pauses: seq<nat>): nat {
    if pauses == [] then 0 else Sum(pauses[..|pauses| - 1]) + pauses[|pauses| - 1]
  }

  /** Together they come to between half and three halves of the sum of the backoffs, up to truncation. */
  lemma {:induction false} PausesTotal(policy: RetryPolicy, pauses: seq<nat>)
    requires PausesFit(policy, pauses)
    ensures var total := TotalBackoff(policy, |pauses|);
      total - |pauses| <= 2 * Sum(pauses) <= 3 * total
  {
    if pauses != [] {
      PausesTotal(policy, pauses[..|pauses| - 1]);
      assert PauseFits(policy, |pauses|, pauses[|pauses| - 1]);
    }
  }

  /** Truncated multiplication by a jitter between one half and three halves. */
  function Jittered(ms: nat, jitter: real): (r: nat)
    requires IsJitter(jitter)
    ensures ms <= 2 * r + 1 && 2 * r <= 3 * ms
    ensures r as real <= ms as real * jitter < r as real + 1.0
  {
    FloorBounds(Scaled(ms as real, jitter), ms);
    Scaled(ms as real, jitter).Floor
  }

  function Scaled(m: real, jitter: real): (x: real)
    requires m >= 0.0 && IsJitter(jitter)
    ensures m <= 2.0 * x <= 3.0 * m
  {
    JitterBounds(m, jitter);
    m * jitter
  }

  lemma JitterBounds(m: real, jitter: real)
    requires m >= 0.0 && IsJitter(jitter)
    ensures m <= 2.0 * (m * jitter) <= 3.0 * m
  {
    var low, high := jitter - 0.5, 1.5 - jitter;
    assert m * low >= 0.0 && m * high >= 0.0;
    assert m * jitter == m * low + 0.5 * m == 1.5 * m - m * high;
  }

  lemma FloorBounds(x: real, ms: nat)
    requires ms as real <= 2.0 * x <= 3.0 * ms as real
    ensures 0 <= x.Floor && ms <= 2 * x.Floor + 1 && 2 * x.Floor <= 3 * ms
  {
    var f := x.Floor;
    assert f as real <= x < f as real + 1.0;
    assert (2 * f) as real <= (3 * ms) as real;
    assert ms as real < (2 * f + 2) as real;
  }

  /** At most two pauses: 50 to 150 ms, and 100 to 300 ms. */
  predicate DefaultBounds(pauses: seq<nat>) {
    && |pauses| <= 2
    && (|pauses| > 0 ==> 50 <= pauses[0] <= 150)
    && (|pauses| > 1 ==> 100 <= pauses[1] <= 300)
  }

  /** PutObject's own policy: three calls, and pauses of 100 ms and 200 ms before jitter. */
  lemma DefaultPauses()
    ensures NoOverflow(DEFAULT_POLICY) && MaxCalls(DEFAULT_POLICY) == 3
    ensures forall pauses :: PausesFit(DEFAULT_POLICY, pauses) && |pauses| <= 2 ==> DefaultBounds(pauses)
  {
    assert Pow2(1) == 2;
    forall pauses | PausesFit(DEFAULT_POLICY, pauses) && |pauses| <= 2
      ensures DefaultBounds(pauses)
    {
      assert Backoff(DEFAULT_POLICY, 1) == 100 && Backoff(DEFAULT_POLICY, 2) == 200;
      assert |pauses| > 0 ==> PauseFits(DEFAULT_POLICY, 1, pauses[0]);
      assert |pauses| > 1 ==> PauseFits(DEFAULT_POLICY, 2, pauses[1]);
    }
  }
}
