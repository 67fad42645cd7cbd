/**
  The benchmark's workers: a warmup each, a barrier, and then object numbers claimed from one shared
  64-bit counter until they run out. Any number of workers, in any interleaving.
 */
module WorkClaiming {
  import opened Numbers
  import opened Texts

  datatype Key = Warmup(worker: nat, i: nat) | Formal(idx: nat)

  function Text(prefix: string, key: Key): string {
    match key
    case Warmup(w, i) => prefix + "-warmup-" + Decimal(w) + "-" + Decimal(i)
    case Formal(idx) => prefix + "-" + Decimal(idx)
  }

  datatype Config = Config(total: nat, warmup: nat, workers: nat)

  datatype Pc = Warming(i: nat) | AtBarrier | Claiming | Putting(idx: nat) | Finished

  /** `claimed` and `keys` are history: the numbers claimed and the objects put, in order. */
  datatype State = State(next: nat, pcs: seq<Pc>, claimed: seq<nat>, keys: seq<Key>)

  datatype Step = Warm(w: nat) | Arrive(w: nat) | Release | FetchAdd(w: nat) | Put(w: nat)

  function Init(c: Config): State {
    State(0, seq(c.workers, _ => Warming(0)), [], [])
  }

  function Goto(s: State, w: nat, pc: Pc): State
    requires w < |s.pcs|
  {
    s.(pcs := s.pcs[w := pc])
  }

  predicate AllWaiting(pcs: seq<Pc>) {
    forall w :: 0 <= w < |pcs| ==> pcs[w].AtBarrier?
  }

  predicate Enabled(c: Config, s: State, a: Step) {
    match a
    case Warm(w) => w < |s.pcs| && s.pcs[w].Warming? && s.pcs[w].i < c.warmup
    case Arrive(w) => w < |s.pcs| && s.pcs[w].Warming? && s.pcs[w].i >= c.warmup
    case Release => s.pcs != [] && AllWaiting(s.pcs)
    case FetchAdd(w) => w < |s.pcs| && s.pcs[w].Claiming?
    case Put(w) => w < |s.pcs| && s.pcs[w].Putting?
  }

  function WarmStep(s: State, w: nat): State
    requires w < |s.pcs| && s.pcs[w].Warming?
  {
    var i := s.pcs[w].i;
    Goto(s, w, Warming(i + 1)).(keys := s.keys + [Warmup(w, i)])
  }

  function FetchAddStep(c: Config, s: State, w: nat): State
    requires w < |s.pcs|
  {
    var idx := s.next;
    Goto(s, w, if idx < c.total then Putting(idx) else Finished).(
      next := (s.next + 1) % UINT64,
      claimed := if idx < c.total then s.claimed + [idx] else s.claimed)
  }

  function PutStep(s: State, w: nat): State
    requires w < |s.pcs| && s.pcs[w].Putting?
  {
    Goto(s, w, Claiming).(keys := s.keys + [Formal(s.pcs[w].idx)])
  }

  function Do(c: Config, s: State, a: Step): State
    requires Enabled(c, s, a)
  {
    match a
    case Warm(w) => WarmStep(s, w)
    case Arrive(w) => Goto(s, w, AtBarrier)
    case Release => s.(pcs := seq(|s.pcs|, _ => Claiming))
    case FetchAdd(w) => FetchAddStep(c, s, w)
    case Put(w) => PutStep(s, w)
  }

  ghost predicate Leads(c: Config, s: State, steps: seq<Step>, s': State)
    decreases |steps|
  {
    if steps == [] then s == s'
    else Enabled(c, s, steps[0]) && Leads(c, Do(c, s, steps[0]), steps[1..], s')
  }

  ghost predicate Reachable(c: Config, s: State) {
    exists steps :: Leads(c, Init(c), steps, s)
  }

  // ---- Sums over the workers ----

  function Weight(c: Config, pc: Pc): nat {
    match pc
    case Warming(i) => (if i < c.warmup then c.warmup - i else 0) + 4
    case AtBarrier => 3
    case Claiming => 1
    case Putting(_) => 2
    case Finished => 0
  }

  function Weights(c: Config, pcs: seq<Pc>): nat {
    if pcs == [] then 0 else Weights(c, pcs[..|pcs| - 1]) + Weight(c, pcs[|pcs| - 1])
  }

  function CountFinished(pcs: seq<Pc>): (n: nat)
    ensures n <= |pcs|
  {
    if pcs == [] then 0 else CountFinished(pcs[..|pcs| - 1]) + if pcs[|pcs| - 1].Finished? then 1 else 0
  }

  lemma {:induction false} SumsUpdate(c: Config, pcs: seq<Pc>, w: nat, pc: Pc)
    requires w < |pcs|
    ensures Weights(c, pcs[w := pc]) == Weights(c, pcs) - Weight(c, pcs[w]) + Weight(c, pc)
    ensures CountFinished(pcs[w := pc])
      == CountFinished(pcs) - (if pcs[w].Finished? then 1 else 0) + (if pc.Finished? then 1 else 0)
  {
    var n := |pcs| - 1;
    if w < n {
      assert pcs[w := pc][..n] == pcs[..n][w := pc];
      SumsUpdate(c, pcs[..n], w, pc);
    } else {
      assert pcs[w := pc][..n] == pcs[..n];
    }
  }

  lemma {:induction false} SumsUniform(c: Config, pcs: seq<Pc>, pc: Pc)
    requires forall w :: 0 <= w < |pcs| ==> pcs[w] == pc
    ensures Weights(c, pcs) == |pcs| * Weight(c, pc)
    ensures CountFinished(pcs) == if pc.Finished? then |pcs| else 0
  {
    if pcs != [] {
      SumsUniform(c, pcs[..|pcs| - 1], pc);
    }
  }

  lemma {:induction false} AllFinished(pcs: seq<Pc>)
    ensures CountFinished(pcs) == |pcs| <==> forall w :: 0 <= w < |pcs| ==> pcs[w].Finished?
  {
    if pcs != [] {
      AllFinished(pcs[..|pcs| - 1]);
    }
  }

  // ---- The invariant ----

  /** The counter never wraps, because each worker overshoots the total at most once. */
  ghost predicate Counted(c: Config, s: State) {
    && |s.pcs| == c.workers
    && s.next == |s.claimed| + CountFinished(s.pcs)
    && |s.claimed| <= c.total
    && (CountFinished(s.pcs) > 0 ==> |s.claimed| == c.total)
    && (forall k :: 0 <= k < |s.claimed| ==> s.claimed[k] == k)
  }

  ghost predicate KeyRight(s: State, key: Key) {
    match key
    case Warmup(w, i) => w < |s.pcs| && (s.pcs[w].Warming? ==> i < s.pcs[w].i)
    case Formal(idx) =>
      idx < |s.claimed| && forall w :: 0 <= w < |s.pcs| ==> s.pcs[w] != Putting(idx)
  }

  ghost predicate PuttingDiffer(pcs: seq<Pc>, n: nat) {
    && (forall w :: 0 <= w < |pcs| && pcs[w].Putting? ==> pcs[w].idx < n)
    && (forall v, w :: 0 <= v < w < |pcs| && pcs[v].Putting? && pcs[w].Putting? ==> pcs[v].idx != pcs[w].idx)
  }

  ghost predicate KeysOnce(s: State) {
    && (forall k :: 0 <= k < |s.keys| ==> KeyRight(s, s.keys[k]))
    && (forall j, k :: 0 <= j < k < |s.keys| ==> s.keys[j] != s.keys[k])
    && PuttingDiffer(s.pcs, |s.claimed|)
  }

  predicate BeforeBarrier(pc: Pc) {
    pc.Warming? || pc.AtBarrier?
  }

  /** The barrier opens for all workers at once. */
  ghost predicate Together(pcs: seq<Pc>) {
    || (forall w :: 0 <= w < |pcs| ==> BeforeBarrier(pcs[w]))
    || (forall w :: 0 <= w < |pcs| ==> !BeforeBarrier(pcs[w]))
  }

  lemma StepTogether(c: Config, s: State, a: Step)
    requires Together(s.pcs) && Enabled(c, s, a)
    ensures Together(Do(c, s, a).pcs)
  {
    if !a.Release? {
      assert BeforeBarrier(s.pcs[a.w]) <==> a.Warm? || a.Arrive?;
    }
  }

  lemma StepCounts(c: Config, s: State, a: Step)
    requires Counted(c, s) && Enabled(c, s, a) && c.total + c.workers < UINT64
    ensures Counted(c, Do(c, s, a))
    ensures a.FetchAdd? ==> Do(c, s, a).next == s.next + 1
  {
    if a.Release? {
      SumsUniform(c, s.pcs, AtBarrier);
      SumsUniform(c, Do(c, s, a).pcs, Claiming);
    } else {
      SumsUpdate(c, s.pcs, a.w, Do(c, s, a).pcs[a.w]);
      NotAllFinished(s.pcs, a.w);
    }
  }

  lemma NotAllFinished(pcs: seq<Pc>, w: nat)
    requires w < |pcs| && !pcs[w].Finished?
    ensures CountFinished(pcs) < |pcs|
  {
    AllFinished(pcs);
  }

  lemma KeysStay(s: State, s': State)
    requires KeysOnce(s) && s'.keys == s.keys && |s.claimed| <= |s'.claimed| && PuttingDiffer(s'.pcs, |s'.claimed|)
    requires forall k :: 0 <= k < |s.keys| ==> KeyRight(s', s.keys[k])
    ensures KeysOnce(s')
  {
  }

  lemma KeyAdded(s: State, s': State, key: Key)
    requires KeysOnce(s) && s'.keys == s.keys + [key] && PuttingDiffer(s'.pcs, |s'.claimed|)
    requires !KeyRight(s, key) && KeyRight(s', key)
    requires forall k :: 0 <= k < |s.keys| ==> KeyRight(s', s.keys[k])
    ensures KeysOnce(s')
  {
  }

  lemma StepKeys(c: Config, s: State, a: Step)
    requires Counted(c, s) && KeysOnce(s) && Enabled(c, s, a) && c.total + c.workers < UINT64
    ensures KeysOnce(Do(c, s, a))
  {
    var s' := Do(c, s, a);
    forall k | 0 <= k < |s.keys|
      ensures KeyRight(s', s.keys[k])
    {
      assert KeyRight(s, s.keys[k]);
    }
    match a
    case Warm(w) => KeyAdded(s, s', Warmup(w, s.pcs[w].i));
    case Put(w) =>
      assert s.pcs[w] == Putting(s.pcs[w].idx);
      KeyAdded(s, s', Formal(s.pcs[w].idx));
    case _ => KeysStay(s, s');
  }

  lemma {:induction false} RunKeeps(c: Config, s: State, steps: seq<Step>, s': State)
    requires Counted(c, s) && KeysOnce(s) && Together(s.pcs)
    requires Leads(c, s, steps, s') && c.total + c.workers < UINT64
    ensures Counted(c, s') && KeysOnce(s') && Together(s'.pcs)
    decreases |steps|
  {
    if steps != [] {
      StepCounts(c, s, steps[0]);
      StepKeys(c, s, steps[0]);
      StepTogether(c, s, steps[0]);
      RunKeeps(c, Do(c, s, steps[0]), steps[1..], s');
    }
  }

  lemma ReachableKeeps(c: Config, s: State)
    requires Reachable(c, s) && c.total + c.workers < UINT64
    ensures Counted(c, s) && KeysOnce(s) && Together(s.pcs)
  {
    var steps :| Leads(c, Init(c), steps, s);
    SumsUniform(c, Init(c).pcs, Warming(0));
    RunKeeps(c, Init(c), steps, s);
  }

  // ---- Theorems ----

  /** In every reachable state the numbers claimed are 0, 1, 2 and so on below the total, each once. */
  lemma ClaimsAreExact(c: Config, s: State)
    requires Reachable(c, s) && c.total + c.workers < UINT64
    ensures s.claimed == seq(|s.claimed|, k => k) && |s.claimed| <= c.total
    ensures s.next <= c.total + c.workers
  {
    ReachableKeeps(c, s);
  }

  /** As soon as one worker has left its loop, all of them have been claimed. */
  lemma NothingLeftOver(c: Config, s: State, w: nat)
    requires Reachable(c, s) && c.total + c.workers < UINT64
    requires w < |s.pcs| && s.pcs[w].Finished?
    ensures s.claimed == seq(c.total, k => k)
  {
    ReachableKeeps(c, s);
    if CountFinished(s.pcs) == 0 {
      NoneFinished(s.pcs);
    }
  }

  lemma {:induction false} NoneFinished(pcs: seq<Pc>)
    requires CountFinished(pcs) == 0
    ensures forall w :: 0 <= w < |pcs| ==> !pcs[w].Finished?
  {
    if pcs != [] {
      NoneFinished(pcs[..|pcs| - 1]);
    }
  }

  /** What bounds the rest of a run: steps each worker still owes, and two for every number left. */
  function Measure(c: Config, s: State): int {
    2 * (c.total - |s.claimed|) + Weights(c, s.pcs)
  }

  lemma StepDecreases(c: Config, s: State, a: Step)
    requires Counted(c, s) && Enabled(c, s, a) && c.total + c.workers < UINT64
    ensures 0 <= Measure(c, Do(c, s, a)) < Measure(c, s)
  {
    StepCounts(c, s, a);
    if a.Release? {
      SumsUniform(c, s.pcs, AtBarrier);
      SumsUniform(c, Do(c, s, a).pcs, Claiming);
    } else {
      SumsUpdate(c, s.pcs, a.w, Do(c, s, a).pcs[a.w]);
    }
  }

  lemma {:induction false} RunIsBounded(c: Config, s: State, steps: seq<Step>, s': State)
    requires Counted(c, s) && Leads(c, s, steps, s') && c.total + c.workers < UINT64
    ensures |steps| <= Measure(c, s) - Measure(c, s')
    ensures Counted(c, s') && Measure(c, s') >= 0
    decreases |steps|
  {
    if steps != [] {
      StepCounts(c, s, steps[0]);
      StepDecreases(c, s, steps[0]);
      RunIsBounded(c, Do(c, s, steps[0]), steps[1..], s');
    }
  }

  /** Every run ends: none is longer than this. */
  lemma RunsEnd(c: Config, steps: seq<Step>, s: State)
    requires Leads(c, Init(c), steps, s) && c.total + c.workers < UINT64
    ensures |steps| <= 2 * c.total + c.workers * (c.warmup + 4)
  {
    SumsUniform(c, Init(c).pcs, Warming(0));
    RunIsBounded(c, Init(c), steps, s);
  }

  // ---- Everything is put ----

  /** How many warmups a worker has behind it. */
  function Progress(c: Config, pc: Pc): nat {
    if pc.Warming? then pc.i else c.warmup
  }

  ghost predicate WarmupsPut(c: Config, s: State) {
    && (forall w :: 0 <= w < |s.pcs| ==> Progress(c, s.pcs[w]) <= c.warmup)
    && (forall w, i :: 0 <= w < |s.pcs| && 0 <= i < Progress(c, s.pcs[w]) ==> Warmup(w, i) in s.keys)
    && (forall k :: 0 <= k < |s.keys| && s.keys[k].Warmup? ==> s.keys[k].i < c.warmup)
  }

  /** A claimed number's object is put already, or some worker is about to put it. */
  ghost predicate OneClaimPut(s: State, idx: nat) {
    Formal(idx) in s.keys || exists w :: 0 <= w < |s.pcs| && s.pcs[w] == Putting(idx)
  }

  ghost predicate ClaimsPut(s: State) {
    forall idx :: 0 <= idx < |s.claimed| ==> OneClaimPut(s, idx)
  }

  lemma StepWarmups(c: Config, s: State, a: Step)
    requires WarmupsPut(c, s) && Enabled(c, s, a)
    ensures WarmupsPut(c, Do(c, s, a))
  {
    var s' := Do(c, s, a);
    assert forall key :: key in s.keys ==> key in s'.keys;
    if a.Warm? {
      assert s'.keys[|s.keys|] == Warmup(a.w, s.pcs[a.w].i);
    }
  }

  lemma OneClaimStays(c: Config, s: State, a: Step, idx: nat)
    requires OneClaimPut(s, idx) && Enabled(c, s, a)
    ensures OneClaimPut(Do(c, s, a), idx)
  {
    var s' := Do(c, s, a);
    if Formal(idx) in s.keys {
      assert Formal(idx) in s'.keys;
    } else {
      var w :| 0 <= w < |s.pcs| && s.pcs[w] == Putting(idx);
      if a == Put(w) {
        assert s'.keys[|s.keys|] == Formal(idx);
      } else {
        assert s'.pcs[w] == Putting(idx);
      }
    }
  }

  lemma StepClaimsPut(c: Config, s: State, a: Step)
    requires ClaimsPut(s) && Counted(c, s) && Enabled(c, s, a)
    ensures ClaimsPut(Do(c, s, a))
  {
    var s' := Do(c, s, a);
    forall idx | 0 <= idx < |s'.claimed|
      ensures OneClaimPut(s', idx)
    {
      if idx < |s.claimed| {
        OneClaimStays(c, s, a, idx);
      } else {
        assert s'.pcs[a.w] == Putting(s.next);
        NoneFinishedYet(c, s);
      }
    }
  }

  /** While there is something left to claim, the counter shows how much was claimed. */
  lemma NoneFinishedYet(c: Config, s: State)
    requires Counted(c, s) && s.next < c.total
    ensures s.next == |s.claimed|
  {
  }

  lemma {:induction false} RunPuts(c: Config, s: State, steps: seq<Step>, s': State)
    requires WarmupsPut(c, s) && ClaimsPut(s) && Counted(c, s)
    requires Leads(c, s, steps, s') && c.total + c.workers < UINT64
    ensures WarmupsPut(c, s') && ClaimsPut(s')
    decreases |steps|
  {
    if steps != [] {
      StepWarmups(c, s, steps[0]);
      StepClaimsPut(c, s, steps[0]);
      StepCounts(c, s, steps[0]);
      RunPuts(c, Do(c, s, steps[0]), steps[1..], s');
    }
  }

  /** What the benchmark puts: every worker's warmups, and every object below the total. */
  predicate Wanted(c: Config, key: Key) {
    match key
    case Warmup(w, i) => w < c.workers && i < c.warmup
    case Formal(idx) => idx < c.total
  }

  /** A run that cannot go on has put every one of those, and nothing else, and none of them twice. */
  lemma EverythingIsPutOnce(c: Config, s: State)
    requires Reachable(c, s) && c.total + c.workers < UINT64 && c.workers > 0
    requires forall a :: !Enabled(c, s, a)
    ensures forall key :: key in s.keys <==> Wanted(c, key)
    ensures forall j, k :: 0 <= j < k < |s.keys| ==> s.keys[j] != s.keys[k]
  {
    ReachableKeeps(c, s);
    StuckMeansDone(c, s);
    var steps :| Leads(c, Init(c), steps, s);
    SumsUniform(c, Init(c).pcs, Warming(0));
    RunPuts(c, Init(c), steps, s);
    forall key
      ensures key in s.keys <==> Wanted(c, key)
    {
      KeyIsWanted(c, s, key);
    }
  }

  lemma KeyIsWanted(c: Config, s: State, key: Key)
    requires Counted(c, s) && KeysOnce(s) && WarmupsPut(c, s) && ClaimsPut(s) && |s.claimed| == c.total
    requires forall w :: 0 <= w < |s.pcs| ==> s.pcs[w].Finished?
    ensures key in s.keys <==> Wanted(c, key)
  {
    assert key.Formal? && key.idx < c.total ==> OneClaimPut(s, key.idx);
    if key in s.keys {
      var k :| 0 <= k < |s.keys| && s.keys[k] == key;
      assert KeyRight(s, s.keys[k]);
    }
  }

  /** While any worker has not finished, some step can be taken. */
  lemma NeverStuck(c: Config, s: State, w: nat) returns (a: Step)
    requires Reachable(c, s) && c.total + c.workers < UINT64
    requires w < |s.pcs| && !s.pcs[w].Finished?
    ensures Enabled(c, s, a)
  {
    ReachableKeeps(c, s);
    match s.pcs[w]
    case Claiming => a := FetchAdd(w);
    case Putting(_) => a := Put(w);
    case Warming(i) => a := if i < c.warmup then Warm(w) else Arrive(w);
    case AtBarrier =>
      if AllWaiting(s.pcs) {
        a := Release;
      } else {
        var v :| 0 <= v < |s.pcs| && !s.pcs[v].AtBarrier?;
        assert BeforeBarrier(s.pcs[w]);
        a := if s.pcs[v].i < c.warmup then Warm(v) else Arrive(v);
      }
  }

  /** So a run that cannot go on has finished every worker, and claimed every number once. */
  lemma StuckMeansDone(c: Config, s: State)
    requires Reachable(c, s) && c.total + c.workers < UINT64 && c.workers > 0
    requires forall a :: !Enabled(c, s, a)
    ensures forall w :: 0 <= w < |s.pcs| ==> s.pcs[w].Finished?
    ensures s.claimed == seq(c.total, k => k)
  {
    ReachableKeeps(c, s);
    forall w | 0 <= w < |s.pcs|
      ensures s.pcs[w].Finished?
    {
      if !s.pcs[w].Finished? {
        var a := NeverStuck(c, s, w);
      }
    }
    NothingLeftOver(c, s, 0);
  }

  /** The digits of a string up to its first dash. */
  predicate DashAt(s: string, n: nat) {
    n < |s| && s[n] == '-' && forall i :: 0 <= i < n ==> IsDecimal(s[i])
  }

  lemma OneFirstDash(s: string, m: nat, n: nat)
    requires DashAt(s, m) && DashAt(s, n)
    ensures m == n
  {
  }

  lemma SplitAtDash(m: nat, x: string, n: nat, y: string)
    requires Decimal(m) + "-" + x == Decimal(n) + "-" + y
    ensures m == n && x == y
  {
    var a, b, s := Decimal(m), Decimal(n), Decimal(m) + "-" + x;
    DecimalRoundTrip(m);
    DecimalRoundTrip(n);
    OneFirstDash(s, |a|, |b|);
    assert a == s[..|a|] && b == (b + "-" + y)[..|b|];
    assert x == s[|a| + 1..] && y == (b + "-" + y)[|b| + 1..];
    DecimalInjective(m, n);
  }

  lemma TextInjective(prefix: string, x: Key, y: Key)
    ensures Text(prefix, x) == Text(prefix, y) <==> x == y
  {
    if Text(prefix, x) == Text(prefix, y) {
      var rest := Text(prefix, x)[|prefix| + 1..];
      assert rest == Text(prefix, y)[|prefix| + 1..];
      Rest(prefix, x);
      Rest(prefix, y);
      if x.Warmup? && y.Warmup? {
        assert Decimal(x.worker) + "-" + Decimal(x.i) == rest[7..];
        assert Decimal(y.worker) + "-" + Decimal(y.i) == rest[7..];
        SplitAtDash(x.worker, Decimal(x.i), y.worker, Decimal(y.i));
        DecimalInjective(x.i, y.i);
      } else if x.Formal? && y.Formal? {
        DecimalInjective(x.idx, y.idx);
      }
    }
  }

  /** What follows the prefix and its dash: digits for a formal object, a word for a warmup. */
  lemma Rest(prefix: string, key: Key)
    ensures |Text(prefix, key)| > |prefix| + 1
    ensures var rest := Text(prefix, key)[|prefix| + 1..];
      && Text(prefix, key) == prefix + "-" + rest
      && rest == (match key
        case Warmup(w, i) => "warmup-" + (Decimal(w) + "-" + Decimal(i))
        case Formal(idx) => Decimal(idx))
      && (IsDecimal(rest[0]) <==> key.Formal?)
  {
    if key.Formal? {
      DecimalRoundTrip(key.idx);
    }
  }

  /** No object name is used twice, by warmups or formal puts, whatever the prefix. */
  lemma KeysAreDistinct(c: Config, s: State, prefix: string, j: nat, k: nat)
    requires Reachable(c, s) && c.total + c.workers < UINT64
    requires j < k < |s.keys|
    ensures Text(prefix, s.keys[j]) != Text(prefix, s.keys[k])
  {
    ReachableKeeps(c, s);
    TextInjective(prefix, s.keys[j], s.keys[k]);
  }
}
