/**
  The pool's promises, for every reachable state of every run with any number of threads.
 */
module PoolTheorems {
  import opened PoolSpec
  import opened PoolLedger
  import opened PoolMachine
  import opened PoolSafety

  /** The place l holds the buffer at address d. */
  ghost predicate HeldAt(s: State, l: Loc, d: nat) {
    l in PartsOf(s).Of(l) && PartsOf(s).Of(l)[l].data == d
  }

  /** An address is live exactly when something holds it, and then exactly one thing does. */
  lemma ExactlyOneHolder(c: Config, s: State, d: nat)
    requires Reachable(c, s)
    ensures d in s.live <==> exists l :: HeldAt(s, l, d)
    ensures forall l, k :: HeldAt(s, l, d) && HeldAt(s, k, d) ==> l == k
  {
    ReachableInv(c, s);
    forall l | HeldAt(s, l, d)
      ensures d in s.live && s.where[d] == l
    {
      assert l in PartsOf(s).Holders();
    }
    if d in s.live {
      assert HeldAt(s, s.where[d], d);
    }
  }

  /** Nothing is freed or deregistered twice, and nothing is freed while registered. */
  lemma NeverWrong(c: Config, s: State)
    requires Reachable(c, s)
    ensures !s.bad
  {
    ReachableInv(c, s);
  }

  lemma OwnerFacts(c: Config, s: State, l: Loc)
    requires Inv(c, s) && Owns(PartsOf(s), l)
    ensures l in PartsOf(s).Of(l)
    ensures var b := PartsOf(s).Of(l)[l];
      && b.data in s.live && s.live[b.data] == b.capacity
      && b.mr in s.mrs && s.mrs[b.mr] == b.data
  {
    assert l in PartsOf(s).Owners();
    assert l in PartsOf(s).Holders();
  }

  lemma HoldersDiffer(c: Config, s: State, l: Loc, k: Loc)
    requires Inv(c, s) && l != k
    requires Owns(PartsOf(s), l) && Owns(PartsOf(s), k)
    ensures l in PartsOf(s).Of(l) && k in PartsOf(s).Of(k)
    ensures PartsOf(s).Of(l)[l].data != PartsOf(s).Of(k)[k].data
    ensures PartsOf(s).Of(l)[l].mr != PartsOf(s).Of(k)[k].mr
  {
    OwnerFacts(c, s, l);
    OwnerFacts(c, s, k);
    assert l in PartsOf(s).Holders() && k in PartsOf(s).Holders();
  }

  /** Bucket i: bounded, of the class's true size, registered, and no entry twice anywhere. */
  lemma BucketIndex(c: Config, s: State, i: nat, j: nat)
    requires Reachable(c, s)
    requires i < |s.free| && j < |s.free[i]|
    ensures |s.free| == |c.classes| && |s.free[i]| <= c.maxPerClass
    ensures var b := s.free[i][j];
      && b.capacity == c.classes[i]
      && b.data in s.live && s.live[b.data] == c.classes[i]
      && b.mr in s.mrs && s.mrs[b.mr] == b.data
    ensures forall i', j' :: 0 <= i' < |s.free| && 0 <= j' < |s.free[i']| && (i', j') != (i, j) ==>
      s.free[i'][j'].data != s.free[i][j].data && s.free[i'][j'].mr != s.free[i][j].mr
  {
    ReachableInv(c, s);
    assert BucketSized(c, s.free[i], c.classes[i]);
    OwnerFacts(c, s, InFree(i, j));
    forall i', j' | 0 <= i' < |s.free| && 0 <= j' < |s.free[i']| && (i', j') != (i, j)
      ensures s.free[i'][j'].data != s.free[i][j].data && s.free[i'][j'].mr != s.free[i][j].mr
    {
      HoldersDiffer(c, s, InFree(i, j), InFree(i', j'));
    }
  }

  /**
    A lease covers what was asked for, with the least class capacity that does or exactly the size,
    and shares neither memory nor registration with any other lease.
   */
  lemma LeaseIsGood(c: Config, s: State, slot: Slot)
    requires Reachable(c, s) && Sorted(c.classes)
    requires slot in s.leases
    ensures var lease := s.leases[slot];
      var b := lease.buf;
      && b.capacity >= lease.asked > 0
      && (b.capacity in c.classes || b.capacity == lease.asked)
      && (forall k :: k in c.classes && k >= lease.asked ==> b.capacity <= k)
      && ((exists k :: k in c.classes && k >= lease.asked) ==> b.capacity in c.classes)
      && b.data in s.live && s.live[b.data] == b.capacity
      && b.mr in s.mrs && s.mrs[b.mr] == b.data
    ensures forall other :: other in s.leases && other != slot ==>
      s.leases[other].buf.data != s.leases[slot].buf.data && s.leases[other].buf.mr != s.leases[slot].buf.mr
  {
    ReachableInv(c, s);
    PickIsLeast(c.classes, s.leases[slot].asked);
    OwnerFacts(c, s, InLease(slot));
    forall other | other in s.leases && other != slot
      ensures s.leases[other].buf.data != s.leases[slot].buf.data
      ensures s.leases[other].buf.mr != s.leases[slot].buf.mr
    {
      HoldersDiffer(c, s, InLease(slot), InLease(other));
    }
  }

  // ---- Shutdown ----

  /** After the exchange, only a Release that had read the flag before it can still reach a bucket. */
  lemma LateReleasesStayOut(c: Config, s: State, t: Tid)
    requires Reachable(c, s) && !s.phase.NotStarted?
    requires PcOf(s, t).RelLock?
    ensures t in s.early
  {
    ReachableInv(c, s);
    assert t in Waiting(s.threads);
  }

  ghost predicate WithinBudget(s: State) {
    !s.phase.NotStarted? ==> Strays(s) + |s.pending| <= |s.early|
  }

  lemma StraysUpdate(free: seq<seq<CachedBuffer>>, n: nat, i: nat, list: seq<CachedBuffer>)
    requires n <= |free| && i < |free|
    ensures TotalLength(free[i := list][..n]) ==
      if i < n then TotalLength(free[..n]) - |free[i]| + |list| else TotalLength(free[..n])
  {
    if i < n {
      assert free[i := list][..n] == free[..n][i := list];
      TotalUpdate(free[..n], i, list);
    } else {
      assert free[i := list][..n] == free[..n];
    }
  }

  /** From s to s', an early Release at most trades its one chance for a stray. */
  ghost predicate Spends(s: State, s': State) {
    && !s.phase.NotStarted? && !s'.phase.NotStarted?
    && s'.early == s.early
    && Strays(s') + |s'.pending| <= Strays(s) + |s.pending|
  }

  lemma SameBudget(s: State, s': State)
    requires !s.phase.NotStarted? && !s'.phase.NotStarted?
    requires s'.free == s.free && DrainedCount(s') == DrainedCount(s)
    requires s'.early == s.early && s'.pending == s.pending
    ensures Spends(s, s')
  {
  }

  lemma TakeBudget(s: State, t: Tid, slot: Slot, i: nat, size: nat)
    requires !s.phase.NotStarted? && PhaseInRange(s.phase, s.drain, |s.free|)
    requires i < |s.free| && s.free[i] != []
    ensures Spends(s, Take(s, t, slot, i, size))
  {
    StraysUpdate(s.free, DrainedCount(s), i, s.free[i][..|s.free[i]| - 1]);
  }

  lemma PutBudget(s: State, t: Tid, buf: CachedBuffer, i: nat)
    requires !s.phase.NotStarted? && PhaseInRange(s.phase, s.drain, |s.free|)
    requires i < |s.free| && t in s.pending
    ensures Spends(s, Put(s.(pending := s.pending - {t}), t, buf, i))
  {
    StraysUpdate(s.free, DrainedCount(s), i, s.free[i] + [buf]);
  }

  lemma DrainBudget(s: State, t: Tid)
    requires CanDrain(s, t)
    ensures Spends(s, ShutdownDrainStep(s, t))
  {
    var i := s.phase.next;
    if i < |s.free| {
      var free' := s.free[i := []];
      assert free'[..i + 1][..i] == s.free[..i];
      assert TotalLength(free'[..i + 1]) == TotalLength(s.free[..i]) + |free'[..i + 1][i]|;
    }
  }

  lemma LeaveBudget(s: State, t: Tid, pc: Pc)
    requires !s.phase.NotStarted?
    ensures Spends(s, Goto(s.(pending := s.pending - {t}), t, pc))
  {
  }

  lemma TakeSpends(c: Config, s: State, t: Tid, slot: Slot)
    requires Shape(c, s) && CanTake(c, s, t, slot) && !s.phase.NotStarted?
    ensures Spends(s, AcquireTakeStep(c, s, t, slot))
  {
    var size := PcOf(s, t).size;
    var i := Class(c, size);
    if s.free[i] != [] {
      TakeBudget(s, t, slot, i, size);
    } else {
      SameBudget(s, AcquireTakeStep(c, s, t, slot));
    }
  }

  lemma AllocSpends(c: Config, s: State, t: Tid, address: nat)
    requires PcOf(s, t).AcqAlloc? && !s.phase.NotStarted?
    ensures Spends(s, AcquireAllocStep(c, s, t, address))
  {
    SameBudget(s, AcquireAllocStep(c, s, t, address));
  }

  lemma RegisterSpends(c: Config, s: State, t: Tid, handle: nat, slot: Slot)
    requires PcOf(s, t).AcqRegister? && !s.phase.NotStarted?
    ensures Spends(s, AcquireRegisterStep(c, s, t, handle, slot))
  {
    SameBudget(s, AcquireRegisterStep(c, s, t, handle, slot));
  }

  lemma AcquireSpends(c: Config, s: State, a: Step)
    requires Enabled(c, s, a) && !s.phase.NotStarted?
    requires a.AcquireReadFlag? || a.AcquireAlloc? || a.AcquireRegister?
    ensures Spends(s, Do(c, s, a))
  {
    match a
    case AcquireReadFlag(t) => SameBudget(s, AcquireReadFlagStep(s, t));
    case AcquireAlloc(t, address) => AllocSpends(c, s, t, address);
    case AcquireRegister(t, handle, slot) => RegisterSpends(c, s, t, handle, slot);
  }

  lemma OthersSpend(c: Config, s: State, a: Step)
    requires Shape(c, s) && Enabled(c, s, a) && !s.phase.NotStarted?
    requires a.Spawn? || a.AcquireStart? || a.AcquireUndo? || a.LeaseMove?
    ensures Spends(s, Do(c, s, a))
  {
    SameBudget(s, Do(c, s, a));
  }

  lemma ReleaseSpends(c: Config, s: State, a: Step)
    requires Shape(c, s) && Enabled(c, s, a) && !s.phase.NotStarted?
    requires a.ReleaseStart? || a.ReleaseReadFlag? || a.ReleasePut? || a.ReleaseDereg? || a.ReleaseFree?
    ensures Spends(s, Do(c, s, a))
  {
    if a.ReleasePut? {
      var t := a.t;
      var buf, i := PcOf(s, t).buf, PcOf(s, t).cls;
      assert t in s.pending;
      if |s.free[i]| >= c.maxPerClass {
        LeaveBudget(s, t, RelDereg(buf));
      } else {
        PutBudget(s, t, buf, i);
      }
    } else {
      SameBudget(s, Do(c, s, a));
    }
  }

  lemma ShutdownSpends(c: Config, s: State, a: Step)
    requires Shape(c, s) && Enabled(c, s, a) && !s.phase.NotStarted?
    requires a.ShutdownStart? || a.ShutdownExchange? || a.ShutdownDrain? || a.ShutdownDereg? || a.ShutdownFree?
    ensures Spends(s, Do(c, s, a))
  {
    if a.ShutdownDrain? {
      DrainBudget(s, a.t);
    } else {
      SameBudget(s, Do(c, s, a));
    }
  }

  lemma StepSpends(c: Config, s: State, a: Step)
    requires Shape(c, s) && Enabled(c, s, a) && !s.phase.NotStarted?
    ensures Spends(s, Do(c, s, a))
  {
    if a.ShutdownStart? || a.ShutdownExchange? || a.ShutdownDrain? || a.ShutdownDereg? || a.ShutdownFree? {
      ShutdownSpends(c, s, a);
    } else if a.ReleaseStart? || a.ReleaseReadFlag? || a.ReleasePut? || a.ReleaseDereg? || a.ReleaseFree? {
      ReleaseSpends(c, s, a);
    } else if a.Spawn? || a.AcquireStart? || a.AcquireUndo? || a.LeaseMove? {
      OthersSpend(c, s, a);
    } else if a.AcquireTake? {
      TakeSpends(c, s, a.t, a.slot);
    } else {
      AcquireSpends(c, s, a);
    }
  }

  lemma {:induction false} RunSpends(c: Config, s: State, steps: seq<Step>, s': State)
    requires Shape(c, s) && !s.phase.NotStarted? && Leads(c, s, steps, s')
    ensures Shape(c, s') && Spends(s, s')
    decreases |steps|
  {
    if steps != [] {
      var mid := Do(c, s, steps[0]);
      StepShape(c, s, steps[0]);
      StepSpends(c, s, steps[0]);
      RunSpends(c, mid, steps[1..], s');
    }
  }

  lemma ExchangeStarts(s: State, t: Tid)
    requires s.phase.NotStarted? && PcOf(s, t).ShutCas?
    ensures var s' := ShutdownExchangeStep(s, t);
      Strays(s') == 0 && s'.phase == Draining(t, 0) && s'.pending == s'.early == Waiting(s.threads)
  {
  }

  lemma AcquireStartsNothing(c: Config, s: State, a: Step)
    requires Enabled(c, s, a) && s.phase.NotStarted?
    requires a.Spawn? || a.AcquireStart? || a.AcquireReadFlag? || a.AcquireTake? || a.AcquireUndo?
    ensures Do(c, s, a).phase == s.phase
  {
  }

  lemma AllocStartsNothing(c: Config, s: State, a: Step)
    requires Enabled(c, s, a) && s.phase.NotStarted? && (a.AcquireAlloc? || a.AcquireRegister? || a.LeaseMove?)
    ensures Do(c, s, a).phase == s.phase
  {
  }

  lemma ReleaseStartsNothing(c: Config, s: State, a: Step)
    requires Enabled(c, s, a) && s.phase.NotStarted?
    requires a.ReleaseStart? || a.ReleaseReadFlag? || a.ReleasePut? || a.ReleaseDereg? || a.ReleaseFree?
    ensures Do(c, s, a).phase == s.phase
  {
  }

  lemma OnlyExchangeStarts(c: Config, s: State, a: Step)
    requires Enabled(c, s, a) && s.phase.NotStarted? && !a.ShutdownExchange?
    ensures Do(c, s, a).phase.NotStarted?
  {
    if a.Spawn? || a.AcquireStart? || a.AcquireReadFlag? || a.AcquireTake? || a.AcquireUndo? {
      AcquireStartsNothing(c, s, a);
    } else if a.AcquireAlloc? || a.AcquireRegister? || a.LeaseMove? {
      AllocStartsNothing(c, s, a);
    } else if !a.ShutdownStart? && !a.ShutdownDrain? && !a.ShutdownDereg? && !a.ShutdownFree? {
      ReleaseStartsNothing(c, s, a);
    }
  }

  lemma StepBounded(c: Config, s: State, a: Step)
    requires Shape(c, s) && Enabled(c, s, a) && WithinBudget(s)
    ensures WithinBudget(Do(c, s, a))
  {
    if !s.phase.NotStarted? {
      StepSpends(c, s, a);
    } else if a.ShutdownExchange? {
      ExchangeStarts(s, a.t);
    } else {
      OnlyExchangeStarts(c, s, a);
    }
  }

  /** From the exchange on, strays never outnumber the Releases that were past their flag read. */
  lemma {:induction false} StraysBounded(c: Config, s: State, steps: seq<Step>, s': State)
    requires Shape(c, s) && WithinBudget(s) && Leads(c, s, steps, s')
    ensures WithinBudget(s')
    decreases |steps|
  {
    if steps != [] {
      StepShape(c, s, steps[0]);
      StepBounded(c, s, steps[0]);
      StraysBounded(c, Do(c, s, steps[0]), steps[1..], s');
    }
  }

  /** With no Release caught at the exchange, every bucket is empty once drained and stays empty. */
  lemma ShutdownDrains(c: Config, s: State)
    requires Reachable(c, s)
    requires !s.phase.NotStarted? && s.early == {} && DrainedCount(s) == |s.free|
    ensures forall i :: 0 <= i < |s.free| ==> s.free[i] == []
  {
    InitHolds(c);
    var steps :| Leads(c, Init(c), steps, s);
    StraysBounded(c, Init(c), steps, s);
    assert s.free[..|s.free|] == s.free;
    TotalZero(s.free);
  }

  // ---- What is left once everyone is done ----

  function AddressesIn(list: seq<CachedBuffer>): set<nat> {
    set j | 0 <= j < |list| :: list[j].data
  }

  function AddressesOf(lists: seq<seq<CachedBuffer>>): set<nat> {
    if lists == [] then {} else AddressesOf(lists[..|lists| - 1]) + AddressesIn(lists[|lists| - 1])
  }

  lemma {:induction false} InCount(list: seq<CachedBuffer>)
    ensures |AddressesIn(list)| <= |list|
  {
    if list != [] {
      var n := |list| - 1;
      InCount(list[..n]);
      assert AddressesIn(list) == AddressesIn(list[..n]) + {list[n].data} by {
        forall d | d in AddressesIn(list)
          ensures d in AddressesIn(list[..n]) + {list[n].data}
        {
          var j :| 0 <= j < |list| && list[j].data == d;
          if j < n {
            assert list[..n][j].data == d;
          }
        }
        forall d | d in AddressesIn(list[..n])
          ensures d in AddressesIn(list)
        {
          var j :| 0 <= j < n && list[..n][j].data == d;
          assert list[j].data == d;
        }
      }
    }
  }

  lemma {:induction false} OfCount(lists: seq<seq<CachedBuffer>>)
    ensures |AddressesOf(lists)| <= TotalLength(lists)
    ensures forall i, j :: 0 <= i < |lists| && 0 <= j < |lists[i]| ==> lists[i][j].data in AddressesOf(lists)
  {
    if lists != [] {
      var n := |lists| - 1;
      OfCount(lists[..n]);
      InCount(lists[n]);
      forall i, j | 0 <= i < |lists| && 0 <= j < |lists[i]|
        ensures lists[i][j].data in AddressesOf(lists)
      {
        if i < n {
          assert lists[..n][i][j].data in AddressesOf(lists[..n]);
        }
      }
    }
  }

  /** The shutdown has finished, no call is in flight and every lease has been dropped. */
  predicate Quiet(s: State) {
    && s.phase.Finished?
    && s.leases == map[]
    && forall t :: t in s.threads ==> s.threads[t].Idle?
  }

  /** All memory then still live sits in a bucket, so there is no more of it than early Releases. */
  lemma LeakBounded(c: Config, s: State)
    requires Reachable(c, s) && Quiet(s)
    ensures |s.live| <= Strays(s) <= |s.early|
    ensures s.early == {} ==> s.live == map[] && s.mrs == map[]
  {
    ReachableInv(c, s);
    InitHolds(c);
    var steps :| Leads(c, Init(c), steps, s);
    StraysBounded(c, Init(c), steps, s);
    assert s.free[..|s.free|] == s.free;
    OfCount(s.free);
    assert s.live.Keys <= AddressesOf(s.free) by {
      forall d | d in s.live
        ensures d in AddressesOf(s.free)
      {
        QuietHolder(c, s, d);
      }
    }
    CardinalityMonotone(s.live.Keys, AddressesOf(s.free));
    if s.early == {} {
      NothingRegistered(s);
    }
  }

  lemma NothingRegistered(s: State)
    requires Balanced(s) && s.live == map[]
    ensures s.mrs == map[]
  {
    forall m
      ensures m !in s.mrs
    {
    }
  }

  lemma QuietHolder(c: Config, s: State, d: nat)
    requires Inv(c, s) && Quiet(s) && d in s.live
    ensures exists i, j :: 0 <= i < |s.free| && 0 <= j < |s.free[i]| && s.free[i][j].data == d
  {
    var l := s.where[d];
    assert l in PartsOf(s).Holders();
    assert l.InFree?;
    assert s.free[l.i][l.j].data == d;
  }

  lemma {:induction false} CardinalityMonotone<T>(a: set<T>, b: set<T>)
    requires a <= b
    ensures |a| <= |b|
  {
    assert b == a + (b - a);
    assert |b| == |a| + |b - a|;
  }

  // ---- Exactly when a shutdown can leave something behind ----

  /** The winner can always empty the remaining buckets while everyone else stands still. */
  lemma {:induction false} DrainAll(c: Config, s: State, t: Tid) returns (steps: seq<Step>, s': State)
    requires Shape(c, s) && CanDrain(s, t) && s.phase.winner == t
    requires forall i :: 0 <= i < s.phase.next ==> s.free[i] == []
    ensures Leads(c, s, steps, s')
    ensures Shape(c, s') && s'.phase == Draining(t, |s'.free|) && |s'.free| == |s.free|
    ensures forall i :: 0 <= i < |s'.free| ==> s'.free[i] == []
    ensures s'.threads == s.threads && s'.pending == s.pending
    decreases |s.free| - s.phase.next
  {
    if s.phase.next == |s.free| {
      steps, s' := [], s;
    } else {
      var a := ShutdownDrain(t);
      var mid := Do(c, s, a);
      StepShape(c, s, a);
      var rest;
      rest, s' := DrainAll(c, mid, t);
      steps := [a] + rest;
    }
  }

  /** A Release caught between its flag read and its bucket can then still put its buffer there. */
  lemma LatePut(c: Config, s: State, t: Tid)
    requires Shape(c, s) && c.maxPerClass > 0
    requires s.phase.Draining? && s.phase.next == |s.free| && PcOf(s, t).RelLock?
    requires forall i :: 0 <= i < |s.free| ==> s.free[i] == []
    ensures Enabled(c, s, ReleasePut(t))
    ensures Strays(Do(c, s, ReleasePut(t))) > 0
  {
    PcFacts(c, s, t);
    var i, buf := PcOf(s, t).cls, PcOf(s, t).buf;
    StraysUpdate(s.free, |s.free|, i, [buf]);
    assert s.free[i] + [buf] == [buf];
  }

  lemma {:induction false} LeadsAppend(c: Config, s: State, steps: seq<Step>, s': State, a: Step)
    requires Leads(c, s, steps, s') && Enabled(c, s', a)
    ensures Leads(c, s, steps + [a], Do(c, s', a))
    decreases |steps|
  {
    if steps == [] {
      assert steps + [a] == [a] && [a][1..] == [];
    } else {
      LeadsAppend(c, Do(c, s, steps[0]), steps[1..], s', a);
      assert (steps + [a])[1..] == steps[1..] + [a];
    }
  }

  lemma {:induction false} LeadsOn(c: Config, s: State, first: seq<Step>, mid: State, rest: seq<Step>, s': State)
    requires Leads(c, s, first, mid) && Leads(c, mid, rest, s')
    ensures Leads(c, s, first + rest, s')
    decreases |first|
  {
    if first == [] {
      assert first + rest == rest;
    } else {
      LeadsOn(c, Do(c, s, first[0]), first[1..], mid, rest, s');
      assert (first + rest)[1..] == first[1..] + rest;
    }
  }

  /** The winner destroys one entry of its list. */
  lemma DestroyNext(c: Config, s: State, t: Tid, k: nat) returns (s': State)
    requires PcOf(s, t).ShutWinner? && s.phase == Deregistering(t, k) && k < |s.drain|
    ensures Leads(c, s, [ShutdownDereg(t), ShutdownFree(t)], s')
    ensures PcOf(s', t).ShutWinner? && s'.phase == Deregistering(t, k + 1)
    ensures s'.free == s.free && s'.drain == s.drain
  {
    var mid := ShutdownDeregStep(s, t);
    s' := ShutdownFreeStep(mid, t);
    assert [ShutdownDereg(t), ShutdownFree(t)][1..] == [ShutdownFree(t)];
    assert [ShutdownFree(t)][1..] == [];
    assert Leads(c, mid, [ShutdownFree(t)], s');
  }

  /** And so all of them, whatever has come into the buckets meanwhile. */
  lemma {:induction false} DestroyRest(c: Config, s: State, t: Tid, k: nat) returns (steps: seq<Step>, s': State)
    requires PcOf(s, t).ShutWinner? && s.phase == Deregistering(t, k) && k <= |s.drain|
    ensures Leads(c, s, steps, s') && s'.phase.Finished? && s'.free == s.free
    decreases |s.drain| - k
  {
    if k == |s.drain| {
      steps, s' := [ShutdownDereg(t)], ShutdownDeregStep(s, t);
      assert steps[1..] == [];
    } else {
      var mid := DestroyNext(c, s, t, k);
      var rest;
      rest, s' := DestroyRest(c, mid, t, k + 1);
      steps := [ShutdownDereg(t), ShutdownFree(t)] + rest;
      LeadsOn(c, s, [ShutdownDereg(t), ShutdownFree(t)], mid, rest, s');
    }
  }

  lemma FinishShutdown(c: Config, s: State, t: Tid) returns (steps: seq<Step>, s': State)
    requires PcOf(s, t).ShutWinner? && s.phase == Draining(t, |s.free|)
    ensures Leads(c, s, steps, s') && s'.phase.Finished? && Strays(s') == Strays(s)
  {
    var a := ShutdownDrain(t);
    var mid := ShutdownDrainStep(s, t);
    var rest;
    rest, s' := DestroyRest(c, mid, t, 0);
    steps := [a] + rest;
    assert steps[1..] == rest;
    assert s'.free[..|s'.free|] == s.free[..|s.free|];
  }

  /** Some run from s ends with the shutdown finished and a buffer in a bucket that it had emptied. */
  ghost predicate CanLeaveStray(c: Config, s: State) {
    exists steps, s' :: Leads(c, s, steps, s') && s'.phase.Finished? && Strays(s') > 0
  }

  lemma NoRoomNoStray(c: Config, s: State)
    requires Shape(c, s) && c.maxPerClass == 0
    ensures Strays(s) == 0
  {
    forall i | 0 <= i < |s.free|
      ensures s.free[i] == []
    {
      assert BucketSized(c, s.free[i], c.classes[i]);
    }
    TotalZero(s.free[..DrainedCount(s)]);
  }

  /**
    Seen from the moment its exchange succeeds, a shutdown may still end with a buffer in an emptied
    bucket if and only if some Release is between its flag read and its bucket, and buckets hold
    anything at all.
   */
  lemma StrayExactly(c: Config, s: State, t: Tid)
    requires Reachable(c, s) && s.phase.NotStarted? && PcOf(s, t).ShutCas?
    ensures CanLeaveStray(c, Do(c, s, ShutdownExchange(t))) <==> Waiting(s.threads) != {} && c.maxPerClass > 0
  {
    ReachableInv(c, s);
    var started := Do(c, s, ShutdownExchange(t));
    StepShape(c, s, ShutdownExchange(t));
    ExchangeStarts(s, t);
    if CanLeaveStray(c, started) {
      var steps, s' :| Leads(c, started, steps, s') && s'.phase.Finished? && Strays(s') > 0;
      RunSpends(c, started, steps, s');
      if c.maxPerClass == 0 {
        NoRoomNoStray(c, s');
      }
    }
    if Waiting(s.threads) != {} && c.maxPerClass > 0 {
      var r :| r in Waiting(s.threads);
      assert r in Waiting(started.threads);
      StrayFrom(c, started, t, r);
    }
  }

  /** The winner empties the buckets, the late Release puts its buffer into one, and the winner finishes. */
  lemma StrayFrom(c: Config, s: State, t: Tid, r: Tid)
    requires Shape(c, s) && c.maxPerClass > 0 && s.phase == Draining(t, 0)
    requires PcOf(s, t).ShutWinner? && r in Waiting(s.threads)
    ensures CanLeaveStray(c, s)
  {
    var drains, drained := DrainAll(c, s, t);
    LatePut(c, drained, r);
    LeadsAppend(c, s, drains, drained, ReleasePut(r));
    var put := Do(c, drained, ReleasePut(r));
    PutLeavesWinner(c, drained, t, r);
    var rest, s' := FinishShutdown(c, put, t);
    LeadsOn(c, s, drains + [ReleasePut(r)], put, rest, s');
  }

  lemma PutLeavesWinner(c: Config, s: State, t: Tid, r: Tid)
    requires CanPut(s, r) && PcOf(s, t).ShutWinner?
    ensures var s' := ReleasePutStep(c, s, r);
      PcOf(s', t).ShutWinner? && s'.phase == s.phase && |s'.free| == |s.free|
  {
  }

  lemma ReachableStep(c: Config, s: State, a: Step)
    requires Reachable(c, s) && Enabled(c, s, a)
    ensures Reachable(c, Do(c, s, a))
  {
    var steps :| Leads(c, Init(c), steps, s);
    LeadsAppend(c, Init(c), steps, s, a);
  }

  lemma InitReachable(c: Config)
    ensures Reachable(c, Init(c))
  {
    assert Leads(c, Init(c), [], Init(c));
  }

  /** Nothing has been allocated or leased yet, and thread 0 stands at pc. */
  ghost predicate Fresh(c: Config, s: State, pc: Pc) {
    && Reachable(c, s) && s.phase.NotStarted? && s.threads == map[0 := pc]
    && s.leases == map[] && s.live == map[] && s.mrs == map[] && s.free == seq(|c.classes|, _ => [])
  }

  lemma FreshStep(c: Config, s: State, a: Step, from: Pc, to: Pc)
    requires Fresh(c, s, from) && Enabled(c, s, a)
    requires Do(c, s, a) == s.(threads := map[0 := to])
    ensures Fresh(c, Do(c, s, a), to)
  {
    ReachableStep(c, s, a);
  }

  /** Thread 0 has looked into an empty bucket. */
  lemma MissIsReached(c: Config, size: nat) returns (s: State)
    requires size > 0 && PickClass(c.classes, size) < |c.classes|
    ensures Fresh(c, s, AcqAlloc(size))
  {
    InitReachable(c);
    ReachableStep(c, Init(c), Spawn(0));
    var s1 := Do(c, Init(c), Spawn(0));
    FreshStep(c, s1, AcquireStart(0, size), Idle, AcqFlag(size));
    var s2 := Do(c, s1, AcquireStart(0, size));
    FreshStep(c, s2, AcquireReadFlag(0), AcqFlag(size), AcqLock(size));
    var s3 := Do(c, s2, AcquireReadFlag(0));
    FreshStep(c, s3, AcquireTake(0, 0), AcqLock(size), AcqAlloc(size));
    s := Do(c, s3, AcquireTake(0, 0));
  }

  /** Thread 0 has a freshly allocated lease in slot 0. */
  lemma LeaseIsReached(c: Config, size: nat) returns (s: State)
    requires size > 0 && PickClass(c.classes, size) < |c.classes|
    ensures Reachable(c, s) && s.phase.NotStarted? && s.threads == map[0 := Idle]
    ensures s.leases.Keys == {0} && s.leases[0].cls == PickClass(c.classes, size) && |s.free| == |c.classes|
  {
    var s0 := MissIsReached(c, size);
    ReachableStep(c, s0, AcquireAlloc(0, 1));
    var s1 := Do(c, s0, AcquireAlloc(0, 1));
    ReachableStep(c, s1, AcquireRegister(0, 1, 0));
    s := Do(c, s1, AcquireRegister(0, 1, 0));
  }

  /**
    With any class to serve and any room in buckets, a Shutdown can meet a Release between its flag
    read and its bucket, and so leave a buffer behind.
   */
  lemma StrayIsReached(c: Config, size: nat) returns (s: State)
    requires size > 0 && PickClass(c.classes, size) < |c.classes| && c.maxPerClass > 0
    ensures Reachable(c, s) && s.phase.NotStarted? && PcOf(s, 1).ShutCas? && 0 in Waiting(s.threads)
    ensures CanLeaveStray(c, Do(c, s, ShutdownExchange(1)))
  {
    var s0 := LeaseIsReached(c, size);
    ReachableStep(c, s0, ReleaseStart(0, 0));
    var s1 := Do(c, s0, ReleaseStart(0, 0));
    ReachableStep(c, s1, ReleaseReadFlag(0));
    var s2 := Do(c, s1, ReleaseReadFlag(0));
    ReachableStep(c, s2, Spawn(1));
    var s3 := Do(c, s2, Spawn(1));
    ReachableStep(c, s3, ShutdownStart(1));
    s := Do(c, s3, ShutdownStart(1));
    StrayExactly(c, s, 1);
  }
}
