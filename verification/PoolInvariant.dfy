/** Every step of the concurrent pool keeps its invariant. */
module PoolInvariant {
  import opened Options
  import opened PoolSpec
  import opened PoolLedger
  import opened PoolMachine

  // ---- One component of the state at a time ----

  lemma CallsUpdate(threads: map<Tid, Pc>, t: Tid, pc: Pc)
    ensures InFlight(pc).Some? ==>
      CallHolders(threads[t := pc]) == CallHolders(threads)[InCall(t) := InFlight(pc).value]
    ensures InFlight(pc).None? ==> CallHolders(threads[t := pc]) == CallHolders(threads) - {InCall(t)}
    ensures CallOwners(threads[t := pc]) ==
      if OwnsRegistration(pc) then CallOwners(threads) + iset{InCall(t)} else CallOwners(threads) - iset{InCall(t)}
  {
  }

  /** A thread that holds the same as before leaves the holders as they were. */
  lemma CallsSame(threads: map<Tid, Pc>, t: Tid, pc: Pc)
    requires InFlight(pc) == if t in threads then InFlight(threads[t]) else None
    requires OwnsRegistration(pc) == (t in threads && OwnsRegistration(threads[t]))
    ensures CallHolders(threads[t := pc]) == CallHolders(threads)
    ensures CallOwners(threads[t := pc]) == CallOwners(threads)
  {
  }

  lemma LeasesAdd(leases: map<Slot, Lease>, slot: Slot, lease: Lease)
    ensures LeaseHolders(leases[slot := lease]) == LeaseHolders(leases)[InLease(slot) := lease.buf]
  {
  }

  lemma LeasesRemove(leases: map<Slot, Lease>, slot: Slot)
    ensures LeaseHolders(leases - {slot}) == LeaseHolders(leases) - {InLease(slot)}
  {
  }

  lemma FreePop(free: seq<seq<CachedBuffer>>, i: nat)
    requires i < |free| && free[i] != []
    ensures FreeHolders(free[i := free[i][..|free[i]| - 1]]) == FreeHolders(free) - {InFree(i, |free[i]| - 1)}
  {
  }

  lemma FreePush(free: seq<seq<CachedBuffer>>, i: nat, b: CachedBuffer)
    requires i < |free|
    ensures FreeHolders(free[i := free[i] + [b]]) == FreeHolders(free)[InFree(i, |free[i]|) := b]
  {
  }

  lemma DrainAdvance(drain: seq<CachedBuffer>, first: nat)
    requires first < |drain|
    ensures DrainHolders(drain, first + 1) == DrainHolders(drain, first) - {InDrain(first)}
    ensures DrainHolders(drain, first + 1).Keys == DrainHolders(drain, first).Keys - iset{InDrain(first)}
  {
  }

  // ---- Step by step: who holds what ----

  /** Steps that change neither holders nor the outside world. */
  lemma SameHolders(s: State, s': State)
    requires Balanced(s)
    requires PartsOf(s') == PartsOf(s)
    requires s'.live == s.live && s'.mrs == s.mrs && s'.where == s.where
    ensures Balanced(s')
  {
  }

  lemma GotoBalanced(s: State, t: Tid, pc: Pc)
    requires Balanced(s)
    requires InFlight(pc) == InFlight(PcOf(s, t)) && OwnsRegistration(pc) == OwnsRegistration(PcOf(s, t))
    ensures Balanced(Goto(s, t, pc))
  {
    CallsSame(s.threads, t, pc);
    SameHolders(s, Goto(s, t, pc));
  }

  ghost predicate HandsOver(s: State, s': State, from: Loc, to: Loc, b: CachedBuffer) {
    && PartsOf(s') == PartsOf(s).Drop(from).Put(to, b)
    && Holds(PartsOf(s), from, b) && Owns(PartsOf(s), from) && to !in PartsOf(s).Of(to)
    && s'.live == s.live && s'.mrs == s.mrs && s'.where == s.where[b.data := to]
  }

  lemma HandedOver(s: State, s': State, from: Loc, to: Loc, b: CachedBuffer)
    requires Balanced(s) && HandsOver(s, s', from, to, b)
    ensures Balanced(s')
  {
    Moved(PartsOf(s), s.live, s.mrs, s.where, from, to, b);
  }

  lemma TakeMerges(s: State, t: Tid, slot: Slot, i: nat, size: nat)
    requires i < |s.free| && s.free[i] != [] && slot !in s.leases && PcOf(s, t).AcqLock?
    ensures var n := |s.free[i]| - 1;
      PartsOf(Take(s, t, slot, i, size)) == PartsOf(s).Drop(InFree(i, n)).Put(InLease(slot), s.free[i][n])
  {
    var n := |s.free[i]| - 1;
    CallsSame(s.threads, t, Idle);
    FreePop(s.free, i);
    LeasesAdd(s.leases, slot, Lease(s.free[i][n], i, size));
  }

  /** The bucket's last entry becomes the lease in the slot. */
  lemma TakeParts(s: State, t: Tid, slot: Slot, i: nat, size: nat)
    requires i < |s.free| && s.free[i] != [] && slot !in s.leases && PcOf(s, t).AcqLock?
    ensures HandsOver(s, Take(s, t, slot, i, size), InFree(i, |s.free[i]| - 1), InLease(slot),
      s.free[i][|s.free[i]| - 1])
  {
    TakeMerges(s, t, slot, i, size);
  }

  lemma AcquireTakeBalanced(c: Config, s: State, t: Tid, slot: Slot)
    requires Balanced(s) && CanTake(c, s, t, slot)
    ensures Balanced(AcquireTakeStep(c, s, t, slot))
  {
    var size := PcOf(s, t).size;
    var i := Class(c, size);
    if s.free[i] == [] {
      GotoBalanced(s, t, AcqAlloc(size));
    } else {
      var n := |s.free[i]| - 1;
      TakeParts(s, t, slot, i, size);
      HandedOver(s, Take(s, t, slot, i, size), InFree(i, n), InLease(slot), s.free[i][n]);
    }
  }

  lemma AcquireAllocParts(c: Config, s: State, t: Tid, address: nat)
    requires PcOf(s, t).AcqAlloc? && address != 0
    ensures PartsOf(AcquireAllocStep(c, s, t, address)) ==
      PartsOf(s).PutBare(InCall(t), CachedBuffer(address, Capacity(c, PcOf(s, t).size), 0))
  {
    CallsUpdate(s.threads, t, AcqRegister(PcOf(s, t).size, address, Capacity(c, PcOf(s, t).size)));
  }

  lemma AcquireAllocBalanced(c: Config, s: State, t: Tid, address: nat)
    requires Balanced(s) && PcOf(s, t).AcqAlloc? && address !in s.live
    ensures Balanced(AcquireAllocStep(c, s, t, address))
  {
    if address == 0 {
      GotoBalanced(s, t, Idle);
    } else {
      AcquireAllocParts(c, s, t, address);
      Born(PartsOf(s), s.live, s.mrs, s.where, InCall(t), CachedBuffer(address, Capacity(c, PcOf(s, t).size), 0));
    }
  }

  function NewBuffer(s: State, t: Tid, handle: nat): CachedBuffer
    requires PcOf(s, t).AcqRegister?
  {
    CachedBuffer(PcOf(s, t).data, PcOf(s, t).capacity, handle)
  }

  ghost predicate Enrolls(s: State, s': State, from: Loc, to: Loc, bare: CachedBuffer, b: CachedBuffer) {
    && PartsOf(s') == PartsOf(s).Drop(from).Put(to, b)
    && Holds(PartsOf(s), from, bare) && !Owns(PartsOf(s), from) && to !in PartsOf(s).Of(to)
    && b.data == bare.data && b.capacity == bare.capacity && b.mr != 0 && b.mr !in s.mrs
    && s'.live == s.live && s'.mrs == s.mrs[b.mr := b.data] && s'.where == s.where[b.data := to]
  }

  lemma AcquireRegisterParts(c: Config, s: State, t: Tid, handle: nat, slot: Slot)
    requires PcOf(s, t).AcqRegister? && handle != 0 && handle !in s.mrs && slot !in s.leases
    ensures Enrolls(s, AcquireRegisterStep(c, s, t, handle, slot), InCall(t), InLease(slot),
      InFlight(PcOf(s, t)).value, NewBuffer(s, t, handle))
  {
    var s' := AcquireRegisterStep(c, s, t, handle, slot);
    CallsUpdate(s.threads, t, Idle);
    LeasesAdd(s.leases, slot, s'.leases[slot]);
  }

  lemma AcquireRegisterBalanced(c: Config, s: State, t: Tid, handle: nat, slot: Slot)
    requires Balanced(s) && PcOf(s, t).AcqRegister? && handle !in s.mrs && slot !in s.leases
    ensures Balanced(AcquireRegisterStep(c, s, t, handle, slot))
  {
    if handle == 0 {
      GotoBalanced(s, t, AcqUndo(PcOf(s, t).data, PcOf(s, t).capacity));
    } else {
      AcquireRegisterParts(c, s, t, handle, slot);
      Enrolled(PartsOf(s), s.live, s.mrs, s.where, InCall(t), InLease(slot),
        InFlight(PcOf(s, t)).value, NewBuffer(s, t, handle));
    }
  }

  lemma AcquireUndoBalanced(s: State, t: Tid)
    requires Balanced(s) && !s.bad && PcOf(s, t).AcqUndo?
    ensures Balanced(AcquireUndoStep(s, t)) && !AcquireUndoStep(s, t).bad
  {
    var s' := AcquireUndoStep(s, t);
    CallsUpdate(s.threads, t, Idle);
    Died(PartsOf(s), s.live, s.mrs, s.where, InCall(t), InFlight(PcOf(s, t)).value);
    assert PartsOf(s') == PartsOf(s).Drop(InCall(t));
  }

  lemma LeaseMoveParts(s: State, from: Slot, to: Slot)
    requires from in s.leases && to !in s.leases
    ensures HandsOver(s, LeaseMoveStep(s, from, to), InLease(from), InLease(to), s.leases[from].buf)
  {
    LeasesRemove(s.leases, from);
    LeasesAdd(s.leases - {from}, to, s.leases[from]);
  }

  lemma LeaseMoveBalanced(s: State, from: Slot, to: Slot)
    requires Balanced(s) && from in s.leases && to !in s.leases
    ensures Balanced(LeaseMoveStep(s, from, to))
  {
    LeaseMoveParts(s, from, to);
    HandedOver(s, LeaseMoveStep(s, from, to), InLease(from), InLease(to), s.leases[from].buf);
  }

  lemma ReleaseStartParts(s: State, t: Tid, slot: Slot)
    requires IsIdle(s, t) && slot in s.leases
    ensures HandsOver(s, ReleaseStartStep(s, t, slot), InLease(slot), InCall(t), s.leases[slot].buf)
  {
    LeasesRemove(s.leases, slot);
    CallsUpdate(s.threads, t, RelFlag(s.leases[slot].buf, s.leases[slot].cls));
  }

  lemma ReleaseStartBalanced(s: State, t: Tid, slot: Slot)
    requires Balanced(s) && IsIdle(s, t) && slot in s.leases
    ensures Balanced(ReleaseStartStep(s, t, slot))
  {
    ReleaseStartParts(s, t, slot);
    HandedOver(s, ReleaseStartStep(s, t, slot), InLease(slot), InCall(t), s.leases[slot].buf);
  }

  lemma PutParts(s: State, t: Tid, buf: CachedBuffer, i: nat)
    requires i < |s.free| && PcOf(s, t) == RelLock(buf, i)
    ensures HandsOver(s, Put(s, t, buf, i), InCall(t), InFree(i, |s.free[i]|), buf)
  {
    CallsUpdate(s.threads, t, Idle);
    FreePush(s.free, i, buf);
  }

  lemma ReleasePutFull(c: Config, s: State, t: Tid)
    requires CanPut(s, t) && |s.free[PcOf(s, t).cls]| >= c.maxPerClass
    ensures PartsOf(ReleasePutStep(c, s, t)) == PartsOf(s)
  {
    CallsSame(s.threads, t, RelDereg(PcOf(s, t).buf));
  }

  lemma ReleasePutBalanced(c: Config, s: State, t: Tid)
    requires Balanced(s) && CanPut(s, t)
    ensures Balanced(ReleasePutStep(c, s, t))
  {
    var buf, i := PcOf(s, t).buf, PcOf(s, t).cls;
    if |s.free[i]| >= c.maxPerClass {
      ReleasePutFull(c, s, t);
      SameHolders(s, ReleasePutStep(c, s, t));
    } else {
      var s1 := s.(pending := s.pending - {t});
      SameHolders(s, s1);
      PutParts(s1, t, buf, i);
      HandedOver(s1, Put(s1, t, buf, i), InCall(t), InFree(i, |s.free[i]|), buf);
    }
  }

  lemma ReleaseDeregParts(s: State, t: Tid)
    requires PcOf(s, t).RelDereg?
    ensures PartsOf(ReleaseDeregStep(s, t)) == PartsOf(s).Withdraw(InCall(t))
  {
    var b := PcOf(s, t).buf;
    CallsUpdate(s.threads, t, RelFree(b));
    assert CallHolders(s.threads)[InCall(t) := b] == CallHolders(s.threads);
    assert PartsOf(s).drainOwners - iset{InCall(t)} == PartsOf(s).drainOwners;
  }

  lemma ReleaseDeregBalanced(s: State, t: Tid)
    requires Balanced(s) && !s.bad && PcOf(s, t).RelDereg?
    ensures Balanced(ReleaseDeregStep(s, t)) && !ReleaseDeregStep(s, t).bad
  {
    ReleaseDeregParts(s, t);
    Withdrawn(PartsOf(s), s.live, s.mrs, s.where, InCall(t), PcOf(s, t).buf);
  }

  lemma ReleaseFreeBalanced(s: State, t: Tid)
    requires Balanced(s) && !s.bad && PcOf(s, t).RelFree?
    ensures Balanced(ReleaseFreeStep(s, t)) && !ReleaseFreeStep(s, t).bad
  {
    var s' := ReleaseFreeStep(s, t);
    CallsUpdate(s.threads, t, Idle);
    Died(PartsOf(s), s.live, s.mrs, s.where, InCall(t), PcOf(s, t).buf);
    assert PartsOf(s') == PartsOf(s).Drop(InCall(t));
  }

  lemma ShutdownExchangeParts(s: State, t: Tid)
    requires PcOf(s, t).ShutCas? && (s.phase.NotStarted? ==> s.drain == [])
    ensures PartsOf(ShutdownExchangeStep(s, t)) == PartsOf(s)
  {
    CallsSame(s.threads, t, if s.phase.NotStarted? then ShutWinner else Idle);
    assert FirstHeld(ShutdownExchangeStep(s, t)) == FirstHeld(s);
  }

  lemma ShutdownExchangeBalanced(s: State, t: Tid)
    requires Balanced(s) && PcOf(s, t).ShutCas? && (s.phase.NotStarted? ==> s.drain == [])
    ensures Balanced(ShutdownExchangeStep(s, t))
  {
    ShutdownExchangeParts(s, t);
    SameHolders(s, ShutdownExchangeStep(s, t));
  }

  lemma ShutdownDeregParts(s: State, t: Tid)
    requires CanDereg(s, t)
    ensures PartsOf(ShutdownDeregStep(s, t)) ==
      if s.phase.k == |s.drain| then PartsOf(s) else PartsOf(s).Withdraw(InDrain(s.phase.k))
  {
    var k := s.phase.k;
    if k == |s.drain| {
      CallsSame(s.threads, t, Idle);
    } else {
      DrainAdvance(s.drain, k);
      assert CallOwners(s.threads) - iset{InDrain(k)} == CallOwners(s.threads);
    }
  }

  lemma ShutdownDeregBalanced(s: State, t: Tid)
    requires Balanced(s) && !s.bad && CanDereg(s, t)
    ensures Balanced(ShutdownDeregStep(s, t)) && !ShutdownDeregStep(s, t).bad
  {
    var k := s.phase.k;
    ShutdownDeregParts(s, t);
    if k < |s.drain| {
      Withdrawn(PartsOf(s), s.live, s.mrs, s.where, InDrain(k), s.drain[k]);
    }
  }

  lemma ShutdownFreeParts(s: State, t: Tid)
    requires CanFree(s, t)
    ensures PartsOf(ShutdownFreeStep(s, t)) == PartsOf(s).Drop(InDrain(s.phase.k))
  {
    var k := s.phase.k;
    DrainAdvance(s.drain, k);
    assert InDrain(k) !in PartsOf(s).drainOwners;
    assert PartsOf(s).drainOwners - iset{InDrain(k)} == PartsOf(s).drainOwners;
  }

  lemma ShutdownFreeBalanced(s: State, t: Tid)
    requires Balanced(s) && !s.bad && CanFree(s, t)
    ensures Balanced(ShutdownFreeStep(s, t)) && !ShutdownFreeStep(s, t).bad
  {
    var k := s.phase.k;
    ShutdownFreeParts(s, t);
    Died(PartsOf(s), s.live, s.mrs, s.where, InDrain(k), s.drain[k]);
  }

  /** Where a holder is after bucket i was drained behind n earlier entries. */
  function AfterDrain(l: Loc, i: nat, n: nat): Loc {
    if l.InFree? && l.i == i then InDrain(n + l.j) else l
  }

  /** Draining bucket i moves exactly its entries, in order, behind the n collected before. */
  lemma DrainMoves(s: State, t: Tid, l: Loc)
    requires CanDrain(s, t) && s.phase.next < |s.free|
    requires l in PartsOf(s).Of(l)
    ensures var l' := AfterDrain(l, s.phase.next, |s.drain|);
      var p, p' := PartsOf(s), PartsOf(ShutdownDrainStep(s, t));
      && l' in p'.Of(l') && p'.Of(l')[l'] == p.Of(l)[l]
      && (l' in p'.OwnersOf(l') <==> l in p.OwnersOf(l))
  {
  }

  lemma DrainComesFrom(s: State, t: Tid, k: Loc) returns (l: Loc)
    requires CanDrain(s, t) && s.phase.next < |s.free|
    requires k in PartsOf(ShutdownDrainStep(s, t)).Of(k)
    ensures l in PartsOf(s).Of(l) && AfterDrain(l, s.phase.next, |s.drain|) == k
  {
    l := if k.InDrain? && k.k >= |s.drain| then InFree(s.phase.next, k.k - |s.drain|) else k;
  }

  lemma DrainWhere(s: State, t: Tid, there: Loc -> Loc)
    requires CanDrain(s, t) && s.phase.next < |s.free|
    requires forall l :: there(l) == AfterDrain(l, s.phase.next, |s.drain|)
    ensures ShutdownDrainStep(s, t).where.Keys == s.where.Keys
    ensures forall d :: d in s.where ==> ShutdownDrainStep(s, t).where[d] == there(s.where[d])
  {
  }

  lemma OwnersHold(s: State)
    ensures PartsOf(s).Owners() <= PartsOf(s).Holders().Keys
  {
  }

  lemma DrainedHolders(s: State, t: Tid, there: Loc -> Loc)
    requires CanDrain(s, t) && s.phase.next < |s.free|
    requires forall l :: there(l) == AfterDrain(l, s.phase.next, |s.drain|)
    ensures var p, p' := PartsOf(s), PartsOf(ShutdownDrainStep(s, t));
      && (forall l :: l in p.Holders() ==>
        there(l) in p'.Holders() && p'.Holders()[there(l)] == p.Holders()[l])
      && (forall l :: l in p.Holders() ==> (there(l) in p'.Owners() <==> l in p.Owners()))
      && (forall k :: k in p'.Holders() ==> exists l :: l in p.Holders() && there(l) == k)
  {
    var p, p' := PartsOf(s), PartsOf(ShutdownDrainStep(s, t));
    forall l | l in p.Holders()
      ensures there(l) in p'.Holders() && p'.Holders()[there(l)] == p.Holders()[l]
      ensures there(l) in p'.Owners() <==> l in p.Owners()
    {
      DrainMoves(s, t, l);
    }
    forall k | k in p'.Holders()
      ensures exists l :: l in p.Holders() && there(l) == k
    {
      var l := DrainComesFrom(s, t, k);
      assert l in p.Holders() && there(l) == k;
    }
  }

  lemma BucketDrained(s: State, t: Tid, there: Loc -> Loc)
    requires Balanced(s) && CanDrain(s, t) && s.phase.next < |s.free|
    requires forall l :: there(l) == AfterDrain(l, s.phase.next, |s.drain|)
    ensures Balanced(ShutdownDrainStep(s, t))
  {
    var s' := ShutdownDrainStep(s, t);
    DrainedHolders(s, t, there);
    DrainWhere(s, t, there);
    OwnersHold(s');
    MovedMany(PartsOf(s), PartsOf(s'), s.live, s.mrs, s.where, s'.where, there);
  }

  lemma ShutdownDrainBalanced(s: State, t: Tid)
    requires Balanced(s) && CanDrain(s, t)
    ensures Balanced(ShutdownDrainStep(s, t))
  {
    if s.phase.next == |s.free| {
      SameHolders(s, ShutdownDrainStep(s, t));
    } else {
      var i, n := s.phase.next, |s.drain|;
      BucketDrained(s, t, l => AfterDrain(l, i, n));
    }
  }
}
