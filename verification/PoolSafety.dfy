/** What holds in every reachable state of the concurrent pool, and what Shutdown achieves. */
module PoolSafety {
  import opened PoolSpec
  import opened PoolLedger
  import opened PoolMachine
  import opened PoolInvariant

  // ---- Capacities, a component at a time ----

  lemma PcFacts(c: Config, s: State, t: Tid)
    requires ThreadsSized(c, s.threads)
    ensures PcSized(c, PcOf(s, t))
  {
  }

  lemma BucketUpdate(c: Config, free: seq<seq<CachedBuffer>>, i: nat, list: seq<CachedBuffer>)
    requires BucketsSized(c, free) && i < |free| && BucketSized(c, list, c.classes[i])
    ensures BucketsSized(c, free[i := list])
  {
  }

  lemma ThreadUpdate(c: Config, threads: map<Tid, Pc>, t: Tid, pc: Pc)
    requires ThreadsSized(c, threads) && PcSized(c, pc)
    ensures ThreadsSized(c, threads[t := pc])
  {
  }

  lemma LeaseUpdate(c: Config, leases: map<Slot, Lease>, slot: Slot, lease: Lease)
    requires LeasesSized(c, leases) && LeaseSized(c, lease)
    ensures LeasesSized(c, leases[slot := lease])
  {
  }

  lemma LeaseRemove(c: Config, leases: map<Slot, Lease>, slot: Slot)
    requires LeasesSized(c, leases)
    ensures LeasesSized(c, leases - {slot})
  {
  }

  // ---- The order of a shutdown, a component at a time ----

  lemma WaitingUpdate(threads: map<Tid, Pc>, t: Tid, pc: Pc)
    ensures Waiting(threads[t := pc]) ==
      if pc.RelLock? then Waiting(threads) + {t} else Waiting(threads) - {t}
  {
  }

  lemma OrderGoto(s: State, t: Tid, pc: Pc)
    requires ShutdownOrder(s)
    requires !pc.ShutWinner? && (pc.RelLock? ==> s.phase.NotStarted?) && !PcOf(s, t).RelLock?
    ensures ShutdownOrder(Goto(s, t, pc))
  {
    WaitingUpdate(s.threads, t, pc);
  }

  // ---- The steps ----

  /** The parts of the invariant that do not speak of who holds what. */
  ghost predicate Shape(c: Config, s: State) {
    Sized(c, s) && ShutdownOrder(s)
  }

  lemma GotoShape(c: Config, s: State, t: Tid, pc: Pc)
    requires Shape(c, s) && PcSized(c, pc)
    requires !pc.ShutWinner? && (pc.RelLock? ==> s.phase.NotStarted?) && !PcOf(s, t).RelLock?
    ensures Shape(c, Goto(s, t, pc))
  {
    ThreadUpdate(c, s.threads, t, pc);
    OrderGoto(s, t, pc);
  }

  /** Shape does not look at the outside world or at the ledger's bookkeeping. */
  lemma ShapeFrame(c: Config, s: State, s': State)
    requires Shape(c, s)
    requires s'.free == s.free && s'.threads == s.threads && s'.leases == s.leases
    requires s'.phase == s.phase && s'.drain == s.drain && s'.early == s.early && s'.pending == s.pending
    ensures Shape(c, s')
  {
  }

  lemma GiveLeaseShape(c: Config, s: State, slot: Slot, lease: Lease)
    requires Shape(c, s) && LeaseSized(c, lease)
    ensures Shape(c, GiveLease(s, slot, lease))
  {
    LeaseUpdate(c, s.leases, slot, lease);
  }

  lemma AcquireTakeShape(c: Config, s: State, t: Tid, slot: Slot)
    requires Shape(c, s) && CanTake(c, s, t, slot)
    ensures Shape(c, AcquireTakeStep(c, s, t, slot))
  {
    PcFacts(c, s, t);
    var size := PcOf(s, t).size;
    var i := Class(c, size);
    if s.free[i] == [] {
      GotoShape(c, s, t, AcqAlloc(size));
    } else {
      var n := |s.free[i]| - 1;
      var s1 := s.(free := s.free[i := s.free[i][..n]]);
      BucketUpdate(c, s.free, i, s.free[i][..n]);
      var lease := Lease(s.free[i][n], i, size);
      GiveLeaseShape(c, s1, slot, lease);
      GotoShape(c, GiveLease(s1, slot, lease), t, Idle);
    }
  }

  lemma AcquireAllocShape(c: Config, s: State, t: Tid, address: nat)
    requires Shape(c, s) && PcOf(s, t).AcqAlloc?
    ensures Shape(c, AcquireAllocStep(c, s, t, address))
  {
    PcFacts(c, s, t);
    var size := PcOf(s, t).size;
    if address == 0 {
      GotoShape(c, s, t, Idle);
    } else {
      var s1 := Hold(s.(live := s.live[address := Capacity(c, size)]), address, InCall(t));
      ShapeFrame(c, s, s1);
      GotoShape(c, s1, t, AcqRegister(size, address, Capacity(c, size)));
    }
  }

  lemma AcquireRegisterShape(c: Config, s: State, t: Tid, handle: nat, slot: Slot)
    requires Shape(c, s) && PcOf(s, t).AcqRegister?
    ensures Shape(c, AcquireRegisterStep(c, s, t, handle, slot))
  {
    PcFacts(c, s, t);
    var size, data, capacity := PcOf(s, t).size, PcOf(s, t).data, PcOf(s, t).capacity;
    if handle == 0 {
      GotoShape(c, s, t, AcqUndo(data, capacity));
    } else {
      var s1 := s.(mrs := s.mrs[handle := data]);
      ShapeFrame(c, s, s1);
      var lease := Lease(CachedBuffer(data, capacity, handle), Class(c, size), size);
      GiveLeaseShape(c, s1, slot, lease);
      GotoShape(c, GiveLease(s1, slot, lease), t, Idle);
    }
  }

  lemma FreeShape(c: Config, s: State, t: Tid, data: nat)
    requires Shape(c, s) && !PcOf(s, t).RelLock?
    ensures Shape(c, Goto(Free(s, data), t, Idle))
  {
    ShapeFrame(c, s, Free(s, data));
    GotoShape(c, Free(s, data), t, Idle);
  }

  lemma LeaseMoveShape(c: Config, s: State, from: Slot, to: Slot)
    requires Shape(c, s) && from in s.leases
    ensures Shape(c, LeaseMoveStep(s, from, to))
  {
    LeaseRemove(c, s.leases, from);
    GiveLeaseShape(c, s.(leases := s.leases - {from}), to, s.leases[from]);
  }

  lemma ReleaseStartShape(c: Config, s: State, t: Tid, slot: Slot)
    requires Shape(c, s) && IsIdle(s, t) && slot in s.leases
    ensures Shape(c, ReleaseStartStep(s, t, slot))
  {
    var lease := s.leases[slot];
    var s1 := Hold(s.(leases := s.leases - {slot}), lease.buf.data, InCall(t));
    LeaseRemove(c, s.leases, slot);
    assert LeaseSized(c, lease);
    GotoShape(c, s1, t, RelFlag(lease.buf, lease.cls));
  }

  lemma ReleaseReadFlagShape(c: Config, s: State, t: Tid)
    requires Shape(c, s) && PcOf(s, t).RelFlag?
    ensures Shape(c, ReleaseReadFlagStep(c, s, t))
  {
    PcFacts(c, s, t);
    GotoShape(c, s, t, ReleaseReadFlagStep(c, s, t).threads[t]);
  }

  lemma LeaveBucketOrder(s: State, t: Tid, pc: Pc)
    requires ShutdownOrder(s) && PcOf(s, t).RelLock?
    requires !pc.ShutWinner? && !pc.RelLock?
    ensures ShutdownOrder(Goto(s.(pending := s.pending - {t}), t, pc))
  {
    WaitingUpdate(s.threads, t, pc);
  }

  lemma ReleasePutShape(c: Config, s: State, t: Tid)
    requires Shape(c, s) && CanPut(s, t)
    ensures Shape(c, ReleasePutStep(c, s, t))
  {
    PcFacts(c, s, t);
    var s' := ReleasePutStep(c, s, t);
    var buf, i := PcOf(s, t).buf, PcOf(s, t).cls;
    ThreadUpdate(c, s.threads, t, s'.threads[t]);
    LeaveBucketOrder(s, t, s'.threads[t]);
    if |s.free[i]| < c.maxPerClass {
      BucketUpdate(c, s.free, i, s.free[i] + [buf]);
    }
  }

  lemma ReleaseDeregShape(c: Config, s: State, t: Tid)
    requires Shape(c, s) && PcOf(s, t).RelDereg?
    ensures Shape(c, ReleaseDeregStep(s, t))
  {
    var buf := PcOf(s, t).buf;
    ShapeFrame(c, s, Dereg(s, buf.mr));
    GotoShape(c, Dereg(s, buf.mr), t, RelFree(buf));
  }

  lemma ShutdownExchangeShape(c: Config, s: State, t: Tid)
    requires Shape(c, s) && PcOf(s, t).ShutCas?
    ensures Shape(c, ShutdownExchangeStep(s, t))
  {
    if !s.phase.NotStarted? {
      GotoShape(c, s, t, Idle);
    } else {
      ThreadUpdate(c, s.threads, t, ShutWinner);
      WaitingUpdate(s.threads, t, ShutWinner);
      assert t !in Waiting(s.threads);
    }
  }

  lemma AdvanceShape(c: Config, s: State, t: Tid, phase: Phase)
    requires Shape(c, s) && PcOf(s, t).ShutWinner?
    requires phase.Draining? || phase.Deregistering? || phase.Freeing?
    requires phase.winner == t && PhaseInRange(phase, s.drain, |s.free|)
    ensures Shape(c, s.(phase := phase))
  {
    assert t in s.threads && s.phase.winner == t;
  }

  lemma DrainedShape(c: Config, s: State, i: nat)
    requires Shape(c, s) && i < |s.free| && s.phase.Draining?
    ensures Shape(c, Drained(s, i))
  {
    BucketUpdate(c, s.free, i, []);
  }

  lemma ShutdownDrainShape(c: Config, s: State, t: Tid)
    requires Shape(c, s) && CanDrain(s, t)
    ensures Shape(c, ShutdownDrainStep(s, t))
  {
    var i := s.phase.next;
    if i == |s.free| {
      AdvanceShape(c, s, t, Deregistering(t, 0));
    } else {
      DrainedShape(c, s, i);
      AdvanceShape(c, Drained(s, i), t, Draining(t, i + 1));
    }
  }

  lemma ShutdownDeregShape(c: Config, s: State, t: Tid)
    requires Shape(c, s) && CanDereg(s, t)
    ensures Shape(c, ShutdownDeregStep(s, t))
  {
    assert t in s.threads && s.phase.winner == t;
    if s.phase.k == |s.drain| {
      ThreadUpdate(c, s.threads, t, Idle);
      WaitingUpdate(s.threads, t, Idle);
    }
  }

  lemma ShutdownFreeShape(c: Config, s: State, t: Tid)
    requires Shape(c, s) && CanFree(s, t)
    ensures Shape(c, ShutdownFreeStep(s, t))
  {
    assert t in s.threads && s.phase.winner == t;
  }

  // ---- The invariant over runs ----

  lemma InitHolds(c: Config)
    ensures Inv(c, Init(c))
  {
    assert PartsOf(Init(c)).Holders() == imap[];
    assert PartsOf(Init(c)).Owners() == iset{};
  }

  lemma StepShape(c: Config, s: State, a: Step)
    requires Shape(c, s) && Enabled(c, s, a)
    ensures Shape(c, Do(c, s, a))
  {
    match a
    case Spawn(t) => GotoShape(c, s, t, Idle);
    case AcquireStart(t, size) => GotoShape(c, s, t, AcquireStartStep(c, s, t, size).threads[t]);
    case AcquireReadFlag(t) => PcFacts(c, s, t); GotoShape(c, s, t, AcquireReadFlagStep(s, t).threads[t]);
    case AcquireTake(t, slot) => AcquireTakeShape(c, s, t, slot);
    case AcquireAlloc(t, address) => AcquireAllocShape(c, s, t, address);
    case AcquireRegister(t, handle, slot) => AcquireRegisterShape(c, s, t, handle, slot);
    case AcquireUndo(t) => FreeShape(c, s, t, PcOf(s, t).data);
    case LeaseMove(from, to) => LeaseMoveShape(c, s, from, to);
    case ReleaseStart(t, slot) => ReleaseStartShape(c, s, t, slot);
    case ReleaseReadFlag(t) => ReleaseReadFlagShape(c, s, t);
    case ReleasePut(t) => ReleasePutShape(c, s, t);
    case ReleaseDereg(t) => ReleaseDeregShape(c, s, t);
    case ReleaseFree(t) => FreeShape(c, s, t, PcOf(s, t).buf.data);
    case ShutdownStart(t) => GotoShape(c, s, t, ShutCas);
    case ShutdownExchange(t) => ShutdownExchangeShape(c, s, t);
    case ShutdownDrain(t) => ShutdownDrainShape(c, s, t);
    case ShutdownDereg(t) => ShutdownDeregShape(c, s, t);
    case ShutdownFree(t) => ShutdownFreeShape(c, s, t);
  }

  lemma AcquireBalanced(c: Config, s: State, a: Step)
    requires Balanced(s) && !s.bad && Enabled(c, s, a)
    requires a.AcquireStart? || a.AcquireReadFlag? || a.AcquireTake? || a.AcquireAlloc? || a.AcquireRegister?
      || a.AcquireUndo?
    ensures Balanced(Do(c, s, a)) && !Do(c, s, a).bad
  {
    match a
    case AcquireStart(t, size) => GotoBalanced(s, t, AcquireStartStep(c, s, t, size).threads[t]);
    case AcquireReadFlag(t) => GotoBalanced(s, t, AcquireReadFlagStep(s, t).threads[t]);
    case AcquireTake(t, slot) => AcquireTakeBalanced(c, s, t, slot);
    case AcquireAlloc(t, address) => AcquireAllocBalanced(c, s, t, address);
    case AcquireRegister(t, handle, slot) => AcquireRegisterBalanced(c, s, t, handle, slot);
    case AcquireUndo(t) => AcquireUndoBalanced(s, t);
  }

  lemma ReleaseBalanced(c: Config, s: State, a: Step)
    requires Balanced(s) && !s.bad && Enabled(c, s, a)
    requires a.ReleaseStart? || a.ReleaseReadFlag? || a.ReleasePut? || a.ReleaseDereg? || a.ReleaseFree?
      || a.LeaseMove?
    ensures Balanced(Do(c, s, a)) && !Do(c, s, a).bad
  {
    match a
    case LeaseMove(from, to) => LeaseMoveBalanced(s, from, to);
    case ReleaseStart(t, slot) => ReleaseStartBalanced(s, t, slot);
    case ReleaseReadFlag(t) => GotoBalanced(s, t, ReleaseReadFlagStep(c, s, t).threads[t]);
    case ReleasePut(t) => ReleasePutBalanced(c, s, t);
    case ReleaseDereg(t) => ReleaseDeregBalanced(s, t);
    case ReleaseFree(t) => ReleaseFreeBalanced(s, t);
  }

  lemma ShutdownBalanced(c: Config, s: State, a: Step)
    requires Balanced(s) && !s.bad && PhaseInRange(s.phase, s.drain, |s.free|) && Enabled(c, s, a)
    requires a.ShutdownStart? || a.ShutdownExchange? || a.ShutdownDrain? || a.ShutdownDereg? || a.ShutdownFree?
      || a.Spawn?
    ensures Balanced(Do(c, s, a)) && !Do(c, s, a).bad
  {
    match a
    case Spawn(t) => GotoBalanced(s, t, Idle);
    case ShutdownStart(t) => GotoBalanced(s, t, ShutCas);
    case ShutdownExchange(t) => ShutdownExchangeBalanced(s, t);
    case ShutdownDrain(t) => ShutdownDrainBalanced(s, t);
    case ShutdownDereg(t) => ShutdownDeregBalanced(s, t);
    case ShutdownFree(t) => ShutdownFreeBalanced(s, t);
  }

  lemma StepKeepsInv(c: Config, s: State, a: Step)
    requires Inv(c, s) && Enabled(c, s, a)
    ensures Inv(c, Do(c, s, a))
  {
    StepShape(c, s, a);
    if a.ShutdownStart? || a.ShutdownExchange? || a.ShutdownDrain? || a.ShutdownDereg? || a.ShutdownFree? || a.Spawn? {
      ShutdownBalanced(c, s, a);
    } else if a.ReleaseStart? || a.ReleaseReadFlag? || a.ReleasePut? || a.ReleaseDereg? || a.ReleaseFree?
        || a.LeaseMove? {
      ReleaseBalanced(c, s, a);
    } else {
      AcquireBalanced(c, s, a);
    }
  }

  lemma {:induction false} RunKeepsInv(c: Config, s: State, steps: seq<Step>, s': State)
    requires Inv(c, s) && Leads(c, s, steps, s')
    ensures Inv(c, s')
    decreases |steps|
  {
    if steps != [] {
      StepKeepsInv(c, s, steps[0]);
      RunKeepsInv(c, Do(c, s, steps[0]), steps[1..], s');
    }
  }

  lemma ReachableInv(c: Config, s: State)
    requires Reachable(c, s)
    ensures Inv(c, s)
  {
    InitHolds(c);
    var steps :| Leads(c, Init(c), steps, s);
    RunKeepsInv(c, Init(c), steps, s);
  }
}
