/**
  The pinned-buffer pool and its leases as the backend uses them: objects updated in place.

  Each call is also a run of the concurrent machine with one thread: the ghost field `state` goes
  through the machine's steps in the order in which the code takes them, so everything proved of
  reachable states holds between calls, and no call frees or deregisters anything wrongly.
 */
module BufferPool {
  import opened PoolSpec
  import opened PoolLedger
  import opened PoolMachine
  import opened PoolSafety
  import opened PoolTheorems
  import opened Numbers
  import opened CuObjServer

  const CALLER: Tid := 0

  /**
    The library calls of a request that no bucket served: memory of this capacity was asked for and,
    unless that was refused, its registration; the buffer handed out is theirs, or there is none
    because one of them was refused.
   */
  predicate Asked(before: seq<LibCall>, after: seq<LibCall>, capacity: nat, data: nat, mr: nat) {
    var n := |before|;
    && before <= after && n + 1 <= |after| <= n + 2
    && after[n].HostAlloc? && after[n].size == capacity
    && (after[n].Refused() <==> |after| == n + 1)
    && (|after| == n + 2 ==>
      && after[n + 1].Registration? && after[n + 1].address == after[n].address && after[n + 1].size == capacity)
    && (data != 0 <==> NoneRefused(before, after))
    && (data != 0 ==> |after| == n + 2 && data == after[n].address && mr == after[n + 1].handle)
  }

  /** All that a call may change of a pool: its buckets, what its server holds, and who has a lease. */
  datatype PoolView = PoolView(
    free: seq<seq<CachedBuffer>>, live: map<nat, nat>, mrs: map<nat, nat>,
    leases: map<Slot, Lease>, holders: map<Slot, PinnedBufferLease>, shutdown: bool)

  /** The view after the lease in one slot has moved to another slot and another lease object. */
  ghost function Renamed(v: PoolView, from: Slot, to: Slot, l: PinnedBufferLease): PoolView
    requires from in v.leases
  {
    v.(leases := (v.leases - {from})[to := v.leases[from]], holders := (v.holders - {from})[to := l])
  }

  class PinnedBufferPool {
    const server: Server
    const sizeClasses: seq<nat>
    const maxPerClass: nat
    var freeLists: seq<seq<CachedBuffer>>
    var shutdown: bool
    ghost var state: State
    ghost var holders: map<Slot, PinnedBufferLease>

    ghost function Cfg(): Config {
      Config(sizeClasses, maxPerClass)
    }

    /** The real fields are what the machine's state says, and no call is in progress. */
    ghost predicate Agrees()
      reads this, server`live, server`mrs
    {
      && state.free == freeLists
      && state.live == server.live
      && state.mrs == server.mrs
      && (shutdown <==> !state.phase.NotStarted?)
    }

    ghost predicate Valid()
      reads this, server`live, server`mrs
    {
      && Reachable(Cfg(), state)
      && Sorted(sizeClasses)
      && Agrees()
      && state.threads == map[CALLER := Idle]
      && (state.phase.NotStarted? || state.phase.Finished?)
      && state.early == {}
      && holders.Keys == state.leases.Keys
    }

    ghost function View(): PoolView
      reads this, server`live, server`mrs
    {
      PoolView(freeLists, server.live, server.mrs, state.leases, holders, shutdown)
    }

    /** The view after the lease in this slot was given back: kept at its bucket's end, or destroyed. */
    ghost function GivenBack(v: PoolView, slot: Slot): PoolView
      requires slot in v.leases
    {
      var buf, i := v.leases[slot].buf, v.leases[slot].cls;
      var keeps := !v.shutdown && i < |sizeClasses| && i < |v.free| && |v.free[i]| < maxPerClass;
      PoolView(
        if keeps then v.free[i := v.free[i] + [buf]] else v.free,
        if keeps then v.live else v.live - {buf.data},
        if keeps then v.mrs else v.mrs - {buf.mr},
        v.leases - {slot}, v.holders - {slot}, v.shutdown)
    }

    /** The lease object l holds the machine's lease of its slot. */
    ghost predicate Lends(l: PinnedBufferLease)
      reads this, l
    {
      && l.slot in holders && holders[l.slot] == l
      && l.slot in state.leases
      && state.leases[l.slot].buf == CachedBuffer(l.data, l.capacity, l.mr)
      && state.leases[l.slot].cls == l.sizeClass
    }

    constructor (server: Server, sizeClasses: seq<nat>, maxPerClass: nat)
      requires server.live == map[] && server.mrs == map[]
      ensures Valid() && this.server == server && this.maxPerClass == maxPerClass
      ensures multiset(this.sizeClasses) == multiset(sizeClasses) && Sorted(this.sizeClasses)
      ensures state.leases == map[] && holders == map[]
      ensures !shutdown && forall i :: 0 <= i < |freeLists| ==> freeLists[i] == []
    {
      SortIsSorted(sizeClasses);
      this.server := server;
      this.sizeClasses := SortAscending(sizeClasses);
      this.maxPerClass := maxPerClass;
      this.freeLists := seq(|SortAscending(sizeClasses)|, _ => []);
      this.shutdown := false;
      this.holders := map[];
      var c := Config(SortAscending(sizeClasses), maxPerClass);
      this.state := Do(c, Init(c), Spawn(CALLER));
      assert Leads(c, Init(c), [], Init(c));
      ReachableStep(c, Init(c), Spawn(CALLER));
    }

    method PickClassIndex(size: nat) returns (r: nat)
      ensures r == PickClass(sizeClasses, size)
    {
      for i := 0 to |sizeClasses|
        invariant forall j :: 0 <= j < i ==> sizeClasses[j] < size
      {
        if sizeClasses[i] >= size {
          FirstFit(sizeClasses, size, i);
          return i;
        }
      }
      FirstFit(sizeClasses, size, |sizeClasses|);
      return |sizeClasses|;
    }

    // ---- The machine's steps, one ghost method each ----

    /** The machine takes step a. */
    ghost method Advance(a: Step)
      requires Reachable(Cfg(), state) && Enabled(Cfg(), state, a)
      modifies `state
      ensures Reachable(Cfg(), state) && state == Do(Cfg(), old(state), a)
    {
      ReachableStep(Cfg(), state, a);
      state := Do(Cfg(), state, a);
    }

    /** Every step below is the one call in progress; pc is where it goes next. */
    ghost predicate At(pc: Pc)
      reads this
    {
      Reachable(Cfg(), state) && state.threads == map[CALLER := pc]
    }

    ghost method StartAcquire(size: nat)
      requires At(Idle) && size > 0
      modifies `state
      ensures var pc := if PickClass(sizeClasses, size) == |sizeClasses| then AcqAlloc(size) else AcqFlag(size);
        At(pc) && state == old(state).(threads := map[CALLER := pc])
    {
      Advance(AcquireStart(CALLER, size));
    }

    ghost method ReadAcquireFlag(size: nat)
      requires At(AcqFlag(size))
      modifies `state
      ensures var pc := if state.phase.NotStarted? then AcqLock(size) else AcqAlloc(size);
        At(pc) && state == old(state).(threads := map[CALLER := pc])
    {
      Advance(AcquireReadFlag(CALLER));
    }

    ghost method TakeNothing(size: nat, slot: Slot)
      requires At(AcqLock(size)) && slot !in state.leases
      requires PickClass(sizeClasses, size) < |state.free| && state.free[PickClass(sizeClasses, size)] == []
      modifies `state
      ensures At(AcqAlloc(size)) && state == old(state).(threads := map[CALLER := AcqAlloc(size)])
    {
      Advance(AcquireTake(CALLER, slot));
    }

    ghost method TakeLast(size: nat, slot: Slot, i: nat, n: nat)
      requires At(AcqLock(size)) && slot !in state.leases
      requires i == PickClass(sizeClasses, size) < |state.free| && |state.free[i]| == n + 1
      modifies `state
      ensures At(Idle)
      ensures state == old(state).(
        free := old(state.free)[i := old(state.free)[i][..n]],
        leases := old(state.leases)[slot := Lease(old(state.free)[i][n], i, size)],
        where := state.where, threads := map[CALLER := Idle])
    {
      Advance(AcquireTake(CALLER, slot));
    }

    ghost method AllocFailed(size: nat)
      requires At(AcqAlloc(size)) && 0 !in state.live
      modifies `state
      ensures At(Idle) && state == old(state).(threads := map[CALLER := Idle])
    {
      Advance(AcquireAlloc(CALLER, 0));
    }

    ghost method AllocDone(size: nat, data: nat, capacity: nat)
      requires At(AcqAlloc(size)) && data != 0 && data !in state.live && capacity == CapacityFor(sizeClasses, size)
      modifies `state
      ensures At(AcqRegister(size, data, capacity))
      ensures state == old(state).(
        live := old(state.live)[data := capacity],
        where := state.where, threads := map[CALLER := AcqRegister(size, data, capacity)])
    {
      Advance(AcquireAlloc(CALLER, data));
    }

    ghost method RegisterDone(size: nat, data: nat, capacity: nat, mr: nat, slot: Slot)
      requires At(AcqRegister(size, data, capacity)) && mr != 0 && mr !in state.mrs && slot !in state.leases
      modifies `state
      ensures At(Idle)
      ensures state == old(state).(
        mrs := old(state.mrs)[mr := data],
        leases := old(state.leases)[slot :=
          Lease(CachedBuffer(data, capacity, mr), PickClass(sizeClasses, size), size)],
        where := state.where, threads := map[CALLER := Idle])
    {
      Advance(AcquireRegister(CALLER, mr, slot));
    }

    /** The registration failed: the memory may be freed, and then it is gone. */
    ghost method RegisterFailed(size: nat, data: nat, capacity: nat)
      requires At(AcqRegister(size, data, capacity)) && 0 !in state.mrs
      modifies `state
      ensures At(AcqUndo(data, capacity))
      ensures state == old(state).(threads := map[CALLER := AcqUndo(data, capacity)])
      ensures data in state.live && data !in state.mrs.Values
    {
      ghost var slot := NewSlot();
      Advance(AcquireRegister(CALLER, 0, slot));
      UndoIsAllowed(Cfg(), state, CALLER);
    }

    ghost method Undone(data: nat, capacity: nat)
      requires At(AcqUndo(data, capacity))
      modifies `state
      ensures At(Idle)
      ensures state == old(state).(
        live := old(state.live) - {data}, bad := state.bad,
        where := state.where, threads := map[CALLER := Idle])
    {
      Advance(AcquireUndo(CALLER));
    }

    ghost method ReturnLease(slot: Slot)
      requires At(Idle) && slot in state.leases
      modifies `state
      ensures var lease := old(state.leases)[slot];
        && At(RelFlag(lease.buf, lease.cls))
        && state == old(state).(
          leases := old(state.leases) - {slot},
          where := state.where, threads := map[CALLER := RelFlag(lease.buf, lease.cls)])
    {
      Advance(ReleaseStart(CALLER, slot));
    }

    ghost method ReadReleaseFlag(buf: CachedBuffer, cls: nat)
      requires At(RelFlag(buf, cls))
      modifies `state
      ensures var pc := if !state.phase.NotStarted? || cls >= |sizeClasses| then RelDereg(buf) else RelLock(buf, cls);
        At(pc) && state == old(state).(threads := map[CALLER := pc])
    {
      Advance(ReleaseReadFlag(CALLER));
    }

    ghost method PutBack(buf: CachedBuffer, cls: nat)
      requires At(RelLock(buf, cls)) && cls < |state.free| && |state.free[cls]| < maxPerClass
      modifies `state
      ensures At(Idle)
      ensures state == old(state).(
        free := old(state.free)[cls := old(state.free)[cls] + [buf]],
        where := state.where, pending := state.pending, threads := map[CALLER := Idle])
    {
      Advance(ReleasePut(CALLER));
    }

    ghost method BucketFull(buf: CachedBuffer, cls: nat)
      requires At(RelLock(buf, cls)) && cls < |state.free| && |state.free[cls]| >= maxPerClass
      modifies `state
      ensures At(RelDereg(buf))
      ensures state == old(state).(pending := state.pending, threads := map[CALLER := RelDereg(buf)])
    {
      Advance(ReleasePut(CALLER));
    }

    /** Deregistering and freeing are both right, in that order. */
    ghost method Disposed(buf: CachedBuffer)
      requires At(RelDereg(buf))
      modifies `state
      ensures At(Idle)
      ensures buf.mr in old(state.mrs) && buf.data in old(state.live)
      ensures buf.data !in (old(state.mrs) - {buf.mr}).Values
      ensures state == old(state).(
        mrs := old(state.mrs) - {buf.mr}, live := old(state.live) - {buf.data}, bad := state.bad,
        where := state.where, threads := map[CALLER := Idle])
    {
      assert !state.bad by {
        ReachableInv(Cfg(), state);
      }
      Advance(ReleaseDereg(CALLER));
      assert !state.bad by {
        ReachableInv(Cfg(), state);
      }
      Advance(ReleaseFree(CALLER));
      assert !state.bad by {
        ReachableInv(Cfg(), state);
      }
    }

    ghost method WinExchange()
      requires At(Idle) && state.phase.NotStarted?
      modifies `state
      ensures At(ShutWinner)
      ensures state == old(state).(
        phase := Draining(CALLER, 0), early := {}, pending := {}, threads := map[CALLER := ShutWinner])
      ensures state.drain == []
    {
      assert state.drain == [] by {
        ReachableInv(Cfg(), state);
      }
      Advance(ShutdownStart(CALLER));
      assert Waiting(state.threads) == {};
      Advance(ShutdownExchange(CALLER));
    }

    ghost method DrainOne(i: nat)
      requires At(ShutWinner) && state.phase == Draining(CALLER, i) && i < |state.free|
      modifies `state
      ensures At(ShutWinner)
      ensures state == old(state).(
        free := old(state.free)[i := []], drain := old(state.drain) + old(state.free)[i],
        phase := Draining(CALLER, i + 1), where := state.where)
    {
      Advance(ShutdownDrain(CALLER));
    }

    ghost method DrainEnd()
      requires At(ShutWinner) && state.phase == Draining(CALLER, |state.free|)
      modifies `state
      ensures At(ShutWinner) && state == old(state).(phase := Deregistering(CALLER, 0))
    {
      Advance(ShutdownDrain(CALLER));
    }

    ghost method DestroyOne(k: nat)
      requires At(ShutWinner) && state.phase == Deregistering(CALLER, k) && k < |state.drain|
      modifies `state
      ensures At(ShutWinner)
      ensures var b := old(state.drain)[k];
        && b.mr in old(state.mrs) && b.data in old(state.live)
        && b.data !in (old(state.mrs) - {b.mr}).Values
        && state == old(state).(
          mrs := old(state.mrs) - {b.mr}, live := old(state.live) - {b.data}, bad := state.bad,
          where := state.where, phase := Deregistering(CALLER, k + 1))
    {
      assert !state.bad by {
        ReachableInv(Cfg(), state);
      }
      Advance(ShutdownDereg(CALLER));
      assert !state.bad by {
        ReachableInv(Cfg(), state);
      }
      Advance(ShutdownFree(CALLER));
      assert !state.bad by {
        ReachableInv(Cfg(), state);
      }
    }

    ghost method FinishShutdown()
      requires At(ShutWinner) && state.phase == Deregistering(CALLER, |state.drain|)
      modifies `state
      ensures At(Idle) && state == old(state).(phase := Finished, threads := map[CALLER := Idle])
    {
      Advance(ShutdownDereg(CALLER));
    }

    lemma NullIsNothing()
      requires Reachable(Cfg(), state)
      ensures 0 !in state.live && 0 !in state.mrs
    {
      ReachableInv(Cfg(), state);
      NullIsFree(state);
    }

    /** What a lease gives access to: registered memory of the lease's capacity. */
    lemma LeaseMemory(l: PinnedBufferLease)
      requires Valid() && Lends(l)
      ensures l.data in server.live && server.live[l.data] == l.capacity
      ensures l.mr in server.mrs && server.mrs[l.mr] == l.data
    {
      ReachableInv(Cfg(), state);
      OwnerFacts(Cfg(), state, InLease(l.slot));
    }

    lemma Shapes()
      requires Reachable(Cfg(), state)
      ensures |state.free| == |sizeClasses|
    {
      ReachableInv(Cfg(), state);
    }

    /** A slot number no lease uses. */
    ghost function NewSlot(): (slot: Slot)
      reads this
      ensures slot !in state.leases
    {
      FreshSlotExists(state.leases.Keys);
      var slot: Slot :| slot !in state.leases.Keys;
      slot
    }

    /** The registration was refused: the memory goes, and it may. */
    method UndoAllocation(size: nat, data: nat, capacity: nat)
      requires At(AcqRegister(size, data, capacity)) && Agrees() && 0 !in state.mrs
      modifies `state, server`live
      ensures At(Idle) && Agrees()
      ensures server.live == old(server.live) - {data}
      ensures state.phase == old(state.phase) && state.early == old(state.early) && state.free == old(state.free)
      ensures state.leases == old(state.leases)
    {
      RegisterFailed(size, data, capacity);
      server.FreeHost(data);
      Undone(data, capacity);
    }

    /** Outside any lock: a new buffer, registered, or nothing at all. */
    method AllocateAndRegister(size: nat, capacity: nat, cls: nat, lease: PinnedBufferLease)
      requires At(AcqAlloc(size)) && Agrees()
      requires capacity == CapacityFor(sizeClasses, size) && cls == PickClass(sizeClasses, size)
      requires lease.data == 0 && lease.Valid()
      modifies `state, `holders, server`live, server`mrs, server`calls, lease
      ensures At(Idle) && Agrees()
      ensures state.phase == old(state.phase) && state.early == old(state.early) && state.free == old(state.free)
      ensures lease.data == 0 ==>
        lease.Valid() && holders == old(holders) && state.leases == old(state.leases)
        && server.live == old(server.live) && server.mrs == old(server.mrs)
      ensures lease.data != 0 ==>
        && lease.pool == this && Lends(lease)
        && lease.capacity == capacity
        && lease.slot !in old(state.leases)
        && state.leases == old(state.leases)[lease.slot := state.leases[lease.slot]]
        && holders == old(holders)[lease.slot := lease]
        && lease.data !in old(server.live) && lease.mr !in old(server.mrs)
        && server.live == old(server.live)[lease.data := capacity]
        && server.mrs == old(server.mrs)[lease.mr := lease.data]
      ensures Asked(old(server.calls), server.calls, capacity, lease.data, lease.mr)
    {
      NullIsNothing();
      var data := server.AllocHostBuffer(capacity);
      if data == 0 {
        AllocFailed(size);
        return;
      }
      AllocDone(size, data, capacity);
      var mr := server.RegisterBuffer(data, capacity);
      if mr == 0 {
        UndoAllocation(size, data, capacity);
        assert old(server.live)[data := capacity] - {data} == old(server.live);
        return;
      }
      ghost var slot := NewSlot();
      RegisterDone(size, data, capacity, mr, slot);
      lease.Fill(this, data, capacity, mr, cls, slot);
      holders := holders[slot := lease];
    }

    /** Whether a request of this size is served from its free list. */
    predicate Hit(size: nat)
      reads this
    {
      var i := PickClass(sizeClasses, size);
      i < |sizeClasses| && i < |freeLists| && !shutdown && freeLists[i] != []
    }

    /** Under the bucket's lock, and only when it is not empty. */
    method TakeCached(size: nat, idx: nat, lease: PinnedBufferLease)
      requires At(AcqLock(size)) && Agrees()
      requires idx == PickClass(sizeClasses, size) < |freeLists| && freeLists[idx] != []
      requires lease.data == 0
      modifies `state, `holders, `freeLists, lease
      ensures At(Idle) && Agrees()
      ensures state.phase == old(state.phase) && state.early == old(state.early)
      ensures var n := |old(freeLists)[idx]| - 1;
        && CachedBuffer(lease.data, lease.capacity, lease.mr) == old(freeLists)[idx][n]
        && freeLists == old(freeLists)[idx := old(freeLists)[idx][..n]]
      ensures lease.data != 0 && lease.pool == this && Lends(lease)
      ensures lease.capacity == CapacityFor(sizeClasses, size)
      ensures lease.slot !in old(state.leases)
      ensures state.leases == old(state.leases)[lease.slot := state.leases[lease.slot]]
      ensures holders == old(holders)[lease.slot := lease]
    {
      var n := |freeLists[idx]| - 1;
      var reuse := freeLists[idx][n];
      CachedFacts(Cfg(), state, idx, n);
      ghost var slot := NewSlot();
      TakeLast(size, slot, idx, n);
      freeLists := freeLists[idx := freeLists[idx][..n]];
      lease.Fill(this, reuse.data, reuse.capacity, reuse.mr, idx, slot);
      holders := holders[slot := lease];
    }

    method Acquire(size: nat) returns (lease: PinnedBufferLease)
      requires Valid()
      modifies this, server`live, server`mrs, server`calls
      ensures Valid() && fresh(lease) && lease.Valid() && shutdown == old(shutdown)
      ensures size == 0 ==> lease.data == 0
      ensures size == 0 || old(Hit(size)) ==> server.calls == old(server.calls)
      ensures size > 0 && !old(Hit(size)) ==>
        Asked(old(server.calls), server.calls, CapacityFor(sizeClasses, size), lease.data, lease.mr)
      ensures lease.data == 0 ==>
        freeLists == old(freeLists) && server.live == old(server.live) && server.mrs == old(server.mrs)
        && state.leases == old(state.leases) && holders == old(holders)
      ensures lease.data != 0 ==>
        && size > 0 && lease.pool == this
        && lease.capacity == CapacityFor(sizeClasses, size)
        && lease.slot !in old(state.leases)
        && state.leases == old(state.leases)[lease.slot := state.leases[lease.slot]]
        && holders == old(holders)[lease.slot := lease]
      ensures size > 0 && old(Hit(size)) ==>
        var i := PickClass(sizeClasses, size);
        var n := |old(freeLists)[i]| - 1;
        && CachedBuffer(lease.data, lease.capacity, lease.mr) == old(freeLists)[i][n]
        && lease.data != 0
        && freeLists == old(freeLists)[i := old(freeLists)[i][..n]]
        && server.live == old(server.live) && server.mrs == old(server.mrs)
      ensures lease.data != 0 && !old(Hit(size)) ==>
        && freeLists == old(freeLists)
        && lease.data !in old(server.live) && lease.mr !in old(server.mrs)
        && server.live == old(server.live)[lease.data := lease.capacity]
        && server.mrs == old(server.mrs)[lease.mr := lease.data]
    {
      lease := new PinnedBufferLease();
      if size == 0 {
        return;
      }
      Shapes();
      var idx := PickClassIndex(size);
      StartAcquire(size);
      if idx == |sizeClasses| {
        AllocateAndRegister(size, size, idx, lease);
        return;
      }
      var capacity := sizeClasses[idx];
      ReadAcquireFlag(size);
      if !shutdown {
        if freeLists[idx] != [] {
          TakeCached(size, idx, lease);
          return;
        }
        TakeNothing(size, NewSlot());
      }
      AllocateAndRegister(size, capacity, idx, lease);
    }

    /** A lease object hands its buffer to another lease object. */
    ghost method Rename(from: Slot, to: Slot, l: PinnedBufferLease)
      requires Valid() && from in state.leases && to !in state.leases
      modifies `state, `holders
      ensures Valid()
      ensures state.leases == (old(state.leases) - {from})[to := old(state.leases)[from]]
      ensures holders == (old(holders) - {from})[to := l]
    {
      Advance(LeaseMove(from, to));
      holders := (holders - {from})[to := l];
    }

    /** Deregisters and then frees. */
    method Dispose(cached: CachedBuffer)
      requires cached.mr != 0 ==> cached.mr in server.mrs
      requires cached.data != 0 ==>
        && cached.data in server.live
        && cached.data !in (if cached.mr != 0 then server.mrs - {cached.mr} else server.mrs).Values
      modifies server`live, server`mrs
      ensures server.mrs == if cached.mr != 0 then old(server.mrs) - {cached.mr} else old(server.mrs)
      ensures server.live == if cached.data != 0 then old(server.live) - {cached.data} else old(server.live)
    {
      if cached.mr != 0 {
        server.DeRegisterBuffer(cached.mr);
      }
      if cached.data != 0 {
        server.FreeHost(cached.data);
      }
    }

    /** Whether a released buffer of this class is kept. */
    predicate Keeps(sizeClass: nat)
      reads this
    {
      !shutdown && sizeClass < |sizeClasses| && sizeClass < |freeLists| && |freeLists[sizeClass]| < maxPerClass
    }

    method Release(data: nat, capacity: nat, mr: nat, sizeClass: nat, ghost slot: Slot)
      requires Valid()
      requires slot in state.leases
      requires state.leases[slot].buf == CachedBuffer(data, capacity, mr) && state.leases[slot].cls == sizeClass
      modifies this, server`live, server`mrs
      ensures Valid() && shutdown == old(shutdown)
      ensures state.leases == old(state.leases) - {slot} && holders == old(holders) - {slot}
      ensures old(Keeps(sizeClass)) ==>
        && freeLists == old(freeLists)[sizeClass := old(freeLists)[sizeClass] + [CachedBuffer(data, capacity, mr)]]
        && server.live == old(server.live) && server.mrs == old(server.mrs)
      ensures !old(Keeps(sizeClass)) ==>
        && freeLists == old(freeLists)
        && data in old(server.live) && mr in old(server.mrs)
        && server.live == old(server.live) - {data} && server.mrs == old(server.mrs) - {mr}
    {
      LeaseFacts(Cfg(), state, slot);
      Shapes();
      if data == 0 {
        assert false;
      }
      var record := CachedBuffer(data, capacity, mr);
      ReturnLease(slot);
      holders := holders - {slot};
      ReadReleaseFlag(record, sizeClass);
      if shutdown || sizeClass >= |sizeClasses| {
        Disposed(record);
        Dispose(record);
        return;
      }
      var destroyNow := false;
      if |freeLists[sizeClass]| >= maxPerClass {
        destroyNow := true;
        BucketFull(record, sizeClass);
      } else {
        PutBack(record, sizeClass);
        freeLists := freeLists[sizeClass := freeLists[sizeClass] + [record]];
      }
      if destroyNow {
        Disposed(record);
        Dispose(record);
      }
    }

    method Shutdown()
      requires Valid()
      modifies this, server`live, server`mrs
      ensures Valid() && shutdown
      ensures state.leases == old(state.leases) && holders == old(holders)
      ensures old(shutdown) ==>
        freeLists == old(freeLists) && server.live == old(server.live) && server.mrs == old(server.mrs)
      ensures forall i :: 0 <= i < |freeLists| ==> freeLists[i] == []
      ensures forall d :: d in server.live <==> exists x :: x in state.leases && state.leases[x].buf.data == d
      ensures state.leases == map[] ==> server.live == map[] && server.mrs == map[]
    {
      if !shutdown {
        shutdown := true;
        WinExchange();
        var toDestroy := CollectAll();
        DestroyAll(toDestroy);
        FinishShutdown();
      }
      AfterShutdown(Cfg(), state);
    }

    /** Empties every bucket, each under its own lock. */
    method CollectAll() returns (toDestroy: seq<CachedBuffer>)
      requires At(ShutWinner) && Agrees() && state.phase == Draining(CALLER, 0) && state.drain == []
      modifies `state, `freeLists
      ensures At(ShutWinner) && Agrees() && state.phase == Deregistering(CALLER, 0)
      ensures toDestroy == state.drain
      ensures state.leases == old(state.leases) && state.early == old(state.early)
    {
      toDestroy := [];
      var i := 0;
      while i < |freeLists|
        invariant i <= |freeLists|
        invariant At(ShutWinner) && Agrees() && state.phase == Draining(CALLER, i)
        invariant toDestroy == state.drain
        invariant state.leases == old(state.leases) && state.early == old(state.early)
      {
        toDestroy := toDestroy + freeLists[i];
        freeLists := freeLists[i := []];
        DrainOne(i);
        i := i + 1;
      }
      DrainEnd();
    }

    method DestroyAll(toDestroy: seq<CachedBuffer>)
      requires At(ShutWinner) && Agrees() && state.phase == Deregistering(CALLER, 0)
      requires toDestroy == state.drain
      modifies `state, server`live, server`mrs
      ensures At(ShutWinner) && Agrees() && state.phase == Deregistering(CALLER, |state.drain|)
      ensures state.leases == old(state.leases) && state.early == old(state.early)
    {
      var k := 0;
      while k < |toDestroy|
        invariant k <= |toDestroy|
        invariant At(ShutWinner) && Agrees() && state.phase == Deregistering(CALLER, k)
        invariant toDestroy == state.drain
        invariant state.leases == old(state.leases) && state.early == old(state.early)
      {
        NullIsNothing();
        DestroyOne(k);
        Dispose(toDestroy[k]);
        k := k + 1;
      }
    }
  }

  lemma LeaseFacts(c: Config, s: State, slot: Slot)
    requires Reachable(c, s) && slot in s.leases
    ensures s.leases[slot].buf.data != 0 && s.leases[slot].buf.mr != 0
    ensures |s.free| == |c.classes|
  {
    ReachableInv(c, s);
    OwnerFacts(c, s, InLease(slot));
    NullIsFree(s);
  }

  /** After a shutdown without racing Releases, what is live is exactly what is leased. */
  lemma AfterShutdown(c: Config, s: State)
    requires Reachable(c, s) && s.phase.Finished? && s.early == {}
    requires forall t :: t in s.threads ==> s.threads[t].Idle?
    ensures forall i :: 0 <= i < |s.free| ==> s.free[i] == []
    ensures forall d :: d in s.live <==> exists x :: x in s.leases && s.leases[x].buf.data == d
    ensures s.leases == map[] ==> s.live == map[] && s.mrs == map[]
  {
    ShutdownDrains(c, s);
    forall d
      ensures d in s.live <==> exists x :: x in s.leases && s.leases[x].buf.data == d
    {
      LiveIsLeased(c, s, d);
    }
    if s.leases == map[] {
      LeakBounded(c, s);
    }
  }

  lemma LiveIsLeased(c: Config, s: State, d: nat)
    requires Reachable(c, s) && s.phase.Finished?
    requires forall t :: t in s.threads ==> s.threads[t].Idle?
    requires forall i :: 0 <= i < |s.free| ==> s.free[i] == []
    ensures d in s.live <==> exists x :: x in s.leases && s.leases[x].buf.data == d
  {
    ReachableInv(c, s);
    if d in s.live {
      var slot := LeaseOf(s, d);
      assert s.leases[slot].buf.data == d;
    }
    if x :| x in s.leases && s.leases[x].buf.data == d {
      LeasedIsLive(c, s, x);
    }
  }

  lemma LeasedIsLive(c: Config, s: State, slot: Slot)
    requires Inv(c, s) && slot in s.leases
    ensures s.leases[slot].buf.data in s.live
  {
    OwnerFacts(c, s, InLease(slot));
  }

  lemma LeaseOf(s: State, d: nat) returns (slot: Slot)
    requires Balanced(s) && s.phase.Finished? && d in s.live
    requires forall t :: t in s.threads ==> s.threads[t].Idle?
    requires forall i :: 0 <= i < |s.free| ==> s.free[i] == []
    ensures slot in s.leases && s.leases[slot].buf.data == d
  {
    var l := s.where[d];
    assert l in PartsOf(s).Holders();
    assert l.InLease?;
    slot := l.slot;
  }

  /** A cached entry has an address and the capacity of its class. */
  lemma CachedFacts(c: Config, s: State, i: nat, j: nat)
    requires Reachable(c, s) && i < |s.free| && j < |s.free[i]|
    ensures i < |c.classes| && s.free[i][j].data != 0 && s.free[i][j].capacity == c.classes[i]
  {
    BucketIndex(c, s, i, j);
    ReachableInv(c, s);
    NullIsFree(s);
  }

  /** Null is never live and never registered. */
  lemma NullIsFree(s: State)
    requires Balanced(s)
    ensures 0 !in s.live && 0 !in s.mrs
  {
    forall m | m in s.mrs
      ensures m != 0
    {
      assert s.where[s.mrs[m]] in PartsOf(s).Owners();
    }
  }

  lemma FreeIsAllowed(s: State, t: Tid)
    requires Balanced(s) && PcOf(s, t).AcqUndo?
    ensures PcOf(s, t).data in s.live && PcOf(s, t).data !in s.mrs.Values
  {
    DiedRegistered(PartsOf(s).Holders(), PartsOf(s).Owners(), s.live, s.mrs, s.where, InCall(t));
  }

  lemma UndoIsAllowed(c: Config, s: State, t: Tid)
    requires Reachable(c, s) && PcOf(s, t).AcqUndo?
    ensures PcOf(s, t).data in s.live && PcOf(s, t).data !in s.mrs.Values
  {
    ReachableInv(c, s);
    FreeIsAllowed(s, t);
  }

  lemma FreshSlotExists(used: set<Slot>)
    ensures exists slot: Slot :: slot !in used
  {
    var n := FreshNumber(used);
    assert n !in used;
  }

  lemma FirstFit(classes: seq<nat>, size: nat, i: nat)
    requires i <= |classes|
    requires forall j :: 0 <= j < i ==> classes[j] < size
    requires i < |classes| ==> classes[i] >= size
    ensures PickClass(classes, size) == i
  {
  }

  class PinnedBufferLease {
    var pool: PinnedBufferPool?
    var data: nat
    var capacity: nat
    var mr: nat
    var sizeClass: nat
    ghost var slot: Slot

    /** An empty lease, or one that the pool knows under this lease's slot. */
    ghost predicate Valid()
      reads this, if pool == null then {} else {pool}
    {
      if data == 0 then pool == null && capacity == 0 && mr == 0 && sizeClass == 0
      else pool != null && pool.Lends(this)
    }

    constructor ()
      ensures data == 0 && Valid()
    {
      pool := null;
      data, capacity, mr, sizeClass := 0, 0, 0, 0;
    }

    method Fill(pool: PinnedBufferPool, data: nat, capacity: nat, mr: nat, sizeClass: nat, ghost slot: Slot)
      modifies this
      ensures this.pool == pool && this.data == data && this.capacity == capacity && this.mr == mr
      ensures this.sizeClass == sizeClass && this.slot == slot
    {
      this.pool, this.data, this.capacity, this.mr := pool, data, capacity, mr;
      this.sizeClass, this.slot := sizeClass, slot;
    }

    /** The pool's side and the server's side of an empty lease are untouched. */
    ghost predicate PoolReady()
      reads this, if pool == null then {} else {pool}
      reads (if pool == null then {} else {pool.server})`live
      reads (if pool == null then {} else {pool.server})`mrs
    {
      pool != null ==> pool.Valid()
    }

    /** Gives the buffer back, if there is one. An oversize lease also has a pool, so nothing is leaked. */
    method Release()
      requires Valid() && PoolReady()
      modifies this
      modifies if pool == null then {} else {pool}
      modifies (if pool == null then {} else {pool.server})`live
      modifies (if pool == null then {} else {pool.server})`mrs
      ensures Valid() && data == 0
      ensures old(pool) != null ==>
        && old(pool).Valid() && old(slot) in old(pool.state.leases)
        && old(pool).View() == old(pool).GivenBack(old(pool.View()), old(slot))
    {
      if data == 0 {
        return;
      }
      pool.Release(data, capacity, mr, sizeClass, slot);
      pool := null;
      data, capacity, mr, sizeClass := 0, 0, 0, 0;
    }

    /** The move constructor's and the move assignment's common part: other's buffer becomes ours. */
    method TakeOver(other: PinnedBufferLease)
      requires this != other && Valid() && data == 0 && other.Valid() && other.PoolReady()
      modifies this, other
      modifies (if other.pool == null then {} else {other.pool})`state
      modifies (if other.pool == null then {} else {other.pool})`holders
      ensures Valid() && other.Valid() && other.data == 0
      ensures data == old(other.data) && capacity == old(other.capacity) && mr == old(other.mr)
      ensures sizeClass == old(other.sizeClass) && pool == old(other.pool)
      ensures pool != null ==>
        && pool.Valid() && old(other.slot) in old(other.pool.state.leases)
        && slot !in old(other.pool.state.leases)
        && pool.View() == Renamed(old(other.pool.View()), old(other.slot), slot, this)
    {
      pool, data, capacity, mr := other.pool, other.data, other.capacity, other.mr;
      sizeClass := other.sizeClass;
      if pool != null {
        slot := pool.NewSlot();
        pool.Rename(other.slot, slot, this);
      }
      other.pool := null;
      other.data, other.capacity, other.mr, other.sizeClass := 0, 0, 0, 0;
    }

    /**
      operator=(PinnedBufferLease&&): what was held goes back to its pool, and then the other's buffer
      moves here; a self-move changes nothing at all.
     */
    method MoveAssign(other: PinnedBufferLease)
      requires Valid() && PoolReady() && other.Valid() && other.PoolReady()
      requires pool != null && other.pool != null && pool != other.pool ==> pool.server != other.pool.server
      modifies this, other
      modifies if pool == null then {} else {pool}
      modifies (if pool == null then {} else {pool.server})`live
      modifies (if pool == null then {} else {pool.server})`mrs
      modifies (if other.pool == null then {} else {other.pool})`state
      modifies (if other.pool == null then {} else {other.pool})`holders
      ensures Valid() && other.Valid()
      ensures old(pool) != null ==> old(pool).Valid() && old(slot) in old(pool.state.leases)
      ensures old(other.pool) != null ==> old(other.pool).Valid() && old(other.slot) in old(other.pool.state.leases)
      ensures this == other ==>
        && pool == old(pool) && data == old(data) && capacity == old(capacity) && mr == old(mr)
        && sizeClass == old(sizeClass) && slot == old(slot)
        && (pool != null ==> pool.View() == old(pool.View()))
      ensures this != other ==>
        && other.data == 0
        && data == old(other.data) && capacity == old(other.capacity) && mr == old(other.mr)
        && sizeClass == old(other.sizeClass) && pool == old(other.pool)
      ensures this != other && old(pool) != null && old(pool) != old(other.pool) ==>
        old(pool).View() == old(pool).GivenBack(old(pool.View()), old(slot))
      ensures this != other && old(other.pool) != null ==>
        var before :=
          if old(pool) == old(other.pool) then old(other.pool).GivenBack(old(other.pool.View()), old(slot))
          else old(other.pool.View());
        && old(other.slot) in before.leases && slot !in before.leases
        && old(other.pool).View() == Renamed(before, old(other.slot), slot, this)
    {
      if this == other {
        return;
      }
      Release();
      TakeOver(other);
    }
  }
}
