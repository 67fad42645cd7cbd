/**
  The pinned-buffer pool under any number of threads.

  Acquire, Release and Shutdown are cut at every point where another thread can run: each atomic
  read of the shutdown flag, each bucket's critical section, and each call that allocates, registers,
  deregisters or frees. A step names the thread and whatever the outside world decides.
 */
module PoolMachine {
  import opened Options
  import opened PoolSpec
  import opened PoolLedger

  datatype Config = Config(classes: seq<nat>, maxPerClass: nat)

  datatype Lease = Lease(buf: CachedBuffer, cls: nat, asked: nat)

  datatype Pc =
    | Idle
    | AcqFlag(size: nat)
    | AcqLock(size: nat)
    | AcqAlloc(size: nat)
    | AcqRegister(size: nat, data: nat, capacity: nat)
    | AcqUndo(data: nat, capacity: nat)
    | RelFlag(buf: CachedBuffer, cls: nat)
    | RelLock(buf: CachedBuffer, cls: nat)
    | RelDereg(buf: CachedBuffer)
    | RelFree(buf: CachedBuffer)
    | ShutCas
    | ShutWinner

  /** How far the one Shutdown that won the exchange has come. */
  datatype Phase =
    | NotStarted
    | Draining(winner: Tid, next: nat)
    | Deregistering(winner: Tid, k: nat)
    | Freeing(winner: Tid, k: nat)
    | Finished

  /**
    `where`, `early` and `pending` are history: no step reads them to decide anything. `early` is
    the set of Releases caught between their flag read and their lock when the exchange succeeded,
    `pending` those of them still there. `bad` records a deregistration or free of something that
    is not live, or a free before the deregistration.
   */
  datatype State = State(
    free: seq<seq<CachedBuffer>>,
    phase: Phase,
    drain: seq<CachedBuffer>,
    threads: map<Tid, Pc>,
    leases: map<Slot, Lease>,
    live: map<nat, nat>,
    mrs: map<nat, nat>,
    bad: bool,
    where: map<nat, Loc>,
    early: set<Tid>,
    pending: set<Tid>)

  datatype Step =
    | Spawn(t: Tid)
    | AcquireStart(t: Tid, size: nat)
    | AcquireReadFlag(t: Tid)
    | AcquireTake(t: Tid, slot: Slot)
    | AcquireAlloc(t: Tid, address: nat)
    | AcquireRegister(t: Tid, handle: nat, slot: Slot)
    | AcquireUndo(t: Tid)
    | LeaseMove(from: Slot, to: Slot)
    | ReleaseStart(t: Tid, slot: Slot)
    | ReleaseReadFlag(t: Tid)
    | ReleasePut(t: Tid)
    | ReleaseDereg(t: Tid)
    | ReleaseFree(t: Tid)
    | ShutdownStart(t: Tid)
    | ShutdownExchange(t: Tid)
    | ShutdownDrain(t: Tid)
    | ShutdownDereg(t: Tid)
    | ShutdownFree(t: Tid)

  function Init(c: Config): State {
    State(seq(|c.classes|, _ => []), NotStarted, [], map[], map[], map[], map[], false, map[], {}, {})
  }

  function PcOf(s: State, t: Tid): Pc {
    if t in s.threads then s.threads[t] else Idle
  }

  function Class(c: Config, size: nat): nat {
    PickClass(c.classes, size)
  }

  function Capacity(c: Config, size: nat): nat {
    CapacityFor(c.classes, size)
  }

  function Goto(s: State, t: Tid, pc: Pc): State {
    s.(threads := s.threads[t := pc])
  }

  // ---- The effects of the outside world and of handing a buffer over ----

  /** deRegisterBuffer: wrong unless the handle is registered. */
  function Dereg(s: State, mr: nat): State {
    s.(bad := s.bad || mr !in s.mrs, mrs := s.mrs - {mr})
  }

  /** free: wrong unless the address is live and no registration covers it. */
  function Free(s: State, data: nat): State {
    s.(bad := s.bad || data !in s.live || data in s.mrs.Values,
       live := s.live - {data}, where := s.where - {data})
  }

  function Hold(s: State, data: nat, l: Loc): State {
    s.(where := s.where[data := l])
  }

  function GiveLease(s: State, slot: Slot, lease: Lease): State {
    Hold(s.(leases := s.leases[slot := lease]), lease.buf.data, InLease(slot))
  }

  // ---- Steps ----

  function AcquireStartStep(c: Config, s: State, t: Tid, size: nat): State {
    Goto(s, t, if Class(c, size) == |c.classes| then AcqAlloc(size) else AcqFlag(size))
  }

  function AcquireReadFlagStep(s: State, t: Tid): State
    requires PcOf(s, t).AcqFlag?
  {
    var size := PcOf(s, t).size;
    Goto(s, t, if s.phase.NotStarted? then AcqLock(size) else AcqAlloc(size))
  }

  predicate CanTake(c: Config, s: State, t: Tid, slot: Slot) {
    PcOf(s, t).AcqLock? && Class(c, PcOf(s, t).size) < |s.free| && slot !in s.leases
  }

  /** The last entry of bucket i becomes the lease in `slot`. */
  function Take(s: State, t: Tid, slot: Slot, i: nat, size: nat): State
    requires i < |s.free| && s.free[i] != []
  {
    var n := |s.free[i]| - 1;
    var s1 := s.(free := s.free[i := s.free[i][..n]]);
    Goto(GiveLease(s1, slot, Lease(s.free[i][n], i, size)), t, Idle)
  }

  function AcquireTakeStep(c: Config, s: State, t: Tid, slot: Slot): State
    requires CanTake(c, s, t, slot)
  {
    var size := PcOf(s, t).size;
    var i := Class(c, size);
    if s.free[i] == [] then Goto(s, t, AcqAlloc(size)) else Take(s, t, slot, i, size)
  }

  function AcquireAllocStep(c: Config, s: State, t: Tid, address: nat): State
    requires PcOf(s, t).AcqAlloc?
  {
    var size := PcOf(s, t).size;
    if address == 0 then Goto(s, t, Idle)
    else
      var s1 := s.(live := s.live[address := Capacity(c, size)]);
      Goto(Hold(s1, address, InCall(t)), t, AcqRegister(size, address, Capacity(c, size)))
  }

  function AcquireRegisterStep(c: Config, s: State, t: Tid, handle: nat, slot: Slot): State
    requires PcOf(s, t).AcqRegister?
  {
    var size, data, capacity := PcOf(s, t).size, PcOf(s, t).data, PcOf(s, t).capacity;
    if handle == 0 then Goto(s, t, AcqUndo(data, capacity))
    else
      var s1 := s.(mrs := s.mrs[handle := data]);
      var lease := Lease(CachedBuffer(data, capacity, handle), Class(c, size), size);
      Goto(GiveLease(s1, slot, lease), t, Idle)
  }

  function AcquireUndoStep(s: State, t: Tid): State
    requires PcOf(s, t).AcqUndo?
  {
    Goto(Free(s, PcOf(s, t).data), t, Idle)
  }

  function LeaseMoveStep(s: State, from: Slot, to: Slot): State
    requires from in s.leases
  {
    GiveLease(s.(leases := s.leases - {from}), to, s.leases[from])
  }

  function ReleaseStartStep(s: State, t: Tid, slot: Slot): State
    requires slot in s.leases
  {
    var lease := s.leases[slot];
    var s1 := Hold(s.(leases := s.leases - {slot}), lease.buf.data, InCall(t));
    Goto(s1, t, RelFlag(lease.buf, lease.cls))
  }

  function ReleaseReadFlagStep(c: Config, s: State, t: Tid): State
    requires PcOf(s, t).RelFlag?
  {
    var buf, cls := PcOf(s, t).buf, PcOf(s, t).cls;
    Goto(s, t, if !s.phase.NotStarted? || cls >= |c.classes| then RelDereg(buf) else RelLock(buf, cls))
  }

  predicate CanPut(s: State, t: Tid) {
    PcOf(s, t).RelLock? && PcOf(s, t).cls < |s.free|
  }

  /** The buffer goes to the end of bucket i. */
  function Put(s: State, t: Tid, buf: CachedBuffer, i: nat): State
    requires i < |s.free|
  {
    var s1 := s.(free := s.free[i := s.free[i] + [buf]]);
    Goto(Hold(s1, buf.data, InFree(i, |s.free[i]|)), t, Idle)
  }

  function ReleasePutStep(c: Config, s: State, t: Tid): State
    requires CanPut(s, t)
  {
    var buf, i := PcOf(s, t).buf, PcOf(s, t).cls;
    var s1 := s.(pending := s.pending - {t});
    if |s.free[i]| >= c.maxPerClass then Goto(s1, t, RelDereg(buf)) else Put(s1, t, buf, i)
  }

  function ReleaseDeregStep(s: State, t: Tid): State
    requires PcOf(s, t).RelDereg?
  {
    var buf := PcOf(s, t).buf;
    Goto(Dereg(s, buf.mr), t, RelFree(buf))
  }

  function ReleaseFreeStep(s: State, t: Tid): State
    requires PcOf(s, t).RelFree?
  {
    Goto(Free(s, PcOf(s, t).buf.data), t, Idle)
  }

  function Waiting(threads: map<Tid, Pc>): set<Tid> {
    set t | t in threads && threads[t].RelLock?
  }

  function ShutdownExchangeStep(s: State, t: Tid): State {
    if !s.phase.NotStarted? then Goto(s, t, Idle)
    else Goto(s.(phase := Draining(t, 0), early := Waiting(s.threads), pending := Waiting(s.threads)), t, ShutWinner)
  }

  predicate CanDrain(s: State, t: Tid) {
    PcOf(s, t).ShutWinner? && s.phase.Draining? && s.phase.next <= |s.free|
  }

  /** Every entry of bucket i goes to the end of the list to destroy. */
  function Drained(s: State, i: nat): State
    requires i < |s.free|
  {
    s.(free := s.free[i := []],
       drain := s.drain + s.free[i],
       where := map d | d in s.where ::
         if s.where[d].InFree? && s.where[d].i == i then InDrain(|s.drain| + s.where[d].j) else s.where[d])
  }

  function ShutdownDrainStep(s: State, t: Tid): State
    requires CanDrain(s, t)
  {
    var i := s.phase.next;
    if i == |s.free| then s.(phase := Deregistering(t, 0))
    else Drained(s, i).(phase := Draining(t, i + 1))
  }

  predicate CanDereg(s: State, t: Tid) {
    PcOf(s, t).ShutWinner? && s.phase.Deregistering? && s.phase.k <= |s.drain|
  }

  function ShutdownDeregStep(s: State, t: Tid): State
    requires CanDereg(s, t)
  {
    var k := s.phase.k;
    if k == |s.drain| then Goto(s.(phase := Finished), t, Idle)
    else Dereg(s, s.drain[k].mr).(phase := Freeing(t, k))
  }

  predicate CanFree(s: State, t: Tid) {
    PcOf(s, t).ShutWinner? && s.phase.Freeing? && s.phase.k < |s.drain|
  }

  function ShutdownFreeStep(s: State, t: Tid): State
    requires CanFree(s, t)
  {
    var k := s.phase.k;
    Free(s, s.drain[k].data).(phase := Deregistering(t, k + 1))
  }

  predicate IsIdle(s: State, t: Tid) {
    t in s.threads && s.threads[t].Idle?
  }

  predicate Enabled(c: Config, s: State, a: Step) {
    match a
    case Spawn(t) => t !in s.threads
    case AcquireStart(t, size) => IsIdle(s, t) && size > 0
    case AcquireReadFlag(t) => PcOf(s, t).AcqFlag?
    case AcquireTake(t, slot) => CanTake(c, s, t, slot)
    case AcquireAlloc(t, address) => PcOf(s, t).AcqAlloc? && address !in s.live
    case AcquireRegister(t, handle, slot) =>
      PcOf(s, t).AcqRegister? && handle !in s.mrs && slot !in s.leases
    case AcquireUndo(t) => PcOf(s, t).AcqUndo?
    case LeaseMove(from, to) => from in s.leases && to !in s.leases
    case ReleaseStart(t, slot) => IsIdle(s, t) && slot in s.leases
    case ReleaseReadFlag(t) => PcOf(s, t).RelFlag?
    case ReleasePut(t) => CanPut(s, t)
    case ReleaseDereg(t) => PcOf(s, t).RelDereg?
    case ReleaseFree(t) => PcOf(s, t).RelFree?
    case ShutdownStart(t) => IsIdle(s, t)
    case ShutdownExchange(t) => PcOf(s, t).ShutCas?
    case ShutdownDrain(t) => CanDrain(s, t)
    case ShutdownDereg(t) => CanDereg(s, t)
    case ShutdownFree(t) => CanFree(s, t)
  }

  function Do(c: Config, s: State, a: Step): State
    requires Enabled(c, s, a)
  {
    match a
    case Spawn(t) => Goto(s, t, Idle)
    case AcquireStart(t, size) => AcquireStartStep(c, s, t, size)
    case AcquireReadFlag(t) => AcquireReadFlagStep(s, t)
    case AcquireTake(t, slot) => AcquireTakeStep(c, s, t, slot)
    case AcquireAlloc(t, address) => AcquireAllocStep(c, s, t, address)
    case AcquireRegister(t, handle, slot) => AcquireRegisterStep(c, s, t, handle, slot)
    case AcquireUndo(t) => AcquireUndoStep(s, t)
    case LeaseMove(from, to) => LeaseMoveStep(s, from, to)
    case ReleaseStart(t, slot) => ReleaseStartStep(s, t, slot)
    case ReleaseReadFlag(t) => ReleaseReadFlagStep(c, s, t)
    case ReleasePut(t) => ReleasePutStep(c, s, t)
    case ReleaseDereg(t) => ReleaseDeregStep(s, t)
    case ReleaseFree(t) => ReleaseFreeStep(s, t)
    case ShutdownStart(t) => Goto(s, t, ShutCas)
    case ShutdownExchange(t) => ShutdownExchangeStep(s, t)
    case ShutdownDrain(t) => ShutdownDrainStep(s, t)
    case ShutdownDereg(t) => ShutdownDeregStep(s, t)
    case ShutdownFree(t) => ShutdownFreeStep(s, t)
  }

  /** A run: any finite sequence of enabled steps. */
  ghost predicate Leads(c: Config, s: State, steps: seq<Step>, s': State)
    decreases |steps|
  {
    if steps == [] then s == s'
    else Enabled(c, s, steps[0]) && Leads(c, Do(c, s, steps[0]), steps[1..], s')
  }

  ghost predicate Reachable(c: Config, s: State) {
    exists steps :: Leads(c, Init(c), steps, s)
  }

  // ---- The invariant ----

  /** The buffer a call in flight is responsible for. */
  function InFlight(pc: Pc): Option<CachedBuffer> {
    match pc
    case AcqRegister(_, data, capacity) => Some(CachedBuffer(data, capacity, 0))
    case AcqUndo(data, capacity) => Some(CachedBuffer(data, capacity, 0))
    case RelFlag(buf, _) => Some(buf)
    case RelLock(buf, _) => Some(buf)
    case RelDereg(buf) => Some(buf)
    case RelFree(buf) => Some(buf)
    case _ => None
  }

  /** Whether that buffer is still registered. */
  predicate OwnsRegistration(pc: Pc) {
    pc.RelFlag? || pc.RelLock? || pc.RelDereg?
  }

  ghost function FreeHolders(free: seq<seq<CachedBuffer>>): Holders {
    imap l: Loc | l.InFree? && l.i < |free| && l.j < |free[l.i]| :: free[l.i][l.j]
  }

  ghost function DrainHolders(drain: seq<CachedBuffer>, first: nat): Holders {
    imap l: Loc | l.InDrain? && first <= l.k < |drain| :: drain[l.k]
  }

  ghost function LeaseHolders(leases: map<Slot, Lease>): Holders {
    imap l: Loc | l.InLease? && l.slot in leases :: leases[l.slot].buf
  }

  ghost function CallHolders(threads: map<Tid, Pc>): Holders {
    imap l: Loc | l.InCall? && l.t in threads && InFlight(threads[l.t]).Some? :: InFlight(threads[l.t]).value
  }

  ghost function CallOwners(threads: map<Tid, Pc>): iset<Loc> {
    iset l: Loc | l.InCall? && l.t in threads && OwnsRegistration(threads[l.t])
  }

  /** The first entry of the list to destroy that is still held. */
  function FirstHeld(s: State): nat {
    match s.phase
    case NotStarted => 0
    case Draining(_, _) => 0
    case Deregistering(_, k) => k
    case Freeing(_, k) => k
    case Finished => |s.drain|
  }

  /** The first entry of the list to destroy that is still registered. */
  function FirstRegistered(s: State): nat {
    if s.phase.Freeing? then s.phase.k + 1 else FirstHeld(s)
  }

  /** All holders, sorted by kind, and those of them that still own a registration. */
  ghost function PartsOf(s: State): Parts {
    Parts(FreeHolders(s.free), DrainHolders(s.drain, FirstHeld(s)), LeaseHolders(s.leases), CallHolders(s.threads),
      DrainHolders(s.drain, FirstRegistered(s)).Keys, CallOwners(s.threads))
  }

  /** Every buffer is held in one place, and each registration belongs to the holder of its buffer. */
  ghost predicate Balanced(s: State) {
    Ledger(PartsOf(s), s.live, s.mrs, s.where)
  }

  /** A buffer released to class cls has that class's capacity, unless it is oversize. */
  predicate Fits(c: Config, buf: CachedBuffer, cls: nat) {
    cls < |c.classes| ==> buf.capacity == c.classes[cls]
  }

  predicate PcSized(c: Config, pc: Pc) {
    match pc
    case AcqFlag(size) => size > 0 && Class(c, size) < |c.classes|
    case AcqLock(size) => size > 0 && Class(c, size) < |c.classes|
    case AcqAlloc(size) => size > 0
    case AcqRegister(size, _, capacity) => size > 0 && capacity == Capacity(c, size)
    case RelFlag(buf, cls) => Fits(c, buf, cls)
    case RelLock(buf, cls) => cls < |c.classes| && Fits(c, buf, cls)
    case _ => true
  }

  predicate LeaseSized(c: Config, lease: Lease) {
    && lease.asked > 0
    && lease.cls == Class(c, lease.asked)
    && lease.buf.capacity == Capacity(c, lease.asked)
  }

  predicate BucketSized(c: Config, list: seq<CachedBuffer>, capacity: nat) {
    |list| <= c.maxPerClass && forall j :: 0 <= j < |list| ==> list[j].capacity == capacity
  }

  ghost predicate BucketsSized(c: Config, free: seq<seq<CachedBuffer>>) {
    && |free| == |c.classes|
    && forall i :: 0 <= i < |free| ==> BucketSized(c, free[i], c.classes[i])
  }

  ghost predicate ThreadsSized(c: Config, threads: map<Tid, Pc>) {
    forall t :: t in threads ==> PcSized(c, threads[t])
  }

  ghost predicate LeasesSized(c: Config, leases: map<Slot, Lease>) {
    forall x :: x in leases ==> LeaseSized(c, leases[x])
  }

  ghost predicate Sized(c: Config, s: State) {
    BucketsSized(c, s.free) && ThreadsSized(c, s.threads) && LeasesSized(c, s.leases)
  }

  /** How many buckets the winner has emptied. */
  function DrainedCount(s: State): nat {
    match s.phase
    case NotStarted => 0
    case Draining(_, next) => next
    case _ => |s.free|
  }

  /** Entries sitting in buckets that were already emptied. */
  function Strays(s: State): nat {
    TotalLength(if DrainedCount(s) <= |s.free| then s.free[..DrainedCount(s)] else s.free)
  }

  predicate PhaseInRange(phase: Phase, drain: seq<CachedBuffer>, buckets: nat) {
    match phase
    case NotStarted => drain == []
    case Draining(_, next) => next <= buckets
    case Deregistering(_, k) => k <= |drain|
    case Freeing(_, k) => k < |drain|
    case Finished => true
  }

  /** Only the Shutdown that won the exchange goes on, and only it advances the phase. */
  ghost predicate OneWinner(threads: map<Tid, Pc>, phase: Phase) {
    forall t :: t in threads && threads[t].ShutWinner? ==>
      !phase.NotStarted? && !phase.Finished? && phase.winner == t
  }

  /** After the exchange, no Release but the early ones can be waiting for a bucket. */
  ghost predicate OnlyEarlyWait(threads: map<Tid, Pc>, phase: Phase, pending: set<Tid>, early: set<Tid>) {
    !phase.NotStarted? ==> pending == Waiting(threads) && pending <= early
  }

  ghost predicate ShutdownOrder(s: State) {
    && PhaseInRange(s.phase, s.drain, |s.free|)
    && OneWinner(s.threads, s.phase)
    && OnlyEarlyWait(s.threads, s.phase, s.pending, s.early)
  }

  ghost predicate Inv(c: Config, s: State) {
    && Balanced(s)
    && Sized(c, s)
    && ShutdownOrder(s)
    && !s.bad
  }
}
