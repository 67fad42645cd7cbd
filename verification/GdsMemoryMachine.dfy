/**
  The client's registration cache under any number of threads.

  RegisterBuffer and UnregisterBuffer do their work inside one critical section; AcquireToken looks
  inside one, registers if need be inside another, and asks for the token outside both. The calls
  made to the RDMA library are counted. A token obtained is one that is not out, but it may be one that
  was out before.
 */
module GdsMemoryMachine {
  import opened Options
  import opened Numbers

  type Tid = nat
  type Slot = nat

  /** size + offset in size_t, which wraps. */
  function Span(size: nat, offset: nat): nat {
    (size + offset) % UINT64
  }

  datatype Pc =
    | Idle
    | RegLock(ptr: nat, size: nat)
    | UnregLock(ptr: nat)
    | AcqCheck(ptr: nat, size: nat, offset: nat, out: Slot)
    | AcqRegister(ptr: nat, size: nat, offset: nat, out: Slot)
    | AcqToken(ptr: nat, size: nat, offset: nat, out: Slot)

  /**
    `slots` are the Token objects that hold a token. `gets` and `puts` count the successful
    GetDescriptor calls and the PutDescriptor calls per pointer, `obtained` and `returned` the tokens;
    `holder` says which slot a token went to last.
   */
  datatype State = State(
    registered: map<nat, nat>,
    threads: map<Tid, Pc>,
    slots: map<Slot, nat>,
    gets: multiset<nat>,
    puts: multiset<nat>,
    obtained: multiset<nat>,
    returned: multiset<nat>,
    holder: map<nat, Slot>)

  datatype Step =
    | Spawn(t: Tid)
    | CallRegister(t: Tid, ptr: nat, size: nat)
    | CallUnregister(t: Tid, ptr: nat)
    | CallAcquire(t: Tid, ptr: nat, size: nat, offset: nat, out: Slot)
    | LockedRegister(t: Tid, ptr: nat, ok: bool)
    | LockedUnregister(t: Tid, ptr: nat)
    | LockedCheck(t: Tid)
    | LockedAcquire(t: Tid, ptr: nat, ok: bool)
    | GetToken(t: Tid, token: Option<nat>)
    | MoveToken(from: Slot, to: Slot)
    | ResetToken(slot: Slot)
    | Destroy

  function Init(): State {
    State(map[], map[], map[], multiset{}, multiset{}, multiset{}, multiset{}, map[])
  }

  function PcOf(s: State, t: Tid): Pc {
    if t in s.threads then s.threads[t] else Idle
  }

  function Goto(s: State, t: Tid, pc: Pc): State {
    s.(threads := s.threads[t := pc])
  }

  /** RegisterBufferUnderLock; `ok` is the library's answer, if it is asked. */
  function Register(s: State, ptr: nat, size: nat, ok: bool): State {
    var asks := ptr !in s.registered && ok;
    s.(registered := if asks then s.registered[ptr := size] else s.registered,
       gets := if asks then s.gets + multiset{ptr} else s.gets)
  }

  predicate HasRoom(s: State, ptr: nat, ok: bool) {
    ptr in s.registered || ok
  }

  /** The descriptor is put back and forgotten whatever the library answers. */
  function Unregister(s: State, ptr: nat): State {
    var known := ptr in s.registered;
    s.(registered := s.registered - {ptr}, puts := if known then s.puts + multiset{ptr} else s.puts)
  }

  /** Token::Reset */
  function Reset(s: State, slot: Slot): State {
    s.(returned := if slot in s.slots then s.returned + multiset{s.slots[slot]} else s.returned,
       slots := s.slots - {slot})
  }

  function Fill(s: State, slot: Slot, token: nat): State {
    s.(slots := s.slots[slot := token], holder := s.holder[token := slot])
  }

  function GetTokenStep(s: State, t: Tid, token: Option<nat>): State
    requires PcOf(s, t).AcqToken?
  {
    match token
    case None => Goto(s, t, Idle)
    case Some(k) =>
      var s1 := Reset(s, PcOf(s, t).out);
      Goto(Fill(s1.(obtained := s1.obtained + multiset{k}), PcOf(s, t).out, k), t, Idle)
  }

  /** Token's move assignment; moving a token to its own place does nothing. */
  function MoveStep(s: State, from: Slot, to: Slot): State
    requires from in s.slots
  {
    if from == to then s
    else
      var s1 := Reset(s, to);
      Fill(s1.(slots := s1.slots - {from}), to, s.slots[from])
  }

  /** The manager's destructor puts back what is still registered. */
  function DestroyStep(s: State): State {
    s.(registered := map[], puts := s.puts + multiset(s.registered.Keys))
  }

  predicate IsIdle(s: State, t: Tid) {
    t in s.threads && s.threads[t].Idle?
  }

  predicate Enabled(s: State, a: Step) {
    match a
    case Spawn(t) => t !in s.threads
    case CallRegister(t, ptr, size) => IsIdle(s, t) && ptr != 0 && size > 0
    case CallUnregister(t, ptr) => IsIdle(s, t) && ptr != 0
    case CallAcquire(t, ptr, size, _, _) => IsIdle(s, t) && ptr != 0 && size > 0
    case LockedRegister(t, ptr, _) => PcOf(s, t).RegLock? && PcOf(s, t).ptr == ptr
    case LockedUnregister(t, ptr) => PcOf(s, t) == UnregLock(ptr)
    case LockedCheck(t) => PcOf(s, t).AcqCheck?
    case LockedAcquire(t, ptr, _) => PcOf(s, t).AcqRegister? && PcOf(s, t).ptr == ptr
    case GetToken(t, token) => PcOf(s, t).AcqToken? && (token.Some? ==> token.value !in s.slots.Values)
    case MoveToken(from, _) => from in s.slots
    case ResetToken(slot) => slot in s.slots
    case Destroy => forall t :: t in s.threads ==> s.threads[t].Idle?
  }

  function Do(s: State, a: Step): State
    requires Enabled(s, a)
  {
    match a
    case Spawn(t) => Goto(s, t, Idle)
    case CallRegister(t, ptr, size) => Goto(s, t, RegLock(ptr, size))
    case CallUnregister(t, ptr) => Goto(s, t, UnregLock(ptr))
    case CallAcquire(t, ptr, size, offset, out) => Goto(s, t, AcqCheck(ptr, size, offset, out))
    case LockedRegister(t, ptr, ok) => Goto(Register(s, ptr, PcOf(s, t).size, ok), t, Idle)
    case LockedUnregister(t, ptr) => Goto(Unregister(s, ptr), t, Idle)
    case LockedCheck(t) =>
      var p := PcOf(s, t);
      Goto(s, t, if p.ptr in s.registered then AcqToken(p.ptr, p.size, p.offset, p.out)
                 else AcqRegister(p.ptr, p.size, p.offset, p.out))
    case LockedAcquire(t, ptr, ok) =>
      var p := PcOf(s, t);
      Goto(Register(s, ptr, Span(p.size, p.offset), ok), t,
        if HasRoom(s, ptr, ok) then AcqToken(ptr, p.size, p.offset, p.out) else Idle)
    case GetToken(t, token) => GetTokenStep(s, t, token)
    case MoveToken(from, to) => MoveStep(s, from, to)
    case ResetToken(slot) => Reset(s, slot)
    case Destroy => DestroyStep(s)
  }

  ghost predicate Leads(s: State, steps: seq<Step>, s': State)
    decreases |steps|
  {
    if steps == [] then s == s'
    else Enabled(s, steps[0]) && Leads(Do(s, steps[0]), steps[1..], s')
  }

  ghost predicate Reachable(s: State) {
    exists steps :: Leads(Init(), steps, s)
  }

  // ---- The invariant ----

  /** Descriptors got and not put back: one per registered pointer, none for any other. */
  ghost predicate Balanced(registered: map<nat, nat>, gets: multiset<nat>, puts: multiset<nat>) {
    forall p: nat :: gets[p] == puts[p] + if p in registered then 1 else 0
  }

  predicate Out(slots: map<Slot, nat>, holder: map<nat, Slot>, k: nat) {
    k in holder && holder[k] in slots && slots[holder[k]] == k
  }

  /** Tokens obtained and not returned: each is in exactly one slot, and no other token is in any. */
  ghost predicate TokensOnce(
      slots: map<Slot, nat>, obtained: multiset<nat>, returned: multiset<nat>, holder: map<nat, Slot>) {
    && (forall x :: x in slots ==> slots[x] in holder && holder[slots[x]] == x)
    && (forall k: nat :: obtained[k] == returned[k] + if Out(slots, holder, k) then 1 else 0)
  }

  ghost predicate Inv(s: State) {
    Balanced(s.registered, s.gets, s.puts) && TokensOnce(s.slots, s.obtained, s.returned, s.holder)
  }

  lemma RegisterBalanced(s: State, ptr: nat, size: nat, ok: bool)
    requires Inv(s)
    ensures Inv(Register(s, ptr, size, ok))
  {
  }

  lemma UnregisterBalanced(s: State, ptr: nat)
    requires Inv(s)
    ensures Inv(Unregister(s, ptr))
  {
  }

  lemma DestroyBalanced(s: State)
    requires Inv(s)
    ensures Inv(DestroyStep(s))
  {
    forall p: nat
      ensures DestroyStep(s).gets[p] == DestroyStep(s).puts[p]
    {
      assert s.gets[p] == s.puts[p] + if p in s.registered then 1 else 0;
      assert multiset(s.registered.Keys)[p] == if p in s.registered then 1 else 0;
    }
  }

  lemma ResetTokens(s: State, slot: Slot)
    requires Inv(s)
    ensures Inv(Reset(s, slot))
  {
  }

  lemma NewToken(s: State, slot: Slot, k: nat)
    requires Inv(s) && slot !in s.slots && k !in s.slots.Values
    ensures Inv(Fill(s.(obtained := s.obtained + multiset{k}), slot, k))
  {
  }

  lemma MovedToken(s: State, from: Slot, to: Slot)
    requires Inv(s) && from in s.slots && to !in s.slots
    ensures Inv(Fill(s.(slots := s.slots - {from}), to, s.slots[from]))
  {
  }

  lemma GetTokenKeeps(s: State, t: Tid, token: Option<nat>)
    requires Inv(s) && PcOf(s, t).AcqToken? && (token.Some? ==> token.value !in s.slots.Values)
    ensures Inv(GetTokenStep(s, t, token))
  {
    if token.Some? {
      var out := PcOf(s, t).out;
      ResetTokens(s, out);
      assert Reset(s, out).slots.Values <= s.slots.Values;
      NewToken(Reset(s, out), out, token.value);
    }
  }

  lemma MoveKeeps(s: State, from: Slot, to: Slot)
    requires Inv(s) && from in s.slots
    ensures Inv(MoveStep(s, from, to))
  {
    if from != to {
      ResetTokens(s, to);
      MovedToken(Reset(s, to), from, to);
    }
  }

  lemma StepKeepsInv(s: State, a: Step)
    requires Inv(s) && Enabled(s, a)
    ensures Inv(Do(s, a))
  {
    match a
    case LockedRegister(t, ptr, ok) => RegisterBalanced(s, ptr, PcOf(s, t).size, ok);
    case LockedUnregister(t, ptr) => UnregisterBalanced(s, ptr);
    case LockedAcquire(t, ptr, ok) =>
      RegisterBalanced(s, ptr, Span(PcOf(s, t).size, PcOf(s, t).offset), ok);
    case GetToken(t, token) => GetTokenKeeps(s, t, token);
    case MoveToken(from, to) => MoveKeeps(s, from, to);
    case ResetToken(slot) => ResetTokens(s, slot);
    case Destroy => DestroyBalanced(s);
    case _ =>
  }

  lemma {:induction false} RunKeepsInv(s: State, steps: seq<Step>, s': State)
    requires Inv(s) && Leads(s, steps, s')
    ensures Inv(s')
    decreases |steps|
  {
    if steps != [] {
      StepKeepsInv(s, steps[0]);
      RunKeepsInv(Do(s, steps[0]), steps[1..], s');
    }
  }

  lemma ReachableInv(s: State)
    requires Reachable(s)
    ensures Inv(s)
  {
    var steps :| Leads(Init(), steps, s);
    RunKeepsInv(Init(), steps, s);
  }

  // ---- Theorems ----

  /** In every reachable state a pointer has an open descriptor exactly when it is registered, and never two. */
  lemma DescriptorBalance(s: State, ptr: nat)
    requires Reachable(s)
    ensures s.gets[ptr] == s.puts[ptr] + if ptr in s.registered then 1 else 0
  {
    ReachableInv(s);
  }

  /** The manager's destructor leaves no descriptor open. */
  lemma DestroyClosesAll(s: State, ptr: nat)
    requires Reachable(s) && Enabled(s, Destroy)
    ensures Do(s, Destroy).gets[ptr] == Do(s, Destroy).puts[ptr]
  {
    ReachableInv(s);
    StepKeepsInv(s, Destroy);
  }

  /** No token is held twice, and it was obtained once more than returned exactly while it is held. */
  lemma TokenOwnership(s: State, k: nat)
    requires Reachable(s)
    ensures forall x, y :: x in s.slots && y in s.slots && s.slots[x] == k && s.slots[y] == k ==> x == y
    ensures s.obtained[k] == s.returned[k] + if k in s.slots.Values then 1 else 0
  {
    ReachableInv(s);
    assert Out(s.slots, s.holder, k) <==> k in s.slots.Values;
  }

  /** Registered memory stays registered until somebody unregisters it or the manager goes away. */
  lemma {:induction false} StaysRegistered(s: State, steps: seq<Step>, s': State, ptr: nat)
    requires Leads(s, steps, s') && ptr in s.registered
    requires forall i :: 0 <= i < |steps| ==>
      !(steps[i].LockedUnregister? && steps[i].ptr == ptr) && !steps[i].Destroy?
    ensures ptr in s'.registered && s'.registered[ptr] == s.registered[ptr]
    decreases |steps|
  {
    if steps != [] {
      var a := steps[0];
      assert !(a.LockedUnregister? && a.ptr == ptr) && !a.Destroy?;
      StepKeepsRegistered(s, a, ptr);
      StaysRegistered(Do(s, a), steps[1..], s', ptr);
    }
  }

  lemma StepKeepsRegistered(s: State, a: Step, ptr: nat)
    requires Enabled(s, a) && ptr in s.registered
    requires !(a.LockedUnregister? && a.ptr == ptr) && !a.Destroy?
    ensures ptr in Do(s, a).registered && Do(s, a).registered[ptr] == s.registered[ptr]
  {
  }

  /** The steps after which a pointer is certainly not registered, and those after which it certainly is. */
  predicate Closes(a: Step, ptr: nat) {
    (a.LockedUnregister? && a.ptr == ptr) || a.Destroy?
  }

  predicate Opens(a: Step, ptr: nat) {
    (a.LockedRegister? || a.LockedAcquire?) && a.ptr == ptr && a.ok
  }

  /** Every step that closes the pointer's descriptor is followed by one that opens it. */
  ghost predicate ReopenedAfter(steps: seq<Step>, ptr: nat) {
    forall i :: 0 <= i < |steps| && Closes(steps[i], ptr) ==>
      exists j :: i < j < |steps| && Opens(steps[j], ptr)
  }

  lemma StepRegisters(s: State, a: Step, ptr: nat)
    requires Enabled(s, a)
    ensures ptr in Do(s, a).registered <==> !Closes(a, ptr) && (ptr in s.registered || Opens(a, ptr))
  {
  }

  /** After a run a pointer is registered exactly by what the last step to open or close it did. */
  lemma {:induction false} RegisteredExactly(s: State, steps: seq<Step>, s': State, ptr: nat)
    requires Leads(s, steps, s')
    ensures ptr in s'.registered <==>
      && ReopenedAfter(steps, ptr)
      && (ptr in s.registered || exists j :: 0 <= j < |steps| && Opens(steps[j], ptr))
    decreases |steps|
  {
    if steps != [] {
      var a, rest := steps[0], steps[1..];
      StepRegisters(s, a, ptr);
      RegisteredExactly(Do(s, a), rest, s', ptr);
      TailOpens(steps, ptr);
    }
  }

  lemma TailOpens(steps: seq<Step>, ptr: nat)
    requires steps != []
    ensures (exists j :: 0 <= j < |steps| && Opens(steps[j], ptr))
      <==> Opens(steps[0], ptr) || exists j :: 0 <= j < |steps[1..]| && Opens(steps[1..][j], ptr)
    ensures ReopenedAfter(steps, ptr) <==>
      && ReopenedAfter(steps[1..], ptr)
      && (Closes(steps[0], ptr) ==> exists j :: 0 <= j < |steps[1..]| && Opens(steps[1..][j], ptr))
  {
    var rest := steps[1..];
    assert forall j :: 0 <= j < |rest| ==> rest[j] == steps[j + 1];
    assert forall j :: 0 < j < |steps| ==> steps[j] == rest[j - 1];
    if ReopenedAfter(steps, ptr) {
      forall i | 0 <= i < |rest| && Closes(rest[i], ptr)
        ensures exists j :: i < j < |rest| && Opens(rest[j], ptr)
      {
        assert Closes(steps[i + 1], ptr);
        var j :| i + 1 < j < |steps| && Opens(steps[j], ptr);
        assert Opens(rest[j - 1], ptr);
      }
    }
  }

  /**
    When AcquireToken comes to ask for its token, its pointer's descriptor is open if and only if
    every unregistering since its check was followed by another registering.
   */
  lemma OpenExactlyWhenReopened(s: State, t: Tid, ok: bool, steps: seq<Step>, s': State)
    requires Reachable(s) && (PcOf(s, t).AcqCheck? || PcOf(s, t).AcqRegister?)
    requires var s1 := Do(s, GapBegins(s, t, ok));
      PcOf(s1, t).AcqToken? && Leads(s1, steps, s')
    ensures s'.gets[PcOf(s, t).ptr] == s'.puts[PcOf(s, t).ptr] + 1 <==> ReopenedAfter(steps, PcOf(s, t).ptr)
  {
    var a, ptr := GapBegins(s, t, ok), PcOf(s, t).ptr;
    ReachableInv(s);
    StepKeepsInv(s, a);
    RunKeepsInv(Do(s, a), steps, s');
    RegisteredExactly(Do(s, a), steps, s', ptr);
  }

  /** The critical section after which AcquireToken asks for its token. */
  function GapBegins(s: State, t: Tid, ok: bool): (a: Step)
    requires PcOf(s, t).AcqCheck? || PcOf(s, t).AcqRegister?
    ensures Enabled(s, a)
  {
    if PcOf(s, t).AcqCheck? then LockedCheck(t) else LockedAcquire(t, PcOf(s, t).ptr, ok)
  }

  /** After AcquireToken's check, another thread's UnregisterBuffer can still run before the token is asked for. */
  lemma TokenAfterUnregister(s: State, t: Tid, u: Tid, k: nat) returns (s': State)
    requires Reachable(s) && PcOf(s, t).AcqToken? && PcOf(s, t).ptr != 0 && IsIdle(s, u) && k !in s.slots.Values
    ensures var ptr := PcOf(s, t).ptr;
      && Leads(s, [CallUnregister(u, ptr), LockedUnregister(u, ptr), GetToken(t, Some(k))], s')
      && PcOf(s, t).out in s'.slots && s'.slots[PcOf(s, t).out] == k
      && s'.gets[ptr] == s'.puts[ptr]
  {
    var ptr := PcOf(s, t).ptr;
    var s1 := Do(s, CallUnregister(u, ptr));
    var s2 := Do(s1, LockedUnregister(u, ptr));
    s' := Do(s2, GetToken(t, Some(k)));
    ReachableInv(s);
    StepKeepsInv(s, CallUnregister(u, ptr));
    StepKeepsInv(s1, LockedUnregister(u, ptr));
    var steps := [CallUnregister(u, ptr), LockedUnregister(u, ptr), GetToken(t, Some(k))];
    assert steps[1..] == [LockedUnregister(u, ptr), GetToken(t, Some(k))];
    assert steps[1..][1..] == [GetToken(t, Some(k))];
    assert Leads(s2, [GetToken(t, Some(k))], s') by {
      assert [GetToken(t, Some(k))][1..] == [];
    }
    assert Leads(s1, steps[1..], s');
  }

  /** Such a state is reached whatever the pointer and the size. */
  lemma GapIsReached(ptr: nat, size: nat, offset: nat) returns (s: State)
    requires ptr != 0 && size > 0
    ensures Reachable(s) && PcOf(s, 0) == AcqToken(ptr, size, offset, 0) && IsIdle(s, 1) && s.slots == map[]
  {
    var steps := [
      Spawn(0), Spawn(1), CallAcquire(0, ptr, size, offset, 0), LockedCheck(0), LockedAcquire(0, ptr, true)];
    var s1 := Do(Init(), steps[0]);
    var s2 := Do(s1, steps[1]);
    var s3 := Do(s2, steps[2]);
    var s4 := Do(s3, steps[3]);
    s := Do(s4, steps[4]);
    assert Leads(s, [], s);
    LeadsMore(s4, steps[4], [], s);
    LeadsMore(s3, steps[3], [steps[4]], s);
    LeadsMore(s2, steps[2], [steps[3], steps[4]], s);
    LeadsMore(s1, steps[1], [steps[2], steps[3], steps[4]], s);
    LeadsMore(Init(), steps[0], [steps[1], steps[2], steps[3], steps[4]], s);
  }

  lemma LeadsMore(s: State, a: Step, steps: seq<Step>, s': State)
    requires Enabled(s, a) && Leads(Do(s, a), steps, s')
    ensures Leads(s, [a] + steps, s')
  {
    assert ([a] + steps)[1..] == steps;
  }

  /** Under the lock, a pointer that is already registered keeps its old size, whatever is asked for. */
  lemma SizeFitsExactly(s: State, ptr: nat, size: nat, ok: bool)
    requires HasRoom(s, ptr, ok)
    ensures var s' := Register(s, ptr, size, ok);
      ptr in s'.registered && (s'.registered[ptr] >= size <==> ptr !in s.registered || s.registered[ptr] >= size)
  {
  }

  /** Whether what is registered covers size bytes from the offset, before and after AcquireToken registers. */
  predicate Covers(registered: map<nat, nat>, ptr: nat, size: nat, offset: nat) {
    ptr in registered && registered[ptr] >= size + offset
  }

  /** It does so exactly if it did before, or the pointer was new and the sum did not wrap. */
  lemma AcquireCoversExactly(s: State, ptr: nat, size: nat, offset: nat, ok: bool)
    requires HasRoom(s, ptr, ok)
    ensures Covers(Register(s, ptr, Span(size, offset), ok).registered, ptr, size, offset) <==>
      if ptr in s.registered then Covers(s.registered, ptr, size, offset) else size + offset < UINT64
  {
    SpanWraps(size, offset);
  }

  lemma SpanWraps(size: nat, offset: nat)
    ensures Span(size, offset) == size + offset <==> size + offset < UINT64
    ensures Span(size, offset) <= size + offset
  {
  }
}
