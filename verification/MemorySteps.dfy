/**
  The registration cache's calls as runs of its machine: what a call leaves in the objects is what the
  machine's own steps leave in its state, and it returns what they say.
 */
module MemorySteps {
  import opened Options
  import opened Numbers
  import opened GdsMemoryMachine
  import opened GdsMemory

  ghost predicate Matches(mgr: GdsMemoryManager, s: State)
    reads mgr, mgr.client
  {
    && mgr.Valid() && Inv(s)
    && mgr.registered == s.registered
    && mgr.client.tokens == s.slots.Values
  }

  /** The Token object holds what the machine says is in the slot. */
  ghost predicate Holds(token: Token, s: State, slot: Slot)
    reads token
  {
    (slot in s.slots <==> token.tok != 0) && (slot in s.slots ==> s.slots[slot] == token.tok)
  }

  /** The open descriptors are those got and not put back. */
  lemma DescriptorsMatch(mgr: GdsMemoryManager, s: State, ptr: nat)
    requires Matches(mgr, s)
    ensures s.gets[ptr] == s.puts[ptr] + mgr.client.descriptors[ptr]
  {
    assert multiset(mgr.registered.Keys)[ptr] == if ptr in mgr.registered then 1 else 0;
  }

  lemma LeadsOn(s: State, a: Step, steps: seq<Step>, s': State)
    requires Enabled(s, a) && Leads(Do(s, a), steps, s')
    ensures Leads(s, [a] + steps, s')
  {
    assert ([a] + steps)[1..] == steps;
  }

  lemma LeadsTwo(s: State, a: Step, b: Step)
    requires Enabled(s, a) && Enabled(Do(s, a), b)
    ensures Leads(s, [a, b], Do(Do(s, a), b))
  {
    assert Leads(Do(Do(s, a), b), [], Do(Do(s, a), b));
    LeadsOn(Do(s, a), b, [], Do(Do(s, a), b));
    LeadsOn(s, a, [b], Do(Do(s, a), b));
    assert [a] + [b] == [a, b] && [b] + [] == [b];
  }

  method RegisterSteps(mgr: GdsMemoryManager, ptr: nat, size: nat, ghost s: State, ghost t: Tid)
    returns (ok: bool, ghost s': State)
    requires Matches(mgr, s) && IsIdle(s, t)
    modifies mgr`registered, mgr.client`descriptors, mgr.client`pinned, mgr.client`calls
    ensures Matches(mgr, s') && IsIdle(s', t)
    ensures ptr == 0 || size == 0 ==> !ok && s' == s
    ensures ptr != 0 && size != 0 ==>
      && Leads(s, [CallRegister(t, ptr, size), LockedRegister(t, ptr, ok)], s')
      && ok == (ptr in s'.registered)
  {
    s' := s;
    ok := mgr.RegisterBuffer(ptr, size);
    if ptr != 0 && size != 0 {
      LeadsTwo(s, CallRegister(t, ptr, size), LockedRegister(t, ptr, ok));
      StepKeepsInv(s, CallRegister(t, ptr, size));
      StepKeepsInv(Do(s, CallRegister(t, ptr, size)), LockedRegister(t, ptr, ok));
      s' := Do(Do(s, CallRegister(t, ptr, size)), LockedRegister(t, ptr, ok));
    }
  }

  method UnregisterSteps(mgr: GdsMemoryManager, ptr: nat, ghost s: State, ghost t: Tid)
    returns (ok: bool, ghost s': State)
    requires Matches(mgr, s) && IsIdle(s, t)
    modifies mgr`registered, mgr.client`descriptors, mgr.client`pinned, mgr.client`calls
    ensures Matches(mgr, s') && IsIdle(s', t)
    ensures ptr == 0 ==> !ok && s' == s
    ensures ptr != 0 ==> Leads(s, [CallUnregister(t, ptr), LockedUnregister(t, ptr)], s')
  {
    s' := s;
    ok := mgr.UnregisterBuffer(ptr);
    if ptr != 0 {
      LeadsTwo(s, CallUnregister(t, ptr), LockedUnregister(t, ptr));
      StepKeepsInv(s, CallUnregister(t, ptr));
      StepKeepsInv(Do(s, CallUnregister(t, ptr)), LockedUnregister(t, ptr));
      s' := Do(Do(s, CallUnregister(t, ptr)), LockedUnregister(t, ptr));
    }
  }

  /** AcquireToken looks and finds the pointer registered. */
  lemma CheckFinds(s: State, t: Tid, ptr: nat, size: nat, offset: nat, slot: Slot) returns (s': State)
    requires Inv(s) && IsIdle(s, t) && ptr != 0 && size != 0
    ensures Leads(s, [CallAcquire(t, ptr, size, offset, slot), LockedCheck(t)], s') && Inv(s')
    ensures s'.slots == s.slots && s'.registered == s.registered
    ensures s'.threads == s.threads[t :=
      if ptr in s.registered then AcqToken(ptr, size, offset, slot) else AcqRegister(ptr, size, offset, slot)]
  {
    var a := CallAcquire(t, ptr, size, offset, slot);
    StepKeepsInv(s, a);
    StepKeepsInv(Do(s, a), LockedCheck(t));
    LeadsTwo(s, a, LockedCheck(t));
    s' := Do(Do(s, a), LockedCheck(t));
  }

  /** The first part of AcquireToken: look, register if need be. `room` is whether it comes to ask for a token. */
  lemma GapSteps(s: State, t: Tid, ptr: nat, size: nat, offset: nat, slot: Slot, room: bool)
      returns (steps: seq<Step>, s': State)
    requires Inv(s) && IsIdle(s, t) && ptr != 0 && size != 0 && (ptr in s.registered ==> room)
    ensures Leads(s, steps, s') && Inv(s') && s'.slots == s.slots
    ensures s'.registered ==
      if room && ptr !in s.registered then s.registered[ptr := Span(size, offset)] else s.registered
    ensures s'.threads == s.threads[t := if room then AcqToken(ptr, size, offset, slot) else Idle]
  {
    steps := [CallAcquire(t, ptr, size, offset, slot), LockedCheck(t)];
    s' := CheckFinds(s, t, ptr, size, offset, slot);
    if ptr !in s.registered {
      var b := LockedAcquire(t, ptr, room);
      StepKeepsInv(s', b);
      LeadsEnd(s, steps, s', b);
      steps, s' := steps + [b], Do(s', b);
    }
  }

  lemma {:induction false} LeadsEnd(s: State, steps: seq<Step>, mid: State, a: Step)
    requires Leads(s, steps, mid) && Enabled(mid, a)
    ensures Leads(s, steps + [a], Do(mid, a))
    decreases |steps|
  {
    if steps == [] {
      assert steps + [a] == [a] && [a][1..] == [];
    } else {
      LeadsEnd(Do(s, steps[0]), steps[1..], mid, a);
      assert (steps + [a])[1..] == steps[1..] + [a];
    }
  }

  /** Of the values in the slots, only the one taken out goes. */
  lemma ValuesWithout(s: State, slot: Slot)
    requires Inv(s)
    ensures (s.slots - {slot}).Values ==
      if slot in s.slots then s.slots.Values - {s.slots[slot]} else s.slots.Values
  {
    var rest := s.slots - {slot};
    forall v | v in rest.Values
      ensures v in s.slots.Values && (slot in s.slots ==> v != s.slots[slot])
    {
      var x :| x in rest && rest[x] == v;
      assert s.holder[s.slots[x]] == x;
    }
    forall v | v in s.slots.Values && (slot in s.slots ==> v != s.slots[slot])
      ensures v in rest.Values
    {
      var x :| x in s.slots && s.slots[x] == v;
      assert rest[x] == v;
    }
  }

  lemma ValuesWith(slots: map<Slot, nat>, slot: Slot, tok: nat)
    requires slot !in slots
    ensures slots[slot := tok].Values == slots.Values + {tok}
  {
    forall v | v in slots.Values
      ensures v in slots[slot := tok].Values
    {
      var x :| x in slots && slots[x] == v;
      assert slots[slot := tok][x] == v;
    }
    assert slots[slot := tok][slot] == tok;
  }

  /** What the token step leaves in the slots; 0 stands for a failure. */
  lemma TokenStep(s: State, t: Tid, slot: Slot, tok: nat) returns (a: Step, s': State)
    requires Inv(s) && PcOf(s, t).AcqToken? && PcOf(s, t).out == slot && (tok != 0 ==> tok !in s.slots.Values)
    ensures a == GetToken(t, if tok == 0 then None else Some(tok)) && Enabled(s, a) && s' == Do(s, a) && Inv(s')
    ensures s'.registered == s.registered && IsIdle(s', t)
    ensures tok == 0 ==> s'.slots == s.slots
    ensures tok != 0 ==>
      && s'.slots == (s.slots - {slot})[slot := tok]
      && s'.slots.Values == (if slot in s.slots then s.slots.Values - {s.slots[slot]} else s.slots.Values) + {tok}
  {
    a := GetToken(t, if tok == 0 then None else Some(tok));
    s' := Do(s, a);
    StepKeepsInv(s, a);
    ValuesWithout(s, slot);
    ValuesWith(s.slots - {slot}, slot, tok);
  }

  /** A whole AcquireToken, given whether it came to ask for a token and which it got. */
  lemma AcquireRun(
      s: State, t: Tid, ptr: nat, size: nat, offset: nat, slot: Slot, room: bool, tok: nat)
      returns (steps: seq<Step>, s': State)
    requires Inv(s) && IsIdle(s, t) && ptr != 0 && size != 0 && (ptr in s.registered ==> room)
    requires tok != 0 ==> room && tok !in s.slots.Values && 0 !in s.slots.Values
    ensures Leads(s, steps, s') && Inv(s') && IsIdle(s', t)
    ensures s'.registered ==
      if room && ptr !in s.registered then s.registered[ptr := Span(size, offset)] else s.registered
    ensures tok == 0 ==> s'.slots == s.slots
    ensures tok != 0 ==>
      && s'.slots == (s.slots - {slot})[slot := tok]
      && s'.slots.Values == s.slots.Values - {if slot in s.slots then s.slots[slot] else 0} + {tok}
  {
    steps, s' := GapSteps(s, t, ptr, size, offset, slot, room);
    if room {
      var mid := s';
      var a;
      a, s' := TokenStep(mid, t, slot, tok);
      LeadsEnd(s, steps, mid, a);
      steps := steps + [a];
      assert slot !in s.slots && tok != 0 ==> s.slots.Values - {0} == s.slots.Values;
    }
  }

  method AcquireSteps(
      mgr: GdsMemoryManager, ptr: nat, size: nat, offset: nat, out: Token,
      ghost s: State, ghost t: Tid, ghost slot: Slot)
    returns (ok: bool, ghost steps: seq<Step>, ghost s': State)
    requires Matches(mgr, s) && IsIdle(s, t) && Holds(out, s, slot)
    requires out.Valid() && (out.client == null || out.client == mgr.client)
    modifies mgr`registered, mgr.client, out
    ensures Matches(mgr, s') && IsIdle(s', t) && Holds(out, s', slot)
    ensures Leads(s, steps, s') && out.Valid()
    ensures ok ==> s'.slots == (s.slots - {slot})[slot := out.tok]
    ensures !ok ==> s'.slots == s.slots
  {
    s', steps := s, [];
    ok := mgr.AcquireToken(ptr, size, offset, out);
    if ptr != 0 && size != 0 {
      steps, s' := AcquireRun(s, t, ptr, size, offset, slot, ptr in mgr.registered, if ok then out.tok else 0);
    }
  }

  lemma ResetRun(s: State, slot: Slot) returns (s': State)
    requires Inv(s) && slot in s.slots
    ensures Leads(s, [ResetToken(slot)], s') && Inv(s')
    ensures s'.registered == s.registered && s'.slots == s.slots - {slot}
    ensures s'.slots.Values == s.slots.Values - {s.slots[slot]}
  {
    s' := Do(s, ResetToken(slot));
    StepKeepsInv(s, ResetToken(slot));
    ValuesWithout(s, slot);
    assert Leads(s', [], s');
    LeadsOn(s, ResetToken(slot), [], s');
    assert [ResetToken(slot)] + [] == [ResetToken(slot)];
  }

  method ResetSteps(mgr: GdsMemoryManager, token: Token, ghost s: State, ghost slot: Slot)
    returns (ghost s': State)
    requires Matches(mgr, s) && Holds(token, s, slot) && token.Valid() && token.client == mgr.client
    modifies token, mgr.client`tokens, mgr.client`owner, mgr.client`tokensTaken
    ensures Matches(mgr, s') && Holds(token, s', slot) && Leads(s, [ResetToken(slot)], s')
  {
    token.Reset();
    s' := ResetRun(s, slot);
  }
}
