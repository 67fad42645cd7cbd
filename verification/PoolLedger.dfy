/**
  Who holds which buffer. A buffer changes hands, is created, destroyed, registered or
  deregistered; each of these keeps every live buffer in exactly one place and every registration
  with the holder of its buffer.
 */
module PoolLedger {
  import opened PoolSpec

  type Tid = nat
  type Slot = nat

  /** Where a buffer can be held. */
  datatype Loc = InFree(i: nat, j: nat) | InDrain(k: nat) | InLease(slot: Slot) | InCall(t: Tid)

  type Holders = imap<Loc, CachedBuffer>

  /** Everything held is live, of its true size, and knows its one place; everything live is held there. */
  ghost predicate HeldOnce(h: Holders, live: map<nat, nat>, where: map<nat, Loc>) {
    && (forall l :: l in h ==>
      && h[l].data != 0 && h[l].data in live && live[h[l].data] == h[l].capacity
      && h[l].data in where && where[h[l].data] == l)
    && (forall d :: d in live ==> d in where && where[d] in h && h[where[d]].data == d)
  }

  /** Registrations and the holders that own them correspond one to one. */
  ghost predicate RegisteredOnce(
      h: Holders, owners: iset<Loc>, live: map<nat, nat>, mrs: map<nat, nat>, where: map<nat, Loc>) {
    && (forall l :: l in owners ==>
      l in h && h[l].mr != 0 && h[l].mr in mrs && mrs[h[l].mr] == h[l].data)
    && (forall m :: m in mrs ==>
      && mrs[m] in live && mrs[m] in where
      && where[mrs[m]] in owners && where[mrs[m]] in h && h[where[mrs[m]]].mr == m)
  }

  /** The holders sorted by kind of place, with the drained and in-call ones that own a registration. */
  datatype Parts = Parts(
    free: Holders, drain: Holders, leases: Holders, calls: Holders, drainOwners: iset<Loc>, callOwners: iset<Loc>)
  {
    ghost function Of(l: Loc): Holders {
      match l
      case InFree(_, _) => free
      case InDrain(_) => drain
      case InLease(_) => leases
      case InCall(_) => calls
    }

    ghost function Holders(): Holders {
      imap l: Loc | l in Of(l) :: Of(l)[l]
    }

    ghost function OwnersOf(l: Loc): iset<Loc> {
      match l
      case InFree(_, _) => free.Keys
      case InDrain(_) => drainOwners
      case InLease(_) => leases.Keys
      case InCall(_) => callOwners
    }

    ghost function Owners(): iset<Loc> {
      iset l: Loc | l in OwnersOf(l)
    }

    /** The holder at l lets go of its buffer. */
    ghost function Drop(l: Loc): Parts {
      match l
      case InFree(_, _) => this.(free := free - {l})
      case InDrain(_) => this.(drain := drain - {l}, drainOwners := drainOwners - iset{l})
      case InLease(_) => this.(leases := leases - {l})
      case InCall(_) => this.(calls := calls - {l}, callOwners := callOwners - iset{l})
    }

    /** A holder at l takes a registered buffer. */
    ghost function Put(l: Loc, b: CachedBuffer): Parts {
      match l
      case InFree(_, _) => this.(free := free[l := b])
      case InDrain(_) => this.(drain := drain[l := b], drainOwners := drainOwners + iset{l})
      case InLease(_) => this.(leases := leases[l := b])
      case InCall(_) => this.(calls := calls[l := b], callOwners := callOwners + iset{l})
    }

    /** The call at l takes a buffer that is not registered. */
    ghost function PutBare(l: Loc, b: CachedBuffer): Parts {
      this.(calls := calls[l := b], callOwners := callOwners - iset{l})
    }

    /** The holder at l gives up its registration. */
    ghost function Withdraw(l: Loc): Parts {
      this.(drainOwners := drainOwners - iset{l}, callOwners := callOwners - iset{l})
    }

    lemma PutBareMerges(l: Loc, b: CachedBuffer)
      requires l.InCall?
      ensures PutBare(l, b).Holders() == Holders()[l := b]
      ensures PutBare(l, b).Owners() == Owners() - iset{l}
    {
    }

    lemma WithdrawMerges(l: Loc)
      requires l.InCall? || l.InDrain?
      ensures Withdraw(l).Holders() == Holders()
      ensures Withdraw(l).Owners() == Owners() - iset{l}
    {
    }

    lemma DropHolders(l: Loc)
      ensures Drop(l).Holders() == Holders() - {l}
    {
    }

    lemma DropOwners(l: Loc)
      ensures Drop(l).Owners() == Owners() - iset{l}
    {
    }

    lemma DropMerges(l: Loc)
      ensures Drop(l).Holders() == Holders() - {l}
      ensures Drop(l).Owners() == Owners() - iset{l}
    {
      DropHolders(l);
      DropOwners(l);
    }

    lemma PutHolders(l: Loc, b: CachedBuffer)
      ensures Put(l, b).Holders() == Holders()[l := b]
    {
    }

    lemma PutOwners(l: Loc, b: CachedBuffer)
      ensures Put(l, b).Owners() == Owners() + iset{l}
    {
    }

    lemma PutMerges(l: Loc, b: CachedBuffer)
      ensures Put(l, b).Holders() == Holders()[l := b]
      ensures Put(l, b).Owners() == Owners() + iset{l}
    {
      PutHolders(l, b);
      PutOwners(l, b);
    }
  }

  lemma MovedHeld(h: Holders, live: map<nat, nat>, where: map<nat, Loc>, from: Loc, to: Loc, b: CachedBuffer)
    requires HeldOnce(h, live, where)
    requires from in h && to !in h && b.data == h[from].data && b.capacity == h[from].capacity
    ensures HeldOnce((h - {from})[to := b], live, where[b.data := to])
  {
  }

  lemma MovedRegistered(
      h: Holders, owners: iset<Loc>, live: map<nat, nat>, mrs: map<nat, nat>, where: map<nat, Loc>, from: Loc, to: Loc)
    requires HeldOnce(h, live, where) && RegisteredOnce(h, owners, live, mrs, where)
    requires from in owners && to !in h
    ensures RegisteredOnce((h - {from})[to := h[from]], owners - iset{from} + iset{to}, live, mrs,
      where[h[from].data := to])
  {
  }

  lemma BornHeld(h: Holders, live: map<nat, nat>, where: map<nat, Loc>, at: Loc, b: CachedBuffer)
    requires HeldOnce(h, live, where)
    requires at !in h && b.data != 0 && b.data !in live
    ensures HeldOnce(h[at := b], live[b.data := b.capacity], where[b.data := at])
  {
  }

  lemma BornRegistered(
      h: Holders, owners: iset<Loc>, live: map<nat, nat>, mrs: map<nat, nat>, where: map<nat, Loc>, at: Loc, b: CachedBuffer)
    requires HeldOnce(h, live, where) && RegisteredOnce(h, owners, live, mrs, where)
    requires at !in h && b.data != 0 && b.data !in live
    ensures RegisteredOnce(h[at := b], owners, live[b.data := b.capacity], mrs, where[b.data := at])
  {
  }

  lemma DiedHeld(h: Holders, live: map<nat, nat>, where: map<nat, Loc>, at: Loc)
    requires HeldOnce(h, live, where)
    requires at in h
    ensures HeldOnce(h - {at}, live - {h[at].data}, where - {h[at].data})
  {
  }

  lemma DiedRegistered(
      h: Holders, owners: iset<Loc>, live: map<nat, nat>, mrs: map<nat, nat>, where: map<nat, Loc>, at: Loc)
    requires HeldOnce(h, live, where) && RegisteredOnce(h, owners, live, mrs, where)
    requires at in h && at !in owners
    ensures h[at].data in live && h[at].data !in mrs.Values
    ensures RegisteredOnce(h - {at}, owners, live - {h[at].data}, mrs, where - {h[at].data})
  {
    forall m | m in mrs
      ensures mrs[m] != h[at].data
    {
      assert where[mrs[m]] in owners;
    }
  }

  /** A holder without a registration passes its buffer on with a fresh one. */
  lemma EnrolledRegistered(
      h: Holders, owners: iset<Loc>, live: map<nat, nat>, mrs: map<nat, nat>, where: map<nat, Loc>,
      from: Loc, to: Loc, b: CachedBuffer)
    requires HeldOnce(h, live, where) && RegisteredOnce(h, owners, live, mrs, where)
    requires from in h && from !in owners && to !in h
    requires b.data == h[from].data && b.mr != 0 && b.mr !in mrs
    ensures RegisteredOnce((h - {from})[to := b], owners + iset{to}, live, mrs[b.mr := b.data],
      where[b.data := to])
  {
    forall m | m in mrs
      ensures where[mrs[m]] != from
    {
      assert where[mrs[m]] in owners;
    }
  }

  /** A holder gives up its registration and keeps its buffer. */
  lemma WithdrawnRegistered(
      h: Holders, owners: iset<Loc>, live: map<nat, nat>, mrs: map<nat, nat>, where: map<nat, Loc>, at: Loc)
    requires HeldOnce(h, live, where) && RegisteredOnce(h, owners, live, mrs, where)
    requires at in owners
    ensures h[at].mr in mrs
    ensures RegisteredOnce(h, owners - iset{at}, live, mrs - {h[at].mr}, where)
  {
    forall l | l in owners && l != at
      ensures h[l].mr != h[at].mr
    {
      assert h[l].data != h[at].data;
    }
  }

  // ---- The same, on the sorted holders ----

  ghost predicate Ledger(p: Parts, live: map<nat, nat>, mrs: map<nat, nat>, where: map<nat, Loc>) {
    && HeldOnce(p.Holders(), live, where)
    && RegisteredOnce(p.Holders(), p.Owners(), live, mrs, where)
  }

  ghost predicate Holds(p: Parts, l: Loc, b: CachedBuffer) {
    l in p.Of(l) && p.Of(l)[l] == b
  }

  ghost predicate Owns(p: Parts, l: Loc) {
    l in p.OwnersOf(l)
  }

  lemma Moved(p: Parts, live: map<nat, nat>, mrs: map<nat, nat>, where: map<nat, Loc>, from: Loc, to: Loc, b: CachedBuffer)
    requires Ledger(p, live, mrs, where)
    requires Holds(p, from, b) && Owns(p, from) && to !in p.Of(to)
    ensures Ledger(p.Drop(from).Put(to, b), live, mrs, where[b.data := to])
  {
    MovedHeld(p.Holders(), live, where, from, to, b);
    MovedRegistered(p.Holders(), p.Owners(), live, mrs, where, from, to);
    p.DropMerges(from);
    p.Drop(from).PutMerges(to, b);
  }

  lemma Born(p: Parts, live: map<nat, nat>, mrs: map<nat, nat>, where: map<nat, Loc>, at: Loc, b: CachedBuffer)
    requires Ledger(p, live, mrs, where)
    requires at.InCall? && at !in p.Of(at) && b.data != 0 && b.data !in live
    ensures Ledger(p.PutBare(at, b), live[b.data := b.capacity], mrs, where[b.data := at])
  {
    BornHeld(p.Holders(), live, where, at, b);
    BornRegistered(p.Holders(), p.Owners(), live, mrs, where, at, b);
    assert at !in p.Owners();
    p.PutBareMerges(at, b);
    assert p.Owners() - iset{at} == p.Owners();
  }

  lemma Died(p: Parts, live: map<nat, nat>, mrs: map<nat, nat>, where: map<nat, Loc>, at: Loc, b: CachedBuffer)
    requires Ledger(p, live, mrs, where)
    requires Holds(p, at, b) && !Owns(p, at)
    ensures b.data in live && b.data !in mrs.Values
    ensures Ledger(p.Drop(at), live - {b.data}, mrs, where - {b.data})
  {
    DiedHeld(p.Holders(), live, where, at);
    DiedRegistered(p.Holders(), p.Owners(), live, mrs, where, at);
    p.DropMerges(at);
    assert p.Owners() - iset{at} == p.Owners();
  }

  lemma Enrolled(
      p: Parts, live: map<nat, nat>, mrs: map<nat, nat>, where: map<nat, Loc>, from: Loc, to: Loc,
      bare: CachedBuffer, b: CachedBuffer)
    requires Ledger(p, live, mrs, where)
    requires Holds(p, from, bare) && !Owns(p, from) && to !in p.Of(to)
    requires b.data == bare.data && b.capacity == bare.capacity && b.mr != 0 && b.mr !in mrs
    ensures Ledger(p.Drop(from).Put(to, b), live, mrs[b.mr := b.data], where[b.data := to])
  {
    MovedHeld(p.Holders(), live, where, from, to, b);
    EnrolledRegistered(p.Holders(), p.Owners(), live, mrs, where, from, to, b);
    p.DropMerges(from);
    p.Drop(from).PutMerges(to, b);
    assert p.Owners() - iset{from} == p.Owners();
  }

  lemma Withdrawn(p: Parts, live: map<nat, nat>, mrs: map<nat, nat>, where: map<nat, Loc>, at: Loc, b: CachedBuffer)
    requires Ledger(p, live, mrs, where)
    requires at.InCall? || at.InDrain?
    requires Holds(p, at, b) && Owns(p, at)
    ensures b.mr in mrs
    ensures Ledger(p.Withdraw(at), live, mrs - {b.mr}, where)
  {
    WithdrawnRegistered(p.Holders(), p.Owners(), live, mrs, where, at);
    p.WithdrawMerges(at);
  }

  /** Many buffers move at once, each to a place nothing else occupies. */
  lemma MovedMany(
      p: Parts, p': Parts, live: map<nat, nat>, mrs: map<nat, nat>, where: map<nat, Loc>, where': map<nat, Loc>,
      there: Loc -> Loc)
    requires Ledger(p, live, mrs, where)
    requires where'.Keys == where.Keys
    requires forall d :: d in where ==> where'[d] == there(where[d])
    requires forall l :: l in p.Holders() ==>
      there(l) in p'.Holders() && p'.Holders()[there(l)] == p.Holders()[l]
    requires forall l :: l in p.Holders() ==> (there(l) in p'.Owners() <==> l in p.Owners())
    requires forall k :: k in p'.Holders() ==> exists l :: l in p.Holders() && there(l) == k
    requires p'.Owners() <= p'.Holders().Keys
    ensures Ledger(p', live, mrs, where')
  {
  }
}
