/**
  The backend's receiving end: it borrows a pinned buffer and a channel for one transfer, checks
  what arrived, throws it away, and gives everything back on every path.
 */
module GdsSink {
  import opened BitStrings
  import opened Words
  import opened Crc32cSpec
  import opened Crc32cTable
  import opened PoolSpec
  import opened CuObjServer
  import opened BufferPool
  import BackendCrc32c

  const MAX_CHUNK_BYTES: nat := 0x4000_0000
  const BUFFER_SIZE_CLASSES: seq<nat> := [0x10_0000, 0x100_0000, 0x1000_0000, 0x4000_0000]
  const BUFFER_MAX_PER_CLASS: nat := 4

  datatype DiscardOutcome = DiscardOutcome(ok: bool, bytesTransferred: nat, crc32c: nat, error: string)

  const NOTHING := DiscardOutcome(false, 0, 0, "")

  /** The checksum a sink reports for the bytes it pulled; 0 when it does not compute any. */
  function Reported(computeCrc32c: bool, bytes: seq<Byte>): (crc: nat)
    ensures crc < 0x1_0000_0000
  {
    if computeCrc32c then WordValue(Crc(bytes)); CrcValue(bytes) else 0
  }

  lemma EmptyChecksum()
    ensures CrcValue([]) == 0
  {
    assert Feed(Ones(), []) == Ones();
    XorSelf(Ones());
    ValueZeros(32);
  }

  /** With the sink's own classes, a length is within the limit exactly when some class fits it. */
  lemma OversizeUnreachable(classes: seq<nat>, length: nat)
    requires multiset(classes) == multiset(BUFFER_SIZE_CLASSES)
    ensures length <= MAX_CHUNK_BYTES <==> PickClass(classes, length) < |classes|
    ensures length <= MAX_CHUNK_BYTES ==> CapacityFor(classes, length) <= MAX_CHUNK_BYTES
  {
    var r := PickClass(classes, length);
    assert BUFFER_SIZE_CLASSES[3] in multiset(classes);
    var i :| 0 <= i < |classes| && classes[i] == MAX_CHUNK_BYTES;
    if r < |classes| {
      assert classes[r] in multiset(BUFFER_SIZE_CLASSES);
    }
  }

  /**
    The library calls of a transfer into a registered buffer: a channel was asked for and, unless that
    was refused, the transfer over it. It succeeds exactly if neither was refused, however few bytes
    came, and then reports their number and checksum.
   */
  ghost predicate Carried(
      before: seq<LibCall>, after: seq<LibCall>, handle: nat, length: nat, computeCrc32c: bool, outcome: DiscardOutcome) {
    var n := |before|;
    && before <= after && n + 1 <= |after| <= n + 2
    && after[n].ChannelAsked? && (after[n].Refused() <==> |after| == n + 1)
    && (|after| == n + 2 ==>
      && after[n + 1].Transferred? && after[n + 1].handle == handle && after[n + 1].length == length
      && after[n + 1].channel == after[n].channel)
    && (outcome.ok <==> NoneRefused(before, after))
    && (outcome.ok ==> |after| == n + 2 && Describes(outcome, LastPull(after), length, computeCrc32c))
  }

  /** The outcome reports these bytes: how many, and their checksum. */
  ghost predicate Describes(outcome: DiscardOutcome, bytes: seq<Byte>, length: nat, computeCrc32c: bool) {
    && outcome.bytesTransferred == |bytes| <= length
    && outcome.crc32c == Reported(computeCrc32c, bytes)
  }

  class BackendGdsSink {
    var server: Server?
    var pool: PinnedBufferPool?
    const computeCrc32c: bool
    const table: seq<Word>

    ghost predicate Valid()
      reads this, if pool == null then {} else {pool}
      reads (if pool == null then {} else {pool.server})`live
      reads (if pool == null then {} else {pool.server})`mrs
    {
      && IsTable(table)
      && (server == null ==> pool == null)
      && (pool != null ==>
        && pool.server == server && pool.Valid() && !pool.shutdown
        && multiset(pool.sizeClasses) == multiset(BUFFER_SIZE_CLASSES)
        && pool.maxPerClass == BUFFER_MAX_PER_CLASS)
    }

    constructor (computeCrc32c: bool)
      ensures Valid() && server == null && pool == null && this.computeCrc32c == computeCrc32c
    {
      this.computeCrc32c := computeCrc32c;
      this.server, this.pool := null, null;
      var t := BackendCrc32c.MakeTable();
      this.table := t;
    }

    /** `connected` is whether the RDMA library could bind. */
    method Start(connected: bool) returns (ok: bool)
      requires Valid() && pool == null
      modifies this
      ensures Valid() && ok == connected
      ensures ok ==> server != null && pool != null && fresh(server) && fresh(pool) && pool.state.leases == map[]
      ensures ok ==> server.live == map[] && server.mrs == map[] && server.channels == {}
      ensures !ok ==> pool == null && server == old(server)
    {
      if !connected {
        return false;
      }
      server := new Server();
      pool := new PinnedBufferPool(server, BUFFER_SIZE_CLASSES, BUFFER_MAX_PER_CLASS);
      return true;
    }

    /** The pool goes first, while the server can still deregister; with no lease out nothing is left. */
    method Stop()
      requires Valid()
      modifies this
      modifies if pool == null then {} else {pool}
      modifies (if pool == null then {} else {pool.server})`live
      modifies (if pool == null then {} else {pool.server})`mrs
      ensures Valid() && pool == null && server == null
      ensures old(pool) != null ==> old(pool).Valid() && old(pool).shutdown
      ensures old(pool) != null && old(pool.state.leases) == map[] ==>
        old(server).live == map[] && old(server).mrs == map[]
    {
      var poolToDestroy := pool;
      pool := null;
      if poolToDestroy != null {
        poolToDestroy.Shutdown();
      }
      server := null;
    }

    /** The transfer and the checksum of what it brought. */
    method Pull(lease: PinnedBufferLease, length: nat, channel: nat) returns (outcome: DiscardOutcome)
      requires Valid() && pool != null && server != null && channel in server.channels
      requires pool.Lends(lease) && length <= lease.capacity
      modifies server`calls
      ensures !outcome.ok ==> outcome.bytesTransferred == 0 && outcome.crc32c == 0 && outcome.error != ""
      ensures |server.calls| == |old(server.calls)| + 1 && old(server.calls) <= server.calls
      ensures var call := server.calls[|old(server.calls)|];
        && call.Transferred? && call.handle == lease.mr && call.length == length && call.channel == channel
        && (outcome.ok <==> !call.Refused())
        && (outcome.ok ==> Describes(outcome, call.bytes, length, computeCrc32c))
    {
      pool.LeaseMemory(lease);
      var transferred, arrived := server.HandlePutObject(lease.mr, length, channel);
      if transferred < 0 {
        return NOTHING.(error := "cuObjServer handlePutObject failed");
      }
      var crc := 0;
      if computeCrc32c {
        crc := BackendCrc32c.Crc32c(table, arrived);
      }
      return DiscardOutcome(true, transferred, crc, "");
    }

    /** The part that holds a buffer: a channel, freed again at the end, and the transfer over it. */
    method Transfer(lease: PinnedBufferLease, length: nat) returns (outcome: DiscardOutcome)
      requires Valid() && pool != null && server != null
      requires pool.Lends(lease) && length <= lease.capacity
      modifies server`channels, server`taken, server`returned, server`calls
      ensures server.channels == old(server.channels)
      ensures server.taken - server.returned == old(server.taken - server.returned)
      ensures !outcome.ok ==> outcome.bytesTransferred == 0 && outcome.crc32c == 0 && outcome.error != ""
      ensures Carried(old(server.calls), server.calls, lease.mr, length, computeCrc32c, outcome)
    {
      var channel := server.AllocateChannelId();
      if channel == INVALID_CHANNEL_ID {
        return NOTHING.(error := "cuObjServer allocateChannelId failed");
      }
      outcome := Pull(lease, length, channel);
      server.FreeChannelId(channel);
      assert old(server.channels) + {channel} - {channel} == old(server.channels);
    }

    /**
      A buffer of one of the pool's classes, unless the library refused memory or its registration;
      taking it out of the leases again restores them.
     */
    method Borrow(length: nat) returns (lease: PinnedBufferLease)
      requires Valid() && pool != null && 0 < length <= MAX_CHUNK_BYTES
      modifies pool, pool.server`live, pool.server`mrs, pool.server`calls
      ensures Valid() && fresh(lease) && lease.Valid()
      ensures old(pool.server.calls) <= pool.server.calls
      ensures lease.data != 0 <==> NoneRefused(old(pool.server.calls), pool.server.calls)
      ensures lease.data == 0 ==> pool.state.leases == old(pool.state.leases) && pool.holders == old(pool.holders)
      ensures lease.data != 0 ==>
        && lease.pool == pool
        && length <= lease.capacity <= MAX_CHUNK_BYTES
        && pool.state.leases - {lease.slot} == old(pool.state.leases)
        && pool.holders - {lease.slot} == old(pool.holders)
    {
      OversizeUnreachable(pool.sizeClasses, length);
      lease := pool.Acquire(length);
      if lease.data != 0 {
        assert lease.slot !in old(pool.state.leases);
        assert pool.state.leases - {lease.slot} == old(pool.state.leases);
        assert pool.holders - {lease.slot} == old(pool.holders);
      }
    }

    /** ~PinnedBufferLease */
    method GiveBack(lease: PinnedBufferLease)
      requires Valid() && pool != null && lease.Valid() && lease.pool == pool
      modifies lease, pool, pool.server`live, pool.server`mrs
      ensures Valid()
      ensures pool.state.leases == old(pool.state.leases) - {old(lease.slot)}
      ensures pool.holders == old(pool.holders) - {old(lease.slot)}
    {
      ghost var v := pool.View();
      lease.Release();
      assert pool.View().leases == v.leases - {old(lease.slot)};
    }

    /** What the whole call shows of the library is what its two parts show. */
    lemma PartsJoin(
        before: seq<LibCall>, borrowed: seq<LibCall>, after: seq<LibCall>, handle: nat, length: nat,
        outcome: DiscardOutcome)
      requires NoneRefused(before, borrowed) && Carried(borrowed, after, handle, length, computeCrc32c, outcome)
      ensures outcome.ok <==> NoneRefused(before, after)
      ensures outcome.ok ==> Pulled(before, after, length, outcome)
    {
      NoneRefusedJoins(before, borrowed, after);
    }

    /** The part that needs a buffer: borrowed before, given back after, whatever the transfer does. */
    method ReceiveInto(length: nat) returns (outcome: DiscardOutcome)
      requires Valid() && pool != null && server != null && 0 < length <= MAX_CHUNK_BYTES
      modifies pool, server
      ensures Valid() && pool == old(pool) && server == old(server)
      ensures server.channels == old(server.channels)
      ensures server.taken - server.returned == old(server.taken - server.returned)
      ensures pool.state.leases == old(pool.state.leases) && pool.holders == old(pool.holders)
      ensures !outcome.ok ==> outcome.bytesTransferred == 0 && outcome.crc32c == 0 && outcome.error != ""
      ensures outcome.ok <==> NoneRefused(old(server.calls), server.calls)
      ensures outcome.ok ==> Pulled(old(server.calls), server.calls, length, outcome)
    {
      ghost var before := server.calls;
      var lease := Borrow(length);
      if lease.data == 0 {
        outcome := NOTHING.(error := "cuObjServer pinned buffer alloc failed");
        return;
      }
      ghost var borrowed := server.calls;
      outcome := Transfer(lease, length);
      PartsJoin(before, borrowed, server.calls, lease.mr, length, outcome);
      GiveBack(lease);
    }

    /** The last of the calls since `before` is a transfer of this length, and the outcome reports its bytes. */
    ghost predicate Pulled(before: seq<LibCall>, after: seq<LibCall>, length: nat, outcome: DiscardOutcome) {
      && |after| > |before|
      && after[|after| - 1].Transferred? && after[|after| - 1].length == length
      && Describes(outcome, LastPull(after), length, computeCrc32c)
    }

    /** Succeeds exactly when the length is within the limit and the library refused nothing it was asked for. */
    method ReceiveAndDiscard(length: nat) returns (outcome: DiscardOutcome)
      requires Valid() && server != null
      modifies if pool == null then {} else {pool}
      modifies server
      ensures Valid() && pool == old(pool) && server == old(server)
      ensures server.channels == old(server.channels)
      ensures server.taken - server.returned == old(server.taken - server.returned)
      ensures pool != null ==> pool.state.leases == old(pool.state.leases) && pool.holders == old(pool.holders)
      ensures !outcome.ok ==> outcome.bytesTransferred == 0 && outcome.crc32c == 0 && outcome.error != ""
      ensures outcome.ok <==>
        || length == 0
        || (length <= MAX_CHUNK_BYTES && pool != null && NoneRefused(old(server.calls), server.calls))
      ensures outcome.ok ==>
        if length == 0 then Describes(outcome, [], 0, computeCrc32c)
        else Pulled(old(server.calls), server.calls, length, outcome)
      ensures length == 0 || length > MAX_CHUNK_BYTES || pool == null ==> server.calls == old(server.calls)
      ensures length == 0 || length > MAX_CHUNK_BYTES ==>
        pool != null ==> pool.freeLists == old(pool.freeLists) && pool.server.live == old(pool.server.live)
    {
      outcome := NOTHING;
      if length > MAX_CHUNK_BYTES {
        outcome := outcome.(error := "GDS PUT chunk exceeds 1 GiB cuObjServer limit");
        return;
      }
      if length == 0 {
        EmptyChecksum();
        outcome := DiscardOutcome(true, 0, 0, "");
        return;
      }
      if pool == null {
        outcome := outcome.(error := "cuObjServer pinned buffer alloc failed");
        return;
      }
      outcome := ReceiveInto(length);
    }
  }
}
