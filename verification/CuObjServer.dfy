/**
  The parts of the RDMA server library, and of free, that the backend calls.

  The library is not part of this model: each method promises only what its callers may rely on,
  and which of the allowed outcomes happens is left open.
 */
module CuObjServer {
  import opened Numbers
  import opened Words

  const INVALID_CHANNEL_ID: nat := 0xFFFF

  /** What the library was asked and what it answered. */
  datatype LibCall =
    | HostAlloc(size: nat, address: nat)
    | Registration(address: nat, size: nat, handle: nat)
    | ChannelAsked(channel: nat)
    | Transferred(handle: nat, length: nat, channel: nat, count: int, bytes: seq<Byte>)
  {
    predicate Refused() {
      match this
      case HostAlloc(_, address) => address == 0
      case Registration(_, _, handle) => handle == 0
      case ChannelAsked(channel) => channel == INVALID_CHANNEL_ID
      case Transferred(_, _, _, count, _) => count < 0
    }
  }

  /** Of the calls made since `before` none was refused. */
  predicate NoneRefused(before: seq<LibCall>, after: seq<LibCall>) {
    before <= after && forall i :: |before| <= i < |after| ==> !after[i].Refused()
  }

  lemma NoneRefusedJoins(a: seq<LibCall>, b: seq<LibCall>, c: seq<LibCall>)
    requires a <= b <= c
    ensures NoneRefused(a, c) <==> NoneRefused(a, b) && NoneRefused(b, c)
  {
    assert forall i :: 0 <= i < |b| ==> b[i] == c[i];
  }

  /** What the last call pulled, if it was a transfer. */
  function LastPull(calls: seq<LibCall>): seq<Byte> {
    if calls != [] && calls[|calls| - 1].Transferred? then calls[|calls| - 1].bytes else []
  }

  class Server {
    /** Live host allocations with their sizes, and registrations with the address they cover. */
    var live: map<nat, nat>
    var mrs: map<nat, nat>
    /** Channels handed out and not yet given back, and how many of each happened. */
    var channels: set<nat>
    ghost var taken: nat
    ghost var returned: nat
    /** Every request that the library may refuse, in order, with its answer. */
    ghost var calls: seq<LibCall>

    constructor ()
      ensures live == map[] && mrs == map[] && channels == {} && taken == returned == 0 && calls == []
    {
      live, mrs, channels := map[], map[], {};
      taken, returned, calls := 0, 0, [];
    }

    /** 0 is failure; otherwise a new allocation of the given size. */
    method AllocHostBuffer(size: nat) returns (address: nat)
      modifies `live, `calls
      ensures calls == old(calls) + [HostAlloc(size, address)]
      ensures address == 0 ==> live == old(live)
      ensures address != 0 ==> address !in old(live) && live == old(live)[address := size]
    {
      var fails: bool := *;
      if fails {
        address := 0;
      } else {
        ghost var bound := FreshNumber(live.Keys);
        assert bound != 0 && bound !in live;
        address :| address != 0 && address !in live;
        live := live[address := size];
      }
      calls := calls + [HostAlloc(size, address)];
    }

    /** Always the whole of an allocation. */
    method RegisterBuffer(address: nat, size: nat) returns (handle: nat)
      requires address in live && size == live[address]
      modifies `mrs, `calls
      ensures calls == old(calls) + [Registration(address, size, handle)]
      ensures handle == 0 ==> mrs == old(mrs)
      ensures handle != 0 ==> handle !in old(mrs) && mrs == old(mrs)[handle := address]
    {
      var fails: bool := *;
      if fails {
        handle := 0;
      } else {
        ghost var bound := FreshNumber(mrs.Keys);
        assert bound != 0 && bound !in mrs;
        handle :| handle != 0 && handle !in mrs;
        mrs := mrs[handle := address];
      }
      calls := calls + [Registration(address, size, handle)];
    }

    method DeRegisterBuffer(handle: nat)
      requires handle in mrs
      modifies `mrs
      ensures mrs == old(mrs) - {handle}
    {
      mrs := mrs - {handle};
    }

    /** std::free: the memory must be live and no registration may cover it. */
    method FreeHost(address: nat)
      requires address in live && address !in mrs.Values
      modifies `live
      ensures live == old(live) - {address}
    {
      live := live - {address};
    }

    method AllocateChannelId() returns (channel: nat)
      modifies `channels, `taken, `calls
      ensures calls == old(calls) + [ChannelAsked(channel)]
      ensures channel == INVALID_CHANNEL_ID ==> channels == old(channels) && taken == old(taken)
      ensures channel != INVALID_CHANNEL_ID ==>
        channel !in old(channels) && channels == old(channels) + {channel} && taken == old(taken) + 1
    {
      var fails: bool := *;
      if fails {
        channel := INVALID_CHANNEL_ID;
      } else {
        ghost var bound := FreshNumber(channels + {INVALID_CHANNEL_ID});
        assert bound !in channels && bound != INVALID_CHANNEL_ID;
        channel :| channel !in channels && channel != INVALID_CHANNEL_ID;
        channels := channels + {channel};
        taken := taken + 1;
      }
      calls := calls + [ChannelAsked(channel)];
    }

    method FreeChannelId(channel: nat)
      requires channel in channels
      modifies `channels, `returned
      ensures channels == old(channels) - {channel} && returned == old(returned) + 1
    {
      channels := channels - {channel};
      returned := returned + 1;
    }

    /**
      Reads from the client's memory into a registered buffer over a live channel. A negative count is
      a failed transfer; a short count is possible and is not a failure.
     */
    method HandlePutObject(handle: nat, length: nat, channel: nat) returns (transferred: int, bytes: seq<Byte>)
      requires handle in mrs && mrs[handle] in live && length <= live[mrs[handle]]
      requires channel in channels
      modifies `calls
      ensures calls == old(calls) + [Transferred(handle, length, channel, transferred, bytes)]
      ensures transferred <= length
      ensures transferred >= 0 ==> |bytes| == transferred
    {
      transferred := *;
      if transferred > length {
        transferred := -1;
      }
      bytes := [];
      var i := 0;
      while i < transferred
        invariant |bytes| == i
        invariant transferred >= 0 ==> i <= transferred
        invariant transferred < 0 ==> i == 0
      {
        var b: Byte := *;
        bytes := bytes + [b];
        i := i + 1;
      }
      calls := calls + [Transferred(handle, length, channel, transferred, bytes)];
    }
  }
}
