/**
  What the client's PUT uses of the outside: the clock, random ids, the two RPC channels and the copy
  out of device memory. Each may answer anything that its contract allows, and remembers what it was
  asked.
 */
module ClientOutside {
  import opened Options
  import opened Words
  import opened Texts
  import opened Messages
  import opened GdsMemory

  /** A clock that never goes back, and the pauses it was asked for. */
  class Clock {
    var now: nat
    var pauses: seq<nat>

    constructor ()
      ensures pauses == []
    {
      now, pauses := 0, [];
    }

    method Now() returns (t: nat)
      modifies `now
      ensures t == now >= old(now)
    {
      var reading: int := *;
      if reading > now {
        now := reading;
      }
      t := now;
    }

    method SleepFor(d: nat)
      modifies this
      ensures pauses == old(pauses) + [d] && now >= old(now) + d
    {
      var waking: int := *;
      now := if waking > now + d then waking else now + d;
      pauses := pauses + [d];
    }
  }

  /** The random numbers a client will draw, in order. */
  class IdSource {
    const draw: nat -> nat
    var next: nat

    constructor (draw: nat -> nat)
      ensures this.draw == draw && next == 0
    {
      this.draw, this.next := draw, 0;
    }

    method MakeId(prefix: string) returns (id: string)
      modifies `next
      ensures next == old(next) + 1 && id == prefix + Hex(draw(old(next)), 16)
    {
      id := prefix + Hex(draw(next), 16);
      next := next + 1;
    }
  }

  datatype PutAttempt = PutAttempt(
    bucket: string, key: string, length: Option<nat>, requestId: string, sessionId: string)

  /** The control-plane channel: what was sent over it, and the sessions it opened and aborted. */
  class MetaRpc {
    const channelOk: bool
    var sent: seq<OpenRequest>
    var openings: seq<string>
    var aborts: seq<string>
    /** The proxy's last answer, if there was one. */
    ghost var answer: Option<OpenReply>

    constructor (channelOk: bool)
      ensures this.channelOk == channelOk && sent == [] && openings == [] && aborts == []
    {
      this.channelOk := channelOk;
      this.sent, this.openings, this.aborts := [], [], [];
    }

    /** Asks for a PUT session; it is open exactly if the proxy answers and echoes both ids. */
    method OpenSession(attempt: PutAttempt) returns (ticket: Option<string>)
      modifies `sent, `openings, `answer
      ensures channelOk ==>
        && |sent| == |old(sent)| + 1 && old(sent) <= sent
        && var q := sent[|old(sent)|];
          && q.requestId == attempt.requestId && q.sessionId == attempt.sessionId
          && q.dataFlow == "gds-cuobject" && q.opType == "PUT" && !q.isMultipartPart
          && q.bucket == attempt.bucket && q.objectKey == attempt.key
          && q.expectedSize == (if attempt.length.Some? then attempt.length.value else 0)
      ensures !channelOk ==> sent == old(sent) && answer == None
      ensures ticket.Some? <==>
        answer.Some? && answer.value.requestId == attempt.requestId && answer.value.sessionId == attempt.sessionId
      ensures ticket.Some? ==> channelOk && ticket.value == answer.value.ticket
      ensures openings == if ticket.Some? then old(openings) + [attempt.sessionId] else old(openings)
    {
      answer := None;
      if !channelOk {
        return None;
      }
      var length := if attempt.length.Some? then attempt.length.value else 0;
      sent := sent + [OpenRequest(
        attempt.requestId, attempt.sessionId, GDS_DATA_PATH, OP_TYPE_PUT, false, attempt.bucket, attempt.key, length)];
      var response: Option<OpenReply> := *;
      answer := response;
      if response == None {
        return None;
      }
      if response.value.requestId != attempt.requestId || response.value.sessionId != attempt.sessionId {
        return None;
      }
      openings := openings + [attempt.sessionId];
      return Some(response.value.ticket);
    }

    method AbortSession(sessionId: string)
      modifies `aborts
      ensures aborts == if channelOk then old(aborts) + [sessionId] else old(aborts)
    {
      if channelOk {
        aborts := aborts + [sessionId];
      }
    }
  }

  datatype GdsPutResult = GdsPutResult(etag: string, crc32c: nat)

  /** A request sent over the data channel. */
  datatype ChunkSent = ChunkSent(
    requestId: string, sessionId: string, ticket: string, bucket: string, key: string, token: nat, chunkSize: nat)

  /** The data-plane channel, with every request sent over it. */
  class ChunkRpc {
    const channelOk: bool
    var sent: seq<ChunkSent>
    ghost var answer: Option<GdsPutResult>

    constructor (channelOk: bool)
      ensures this.channelOk == channelOk && sent == []
    {
      this.channelOk := channelOk;
      this.sent, this.answer := [], None;
    }

    /** The backend reads the client's memory during this call, so the token must be out. */
    method Put(attempt: PutAttempt, ticket: string, client: CuObjClient, token: nat, chunkSize: nat)
      returns (result: Option<GdsPutResult>)
      requires token in client.tokens
      modifies this
      ensures channelOk ==>
        && |sent| == |old(sent)| + 1 && old(sent) <= sent
        && var q := sent[|old(sent)|];
          && q.requestId == attempt.requestId && q.sessionId == attempt.sessionId && q.ticket == ticket
          && q.bucket == attempt.bucket && q.key == attempt.key && q.token == token && q.chunkSize == chunkSize
      ensures !channelOk ==> sent == old(sent) && result == None
      ensures result == answer
    {
      answer := None;
      if !channelOk {
        return None;
      }
      sent := sent + [ChunkSent(
        attempt.requestId, attempt.sessionId, ticket, attempt.bucket, attempt.key, token, chunkSize)];
      result := *;
      answer := result;
    }
  }

  /** The device buffer as the host can copy it. */
  class DeviceMemory {
    /** What the last copy brought, if it came. */
    ghost var copy: Option<seq<Byte>>

    constructor ()
    {
      copy := None;
    }

    method CopyToHost(ptr: nat, size: nat) returns (host: Option<seq<Byte>>)
      modifies this
      ensures copy == host && (host.Some? ==> |host.value| == size)
    {
      var fails: bool := *;
      if fails {
        host := None;
      } else {
        var bytes: seq<Byte> := [];
        for i := 0 to size
          invariant |bytes| == i
        {
          var b: Byte := *;
          bytes := bytes + [b];
        }
        host := Some(bytes);
      }
      copy := host;
    }
  }
}
