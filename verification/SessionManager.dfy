/** The proxy's table of sessions, updated in place. */
module SessionManager {
  import opened Options
  import opened Numbers
  import opened Texts
  import opened SessionSpec

  class SessionManager {
    var sessions: Sessions
    var seq_: nat

    ghost predicate Valid()
      reads this
    {
      WellKeyed(sessions) && seq_ < UINT64
    }

    constructor ()
      ensures Valid() && sessions == map[] && seq_ == 0
    {
      sessions, seq_ := map[], 0;
    }

    /** seq_.fetch_add(1), which wraps. */
    method NextNumber() returns (n: nat)
      requires Valid()
      modifies `seq_
      ensures Valid() && n == old(seq_) && seq_ == (old(seq_) + 1) % UINT64
    {
      n := seq_;
      seq_ := (seq_ + 1) % UINT64;
    }

    method CreateSession(hint: string, bucket: string, objectKey: string, expectedSize: nat)
      returns (session: Session)
      requires Valid()
      modifies this
      ensures Valid()
      ensures session == NewSession(if hint != "" then hint else GeneratedId(old(seq_)), bucket, objectKey, expectedSize)
      ensures session.sessionId == (if hint != "" then hint else "pxs-" + Decimal(old(seq_)))
      ensures session.ticket == "tkt-" + session.sessionId
      ensures session.bucket == bucket && session.objectKey == objectKey && session.expectedSize == expectedSize
      ensures session.status == Pending && session.etag == "" && session.crc32c == 0 && session.bytesTransferred == 0
      ensures sessions == old(sessions)[session.sessionId := session]
      ensures seq_ == if hint != "" then old(seq_) else (old(seq_) + 1) % UINT64
      ensures (forall id :: id in old(sessions) ==> sessions[id] == old(sessions)[id])
        <==> session.sessionId !in old(sessions) || old(sessions)[session.sessionId] == session
    {
      var sessionId := hint;
      if hint == "" {
        var n := NextNumber();
        sessionId := GeneratedId(n);
      }
      session := NewSession(sessionId, bucket, objectKey, expectedSize);
      sessions := sessions[session.sessionId := session];
    }

    method CompleteSession(sessionId: string, etag: string, crc32c: nat, bytesTransferred: nat) returns (ok: bool)
      requires Valid()
      modifies `sessions
      ensures Valid() && ok == (sessionId in old(sessions))
      ensures sessions ==
        if ok then old(sessions)[sessionId := Finish(old(sessions)[sessionId], etag, crc32c, bytesTransferred)]
        else old(sessions)
      ensures ok ==>
        var x, y := old(sessions)[sessionId], sessions[sessionId];
        && y.status == Completed && y.etag == etag && y.crc32c == crc32c && y.bytesTransferred == bytesTransferred
        && y.sessionId == x.sessionId && y.ticket == x.ticket && y.bucket == x.bucket
        && y.objectKey == x.objectKey && y.expectedSize == x.expectedSize
    {
      if sessionId !in sessions {
        return false;
      }
      sessions := sessions[sessionId := sessions[sessionId].(status := Completed)];
      sessions := sessions[sessionId := sessions[sessionId].(etag := etag)];
      sessions := sessions[sessionId := sessions[sessionId].(crc32c := crc32c)];
      sessions := sessions[sessionId := sessions[sessionId].(bytesTransferred := bytesTransferred)];
      return true;
    }

    method GetSession(sessionId: string) returns (found: Option<Session>)
      requires Valid()
      ensures found == if sessionId in sessions then Some(sessions[sessionId]) else None
      ensures found.Some? ==> found.value.sessionId == sessionId
    {
      found := if sessionId in sessions then Some(sessions[sessionId]) else None;
    }

    /** The scan visits the sessions in no particular order and still finds what a lookup would. */
    method GetCompletedSession(ticket: string) returns (found: Option<Session>)
      requires Valid()
      ensures found == FindCompleted(sessions, ticket)
    {
      var unseen := sessions.Keys;
      while unseen != {}
        invariant unseen <= sessions.Keys
        invariant FindCompleted(sessions, ticket).Some? ==>
          FindCompleted(sessions, ticket).value.sessionId in unseen
        decreases |unseen|
      {
        var id :| id in unseen;
        unseen := unseen - {id};
        OnlyOneMatches(sessions, ticket, id);
        if sessions[id].ticket == ticket && sessions[id].status == Completed {
          return Some(sessions[id]);
        }
        if FindCompleted(sessions, ticket).Some? {
          FoundIsThere(sessions, ticket);
        }
      }
      return None;
    }
  }
}
