/** The proxy's handlers over the session table. */
module ControlPlane {
  import opened Options
  import opened Numbers
  import opened SessionSpec
  import opened SessionManager
  import opened Messages

  class ControlPlaneService {
    const sessionMgr: SessionManager

    constructor (sessionMgr: SessionManager)
      ensures this.sessionMgr == sessionMgr
    {
      this.sessionMgr := sessionMgr;
    }

    method OpenSession(request: OpenRequest) returns (response: Result<OpenReply>)
      requires sessionMgr.Valid()
      modifies sessionMgr
      ensures sessionMgr.Valid()
      ensures match Refusal(request)
        case Some(e) =>
          response == Err(e) && sessionMgr.sessions == old(sessionMgr.sessions) && sessionMgr.seq_ == old(sessionMgr.seq_)
        case None =>
          var id := if request.sessionId != "" then request.sessionId else GeneratedId(old(sessionMgr.seq_));
          && response == Ok(OpenReply(request.requestId, id, TicketOf(id)))
          && sessionMgr.sessions ==
            old(sessionMgr.sessions)[id := NewSession(id, request.bucket, request.objectKey, request.expectedSize)]
          && sessionMgr.seq_ ==
            if request.sessionId != "" then old(sessionMgr.seq_) else (old(sessionMgr.seq_) + 1) % UINT64
      ensures response.Ok? ==>
        && response.value.requestId == request.requestId && response.value.ticket == "tkt-" + response.value.sessionId
        && response.value.sessionId in sessionMgr.sessions
        && var x := sessionMgr.sessions[response.value.sessionId];
          && x.bucket == request.bucket && x.objectKey == request.objectKey
          && x.expectedSize == request.expectedSize && x.status == Pending && x.ticket == response.value.ticket
    {
      if request.dataFlow != GDS_DATA_PATH {
        return Err(UnsupportedPath);
      }
      if request.opType != OP_TYPE_PUT {
        return Err(UnsupportedPath);
      }
      if request.isMultipartPart {
        return Err(InvalidParam);
      }
      if request.bucket == "" || request.objectKey == "" {
        return Err(InvalidParam);
      }
      if request.expectedSize == 0 {
        return Err(InvalidParam);
      }
      var session := sessionMgr.CreateSession(
        request.sessionId, request.bucket, request.objectKey, request.expectedSize);
      return Ok(OpenReply(request.requestId, session.sessionId, session.ticket));
    }

    method ReportGdsPut(report: Report) returns (accepted: bool)
      requires sessionMgr.Valid()
      modifies sessionMgr
      ensures sessionMgr.Valid() && sessionMgr.seq_ == old(sessionMgr.seq_)
      ensures accepted == (report.sessionId in old(sessionMgr.sessions))
      ensures sessionMgr.sessions == Recorded(old(sessionMgr.sessions), report)
      ensures accepted ==>
        var x := sessionMgr.sessions[report.sessionId];
        && x.status == Completed && x.etag == report.etag && x.crc32c == report.crc32c
        && x.bytesTransferred == report.bytesTransferred
    {
      accepted := sessionMgr.CompleteSession(
        report.sessionId, report.etag, report.crc32c, report.bytesTransferred);
    }

    method CompleteUpload(uploadId: string) returns (response: Result<string>)
      requires sessionMgr.Valid()
      ensures match FindCompleted(sessionMgr.sessions, uploadId)
        case Some(session) => response == Ok(session.etag)
        case None => response == Err(SessionNotFound)
      ensures forall id :: id in sessionMgr.sessions ==>
        (sessionMgr.sessions[id].ticket == uploadId && sessionMgr.sessions[id].status == Completed ==>
          response == Ok(sessionMgr.sessions[id].etag))
    {
      forall id | id in sessionMgr.sessions
        ensures sessionMgr.sessions[id].ticket == uploadId && sessionMgr.sessions[id].status == Completed ==>
          FindCompleted(sessionMgr.sessions, uploadId) == Some(sessionMgr.sessions[id])
      {
        OnlyOneMatches(sessionMgr.sessions, uploadId, id);
      }
      var session := sessionMgr.GetCompletedSession(uploadId);
      if session == None {
        return Err(SessionNotFound);
      }
      return Ok(session.value.etag);
    }
  }
}
