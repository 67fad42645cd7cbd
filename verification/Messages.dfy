/** The messages of a single-object PUT, and what each side answers to them. */
module Messages {
  import opened Options
  import opened Words
  import opened Texts
  import opened SessionSpec
  import opened GdsSink

  const GDS_DATA_PATH: string := "gds-cuobject"
  const OP_TYPE_PUT: string := "PUT"

  datatype OpenRequest = OpenRequest(
    requestId: string, sessionId: string, dataFlow: string, opType: string, isMultipartPart: bool,
    bucket: string, objectKey: string, expectedSize: nat)

  datatype OpenReply = OpenReply(requestId: string, sessionId: string, ticket: string)

  datatype PutRequest = PutRequest(
    sessionId: string, ticket: string, bucket: string, objectKey: string, chunkSize: nat,
    uploadId: string, rdmaToken: string)

  datatype PutReply = PutReply(etag: string, bytesReceived: nat, crc32c: nat)

  datatype Report = Report(sessionId: string, etag: string, crc32c: nat, bytesTransferred: nat)

  datatype Error = UnsupportedPath | InvalidParam | SessionNotFound | Failed(text: string)

  datatype Result<+T> = Ok(value: T) | Err(error: Error)

  /** Why the proxy turns an OpenSession down, in the order in which it looks. */
  function Refusal(request: OpenRequest): (e: Option<Error>)
    ensures e.None? <==>
      && request.dataFlow == GDS_DATA_PATH && request.opType == OP_TYPE_PUT && !request.isMultipartPart
      && request.bucket != "" && request.objectKey != "" && request.expectedSize > 0
    ensures e == Some(UnsupportedPath) <==> request.dataFlow != GDS_DATA_PATH || request.opType != OP_TYPE_PUT
  {
    if request.dataFlow != GDS_DATA_PATH then Some(UnsupportedPath)
    else if request.opType != OP_TYPE_PUT then Some(UnsupportedPath)
    else if request.isMultipartPart then Some(InvalidParam)
    else if request.bucket == "" || request.objectKey == "" then Some(InvalidParam)
    else if request.expectedSize == 0 then Some(InvalidParam)
    else None
  }

  function GrantFor(request: OpenRequest, session: Session): OpenReply {
    OpenReply(request.requestId, session.sessionId, session.ticket)
  }

  /** "%08x" */
  function BuildEtag(crc: nat): (etag: string)
    ensures |etag| == 8
  {
    Hex(crc, 8)
  }

  /** The backend looks only at these two fields before it starts a transfer. */
  predicate Servable(request: PutRequest) {
    request.uploadId == "" && request.rdmaToken != ""
  }

  /** What the backend answers, and reports to the proxy, about the bytes it pulled. */
  function ReplyFor(computeCrc32c: bool, bytes: seq<Byte>): PutReply {
    var crc := Reported(computeCrc32c, bytes);
    PutReply(BuildEtag(crc), |bytes|, crc)
  }

  /** The session table after a report: changed only if the session exists. */
  function Recorded(sessions: Sessions, report: Report): Sessions {
    if report.sessionId in sessions then
      sessions[report.sessionId :=
        Finish(sessions[report.sessionId], report.etag, report.crc32c, report.bytesTransferred)]
    else sessions
  }

  function ReportFor(sessionId: string, reply: PutReply): Report {
    Report(sessionId, reply.etag, reply.crc32c, reply.bytesReceived)
  }
}
