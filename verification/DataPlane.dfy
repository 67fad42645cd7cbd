/** The backend's handler of a PUT: checks, the transfer, the reply and the report to the proxy. */
module DataPlane {
  import opened Options
  import opened Words
  import opened Texts
  import opened CuObjServer
  import opened GdsSink
  import opened Messages

  class DataPlaneService {
    const sink: BackendGdsSink
    /** Whether a proxy endpoint was configured. */
    const reports: bool

    constructor (sink: BackendGdsSink, reports: bool)
      ensures this.sink == sink && this.reports == reports
    {
      this.sink, this.reports := sink, reports;
    }

    /** The bytes the last transfer for a request of this size pulled; an empty one pulls nothing. */
    ghost function Pulled(chunkSize: nat): seq<Byte>
      reads sink, sink.server
      requires sink.server != null
    {
      if chunkSize == 0 then [] else LastPull(sink.server.calls)
    }

    /** `connected` is what the RDMA library says of its connection. */
    method GdsPut(request: PutRequest, connected: bool)
      returns (response: Result<PutReply>, report: Option<Report>)
      requires sink.Valid()
      modifies if sink.pool == null then {} else {sink.pool}
      modifies if sink.server == null then {} else {sink.server}
      ensures sink.Valid() && sink.server == old(sink.server) && sink.pool == old(sink.pool)
      ensures sink.server != null ==>
        && sink.server.channels == old(sink.server.channels)
        && sink.server.taken - sink.server.returned == old(sink.server.taken - sink.server.returned)
      ensures sink.pool != null ==> sink.pool.state.leases == old(sink.pool.state.leases)
      ensures response.Ok? <==>
        && request.uploadId == "" && request.rdmaToken != "" && sink.server != null && connected
        && (|| request.chunkSize == 0
            || (request.chunkSize <= MAX_CHUNK_BYTES && sink.pool != null
              && NoneRefused(old(sink.server.calls), sink.server.calls)))
      ensures response.Ok? ==>
        var bytes := Pulled(request.chunkSize);
        && |bytes| <= request.chunkSize
        && response.value.crc32c == Reported(sink.computeCrc32c, bytes)
        && response.value.etag == Hex(response.value.crc32c, 8)
        && response.value.bytesReceived == |bytes|
      ensures report.Some? <==> response.Ok? && reports
      ensures report.Some? ==>
        var bytes := Pulled(request.chunkSize);
        && report.value.sessionId == request.sessionId
        && report.value.crc32c == Reported(sink.computeCrc32c, bytes)
        && report.value.etag == Hex(report.value.crc32c, 8)
        && report.value.bytesTransferred == |bytes|
    {
      report := None;
      if request.uploadId != "" {
        response := Err(Failed("backend v1: only single-object GdsPut"));
        return;
      }
      if request.rdmaToken == "" {
        response := Err(Failed("backend v1: missing rdma_token for GdsPut"));
        return;
      }
      if sink.server == null || !connected {
        response := Err(Failed("backend v1: cuObjServer not available"));
        return;
      }
      var outcome := sink.ReceiveAndDiscard(request.chunkSize);
      if !outcome.ok {
        response := Err(Failed("backend v1: " + outcome.error));
        return;
      }
      var etag := BuildEtag(outcome.crc32c);
      response := Ok(PutReply(etag, outcome.bytesTransferred, outcome.crc32c));
      if reports {
        report := Some(Report(request.sessionId, etag, outcome.crc32c, outcome.bytesTransferred));
      }
    }
  }
}
