/**
  The handlers as steps of the protocol: when the table and the counter are those of a machine state,
  a call of the handler leaves those of the state that the machine's own steps lead to, and answers
  what they say.
 */
module HandlerSteps {
  import opened Options
  import opened Numbers
  import opened Words
  import opened SessionSpec
  import opened SessionManager
  import opened GdsSink
  import opened Messages
  import opened ControlPlane
  import opened DataPlane
  import opened PutMachine

  ghost predicate Matches(mgr: SessionManager, s: State)
    reads mgr
  {
    mgr.Valid() && mgr.sessions == s.sessions && mgr.seq_ == s.counter
  }

  lemma CountsAlike(n: nat)
    requires n < UINT64
    ensures (n + 1) % UINT64 == NextCount(n)
  {
  }

  /** OpenSession is a refusal, or the steps that draw a number and file the session. */
  method OpenSessionSteps(service: ControlPlaneService, request: OpenRequest, ghost s: State, ghost t: Tid)
    returns (response: Result<OpenReply>, ghost s': State)
    requires Matches(service.sessionMgr, s) && t !in s.opening && request in s.opens
    modifies service.sessionMgr
    ensures Matches(service.sessionMgr, s')
    ensures response.Err? ==> s' == s && Refusal(request) == Some(response.error)
    ensures response.Ok? ==>
      && CanBeginOpen(s, t, request)
      && s' == FinishOpenStep(BeginOpenStep(s, t, request), t)
      && s'.grants == s.grants + {response.value}
  {
    CountsAlike(s.counter);
    response := service.OpenSession(request);
    s' := if response.Err? then s else FinishOpenStep(BeginOpenStep(s, t, request), t);
  }

  /** ReportGdsPut is the delivery of a report. */
  method ReportSteps(service: ControlPlaneService, ghost sent: SentReport, report: Report, ghost s: State)
    returns (accepted: bool, ghost s': State)
    requires Matches(service.sessionMgr, s) && sent in s.reports && sent.report == report
    modifies service.sessionMgr
    ensures Matches(service.sessionMgr, s') && s' == DeliverStep(s, sent)
    ensures accepted <==> s'.log == s.log + [Noted(report.sessionId, report, sent.at)]
  {
    accepted := service.ReportGdsPut(report);
    s' := DeliverStep(s, sent);
  }

  /** CompleteUpload is a search that fails, or the steps that find the session and read its etag. */
  method CompleteUploadSteps(service: ControlPlaneService, uploadId: string, ghost s: State, ghost t: Tid)
    returns (response: Result<string>, ghost s': State)
    requires Matches(service.sessionMgr, s) && t !in s.completing
    ensures Matches(service.sessionMgr, s')
    ensures response.Ok? <==> FindCompleted(service.sessionMgr.sessions, uploadId).Some?
    ensures response.Err? ==> s' == s == LookUpStep(s, t, uploadId)
    ensures response.Ok? ==>
      && CanReadEtag(LookUpStep(s, t, uploadId), t)
      && s' == ReadEtagStep(LookUpStep(s, t, uploadId), t)
      && s'.log == s.log + [Answered(uploadId, response.value, |s.log|)]
  {
    response := service.CompleteUpload(uploadId);
    if FindCompleted(s.sessions, uploadId).Some? {
      FoundIsThere(s.sessions, uploadId);
      s' := ReadEtagStep(LookUpStep(s, t, uploadId), t);
    } else {
      s' := s;
    }
  }

  /** GdsPut is a failure that leaves no trace, or the step that serves the request with the bytes pulled. */
  method GdsPutSteps(service: DataPlaneService, request: PutRequest, connected: bool, ghost c: Config, ghost s: State)
    returns (response: Result<PutReply>, report: Option<Report>, ghost s': State)
    requires service.sink.Valid() && request in s.puts
    requires c.computeCrc32c == service.sink.computeCrc32c && c.reports == service.reports
    modifies if service.sink.pool == null then {} else {service.sink.pool}
    modifies if service.sink.server == null then {} else {service.sink.server}
    ensures service.sink.Valid() && service.sink.server == old(service.sink.server)
    ensures response.Err? ==> s' == s && report == None
    ensures response.Ok? ==>
      && service.sink.server != null
      && var bytes := service.Pulled(request.chunkSize);
        && CanServe(s, request, bytes)
        && s' == ServeStep(c, s, request, bytes)
        && s'.replies == s.replies + {SentReply(request, response.value, |s.log|)}
        && (report.Some? <==> c.reports)
        && (report.Some? ==> s'.reports == s.reports + {SentReport(report.value, |s.log|)})
  {
    response, report := service.GdsPut(request, connected);
    s' := s;
    if response.Ok? {
      s' := ServeStep(c, s, request, service.Pulled(request.chunkSize));
    }
  }
}
