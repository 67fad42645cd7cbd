/**
  A PUT across client, proxy and backend, over a network that may lose, delay, repeat and reorder.

  A message once sent stays in its set for ever, so it may be delivered any number of times or
  never. Anyone may send any request. The proxy's handlers are cut where another handler can run:
  between drawing a number and filing the session, and between finding a completed session and
  reading its etag. The log, the count of numbers
  drawn and the places of entries in the log are history; no step decides by them.
 */
module PutMachine {
  import opened Words
  import opened Crc32cSpec
  import opened Texts
  import opened Numbers
  import opened SessionSpec
  import opened GdsSink
  import opened Messages

  type Tid = nat
  type CallId = nat

  datatype Config = Config(verifyCrc32c: bool, computeCrc32c: bool, reports: bool)

  /** An OpenSession past its checks: the number it drew, if it had to, and the id it will use. */
  datatype Opening = Opening(request: OpenRequest, number: nat, id: string)

  /** A CompleteUpload that has found a session; `since` is the log's length then. */
  datatype Completing = Completing(ticket: string, id: string, since: nat)

  /** A reply or report on its way, with the place in the log of the transfer behind it. */
  datatype SentReply = SentReply(request: PutRequest, reply: PutReply, at: nat)
  datatype SentReport = SentReport(report: Report, at: nat)

  datatype Phase =
    | WaitOpen
    | WaitPut(request: PutRequest)
    | Failure
    | Success(sent: SentReply, content: seq<Byte>)

  datatype Attempt = Attempt(call: CallId, open: OpenRequest, phase: Phase)

  datatype Outcome = Running | Returned(ok: bool)

  /** One PutObject: what it sends, the session ids of its attempts so far, and how it ended. */
  datatype Call = Call(
    bucket: string, key: string, expectedSize: nat, size: nat, tries: seq<string>, outcome: Outcome)

  datatype Event =
    | Opened(hint: string, number: nat, id: string, bucket: string, objectKey: string, expectedSize: nat)
    | Pulled(sessionId: string, bytes: seq<Byte>)
    | Noted(sessionId: string, report: Report, at: nat)
    | Answered(ticket: string, etag: string, since: nat)

  datatype State = State(
    sessions: Sessions,
    counter: nat,
    drawn: nat,
    opening: map<Tid, Opening>,
    completing: map<Tid, Completing>,
    opens: set<OpenRequest>,
    grants: set<OpenReply>,
    puts: set<PutRequest>,
    replies: set<SentReply>,
    reports: set<SentReport>,
    calls: map<CallId, Call>,
    attempts: map<string, Attempt>,
    log: seq<Event>,
    openedAt: map<string, nat>,
    notedAt: map<string, nat>)

  datatype Step =
    | SendOpen(open: OpenRequest)
    | SendPut(put: PutRequest)
    | BeginOpen(t: Tid, open: OpenRequest)
    | FinishOpen(t: Tid)
    | Serve(put: PutRequest, bytes: seq<Byte>)
    | Deliver(sentReport: SentReport)
    | LookUp(t: Tid, ticket: string)
    | ReadEtag(t: Tid)
    | StartCall(k: CallId, call: Call)
    | StartAttempt(k: CallId, number: nat, requestId: string)
    | TakeGrant(id: string, grant: OpenReply, token: string)
    | LoseAttempt(id: string)
    | TakeReply(id: string, sentReply: SentReply, content: seq<Byte>)
    | EndCall(k: CallId)

  const MAX_ATTEMPTS: nat := 3

  function Init(): State {
    State(map[], 0, 0, map[], map[], {}, {}, {}, {}, {}, map[], map[], [], map[], map[])
  }

  function Append(s: State, e: Event): State {
    s.(log := s.log + [e])
  }

  // ---- Proxy ----

  /** The 64-bit counter after one draw. */
  function NextCount(n: nat): nat {
    if n + 1 < UINT64 then n + 1 else 0
  }

  predicate CanBeginOpen(s: State, t: Tid, request: OpenRequest) {
    t !in s.opening && request in s.opens && Refusal(request).None?
  }

  function OpeningFor(s: State, request: OpenRequest): Opening {
    if request.sessionId != "" then Opening(request, 0, request.sessionId)
    else Opening(request, s.drawn, GeneratedId(s.counter))
  }

  /** Only a request without an id draws a number. */
  function BeginOpenStep(s: State, t: Tid, request: OpenRequest): State {
    var draws := request.sessionId == "";
    s.(opening := s.opening[t := OpeningFor(s, request)],
       counter := if draws then NextCount(s.counter) else s.counter,
       drawn := if draws then s.drawn + 1 else s.drawn)
  }

  function FinishOpenStep(s: State, t: Tid): State
    requires t in s.opening
  {
    var o := s.opening[t];
    var session := NewSession(o.id, o.request.bucket, o.request.objectKey, o.request.expectedSize);
    var e := Opened(
      o.request.sessionId, o.number, o.id, o.request.bucket, o.request.objectKey, o.request.expectedSize);
    Append(s, e).(
      sessions := s.sessions[o.id := session],
      opening := s.opening - {t},
      grants := s.grants + {GrantFor(o.request, session)},
      openedAt := s.openedAt[o.id := |s.log|])
  }

  function DeliverStep(s: State, sent: SentReport): State {
    var id := sent.report.sessionId;
    if id !in s.sessions then s
    else
      Append(s, Noted(id, sent.report, sent.at)).(
        sessions := Recorded(s.sessions, sent.report),
        notedAt := s.notedAt[id := |s.log|])
  }

  function LookUpStep(s: State, t: Tid, ticket: string): State {
    match FindCompleted(s.sessions, ticket)
    case None => s
    case Some(session) => s.(completing := s.completing[t := Completing(ticket, session.sessionId, |s.log|)])
  }

  predicate CanReadEtag(s: State, t: Tid) {
    t in s.completing && s.completing[t].id in s.sessions
  }

  function ReadEtagStep(s: State, t: Tid): State
    requires CanReadEtag(s, t)
  {
    var q := s.completing[t];
    Append(s, Answered(q.ticket, s.sessions[q.id].etag, q.since)).(completing := s.completing - {t})
  }

  // ---- Backend ----

  predicate CanServe(s: State, request: PutRequest, bytes: seq<Byte>) {
    request in s.puts && Servable(request) && request.chunkSize <= MAX_CHUNK_BYTES && |bytes| <= request.chunkSize
  }

  function ServeStep(c: Config, s: State, request: PutRequest, bytes: seq<Byte>): State {
    var reply := ReplyFor(c.computeCrc32c, bytes);
    var report := ReportFor(request.sessionId, reply);
    Append(s, Pulled(request.sessionId, bytes)).(
      replies := s.replies + {SentReply(request, reply, |s.log|)},
      reports := if c.reports then s.reports + {SentReport(report, |s.log|)} else s.reports)
  }

  // ---- Client ----

  /** What an attempt sends to open its session: a fresh id every time. */
  function OpenFor(call: Call, id: string, requestId: string): OpenRequest {
    OpenRequest(requestId, id, GDS_DATA_PATH, OP_TYPE_PUT, false, call.bucket, call.key, call.expectedSize)
  }

  predicate IsFresh(call: Call) {
    call.tries == [] && call.outcome == Running
  }

  predicate LastFailed(s: State, call: Call) {
    call.tries == []
    || (var id := call.tries[|call.tries| - 1];
      id in s.attempts && s.attempts[id].phase == Failure)
  }

  predicate CanStartAttempt(s: State, k: CallId, number: nat) {
    && k in s.calls && s.calls[k].outcome == Running
    && |s.calls[k].tries| < MAX_ATTEMPTS && LastFailed(s, s.calls[k])
    && number < UINT64 && ClientId(number) !in s.attempts
  }

  function StartAttemptStep(s: State, k: CallId, number: nat, requestId: string): State
    requires k in s.calls
  {
    var id, call := ClientId(number), s.calls[k];
    s.(calls := s.calls[k := call.(tries := call.tries + [id])],
       attempts := s.attempts[id := Attempt(k, OpenFor(call, id, requestId), WaitOpen)],
       opens := s.opens + {OpenFor(call, id, requestId)})
  }

  /** The client goes on only with a grant that echoes both of its ids. */
  predicate CanTakeGrant(s: State, id: string, grant: OpenReply, token: string) {
    && id in s.attempts && s.attempts[id].phase == WaitOpen && s.attempts[id].call in s.calls
    && grant in s.grants && grant.requestId == s.attempts[id].open.requestId && grant.sessionId == id
    && token != "" && s.calls[s.attempts[id].call].size > 0
  }

  function TakeGrantStep(s: State, id: string, grant: OpenReply, token: string): State
    requires CanTakeGrant(s, id, grant, token)
  {
    var call := s.calls[s.attempts[id].call];
    var request := PutRequest(id, grant.ticket, call.bucket, call.key, call.size, "", token);
    s.(attempts := s.attempts[id := s.attempts[id].(phase := WaitPut(request))],
       puts := s.puts + {request})
  }

  predicate Waiting(s: State, id: string) {
    id in s.attempts && (s.attempts[id].phase == WaitOpen || s.attempts[id].phase.WaitPut?)
  }

  /** A lost reply, a refusal, or any other failure inside an attempt. */
  function LoseAttemptStep(s: State, id: string): State
    requires id in s.attempts
  {
    s.(attempts := s.attempts[id := s.attempts[id].(phase := Failure)])
  }

  predicate CanTakeReply(s: State, id: string, sent: SentReply, content: seq<Byte>) {
    && id in s.attempts && s.attempts[id].phase == WaitPut(sent.request) && sent in s.replies
    && s.attempts[id].call in s.calls && |content| == s.calls[s.attempts[id].call].size
  }

  /** The reply decides the attempt, and a success decides the call; `content` is the client's memory. */
  function TakeReplyStep(c: Config, s: State, id: string, sent: SentReply, content: seq<Byte>): State
    requires id in s.attempts && s.attempts[id].call in s.calls
  {
    if c.verifyCrc32c && CrcValue(content) != sent.reply.crc32c then LoseAttemptStep(s, id)
    else
      var k := s.attempts[id].call;
      s.(attempts := s.attempts[id := s.attempts[id].(phase := Success(sent, content))],
         calls := s.calls[k := s.calls[k].(outcome := Returned(true))])
  }

  predicate CanEndCall(s: State, k: CallId) {
    k in s.calls && s.calls[k].outcome == Running && LastFailed(s, s.calls[k])
  }

  function EndCallStep(s: State, k: CallId): State
    requires k in s.calls
  {
    s.(calls := s.calls[k := s.calls[k].(outcome := Returned(false))])
  }

  // ---- Runs ----

  predicate Enabled(c: Config, s: State, a: Step) {
    match a
    case SendOpen(_) => true
    case SendPut(_) => true
    case BeginOpen(t, open) => CanBeginOpen(s, t, open)
    case FinishOpen(t) => t in s.opening
    case Serve(put, bytes) => CanServe(s, put, bytes)
    case Deliver(sent) => sent in s.reports
    case LookUp(t, _) => t !in s.completing
    case ReadEtag(t) => CanReadEtag(s, t)
    case StartCall(k, call) => k !in s.calls && IsFresh(call)
    case StartAttempt(k, number, _) => CanStartAttempt(s, k, number)
    case TakeGrant(id, grant, token) => CanTakeGrant(s, id, grant, token)
    case LoseAttempt(id) => Waiting(s, id)
    case TakeReply(id, sent, content) => CanTakeReply(s, id, sent, content)
    case EndCall(k) => CanEndCall(s, k)
  }

  function Do(c: Config, s: State, a: Step): State
    requires Enabled(c, s, a)
  {
    match a
    case SendOpen(open) => s.(opens := s.opens + {open})
    case SendPut(put) => s.(puts := s.puts + {put})
    case BeginOpen(t, open) => BeginOpenStep(s, t, open)
    case FinishOpen(t) => FinishOpenStep(s, t)
    case Serve(put, bytes) => ServeStep(c, s, put, bytes)
    case Deliver(sent) => DeliverStep(s, sent)
    case LookUp(t, ticket) => LookUpStep(s, t, ticket)
    case ReadEtag(t) => ReadEtagStep(s, t)
    case StartCall(k, call) => s.(calls := s.calls[k := call])
    case StartAttempt(k, number, requestId) => StartAttemptStep(s, k, number, requestId)
    case TakeGrant(id, grant, token) => TakeGrantStep(s, id, grant, token)
    case LoseAttempt(id) => LoseAttemptStep(s, id)
    case TakeReply(id, sent, content) => TakeReplyStep(c, s, id, sent, content)
    case EndCall(k) => EndCallStep(s, k)
  }

  ghost predicate Leads(c: Config, s: State, steps: seq<Step>, s': State)
    decreases |steps|
  {
    if steps == [] then s == s'
    else Enabled(c, s, steps[0]) && Leads(c, Do(c, s, steps[0]), steps[1..], s')
  }

  ghost predicate Reachable(c: Config, s: State) {
    exists steps :: Leads(c, Init(), steps, s)
  }
}
