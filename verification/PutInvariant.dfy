/** What every step of the PUT protocol keeps, part by part. */
module PutInvariant {
  import opened Words
  import opened Numbers
  import opened SessionSpec
  import opened Messages
  import opened PutMachine

  // ---- Statements about the log ----

  ghost predicate NoOpen(log: seq<Event>, from: nat, to: nat, id: string) {
    to <= |log| && forall j :: from < j < to && log[j].Opened? ==> log[j].id != id
  }

  ghost predicate NoNote(log: seq<Event>, from: nat, to: nat, id: string) {
    to <= |log| && forall j :: from < j < to && log[j].Noted? ==> log[j].sessionId != id
  }

  /** The reply is the backend's answer to the transfer logged at `at`, made under this session id. */
  ghost predicate ReplyTrue(c: Config, log: seq<Event>, id: string, reply: PutReply, at: nat) {
    && at < |log| && log[at].Pulled? && log[at].sessionId == id
    && reply == ReplyFor(c.computeCrc32c, log[at].bytes)
  }

  ghost predicate ReportTrue(c: Config, log: seq<Event>, report: Report, at: nat) {
    && at < |log| && log[at].Pulled? && log[at].sessionId == report.sessionId
    && report == ReportFor(report.sessionId, ReplyFor(c.computeCrc32c, log[at].bytes))
  }

  /** Entry r is a report of an earlier transfer under the same session id. */
  ghost predicate NotedTrue(c: Config, log: seq<Event>, r: nat) {
    && r < |log| && log[r].Noted? && log[r].at < r && log[r].report.sessionId == log[r].sessionId
    && ReportTrue(c, log, log[r].report, log[r].at)
  }

  /** Entry o is the last creation of session id before entry n. */
  ghost predicate LastOpen(log: seq<Event>, o: nat, n: nat, id: string) {
    o < n <= |log| && log[o].Opened? && log[o].id == id && NoOpen(log, o, n, id)
  }

  /** Entry r is the last report for id before n, it came after creation o, and it is true. */
  ghost predicate LastNote(c: Config, log: seq<Event>, o: nat, r: nat, n: nat, id: string) {
    o < r < n <= |log| && NotedTrue(c, log, r) && log[r].sessionId == id && NoNote(log, r, n, id)
  }

  ghost predicate SessionTrue(c: Config, log: seq<Event>, id: string, x: Session, o: nat, r: nat) {
    && LastOpen(log, o, |log|, id)
    && var made := NewSession(id, log[o].bucket, log[o].objectKey, log[o].expectedSize);
      if x.status == Completed then
        && LastNote(c, log, o, r, |log|, id)
        && x == Finish(made, log[r].report.etag, log[r].report.crc32c, log[r].report.bytesTransferred)
      else
        NoNote(log, o, |log|, id) && x == made
  }

  /** An etag came from a report after the latest creation; an empty one from a creation since the search. */
  ghost predicate AnswerFrom(c: Config, log: seq<Event>, i: nat, o: nat, r: nat) {
    && i < |log| && log[i].Answered? && o < i && log[o].Opened?
    && var id := log[o].id;
      && log[i].ticket == TicketOf(id)
      && LastOpen(log, o, i, id)
      && (if log[i].etag == "" then log[i].since <= o && NoNote(log, o, i, id)
          else LastNote(c, log, o, r, i, id) && log[i].etag == log[r].report.etag)
  }

  // ---- The parts of the invariant ----

  ghost predicate NetTrue(c: Config, log: seq<Event>, replies: set<SentReply>, reports: set<SentReport>) {
    && (forall x :: x in replies ==> ReplyTrue(c, log, x.request.sessionId, x.reply, x.at))
    && (forall x :: x in reports ==> ReportTrue(c, log, x.report, x.at))
  }

  function PlaceOf(places: map<string, nat>, id: string): nat {
    if id in places then places[id] else 0
  }

  ghost predicate SessionsTrue(
      c: Config, log: seq<Event>, sessions: Sessions, openedAt: map<string, nat>, notedAt: map<string, nat>) {
    && sessions.Keys == openedAt.Keys
    && forall id :: id in sessions ==>
      SessionTrue(c, log, id, sessions[id], openedAt[id], PlaceOf(notedAt, id))
  }

  ghost predicate GrantsTrue(sessions: Sessions, grants: set<OpenReply>) {
    forall g :: g in grants ==> g.sessionId in sessions && g.ticket == TicketOf(g.sessionId)
  }

  ghost predicate OneFound(n: nat, sessions: Sessions, openedAt: map<string, nat>, q: Completing) {
    && q.id in sessions && q.id in openedAt && q.ticket == TicketOf(q.id) && q.since <= n
    && (sessions[q.id].status == Completed || openedAt[q.id] >= q.since)
  }

  ghost predicate FoundTrue(
      n: nat, sessions: Sessions, openedAt: map<string, nat>, completing: map<Tid, Completing>) {
    forall t :: t in completing ==> OneFound(n, sessions, openedAt, completing[t])
  }

  ghost predicate AnswersTrue(c: Config, log: seq<Event>) {
    forall i :: 0 <= i < |log| && log[i].Answered? ==> exists o, r :: AnswerFrom(c, log, i, o, r)
  }

  predicate Numbered(e: Event) {
    e.Opened? && e.hint == ""
  }

  /** What a 64-bit counter shows after n draws. */
  function Wrapped(n: nat): (r: nat)
    ensures r < UINT64
  {
    n % UINT64
  }

  lemma WrappedNext(n: nat)
    ensures Wrapped(n + 1) == NextCount(Wrapped(n))
  {
  }

  predicate NamedRight(hint: string, number: nat, id: string) {
    if hint == "" then id == GeneratedId(Wrapped(number)) else id == hint
  }

  predicate Unnamed(o: Opening) {
    o.request.sessionId == ""
  }

  ghost predicate NamesRight(log: seq<Event>, opening: map<Tid, Opening>) {
    && (forall t :: t in opening ==> NamedRight(opening[t].request.sessionId, opening[t].number, opening[t].id))
    && (forall i :: 0 <= i < |log| && log[i].Opened? ==> NamedRight(log[i].hint, log[i].number, log[i].id))
  }

  ghost predicate NumbersDrawn(log: seq<Event>, opening: map<Tid, Opening>, drawn: nat) {
    && (forall t :: t in opening && Unnamed(opening[t]) ==> opening[t].number < drawn)
    && (forall i :: 0 <= i < |log| && Numbered(log[i]) ==> log[i].number < drawn)
  }

  ghost predicate OpeningsDiffer(opening: map<Tid, Opening>) {
    forall t, u :: t in opening && u in opening && t != u && Unnamed(opening[t]) && Unnamed(opening[u]) ==>
      opening[t].number != opening[u].number
  }

  ghost predicate NotYetLogged(log: seq<Event>, o: Opening) {
    Unnamed(o) ==> forall i :: 0 <= i < |log| && Numbered(log[i]) ==> log[i].number != o.number
  }

  ghost predicate LoggedDiffer(log: seq<Event>) {
    forall i, j :: 0 <= i < j < |log| && Numbered(log[i]) && Numbered(log[j]) ==> log[i].number != log[j].number
  }

  /** Every number drawn is used for one session at most, in flight or filed. */
  ghost predicate NumbersOnce(log: seq<Event>, opening: map<Tid, Opening>, drawn: nat) {
    && NumbersDrawn(log, opening, drawn)
    && OpeningsDiffer(opening)
    && (forall t :: t in opening ==> NotYetLogged(log, opening[t]))
    && LoggedDiffer(log)
  }

  /** Only accepted requests create sessions. */
  ghost predicate OpensAccepted(log: seq<Event>, opening: map<Tid, Opening>) {
    && (forall t :: t in opening ==> Refusal(opening[t].request).None?)
    && (forall i :: 0 <= i < |log| && log[i].Opened? ==>
      && log[i].bucket != "" && log[i].objectKey != "" && log[i].expectedSize > 0)
  }

  /** What messages and answers say about the log. */
  ghost predicate LogInv(c: Config, log: seq<Event>, replies: set<SentReply>, reports: set<SentReport>) {
    NetTrue(c, log, replies, reports) && AnswersTrue(c, log)
  }

  ghost predicate TableInv(c: Config, s: State) {
    && LogInv(c, s.log, s.replies, s.reports)
    && SessionsTrue(c, s.log, s.sessions, s.openedAt, s.notedAt)
    && GrantsTrue(s.sessions, s.grants)
    && FoundTrue(|s.log|, s.sessions, s.openedAt, s.completing)
  }

  ghost predicate NamesInv(s: State) {
    && s.counter == Wrapped(s.drawn)
    && NamesRight(s.log, s.opening)
    && NumbersOnce(s.log, s.opening, s.drawn)
    && OpensAccepted(s.log, s.opening)
  }

  // ---- Appending to the log keeps what was true ----

  lemma ReplyStays(c: Config, log: seq<Event>, e: Event, id: string, reply: PutReply, at: nat)
    requires ReplyTrue(c, log, id, reply, at)
    ensures ReplyTrue(c, log + [e], id, reply, at)
  {
  }

  lemma ReportStays(c: Config, log: seq<Event>, e: Event, report: Report, at: nat)
    requires ReportTrue(c, log, report, at)
    ensures ReportTrue(c, log + [e], report, at)
  {
  }

  lemma NetStays(c: Config, log: seq<Event>, e: Event, replies: set<SentReply>, reports: set<SentReport>)
    requires NetTrue(c, log, replies, reports)
    ensures NetTrue(c, log + [e], replies, reports)
  {
    forall x | x in replies
      ensures ReplyTrue(c, log + [e], x.request.sessionId, x.reply, x.at)
    {
      ReplyStays(c, log, e, x.request.sessionId, x.reply, x.at);
    }
    forall x | x in reports
      ensures ReportTrue(c, log + [e], x.report, x.at)
    {
      ReportStays(c, log, e, x.report, x.at);
    }
  }

  lemma LastOpenStays(log: seq<Event>, e: Event, o: nat, n: nat, id: string)
    requires LastOpen(log, o, n, id)
    ensures LastOpen(log + [e], o, n, id)
    ensures n == |log| && !(e.Opened? && e.id == id) ==> LastOpen(log + [e], o, n + 1, id)
  {
  }

  lemma NotedStays(c: Config, log: seq<Event>, e: Event, r: nat)
    requires NotedTrue(c, log, r)
    ensures NotedTrue(c, log + [e], r)
  {
    ReportStays(c, log, e, log[r].report, log[r].at);
  }

  lemma NoNoteStays(log: seq<Event>, e: Event, from: nat, to: nat, id: string)
    requires NoNote(log, from, to, id)
    ensures NoNote(log + [e], from, to, id)
    ensures to == |log| && !(e.Noted? && e.sessionId == id) ==> NoNote(log + [e], from, to + 1, id)
  {
  }

  lemma LastNoteStays(c: Config, log: seq<Event>, e: Event, o: nat, r: nat, n: nat, id: string)
    requires LastNote(c, log, o, r, n, id)
    ensures LastNote(c, log + [e], o, r, n, id)
    ensures n == |log| && !(e.Noted? && e.sessionId == id) ==> LastNote(c, log + [e], o, r, n + 1, id)
  {
    NotedStays(c, log, e, r);
    NoNoteStays(log, e, r, n, id);
  }

  predicate Concerns(e: Event, id: string) {
    (e.Opened? && e.id == id) || (e.Noted? && e.sessionId == id)
  }

  lemma SessionStays(c: Config, log: seq<Event>, e: Event, id: string, x: Session, o: nat, r: nat)
    requires SessionTrue(c, log, id, x, o, r) && !Concerns(e, id)
    ensures SessionTrue(c, log + [e], id, x, o, r)
  {
    LastOpenStays(log, e, o, |log|, id);
    if x.status == Completed {
      LastNoteStays(c, log, e, o, r, |log|, id);
    } else {
      NoNoteStays(log, e, o, |log|, id);
    }
  }

  lemma AnswerStays(c: Config, log: seq<Event>, e: Event, i: nat, o: nat, r: nat)
    requires AnswerFrom(c, log, i, o, r)
    ensures AnswerFrom(c, log + [e], i, o, r)
  {
    var id := log[o].id;
    LastOpenStays(log, e, o, i, id);
    if log[i].etag == "" {
      NoNoteStays(log, e, o, i, id);
    } else {
      LastNoteStays(c, log, e, o, r, i, id);
    }
  }

  lemma AnswersStay(c: Config, log: seq<Event>, e: Event)
    requires AnswersTrue(c, log)
    requires e.Answered? ==> exists o, r :: AnswerFrom(c, log + [e], |log|, o, r)
    ensures AnswersTrue(c, log + [e])
  {
    var log' := log + [e];
    forall i | 0 <= i < |log'| && log'[i].Answered?
      ensures exists o, r :: AnswerFrom(c, log', i, o, r)
    {
      if i < |log| {
        assert log[i].Answered?;
        var o: nat, r: nat :| AnswerFrom(c, log, i, o, r);
        AnswerStays(c, log, e, i, o, r);
      }
    }
  }

  lemma SessionsStay(
      c: Config, log: seq<Event>, e: Event, sessions: Sessions, openedAt: map<string, nat>, notedAt: map<string, nat>)
    requires SessionsTrue(c, log, sessions, openedAt, notedAt) && !e.Opened? && !e.Noted?
    ensures SessionsTrue(c, log + [e], sessions, openedAt, notedAt)
  {
    forall id | id in sessions
      ensures SessionTrue(c, log + [e], id, sessions[id], openedAt[id], PlaceOf(notedAt, id))
    {
      SessionStays(c, log, e, id, sessions[id], openedAt[id], PlaceOf(notedAt, id));
    }
  }

  lemma FoundStays(
      n: nat, m: nat, sessions: Sessions, openedAt: map<string, nat>, completing: map<Tid, Completing>)
    requires FoundTrue(n, sessions, openedAt, completing) && n <= m
    ensures FoundTrue(m, sessions, openedAt, completing)
  {
  }

  lemma LogStays(c: Config, log: seq<Event>, e: Event, replies: set<SentReply>, reports: set<SentReport>)
    requires LogInv(c, log, replies, reports)
    requires e.Answered? ==> exists o, r :: AnswerFrom(c, log + [e], |log|, o, r)
    ensures LogInv(c, log + [e], replies, reports)
  {
    NetStays(c, log, e, replies, reports);
    AnswersStay(c, log, e);
  }

  // ---- The steps keep the table right ----

  lemma FinishOpenSessions(c: Config, s: State, t: Tid)
    requires SessionsTrue(c, s.log, s.sessions, s.openedAt, s.notedAt) && t in s.opening
    ensures var s' := FinishOpenStep(s, t);
      SessionsTrue(c, s'.log, s'.sessions, s'.openedAt, s'.notedAt)
  {
    var s', o := FinishOpenStep(s, t), s.opening[t];
    var e := s'.log[|s.log|];
    assert s'.log == s.log + [e];
    forall id | id in s'.sessions
      ensures SessionTrue(c, s'.log, id, s'.sessions[id], s'.openedAt[id], PlaceOf(s'.notedAt, id))
    {
      if id != o.id {
        SessionStays(c, s.log, e, id, s.sessions[id], s.openedAt[id], PlaceOf(s.notedAt, id));
      }
    }
  }

  lemma FinishOpenFound(s: State, t: Tid)
    requires t in s.opening && GrantsTrue(s.sessions, s.grants)
    requires FoundTrue(|s.log|, s.sessions, s.openedAt, s.completing)
    ensures var s' := FinishOpenStep(s, t);
      GrantsTrue(s'.sessions, s'.grants) && FoundTrue(|s'.log|, s'.sessions, s'.openedAt, s'.completing)
  {
  }

  lemma FinishOpenKeeps(c: Config, s: State, t: Tid)
    requires TableInv(c, s) && t in s.opening
    ensures TableInv(c, FinishOpenStep(s, t))
  {
    var s' := FinishOpenStep(s, t);
    var e := s'.log[|s.log|];
    assert s'.log == s.log + [e];
    LogStays(c, s.log, e, s.replies, s.reports);
    FinishOpenSessions(c, s, t);
    FinishOpenFound(s, t);
  }

  lemma NotedNow(c: Config, log: seq<Event>, sent: SentReport, x: Session, o: nat, r: nat)
    requires var id := sent.report.sessionId; SessionTrue(c, log, id, x, o, r)
    requires ReportTrue(c, log, sent.report, sent.at)
    ensures var id := sent.report.sessionId;
      SessionTrue(c, log + [Noted(id, sent.report, sent.at)], id,
        Finish(x, sent.report.etag, sent.report.crc32c, sent.report.bytesTransferred), o, |log|)
  {
    var id := sent.report.sessionId;
    var e := Noted(id, sent.report, sent.at);
    ReportStays(c, log, e, sent.report, sent.at);
    LastOpenStays(log, e, o, |log|, id);
    assert LastNote(c, log + [e], o, |log|, |log| + 1, id);
  }

  lemma RecordedKeys(sessions: Sessions, report: Report)
    ensures Recorded(sessions, report).Keys == sessions.Keys
  {
  }

  lemma OneNoted(
      c: Config, log: seq<Event>, sessions: Sessions, openedAt: map<string, nat>, notedAt: map<string, nat>,
      sent: SentReport, id: string)
    requires SessionsTrue(c, log, sessions, openedAt, notedAt) && id in sessions
    requires ReportTrue(c, log, sent.report, sent.at) && sent.report.sessionId in sessions
    ensures var k := sent.report.sessionId;
      SessionTrue(c, log + [Noted(k, sent.report, sent.at)], id, Recorded(sessions, sent.report)[id], openedAt[id],
        PlaceOf(notedAt[k := |log|], id))
  {
    var k := sent.report.sessionId;
    assert SessionTrue(c, log, id, sessions[id], openedAt[id], PlaceOf(notedAt, id));
    if id == k {
      NotedNow(c, log, sent, sessions[k], openedAt[k], PlaceOf(notedAt, k));
    } else {
      SessionStays(c, log, Noted(k, sent.report, sent.at), id, sessions[id], openedAt[id], PlaceOf(notedAt, id));
    }
  }

  lemma TableNoted(
      c: Config, log: seq<Event>, sessions: Sessions, openedAt: map<string, nat>, notedAt: map<string, nat>,
      sent: SentReport)
    requires SessionsTrue(c, log, sessions, openedAt, notedAt)
    requires ReportTrue(c, log, sent.report, sent.at) && sent.report.sessionId in sessions
    ensures var k := sent.report.sessionId;
      SessionsTrue(c, log + [Noted(k, sent.report, sent.at)], Recorded(sessions, sent.report), openedAt, notedAt[k := |log|])
  {
    var k := sent.report.sessionId;
    var log' := log + [Noted(k, sent.report, sent.at)];
    var sessions', notedAt' := Recorded(sessions, sent.report), notedAt[k := |log|];
    RecordedKeys(sessions, sent.report);
    forall id | id in sessions'
      ensures SessionTrue(c, log', id, sessions'[id], openedAt[id], PlaceOf(notedAt', id))
    {
      OneNoted(c, log, sessions, openedAt, notedAt, sent, id);
    }
  }

  lemma DeliverFound(s: State, sent: SentReport)
    requires sent.report.sessionId in s.sessions && GrantsTrue(s.sessions, s.grants)
    requires FoundTrue(|s.log|, s.sessions, s.openedAt, s.completing)
    ensures var s' := DeliverStep(s, sent);
      GrantsTrue(s'.sessions, s'.grants) && FoundTrue(|s'.log|, s'.sessions, s'.openedAt, s'.completing)
  {
  }

  lemma DeliverKeeps(c: Config, s: State, sent: SentReport)
    requires TableInv(c, s) && sent in s.reports
    ensures TableInv(c, DeliverStep(s, sent))
  {
    var s' := DeliverStep(s, sent);
    if sent.report.sessionId in s.sessions {
      var e := s'.log[|s.log|];
      assert s'.log == s.log + [e];
      LogStays(c, s.log, e, s.replies, s.reports);
      TableNoted(c, s.log, s.sessions, s.openedAt, s.notedAt, sent);
      DeliverFound(s, sent);
    }
  }

  lemma LookUpFound(s: State, t: Tid, ticket: string)
    requires FoundTrue(|s.log|, s.sessions, s.openedAt, s.completing)
    requires WellKeyed(s.sessions) && s.sessions.Keys == s.openedAt.Keys
    ensures var s' := LookUpStep(s, t, ticket);
      FoundTrue(|s'.log|, s'.sessions, s'.openedAt, s'.completing)
  {
    if FindCompleted(s.sessions, ticket).Some? {
      FoundIsThere(s.sessions, ticket);
    }
  }

  lemma KeyedByLog(c: Config, s: State)
    requires SessionsTrue(c, s.log, s.sessions, s.openedAt, s.notedAt)
    ensures WellKeyed(s.sessions)
  {
    forall id | id in s.sessions
      ensures s.sessions[id].sessionId == id && s.sessions[id].ticket == TicketOf(id)
    {
      assert SessionTrue(c, s.log, id, s.sessions[id], s.openedAt[id], PlaceOf(s.notedAt, id));
    }
  }

  lemma LookUpKeeps(c: Config, s: State, t: Tid, ticket: string)
    requires TableInv(c, s) && t !in s.completing
    ensures TableInv(c, LookUpStep(s, t, ticket))
  {
    KeyedByLog(c, s);
    LookUpFound(s, t, ticket);
  }

  lemma AnswerIsTrue(c: Config, s: State, t: Tid)
    requires SessionsTrue(c, s.log, s.sessions, s.openedAt, s.notedAt)
    requires FoundTrue(|s.log|, s.sessions, s.openedAt, s.completing) && CanReadEtag(s, t)
    ensures exists o, r :: AnswerFrom(c, ReadEtagStep(s, t).log, |s.log|, o, r)
  {
    var log', id := ReadEtagStep(s, t).log, s.completing[t].id;
    var e := log'[|s.log|];
    var x, o, r := s.sessions[id], s.openedAt[id], PlaceOf(s.notedAt, id);
    assert SessionTrue(c, s.log, id, x, o, r);
    assert OneFound(|s.log|, s.sessions, s.openedAt, s.completing[t]);
    LastOpenStays(s.log, e, o, |s.log|, id);
    if x.status == Completed {
      LastNoteStays(c, s.log, e, o, r, |s.log|, id);
    } else {
      NoNoteStays(s.log, e, o, |s.log|, id);
    }
    assert AnswerFrom(c, log', |s.log|, o, r);
  }

  lemma ReadEtagFound(s: State, t: Tid)
    requires CanReadEtag(s, t) && FoundTrue(|s.log|, s.sessions, s.openedAt, s.completing)
    ensures var s' := ReadEtagStep(s, t);
      FoundTrue(|s'.log|, s'.sessions, s'.openedAt, s'.completing)
  {
  }

  lemma ReadEtagKeeps(c: Config, s: State, t: Tid)
    requires TableInv(c, s) && CanReadEtag(s, t)
    ensures TableInv(c, ReadEtagStep(s, t))
  {
    var s' := ReadEtagStep(s, t);
    var e := s'.log[|s.log|];
    assert s'.log == s.log + [e];
    AnswerIsTrue(c, s, t);
    LogStays(c, s.log, e, s.replies, s.reports);
    SessionsStay(c, s.log, e, s.sessions, s.openedAt, s.notedAt);
    ReadEtagFound(s, t);
  }

  lemma ServeKeeps(c: Config, s: State, request: PutRequest, bytes: seq<Byte>)
    requires TableInv(c, s) && CanServe(s, request, bytes)
    ensures TableInv(c, ServeStep(c, s, request, bytes))
  {
    var s' := ServeStep(c, s, request, bytes);
    var e := s'.log[|s.log|];
    assert s'.log == s.log + [e];
    LogStays(c, s.log, e, s.replies, s.reports);
    SessionsStay(c, s.log, e, s.sessions, s.openedAt, s.notedAt);
    FoundStays(|s.log|, |s'.log|, s.sessions, s.openedAt, s.completing);
  }

  lemma TableKept(c: Config, s: State, a: Step)
    requires TableInv(c, s) && Enabled(c, s, a)
    ensures TableInv(c, Do(c, s, a))
  {
    match a
    case FinishOpen(t) => FinishOpenKeeps(c, s, t);
    case Serve(put, bytes) => ServeKeeps(c, s, put, bytes);
    case Deliver(sent) => DeliverKeeps(c, s, sent);
    case LookUp(t, ticket) => LookUpKeeps(c, s, t, ticket);
    case ReadEtag(t) => ReadEtagKeeps(c, s, t);
    case _ => SameTable(c, s, a);
  }

  ghost predicate TableSame(s: State, s': State) {
    && s'.log == s.log && s'.replies == s.replies && s'.reports == s.reports && s'.sessions == s.sessions
    && s'.openedAt == s.openedAt && s'.notedAt == s.notedAt && s'.grants == s.grants
    && s'.completing == s.completing
  }

  /** The other steps touch neither the log nor the table. */
  lemma SameTable(c: Config, s: State, a: Step)
    requires Enabled(c, s, a)
    requires !(a.FinishOpen? || a.Serve? || a.Deliver? || a.LookUp? || a.ReadEtag?)
    ensures TableSame(s, Do(c, s, a))
  {
    if a.BeginOpen? {
      SameTableBegin(s, a.t, a.open);
    } else if !a.SendOpen? && !a.SendPut? {
      SameTableClient(c, s, a);
    }
  }

  lemma SameTableBegin(s: State, t: Tid, request: OpenRequest)
    ensures TableSame(s, BeginOpenStep(s, t, request))
  {
  }

  lemma SameTableClient(c: Config, s: State, a: Step)
    requires Enabled(c, s, a)
    requires a.StartCall? || a.StartAttempt? || a.TakeGrant? || a.LoseAttempt? || a.TakeReply? || a.EndCall?
    ensures TableSame(s, Do(c, s, a))
  {
    match a
    case TakeReply(id, sent, content) => SameTableReply(c, s, id, sent, content);
    case TakeGrant(id, grant, token) => SameTableGrant(s, id, grant, token);
    case _ =>
  }

  lemma SameTableReply(c: Config, s: State, id: string, sent: SentReply, content: seq<Byte>)
    requires CanTakeReply(s, id, sent, content)
    ensures TableSame(s, TakeReplyStep(c, s, id, sent, content))
  {
  }

  lemma SameTableGrant(s: State, id: string, grant: OpenReply, token: string)
    requires CanTakeGrant(s, id, grant, token)
    ensures TableSame(s, TakeGrantStep(s, id, grant, token))
  {
  }

  // ---- The steps keep the names right ----

  lemma NumberTaken(log: seq<Event>, opening: map<Tid, Opening>, drawn: nat, t: Tid, o: Opening)
    requires NumbersOnce(log, opening, drawn) && t !in opening
    requires Unnamed(o) ==> o.number == drawn
    ensures NumbersOnce(log, opening[t := o], if Unnamed(o) then drawn + 1 else drawn)
  {
    assert NotYetLogged(log, o);
    assert OpeningsDiffer(opening[t := o]);
  }

  lemma NameTaken(log: seq<Event>, opening: map<Tid, Opening>, t: Tid, o: Opening)
    requires NamesRight(log, opening) && OpensAccepted(log, opening)
    requires NamedRight(o.request.sessionId, o.number, o.id) && Refusal(o.request).None?
    ensures NamesRight(log, opening[t := o]) && OpensAccepted(log, opening[t := o])
  {
  }

  lemma BeginOpenNames(s: State, t: Tid, request: OpenRequest)
    requires NamesInv(s) && CanBeginOpen(s, t, request)
    ensures NamesInv(BeginOpenStep(s, t, request))
  {
    var o := OpeningFor(s, request);
    NumberTaken(s.log, s.opening, s.drawn, t, o);
    NameTaken(s.log, s.opening, t, o);
    WrappedNext(s.drawn);
  }

  lemma FinishOpenLogged(s: State, t: Tid)
    requires NumbersOnce(s.log, s.opening, s.drawn) && t in s.opening
    ensures var s' := FinishOpenStep(s, t);
      NumbersOnce(s'.log, s'.opening, s'.drawn)
  {
    var s' := FinishOpenStep(s, t);
    assert NotYetLogged(s.log, s.opening[t]);
    assert LoggedDiffer(s'.log);
    forall u | u in s'.opening
      ensures NotYetLogged(s'.log, s'.opening[u])
    {
      assert NotYetLogged(s.log, s.opening[u]);
    }
  }

  lemma FinishOpenNames(s: State, t: Tid)
    requires NamesInv(s) && t in s.opening
    ensures NamesInv(FinishOpenStep(s, t))
  {
    FinishOpenLogged(s, t);
    var s' := FinishOpenStep(s, t);
    assert NamesRight(s'.log, s'.opening);
    assert OpensAccepted(s'.log, s'.opening);
  }

  lemma OtherEvent(log: seq<Event>, e: Event, opening: map<Tid, Opening>, drawn: nat)
    requires !e.Opened?
    requires NamesRight(log, opening) && NumbersOnce(log, opening, drawn) && OpensAccepted(log, opening)
    ensures NamesRight(log + [e], opening) && NumbersOnce(log + [e], opening, drawn)
    ensures OpensAccepted(log + [e], opening)
  {
    var log' := log + [e];
    forall i | 0 <= i < |log'| && log'[i].Opened?
      ensures i < |log| && log'[i] == log[i]
    {
    }
    forall t | t in opening
      ensures NotYetLogged(log', opening[t])
    {
      assert NotYetLogged(log, opening[t]);
    }
  }

  lemma NamesKept(c: Config, s: State, a: Step)
    requires NamesInv(s) && Enabled(c, s, a)
    ensures NamesInv(Do(c, s, a))
  {
    var s' := Do(c, s, a);
    if a.BeginOpen? {
      BeginOpenNames(s, a.t, a.open);
    } else if a.FinishOpen? {
      FinishOpenNames(s, a.t);
    } else {
      SameNames(c, s, a);
      if s'.log != s.log {
        OtherEvent(s.log, s'.log[|s.log|], s.opening, s.drawn);
      }
    }
  }

  lemma SameNames(c: Config, s: State, a: Step)
    requires Enabled(c, s, a) && !a.BeginOpen? && !a.FinishOpen?
    ensures var s' := Do(c, s, a);
      && s'.opening == s.opening && s'.drawn == s.drawn && s'.counter == s.counter
      && (s'.log == s.log
        || (|s'.log| == |s.log| + 1 && s'.log == s.log + [s'.log[|s.log|]] && !s'.log[|s.log|].Opened?))
  {
  }
}
