/** What the PUT protocol promises over every run. */
module PutTheorems {
  import opened Options
  import opened BitStrings
  import opened Words
  import opened Texts
  import opened Crc32cSpec
  import opened Crc32cTheorems
  import opened Numbers
  import opened SessionSpec
  import opened GdsSink
  import opened Messages
  import opened PutMachine
  import opened PutInvariant
  import opened PutClients
  import opened PutAsks

  ghost predicate Inv(c: Config, s: State) {
    TableInv(c, s) && NamesInv(s) && ClientsTrue(c, s) && AsksInv(s)
  }

  lemma StepKeepsInv(c: Config, s: State, a: Step)
    requires Inv(c, s) && Enabled(c, s, a)
    ensures Inv(c, Do(c, s, a))
  {
    TableKept(c, s, a);
    NamesKept(c, s, a);
    ClientsKept(c, s, a);
    AsksKept(c, s, a);
  }

  lemma {:induction false} RunKeepsInv(c: Config, s: State, steps: seq<Step>, s': State)
    requires Inv(c, s) && Leads(c, s, steps, s')
    ensures Inv(c, s')
    decreases |steps|
  {
    if steps != [] {
      StepKeepsInv(c, s, steps[0]);
      RunKeepsInv(c, Do(c, s, steps[0]), steps[1..], s');
    }
  }

  lemma ReachableInv(c: Config, s: State)
    requires Reachable(c, s)
    ensures Inv(c, s)
  {
    var steps :| Leads(c, Init(), steps, s);
    RunKeepsInv(c, Init(), steps, s);
  }

  // ---- CompleteUpload ----

  /**
    Answer i: entry o created the ticket's session, last before the answer, from an accepted request;
    entry r is the last report before the answer, after that creation; entry p is the transfer it
    reports; and the etag is the eight-digit form of the checksum of the bytes pulled then.
   */
  ghost predicate Justified(c: Config, log: seq<Event>, i: nat, o: nat, r: nat, p: nat) {
    && o < r < i < |log| && p < r
    && log[i].Answered? && log[o].Opened? && log[r].Noted? && log[p].Pulled?
    && var id := log[o].id;
      && log[i].ticket == TicketOf(id)
      && log[o].bucket != "" && log[o].objectKey != "" && log[o].expectedSize > 0
      && NoOpen(log, o, i, id) && log[r].sessionId == id && NoNote(log, r, i, id)
      && log[p].sessionId == id
      && log[i].etag == Hex(Reported(c.computeCrc32c, log[p].bytes), 8)
  }

  /** Answer i found a completed session, which entry o then created anew, and nobody has reported since. */
  ghost predicate Recreated(log: seq<Event>, i: nat, o: nat) {
    && o < i < |log| && log[i].Answered? && log[o].Opened?
    && log[i].ticket == TicketOf(log[o].id) && log[i].since <= o
    && NoOpen(log, o, i, log[o].id) && NoNote(log, o, i, log[o].id)
  }

  lemma CompleteUploadIsSafe(c: Config, s: State, i: nat)
    requires Reachable(c, s) && i < |s.log| && s.log[i].Answered?
    ensures s.log[i].etag != "" ==> exists o, r, p :: Justified(c, s.log, i, o, r, p)
    ensures s.log[i].etag == "" ==> exists o :: Recreated(s.log, i, o)
  {
    ReachableInv(c, s);
    var o: nat, r: nat :| AnswerFrom(c, s.log, i, o, r);
    if s.log[i].etag == "" {
      assert Recreated(s.log, i, o);
    } else {
      assert Justified(c, s.log, i, o, r, s.log[r].at);
    }
  }

  /** The session of a ticket is found exactly when a report has come in since its latest creation. */
  lemma FoundExactlyWhenReported(c: Config, s: State, id: string)
    requires Reachable(c, s)
    ensures FindCompleted(s.sessions, TicketOf(id)).Some? <==>
      exists o, r :: LastOpen(s.log, o, |s.log|, id) && LastNote(c, s.log, o, r, |s.log|, id)
  {
    ReachableInv(c, s);
    TicketRoundTrip(id);
    if id in s.sessions {
      var o, r := s.openedAt[id], PlaceOf(s.notedAt, id);
      assert SessionTrue(c, s.log, id, s.sessions[id], o, r);
      assert forall o' :: LastOpen(s.log, o', |s.log|, id) ==> o' == o;
    } else {
      NeverOpened(c, s, id);
    }
  }

  lemma NeverOpened(c: Config, s: State, id: string)
    requires Reachable(c, s) && id !in s.sessions
    ensures forall o :: 0 <= o < |s.log| && s.log[o].Opened? ==> s.log[o].id != id
  {
    var steps :| Leads(c, Init(), steps, s);
    RunFilesOpens(c, Init(), steps, s);
  }

  ghost predicate OpensFiled(s: State) {
    forall o :: 0 <= o < |s.log| && s.log[o].Opened? ==> s.log[o].id in s.sessions
  }

  lemma {:induction false} RunFilesOpens(c: Config, s: State, steps: seq<Step>, s': State)
    requires OpensFiled(s) && Leads(c, s, steps, s')
    ensures OpensFiled(s')
    decreases |steps|
  {
    if steps != [] {
      StepFilesOpens(c, s, steps[0]);
      RunFilesOpens(c, Do(c, s, steps[0]), steps[1..], s');
    }
  }

  lemma StepFilesOpens(c: Config, s: State, a: Step)
    requires OpensFiled(s) && Enabled(c, s, a)
    ensures OpensFiled(Do(c, s, a))
  {
    if !a.FinishOpen? {
      StepShape(c, s, a);
    }
  }

  /**
    Session x is what request q asked for, and was created by entry o, its latest creation; if it is
    completed, entry r is the last report since, entry p the transfer that it reports, and the session
    holds the number of bytes pulled then, their checksum, and its eight digits.
   */
  ghost predicate HoldsTheTruth(
      c: Config, log: seq<Event>, x: Session, id: string, q: OpenRequest, o: nat, r: nat, p: nat) {
    && x.sessionId == id && x.ticket == "tkt-" + id && (q.sessionId == id || q.sessionId == "")
    && Refusal(q).None?
    && x.bucket == q.bucket && x.objectKey == q.objectKey && x.expectedSize == q.expectedSize
    && LastOpen(log, o, |log|, id)
    && log[o].hint == q.sessionId
    && (x.status == Pending ==> NoNote(log, o, |log|, id))
    && (x.status != Pending ==>
      && x.status == Completed
      && p < r && o < r < |log| && log[r].Noted? && log[r].sessionId == id && NoNote(log, r, |log|, id)
      && log[p].Pulled? && log[p].sessionId == id
      && x.crc32c == Reported(c.computeCrc32c, log[p].bytes)
      && x.bytesTransferred == |log[p].bytes|
      && x.etag == Hex(x.crc32c, 8))
  }

  /** Every session in the table is what some request that was sent asked for, and what its last report said. */
  lemma SessionsHoldTheTruth(c: Config, s: State, id: string) returns (q: OpenRequest, o: nat, r: nat, p: nat)
    requires Reachable(c, s) && id in s.sessions
    ensures q in s.opens && HoldsTheTruth(c, s.log, s.sessions[id], id, q, o, r, p)
  {
    ReachableInv(c, s);
    o, r := s.openedAt[id], PlaceOf(s.notedAt, id);
    var x := s.sessions[id];
    assert SessionTrue(c, s.log, id, x, o, r);
    q :| q in s.opens && Files(q, s.log[o]);
    assert NamedRight(s.log[o].hint, s.log[o].number, id);
    p := if x.status == Completed then s.log[r].at else 0;
  }

  /** A CompleteUpload that has found a session can always read its etag. */
  lemma FoundStaysReadable(c: Config, s: State, t: Tid)
    requires Reachable(c, s) && t in s.completing
    ensures Enabled(c, s, ReadEtag(t))
  {
    ReachableInv(c, s);
    assert OneFound(|s.log|, s.sessions, s.openedAt, s.completing[t]);
  }

  // ---- Sessions over time ----

  /** A step adds at most one entry to the log, and forgets no session. */
  lemma StepShape(c: Config, s: State, a: Step)
    requires Enabled(c, s, a)
    ensures s.log <= Do(c, s, a).log && |Do(c, s, a).log| <= |s.log| + 1
    ensures s.sessions.Keys <= Do(c, s, a).sessions.Keys
    ensures |Do(c, s, a).log| > |s.log| && Do(c, s, a).log[|s.log|].Opened? ==> a.FinishOpen?
  {
    if a.TakeReply? || a.TakeGrant? || a.StartAttempt? || a.LoseAttempt? || a.EndCall? || a.StartCall? {
      SameTableClient(c, s, a);
    }
  }

  lemma {:induction false} RunShape(c: Config, s: State, steps: seq<Step>, s': State)
    requires Leads(c, s, steps, s')
    ensures s.log <= s'.log && s.sessions.Keys <= s'.sessions.Keys
    decreases |steps|
  {
    if steps != [] {
      StepShape(c, s, steps[0]);
      RunShape(c, Do(c, s, steps[0]), steps[1..], s');
    }
  }

  /** Until it is created again, a session keeps its identity, and once completed it stays so. */
  lemma SessionsFrozen(c: Config, s: State, steps: seq<Step>, s': State, id: string)
    requires Reachable(c, s) && Leads(c, s, steps, s') && id in s.sessions
    requires forall j :: |s.log| <= j < |s'.log| && s'.log[j].Opened? ==> s'.log[j].id != id
    ensures id in s'.sessions
    ensures var x, x' := s.sessions[id], s'.sessions[id];
      && x'.sessionId == x.sessionId && x'.ticket == x.ticket && x'.bucket == x.bucket
      && x'.objectKey == x.objectKey && x'.expectedSize == x.expectedSize
      && x.status in {Pending, Completed} && (x.status == Completed ==> x'.status == Completed)
  {
    ReachableInv(c, s);
    RunKeepsInv(c, s, steps, s');
    RunShape(c, s, steps, s');
    SameCreation(c, s.log, s'.log, id, s.sessions[id], s.openedAt[id], PlaceOf(s.notedAt, id),
      s'.sessions[id], s'.openedAt[id], PlaceOf(s'.notedAt, id));
  }

  lemma SameCreation(
      c: Config, log: seq<Event>, log': seq<Event>, id: string, x: Session, o: nat, r: nat,
      x': Session, o': nat, r': nat)
    requires SessionTrue(c, log, id, x, o, r) && SessionTrue(c, log', id, x', o', r') && log <= log'
    requires forall j :: |log| <= j < |log'| && log'[j].Opened? ==> log'[j].id != id
    ensures o' == o && x'.ticket == x.ticket && x'.sessionId == x.sessionId && x'.bucket == x.bucket
    ensures x'.objectKey == x.objectKey && x'.expectedSize == x.expectedSize
    ensures x.status in {Pending, Completed} && (x.status == Completed ==> x'.status == Completed)
  {
    assert log'[o] == log[o];
    if o' < |log| {
      assert log'[o'] == log[o'];
    }
    assert o' == o;
    if x.status == Completed {
      assert log'[r] == log[r];
    }
  }

  /** Below 2^64 draws, two creations share an id only if they came with the same hint. */
  lemma IdsCollideOnlyByHint(c: Config, s: State, i: nat, j: nat)
    requires Reachable(c, s) && s.drawn <= UINT64
    requires i < j < |s.log| && s.log[i].Opened? && s.log[j].Opened?
    requires s.log[i].hint == "" || CLIENT_ID_PREFIX <= s.log[i].hint
    requires s.log[j].hint == "" || CLIENT_ID_PREFIX <= s.log[j].hint
    ensures s.log[i].id == s.log[j].id <==> s.log[i].hint == s.log[j].hint != ""
  {
    ReachableInv(c, s);
    var x, y := s.log[i], s.log[j];
    if x.hint == "" && y.hint == "" {
      assert Numbered(x) && Numbered(y);
      DrawnOnce(x.number, y.number);
    } else if x.hint == "" {
      GeneratedIsNotAHint(Wrapped(x.number), y.hint);
    } else if y.hint == "" {
      GeneratedIsNotAHint(Wrapped(y.number), x.hint);
    }
  }

  lemma DrawnOnce(m: nat, n: nat)
    requires m < UINT64 && n < UINT64
    ensures GeneratedId(Wrapped(m)) == GeneratedId(Wrapped(n)) <==> m == n
  {
    GeneratedIdsRepeat(m, n);
  }

  /** With hints never used twice, no creation overwrites another session. */
  lemma DistinctHintsNeverOverwrite(c: Config, s: State, i: nat, j: nat)
    requires Reachable(c, s) && s.drawn <= UINT64
    requires forall k :: 0 <= k < |s.log| && s.log[k].Opened? ==>
      s.log[k].hint == "" || CLIENT_ID_PREFIX <= s.log[k].hint
    requires forall k, m :: 0 <= k < m < |s.log| && s.log[k].Opened? && s.log[m].Opened? ==>
      s.log[k].hint == "" || s.log[k].hint != s.log[m].hint
    requires i < j < |s.log| && s.log[i].Opened? && s.log[j].Opened?
    ensures s.log[i].id != s.log[j].id
  {
    IdsCollideOnlyByHint(c, s, i, j);
  }

  /** A repeated OpenSession message makes the proxy forget that its session was completed. */
  lemma RepeatedOpenForgets(c: Config, s: State, t: Tid, request: OpenRequest)
    requires Reachable(c, s) && Enabled(c, s, BeginOpen(t, request)) && request.sessionId != ""
    ensures var s1 := BeginOpenStep(s, t, request);
      && Enabled(c, s1, FinishOpen(t))
      && FindCompleted(FinishOpenStep(s1, t).sessions, TicketOf(request.sessionId)) == None
  {
    TicketRoundTrip(request.sessionId);
  }

  // ---- Verified PUT, end to end ----

  /** What equal checksums rule out between two messages of one length. */
  ghost predicate NoSmallDifference(a: seq<Byte>, b: seq<Byte>) {
    |a| == |b| ==>
      && (forall start: nat, w: nat :: w <= 32 && start + w <= 8 * |a| && DifferOnlyWithin(a, b, start, w) ==> a == b)
      && Weight(Xor(Bits(a), Bits(b))) % 2 == 0
  }

  lemma EqualChecksums(a: seq<Byte>, b: seq<Byte>)
    requires CrcValue(a) == CrcValue(b)
    ensures NoSmallDifference(a, b)
  {
    if |a| == |b| {
      forall start: nat, w: nat | w <= 32 && start + w <= 8 * |a| && DifferOnlyWithin(a, b, start, w)
        ensures a == b
      {
        if a != b {
          BurstDetected(a, b, start, w);
        }
      }
      if Weight(Xor(Bits(a), Bits(b))) % 2 == 1 {
        OddChangeDetected(a, b);
      }
    }
  }

  /** The successful attempt of a call that returned true. */
  ghost predicate Succeeded(s: State, k: CallId, id: string, sent: SentReply, content: seq<Byte>) {
    && k in s.calls && LastTry(s.calls[k], id) && id in s.attempts && s.attempts[id].call == k
    && s.attempts[id].phase == Success(sent, content) && |content| == s.calls[k].size
    && sent.request.sessionId == id
  }

  /**
    A PUT that returned true did so by its last attempt, whose session the proxy had opened; the reply
    it took is the backend's answer to a transfer made under that attempt's session id.
   */
  lemma SuccessHasATransfer(c: Config, s: State, k: CallId) returns (id: string, sent: SentReply, content: seq<Byte>)
    requires Reachable(c, s) && k in s.calls && s.calls[k].outcome == Returned(true)
    ensures Succeeded(s, k, id, sent, content) && id in s.sessions
    ensures sent.at < |s.log| && s.log[sent.at].Pulled? && s.log[sent.at].sessionId == id
    ensures sent.reply == ReplyFor(c.computeCrc32c, s.log[sent.at].bytes)
    ensures c.verifyCrc32c ==> CrcValue(content) == sent.reply.crc32c
    ensures var call := s.calls[k];
      && sent.request.bucket == call.bucket && sent.request.objectKey == call.key
      && sent.request.chunkSize == call.size && sent.request.ticket == TicketOf(id)
      && |s.log[sent.at].bytes| <= call.size
  {
    ReachableInv(c, s);
    assert CallTrue(s.attempts, k, s.calls[k]);
    id := s.calls[k].tries[|s.calls[k].tries| - 1];
    assert AttemptTrue(c, s.replies, s.sessions.Keys, s.calls, id, s.attempts[id]);
    sent, content := s.attempts[id].phase.sent, s.attempts[id].phase.content;
    assert ReplyTrue(c, s.log, sent.request.sessionId, sent.reply, sent.at);
  }

  /** With both ends checking, the client's bytes and the bytes pulled have one checksum, whatever was retried. */
  lemma VerifiedPut(c: Config, s: State, k: CallId) returns (id: string, sent: SentReply, content: seq<Byte>)
    requires Reachable(c, s) && c.verifyCrc32c && c.computeCrc32c
    requires k in s.calls && s.calls[k].outcome == Returned(true)
    ensures Succeeded(s, k, id, sent, content)
    ensures sent.at < |s.log| && s.log[sent.at].Pulled? && s.log[sent.at].sessionId == id
    ensures CrcValue(content) == CrcValue(s.log[sent.at].bytes)
    ensures NoSmallDifference(content, s.log[sent.at].bytes)
  {
    id, sent, content := SuccessHasATransfer(c, s, k);
    EqualChecksums(content, s.log[sent.at].bytes);
  }

  /** Every attempt asks the proxy for its call's bucket, key and size, under its own id. */
  lemma AttemptsAskRight(c: Config, s: State, id: string)
    requires Reachable(c, s) && id in s.attempts
    ensures s.attempts[id].call in s.calls
    ensures var call, q := s.calls[s.attempts[id].call], s.attempts[id].open;
      && q in s.opens && q.sessionId == id
      && q.bucket == call.bucket && q.objectKey == call.key && q.expectedSize == call.expectedSize
      && (Refusal(q).None? <==> call.bucket != "" && call.key != "" && call.expectedSize > 0)
  {
    ReachableInv(c, s);
  }

  /** At most three attempts, all different, all failed but the last, and it decides. */
  lemma AttemptsOfACall(c: Config, s: State, k: CallId)
    requires Reachable(c, s) && k in s.calls
    ensures var tries := s.calls[k].tries;
      && |tries| <= 3
      && (forall i, j :: 0 <= i < j < |tries| ==> tries[i] != tries[j])
      && (forall i :: 0 <= i < |tries| - 1 ==> tries[i] in s.attempts && s.attempts[tries[i]].phase == Failure)
      && (s.calls[k].outcome == Returned(true) <==>
        tries != [] && tries[|tries| - 1] in s.attempts && s.attempts[tries[|tries| - 1]].phase.Success?)
  {
    ReachableInv(c, s);
    assert CallTrue(s.attempts, k, s.calls[k]);
  }

  /** The backend serves `bytes`, and the client takes the reply with `content` in its memory. */
  function ServeAndTake(c: Config, s: State, id: string, bytes: seq<Byte>, content: seq<Byte>): (s': State)
    requires id in s.attempts && s.attempts[id].phase.WaitPut? && s.attempts[id].call in s.calls
  {
    var request := s.attempts[id].phase.request;
    var s1 := ServeStep(c, s, request, bytes);
    TakeReplyStep(c, s1, id, SentReply(request, ReplyFor(c.computeCrc32c, bytes), |s.log|), content)
  }

  /** An attempt waiting for the data transfer, with whatever the client's memory holds. */
  ghost predicate CanBeServed(s: State, id: string, bytes: seq<Byte>, content: seq<Byte>) {
    && id in s.attempts && s.attempts[id].phase.WaitPut? && s.attempts[id].call in s.calls
    && CanServe(s, s.attempts[id].phase.request, bytes)
    && |content| == s.calls[s.attempts[id].call].size
  }

  lemma WaitingCallRuns(c: Config, s: State, id: string)
    requires Reachable(c, s) && id in s.attempts && s.attempts[id].phase.WaitPut?
    ensures s.attempts[id].call in s.calls && s.calls[s.attempts[id].call].outcome == Running
  {
    ReachableInv(c, s);
    assert AttemptTrue(c, s.replies, s.sessions.Keys, s.calls, id, s.attempts[id]);
  }

  /** When a served attempt makes its call succeed: lengths are never compared. */
  lemma SucceedsExactlyWhen(c: Config, s: State, id: string, bytes: seq<Byte>, content: seq<Byte>)
    requires Reachable(c, s) && CanBeServed(s, id, bytes, content)
    ensures var s' := ServeAndTake(c, s, id, bytes, content);
      s'.calls[s.attempts[id].call].outcome == Returned(true) <==>
        (c.verifyCrc32c ==> CrcValue(content) == Reported(c.computeCrc32c, bytes))
  {
    WaitingCallRuns(c, s, id);
  }

  /** So even a checked PUT can succeed with its last four bytes never pulled: some four pass unseen. */
  lemma ShortReadCanPass(c: Config, s: State, id: string, bytes: seq<Byte>) returns (content: seq<Byte>)
    requires Reachable(c, s) && c.computeCrc32c
    requires id in s.attempts && s.attempts[id].phase.WaitPut? && s.attempts[id].call in s.calls
    requires CanServe(s, s.attempts[id].phase.request, bytes)
    requires s.calls[s.attempts[id].call].size == |bytes| + 4
    ensures CanBeServed(s, id, bytes, content) && |content| == |bytes| + 4 && bytes <= content
    ensures var s' := ServeAndTake(c, s, id, bytes, content);
      s'.calls[s.attempts[id].call].outcome == Returned(true)
  {
    var tail := TailFor(bytes, Crc(bytes));
    content := bytes + tail;
    SucceedsExactlyWhen(c, s, id, bytes, content);
  }
}
