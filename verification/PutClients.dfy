/** What every step keeps about the client's calls and their attempts. */
module PutClients {
  import opened Words
  import opened Crc32cSpec
  import opened SessionSpec
  import opened Messages
  import opened PutMachine
  import opened PutInvariant

  type Calls = map<CallId, Call>
  type Attempts = map<string, Attempt>

  predicate LastTry(call: Call, id: string) {
    call.tries != [] && call.tries[|call.tries| - 1] == id
  }

  predicate IsWaiting(p: Phase) {
    p.WaitOpen? || p.WaitPut?
  }

  /** A success rests on a reply to this attempt's own request, and on equal checksums if they are checked. */
  ghost predicate SuccessTrue(
      c: Config, replies: set<SentReply>, known: set<string>, call: Call, id: string, sent: SentReply,
      content: seq<Byte>) {
    && call.outcome == Returned(true) && |content| == call.size
    && sent in replies && sent.request.sessionId == id
    && sent.request.ticket == TicketOf(id) && id in known
    && (c.verifyCrc32c ==> CrcValue(content) == sent.reply.crc32c)
  }

  ghost predicate AttemptTrue(
      c: Config, replies: set<SentReply>, known: set<string>, calls: Calls, id: string, a: Attempt) {
    && a.call in calls
    && var call := calls[a.call];
      && (a.phase != Failure ==> LastTry(call, id))
      && (IsWaiting(a.phase) ==> call.outcome == Running)
      && (a.phase.WaitPut? ==>
        a.phase.request.sessionId == id && a.phase.request.ticket == TicketOf(id) && id in known)
      && (a.phase.Success? ==> SuccessTrue(c, replies, known, call, id, a.phase.sent, a.phase.content))
  }

  ghost predicate TriesTrue(attempts: Attempts, k: CallId, tries: seq<string>) {
    && (forall i :: 0 <= i < |tries| ==> tries[i] in attempts && attempts[tries[i]].call == k)
    && (forall i :: 0 <= i < |tries| - 1 ==> tries[i] in attempts && attempts[tries[i]].phase == Failure)
    && (forall i, j :: 0 <= i < j < |tries| ==> tries[i] != tries[j])
  }

  /** At most three attempts, each but the last a failure, and the last decides the call. */
  ghost predicate CallTrue(attempts: Attempts, k: CallId, call: Call) {
    && |call.tries| <= MAX_ATTEMPTS
    && TriesTrue(attempts, k, call.tries)
    && (call.outcome == Returned(true) <==>
      call.tries != [] && attempts[call.tries[|call.tries| - 1]].phase.Success?)
    && (call.outcome == Returned(false) && call.tries != [] ==>
      attempts[call.tries[|call.tries| - 1]].phase == Failure)
  }

  ghost predicate ClientInv(
      c: Config, replies: set<SentReply>, known: set<string>, calls: Calls, attempts: Attempts) {
    && (forall id :: id in attempts ==> AttemptTrue(c, replies, known, calls, id, attempts[id]))
    && (forall k :: k in calls ==> CallTrue(attempts, k, calls[k]))
  }

  ghost predicate ClientsTrue(c: Config, s: State) {
    ClientInv(c, s.replies, s.sessions.Keys, s.calls, s.attempts)
  }

  /** More replies and more sessions take nothing away. */
  lemma MoreIsFine(
      c: Config, replies: set<SentReply>, replies': set<SentReply>, known: set<string>, known': set<string>,
      calls: Calls, attempts: Attempts)
    requires ClientInv(c, replies, known, calls, attempts) && replies <= replies' && known <= known'
    ensures ClientInv(c, replies', known', calls, attempts)
  {
    forall id | id in attempts
      ensures AttemptTrue(c, replies', known', calls, id, attempts[id])
    {
      assert AttemptTrue(c, replies, known, calls, id, attempts[id]);
    }
  }

  /** An attempt changes its phase; its call may end with it. */
  lemma PhaseChanges(
      c: Config, replies: set<SentReply>, known: set<string>, calls: Calls, attempts: Attempts,
      id: string, a: Attempt, call: Call)
    requires ClientInv(c, replies, known, calls, attempts)
    requires id in attempts && IsWaiting(attempts[id].phase) && a.call == attempts[id].call && a.call in calls
    requires call == calls[a.call].(outcome := call.outcome)
    requires call.outcome == if a.phase.Success? then Returned(true) else Running
    requires AttemptTrue(c, replies, known, calls[a.call := call], id, a)
    ensures ClientInv(c, replies, known, calls[a.call := call], attempts[id := a])
  {
    var calls', attempts' := calls[a.call := call], attempts[id := a];
    assert AttemptTrue(c, replies, known, calls, id, attempts[id]);
    assert CallTrue(attempts, a.call, calls[a.call]);
    forall i | i in attempts'
      ensures AttemptTrue(c, replies, known, calls', i, attempts'[i])
    {
      if i != id {
        assert AttemptTrue(c, replies, known, calls, i, attempts[i]);
      }
    }
    forall k | k in calls'
      ensures CallTrue(attempts', k, calls'[k])
    {
      assert CallTrue(attempts, k, calls[k]);
      PhaseInTries(attempts, k, calls[k].tries, id, a);
    }
  }

  lemma PhaseInTries(attempts: Attempts, k: CallId, tries: seq<string>, id: string, a: Attempt)
    requires TriesTrue(attempts, k, tries) && id in attempts && a.call == attempts[id].call
    requires attempts[id].phase != Failure
    ensures TriesTrue(attempts[id := a], k, tries)
    ensures k != a.call ==> id !in tries
  {
  }

  lemma LoseKeeps(c: Config, s: State, id: string)
    requires ClientsTrue(c, s) && Waiting(s, id)
    ensures ClientsTrue(c, LoseAttemptStep(s, id))
  {
    var a := s.attempts[id].(phase := Failure);
    assert AttemptTrue(c, s.replies, s.sessions.Keys, s.calls, id, s.attempts[id]);
    assert s.calls[a.call := s.calls[a.call]] == s.calls;
    PhaseChanges(c, s.replies, s.sessions.Keys, s.calls, s.attempts, id, a, s.calls[a.call]);
  }

  lemma GrantKeeps(c: Config, s: State, id: string, grant: OpenReply, token: string)
    requires ClientsTrue(c, s) && GrantsTrue(s.sessions, s.grants) && CanTakeGrant(s, id, grant, token)
    ensures ClientsTrue(c, TakeGrantStep(s, id, grant, token))
  {
    var a := TakeGrantStep(s, id, grant, token).attempts[id];
    assert AttemptTrue(c, s.replies, s.sessions.Keys, s.calls, id, s.attempts[id]);
    assert s.calls[a.call := s.calls[a.call]] == s.calls;
    PhaseChanges(c, s.replies, s.sessions.Keys, s.calls, s.attempts, id, a, s.calls[a.call]);
  }

  lemma ReplyKeeps(c: Config, s: State, id: string, sent: SentReply, content: seq<Byte>)
    requires ClientsTrue(c, s) && CanTakeReply(s, id, sent, content)
    ensures ClientsTrue(c, TakeReplyStep(c, s, id, sent, content))
  {
    assert AttemptTrue(c, s.replies, s.sessions.Keys, s.calls, id, s.attempts[id]);
    if c.verifyCrc32c && CrcValue(content) != sent.reply.crc32c {
      LoseKeeps(c, s, id);
    } else {
      var a := s.attempts[id].(phase := Success(sent, content));
      var call := s.calls[a.call].(outcome := Returned(true));
      assert SuccessTrue(c, s.replies, s.sessions.Keys, call, id, sent, content);
      PhaseChanges(c, s.replies, s.sessions.Keys, s.calls, s.attempts, id, a, call);
    }
  }

  lemma StartKeeps(c: Config, s: State, k: CallId, number: nat, requestId: string)
    requires ClientsTrue(c, s) && CanStartAttempt(s, k, number)
    ensures ClientsTrue(c, StartAttemptStep(s, k, number, requestId))
  {
    var id := ClientId(number);
    var s' := StartAttemptStep(s, k, number, requestId);
    AttemptJoins(c, s.replies, s.sessions.Keys, s.calls, s.attempts, k, id, s'.attempts[id]);
  }

  lemma AttemptJoins(
      c: Config, replies: set<SentReply>, known: set<string>, calls: Calls, attempts: Attempts,
      k: CallId, id: string, a: Attempt)
    requires ClientInv(c, replies, known, calls, attempts) && k in calls && id !in attempts
    requires a.call == k && a.phase == WaitOpen
    requires calls[k].outcome == Running && |calls[k].tries| < MAX_ATTEMPTS
    requires calls[k].tries == [] || attempts[calls[k].tries[|calls[k].tries| - 1]].phase == Failure
    ensures ClientInv(c, replies, known, calls[k := calls[k].(tries := calls[k].tries + [id])], attempts[id := a])
  {
    var calls', attempts' := calls[k := calls[k].(tries := calls[k].tries + [id])], attempts[id := a];
    forall i | i in attempts'
      ensures AttemptTrue(c, replies, known, calls', i, attempts'[i])
    {
      if i != id {
        assert AttemptTrue(c, replies, known, calls, i, attempts[i]);
        assert CallTrue(attempts, k, calls[k]);
      }
    }
    forall j | j in calls'
      ensures CallTrue(attempts', j, calls'[j])
    {
      assert CallTrue(attempts, j, calls[j]);
      TriesGrow(attempts, j, calls[j].tries, id, a);
    }
  }

  lemma TriesGrow(attempts: Attempts, k: CallId, tries: seq<string>, id: string, a: Attempt)
    requires TriesTrue(attempts, k, tries) && id !in attempts
    ensures TriesTrue(attempts[id := a], k, tries)
    ensures a.call == k && (tries == [] || attempts[tries[|tries| - 1]].phase == Failure) ==>
      TriesTrue(attempts[id := a], k, tries + [id])
  {
  }

  lemma EndKeeps(c: Config, s: State, k: CallId)
    requires ClientsTrue(c, s) && CanEndCall(s, k)
    ensures ClientsTrue(c, EndCallStep(s, k))
  {
    var s' := EndCallStep(s, k);
    assert CallTrue(s.attempts, k, s.calls[k]);
    forall i | i in s'.attempts
      ensures AttemptTrue(c, s'.replies, s'.sessions.Keys, s'.calls, i, s'.attempts[i])
    {
      assert AttemptTrue(c, s.replies, s.sessions.Keys, s.calls, i, s.attempts[i]);
    }
    forall j | j in s'.calls
      ensures CallTrue(s'.attempts, j, s'.calls[j])
    {
      assert CallTrue(s.attempts, j, s.calls[j]);
    }
  }

  lemma CallJoins(c: Config, s: State, k: CallId, call: Call)
    requires ClientsTrue(c, s) && k !in s.calls && IsFresh(call)
    ensures ClientsTrue(c, s.(calls := s.calls[k := call]))
  {
    var s' := s.(calls := s.calls[k := call]);
    forall i | i in s'.attempts
      ensures AttemptTrue(c, s'.replies, s'.sessions.Keys, s'.calls, i, s'.attempts[i])
    {
      assert AttemptTrue(c, s.replies, s.sessions.Keys, s.calls, i, s.attempts[i]);
    }
    forall j | j in s'.calls
      ensures CallTrue(s'.attempts, j, s'.calls[j])
    {
    }
  }

  /** The proxy and the backend leave the client's records alone. */
  lemma OthersLeaveClients(c: Config, s: State, a: Step)
    requires Enabled(c, s, a)
    requires a.SendOpen? || a.SendPut? || a.BeginOpen? || a.FinishOpen? || a.Serve? || a.Deliver? || a.LookUp? || a.ReadEtag?
    ensures var s' := Do(c, s, a);
      && s'.calls == s.calls && s'.attempts == s.attempts
      && s.replies <= s'.replies && s.sessions.Keys <= s'.sessions.Keys
  {
  }

  lemma ClientsKept(c: Config, s: State, a: Step)
    requires ClientsTrue(c, s) && GrantsTrue(s.sessions, s.grants) && Enabled(c, s, a)
    ensures ClientsTrue(c, Do(c, s, a))
  {
    match a
    case StartCall(k, call) => CallJoins(c, s, k, call);
    case StartAttempt(k, number, requestId) => StartKeeps(c, s, k, number, requestId);
    case TakeGrant(id, grant, token) => GrantKeeps(c, s, id, grant, token);
    case LoseAttempt(id) => LoseKeeps(c, s, id);
    case TakeReply(id, sent, content) => ReplyKeeps(c, s, id, sent, content);
    case EndCall(k) => EndKeeps(c, s, k);
    case _ =>
      OthersLeaveClients(c, s, a);
      var s' := Do(c, s, a);
      MoreIsFine(c, s.replies, s'.replies, s.sessions.Keys, s'.sessions.Keys, s.calls, s.attempts);
  }
}
