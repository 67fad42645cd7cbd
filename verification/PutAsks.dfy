/** What was asked for stays with what is done: sessions and transfers carry the request's own fields. */
module PutAsks {
  import opened Options
  import opened Words
  import opened SessionSpec
  import opened Messages
  import opened PutMachine
  import opened PutInvariant

  /** The session created by event e is the one that request q asked for. */
  predicate Files(q: OpenRequest, e: Event)
    requires e.Opened?
  {
    && Refusal(q).None?
    && e.hint == q.sessionId && e.bucket == q.bucket && e.objectKey == q.objectKey
    && e.expectedSize == q.expectedSize
  }

  /** Every session was asked for by a request that was sent. */
  ghost predicate LogAsked(opens: set<OpenRequest>, opening: map<Tid, Opening>, log: seq<Event>) {
    && (forall t :: t in opening ==> opening[t].request in opens && Refusal(opening[t].request).None?)
    && (forall i :: 0 <= i < |log| && log[i].Opened? ==> exists q :: q in opens && Files(q, log[i]))
  }

  predicate OpensFor(call: Call, id: string, q: OpenRequest) {
    && q.sessionId == id && q.dataFlow == GDS_DATA_PATH && q.opType == OP_TYPE_PUT && !q.isMultipartPart
    && q.bucket == call.bucket && q.objectKey == call.key && q.expectedSize == call.expectedSize
  }

  predicate PutsFor(call: Call, id: string, q: PutRequest) {
    && q.sessionId == id && q.bucket == call.bucket && q.objectKey == call.key && q.chunkSize == call.size
    && Servable(q)
  }

  /** An attempt has asked the proxy, and then the backend, for just what its call is about. */
  ghost predicate AttemptAsks(opens: set<OpenRequest>, puts: set<PutRequest>, call: Call, id: string, a: Attempt) {
    && a.open in opens && OpensFor(call, id, a.open)
    && (a.phase.WaitPut? ==> a.phase.request in puts && PutsFor(call, id, a.phase.request))
    && (a.phase.Success? ==> PutsFor(call, id, a.phase.sent.request))
  }

  ghost predicate ClientsAsk(
      opens: set<OpenRequest>, puts: set<PutRequest>, calls: map<CallId, Call>, attempts: map<string, Attempt>) {
    forall id :: id in attempts ==>
      attempts[id].call in calls && AttemptAsks(opens, puts, calls[attempts[id].call], id, attempts[id])
  }

  /** No transfer brings more than it was asked for. */
  ghost predicate RepliesFit(replies: set<SentReply>) {
    forall x :: x in replies ==> x.reply.bytesReceived <= x.request.chunkSize
  }

  ghost predicate AsksInv(s: State) {
    && LogAsked(s.opens, s.opening, s.log)
    && ClientsAsk(s.opens, s.puts, s.calls, s.attempts)
    && RepliesFit(s.replies)
  }

  // ---- The proxy's side ----

  lemma OtherEventAsked(opens: set<OpenRequest>, opening: map<Tid, Opening>, log: seq<Event>, e: Event)
    requires LogAsked(opens, opening, log) && !e.Opened?
    ensures LogAsked(opens, opening, log + [e])
  {
    var log' := log + [e];
    forall i | 0 <= i < |log'| && log'[i].Opened?
      ensures exists q :: q in opens && Files(q, log'[i])
    {
      assert log'[i] == log[i];
    }
  }

  lemma MoreOpensAsked(opens: set<OpenRequest>, opens': set<OpenRequest>, opening: map<Tid, Opening>, log: seq<Event>)
    requires LogAsked(opens, opening, log) && opens <= opens'
    ensures LogAsked(opens', opening, log)
  {
    forall i | 0 <= i < |log| && log[i].Opened?
      ensures exists q :: q in opens' && Files(q, log[i])
    {
      var q :| q in opens && Files(q, log[i]);
      assert q in opens';
    }
  }

  lemma FinishOpenAsked(s: State, t: Tid)
    requires LogAsked(s.opens, s.opening, s.log) && t in s.opening
    ensures var s' := FinishOpenStep(s, t); LogAsked(s'.opens, s'.opening, s'.log)
  {
    var s' := FinishOpenStep(s, t);
    var q := s.opening[t].request;
    forall i | 0 <= i < |s'.log| && s'.log[i].Opened?
      ensures exists q :: q in s.opens && Files(q, s'.log[i])
    {
      if i < |s.log| {
        assert s'.log[i] == s.log[i];
      } else {
        assert q in s.opens && Files(q, s'.log[i]);
      }
    }
  }

  lemma LogKept(c: Config, s: State, a: Step)
    requires LogAsked(s.opens, s.opening, s.log) && Enabled(c, s, a)
    ensures var s' := Do(c, s, a); LogAsked(s'.opens, s'.opening, s'.log)
  {
    var s' := Do(c, s, a);
    if a.FinishOpen? {
      FinishOpenAsked(s, a.t);
    } else if a.BeginOpen? {
      var o := s'.opening[a.t];
      assert s'.opening == s.opening[a.t := o] && o.request == a.open;
    } else {
      SameNames(c, s, a);
      OpensGrow(c, s, a);
      MoreOpensAsked(s.opens, s'.opens, s.opening, s.log);
      if s'.log != s.log {
        OtherEventAsked(s'.opens, s.opening, s.log, s'.log[|s.log|]);
      }
    }
  }

  lemma OpensGrow(c: Config, s: State, a: Step)
    requires Enabled(c, s, a)
    ensures s.opens <= Do(c, s, a).opens && s.puts <= Do(c, s, a).puts
  {
  }

  // ---- The client's side ----

  /** An attempt moves on, and its call may end, without forgetting what it asked. */
  lemma PhaseKept(s: State, s': State, id: string)
    requires ClientsAsk(s.opens, s.puts, s.calls, s.attempts) && id in s.attempts && id in s'.attempts
    requires s.opens <= s'.opens && s.puts <= s'.puts
    requires s'.attempts == s.attempts[id := s.attempts[id].(phase := s'.attempts[id].phase)]
    requires s.calls.Keys <= s'.calls.Keys
    requires forall k :: k in s.calls ==>
      s'.calls[k].(tries := s.calls[k].tries, outcome := s.calls[k].outcome) == s.calls[k]
    requires AttemptAsks(s'.opens, s'.puts, s.calls[s.attempts[id].call], id, s'.attempts[id])
    ensures ClientsAsk(s'.opens, s'.puts, s'.calls, s'.attempts)
  {
  }

  lemma ClientsKeepAsking(c: Config, s: State, a: Step)
    requires ClientsAsk(s.opens, s.puts, s.calls, s.attempts) && Enabled(c, s, a)
    requires a.StartAttempt? || a.TakeGrant? || a.LoseAttempt? || a.TakeReply? || a.EndCall? || a.StartCall?
    ensures var s' := Do(c, s, a); ClientsAsk(s'.opens, s'.puts, s'.calls, s'.attempts)
  {
    match a
    case StartAttempt(k, number, requestId) => StartKept(s, k, number, requestId);
    case TakeGrant(id, grant, token) => TakeGrantKept(s, id, grant, token);
    case LoseAttempt(id) => LoseKept(s, id);
    case TakeReply(id, sent, content) => TakeReplyKept(c, s, id, sent, content);
    case EndCall(k) => EndKept(s, k);
    case StartCall(_, _) =>
  }

  lemma StartKept(s: State, k: CallId, number: nat, requestId: string)
    requires ClientsAsk(s.opens, s.puts, s.calls, s.attempts) && CanStartAttempt(s, k, number)
    ensures var s' := StartAttemptStep(s, k, number, requestId); ClientsAsk(s'.opens, s'.puts, s'.calls, s'.attempts)
  {
  }

  lemma TakeGrantKept(s: State, id: string, grant: OpenReply, token: string)
    requires ClientsAsk(s.opens, s.puts, s.calls, s.attempts) && CanTakeGrant(s, id, grant, token)
    ensures var s' := TakeGrantStep(s, id, grant, token); ClientsAsk(s'.opens, s'.puts, s'.calls, s'.attempts)
  {
    PhaseKept(s, TakeGrantStep(s, id, grant, token), id);
  }

  lemma LoseKept(s: State, id: string)
    requires ClientsAsk(s.opens, s.puts, s.calls, s.attempts) && id in s.attempts
    ensures var s' := LoseAttemptStep(s, id); ClientsAsk(s'.opens, s'.puts, s'.calls, s'.attempts)
  {
    PhaseKept(s, LoseAttemptStep(s, id), id);
  }

  lemma EndKept(s: State, k: CallId)
    requires ClientsAsk(s.opens, s.puts, s.calls, s.attempts) && CanEndCall(s, k)
    ensures var s' := EndCallStep(s, k); ClientsAsk(s'.opens, s'.puts, s'.calls, s'.attempts)
  {
  }

  lemma TakeReplyKept(c: Config, s: State, id: string, sent: SentReply, content: seq<Byte>)
    requires ClientsAsk(s.opens, s.puts, s.calls, s.attempts) && CanTakeReply(s, id, sent, content)
    ensures var s' := TakeReplyStep(c, s, id, sent, content); ClientsAsk(s'.opens, s'.puts, s'.calls, s'.attempts)
  {
    PhaseKept(s, TakeReplyStep(c, s, id, sent, content), id);
  }

  lemma OthersAskAlike(c: Config, s: State, a: Step)
    requires Enabled(c, s, a)
    requires !(a.StartAttempt? || a.TakeGrant? || a.LoseAttempt? || a.TakeReply? || a.EndCall? || a.StartCall?)
    ensures Do(c, s, a).calls == s.calls && Do(c, s, a).attempts == s.attempts
  {
  }

  lemma RepliesKept(c: Config, s: State, a: Step)
    requires RepliesFit(s.replies) && Enabled(c, s, a)
    ensures RepliesFit(Do(c, s, a).replies)
  {
    if a.Serve? {
      assert ServeStep(c, s, a.put, a.bytes).replies
        == s.replies + {SentReply(a.put, ReplyFor(c.computeCrc32c, a.bytes), |s.log|)};
    } else {
      RepliesSame(c, s, a);
    }
  }

  lemma RepliesSame(c: Config, s: State, a: Step)
    requires Enabled(c, s, a) && !a.Serve?
    ensures Do(c, s, a).replies == s.replies
  {
  }

  lemma AsksKept(c: Config, s: State, a: Step)
    requires AsksInv(s) && Enabled(c, s, a)
    ensures AsksInv(Do(c, s, a))
  {
    LogKept(c, s, a);
    RepliesKept(c, s, a);
    OpensGrow(c, s, a);
    if a.StartAttempt? || a.TakeGrant? || a.LoseAttempt? || a.TakeReply? || a.EndCall? || a.StartCall? {
      ClientsKeepAsking(c, s, a);
    } else {
      OthersAskAlike(c, s, a);
    }
  }
}
