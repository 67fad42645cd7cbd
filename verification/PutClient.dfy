/** The client's PutObject: a retried sequence of open, token, transfer and check, cleaned up on every path. */
module PutClient {
  import opened Options
  import opened Words
  import opened Texts
  import opened Crc32cSpec
  import opened Crc32cTable
  import opened SessionSpec
  import opened GdsMemory
  import opened Messages
  import opened ClientOutside
  import opened RetrySpec
  import ClientCrc32c

  datatype ClientOptions = ClientOptions(requestTimeout: nat, putSingleMaxBytes: nat, verifyCrc32c: bool)
  datatype PutObjectRequest = PutObjectRequest(bucket: string, key: string, expectedSize: Option<nat>)
  datatype BufferView = BufferView(data: nat, size: nat)

  datatype TransferOutcome = TransferOutcome(
    bytesTransferred: nat, requestId: string, sessionId: string, etag: string, crc32c: nat)

  function MakeTransferOutcome(attempt: PutAttempt, result: GdsPutResult, buffer: BufferView): TransferOutcome {
    TransferOutcome(buffer.size, attempt.requestId, attempt.sessionId, result.etag, result.crc32c)
  }

  function Last(s: seq<string>): string {
    if s == [] then "" else s[|s| - 1]
  }

  /**
    From `base` to `now` sessions were opened, and exactly those were aborted in that order, except the
    last one when `done`.
   */
  ghost predicate AbortedRight(
      base: seq<string>, now: seq<string>, abortsBase: seq<string>, aborts: seq<string>, done: bool) {
    && base <= now && (done ==> |base| < |now|)
    && aborts == abortsBase + now[|base|..if done then |now| - 1 else |now|]
  }

  predicate OneMore(s: seq<string>, s': seq<string>) {
    s <= s' && |s'| == |s| + 1
  }

  /** One more attempt, which opened a session or not, and aborted it unless it succeeded. */
  lemma AbortedStep(
      base: seq<string>, now: seq<string>, now': seq<string>, abortsBase: seq<string>, aborts: seq<string>,
      ok: bool)
    requires AbortedRight(base, now, abortsBase, aborts, false)
    requires OneMore(now, now') || (!ok && now' == now)
    ensures AbortedRight(base, now', abortsBase, aborts + if ok then [] else now'[|now|..], ok)
  {
    if ok {
      assert now'[|base|..|now'| - 1] == now[|base|..];
    } else {
      assert now'[|base|..] == now[|base|..] + now'[|now|..];
    }
  }

  /** The first results are the attempts' verdicts, and the others are failures. */
  ghost predicate Verdicts(results: seq<bool>, records: seq<AttemptRecord>) {
    && |records| <= |results|
    && (forall i :: 0 <= i < |records| ==> (results[i] <==> records[i].passed))
    && (forall i :: |records| <= i < |results| ==> !results[i])
  }

  lemma VerdictsStep(
      results: seq<bool>, base: seq<AttemptRecord>, now: seq<AttemptRecord>, now': seq<AttemptRecord>)
    requires base <= now <= now' && |now'| == |now| + 1 && |results| == |now| - |base|
    requires Verdicts(results, now[|base|..])
    ensures Verdicts(results + [now'[|now|].passed], now'[|base|..])
  {
    var r, r' := now[|base|..], now'[|base|..];
    assert forall i :: 0 <= i < |r| ==> r'[i] == r[i];
  }

  predicate AllWithin(times: seq<nat>, begun: nat, deadline: nat) {
    forall i :: 0 <= i < |times| ==> begun <= times[i] < deadline
  }

  const REQUEST_ID_PREFIX: string := "req-"

  function ClientRequestId(draw: nat): string {
    REQUEST_ID_PREFIX + Hex(draw, 16)
  }

  /**
    What the outside answered in one attempt: the proxy, the RDMA library when a token was asked for,
    the backend, and the copy out of device memory. `passed` is the attempt's own verdict.
   */
  datatype AttemptRecord = AttemptRecord(
    requestId: string, sessionId: string, grant: Option<OpenReply>, token: bool, answer: Option<GdsPutResult>,
    copy: Option<seq<Byte>>, passed: bool)

  predicate Echoed(requestId: string, sessionId: string, grant: Option<OpenReply>) {
    grant.Some? && grant.value.requestId == requestId && grant.value.sessionId == sessionId
  }

  predicate Granted(r: AttemptRecord) {
    Echoed(r.requestId, r.sessionId, r.grant)
  }

  /** The check is off, or the copy came and has the checksum that the backend sent. */
  predicate Agrees(verifyCrc32c: bool, copy: Option<seq<Byte>>, remote: nat) {
    verifyCrc32c ==> copy.Some? && CrcValue(copy.value) == remote
  }

  /** When an attempt must succeed: every answer came, the session's was for this attempt, and the check holds. */
  predicate Passes(verifyCrc32c: bool, r: AttemptRecord) {
    Granted(r) && r.token && r.answer.Some? && Agrees(verifyCrc32c, r.copy, r.answer.value.crc32c)
  }

  /** Every attempt succeeded exactly when it had to. */
  ghost predicate Judged(verifyCrc32c: bool, attempts: seq<AttemptRecord>) {
    forall i :: 0 <= i < |attempts| ==> (attempts[i].passed <==> Passes(verifyCrc32c, attempts[i]))
  }

  /** The library's last answer is a token. */
  predicate TokenGiven(before: seq<ClientCall>, after: seq<ClientCall>) {
    |before| < |after| && after[|after| - 1].TokenAsked? && after[|after| - 1].tok != 0
  }

  /** The outcome is made of the attempt's ids and the backend's answer, and the buffer's own size. */
  predicate ReportsAttempt(out: TransferOutcome, r: AttemptRecord, buffer: BufferView) {
    && r.answer.Some?
    && out.bytesTransferred == buffer.size && out.requestId == r.requestId && out.sessionId == r.sessionId
    && out.etag == r.answer.value.etag && out.crc32c == r.answer.value.crc32c
  }

  /** One request went over the data channel: this attempt's, with its ticket, object and size. */
  predicate SentOne(
      before: seq<ChunkSent>, after: seq<ChunkSent>, attempt: PutAttempt, ticket: string, size: nat) {
    && before <= after && |after| == |before| + 1
    && var q := after[|before|];
      && q.requestId == attempt.requestId && q.sessionId == attempt.sessionId && q.ticket == ticket
      && q.bucket == attempt.bucket && q.key == attempt.key && q.chunkSize == size
  }

  /** What a client is made of once it is initialized. */
  class Channels {
    const options: ClientOptions
    const meta: MetaRpc
    const chunk: ChunkRpc
    const gds: GdsMemoryManager
    const memory: DeviceMemory
    const clock: Clock
    const ids: IdSource
    const table: seq<Word>
    /** One record for each attempt so far. */
    ghost var attempts: seq<AttemptRecord>

    constructor (
        options: ClientOptions, meta: MetaRpc, chunk: ChunkRpc, gds: GdsMemoryManager, memory: DeviceMemory,
        clock: Clock, ids: IdSource)
      requires gds.Valid()
      ensures Valid() && this.options == options && this.meta == meta && this.gds == gds
    {
      this.options, this.meta, this.chunk, this.gds := options, meta, chunk, gds;
      this.memory, this.clock, this.ids := memory, clock, ids;
      var t := ClientCrc32c.MakeTable();
      this.table := t;
      this.attempts := [];
    }

    ghost predicate Valid()
      reads this, gds, gds.client
    {
      gds.Valid() && IsTable(table) && Judged(options.verifyCrc32c, attempts)
    }

    method MakePutAttempt(request: PutObjectRequest) returns (attempt: PutAttempt)
      modifies ids
      ensures ids.next == old(ids.next) + 2
      ensures attempt.requestId == ClientRequestId(ids.draw(old(ids.next)))
      ensures attempt.sessionId == ClientId(ids.draw(old(ids.next) + 1))
      ensures attempt.requestId == "req-" + Hex(ids.draw(old(ids.next)), 16)
      ensures attempt.sessionId == "ses-" + Hex(ids.draw(old(ids.next) + 1), 16)
      ensures attempt.bucket == request.bucket && attempt.key == request.key && attempt.length == request.expectedSize
    {
      var requestId := ids.MakeId(REQUEST_ID_PREFIX);
      var sessionId := ids.MakeId(CLIENT_ID_PREFIX);
      attempt := PutAttempt(request.bucket, request.key, request.expectedSize, requestId, sessionId);
    }

    /** The end-to-end check: true exactly if it is off, or the copy came and the checksums agree. */
    method Verified(buffer: BufferView, remote: nat) returns (ok: bool, ghost copy: Option<seq<Byte>>)
      requires IsTable(table)
      modifies memory
      ensures copy == if options.verifyCrc32c then memory.copy else None
      ensures copy.Some? ==> |copy.value| == buffer.size
      ensures ok <==> (options.verifyCrc32c ==> memory.copy.Some? && remote == CrcValue(memory.copy.value))
    {
      copy := None;
      if !options.verifyCrc32c {
        return true, copy;
      }
      var host := memory.CopyToHost(buffer.data, buffer.size);
      copy := host;
      if host == None {
        return false, copy;
      }
      var local := ClientCrc32c.Crc32c(table, host.value);
      return local == remote, copy;
    }

    /**
      With a session open: token, transfer, check, and what the outside answered to each that was
      reached. The token is held by `token` on the way out.
     */
    method Transfer(attempt: PutAttempt, ticket: string, buffer: BufferView, token: Token, before: TransferOutcome)
      returns (ok: bool, out: TransferOutcome, ghost answer: Option<GdsPutResult>, ghost copy: Option<seq<Byte>>)
      requires Valid() && token.Valid() && token.client == null
      modifies gds`registered, gds.client, token, chunk, memory
      ensures Valid() && token.Valid() && (token.client == null || token.client == gds.client)
      ensures token.tok != 0 <==>
        buffer.data != 0 && buffer.size != 0 && TokenGiven(old(gds.client.calls), gds.client.calls)
      ensures token.tok == 0 || !chunk.channelOk ==> chunk.sent == old(chunk.sent) && answer == None
      ensures token.tok != 0 ==> answer == chunk.answer
      ensures token.tok != 0 && chunk.channelOk ==>
        && SentOne(old(chunk.sent), chunk.sent, attempt, ticket, buffer.size)
        && chunk.sent[|old(chunk.sent)|].token == token.tok
      ensures copy == if answer.Some? && options.verifyCrc32c then memory.copy else None
      ensures copy.Some? ==> |copy.value| == buffer.size
      ensures ok <==>
        token.tok != 0 && answer.Some? && Agrees(options.verifyCrc32c, copy, answer.value.crc32c)
      ensures ok ==> out == MakeTransferOutcome(attempt, answer.value, buffer)
      ensures TokensBalance(token, old(gds.client.tokens), old(gds.client.tokensGiven), old(gds.client.tokensTaken))
    {
      ok, out, answer, copy := false, before, None, None;
      var got := gds.AcquireToken(buffer.data, buffer.size, 0, token);
      if !got {
        return;
      }
      var result := chunk.Put(attempt, ticket, gds.client, token.tok, buffer.size);
      answer := result;
      if result == None {
        return;
      }
      out := MakeTransferOutcome(attempt, result.value, buffer);
      ok, copy := Verified(buffer, result.value.crc32c);
    }

    /** All tokens out are those out before and what `token` holds. */
    ghost predicate TokensBalance(token: Token, tokens: set<nat>, given: nat, taken: nat)
      reads this, gds, gds.client, token
    {
      && gds.client.tokens == (if token.tok == 0 then tokens else tokens + {token.tok})
      && (token.tok != 0 ==> token.tok !in tokens)
      && gds.client.tokensGiven == given + (if token.tok == 0 then 0 else 1)
      && gds.client.tokensTaken == taken
    }

    /** The ids of one attempt, and its session. */
    method OpenAttempt(request: PutObjectRequest) returns (attempt: PutAttempt, ticket: Option<string>)
      modifies meta, ids
      ensures ids.next == old(ids.next) + 2
      ensures attempt.requestId == ClientRequestId(ids.draw(old(ids.next)))
      ensures attempt.sessionId == ClientId(ids.draw(old(ids.next) + 1))
      ensures attempt.bucket == request.bucket && attempt.key == request.key
      ensures meta.aborts == old(meta.aborts)
      ensures ticket.Some? <==> Echoed(attempt.requestId, attempt.sessionId, meta.answer)
      ensures ticket.Some? ==> meta.channelOk && ticket.value == meta.answer.value.ticket
      ensures meta.openings == if ticket.Some? then old(meta.openings) + [attempt.sessionId] else old(meta.openings)
      ensures meta.channelOk ==>
        && |meta.sent| == |old(meta.sent)| + 1 && old(meta.sent) <= meta.sent
        && var q := meta.sent[|old(meta.sent)|];
          && q.requestId == attempt.requestId && q.sessionId == attempt.sessionId
          && q.bucket == request.bucket && q.objectKey == request.key
          && q.expectedSize == (if request.expectedSize.Some? then request.expectedSize.value else 0)
    {
      attempt := MakePutAttempt(request);
      ticket := meta.OpenSession(attempt);
    }

    /**
      One attempt, recorded: it succeeds exactly when it has to. Whatever goes wrong after the session
      was opened, it is aborted; the token always goes back.
     */
    method PutOnce(request: PutObjectRequest, buffer: BufferView, before: TransferOutcome)
      returns (ok: bool, out: TransferOutcome)
      requires Valid()
      modifies gds`registered, gds.client, chunk, memory, meta, ids, `attempts
      ensures Valid() && ids.next == old(ids.next) + 2
      ensures |attempts| == |old(attempts)| + 1 && old(attempts) <= attempts
      ensures var r := attempts[|old(attempts)|];
        && r.requestId == ClientRequestId(ids.draw(old(ids.next)))
        && r.sessionId == ClientId(ids.draw(old(ids.next) + 1))
        && r.grant == meta.answer
        && (r.token <==>
          Granted(r) && buffer.data != 0 && buffer.size != 0 && TokenGiven(old(gds.client.calls), gds.client.calls))
        && r.answer == (if r.token then chunk.answer else None)
        && r.copy == (if r.answer.Some? && options.verifyCrc32c then memory.copy else None)
        && (r.copy.Some? ==> |r.copy.value| == buffer.size)
        && r.passed == ok
        && (ok ==> ReportsAttempt(out, r, buffer))
        && meta.openings == old(meta.openings) + (if Granted(r) then [r.sessionId] else [])
        && meta.aborts == old(meta.aborts) + (if Granted(r) && !ok then [r.sessionId] else [])
        && (r.token && chunk.channelOk ==>
          && |chunk.sent| == |old(chunk.sent)| + 1 && old(chunk.sent) <= chunk.sent
          && var q := chunk.sent[|old(chunk.sent)|];
            && q.requestId == r.requestId && q.sessionId == r.sessionId && q.ticket == r.grant.value.ticket
            && q.bucket == request.bucket && q.key == request.key && q.chunkSize == buffer.size)
        && (!r.token || !chunk.channelOk ==> chunk.sent == old(chunk.sent))
      ensures meta.channelOk ==>
        && |meta.sent| == |old(meta.sent)| + 1 && old(meta.sent) <= meta.sent
        && var q := meta.sent[|old(meta.sent)|];
          && q.requestId == attempts[|old(attempts)|].requestId && q.sessionId == attempts[|old(attempts)|].sessionId
          && q.bucket == request.bucket && q.objectKey == request.key
          && q.expectedSize == (if request.expectedSize.Some? then request.expectedSize.value else 0)
      ensures gds.client.tokens == old(gds.client.tokens)
      ensures gds.client.tokensGiven - gds.client.tokensTaken == old(gds.client.tokensGiven - gds.client.tokensTaken)
    {
      ok, out := false, before;
      ghost var answer: Option<GdsPutResult>, copy: Option<seq<Byte>>, token := None, None, false;
      var attempt, ticket := OpenAttempt(request);
      if ticket != None {
        ok, out, token, answer, copy := InSession(attempt, ticket.value, buffer, before);
      }
      attempts := attempts + [AttemptRecord(attempt.requestId, attempt.sessionId, meta.answer, token, answer, copy, ok)];
    }

    /** With a session open and a place for the token: transfer, and abort the session if that fails. */
    method TransferOrAbort(
        attempt: PutAttempt, ticket: string, buffer: BufferView, token: Token, before: TransferOutcome)
      returns (ok: bool, out: TransferOutcome, ghost answer: Option<GdsPutResult>, ghost copy: Option<seq<Byte>>)
      requires Valid() && meta.channelOk && token.Valid() && token.client == null
      modifies gds`registered, gds.client, token, chunk, memory, meta`aborts
      ensures Valid() && token.Valid() && (token.client == null || token.client == gds.client)
      ensures meta.aborts == old(meta.aborts) + if ok then [] else [attempt.sessionId]
      ensures var got := token.tok != 0;
        && (got <==> buffer.data != 0 && buffer.size != 0 && TokenGiven(old(gds.client.calls), gds.client.calls))
        && answer == (if got then chunk.answer else None)
        && (ok <==> got && answer.Some? && Agrees(options.verifyCrc32c, copy, answer.value.crc32c))
        && (!got || !chunk.channelOk ==> chunk.sent == old(chunk.sent))
        && (got && chunk.channelOk ==> SentOne(old(chunk.sent), chunk.sent, attempt, ticket, buffer.size))
      ensures copy == if answer.Some? && options.verifyCrc32c then memory.copy else None
      ensures copy.Some? ==> |copy.value| == buffer.size
      ensures ok ==> out == MakeTransferOutcome(attempt, answer.value, buffer)
      ensures TokensBalance(token, old(gds.client.tokens), old(gds.client.tokensGiven), old(gds.client.tokensTaken))
    {
      ok, out, answer, copy := Transfer(attempt, ticket, buffer, token, before);
      if !ok {
        meta.AbortSession(attempt.sessionId);
      }
    }

    /** From the open session to the end of the attempt, where the token's destructor runs. */
    method InSession(attempt: PutAttempt, ticket: string, buffer: BufferView, before: TransferOutcome)
      returns (
        ok: bool, out: TransferOutcome, ghost got: bool, ghost answer: Option<GdsPutResult>,
        ghost copy: Option<seq<Byte>>)
      requires Valid() && meta.channelOk
      modifies gds`registered, gds.client, chunk, memory, meta`aborts
      ensures Valid()
      ensures meta.aborts == old(meta.aborts) + if ok then [] else [attempt.sessionId]
      ensures got <==> buffer.data != 0 && buffer.size != 0 && TokenGiven(old(gds.client.calls), gds.client.calls)
      ensures answer == (if got then chunk.answer else None)
      ensures copy == if answer.Some? && options.verifyCrc32c then memory.copy else None
      ensures copy.Some? ==> |copy.value| == buffer.size
      ensures ok <==> got && answer.Some? && Agrees(options.verifyCrc32c, copy, answer.value.crc32c)
      ensures ok ==> out == MakeTransferOutcome(attempt, answer.value, buffer)
      ensures !got || !chunk.channelOk ==> chunk.sent == old(chunk.sent)
      ensures got && chunk.channelOk ==> SentOne(old(chunk.sent), chunk.sent, attempt, ticket, buffer.size)
      ensures gds.client.tokens == old(gds.client.tokens)
      ensures gds.client.tokensGiven - gds.client.tokensTaken == old(gds.client.tokensGiven - gds.client.tokensTaken)
    {
      var token := new Token();
      ok, out, answer, copy := TransferOrAbort(attempt, ticket, buffer, token, before);
      got := token.tok != 0;
      Drop(token, old(gds.client.tokens), old(gds.client.tokensGiven), old(gds.client.tokensTaken));
    }

    /** The attempt as the retry loop sees it: its verdict, its report, and its sessions and tokens accounted for. */
    method PutCounted(request: PutObjectRequest, buffer: BufferView, before: TransferOutcome)
      returns (ok: bool, out: TransferOutcome)
      requires Valid()
      modifies gds`registered, gds.client, chunk, memory, meta, ids, `attempts
      ensures Valid() && ids.next == old(ids.next) + 2
      ensures |attempts| == |old(attempts)| + 1 && old(attempts) <= attempts
      ensures attempts[|old(attempts)|].passed == ok
      ensures ok ==> ReportsAttempt(out, attempts[|old(attempts)|], buffer) && out.sessionId == Last(meta.openings)
      ensures OneMore(old(meta.openings), meta.openings) || (!ok && meta.openings == old(meta.openings))
      ensures meta.aborts == old(meta.aborts) + if ok then [] else meta.openings[|old(meta.openings)|..]
      ensures gds.client.tokens == old(gds.client.tokens)
      ensures gds.client.tokensGiven - gds.client.tokensTaken == old(gds.client.tokensGiven - gds.client.tokensTaken)
    {
      ok, out := PutOnce(request, buffer, before);
    }

    /** ~Token */
    method Drop(token: Token, ghost tokens: set<nat>, ghost given: nat, ghost taken: nat)
      requires Valid() && token.Valid() && (token.client == null || token.client == gds.client)
      requires TokensBalance(token, tokens, given, taken)
      modifies token, gds.client`tokens, gds.client`owner, gds.client`tokensTaken
      ensures Valid() && gds.client.tokens == tokens
      ensures gds.client.tokensGiven - gds.client.tokensTaken == given - taken
    {
      token.Reset();
    }
  }

  /**
    There is one record for each start. Result i of the loop is whether attempt i had to succeed, or a
    failure when there was no attempt; and a success reports the last attempt.
   */
  ghost predicate AttemptsDecide(
      verifyCrc32c: bool, before: seq<AttemptRecord>, after: seq<AttemptRecord>, results: seq<bool>, starts: nat,
      out: TransferOutcome, buffer: BufferView) {
    && before <= after && |after| == |before| + starts && starts <= |results| && results != []
    && (forall i :: 0 <= i < starts ==> (results[i] <==> Passes(verifyCrc32c, after[|before| + i])))
    && (forall i :: starts <= i < |results| ==> !results[i])
    && (results[|results| - 1] ==> starts > 0 && ReportsAttempt(out, after[|after| - 1], buffer))
  }

  lemma VerdictsDecide(
      verifyCrc32c: bool, before: seq<AttemptRecord>, after: seq<AttemptRecord>, results: seq<bool>,
      out: TransferOutcome, buffer: BufferView)
    requires before <= after && Judged(verifyCrc32c, after) && Verdicts(results, after[|before|..]) && results != []
    requires results[|results| - 1] ==> after != before && ReportsAttempt(out, after[|after| - 1], buffer)
    ensures AttemptsDecide(verifyCrc32c, before, after, results, |after| - |before|, out, buffer)
  {
    var records := after[|before|..];
    assert forall i :: 0 <= i < |records| ==> records[i] == after[|before| + i];
  }

  /** The function that PutObject hands to the retry loop, with everything it captured. */
  class PutCall {
    const channels: Channels
    const request: PutObjectRequest
    const buffer: BufferView
    const deadline: nat
    var out: TransferOutcome
    /** What each call so far returned, and when the attempts that got past the deadline check began. */
    ghost var results: seq<bool>
    ghost var starts: seq<nat>
    // How things stood before the first call.
    ghost const openings: seq<string>
    ghost const aborts: seq<string>
    ghost const tokens: set<nat>
    ghost const balance: int
    ghost const drawn: nat
    ghost const begun: nat
    ghost const attempts: seq<AttemptRecord>

    constructor (
        channels: Channels, request: PutObjectRequest, buffer: BufferView, deadline: nat, before: TransferOutcome)
      requires channels.Valid()
      ensures Valid() && results == [] && starts == []
      ensures this.channels == channels && this.buffer == buffer && this.deadline == deadline
      ensures openings == channels.meta.openings && aborts == channels.meta.aborts
      ensures tokens == channels.gds.client.tokens && drawn == channels.ids.next && begun == channels.clock.now
      ensures balance == channels.gds.client.tokensGiven - channels.gds.client.tokensTaken
      ensures attempts == channels.attempts
    {
      this.attempts := channels.attempts;
      this.channels, this.request, this.buffer, this.deadline := channels, request, buffer, deadline;
      this.out, this.results, this.starts := before, [], [];
      this.openings, this.aborts := channels.meta.openings, channels.meta.aborts;
      this.tokens, this.drawn := channels.gds.client.tokens, channels.ids.next;
      this.begun := channels.clock.now;
      this.balance := channels.gds.client.tokensGiven - channels.gds.client.tokensTaken;
    }

    ghost predicate Done()
      reads this
    {
      results != [] && results[|results| - 1]
    }

    /** The records of the attempts so far: their verdicts are the results, and a success reports the last one. */
    ghost predicate Recorded()
      reads this, channels
    {
      && attempts <= channels.attempts && |channels.attempts| == |attempts| + |starts|
      && Verdicts(results, channels.attempts[|attempts|..])
      && (Done() ==>
        && starts != [] && channels.attempts[|channels.attempts| - 1].passed
        && ReportsAttempt(out, channels.attempts[|channels.attempts| - 1], buffer))
    }

    /** Every session opened was aborted but that of a success, and every token obtained has gone back. */
    ghost predicate Accounts()
      reads this, channels, channels.gds, channels.gds.client, channels.meta, channels.ids
    {
      && channels.Valid() && Recorded()
      && AbortedRight(openings, channels.meta.openings, aborts, channels.meta.aborts, Done())
      && (Done() ==> out.sessionId == Last(channels.meta.openings))
      && |channels.meta.openings| - |openings| <= |starts|
      && channels.ids.next == drawn + 2 * |starts|
      && channels.gds.client.tokens == tokens
      && channels.gds.client.tokensGiven - channels.gds.client.tokensTaken == balance
    }

    /** So the records say what each result had to be. */
    lemma Concludes()
      requires Accounts() && results != []
      ensures AttemptsDecide(
        channels.options.verifyCrc32c, attempts, channels.attempts, results, |starts|, out, buffer)
    {
      VerdictsDecide(channels.options.verifyCrc32c, attempts, channels.attempts, results, out, buffer);
    }

    /** Attempts began before the deadline, and a call without one came after it. */
    ghost predicate Timed()
      reads this, channels.clock`now
    {
      && |starts| <= |results|
      && AllWithin(starts, begun, deadline) && begun <= channels.clock.now
      && (|starts| == |results| || channels.clock.now >= deadline)
    }

    ghost predicate Valid()
      reads this, channels, channels.gds, channels.gds.client, channels.meta, channels.ids
      reads channels.clock`now
    {
      Accounts() && Timed()
    }

    /** The call once it is past the deadline check. */
    method Attempt(ghost now: nat) returns (ok: bool)
      requires Accounts() && !Done() && |starts| == |results|
      modifies this`out, this`results, this`starts, channels.gds`registered, channels.gds.client
      modifies channels.chunk, channels.memory, channels.meta, channels.ids, channels`attempts
      ensures Accounts() && results == old(results) + [ok] && starts == old(starts) + [now]
    {
      ghost var now0, aborts0, records := channels.meta.openings, channels.meta.aborts, channels.attempts;
      ok, out := channels.PutCounted(request, buffer, out);
      AbortedStep(openings, now0, channels.meta.openings, aborts, aborts0, ok);
      VerdictsStep(results, attempts, records, channels.attempts);
      results, starts := results + [ok], starts + [now];
    }

    method Call() returns (ok: bool)
      requires Valid() && !Done()
      modifies this`out, this`results, this`starts, channels.gds`registered, channels.gds.client
      modifies channels.chunk, channels.memory, channels.meta, channels.ids, channels.clock`now, channels`attempts
      ensures Valid() && results == old(results) + [ok]
      ensures |starts| > |old(starts)| ==> starts == old(starts) + [channels.clock.now]
      ensures channels.clock.now >= deadline ==>
        !ok && starts == old(starts) && channels.meta.openings == old(channels.meta.openings)
    {
      var now := channels.clock.Now();
      if now >= deadline {
        results := results + [false];
        return false;
      }
      ok := Attempt(now);
    }
  }

  /** One pause, of a random length, after failure number k. */
  method Pause(policy: RetryPolicy, k: nat, clock: Clock) returns (ghost pause: nat)
    requires k > 0
    modifies clock
    ensures var full := policy.initialBackoff * Pow2(k - 1);
      var ms := if full > policy.maxBackoff then policy.maxBackoff else full;
      ms - 1 <= 2 * pause <= 3 * ms
    ensures PauseFits(policy, k, pause) && clock.pauses == old(clock.pauses) + [pause] && clock.now >= old(clock.now)
  {
    DoubledIsShift(policy.initialBackoff, k - 1);
    var backoff := policy.initialBackoff * Pow2(k - 1);
    if backoff > policy.maxBackoff {
      backoff := policy.maxBackoff;
    }
    assert IsJitter(1.0);
    var jitter: real :| IsJitter(jitter);
    clock.SleepFor(Jittered(backoff, jitter));
    pause := Jittered(backoff, jitter);
  }

  /** A pause and one more call; `pauses` are those so far. */
  method TryAgain(policy: RetryPolicy, fn: PutCall, attempt: nat, ghost pauses: seq<nat>)
    returns (ok: bool, ghost pauses': seq<nat>)
    requires fn.Valid() && !fn.Done() && attempt == |fn.results| == |pauses| + 1 && PausesFit(policy, pauses)
    modifies fn`out, fn`results, fn`starts, fn.channels.gds`registered, fn.channels.gds.client
    modifies fn.channels.chunk, fn.channels.memory, fn.channels.meta, fn.channels.ids, fn.channels.clock
    modifies fn.channels`attempts
    ensures fn.Valid() && fn.results == old(fn.results) + [ok]
    ensures PausesFit(policy, pauses') && |pauses'| == attempt
    ensures forall before :: old(fn.channels.clock.pauses) == before + pauses ==>
      fn.channels.clock.pauses == before + pauses'
  {
    ghost var pause := Pause(policy, attempt, fn.channels.clock);
    pauses' := pauses + [pause];
    ok := fn.Call();
  }

  /** Calls fn until it succeeds or the policy's number of calls is used up, with a pause in between. */
  method RetryIfRetryable(policy: RetryPolicy, fn: PutCall) returns (ok: bool, ghost pauses: seq<nat>)
    requires NoOverflow(policy) && fn.Valid() && fn.results == []
    modifies fn`out, fn`results, fn`starts, fn.channels.gds`registered, fn.channels.gds.client
    modifies fn.channels.chunk, fn.channels.memory, fn.channels.meta, fn.channels.ids, fn.channels.clock
    modifies fn.channels`attempts
    ensures fn.Valid() && StopsRight(policy, fn.results)
    ensures ok == fn.Done()
    ensures PausesFit(policy, pauses) && |pauses| == |fn.results| - 1
    ensures fn.channels.clock.pauses == old(fn.channels.clock.pauses) + pauses
  {
    pauses := [];
    ok := fn.Call();
    var attempt := 1;
    while attempt < policy.maxAttempts
      invariant fn.Valid() && |fn.results| == attempt && GoingRight(policy, fn.results, ok)
      invariant PausesFit(policy, pauses) && |pauses| == attempt - 1
      invariant fn.channels.clock.pauses == old(fn.channels.clock.pauses) + pauses
    {
      if ok {
        return;
      }
      GoesOn(policy, fn.results);
      ok, pauses := TryAgain(policy, fn, attempt, pauses);
      attempt := attempt + 1;
    }
  }

  /** PutObject past its checks: the deadline is set, and the retry loop runs. */
  method PutBeforeDeadline(channels: Channels, request: PutObjectRequest, buffer: BufferView, before: TransferOutcome)
    returns (ok: bool, out: TransferOutcome, ghost begun: nat, ghost results: seq<bool>, ghost starts: seq<nat>)
    requires channels.Valid()
    modifies channels.gds, channels.gds.client, channels.chunk, channels.memory
    modifies channels.meta, channels.ids, channels.clock, channels`attempts
    ensures channels.Valid()
    ensures StopsRight(DEFAULT_POLICY, results) && ok == results[|results| - 1]
    ensures begun >= old(channels.clock.now) && |starts| <= |results|
    ensures AllWithin(starts, begun, begun + channels.options.requestTimeout)
    ensures |starts| == |results| || channels.clock.now >= begun + channels.options.requestTimeout
    ensures channels.ids.next == old(channels.ids.next) + 2 * |starts|
    ensures AbortedRight(
      old(channels.meta.openings), channels.meta.openings, old(channels.meta.aborts), channels.meta.aborts, ok)
    ensures |channels.meta.openings| - |old(channels.meta.openings)| <= |starts|
    ensures AttemptsDecide(
      channels.options.verifyCrc32c, old(channels.attempts), channels.attempts, results, |starts|, out, buffer)
    ensures ok ==> out.sessionId == Last(channels.meta.openings)
    ensures channels.gds.client.tokens == old(channels.gds.client.tokens)
    ensures channels.gds.client.tokensGiven - channels.gds.client.tokensTaken
      == old(channels.gds.client.tokensGiven - channels.gds.client.tokensTaken)
    ensures old(channels.clock.pauses) <= channels.clock.pauses
    ensures var pauses := channels.clock.pauses[|old(channels.clock.pauses)|..];
      |pauses| == |results| - 1 && DefaultBounds(pauses)
  {
    var t := channels.clock.Now();
    var fn := new PutCall(channels, request, buffer, t + channels.options.requestTimeout, before);
    DefaultPauses();
    ghost var pauses: seq<nat>;
    ok, pauses := RetryIfRetryable(DEFAULT_POLICY, fn);
    out, begun, results, starts := fn.out, t, fn.results, fn.starts;
    fn.Concludes();
  }

  class Client {
    const options: ClientOptions
    /** Null until Initialize and after Shutdown. */
    var channels: Channels?

    constructor (options: ClientOptions)
      ensures this.options == options && channels == null
    {
      this.options, this.channels := options, null;
    }

    /** Nothing is tried without channels, or with a body that is too large for a single PUT. */
    ghost predicate Tries(buffer: BufferView)
      reads this
    {
      channels != null && (options.putSingleMaxBytes == 0 || buffer.size <= options.putSingleMaxBytes)
    }

    /**
      `begun` is the clock when the deadline was set, `results` what each call of the retry loop
      returned, and `starts` the clock readings at which attempts began. Each session opened by them is
      aborted, once, except that of a success; every token obtained goes back; and there is a pause
      between any two calls, about 100 ms and then about 200 ms.
     */
    method PutObject(request: PutObjectRequest, buffer: BufferView, before: TransferOutcome)
      returns (ok: bool, out: TransferOutcome, ghost begun: nat, ghost results: seq<bool>, ghost starts: seq<nat>)
      requires channels != null ==> channels.Valid() && channels.options == options
      modifies if channels == null then {} else {channels.gds}
      modifies if channels == null then {} else {channels.gds.client}
      modifies if channels == null then {} else {channels.chunk}
      modifies if channels == null then {} else {channels.memory}
      modifies if channels == null then {} else {channels.meta}
      modifies if channels == null then {} else {channels.ids}
      modifies if channels == null then {} else {channels.clock}
      modifies (if channels == null then {} else {channels})`attempts
      ensures channels != null ==> channels.Valid()
      ensures !Tries(buffer) ==> !ok && starts == [] && results == []
      ensures Tries(buffer) ==>
        && StopsRight(DEFAULT_POLICY, results) && ok == results[|results| - 1]
        && begun >= old(channels.clock.now)
        && AllWithin(starts, begun, begun + options.requestTimeout)
        && |starts| <= |results| <= 3
        && (|starts| == |results| || channels.clock.now >= begun + options.requestTimeout)
      ensures channels != null ==> channels.ids.next == old(channels.ids.next) + 2 * |starts|
      ensures channels != null ==>
        && AbortedRight(old(channels.meta.openings), channels.meta.openings,
          old(channels.meta.aborts), channels.meta.aborts, ok)
        && |channels.meta.openings| - |old(channels.meta.openings)| <= |starts|
        && (ok ==> out.sessionId == Last(channels.meta.openings))
      ensures Tries(buffer) ==>
        AttemptsDecide(options.verifyCrc32c, old(channels.attempts), channels.attempts, results, |starts|, out, buffer)
      ensures channels != null ==>
        && channels.gds.client.tokens == old(channels.gds.client.tokens)
        && channels.gds.client.tokensGiven - channels.gds.client.tokensTaken
          == old(channels.gds.client.tokensGiven - channels.gds.client.tokensTaken)
        && old(channels.clock.pauses) <= channels.clock.pauses
        && var pauses := channels.clock.pauses[|old(channels.clock.pauses)|..];
          DefaultBounds(pauses) && |pauses| == (if results == [] then 0 else |results| - 1)
    {
      ok, out, begun, results, starts := false, before, 0, [], [];
      if channels == null {
        return;
      }
      var maxPut := options.putSingleMaxBytes;
      if maxPut != 0 && buffer.size > maxPut {
        return;
      }
      ok, out, begun, results, starts := PutBeforeDeadline(channels, request, buffer, before);
    }
  }
}
