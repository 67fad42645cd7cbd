/** A PUT run from the start, to show that what is said of waiting attempts is said of something. */
module PutWitness {
  import opened Options
  import opened Words
  import opened SessionSpec
  import opened GdsSink
  import opened Messages
  import opened PutMachine
  import opened PutTheorems

  const REQUEST_ID: string := "req-0"
  const TOKEN: string := "0:0"

  lemma {:induction false} LeadsAppend(c: Config, s: State, steps: seq<Step>, s': State, a: Step)
    requires Leads(c, s, steps, s') && Enabled(c, s', a)
    ensures Leads(c, s, steps + [a], Do(c, s', a))
    decreases |steps|
  {
    if steps == [] {
      assert steps + [a] == [a] && [a][1..] == [];
    } else {
      LeadsAppend(c, Do(c, s, steps[0]), steps[1..], s', a);
      assert (steps + [a])[1..] == steps[1..] + [a];
    }
  }

  lemma ReachableStep(c: Config, s: State, a: Step)
    requires Reachable(c, s) && Enabled(c, s, a)
    ensures Reachable(c, Do(c, s, a))
  {
    var steps :| Leads(c, Init(), steps, s);
    LeadsAppend(c, Init(), steps, s, a);
  }

  function FirstCall(size: nat): Call {
    Call("bucket", "key", size, size, [], Running)
  }

  function FirstOpen(size: nat): OpenRequest {
    OpenFor(FirstCall(size), ClientId(0), REQUEST_ID)
  }

  /** The call's one attempt stands at phase p. */
  predicate OneAttempt(s: State, size: nat, p: Phase) {
    && s.calls == map[0 := FirstCall(size).(tries := [ClientId(0)])]
    && s.attempts == map[ClientId(0) := Attempt(0, FirstOpen(size), p)]
  }

  lemma AttemptIsReached(c: Config, size: nat) returns (s: State)
    ensures Reachable(c, s) && OneAttempt(s, size, WaitOpen) && FirstOpen(size) in s.opens && s.opening == map[]
  {
    assert Leads(c, Init(), [], Init());
    ReachableStep(c, Init(), StartCall(0, FirstCall(size)));
    var s1 := Do(c, Init(), StartCall(0, FirstCall(size)));
    ReachableStep(c, s1, StartAttempt(0, 0, REQUEST_ID));
    s := Do(c, s1, StartAttempt(0, 0, REQUEST_ID));
    assert [] + [ClientId(0)] == [ClientId(0)];
  }

  lemma GrantIsReached(c: Config, size: nat) returns (s: State)
    requires size > 0
    ensures Reachable(c, s) && OneAttempt(s, size, WaitOpen)
    ensures OpenReply(REQUEST_ID, ClientId(0), TicketOf(ClientId(0))) in s.grants
  {
    var s0 := AttemptIsReached(c, size);
    ReachableStep(c, s0, BeginOpen(0, FirstOpen(size)));
    var s1 := BeginOpenStep(s0, 0, FirstOpen(size));
    ReachableStep(c, s1, FinishOpen(0));
    s := FinishOpenStep(s1, 0);
  }

  function FirstPut(size: nat): PutRequest {
    PutRequest(ClientId(0), TicketOf(ClientId(0)), "bucket", "key", size, "", TOKEN)
  }

  /** The attempt has its session and its token, and has sent its request to the backend. */
  lemma WaitIsReached(c: Config, size: nat) returns (s: State)
    requires size > 0
    ensures Reachable(c, s) && OneAttempt(s, size, WaitPut(FirstPut(size))) && FirstPut(size) in s.puts
  {
    var s0 := GrantIsReached(c, size);
    var grant := OpenReply(REQUEST_ID, ClientId(0), TicketOf(ClientId(0)));
    ReachableStep(c, s0, TakeGrant(ClientId(0), grant, TOKEN));
    s := TakeGrantStep(s0, ClientId(0), grant, TOKEN);
  }

  /** Whatever the backend pulls, some checked call four bytes longer succeeds with it. */
  lemma ShortReadIsReached(c: Config, bytes: seq<Byte>) returns (s: State)
    requires c.computeCrc32c && |bytes| + 4 <= MAX_CHUNK_BYTES
    ensures Reachable(c, s) && 0 in s.calls && s.calls[0].outcome == Returned(true)
    ensures s.calls[0].size == |bytes| + 4
    ensures s.log != [] && s.log[|s.log| - 1] == Pulled(ClientId(0), bytes)
  {
    var id, size := ClientId(0), |bytes| + 4;
    var s0 := WaitIsReached(c, size);
    var content := ShortReadCanPass(c, s0, id, bytes);
    ReachableStep(c, s0, Serve(FirstPut(size), bytes));
    var s1 := ServeStep(c, s0, FirstPut(size), bytes);
    var sent := SentReply(FirstPut(size), ReplyFor(c.computeCrc32c, bytes), |s0.log|);
    ReachableStep(c, s1, TakeReply(id, sent, content));
    s := TakeReplyStep(c, s1, id, sent, content);
    assert s.log == s0.log + [Pulled(id, bytes)];
  }
}
