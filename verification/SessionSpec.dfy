/** The proxy's sessions: what they hold, and how each call changes the table of them. */
module SessionSpec {
  import opened Options
  import opened Numbers
  import opened Texts

  const SESSION_ID_PREFIX: string := "pxs-"
  const CLIENT_ID_PREFIX: string := "ses-"
  const TICKET_PREFIX: string := "tkt-"

  datatype Status = Pending | Completed | Failed

  datatype Session = Session(
    sessionId: string, ticket: string, bucket: string, objectKey: string, expectedSize: nat,
    status: Status, etag: string, crc32c: nat, bytesTransferred: nat)

  type Sessions = map<string, Session>

  function TicketOf(id: string): string {
    TICKET_PREFIX + id
  }

  function GeneratedId(n: nat): string {
    SESSION_ID_PREFIX + Decimal(n)
  }

  /** The session id a client makes from a 64-bit random number. */
  function ClientId(number: nat): string {
    CLIENT_ID_PREFIX + Hex(number, 16)
  }

  function NewSession(id: string, bucket: string, objectKey: string, expectedSize: nat): Session {
    Session(id, TicketOf(id), bucket, objectKey, expectedSize, Pending, "", 0, 0)
  }

  function Finish(x: Session, etag: string, crc32c: nat, bytesTransferred: nat): Session {
    x.(status := Completed, etag := etag, crc32c := crc32c, bytesTransferred := bytesTransferred)
  }

  /** Every session is filed under its own id, and its ticket is made from that id. */
  ghost predicate WellKeyed(sessions: Sessions) {
    forall id :: id in sessions ==> sessions[id].sessionId == id && sessions[id].ticket == TicketOf(id)
  }

  /** The id a ticket was made from, if it looks like a ticket. */
  function IdOfTicket(ticket: string): (id: Option<string>)
    ensures id.Some? <==> TICKET_PREFIX <= ticket
  {
    if TICKET_PREFIX <= ticket then Some(ticket[|TICKET_PREFIX|..]) else None
  }

  /** The completed session of a ticket, found directly by the id inside the ticket. */
  function FindCompleted(sessions: Sessions, ticket: string): (found: Option<Session>) {
    var id := IdOfTicket(ticket);
    if id.Some? && id.value in sessions && sessions[id.value].status == Completed then Some(sessions[id.value])
    else None
  }

  lemma TicketRoundTrip(id: string)
    ensures IdOfTicket(TicketOf(id)) == Some(id)
  {
  }

  lemma TicketsInjective(a: string, b: string)
    ensures TicketOf(a) == TicketOf(b) <==> a == b
  {
    TicketRoundTrip(a);
    TicketRoundTrip(b);
  }

  /** In a well-keyed table a completed session has the ticket exactly when the direct lookup finds it. */
  lemma OnlyOneMatches(sessions: Sessions, ticket: string, id: string)
    requires WellKeyed(sessions) && id in sessions
    ensures sessions[id].ticket == ticket && sessions[id].status == Completed
      <==> FindCompleted(sessions, ticket) == Some(sessions[id])
  {
    TicketRoundTrip(id);
    if FindCompleted(sessions, ticket) == Some(sessions[id]) {
      assert TICKET_PREFIX + ticket[|TICKET_PREFIX|..] == ticket;
    }
  }

  lemma FoundIsThere(sessions: Sessions, ticket: string)
    requires WellKeyed(sessions) && FindCompleted(sessions, ticket).Some?
    ensures var found := FindCompleted(sessions, ticket).value;
      found.sessionId in sessions && sessions[found.sessionId] == found && found.ticket == ticket
  {
    assert TICKET_PREFIX + ticket[|TICKET_PREFIX|..] == ticket;
  }

  /** Ids from a 64-bit counter repeat exactly every 2^64 draws. */
  lemma GeneratedIdsRepeat(m: nat, n: nat)
    ensures GeneratedId(m % UINT64) == GeneratedId(n % UINT64) <==> m % UINT64 == n % UINT64
  {
    DecimalInjective(m % UINT64, n % UINT64);
    if GeneratedId(m % UINT64) == GeneratedId(n % UINT64) {
      assert GeneratedId(m % UINT64)[4..] == Decimal(m % UINT64);
      assert GeneratedId(n % UINT64)[4..] == Decimal(n % UINT64);
    }
  }

  /** Different numbers make different ids. */
  lemma ClientIdsInjective(m: nat, n: nat)
    requires m < UINT64 && n < UINT64
    ensures ClientId(m) == ClientId(n) <==> m == n
  {
    if ClientId(m) == ClientId(n) {
      assert ClientId(m)[4..] == Hex(m, 16) && ClientId(n)[4..] == Hex(n, 16);
      SixteenDigits(m, n);
    }
  }

  /** No generated id is an id that a client makes. */
  lemma GeneratedIsNotAHint(n: nat, hint: string)
    requires CLIENT_ID_PREFIX <= hint
    ensures GeneratedId(n) != hint
  {
    assert GeneratedId(n)[0] == 'p' && hint[0] == 's';
  }
}
