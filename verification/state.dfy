/** The per-connection state and the exceptions of the handler, in
    functional form: every operation takes a session and returns either a
    value with the next session or the exception it raised with the
    session at that point. */
module State {
  import opened Protocol
  import opened Geometry

  /** One connection: the `Robot` record of the server (unconsumed input,
      login hash, position, heading) together with the socket's view of the
      client (the chunks the client will still deliver, the read timeout in
      force, and everything sent so far). */
  datatype Session = Session(
    buffer: string,
    inbound: seq<string>,
    timeout: nat,
    sent: seq<Command>,
    hash: int,
    pos: Vec,
    heading: Vec)

  /** A freshly accepted connection. The hash, position and heading are
      `None` in the server until set; they are read only after being set. */
  function Fresh(inbound: seq<string>): Session {
    Session("", inbound, TIMEOUT, [], 0, Zero, Zero)
  }

  datatype Option<T> = None | Some(value: T)

  /** Why the handler closes a connection. */
  datatype Why =
    | EmptyData              // recv returned no bytes: the client closed
    | BufferedTooLong        // a buffered message exceeds its kind's limit
    | ReceivedTooLong        // a full-size chunk arrived without a terminator
    | BadConfirmation        // the confirmation is not 1 to 5 digits
    | BadOkReply             // the reply is not `OK <int> <int>` within 10 characters
    | NotFullPower           // a recharge was not followed by FULL POWER
    | CoordinatesMismatch    // the reported position differs from the predicted one
    | LoginRejected          // the confirmation does not match the login hash
    | NoMessageFound         // the whole zone was searched without a find

  /** The exceptions the handler can end in. */
  datatype Exc =
    | CloseConnection(why: Why)
    | SocketTimeout
    | MessageFound(text: string)
    | AssertionError

  /** The exceptions that make the handler close the connection. */
  predicate Closes(e: Exc) {
    e.CloseConnection? || e == SocketTimeout
  }

  /** The closes that can happen once the robot has logged in: all but a
      rejected login and an exhausted search. */
  predicate Aborts(e: Exc) {
    e == SocketTimeout || (e.CloseConnection? && !e.why.LoginRejected? && !e.why.NoMessageFound?)
  }

  /** What the server sends just before it closes for a given reason:
      an error code for a malformed message, a missing FULL POWER or a
      failed login; nothing when the client hung up, the read timed out,
      a position did not match or the search ran out. */
  function Notice(e: Exc): (n: seq<Command>)
    ensures |n| <= 1
    ensures Logout !in n && PickUp !in n && Move !in n
  {
    match e
    case CloseConnection(BufferedTooLong) => [SyntaxError]
    case CloseConnection(ReceivedTooLong) => [SyntaxError]
    case CloseConnection(BadConfirmation) => [SyntaxError]
    case CloseConnection(BadOkReply) => [SyntaxError]
    case CloseConnection(NotFullPower) => [LogicError]
    case CloseConnection(LoginRejected) => [LoginFailed]
    case _ => []
  }

  /** The outcome of one step of the handler. */
  datatype Res<T> = Done(value: T, s: Session) | Raised(exc: Exc, s: Session) {
    predicate IsFailure() {
      Raised?
    }

    function PropagateFailure<U>(): Res<U>
      requires Raised?
    {
      Raised(exc, s)
    }

    function Extract(): (T, Session)
      requires Done?
    {
      (value, s)
    }
  }

  /** The characters of the chunks, in order. */
  function Flatten(chunks: seq<string>): string {
    if chunks == [] then "" else chunks[0] + Flatten(chunks[1..])
  }

  /** Everything the client has sent that the server has not yet consumed:
      the buffer followed by the data still in flight. */
  function Stream(s: Session): string {
    s.buffer + Flatten(s.inbound)
  }

  /** connection.sendall of one command. */
  function Send(s: Session, c: Command): Session {
    s.(sent := s.sent + [c])
  }

  /** The number of pick-up commands in a log. */
  function PickUps(log: seq<Command>): nat {
    if log == [] then 0
    else PickUps(log[..|log| - 1]) + (if log[|log| - 1] == PickUp then 1 else 0)
  }

  /** The number of pick-ups in a log grows by one per PICK UP appended. */
  lemma PickUpsAppend(log: seq<Command>, c: Command)
    ensures PickUps(log + [c]) == PickUps(log) + (if c == PickUp then 1 else 0)
  {
    assert (log + [c])[..|log|] == log;
  }

  /** Appending commands without a PICK UP leaves the count alone. */
  lemma {:induction false} PickUpsFree(log: seq<Command>, cs: seq<Command>)
    requires PickUp !in cs
    ensures PickUps(log + cs) == PickUps(log)
  {
    if cs != [] {
      var init := cs[..|cs| - 1];
      assert log + cs == (log + init) + [cs[|cs| - 1]];
      assert cs == init + [cs[|cs| - 1]];
      PickUpsFree(log, init);
      PickUpsAppend(log + init, cs[|cs| - 1]);
    } else {
      assert log + cs == log;
    }
  }

  /** t's log continues s's, and a log without LOGOUT stays without it. */
  predicate Grows(s: Session, t: Session) {
    s.sent <= t.sent && (Logout !in s.sent ==> Logout !in t.sent)
  }

  /** Appending commands other than LOGOUT is growth. */
  lemma GrowsBy(s: Session, t: Session, cs: seq<Command>)
    requires t.sent == s.sent + cs && Logout !in cs
    ensures Grows(s, t)
  {
  }

  lemma GrowsTrans(a: Session, b: Session, c: Session)
    requires Grows(a, b) && Grows(b, c)
    ensures Grows(a, c)
  {
  }

  lemma AppendTwo(log: seq<Command>, c: Command, d: Command)
    ensures log + [c] + [d] == log + [c, d]
  {
  }

  /** The last command sent in t is c. */
  predicate LastSent(t: Session, c: Command) {
    |t.sent| > 0 && t.sent[|t.sent| - 1] == c
  }

  /** The robot's record (hash, position, heading) is the same in both. */
  predicate SameRobot(s: Session, t: Session) {
    t.hash == s.hash && t.pos == s.pos && t.heading == s.heading
  }

  /** Reading leaves the robot's record and the timeout alone. */
  predicate Keeps(s: Session, t: Session) {
    t.timeout == s.timeout && SameRobot(s, t)
  }

  /** t is s after consuming exactly the first message m of the client's
      stream, with nothing sent. */
  predicate ReadsFrame(s: Session, m: string, t: Session) {
    && HasFrame(Stream(s))
    && m == Head(Stream(s))
    && Stream(t) == Tail(Stream(s))
    && t.sent == s.sent
  }
}
