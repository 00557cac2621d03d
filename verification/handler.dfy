/** handle_connection: the three phases of one connection (authorize,
    move to the zone's corner, search the zone) and how the handler ends
    the connection for each exception. */
module Handler {
  import opened Protocol
  import opened Geometry
  import opened State
  import opened Framer
  import opened Auth
  import opened Routes
  import opened Search

  /** How a connection ended. */
  datatype Ending =
    | Found(text: string)   // a pick-up returned the secret message
    | Closed(why: Why)      // CloseConnection was raised
    | TimedOut              // a read timed out
    | Crashed               // an assertion failed; the handler did not catch it

  /** What the client saw: how the connection ended, every command it
      received, and whether the handler closed the socket. */
  datatype Outcome = Outcome(ending: Ending, sent: seq<Command>, closed: bool)

  /** The except clauses of handle_connection: a found message is answered
      with LOGOUT, CloseConnection and the timeout only close, and an
      AssertionError escapes the handler before the socket is closed. */
  function Finish(e: Exc, s: Session): Outcome {
    match e
    case MessageFound(text) => Outcome(Found(text), s.sent + [Logout], true)
    case CloseConnection(why) => Outcome(Closed(why), s.sent, true)
    case SocketTimeout => Outcome(TimedOut, s.sent, true)
    case AssertionError => Outcome(Crashed, s.sent, false)
  }

  /** The robot that sent this stream logged in: its confirmation stands
      for the hash of its username. */
  predicate LogsIn(t: string) {
    HasFrame(t) && ConfirmationOf(Tail(t)).Some? && ConfirmationOf(Tail(t)).value.0 == LoginHash(Head(t))
  }

  /** The client's side of the phases after login that end in an
      exhausted search, read off its stream t after log was sent: the
      approach to the corner, then every call of turn_and_move of the
      sweep from there. The final heading, the log and the unread stream,
      or None when the stream cannot carry them. */
  function TravelSpec(log: seq<Command>, t: string): Option<(Vec, seq<Command>, string)> {
    match ApproachSpec(log, t)
    case None => None
    case Some((h, log1, t1)) => RouteSpec(Corner, h, SweepRoute(), log1, t1)
  }

  /** What the server sends a client whose stream is t before it gives up
      on an exhausted search: None unless the client logs in and the rest
      of its stream carries the whole approach and sweep. */
  function ExhaustedSearch(t: string): Option<seq<Command>> {
    if !LogsIn(t) then None
    else
      match TravelSpec([Challenge(ChallengeCode(LoginHash(Head(t)))), Ok], ConfirmationOf(Tail(t)).value.1)
      case None => None
      case Some((_, log, _)) => Some(log)
  }

  /** The phases after login: reach the corner, search the zone, and
      give up when the search found nothing. It always ends in an
      exception; the search is exhausted only after a PICK UP on every one
      of the 24 cells the spiral lands on. */
  method Travel(s: Session) returns (e: Exc, t: Session)
    ensures Grows(s, t)
    ensures e.MessageFound? ==> e.text != "" && LastSent(t, PickUp)
    ensures e == CloseConnection(NoMessageFound) ==> PickUps(t.sent) >= PickUps(s.sent) + 24
    ensures e.MessageFound? || Aborts(e) || e == AssertionError || e == CloseConnection(NoMessageFound)
    ensures e == CloseConnection(NoMessageFound) ==> TravelSpec(s.sent, Stream(s)) == Some((t.heading, t.sent, Stream(t)))
    ensures Chunked(s) ==> (e == CloseConnection(NoMessageFound) <==> TravelSpec(s.sent, Stream(s)).Some?)
  {
    var approach := MoveToGoalInitPos(s);
    if approach.Raised? {
      return approach.exc, approach.s;
    }
    var search := SearchGoalZone(approach.s);
    GrowsTrans(s, approach.s, search.s);
    if search.Raised? {
      return search.exc, search.s;
    }
    SpiralCoversZone();
    return CloseConnection(NoMessageFound), search.s;
  }

  /** The handler from a logged-in robot on: the phases after login and
      the except clause that ends them. A found message is answered by
      LOGOUT straight after the PICK UP that found it, and an exhausted
      search has picked up on all 24 zone cells the spiral reaches. */
  method AfterLogin(s: Session) returns (o: Outcome)
    ensures o.closed <==> o.ending != Crashed
    ensures o.ending.Found? ==>
      && o.ending.text != "" && s.sent <= o.sent && |o.sent| >= 2
      && o.sent[|o.sent| - 2] == PickUp && o.sent[|o.sent| - 1] == Logout
      && (PickUp !in s.sent ==> |o.sent| >= |s.sent| + 2)
    ensures !o.ending.Found? && Logout !in s.sent ==> Logout !in o.sent
    ensures o.ending != Closed(LoginRejected)
    ensures o.ending == Closed(NoMessageFound) ==> PickUps(o.sent) >= PickUps(s.sent) + 24
    ensures o.ending == Closed(NoMessageFound) ==>
      TravelSpec(s.sent, Stream(s)).Some? && o.sent == TravelSpec(s.sent, Stream(s)).value.1
    ensures Chunked(s) ==> (o.ending == Closed(NoMessageFound) <==> TravelSpec(s.sent, Stream(s)).Some?)
  {
    var e, t := Travel(s);
    o := Finish(e, t);
  }

  /** The login phase of handle_connection, stated on the bytes the
      client delivers: OK goes to a robot that logged in, LOGIN FAILED to
      one whose confirmation stands for another hash, and a client that
      sends nothing times out without an answer. */
  method Login(inbound: seq<string>) returns (r: Res<()>)
    ensures r.Done? ==>
      && LogsIn(Flatten(inbound))
      && r.s.sent == [Challenge(ChallengeCode(LoginHash(Head(Flatten(inbound))))), Ok]
      && Stream(r.s) == ConfirmationOf(Tail(Flatten(inbound))).value.1
    ensures CleanLogin(Fresh(inbound)) && r.Done? ==> Chunked(r.s)
    ensures r.Raised? ==>
      && Closes(r.exc) && r.exc != CloseConnection(NoMessageFound) && Logout !in r.s.sent
    ensures r.Raised? && r.exc == CloseConnection(LoginRejected) ==>
      && HasFrame(Flatten(inbound)) && !LogsIn(Flatten(inbound))
      && r.s.sent == [Challenge(ChallengeCode(LoginHash(Head(Flatten(inbound))))), LoginFailed]
    ensures CleanLogin(Fresh(inbound)) ==>
      && (r.Done? <==> LogsIn(Flatten(inbound)))
      && (r.Raised? ==> r.exc == CloseConnection(LoginRejected))
    ensures inbound == [] ==> r == Raised(SocketTimeout, Fresh([]))
  {
    var s := Fresh(inbound);
    assert Stream(s) == Flatten(inbound);
    r := Authorize(s);
    if inbound == [] {
      assert Chunked(s);
    }
  }

  /** handle_connection on a client that will deliver the given chunks.
      A message is only ever found by a robot that logged in, after the
      challenge and OK, and is answered by LOGOUT straight after the PICK UP
      that found it; no other ending sends LOGOUT. Every ending but a failed
      assertion closes the connection. A rejected login sends exactly the
      challenge and LOGIN FAILED, and an exhausted search comes after a
      login and a PICK UP on all 24 zone cells the spiral reaches. A client
      whose login arrives whole is rejected exactly when it does not log
      in, and one that sends nothing times out with nothing sent. */
  method HandleConnection(inbound: seq<string>) returns (o: Outcome)
    ensures o.closed <==> o.ending != Crashed
    ensures o.ending.Found? ==>
      && LogsIn(Flatten(inbound)) && o.ending.text != ""
      && |o.sent| >= 4 && o.sent[0] == Challenge(ChallengeCode(LoginHash(Head(Flatten(inbound))))) && o.sent[1] == Ok
      && o.sent[|o.sent| - 2] == PickUp && o.sent[|o.sent| - 1] == Logout
    ensures !o.ending.Found? ==> Logout !in o.sent
    ensures o.ending == Closed(LoginRejected) ==>
      && HasFrame(Flatten(inbound)) && !LogsIn(Flatten(inbound))
      && o.sent == [Challenge(ChallengeCode(LoginHash(Head(Flatten(inbound))))), LoginFailed]
    ensures o.ending == Closed(NoMessageFound) ==> LogsIn(Flatten(inbound)) && PickUps(o.sent) >= 24
    ensures CleanLogin(Fresh(inbound)) ==> (o.ending == Closed(LoginRejected) <==> !LogsIn(Flatten(inbound)))
    ensures inbound == [] ==> o == Outcome(TimedOut, [], true)
    ensures o.ending == Closed(NoMessageFound) ==> ExhaustedSearch(Flatten(inbound)) == Some(o.sent)
    ensures CleanLogin(Fresh(inbound)) ==>
      (o.ending == Closed(NoMessageFound) <==> ExhaustedSearch(Flatten(inbound)).Some?)
  {
    var auth := Login(inbound);
    if auth.Raised? {
      return Finish(auth.exc, auth.s);
    }
    o := AfterLogin(auth.s);
  }
}
