/** Driving the robot: single MOVE, TURN and PICK UP exchanges, and
    turn_and_move, which turns towards a goal along one axis and walks there,
    picking up on every cell of the goal zone it lands on. */
module Navigation {
  import opened Protocol
  import opened Geometry
  import opened State
  import opened Framer
  import opened Replies

  /** k copies of the command c. */
  function Repeat(c: Command, k: nat): (r: seq<Command>)
    ensures |r| == k
    ensures forall i :: 0 <= i < k ==> r[i] == c
  {
    if k == 0 then [] else [c] + Repeat(c, k - 1)
  }

  lemma RepeatSnoc(log: seq<Command>, c: Command, k: nat)
    ensures log + Repeat(c, k) + [c] == log + Repeat(c, k + 1)
  {
    assert Repeat(c, k) + [c] == Repeat(c, k + 1);
  }

  /** Commands other than PICK UP leave the pick-up count alone. */
  lemma {:induction false} RepeatHasNoPickUp(log: seq<Command>, c: Command, k: nat)
    requires c != PickUp
    ensures PickUps(log + Repeat(c, k)) == PickUps(log)
  {
    if k > 0 {
      RepeatHasNoPickUp(log, c, k - 1);
      RepeatSnoc(log, c, k - 1);
      PickUpsAppend(log + Repeat(c, k - 1), c);
    } else {
      assert log + Repeat(c, k) == log;
    }
  }

  /** The outcome of send_move for a robot at pos, read off the client's
      stream t: the position reported, the MOVEs sent, and the stream left.
      A report of the old position means an obstacle swallowed the first
      MOVE; the report to the second MOVE is then taken as it is. */
  function MoveReport(pos: Vec, t: string): Option<(Vec, seq<Command>, string)> {
    match OkReport(t)
    case None => None
    case Some((v, rest)) =>
      if v != pos then Some((v, [Move], rest))
      else
        match OkReport(rest)
        case None => None
        case Some((w, rest2)) => Some((w, [Move, Move], rest2))
  }

  /** send_move: MOVE, then the reported position; MOVE once more when the
      report is the old position. */
  method SendMove(s: Session) returns (r: Res<Vec>)
    ensures SameRobot(s, r.s) && Grows(s, r.s)
    ensures r.Done? ==> |Stream(r.s)| < |Stream(s)|
    ensures r.Done? ==> var mr := MoveReport(s.pos, Stream(s));
      mr.Some? && r.value == mr.value.0 && r.s.sent == s.sent + mr.value.1 && Stream(r.s) == mr.value.2
    ensures r.Done? ==> r.s.sent == s.sent + [Move] || r.s.sent == s.sent + [Move, Move]
    ensures r.Done? && s.timeout == TIMEOUT ==> r.s.timeout == TIMEOUT
    ensures r.Raised? ==> Aborts(r.exc) && r.exc != CloseConnection(CoordinatesMismatch)
    ensures Chunked(s) ==> (r.Done? <==> MoveReport(s.pos, Stream(s)).Some?)
    ensures Chunked(s) && r.Done? ==> Chunked(r.s)
  {
    var s0 := Send(s, Move);
    GrowsBy(s, s0, [Move]);
    var first := AwaitOk(s0);
    GrowsTrans(s, s0, first.s);
    if first.Raised? {
      return Raised(first.exc, first.s);
    }
    var v, s1 := first.value, first.s;
    if v != s.pos {
      return Done(v, s1);
    }
    var s2 := Send(s1, Move);
    GrowsBy(s1, s2, [Move]);
    GrowsTrans(s, s1, s2);
    AppendTwo(s.sent, Move, Move);
    r := AwaitOk(s2);
    GrowsTrans(s, s2, r.s);
  }

  /** send_turn: the turn command, the reported position, the heading
      rotated; a report that differs from the (unchanged) position closes
      the connection. */
  method SendTurn(s: Session, c: Command) returns (r: Res<()>)
    requires c == TurnLeft || c == TurnRight
    ensures r.s.pos == s.pos && r.s.hash == s.hash && Grows(s, r.s)
    ensures r.Done? ==> r.s.heading == (if c == TurnLeft then RotateLeft(s.heading) else RotateRight(s.heading))
    ensures r.Done? ==> OkReport(Stream(s)) == Some((s.pos, Stream(r.s))) && r.s.sent == s.sent + [c]
    ensures r.Done? ==> |Stream(r.s)| < |Stream(s)|
    ensures r.Done? && s.timeout == TIMEOUT ==> r.s.timeout == TIMEOUT
    ensures r.Raised? && r.exc == CloseConnection(CoordinatesMismatch) ==>
      OkReport(Stream(s)).Some? && OkReport(Stream(s)).value.0 != s.pos
    ensures r.Raised? ==> Aborts(r.exc)
    ensures Chunked(s) ==> (r.Done? <==> ReportOf(s.pos, Stream(s)).Some?)
    ensures Chunked(s) && OkReport(Stream(s)).Some? && OkReport(Stream(s)).value.0 != s.pos ==>
      r.Raised? && r.exc == CloseConnection(CoordinatesMismatch)
    ensures Chunked(s) && r.Done? ==> Chunked(r.s)
  {
    var s0 := Send(s, c);
    GrowsBy(s, s0, [c]);
    var reply := AwaitOk(s0);
    GrowsTrans(s, s0, reply.s);
    if reply.Raised? {
      return Raised(reply.exc, reply.s);
    }
    var v, s1 := reply.value, reply.s;
    var s2 := s1.(heading := if c == TurnLeft then RotateLeft(s1.heading) else RotateRight(s1.heading));
    if s2.pos != v {
      return Raised(CloseConnection(CoordinatesMismatch), s2);
    }
    return Done((), s2);
  }

  /** send_pick_up: PICK UP, then the robot's message (after a recharge, if
      one comes first). An empty message means nothing is here; any other
      text is the secret and ends the search. */
  method SendPickUp(s: Session) returns (r: Res<()>)
    ensures SameRobot(s, r.s) && Grows(s, r.s)
    ensures r.Done? ==> var a := Absorbed(Stream(s));
      a.Some? && a.value.0 == "" && Stream(r.s) == a.value.1 && r.s.sent == s.sent + [PickUp]
    ensures r.Raised? && r.exc.MessageFound? ==> var a := Absorbed(Stream(s));
      a.Some? && a.value.0 == r.exc.text && r.exc.text != "" && r.s.sent == s.sent + [PickUp]
    ensures r.Raised? ==> r.exc.MessageFound? || Aborts(r.exc)
    ensures r.Raised? ==> r.exc != CloseConnection(CoordinatesMismatch)
    ensures r.Done? ==> |Stream(r.s)| < |Stream(s)|
    ensures r.Done? && s.timeout == TIMEOUT ==> r.s.timeout == TIMEOUT
    ensures var e := ExtractMessage(Send(s, PickUp), Message);
      && (e.Raised? ==> r == Raised(e.exc, e.s))
      && (e.Done? ==> var a := AbsorbRecharge(e.s, e.value, Message);
           && (a.Raised? ==> r == Raised(a.exc, a.s))
           && (a.Done? ==> (r.Done? <==> a.value == ""))
           && (a.Done? && a.value != "" ==> r == Raised(MessageFound(a.value), a.s)))
    ensures Chunked(s) ==> (r.Done? || r.exc.MessageFound? <==> ReadsWhole(Stream(s), Message, Message))
    ensures Chunked(s) && ReadsWhole(Stream(s), Message, Message) ==>
      && (r.Done? <==> Absorbed(Stream(s)).value.0 == "")
      && (r.Raised? ==> r.exc == MessageFound(Absorbed(Stream(s)).value.0))
    ensures Chunked(s) ==> (r.Done? <==> Absorbed(Stream(s)).Some? && Absorbed(Stream(s)).value.0 == "")
    ensures Chunked(s) && r.Done? ==> Chunked(r.s)
  {
    var s1 := Send(s, PickUp);
    GrowsBy(s, s1, [PickUp]);
    var read := ExtractMessage(s1, Message);
    if read.Raised? {
      GrowsBy(s1, read.s, Notice(read.exc));
      GrowsTrans(s, s1, read.s);
      r := Raised(read.exc, read.s);
    } else {
      var m, s2 := read.value, read.s;
      var reply := AbsorbRecharge(s2, m, Message);
      if reply.Raised? {
        GrowsBy(s1, reply.s, Notice(reply.exc));
        GrowsTrans(s, s1, reply.s);
        r := Raised(reply.exc, reply.s);
      } else {
        var t, s3 := reply.value, reply.s;
        GrowsBy(s, s3, [PickUp]);
        if t != "" {
          r := Raised(MessageFound(t), s3);
        } else {
          AbsorbedShrinks(Stream(s));
          r := Done((), s3);
        }
      }
    }
    PickUpReply(s, r);
  }

  /** What the reads of send_pick_up take off the stream: the effective
      reply, and under chunked delivery whether it arrives whole. */
  lemma PickUpReply(s: Session, r: Res<()>)
    requires var e := ExtractMessage(Send(s, PickUp), Message);
      && (e.Raised? ==> r == Raised(e.exc, e.s))
      && (e.Done? ==> var a := AbsorbRecharge(e.s, e.value, Message);
           && (a.Raised? ==> r == Raised(a.exc, a.s))
           && (a.Done? && a.value == "" ==> r == Done((), a.s))
           && (a.Done? && a.value != "" ==> r == Raised(MessageFound(a.value), a.s)))
    ensures r.Done? ==> var a := Absorbed(Stream(s));
      a.Some? && a.value.0 == "" && Stream(r.s) == a.value.1 && r.s.sent == s.sent + [PickUp]
    ensures r.Raised? && r.exc.MessageFound? ==> var a := Absorbed(Stream(s));
      a.Some? && a.value.0 == r.exc.text && r.exc.text != "" && r.s.sent == s.sent + [PickUp]
    ensures Chunked(s) ==> (r.Done? || r.exc.MessageFound? <==> ReadsWhole(Stream(s), Message, Message))
    ensures Chunked(s) && ReadsWhole(Stream(s), Message, Message) ==>
      && (r.Done? <==> Absorbed(Stream(s)).value.0 == "")
      && (r.Raised? ==> r.exc == MessageFound(Absorbed(Stream(s)).value.0))
    ensures Chunked(s) ==> (r.Done? <==> Absorbed(Stream(s)).Some? && Absorbed(Stream(s)).value.0 == "")
    ensures Chunked(s) && r.Done? ==> Chunked(r.s)
  {
    var s1 := Send(s, PickUp);
    var e := ExtractMessage(s1, Message);
    if e.Done? {
      FrameSplit(Stream(s1));
    }
    if Chunked(s) {
      assert Chunked(s1) && Stream(s1) == Stream(s);
      ReplyReadChunked(s1, Message, Message);
      EmptyReplyReadsWhole(Stream(s));
    }
  }

  /** An empty reply, after a recharge or not, is read whole. */
  lemma EmptyReplyReadsWhole(t: string)
    ensures Absorbed(t).Some? && Absorbed(t).value.0 == "" ==> ReadsWhole(t, Message, Message)
  {
  }

  /** n steps in a row along a stream, each taking what it reads off the
      front: the stream left, or None once a step fails. */
  function Iterate(step: string -> Option<string>, n: nat, t: string): Option<string> {
    if n == 0 then Some(t)
    else
      match step(t)
      case None => None
      case Some(rest) => Iterate(step, n - 1, rest)
  }

  /** k steps and then j more are k + j steps. */
  lemma {:induction false} IterateAppend(step: string -> Option<string>, k: nat, j: nat, t: string, u: string)
    requires Iterate(step, k, t) == Some(u)
    ensures Iterate(step, k + j, t) == Iterate(step, j, u)
  {
    if k > 0 {
      IterateAppend(step, k - 1, j, step(t).value, u);
    }
  }

  /** One report of position p at the head of t: the stream after it. */
  function ReportOf(p: Vec, t: string): Option<string> {
    match OkReport(t)
    case None => None
    case Some((v, rest)) => if v != p then None else Some(rest)
  }

  /** n reports in a row, each of position p, read off the stream t: the
      replies the robot owes n turns. The stream left, or None. */
  function Reports(p: Vec, n: nat, t: string): Option<string> {
    Iterate(u => ReportOf(p, u), n, t)
  }

  /** k reports and then j more are k + j reports. */
  lemma ReportsAppend(p: Vec, k: nat, j: nat, t: string, u: string)
    requires Reports(p, k, t) == Some(u)
    ensures Reports(p, k + j, t) == Reports(p, j, u)
  {
    IterateAppend(u => ReportOf(p, u), k, j, t, u);
  }

  /** A run of reports starts with one report of p, or fails. */
  lemma ReportsFirst(p: Vec, n: nat, t: string)
    requires n > 0
    ensures ReportOf(p, t).None? ==> Reports(p, n, t).None?
    ensures ReportOf(p, t).Some? ==> Reports(p, n, t) == Reports(p, n - 1, ReportOf(p, t).value)
  {
  }

  /** A run of one report is one report of p. */
  lemma ReportsOne(p: Vec, t: string)
    ensures Reports(p, 1, t) == ReportOf(p, t)
  {
    ReportsFirst(p, 1, t);
  }


  /** One more report of p after a run of k. */
  lemma ReportsMore(p: Vec, k: nat, t: string, u: string)
    requires Reports(p, k, t) == Some(u) && ReportOf(p, u).Some?
    ensures Reports(p, k + 1, t) == Some(ReportOf(p, u).value)
  {
    ReportsAppend(p, k, 1, t, u);
    ReportsFirst(p, 1, u);
  }

  /** A run of k reports followed by anything but a report of p is no run
      of more than k. */
  lemma ReportsCutShort(p: Vec, k: nat, n: nat, t: string, u: string)
    requires k < n && Reports(p, k, t) == Some(u) && ReportOf(p, u).None?
    ensures Reports(p, n, t).None?
  {
    ReportsAppend(p, k, n - k, t, u);
    ReportsFirst(p, n - k, u);
  }

  /** The fewest left turns from h to t, counting up to three. */
  function LeftCount(h: Vec, t: Vec): (n: nat)
    ensures n < 4
  {
    if h == t then 0 else if RotateLeft(h) == t then 1 else if RotateLeft(RotateLeft(h)) == t then 2 else 3
  }


  /** A left-turn position that misses the target after k misses lies
      before the first hit. */
  lemma LeftCountAhead(h: Vec, t: Vec, k: nat, q: nat)
    requires !MissedBefore(h, t, 4)
    requires q < 4 && (k < 4 ==> q == k) && Turned(h, q) != t && MissedBefore(h, t, k)
    ensures k < LeftCount(h, t)
  {
  }



  /** The single TURN RIGHT of turn_and_move, when the needed direction d
      is a right turn away from the heading. */
  method RightTurn(s: Session, d: Vec) returns (r: Res<nat>)
    requires RotateRight(s.heading) == d
    ensures r.s.pos == s.pos && r.s.hash == s.hash && Grows(s, r.s)
    ensures r.Done? ==> r.value == 1 && r.s.heading == d && r.s.sent == s.sent + [TurnRight]
    ensures r.Done? ==> Turns(s.heading, d) == Some([TurnRight]) && Reports(s.pos, 1, Stream(s)) == Some(Stream(r.s))
    ensures r.Done? ==> PickUps(r.s.sent) == PickUps(s.sent)
    ensures r.Done? && s.timeout == TIMEOUT ==> r.s.timeout == TIMEOUT
    ensures r.Raised? ==> Aborts(r.exc)
    ensures Chunked(s) && r.Raised? ==> Reports(s.pos, 1, Stream(s)).None?
    ensures Chunked(s) && r.Done? ==> Chunked(r.s)
  {
    RotationsAreInverse(s.heading);
    var turned := SendTurn(s, TurnRight);
    ReportsOne(s.pos, Stream(s));
    if turned.Raised? {
      return Raised(turned.exc, turned.s);
    }
    PickUpsAppend(s.sent, TurnRight);
    return Done(1, turned.s);
  }

  /** The turns turn_and_move sends to bring heading h onto the needed
      direction d: one TURN RIGHT when d is a right turn away, none when
      there is nowhere to go or h is already d, otherwise the fewest TURN
      LEFTs. None when no number of left turns reaches d: the source then
      turns for as long as the robot answers. */
  function Turns(h: Vec, d: Vec): Option<seq<Command>> {
    if RotateRight(h) == d then Some([TurnRight])
    else if d == Zero || h == d then Some([])
    else if RotateLeft(h) == d then Some([TurnLeft])
    else if RotateLeft(RotateLeft(h)) == d then Some([TurnLeft, TurnLeft])
    else None
  }

  /** The left-turn loop of turn_and_move: TURN LEFT until the heading is
      the target. When it ends it has sent the fewest left turns that
      reach the target, fewer than four, and read one report of the
      unchanged position for each; it ends only when the heading and the
      target are both or neither among the four unit headings. Otherwise
      it goes round for as long as the robot answers. */
  method TurnLeftLoop(s: Session, target: Vec) returns (r: Res<nat>)
    ensures r.s.pos == s.pos && r.s.hash == s.hash && Grows(s, r.s)
    ensures r.Done? ==> r.value < 4 && r.s.heading == target && Turned(s.heading, r.value) == target
    ensures r.Done? ==> MissedBefore(s.heading, target, r.value)
    ensures r.Done? ==> r.s.sent == s.sent + Repeat(TurnLeft, r.value)
    ensures r.Done? ==> Reports(s.pos, r.value, Stream(s)) == Some(Stream(r.s))
    ensures r.Done? ==> PickUps(r.s.sent) == PickUps(s.sent)
    ensures r.Done? ==> (IsUnit(s.heading) <==> IsUnit(target))
    ensures r.Done? && s.timeout == TIMEOUT ==> r.s.timeout == TIMEOUT
    ensures r.Raised? ==> Aborts(r.exc)
    ensures Chunked(s) && !MissedBefore(s.heading, target, 4) ==>
      (r.Done? <==> Reports(s.pos, LeftCount(s.heading, target), Stream(s)).Some?)
    ensures Chunked(s) && MissedBefore(s.heading, target, 4) ==> r.Raised?
    ensures Chunked(s) && r.Done? ==> Chunked(r.s)
  {
    var t := s;
    var k: nat := 0;
    var q: nat := 0;
    while t.heading != target
      invariant q < 4 && (k < 4 ==> q == k)
      invariant t.heading == Turned(s.heading, q)
      invariant MissedBefore(s.heading, target, k)
      invariant t.pos == s.pos && t.hash == s.hash && Grows(s, t)
      invariant t.sent == s.sent + Repeat(TurnLeft, k)
      invariant Reports(s.pos, k, Stream(s)) == Some(Stream(t))
      invariant Chunked(s) ==> Chunked(t)
      invariant s.timeout == TIMEOUT ==> t.timeout == TIMEOUT
      decreases |Stream(t)|
    {
      var turned := SendTurn(t, TurnLeft);
      GrowsTrans(s, t, turned.s);
      if turned.Raised? {
        if Chunked(s) && !MissedBefore(s.heading, target, 4) {
          LeftCountAhead(s.heading, target, k, q);
          ReportsCutShort(s.pos, k, LeftCount(s.heading, target), Stream(s), Stream(t));
        }
        return Raised(turned.exc, turned.s);
      }
      TurnedCycle(s.heading, q);
      RepeatSnoc(s.sent, TurnLeft, k);
      ReportsMore(s.pos, k, Stream(s), Stream(t));
      t := turned.s;
      k := k + 1;
      q := if q == 3 then 0 else q + 1;
    }
    RotationsAreInverse(s.heading);
    RotationsAreInverse(RotateLeft(s.heading));
    RepeatHasNoPickUp(s.sent, TurnLeft, k);
    return Done(k, t);
  }

  /** The rotation that turn_and_move's first test picks TURN RIGHT for is
      exactly the one where the target is a right turn away. */
  lemma RightTurnCondition(h: Vec, a: Axis, d: int)
    ensures ((a == X && h == Vec(0, d)) || (a == Y && h == Vec(-d, 0))) <==> RotateRight(h) == AxisDir(a, d)
  {
  }

  /** Only the zero heading meets the right-turn test when the robot is
      already level with the goal, and turning it leaves it zero. */
  lemma StillRightTurn(h: Vec, a: Axis)
    requires (a == X && h == Vec(0, 0)) || (a == Y && h == Vec(-0, 0))
    ensures h == Zero && AxisDir(a, 0) == Zero
  {
  }

  /** The turns the left-turn loop sends when it ends are those Turns
      names, and when Turns names none the loop cannot end. */
  lemma LeftTurnsAreTurns(h: Vec, d: Vec, k: nat)
    requires RotateRight(h) != d && d != Zero
    ensures !MissedBefore(h, d, 4) <==> Turns(h, d).Some?
    ensures Turns(h, d).Some? ==> Turns(h, d).value == Repeat(TurnLeft, LeftCount(h, d))
    ensures k < 4 && Turned(h, k) == d && MissedBefore(h, d, k) ==> k == LeftCount(h, d)
  {
    assert Repeat(TurnLeft, 1) == [TurnLeft];
    assert Repeat(TurnLeft, 2) == [TurnLeft, TurnLeft];
  }

  /** The turn phase of turn_and_move along axis a towards coordinate g:
      one TURN RIGHT when the needed direction is a right turn away,
      otherwise the fewest left turns, at most two, while there is
      distance to cover. It returns the number of turns sent, and reads one
      report of the unchanged position per turn. The position never changes
      (the source asserts this). */
  method TurnPhase(s: Session, a: Axis, g: int) returns (r: Res<nat>)
    ensures r.s.pos == s.pos && r.s.hash == s.hash && Grows(s, r.s)
    ensures r.Done? ==> r.s.heading == if Coord(s.pos, a) != g then Toward(s.pos, a, g) else s.heading
    ensures r.Done? && Coord(s.pos, a) != g && RotateRight(s.heading) == Toward(s.pos, a, g) ==>
      r.value == 1 && r.s.sent == s.sent + [TurnRight]
    ensures r.Done? && Coord(s.pos, a) != g && RotateRight(s.heading) != Toward(s.pos, a, g) ==>
      && r.value <= 2 && r.s.sent == s.sent + Repeat(TurnLeft, r.value)
      && Turned(s.heading, r.value) == Toward(s.pos, a, g) && MissedBefore(s.heading, Toward(s.pos, a, g), r.value)
    ensures r.Done? && Coord(s.pos, a) != g ==> (IsUnit(s.heading) <==> IsUnit(r.s.heading))
    ensures r.Done? && Coord(s.pos, a) == g && s.heading != Zero ==> r == Done(0, s)
    ensures r.Done? ==> var ts := Turns(s.heading, Toward(s.pos, a, g));
      && ts.Some? && r.s.sent == s.sent + ts.value
      && Reports(s.pos, |ts.value|, Stream(s)) == Some(Stream(r.s))
    ensures r.Done? ==> PickUps(r.s.sent) == PickUps(s.sent)
    ensures r.Done? && s.timeout == TIMEOUT ==> r.s.timeout == TIMEOUT
    ensures r.Raised? ==> Aborts(r.exc)
    ensures Chunked(s) ==> var ts := Turns(s.heading, Toward(s.pos, a, g));
      (r.Done? <==> ts.Some? && Reports(s.pos, |ts.value|, Stream(s)).Some?)
    ensures Chunked(s) && r.Done? ==> Chunked(r.s)
  {
    var d := Sign(g - Coord(s.pos, a));
    var target := AxisDir(a, d);
    assert target == Toward(s.pos, a, g);
    assert d == 0 <==> Coord(s.pos, a) == g;
    RightTurnCondition(s.heading, a, d);
    if (a == X && s.heading == Vec(0, d)) || (a == Y && s.heading == Vec(-d, 0)) {
      r := RightTurn(s, target);
      if d == 0 {
        StillRightTurn(s.heading, a);
      }
    } else if d != 0 {
      assert target != Zero;
      r := TurnLeftLoop(s, target);
      if r.Done? {
        LeftTurnsAreTurns(s.heading, target, r.value);
      } else {
        LeftTurnsAreTurns(s.heading, target, 0);
        assert Chunked(s) && Turns(s.heading, target).Some? ==>
          |Turns(s.heading, target).value| == LeftCount(s.heading, target);
      }
    } else {
      r := Done(0, s);
    }
  }

  /** After one or two MOVEs, MOVE is the last command sent. */
  lemma MoveWasLast(s: Session, t: Session)
    requires t.sent == s.sent + [Move] || t.sent == s.sent + [Move, Move]
    ensures LastSent(t, Move)
  {
  }

  /** The cells picked up so far followed by those still ahead stay the
      whole leg's after one more step. */
  lemma LegAdvance(done: seq<Vec>, p: Vec, a: Axis, g: int, v: seq<Vec>, whole: seq<Vec>)
    requires Coord(p, a) != g
    requires v == (var q := Advance(p, Toward(p, a, g)); if InZone(q) then [q] else [])
    requires done + LegProbed(p, a, g) == whole
    ensures (done + v) + LegProbed(Advance(p, Toward(p, a, g)), a, g) == whole
  {
    var rest := LegProbed(Advance(p, Toward(p, a, g)), a, g);
    assert LegProbed(p, a, g) == v + rest by {
      LegProbedStep(p, a, g);
    }
    assert done + v + rest == done + (v + rest);
  }

  /** One step of a leg: the first cell's pick-up, if it is in the zone,
      then the pick-ups of the rest of the leg. */
  lemma LegProbedStep(p: Vec, a: Axis, g: int)
    requires Coord(p, a) != g
    ensures var q := Advance(p, Toward(p, a, g));
      LegProbed(p, a, g) == (if InZone(q) then [q] else []) + LegProbed(q, a, g)
  {
  }

  /** One pass of the moving loop read off the client's stream t, for a
      robot at p with heading h that has sent log so far: the report to MOVE
      (or to the repeated MOVE) must be p + h, and on a zone cell the reply
      to PICK UP must be empty. The log after the pass and the stream left,
      or None when the pass does not complete. */
  function StepSpec(p: Vec, h: Vec, log: seq<Command>, t: string): Option<(seq<Command>, string)> {
    match MoveReport(p, t)
    case None => None
    case Some((v, moves, t1)) =>
      if v != Advance(p, h) then None
      else if !InZone(v) then Some((log + moves, t1))
      else
        match Absorbed(t1)
        case None => None
        case Some((m, t2)) => if m != "" then None else Some((log + moves + [PickUp], t2))
  }

  /** The client's side of the moving loop from p along axis a to
      coordinate g, read off its stream t after log was sent: one StepSpec
      per cell of the run, each on the heading towards g. The log after the
      leg and the stream left, or None when the leg does not complete. */
  function LegSpec(p: Vec, a: Axis, g: int, log: seq<Command>, t: string): Option<(seq<Command>, string)>
    decreases Abs(g - Coord(p, a))
  {
    if Coord(p, a) == g then Some((log, t))
    else
      var q := Advance(p, Toward(p, a, g));
      assert Abs(g - Coord(q, a)) < Abs(g - Coord(p, a));
      match StepSpec(p, Toward(p, a, g), log, t)
      case None => None
      case Some((log1, t1)) => LegSpec(q, a, g, log1, t1)
  }

  /** The checked move of one pass of the moving loop: MOVE, then the
      report compared with the position plus the heading; a different
      report closes the connection. */
  method CheckedMove(s: Session) returns (r: Res<()>)
    ensures r.s.hash == s.hash && r.s.heading == s.heading && Grows(s, r.s)
    ensures r.Done? ==> r.s.pos == Advance(s.pos, s.heading)
    ensures r.Done? ==> var mr := MoveReport(s.pos, Stream(s));
      && mr.Some? && mr.value.0 == Advance(s.pos, s.heading)
      && r.s.sent == s.sent + mr.value.1 && Stream(r.s) == mr.value.2
    ensures r.Done? ==> PickUps(r.s.sent) == PickUps(s.sent)
    ensures r.Done? && s.timeout == TIMEOUT ==> r.s.timeout == TIMEOUT
    ensures r.Raised? && r.exc == CloseConnection(CoordinatesMismatch) ==> var mr := MoveReport(s.pos, Stream(s));
      && mr.Some? && mr.value.0 != Advance(s.pos, s.heading)
      && r.s.sent == s.sent + mr.value.1 && LastSent(r.s, Move)
    ensures r.Raised? ==> Aborts(r.exc)
    ensures Chunked(s) ==> var mr := MoveReport(s.pos, Stream(s));
      && (r.Done? <==> mr.Some? && mr.value.0 == Advance(s.pos, s.heading))
      && (mr.Some? && mr.value.0 != Advance(s.pos, s.heading) ==> r.Raised? && r.exc == CloseConnection(CoordinatesMismatch))
    ensures Chunked(s) && r.Done? ==> Chunked(r.s)
  {
    var moved := SendMove(s);
    if moved.Raised? {
      return Raised(moved.exc, moved.s);
    }
    var v, s1 := moved.value, moved.s;
    var s2 := s1.(pos := Advance(s1.pos, s1.heading));
    if s2.pos != v {
      MoveWasLast(s, s2);
      return Raised(CloseConnection(CoordinatesMismatch), s2);
    }
    PickUpsAppend(s.sent, Move);
    PickUpsAppend(s.sent + [Move], Move);
    AppendTwo(s.sent, Move, Move);
    return Done((), s2);
  }

  /** One pass of the moving loop: the checked move, and a PICK UP when
      the new cell is in the goal zone. It returns the cell it picked up
      on, if any. */
  method MoveStep(s: Session) returns (r: Res<seq<Vec>>)
    ensures r.s.hash == s.hash && r.s.heading == s.heading && Grows(s, r.s)
    ensures r.Done? ==> r.s.pos == Advance(s.pos, s.heading)
    ensures r.Done? ==> r.value == (if InZone(r.s.pos) then [r.s.pos] else [])
    ensures r.Done? ==> StepSpec(s.pos, s.heading, s.sent, Stream(s)) == Some((r.s.sent, Stream(r.s)))
    ensures r.Done? ==> PickUps(r.s.sent) == PickUps(s.sent) + |r.value|
    ensures r.Done? && s.timeout == TIMEOUT ==> r.s.timeout == TIMEOUT
    ensures r.Raised? && r.exc == CloseConnection(CoordinatesMismatch) ==> LastSent(r.s, Move)
    ensures r.Raised? && r.exc.MessageFound? ==> r.exc.text != "" && LastSent(r.s, PickUp) && InZone(r.s.pos)
    ensures r.Raised? ==> r.exc.MessageFound? || Aborts(r.exc)
    ensures Chunked(s) ==> (r.Done? <==> StepSpec(s.pos, s.heading, s.sent, Stream(s)).Some?)
    ensures Chunked(s) && r.Done? ==> Chunked(r.s)
  {
    var moved := CheckedMove(s);
    if moved.Raised? {
      if Chunked(s) {
        StepUnmoved(s.pos, s.heading, s.sent, Stream(s));
      }
      return Raised(moved.exc, moved.s);
    }
    var s2 := moved.s;
    if !InZone(s2.pos) {
      StepMoved(s.pos, s.heading, s.sent, Stream(s));
      return Done([], s2);
    }
    var picked := SendPickUp(s2);
    GrowsTrans(s, s2, picked.s);
    if picked.Raised? {
      if Chunked(s) {
        StepUnpicked(s.pos, s.heading, s.sent, Stream(s));
      }
      return Raised(picked.exc, picked.s);
    }
    StepPicked(s.pos, s.heading, s.sent, Stream(s));
    PickUpsAppend(s2.sent, PickUp);
    return Done([s2.pos], picked.s);
  }

  /** A pass whose move is not reported where the heading leads fails. */
  lemma StepUnmoved(p: Vec, h: Vec, log: seq<Command>, t: string)
    requires !(MoveReport(p, t).Some? && MoveReport(p, t).value.0 == Advance(p, h))
    ensures StepSpec(p, h, log, t).None?
  {
  }

  /** A pass that lands off the goal zone is its move. */
  lemma StepMoved(p: Vec, h: Vec, log: seq<Command>, t: string)
    requires MoveReport(p, t).Some? && MoveReport(p, t).value.0 == Advance(p, h)
    requires !InZone(Advance(p, h))
    ensures StepSpec(p, h, log, t) == Some((log + MoveReport(p, t).value.1, MoveReport(p, t).value.2))
  {
  }

  /** A pass that lands on the goal zone is its move and an empty pick-up. */
  lemma StepPicked(p: Vec, h: Vec, log: seq<Command>, t: string)
    requires MoveReport(p, t).Some? && MoveReport(p, t).value.0 == Advance(p, h)
    requires InZone(Advance(p, h))
    ensures var a := Absorbed(MoveReport(p, t).value.2);
      a.Some? && a.value.0 == "" ==>
        StepSpec(p, h, log, t) == Some((log + MoveReport(p, t).value.1 + [PickUp], a.value.1))
  {
  }

  /** A pass on the goal zone whose pick-up is answered by anything but an
      empty message fails. */
  lemma StepUnpicked(p: Vec, h: Vec, log: seq<Command>, t: string)
    requires MoveReport(p, t).Some? && MoveReport(p, t).value.0 == Advance(p, h)
    requires InZone(Advance(p, h))
    ensures var a := Absorbed(MoveReport(p, t).value.2);
      !(a.Some? && a.value.0 == "") ==> StepSpec(p, h, log, t).None?
  {
  }

  /** The moving loop of turn_and_move: steps until the axis coordinate is
      the goal. It returns the cells where it picked up, and it has sent
      and read exactly what LegSpec reads off the stream. */
  method MoveLoop(s: Session, a: Axis, g: int) returns (r: Res<seq<Vec>>)
    requires Coord(s.pos, a) != g ==> s.heading == Toward(s.pos, a, g)
    ensures r.s.hash == s.hash && r.s.heading == s.heading && Grows(s, r.s)
    ensures r.Done? ==> r.s.pos == WithCoord(s.pos, a, g)
    ensures r.Done? ==> r.value == LegProbed(s.pos, a, g)
    ensures r.Done? ==> LegSpec(s.pos, a, g, s.sent, Stream(s)) == Some((r.s.sent, Stream(r.s)))
    ensures r.Done? ==> PickUps(r.s.sent) == PickUps(s.sent) + |r.value|
    ensures r.Done? && s.timeout == TIMEOUT ==> r.s.timeout == TIMEOUT
    ensures r.Raised? && r.exc == CloseConnection(CoordinatesMismatch) ==> LastSent(r.s, Move)
    ensures r.Raised? && r.exc.MessageFound? ==> r.exc.text != "" && LastSent(r.s, PickUp) && InZone(r.s.pos)
    ensures r.Raised? ==> r.exc.MessageFound? || Aborts(r.exc)
    ensures Chunked(s) ==> (r.Done? <==> LegSpec(s.pos, a, g, s.sent, Stream(s)).Some?)
    ensures Chunked(s) && r.Done? ==> Chunked(r.s)
  {
    var t := s;
    var probed: seq<Vec> := [];
    while Coord(t.pos, a) != g
      invariant t.hash == s.hash && t.heading == s.heading && Grows(s, t)
      invariant Coord(t.pos, a) != g ==> t.heading == Toward(t.pos, a, g)
      invariant t.pos == WithCoord(s.pos, a, Coord(t.pos, a))
      invariant probed + LegProbed(t.pos, a, g) == LegProbed(s.pos, a, g)
      invariant LegSpec(s.pos, a, g, s.sent, Stream(s)) == LegSpec(t.pos, a, g, t.sent, Stream(t))
      invariant PickUps(t.sent) == PickUps(s.sent) + |probed|
      invariant Chunked(s) ==> Chunked(t)
      invariant s.timeout == TIMEOUT ==> t.timeout == TIMEOUT
      decreases Abs(g - Coord(t.pos, a))
    {
      var step := MoveStep(t);
      GrowsTrans(s, t, step.s);
      LegStep(t.pos, a, g, t.sent, Stream(t));
      if step.Raised? {
        assert Chunked(s) ==> LegSpec(t.pos, a, g, t.sent, Stream(t)).None?;
        return Raised(step.exc, step.s);
      }
      LegAdvance(probed, t.pos, a, g, step.value, LegProbed(s.pos, a, g));
      probed := probed + step.value;
      t := step.s;
    }
    return Done(probed, t);
  }

  /** A leg off its goal coordinate is its first step, then the leg from
      the next cell. */
  lemma LegStep(p: Vec, a: Axis, g: int, log: seq<Command>, t: string)
    requires Coord(p, a) != g
    ensures var st := StepSpec(p, Toward(p, a, g), log, t);
      && (st.None? ==> LegSpec(p, a, g, log, t).None?)
      && (st.Some? ==> LegSpec(p, a, g, log, t) == LegSpec(Advance(p, Toward(p, a, g)), a, g, st.value.0, st.value.1))
  {
  }

  /** The client's side of a whole turn_and_move along axis a to goal, read
      off its stream t for a robot at p with heading h that has sent log
      so far: nothing when the robot is at the goal; otherwise the turns,
      one report of p per turn, then the leg. The log after it and the
      stream left, or None when turn_and_move does not complete. */
  function TurnAndMoveSpec(p: Vec, h: Vec, a: Axis, goal: Vec, log: seq<Command>, t: string): Option<(seq<Command>, string)> {
    if p == goal then Some((log, t))
    else
      var g := Coord(goal, a);
      match Turns(h, Toward(p, a, g))
      case None => None
      case Some(ts) =>
        match Reports(p, |ts|, t)
        case None => None
        case Some(t1) => LegSpec(p, a, g, log + ts, t1)
  }

  /** Away from the goal, turn_and_move is its turns, their reports, and
      the leg after them. */
  /** The heading turn_and_move leaves the robot with: the one towards
      the goal along the axis when the robot had to travel, the old one
      otherwise. */
  function HeadingAfter(p: Vec, h: Vec, a: Axis, goal: Vec): Vec {
    if p != goal && Coord(p, a) != Coord(goal, a) then Toward(p, a, Coord(goal, a)) else h
  }

  lemma TurnAndMoveSplit(p: Vec, h: Vec, a: Axis, goal: Vec, log: seq<Command>, t: string)
    requires p != goal
    ensures var g := Coord(goal, a);
      var ts := Turns(h, Toward(p, a, g));
      && (ts.None? || Reports(p, |ts.value|, t).None? ==> TurnAndMoveSpec(p, h, a, goal, log, t).None?)
      && (ts.Some? && Reports(p, |ts.value|, t).Some? ==>
            TurnAndMoveSpec(p, h, a, goal, log, t) == LegSpec(p, a, g, log + ts.value, Reports(p, |ts.value|, t).value))
  {
  }

  /** After the turn phase of a leg that was not skipped, what is left of
      TurnAndMoveSpec is the moving loop from where the turns left the
      robot, on the heading the leg ends with. */
  lemma TurnedForLeg(s: Session, t: Session, a: Axis, goal: Vec)
    requires s.pos != goal && t.pos == s.pos
    requires var ts := Turns(s.heading, Toward(s.pos, a, Coord(goal, a)));
      && ts.Some? && t.sent == s.sent + ts.value
      && Reports(s.pos, |ts.value|, Stream(s)) == Some(Stream(t))
    requires t.heading == if Coord(s.pos, a) != Coord(goal, a) then Toward(s.pos, a, Coord(goal, a)) else s.heading
    ensures TurnAndMoveSpec(s.pos, s.heading, a, goal, s.sent, Stream(s)) == LegSpec(t.pos, a, Coord(goal, a), t.sent, Stream(t))
    ensures t.heading == HeadingAfter(s.pos, s.heading, a, goal)
  {
    TurnAndMoveSplit(s.pos, s.heading, a, goal, s.sent, Stream(s));
  }

  /** turn_and_move along axis a (true: x, false: y) to goal: nothing when
      already there; otherwise the turn phase, then the moving loop. The
      robot ends with its axis coordinate on the goal and the other one
      where it was, having picked up on each zone cell of the way, and
      having sent and read exactly what TurnAndMoveSpec reads off the
      stream. */
  method TurnAndMove(s: Session, a: Axis, goal: Vec) returns (r: Res<seq<Vec>>)
    ensures r.s.hash == s.hash && Grows(s, r.s)
    ensures r.Done? ==> Coord(r.s.pos, a) == Coord(goal, a)
    ensures r.Done? ==> r.s.pos == WithCoord(s.pos, a, Coord(goal, a))
    ensures r.Done? ==> r.value == LegProbed(s.pos, a, Coord(goal, a))
    ensures r.Done? ==> TurnAndMoveSpec(s.pos, s.heading, a, goal, s.sent, Stream(s)) == Some((r.s.sent, Stream(r.s)))
    ensures r.Done? ==> r.s.heading == HeadingAfter(s.pos, s.heading, a, goal)
    ensures r.Done? ==> PickUps(r.s.sent) == PickUps(s.sent) + |r.value|
    ensures r.Done? && s.pos == goal ==> r.s == s
    ensures r.Done? && Coord(s.pos, a) != Coord(goal, a) ==> IsUnit(s.heading)
    ensures r.Done? && s.timeout == TIMEOUT ==> r.s.timeout == TIMEOUT
    ensures r.Raised? && r.exc.MessageFound? ==> r.exc.text != "" && LastSent(r.s, PickUp) && InZone(r.s.pos)
    ensures r.Raised? ==> r.exc.MessageFound? || Aborts(r.exc)
    ensures Chunked(s) ==> (r.Done? <==> TurnAndMoveSpec(s.pos, s.heading, a, goal, s.sent, Stream(s)).Some?)
    ensures Chunked(s) && r.Done? ==> Chunked(r.s)
  {
    if s.pos == goal {
      return Done([], s);
    }
    var g := Coord(goal, a);
    TurnAndMoveSplit(s.pos, s.heading, a, goal, s.sent, Stream(s));
    var turned := TurnPhase(s, a, g);
    if turned.Raised? {
      return Raised(turned.exc, turned.s);
    }
    TurnedForLeg(s, turned.s, a, goal);
    r := MoveLoop(turned.s, a, g);
    GrowsTrans(s, turned.s, r.s);
  }

  /** The last check of turn_and_move as the source spells it. Python reads
      `assert robot.x, robot.y == goal` as an assertion that robot.x is
      non-zero, with the comparison serving only as the failure message. */
  predicate LegCheckAsWritten(p: Vec) {
    p.x != 0
  }

  /** turn_and_move with that check: a leg that was not skipped and ends on
      x = 0 raises AssertionError even though it arrived where it should. */
  method TurnAndMoveAsWritten(s: Session, a: Axis, goal: Vec) returns (r: Res<seq<Vec>>)
    ensures r.s.hash == s.hash && Grows(s, r.s)
    ensures r.Done? ==> r.s.pos == WithCoord(s.pos, a, Coord(goal, a))
    ensures r.Done? ==> s.pos == goal || LegCheckAsWritten(r.s.pos)
    ensures r.Done? ==> TurnAndMoveSpec(s.pos, s.heading, a, goal, s.sent, Stream(s)) == Some((r.s.sent, Stream(r.s)))
    ensures r.Raised? && r.exc == AssertionError ==>
      s.pos != goal && r.s.pos == WithCoord(s.pos, a, Coord(goal, a)) && r.s.pos.x == 0
    ensures r.Raised? ==> r.exc.MessageFound? || Aborts(r.exc) || r.exc == AssertionError
    ensures Chunked(s) && s.pos != goal && TurnAndMoveSpec(s.pos, s.heading, a, goal, s.sent, Stream(s)).Some? ==>
      (r.Done? <==> LegCheckAsWritten(WithCoord(s.pos, a, Coord(goal, a))))
    ensures
      && Chunked(s) && s.pos != goal && TurnAndMoveSpec(s.pos, s.heading, a, goal, s.sent, Stream(s)).Some?
      && WithCoord(s.pos, a, Coord(goal, a)).x == 0
      ==> r.Raised? && r.exc == AssertionError
  {
    r := TurnAndMove(s, a, goal);
    if s.pos != goal && r.Done? && !LegCheckAsWritten(r.s.pos) {
      return Raised(AssertionError, r.s);
    }
  }
}
