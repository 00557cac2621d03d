/** Routes: the search drives the robot by a fixed sequence of
    turn_and_move calls. A route names them, and RouteSpec reads the
    client's byte stream the way the whole sequence does, leg after leg. */
module Routes {
  import opened Protocol
  import opened Geometry
  import opened State
  import opened Framer
  import opened Navigation

  /** One turn_and_move call: the axis to travel along and the goal whose
      coordinate on that axis the robot must reach. */
  datatype Stretch = Stretch(axis: Axis, goal: Vec)

  /** Where a robot at p stands after the call l. */
  function LegEnd(p: Vec, l: Stretch): (q: Vec)
    ensures Coord(q, l.axis) == Coord(l.goal, l.axis)
  {
    WithCoord(p, l.axis, Coord(l.goal, l.axis))
  }

  /** Where a robot at p stands after the whole route. */
  function RouteEnd(p: Vec, route: seq<Stretch>): Vec
    decreases |route|
  {
    if route == [] then p else RouteEnd(LegEnd(p, route[0]), route[1..])
  }

  /** The stream-level reading of a route from p with heading h: each call
      read as TurnAndMoveSpec reads it, each starting where the previous
      one left the robot and with the heading it left. The result is the
      final heading, the log with every command of the route appended, and
      the unread rest of the stream; None when the stream runs short of a
      report, a report disagrees with the move, or a PICK UP finds a
      message. */
  function RouteSpec(p: Vec, h: Vec, route: seq<Stretch>, log: seq<Command>, t: string): Option<(Vec, seq<Command>, string)>
    decreases |route|, 1
  {
    if route == [] then Some((h, log, t)) else FirstThenRest(p, h, route, log, t)
  }

  /** RouteSpec of a route that is not empty: its first call, then the
      rest of the route. */
  function FirstThenRest(p: Vec, h: Vec, route: seq<Stretch>, log: seq<Command>, t: string): Option<(Vec, seq<Command>, string)>
    requires route != []
    decreases |route|, 0
  {
    var l := route[0];
    match TurnAndMoveSpec(p, h, l.axis, l.goal, log, t)
    case None => None
    case Some((log1, t1)) => RouteSpec(LegEnd(p, l), HeadingAfter(p, h, l.axis, l.goal), route[1..], log1, t1)
  }

  /** A route of one call is read as that call is. */
  lemma RouteOne(p: Vec, h: Vec, l: Stretch, log: seq<Command>, t: string)
    ensures RouteSpec(p, h, [l], log, t) ==
      match TurnAndMoveSpec(p, h, l.axis, l.goal, log, t)
      case None => None
      case Some((log1, t1)) => Some((HeadingAfter(p, h, l.axis, l.goal), log1, t1))
  {
    assert [l][1..] == [];
    assert RouteSpec(p, h, [l], log, t) == FirstThenRest(p, h, [l], log, t);
    match TurnAndMoveSpec(p, h, l.axis, l.goal, log, t)
    case None =>
    case Some((log1, t1)) =>
      assert RouteSpec(LegEnd(p, l), HeadingAfter(p, h, l.axis, l.goal), [], log1, t1) == Some((HeadingAfter(p, h, l.axis, l.goal), log1, t1));
  }

  /** Two routes run one after the other are read as the first, then the
      second from where and with the heading the first left the robot. */
  lemma {:induction false} RouteAppend(p: Vec, h: Vec, first: seq<Stretch>, second: seq<Stretch>, log: seq<Command>, t: string)
    ensures RouteEnd(p, first + second) == RouteEnd(RouteEnd(p, first), second)
    ensures RouteSpec(p, h, first + second, log, t) ==
      match RouteSpec(p, h, first, log, t)
      case None => None
      case Some((h1, log1, t1)) => RouteSpec(RouteEnd(p, first), h1, second, log1, t1)
    decreases |first|
  {
    if first == [] {
      assert first + second == second;
    } else {
      var l := first[0];
      assert (first + second)[0] == l && (first + second)[1..] == first[1..] + second;
      var q, h1 := LegEnd(p, l), HeadingAfter(p, h, l.axis, l.goal);
      assert RouteSpec(p, h, first, log, t) == FirstThenRest(p, h, first, log, t);
      assert RouteSpec(p, h, first + second, log, t) == FirstThenRest(p, h, first + second, log, t);
      match TurnAndMoveSpec(p, h, l.axis, l.goal, log, t)
      case None =>
        RouteEndAppend(q, first[1..], second);
      case Some((log1, t1)) =>
        RouteAppend(q, h1, first[1..], second, log1, t1);
    }
  }

  /** The end of two routes run one after the other. */
  lemma {:induction false} RouteEndAppend(p: Vec, first: seq<Stretch>, second: seq<Stretch>)
    ensures RouteEnd(p, first + second) == RouteEnd(RouteEnd(p, first), second)
    decreases |first|
  {
    if first == [] {
      assert first + second == second;
    } else {
      assert (first + second)[0] == first[0] && (first + second)[1..] == first[1..] + second;
      RouteEndAppend(LegEnd(p, first[0]), first[1..], second);
    }
  }

  /** Two calls of turn_and_move from p: along x to gx (the goal keeps
      p's y), then along y to gy (the goal keeps the x now reached). */
  function CornerRoute(p: Vec, gx: int, gy: int): seq<Stretch> {
    [Stretch(X, Vec(gx, p.y)), Stretch(Y, Vec(gx, gy))]
  }

  /** The way back of a pass from the corner top: left by xs and down by
      ys - 1, then right by one. */
  function ReturnRoute(top: Vec, xs: int, ys: int): seq<Stretch> {
    CornerRoute(top, top.x - xs, top.y - ys + 1) + [Stretch(X, Vec(top.x - xs + 1, top.y - ys + 1))]
  }

  /** One pass of the search loop from c with shifts xs and ys: right by
      xs and up by ys, then the way back. */
  function RingRoute(c: Vec, xs: int, ys: int): seq<Stretch> {
    CornerRoute(c, c.x + xs, c.y + ys) + ReturnRoute(Vec(c.x + xs, c.y + ys), xs, ys)
  }

  /** The two calls of a corner route end on the corner. */
  lemma CornerRouteEnd(p: Vec, gx: int, gy: int)
    ensures RouteEnd(p, CornerRoute(p, gx, gy)) == Vec(gx, gy)
  {
    var route := CornerRoute(p, gx, gy);
    var q := LegEnd(p, route[0]);
    assert q == Vec(gx, p.y);
    assert route[1..] == [Stretch(Y, Vec(gx, gy))] && route[1..][1..] == [];
    assert RouteEnd(q, route[1..]) == LegEnd(q, route[1]);
  }

  /** The way back of a pass from the corner top ends one row and one
      column in from where the pass started. */
  lemma ReturnRouteEnd(top: Vec, xs: int, ys: int)
    ensures RouteEnd(top, ReturnRoute(top, xs, ys)) == Vec(top.x - xs + 1, top.y - ys + 1)
  {
    var back := Vec(top.x - xs, top.y - ys + 1);
    var step := Stretch(X, Vec(back.x + 1, back.y));
    CornerRouteEnd(top, back.x, back.y);
    RouteEndAppend(top, CornerRoute(top, back.x, back.y), [step]);
    RouteEndOne(back, step);
  }

  /** A pass from c ends one row and one column in from c. */
  lemma RingRouteEnd(c: Vec, xs: int, ys: int)
    ensures RouteEnd(c, RingRoute(c, xs, ys)) == Vec(c.x + 1, c.y + 1)
  {
    var top := Vec(c.x + xs, c.y + ys);
    CornerRouteEnd(c, top.x, top.y);
    ReturnRouteEnd(top, xs, ys);
    RouteEndAppend(c, CornerRoute(c, top.x, top.y), ReturnRoute(top, xs, ys));
  }

  /** A route of one call ends where the call does. */
  lemma RouteEndOne(p: Vec, l: Stretch)
    ensures RouteEnd(p, [l]) == LegEnd(p, l)
  {
    assert [l][1..] == [];
  }

  /** Reading route from the session s leaves the robot with t's heading,
      t's log and t's unread stream. */
  predicate Reads(s: Session, route: seq<Stretch>, t: Session) {
    RouteSpec(s.pos, s.heading, route, s.sent, Stream(s)) == Some((t.heading, t.sent, Stream(t)))
  }

  /** The stream of s holds every report and every empty pick-up reply
      the route asks for. */
  predicate Completes(s: Session, route: seq<Stretch>) {
    RouteSpec(s.pos, s.heading, route, s.sent, Stream(s)).Some?
  }

  /** A route read from s up to the session m that stands where its first
      part ends: the rest is read from m. */
  lemma ReadsThen(s: Session, first: seq<Stretch>, second: seq<Stretch>, m: Session)
    requires Reads(s, first, m) && m.pos == RouteEnd(s.pos, first)
    ensures forall t :: Reads(m, second, t) ==> Reads(s, first + second, t)
    ensures Completes(m, second) <==> Completes(s, first + second)
  {
    RouteAppend(s.pos, s.heading, first, second, s.sent, Stream(s));
  }

  /** A stream that cannot carry a route cannot carry any longer one. */
  lemma StopsEarly(s: Session, first: seq<Stretch>, second: seq<Stretch>)
    requires !Completes(s, first)
    ensures !Completes(s, first + second)
  {
    RouteAppend(s.pos, s.heading, first, second, s.sent, Stream(s));
  }

  /** A pass read in its two halves: the way out to the far corner top,
      then the way back from there. */
  lemma RingReads(s: Session, xs: int, ys: int, m: Session)
    requires m.pos == Vec(s.pos.x + xs, s.pos.y + ys)
    requires Reads(s, CornerRoute(s.pos, s.pos.x + xs, s.pos.y + ys), m)
    ensures forall t :: Reads(m, ReturnRoute(m.pos, xs, ys), t) ==> Reads(s, RingRoute(s.pos, xs, ys), t)
    ensures Completes(m, ReturnRoute(m.pos, xs, ys)) <==> Completes(s, RingRoute(s.pos, xs, ys))
  {
    CornerRouteEnd(s.pos, s.pos.x + xs, s.pos.y + ys);
    ReadsThen(s, CornerRoute(s.pos, s.pos.x + xs, s.pos.y + ys), ReturnRoute(m.pos, xs, ys), m);
  }

  /** A stream that cannot carry the way out of a pass cannot carry the
      pass. */
  lemma RingStops(s: Session, xs: int, ys: int)
    requires !Completes(s, CornerRoute(s.pos, s.pos.x + xs, s.pos.y + ys))
    ensures !Completes(s, RingRoute(s.pos, xs, ys))
  {
    StopsEarly(s, CornerRoute(s.pos, s.pos.x + xs, s.pos.y + ys), ReturnRoute(Vec(s.pos.x + xs, s.pos.y + ys), xs, ys));
  }

  /** A corner route read in its two calls. */
  lemma CornerReads(s: Session, gx: int, gy: int, m: Session)
    requires m.pos == Vec(gx, s.pos.y)
    requires Reads(s, [Stretch(X, Vec(gx, s.pos.y))], m)
    ensures forall t :: Reads(m, [Stretch(Y, Vec(m.pos.x, gy))], t) ==> Reads(s, CornerRoute(s.pos, gx, gy), t)
    ensures Completes(m, [Stretch(Y, Vec(m.pos.x, gy))]) <==> Completes(s, CornerRoute(s.pos, gx, gy))
  {
    var lx, ly := Stretch(X, Vec(gx, s.pos.y)), Stretch(Y, Vec(gx, gy));
    assert CornerRoute(s.pos, gx, gy) == [lx] + [ly];
    RouteEndOne(s.pos, lx);
    ReadsThen(s, [lx], [ly], m);
  }

  /** A stream that cannot carry the first call of a corner route cannot
      carry the route. */
  lemma CornerStops(s: Session, gx: int, gy: int)
    requires !Completes(s, [Stretch(X, Vec(gx, s.pos.y))])
    ensures !Completes(s, CornerRoute(s.pos, gx, gy))
  {
    var lx, ly := Stretch(X, Vec(gx, s.pos.y)), Stretch(Y, Vec(gx, gy));
    assert CornerRoute(s.pos, gx, gy) == [lx] + [ly];
    StopsEarly(s, [lx], [ly]);
  }

  /** The way back of a pass read in its two parts: the corner route to
      one row above the start, then the step right. */
  lemma ReturnReads(s: Session, xs: int, ys: int, m: Session)
    requires m.pos == Vec(s.pos.x - xs, s.pos.y - ys + 1)
    requires Reads(s, CornerRoute(s.pos, s.pos.x - xs, s.pos.y - ys + 1), m)
    ensures forall t :: Reads(m, [Stretch(X, Vec(m.pos.x + 1, m.pos.y))], t) ==> Reads(s, ReturnRoute(s.pos, xs, ys), t)
    ensures Completes(m, [Stretch(X, Vec(m.pos.x + 1, m.pos.y))]) <==> Completes(s, ReturnRoute(s.pos, xs, ys))
  {
    CornerRouteEnd(s.pos, s.pos.x - xs, s.pos.y - ys + 1);
    ReadsThen(s, CornerRoute(s.pos, s.pos.x - xs, s.pos.y - ys + 1), [Stretch(X, Vec(m.pos.x + 1, m.pos.y))], m);
  }

  /** A stream that cannot carry the corner route of the way back cannot
      carry the way back. */
  lemma ReturnStops(s: Session, xs: int, ys: int)
    requires !Completes(s, CornerRoute(s.pos, s.pos.x - xs, s.pos.y - ys + 1))
    ensures !Completes(s, ReturnRoute(s.pos, xs, ys))
  {
    StopsEarly(s, CornerRoute(s.pos, s.pos.x - xs, s.pos.y - ys + 1), [Stretch(X, Vec(s.pos.x - xs + 1, s.pos.y - ys + 1))]);
  }
}
