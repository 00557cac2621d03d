/** Reaching the goal zone and searching it: the heading is found from two
    position reports, the robot travels to the bottom-left corner of the
    zone, and then walks a spiral of two rings that ends in the centre,
    picking up on every cell it lands on. */
module Search {
  import opened Protocol
  import opened Geometry
  import opened State
  import opened Framer
  import opened Replies
  import opened Navigation
  import opened Routes

  /** The cells a robot at c lands on while travelling along x to gx and
      then along y to gy: two legs of turn_and_move that reach a corner. */
  function CornerCells(c: Vec, gx: int, gy: int): seq<Vec> {
    AxisLine(c, X, gx) + AxisLine(Vec(gx, c.y), Y, gy)
  }

  /** The corner reached after the first two legs of a pass from c. */
  function RingTop(c: Vec, xs: int, ys: int): Vec {
    Vec(c.x + xs, c.y + ys)
  }

  /** The cells landed on during the second half of a pass from top: left
      by xs and down by ys - 1, one row above the pass's start, then right
      by one onto the next ring's corner. */
  function ReturnCells(top: Vec, xs: int, ys: int): seq<Vec> {
    var back := Vec(top.x - xs, top.y - ys + 1);
    CornerCells(top, back.x, back.y) + AxisLine(back, X, back.x + 1)
  }

  /** The cells the robot lands on during one pass of the search loop from
      c with shifts xs and ys, in order: right by xs and up by ys, then the
      way back. */
  function RingCells(c: Vec, xs: int, ys: int): seq<Vec> {
    var top := RingTop(c, xs, ys);
    CornerCells(c, top.x, top.y) + ReturnCells(top, xs, ys)
  }

  /** The zone cells a robot at c picks up on while travelling along x to
      gx and then along y to gy, leg by leg. */
  function CornerProbed(c: Vec, gx: int, gy: int): seq<Vec> {
    LegProbed(c, X, gx) + LegProbed(Vec(gx, c.y), Y, gy)
  }

  /** The zone cells picked up on during the second half of a pass from
      top: left by xs, down by ys - 1, right by one. */
  function ReturnProbed(top: Vec, xs: int, ys: int): seq<Vec> {
    BackProbed(top, Vec(top.x - xs, top.y - ys + 1))
  }

  /** The zone cells picked up on from top down to back, then one step right. */
  function BackProbed(top: Vec, back: Vec): seq<Vec> {
    CornerProbed(top, back.x, back.y) + LegProbed(back, X, back.x + 1)
  }

  /** The way back of a pass, leg by leg. */
  lemma ReturnProbedSplit(top: Vec, xs: int, ys: int, back: Vec)
    requires back == Vec(top.x - xs, top.y - ys + 1)
    ensures ReturnProbed(top, xs, ys) == CornerProbed(top, back.x, back.y) + LegProbed(back, X, back.x + 1)
  {
  }

  /** The zone cells of RingCells, leg by leg. */
  function RingProbed(c: Vec, xs: int, ys: int): seq<Vec> {
    var top := RingTop(c, xs, ys);
    CornerProbed(c, top.x, top.y) + ReturnProbed(top, xs, ys)
  }

  /** Picking up leg by leg is picking up on both legs. */
  lemma CornerProbedIsProbed(c: Vec, gx: int, gy: int)
    ensures CornerProbed(c, gx, gy) == Probed(CornerCells(c, gx, gy))
  {
    LegProbedIsProbedLine(c, X, gx);
    LegProbedIsProbedLine(Vec(gx, c.y), Y, gy);
    ProbedAppend(AxisLine(c, X, gx), AxisLine(Vec(gx, c.y), Y, gy));
  }

  /** Picking up leg by leg is picking up on the way back. */
  lemma ReturnProbedIsProbed(top: Vec, xs: int, ys: int)
    ensures ReturnProbed(top, xs, ys) == Probed(ReturnCells(top, xs, ys))
  {
    var back := Vec(top.x - xs, top.y - ys + 1);
    CornerProbedIsProbed(top, back.x, back.y);
    LegProbedIsProbedLine(back, X, back.x + 1);
    ProbedAppend(CornerCells(top, back.x, back.y), AxisLine(back, X, back.x + 1));
  }

  /** Picking up leg by leg is picking up on the whole pass. */
  lemma RingProbedIsProbed(c: Vec, xs: int, ys: int)
    ensures RingProbed(c, xs, ys) == Probed(RingCells(c, xs, ys))
  {
    var top := RingTop(c, xs, ys);
    CornerProbedIsProbed(c, top.x, top.y);
    ReturnProbedIsProbed(top, xs, ys);
    ProbedAppend(CornerCells(c, top.x, top.y), ReturnCells(top, xs, ys));
  }

  /** The corner the k-th pass starts from and its shift (the same on both
      axes, the zone being square): (-2, -2) with 4, then (-1, -1) with 2. */
  function RingStart(k: nat): Vec {
    Vec(ZONE_LEFT + k, ZONE_BOTTOM + k)
  }

  function RingShift(k: nat): int {
    ZONE_RIGHT - ZONE_LEFT - 2 * k
  }

  /** The number of passes search_goal_zone makes: the shifts start at 4
      and drop by 2 while positive. */
  const PASSES: nat := 2

  /** The cells landed on during the first k passes. */
  function Rings(k: nat): seq<Vec> {
    if k == 0 then [] else Rings(k - 1) + RingCells(RingStart(k - 1), RingShift(k - 1), RingShift(k - 1))
  }

  /** No cell occurs twice. */
  predicate Distinct(cells: seq<Vec>) {
    forall i, j :: 0 <= i < j < |cells| ==> cells[i] != cells[j]
  }

  /** The cells of the outer ring, listed. */
  function OuterRing(): seq<Vec> {
    [Vec(-1, -2), Vec(0, -2), Vec(1, -2), Vec(2, -2), Vec(2, -1), Vec(2, 0), Vec(2, 1), Vec(2, 2),
     Vec(1, 2), Vec(0, 2), Vec(-1, 2), Vec(-2, 2), Vec(-2, 1), Vec(-2, 0), Vec(-2, -1), Vec(-1, -1)]
  }

  /** The cells of the inner ring, listed. */
  function InnerRing(): seq<Vec> {
    [Vec(0, -1), Vec(1, -1), Vec(1, 0), Vec(1, 1), Vec(0, 1), Vec(-1, 1), Vec(-1, 0), Vec(0, 0)]
  }

  /** The outer ring: the zone's border without its start corner, then
      one step inside. */
  lemma OuterRingIs()
    ensures RingCells(Vec(-2, -2), 4, 4) == OuterRing()
  {
    assert AxisLine(Vec(-2, -2), X, 2) == [Vec(-1, -2), Vec(0, -2), Vec(1, -2), Vec(2, -2)];
    assert AxisLine(Vec(2, -2), Y, 2) == [Vec(2, -1), Vec(2, 0), Vec(2, 1), Vec(2, 2)];
    assert AxisLine(Vec(2, 2), X, -2) == [Vec(1, 2), Vec(0, 2), Vec(-1, 2), Vec(-2, 2)];
    assert AxisLine(Vec(-2, 2), Y, -1) == [Vec(-2, 1), Vec(-2, 0), Vec(-2, -1)];
    assert AxisLine(Vec(-2, -1), X, -1) == [Vec(-1, -1)];
  }

  /** The inner ring: the border of the 3x3 middle without its start
      corner, then the centre. */
  lemma InnerRingIs()
    ensures RingCells(Vec(-1, -1), 2, 2) == InnerRing()
  {
    assert AxisLine(Vec(-1, -1), X, 1) == [Vec(0, -1), Vec(1, -1)];
    assert AxisLine(Vec(1, -1), Y, 1) == [Vec(1, 0), Vec(1, 1)];
    assert AxisLine(Vec(1, 1), X, -1) == [Vec(0, 1), Vec(-1, 1)];
    assert AxisLine(Vec(-1, 1), Y, 0) == [Vec(-1, 0)];
    assert AxisLine(Vec(-1, 0), X, 0) == [Vec(0, 0)];
  }

  /** The 3x3 middle of the zone. */
  predicate InMiddle(p: Vec) {
    -1 <= p.x <= 1 && -1 <= p.y <= 1
  }

  /** The outer ring lands on each cell of the zone's border but the start
      corner, and on the middle's corner (-1, -1). */
  lemma OuterRingMembers()
    ensures forall p :: p in OuterRing() <==> (InZone(p) && !InMiddle(p) && p != Corner) || p == Vec(-1, -1)
  {
  }

  lemma OuterRingDistinct()
    ensures Distinct(OuterRing())
  {
  }

  /** The inner ring lands on each cell of the middle but (-1, -1), once. */
  lemma InnerRingCovers()
    ensures Distinct(InnerRing())
    ensures forall p :: p in InnerRing() <==> InMiddle(p) && p != Vec(-1, -1)
  {
  }

  /** Two cell lists without repeats and without a common cell make one. */
  lemma DistinctAppend(a: seq<Vec>, b: seq<Vec>)
    requires Distinct(a) && Distinct(b)
    requires forall p :: p in a ==> p !in b
    ensures Distinct(a + b)
  {
    forall i, j | 0 <= i < j < |a + b|
      ensures (a + b)[i] != (a + b)[j]
    {
      if i < |a| && j >= |a| {
        assert (a + b)[i] in a && (a + b)[j] in b;
      }
    }
  }

  /** The cells of the spiral, listed: the outer ring, then the inner one. */
  function Spiral(): seq<Vec> {
    OuterRing() + InnerRing()
  }

  /** The passes of search_goal_zone land on the listed spiral. */
  lemma SpiralIsTwoRings()
    ensures Rings(PASSES) == Spiral()
  {
    assert RingStart(0) == Vec(-2, -2) && RingShift(0) == 4;
    assert RingStart(1) == Vec(-1, -1) && RingShift(1) == 2;
    calc {
      Rings(2);
      Rings(1) + RingCells(RingStart(1), RingShift(1), RingShift(1));
      Rings(0) + RingCells(RingStart(0), RingShift(0), RingShift(0)) + RingCells(RingStart(1), RingShift(1), RingShift(1));
      { OuterRingIs(); InnerRingIs(); }
      [] + OuterRing() + InnerRing();
    }
  }

  /** The spiral lands on 24 different cells, exactly the zone without its
      start corner, and ends in the centre. */
  lemma SpiralCoversZone()
    ensures |Spiral()| == 24 && Spiral()[23] == Zero
    ensures Distinct(Spiral())
    ensures forall p :: p in Spiral() <==> InZone(p) && p != Corner
  {
    OuterRingMembers();
    OuterRingDistinct();
    InnerRingCovers();
    DistinctAppend(OuterRing(), InnerRing());
  }

  /** Every cell of the spiral is in the zone, so each gets a PICK UP. */
  lemma SpiralIsProbed()
    ensures Probed(Rings(PASSES)) == Spiral()
  {
    SpiralIsTwoRings();
    SpiralStaysInZone(Rings(PASSES));
  }

  /** The spiral's cells all lie in the zone, so none is skipped. */
  lemma SpiralStaysInZone(cells: seq<Vec>)
    requires cells == Spiral()
    ensures Probed(cells) == cells
  {
    assert forall p :: p in OuterRing() ==> InZone(p);
    assert forall p :: p in InnerRing() ==> InZone(p);
    ProbedAllInZone(cells);
  }

  /** The last pass of the search loop is the one from RingStart(1) with
      shift 2 (the next shift is not positive), and its last leg goes from
      (-1, 0) right by one onto the centre: a real move that ends on x = 0,
      where the check `robot.x` as written fails after the whole zone has
      been searched. */
  lemma SpiralLastLegFailsAsWritten(k: nat)
    requires k + 1 == PASSES
    ensures var c, d := RingStart(k), RingShift(k);
      var top := RingTop(c, d, d);
      var back := Vec(top.x - d, top.y - d + 1);
      && d > 0 && RingShift(k + 1) <= 0
      && Rings(k + 1) == Rings(k) + CornerCells(c, top.x, top.y) + CornerCells(top, back.x, back.y)
                         + AxisLine(back, X, back.x + 1)
      && back == Vec(-1, 0) && back.x != back.x + 1
      && AxisLine(back, X, back.x + 1) == [Zero]
      && !LegCheckAsWritten(WithCoord(back, X, back.x + 1))
  {
    RingsLastLeg(k);
    var back := Vec(-1, 0);
    assert AxisLine(back, X, back.x + 1)[0] == Zero;
  }

  /** Pass k ends with the leg from one row above its start right by one. */
  /** Joining four runs does not depend on the grouping. */
  lemma JoinFour(r: seq<Vec>, a: seq<Vec>, b: seq<Vec>, l: seq<Vec>)
    ensures r + (a + (b + l)) == r + a + b + l
  {
  }

  lemma RingsLastLeg(k: nat)
    ensures var c, d := RingStart(k), RingShift(k);
      var top := RingTop(c, d, d);
      var back := Vec(top.x - d, top.y - d + 1);
      Rings(k + 1) == Rings(k) + CornerCells(c, top.x, top.y) + CornerCells(top, back.x, back.y)
                      + AxisLine(back, X, back.x + 1)
  {
    RingsStep(k);
    var c, d := RingStart(k), RingShift(k);
    var top := RingTop(c, d, d);
    var back := Vec(top.x - d, top.y - d + 1);
    var a, b, l := CornerCells(c, top.x, top.y), CornerCells(top, back.x, back.y), AxisLine(back, X, back.x + 1);
    assert RingCells(c, d, d) == a + (b + l);
    JoinFour(Rings(k), a, b, l);
  }

  /** The first two position reports of the approach, read off the
      client's stream t: the position reported after the first MOVE, the
      position send_move then reports, the MOVEs send_move sent, and the
      stream left. */
  function HeadingReports(t: string): Option<(Vec, Vec, seq<Command>, string)> {
    match OkReport(t)
    case None => None
    case Some((p, rest)) =>
      match MoveReport(p, rest)
      case None => None
      case Some((v, moves, rest2)) => Some((p, v, moves, rest2))
  }

  /** send_move sends only MOVEs: it adds no PICK UP to a log. */
  lemma SendMoveAddsNoPickUp(log: seq<Command>, pos: Vec, t: string)
    requires MoveReport(pos, t).Some?
    ensures PickUps(log + MoveReport(pos, t).value.1) == PickUps(log)
  {
    var moves := MoveReport(pos, t).value.1;
    assert moves == [Move] || moves == [Move, Move];
    PickUpsFree(log, moves);
  }

  /** The heading reports of a stream that starts with the report of p:
      those of the MOVE report that follows. */
  lemma HeadingReportsSplit(t: string, p: Vec, rest: string)
    requires OkReport(t) == Some((p, rest))
    ensures HeadingReports(t).Some? <==> MoveReport(p, rest).Some?
    ensures MoveReport(p, rest).Some? ==> var mr := MoveReport(p, rest).value;
      HeadingReports(t) == Some((p, mr.0, mr.1, mr.2))
  {
  }

  /** The first MOVE of the approach, which no obstacle can swallow: its
      reported position is taken as the robot's. */
  method FirstMove(s: Session) returns (r: Res<Vec>)
    ensures r.s.hash == s.hash && r.s.heading == s.heading && Grows(s, r.s)
    ensures r.Done? ==> OkReport(Stream(s)) == Some((r.value, Stream(r.s))) && r.s.pos == r.value
    ensures r.Done? ==> r.s.sent == s.sent + [Move] && PickUps(r.s.sent) == PickUps(s.sent)
    ensures r.Done? && s.timeout == TIMEOUT ==> r.s.timeout == TIMEOUT
    ensures r.Raised? ==> Aborts(r.exc)
    ensures Chunked(s) ==> (r.Done? <==> OkReport(Stream(s)).Some?)
    ensures Chunked(s) && r.Done? ==> Chunked(r.s)
  {
    var s0 := Send(s, Move);
    GrowsBy(s, s0, [Move]);
    var first := AwaitOk(s0);
    GrowsTrans(s, s0, first.s);
    if first.Raised? {
      return Raised(first.exc, first.s);
    }
    PickUpsAppend(s.sent, Move);
    return Done(first.value, first.s.(pos := first.value));
  }

  /** The rest of the heading step: send_move, and the difference between
      its report and the position the robot holds becomes the heading,
      which must not be zero. The robot then stands on the new report. */
  method TakeHeading(s: Session) returns (r: Res<()>)
    ensures r.s.hash == s.hash && Grows(s, r.s)
    ensures r.Done? ==> var mr := MoveReport(s.pos, Stream(s));
      mr.Some? && r.s.pos == mr.value.0 && r.s.sent == s.sent + mr.value.1 && Stream(r.s) == mr.value.2
    ensures r.Done? ==> r.s.heading != Zero && Advance(s.pos, r.s.heading) == r.s.pos
    ensures r.Done? ==> PickUps(r.s.sent) == PickUps(s.sent)
    ensures r.Done? && s.timeout == TIMEOUT ==> r.s.timeout == TIMEOUT
    ensures r.Raised? && r.exc == AssertionError ==> var mr := MoveReport(s.pos, Stream(s));
      mr.Some? && mr.value.0 == s.pos
    ensures r.Raised? ==> Aborts(r.exc) || r.exc == AssertionError
    ensures Chunked(s) ==> var mr := MoveReport(s.pos, Stream(s));
      && (r.Done? <==> mr.Some? && mr.value.0 != s.pos)
      && (mr.Some? && mr.value.0 == s.pos ==> r.Raised? && r.exc == AssertionError)
    ensures Chunked(s) && r.Done? ==> Chunked(r.s)
  {
    var moved := SendMove(s);
    if moved.Raised? {
      return Raised(moved.exc, moved.s);
    }
    var p, v := s.pos, moved.value;
    var heading := Vec(v.x - p.x, v.y - p.y);
    var s2 := moved.s.(heading := heading);
    if heading == Zero {
      return Raised(AssertionError, s2);
    }
    SendMoveAddsNoPickUp(s.sent, p, Stream(s));
    var s3 := s2.(pos := Advance(p, heading));
    assert s3.pos == v && Stream(s3) == Stream(moved.s);
    return Done((), s3);
  }

  /** The first half of move_to_goal_init_pos: the first MOVE, then the
      heading from send_move. The robot stands on the second report, and
      the first is the value. */
  method EstablishHeading(s: Session) returns (r: Res<Vec>)
    ensures r.s.hash == s.hash && Grows(s, r.s)
    ensures r.Done? ==> var hr := HeadingReports(Stream(s));
      hr.Some? && r.value == hr.value.0 && r.s.pos == hr.value.1 && Stream(r.s) == hr.value.3
    ensures r.Done? ==> r.s.heading != Zero && Advance(r.value, r.s.heading) == r.s.pos
    ensures r.Done? ==> r.s.sent == s.sent + [Move] + HeadingReports(Stream(s)).value.2
    ensures r.Done? ==> PickUps(r.s.sent) == PickUps(s.sent)
    ensures r.Done? && s.timeout == TIMEOUT ==> r.s.timeout == TIMEOUT
    ensures r.Raised? && r.exc == AssertionError ==> var hr := HeadingReports(Stream(s));
      hr.Some? && hr.value.1 == hr.value.0
    ensures r.Raised? ==> Aborts(r.exc) || r.exc == AssertionError
    ensures Chunked(s) ==> var hr := HeadingReports(Stream(s));
      && (r.Done? <==> hr.Some? && hr.value.1 != hr.value.0)
      && (hr.Some? && hr.value.1 == hr.value.0 ==> r.Raised? && r.exc == AssertionError)
    ensures Chunked(s) && r.Done? ==> Chunked(r.s)
  {
    var first := FirstMove(s);
    if first.Raised? {
      assert Chunked(s) ==> HeadingReports(Stream(s)).None? by {
        if Chunked(s) {
          assert OkReport(Stream(s)).None?;
        }
      }
      return Raised(first.exc, first.s);
    }
    var p, rest := first.value, Stream(first.s);
    assert OkReport(Stream(s)) == Some((p, rest));
    HeadingReportsSplit(Stream(s), p, rest);
    var taken := TakeHeading(first.s);
    GrowsTrans(s, first.s, taken.s);
    if taken.Raised? {
      return Raised(taken.exc, taken.s);
    }
    return Done(p, taken.s);
  }

  /** One turn_and_move leg as the search sees it: the robot ends with
      its axis coordinate on the goal's, having picked up on each zone
      cell of the way. */
  method Leg(s: Session, a: Axis, goal: Vec) returns (r: Res<seq<Vec>>)
    ensures r.s.hash == s.hash && Grows(s, r.s)
    ensures r.Done? ==> r.s.pos == WithCoord(s.pos, a, Coord(goal, a))
    ensures r.Done? ==> r.value == LegProbed(s.pos, a, Coord(goal, a))
    ensures r.Done? ==> PickUps(r.s.sent) == PickUps(s.sent) + |r.value|
    ensures r.Done? && s.timeout == TIMEOUT ==> r.s.timeout == TIMEOUT
    ensures r.Raised? && r.exc.MessageFound? ==> r.exc.text != "" && LastSent(r.s, PickUp) && InZone(r.s.pos)
    ensures r.Raised? ==> r.exc.MessageFound? || Aborts(r.exc)
    ensures r.Done? ==> Reads(s, [Stretch(a, goal)], r.s)
    ensures Chunked(s) ==> (r.Done? <==> Completes(s, [Stretch(a, goal)]))
    ensures Chunked(s) && r.Done? ==> Chunked(r.s)
  {
    r := TurnAndMove(s, a, goal);
    RouteOne(s.pos, s.heading, Stretch(a, goal), s.sent, Stream(s));
  }

  /** The zone cells the robot picks up on while travelling from p to the
      zone's bottom-left corner: first along x, then along y. */
  function Approach(p: Vec): seq<Vec> {
    LegProbed(p, X, Corner.x) + LegProbed(WithCoord(p, X, Corner.x), Y, Corner.y)
  }

  /** The two calls of turn_and_move that take the robot to the zone's
      bottom-left corner: along x, then along y, both aiming at it. */
  function ApproachRoute(): seq<Stretch> {
    [Stretch(X, Corner), Stretch(Y, Corner)]
  }

  /** The stream-level reading of move_to_goal_init_pos: the first MOVE's
      report p, the second MOVE's report v (which must differ from p, the
      difference being the heading), then the approach route from v. The
      result is the final heading, the log and the unread stream. */
  function ApproachSpec(log: seq<Command>, t: string): Option<(Vec, seq<Command>, string)> {
    ApproachAfter(HeadingReports(t), log, ApproachRoute())
  }

  /** The approach once the first two reports hr are read (None when they
      are missing): the route from the second report on the heading they
      show, with the MOVEs of send_move added to the log. */
  function ApproachAfter(hr: Option<(Vec, Vec, seq<Command>, string)>, log: seq<Command>, route: seq<Stretch>): Option<(Vec, seq<Command>, string)> {
    match hr
    case None => None
    case Some((p, v, moves, rest)) =>
      if v == p then None
      else RouteSpec(v, Vec(v.x - p.x, v.y - p.y), route, log + [Move] + moves, rest)
  }

  /** Once the heading is established, the rest of move_to_goal_init_pos
      reads the approach route from where the second report put the robot. */
  lemma ApproachFrom(s: Session, p: Vec, e: Session)
    requires var hr := HeadingReports(Stream(s));
      && hr.Some? && p == hr.value.0 && e.pos == hr.value.1 && Stream(e) == hr.value.3
      && e.sent == s.sent + [Move] + hr.value.2
    requires Advance(p, e.heading) == e.pos && e.heading != Zero
    ensures ApproachSpec(s.sent, Stream(s)) == RouteSpec(e.pos, e.heading, ApproachRoute(), e.sent, Stream(e))
  {
    AdvanceDelta(p, e.heading, e.pos);
    ApproachAfterReports(s, HeadingReports(Stream(s)).value, e);
  }

  /** ApproachFrom, with the two reports named. */
  lemma ApproachAfterReports(s: Session, hr: (Vec, Vec, seq<Command>, string), e: Session)
    requires HeadingReports(Stream(s)) == Some(hr)
    requires e.pos == hr.1 && Stream(e) == hr.3 && e.sent == s.sent + [Move] + hr.2
    requires e.heading == Vec(hr.1.x - hr.0.x, hr.1.y - hr.0.y) && hr.1 != hr.0
    ensures ApproachSpec(s.sent, Stream(s)) == RouteSpec(e.pos, e.heading, ApproachRoute(), e.sent, Stream(e))
  {
    ApproachOf(s.sent, Stream(s), hr);
  }

  /** ApproachSpec on a stream whose first two reports are hr. */
  lemma ApproachOf(log: seq<Command>, t: string, hr: (Vec, Vec, seq<Command>, string))
    requires HeadingReports(t) == Some(hr) && hr.1 != hr.0
    ensures ApproachSpec(log, t) == RouteSpec(hr.1, Vec(hr.1.x - hr.0.x, hr.1.y - hr.0.y), ApproachRoute(), log + [Move] + hr.2, hr.3)
  {
    ApproachAfterSome(log, t, hr);
    ApproachAfterMoved(log, hr, ApproachRoute());
  }

  /** A stream whose first two reports are hr is approached after them. */
  lemma ApproachAfterSome(log: seq<Command>, t: string, hr: (Vec, Vec, seq<Command>, string))
    requires HeadingReports(t) == Some(hr)
    ensures ApproachSpec(log, t) == ApproachAfter(Some(hr), log, ApproachRoute())
  {
  }

  /** Two distinct reports give the route from the second. */
  lemma ApproachAfterMoved(log: seq<Command>, hr: (Vec, Vec, seq<Command>, string), route: seq<Stretch>)
    requires hr.1 != hr.0
    ensures ApproachAfter(Some(hr), log, route) == RouteSpec(hr.1, Vec(hr.1.x - hr.0.x, hr.1.y - hr.0.y), route, log + [Move] + hr.2, hr.3)
  {
  }

  /** The heading that carries p to q. */
  lemma AdvanceDelta(p: Vec, h: Vec, q: Vec)
    requires Advance(p, h) == q
    ensures h == Vec(q.x - p.x, q.y - p.y)
    ensures h != Zero <==> q != p
  {
  }

  /** The second half of move_to_goal_init_pos: travel along x and then
      along y to the zone's bottom-left corner, picking up on every zone
      cell on the way. */
  method ApproachCorner(s: Session) returns (r: Res<seq<Vec>>)
    ensures r.s.hash == s.hash && Grows(s, r.s)
    ensures r.Done? ==> r.s.pos == Corner && r.value == Approach(s.pos)
    ensures r.Done? ==> PickUps(r.s.sent) == PickUps(s.sent) + |r.value|
    ensures r.Done? && s.timeout == TIMEOUT ==> r.s.timeout == TIMEOUT
    ensures r.Raised? && r.exc.MessageFound? ==> r.exc.text != "" && LastSent(r.s, PickUp) && InZone(r.s.pos)
    ensures r.Raised? ==> r.exc.MessageFound? || Aborts(r.exc)
    ensures r.Done? ==> Reads(s, ApproachRoute(), r.s)
    ensures Chunked(s) ==> (r.Done? <==> Completes(s, ApproachRoute()))
    ensures Chunked(s) && r.Done? ==> Chunked(r.s)
  {
    var lx, ly := Stretch(X, Corner), Stretch(Y, Corner);
    assert ApproachRoute() == [lx] + [ly];
    var alongX := Leg(s, X, Corner);
    if alongX.Raised? {
      if Chunked(s) {
        StopsEarly(s, [lx], [ly]);
      }
      return Raised(alongX.exc, alongX.s);
    }
    RouteEndOne(s.pos, lx);
    ReadsThen(s, [lx], [ly], alongX.s);
    var alongY := Leg(alongX.s, Y, Corner);
    GrowsTrans(s, alongX.s, alongY.s);
    if alongY.Raised? {
      return Raised(alongY.exc, alongY.s);
    }
    return Done(alongX.value + alongY.value, alongY.s);
  }

  /** move_to_goal_init_pos: establish the heading from the first two
      reports, then travel to the zone's bottom-left corner, picking up on
      the zone cells of the way from the second report. */
  method MoveToGoalInitPos(s: Session) returns (r: Res<seq<Vec>>)
    ensures r.s.hash == s.hash && Grows(s, r.s)
    ensures r.Done? ==> r.s.pos == Corner
    ensures r.Done? ==> var hr := HeadingReports(Stream(s));
      hr.Some? && r.value == Approach(hr.value.1)
    ensures r.Done? ==> PickUps(r.s.sent) == PickUps(s.sent) + |r.value|
    ensures r.Done? && s.timeout == TIMEOUT ==> r.s.timeout == TIMEOUT
    ensures r.Raised? && r.exc == AssertionError ==> var hr := HeadingReports(Stream(s));
      hr.Some? && hr.value.1 == hr.value.0
    ensures r.Raised? && r.exc.MessageFound? ==> r.exc.text != "" && LastSent(r.s, PickUp) && InZone(r.s.pos)
    ensures r.Raised? ==> r.exc.MessageFound? || Aborts(r.exc) || r.exc == AssertionError
    ensures r.Done? ==> ApproachSpec(s.sent, Stream(s)) == Some((r.s.heading, r.s.sent, Stream(r.s)))
    ensures Chunked(s) ==> (r.Done? <==> ApproachSpec(s.sent, Stream(s)).Some?)
    ensures Chunked(s) && r.Done? ==> Chunked(r.s)
  {
    var est := EstablishHeading(s);
    if est.Raised? {
      return Raised(est.exc, est.s);
    }
    ApproachFrom(s, est.value, est.s);
    r := ApproachCorner(est.s);
    GrowsTrans(s, est.s, r.s);
  }


  /** Two legs of turn_and_move: along x to gx, then along y to gy. (The
      source computes the second goal after the first leg, from a y the
      first leg leaves alone.) */
  method CornerLegs(s: Session, gx: int, gy: int) returns (r: Res<seq<Vec>>)
    ensures r.s.hash == s.hash && Grows(s, r.s)
    ensures r.Done? ==> r.s.pos == Vec(gx, gy)
    ensures r.Done? ==> r.value == CornerProbed(s.pos, gx, gy)
    ensures r.Done? ==> PickUps(r.s.sent) == PickUps(s.sent) + |r.value|
    ensures r.Done? && s.timeout == TIMEOUT ==> r.s.timeout == TIMEOUT
    ensures r.Raised? && r.exc.MessageFound? ==> r.exc.text != "" && LastSent(r.s, PickUp) && InZone(r.s.pos)
    ensures r.Raised? ==> r.exc.MessageFound? || Aborts(r.exc)
    ensures r.Done? ==> Reads(s, CornerRoute(s.pos, gx, gy), r.s)
    ensures Chunked(s) ==> (r.Done? <==> Completes(s, CornerRoute(s.pos, gx, gy)))
    ensures Chunked(s) && r.Done? ==> Chunked(r.s)
  {
    var alongX := Leg(s, X, Vec(gx, s.pos.y));
    if alongX.Raised? {
      if Chunked(s) {
        CornerStops(s, gx, gy);
      }
      return Raised(alongX.exc, alongX.s);
    }
    var t := alongX.s;
    CornerReads(s, gx, gy, t);
    var alongY := Leg(t, Y, Vec(t.pos.x, gy));
    GrowsTrans(s, t, alongY.s);
    if alongY.Raised? {
      return Raised(alongY.exc, alongY.s);
    }
    return Done(alongX.value + alongY.value, alongY.s);
  }

  /** The second half of a pass: two legs back to one row above the
      start, then one step right onto the next ring's corner. */
  method ReturnLegs(s: Session, xs: int, ys: int) returns (r: Res<seq<Vec>>)
    ensures r.s.hash == s.hash && Grows(s, r.s)
    ensures r.Done? ==> r.s.pos == Vec(s.pos.x - xs + 1, s.pos.y - ys + 1)
    ensures r.Done? ==> r.value == ReturnProbed(s.pos, xs, ys)
    ensures r.Done? ==> PickUps(r.s.sent) == PickUps(s.sent) + |r.value|
    ensures r.Done? && s.timeout == TIMEOUT ==> r.s.timeout == TIMEOUT
    ensures r.Raised? && r.exc.MessageFound? ==> r.exc.text != "" && LastSent(r.s, PickUp) && InZone(r.s.pos)
    ensures r.Raised? ==> r.exc.MessageFound? || Aborts(r.exc)
    ensures r.Done? ==> Reads(s, ReturnRoute(s.pos, xs, ys), r.s)
    ensures Chunked(s) ==> (r.Done? <==> Completes(s, ReturnRoute(s.pos, xs, ys)))
    ensures Chunked(s) && r.Done? ==> Chunked(r.s)
  {
    var back := CornerLegs(s, s.pos.x - xs, s.pos.y - ys + 1);
    if back.Raised? {
      if Chunked(s) {
        ReturnStops(s, xs, ys);
      }
      return Raised(back.exc, back.s);
    }
    var u := back.s;
    ReturnReads(s, xs, ys, u);
    ReturnProbedSplit(s.pos, xs, ys, u.pos);
    var step := Leg(u, X, Vec(u.pos.x + 1, u.pos.y));
    GrowsTrans(s, u, step.s);
    if step.Raised? {
      return Raised(step.exc, step.s);
    }
    return Done(back.value + step.value, step.s);
  }

  /** One pass of the loop of search_goal_zone from c with shifts xs and
      ys: five turn_and_move legs, each goal computed from where the robot
      stands. The robot ends on the next ring's corner, having picked up
      on each zone cell of the pass. */
  method Ring(s: Session, xs: int, ys: int) returns (r: Res<seq<Vec>>)
    ensures r.s.hash == s.hash && Grows(s, r.s)
    ensures r.Done? ==> r.s.pos == Vec(s.pos.x + 1, s.pos.y + 1)
    ensures r.Done? ==> r.value == RingProbed(s.pos, xs, ys)
    ensures r.Done? ==> PickUps(r.s.sent) == PickUps(s.sent) + |r.value|
    ensures r.Done? && s.timeout == TIMEOUT ==> r.s.timeout == TIMEOUT
    ensures r.Raised? && r.exc.MessageFound? ==> r.exc.text != "" && LastSent(r.s, PickUp) && InZone(r.s.pos)
    ensures r.Raised? ==> r.exc.MessageFound? || Aborts(r.exc)
    ensures r.Done? ==> Reads(s, RingRoute(s.pos, xs, ys), r.s)
    ensures Chunked(s) ==> (r.Done? <==> Completes(s, RingRoute(s.pos, xs, ys)))
    ensures Chunked(s) && r.Done? ==> Chunked(r.s)
  {
    var out := CornerLegs(s, s.pos.x + xs, s.pos.y + ys);
    if out.Raised? {
      if Chunked(s) {
        RingStops(s, xs, ys);
      }
      return Raised(out.exc, out.s);
    }
    var t := out.s;
    RingReads(s, xs, ys, t);
    var home := ReturnLegs(t, xs, ys);
    GrowsTrans(s, t, home.s);
    if home.Raised? {
      return Raised(home.exc, home.s);
    }
    return Done(out.value + home.value, home.s);
  }

  /** The spiral grows by one pass at a time. */
  lemma RingsStep(k: nat)
    ensures Rings(k + 1) == Rings(k) + RingCells(RingStart(k), RingShift(k), RingShift(k))
  {
  }

  /** Picked-up cells of two stretches of a path, joined, are those of the
      joined path. */
  lemma ProbedJoin(seen: seq<Vec>, more: seq<Vec>, path: seq<Vec>, next: seq<Vec>)
    requires seen == Probed(path) && more == Probed(next)
    ensures seen + more == Probed(path + next)
  {
    ProbedAppend(path, next);
  }

  /** The pick-ups of one more pass extend those of the spiral so far. */
  lemma PassProbed(k: nat, cells: seq<Vec>, more: seq<Vec>)
    requires cells == Probed(Rings(k)) && more == RingProbed(RingStart(k), RingShift(k), RingShift(k))
    ensures cells + more == Probed(Rings(k + 1))
  {
    var c, d := RingStart(k), RingShift(k);
    RingProbedIsProbed(c, d, d);
    RingsStep(k);
    ProbedJoin(cells, more, Rings(k), RingCells(c, d, d));
  }

  /** The calls of turn_and_move of pass k. */
  function PassRoute(k: nat): seq<Stretch> {
    RingRoute(RingStart(k), RingShift(k), RingShift(k))
  }

  /** The calls of turn_and_move of the first k passes. */
  function Passes(k: nat): seq<Stretch> {
    if k == 0 then [] else Passes(k - 1) + PassRoute(k - 1)
  }

  /** Every call of turn_and_move search_goal_zone makes. */
  function SweepRoute(): seq<Stretch> {
    Passes(PASSES)
  }

  /** The first k passes end on the corner of ring k. */
  lemma {:induction false} PassesEnd(k: nat)
    ensures RouteEnd(Corner, Passes(k)) == RingStart(k)
  {
    if k > 0 {
      PassesEnd(k - 1);
      RouteEndAppend(Corner, Passes(k - 1), PassRoute(k - 1));
      RingRouteEnd(RingStart(k - 1), RingShift(k - 1), RingShift(k - 1));
    }
  }

  /** The first k + 1 passes read as the first k, then pass k from the
      corner of ring k. */
  lemma SweepReads(s: Session, k: nat, t: Session)
    requires s.pos == Corner && t.pos == RingStart(k) && Reads(s, Passes(k), t)
    ensures forall u :: Reads(t, PassRoute(k), u) ==> Reads(s, Passes(k + 1), u)
    ensures Completes(t, PassRoute(k)) <==> Completes(s, Passes(k + 1))
  {
    PassesEnd(k);
    ReadsThen(s, Passes(k), PassRoute(k), t);
    assert Passes(k + 1) == Passes(k) + PassRoute(k);
  }

  /** The state of the loop of search_goal_zone from s after k passes:
      the robot t on the corner of ring k, the cells picked up so far, and
      the first k passes read off the stream. */
  predicate Swept(s: Session, k: nat, t: Session, cells: seq<Vec>) {
    && s.pos == Corner && k <= PASSES
    && t.pos == RingStart(k) && cells == Probed(Rings(k))
    && t.hash == s.hash && Grows(s, t)
    && PickUps(t.sent) == PickUps(s.sent) + |cells|
    && (s.timeout == TIMEOUT ==> t.timeout == TIMEOUT)
    && Reads(s, Passes(k), t)
    && (Chunked(s) ==> Chunked(t))
  }

  /** A completed pass k extends the loop's state by one pass. */
  lemma SweptOneMore(s: Session, k: nat, t: Session, cells: seq<Vec>, pass: Res<seq<Vec>>)
    requires Swept(s, k, t, cells) && k < PASSES && pass.Done?
    requires pass.s.hash == t.hash && Grows(s, pass.s) && pass.s.pos == RingStart(k + 1)
    requires Probed(Rings(k)) + pass.value == Probed(Rings(k + 1))
    requires PickUps(pass.s.sent) == PickUps(t.sent) + |pass.value|
    requires t.timeout == TIMEOUT ==> pass.s.timeout == TIMEOUT
    requires Reads(s, Passes(k + 1), pass.s)
    requires Chunked(t) ==> Chunked(pass.s)
    ensures Swept(s, k + 1, pass.s, cells + pass.value)
  {
  }

  /** After the last pass, the passes read are the whole sweep. */
  lemma SweepRead(s: Session, k: nat, t: Session)
    requires k == PASSES && Reads(s, Passes(k), t)
    ensures Reads(s, SweepRoute(), t)
  {
  }

  /** A stream that cannot carry some of the passes cannot carry the
      sweep. */
  lemma SweepStops(s: Session, k: nat)
    requires k <= PASSES && !Completes(s, Passes(k))
    ensures !Completes(s, SweepRoute())
  {
    StopsEarlyPasses(s, k, PASSES);
  }

  /** A stream that cannot carry the first k passes cannot carry the
      first n. */
  lemma {:induction false} StopsEarlyPasses(s: Session, k: nat, n: nat)
    requires k <= n && !Completes(s, Passes(k))
    ensures !Completes(s, Passes(n))
    decreases n - k
  {
    if k < n {
      StopsEarly(s, Passes(k), PassRoute(k));
      assert Passes(k + 1) == Passes(k) + PassRoute(k);
      StopsEarlyPasses(s, k + 1, n);
    }
  }

  /** Pass k of the spiral: the robot stands on the k-th ring's corner
      and makes one pass with that ring's shift. The pick-ups extend those
      of the first k passes to those of the first k + 1. */
  method Pass(s: Session, k: nat) returns (r: Res<seq<Vec>>)
    requires s.pos == RingStart(k)
    ensures r.s.hash == s.hash && Grows(s, r.s)
    ensures r.Done? ==> r.s.pos == RingStart(k + 1)
    ensures r.Done? ==> Probed(Rings(k)) + r.value == Probed(Rings(k + 1))
    ensures r.Done? ==> PickUps(r.s.sent) == PickUps(s.sent) + |r.value|
    ensures r.Done? && s.timeout == TIMEOUT ==> r.s.timeout == TIMEOUT
    ensures r.Raised? ==> r.exc.MessageFound? || Aborts(r.exc)
    ensures r.Raised? && r.exc.MessageFound? ==> r.exc.text != "" && LastSent(r.s, PickUp) && InZone(r.s.pos)
    ensures r.Done? ==> Reads(s, PassRoute(k), r.s)
    ensures Chunked(s) ==> (r.Done? <==> Completes(s, PassRoute(k)))
    ensures Chunked(s) && r.Done? ==> Chunked(r.s)
  {
    r := Ring(s, RingShift(k), RingShift(k));
    if r.Done? {
      PassProbed(k, Probed(Rings(k)), r.value);
    }
  }

  /** Once the shifts stop being positive, the passes are over: the robot
      stands in the centre and has probed the whole spiral. */
  lemma SweepEnds(k: nat, cells: seq<Vec>)
    requires k <= PASSES && RingShift(k) <= 0 && cells == Probed(Rings(k))
    ensures RingStart(k) == Zero && cells == Spiral()
  {
    assert k == PASSES;
    SpiralIsProbed();
  }

  /** The loop of search_goal_zone from the zone's bottom-left corner:
      passes with shifts 4 and then 2 while both shifts are positive.
      Unless a pick-up finds the message, the robot ends in the centre
      having picked up once on each cell of the spiral. */
  method Sweep(s: Session) returns (r: Res<seq<Vec>>)
    requires s.pos == Corner
    ensures r.s.hash == s.hash && Grows(s, r.s)
    ensures r.Done? ==> r.s.pos == Zero && r.value == Spiral()
    ensures r.Done? ==> PickUps(r.s.sent) == PickUps(s.sent) + |r.value|
    ensures r.Done? && s.timeout == TIMEOUT ==> r.s.timeout == TIMEOUT
    ensures r.Raised? ==> r.exc.MessageFound? || Aborts(r.exc)
    ensures r.Raised? && r.exc.MessageFound? ==> r.exc.text != "" && LastSent(r.s, PickUp) && InZone(r.s.pos)
    ensures r.Done? ==> Reads(s, SweepRoute(), r.s)
    ensures Chunked(s) ==> (r.Done? <==> Completes(s, SweepRoute()))
    ensures Chunked(s) && r.Done? ==> Chunked(r.s)
  {
    var xs, ys := ZONE_RIGHT - ZONE_LEFT, ZONE_TOP - ZONE_BOTTOM;
    var t, cells := s, [];
    var k: nat := 0;
    while xs > 0 && ys > 0
      invariant xs == RingShift(k) && ys == xs
      invariant Swept(s, k, t, cells)
      decreases xs
    {
      SweepReads(s, k, t);
      var pass := Pass(t, k);
      GrowsTrans(s, t, pass.s);
      if pass.Raised? {
        if Chunked(s) {
          SweepStops(s, k + 1);
        }
        return Raised(pass.exc, pass.s);
      }
      SweptOneMore(s, k, t, cells, pass);
      cells, t := cells + pass.value, pass.s;
      xs, ys, k := xs - 2, ys - 2, k + 1;
    }
    SweepEnds(k, cells);
    SweepRead(s, k, t);
    return Done(cells, t);
  }

  /** search_goal_zone: the entry assertion that the robot stands on the
      zone's bottom-left corner, then the sweep. */
  method SearchGoalZone(s: Session) returns (r: Res<seq<Vec>>)
    ensures r.s.hash == s.hash && Grows(s, r.s)
    ensures r.Done? ==> s.pos == Corner && r.s.pos == Zero && r.value == Spiral()
    ensures r.Done? ==> PickUps(r.s.sent) == PickUps(s.sent) + |r.value|
    ensures r.Done? && s.timeout == TIMEOUT ==> r.s.timeout == TIMEOUT
    ensures r.Raised? && r.exc == AssertionError ==> s.pos != Corner && r.s == s
    ensures s.pos != Corner ==> r == Raised(AssertionError, s)
    ensures r.Raised? && r.exc.MessageFound? ==> r.exc.text != "" && LastSent(r.s, PickUp) && InZone(r.s.pos)
    ensures r.Raised? ==> r.exc.MessageFound? || Aborts(r.exc) || r.exc == AssertionError
    ensures r.Done? ==> Reads(s, SweepRoute(), r.s)
    ensures Chunked(s) ==> (r.Done? <==> s.pos == Corner && Completes(s, SweepRoute()))
    ensures Chunked(s) && r.Done? ==> Chunked(r.s)
  {
    if s.pos != Corner {
      return Raised(AssertionError, s);
    }
    r := Sweep(s);
  }
}
