/** Positions and headings on the integer grid, the robot's two rotations,
    the goal zone, and the straight runs of cells the robot moves through. */
module Geometry {
  import opened Protocol

  /** A grid position or a heading: the (x, y) pairs and the `Direction`
      named tuple of the server. */
  datatype Vec = Vec(x: int, y: int)

  const Zero: Vec := Vec(0, 0)

  /** The bottom-left cell of the goal zone, where the search starts. */
  const Corner: Vec := Vec(ZONE_LEFT, ZONE_BOTTOM)

  /** One of the four headings (1,0), (-1,0), (0,1), (0,-1) a robot can have. */
  predicate IsUnit(v: Vec) {
    (v.x == 0 && (v.y == 1 || v.y == -1)) || (v.y == 0 && (v.x == 1 || v.x == -1))
  }

  /** Robot.turn_left: a quarter turn counter-clockwise. */
  function RotateLeft(v: Vec): Vec {
    Vec(-v.y, v.x)
  }

  /** Robot.turn_right: a quarter turn clockwise. */
  function RotateRight(v: Vec): Vec {
    Vec(v.y, -v.x)
  }

  /** The two rotations undo each other and keep the four headings among
      themselves (and everything else outside them). */
  lemma RotationsAreInverse(v: Vec)
    ensures RotateRight(RotateLeft(v)) == v
    ensures RotateLeft(RotateRight(v)) == v
    ensures IsUnit(RotateLeft(v)) <==> IsUnit(v)
    ensures IsUnit(RotateRight(v)) <==> IsUnit(v)
  {
  }

  /** k successive left turns. */
  function RotateLeftN(v: Vec, k: nat): Vec {
    if k == 0 then v else RotateLeft(RotateLeftN(v, k - 1))
  }

  /** Four quarter turns to the left bring a heading back; three of them
      are one turn to the right. */
  lemma FourLeftsIsIdentity(v: Vec)
    ensures RotateLeftN(v, 3) == RotateRight(v)
    ensures RotateLeftN(v, 4) == v
  {
    assert RotateLeftN(v, 1) == RotateLeft(v);
    assert RotateLeftN(v, 2) == RotateLeft(RotateLeft(v));
  }

  /** A left turn followed by k more is k + 1 left turns. */
  lemma {:induction false} RotateLeftNShift(v: Vec, k: nat)
    ensures RotateLeftN(RotateLeft(v), k) == RotateLeftN(v, k + 1)
  {
    if k > 0 {
      RotateLeftNShift(v, k - 1);
    }
  }

  /** Four quarter turns to the right bring a heading back as well. */
  lemma FourRightsIsIdentity(v: Vec)
    ensures RotateRight(RotateRight(RotateRight(RotateRight(v)))) == v
  {
  }

  /** Left turns never turn a non-unit heading into a unit one. */
  lemma {:induction false} RotateLeftNKeepsUnit(v: Vec, k: nat)
    ensures IsUnit(RotateLeftN(v, k)) <==> IsUnit(v)
  {
    if k > 0 {
      RotateLeftNKeepsUnit(v, k - 1);
      var w := RotateLeftN(v, k - 1);
      assert RotateLeftN(v, k) == RotateLeft(w);
      assert IsUnit(RotateLeft(w)) <==> IsUnit(w);
    }
  }

  /** h after q < 4 left turns, spelled out: three left turns are one
      right turn. */
  function Turned(h: Vec, q: nat): Vec
    requires q < 4
  {
    if q == 0 then h
    else if q == 1 then RotateLeft(h)
    else if q == 2 then RotateLeft(RotateLeft(h))
    else RotateRight(h)
  }

  /** Turned agrees with counting the left turns one by one. */
  lemma TurnedIsRotateLeftN(h: Vec, q: nat)
    requires q < 4
    ensures Turned(h, q) == RotateLeftN(h, q)
  {
    FourLeftsIsIdentity(h);
    assert RotateLeftN(h, 1) == RotateLeft(h);
    assert RotateLeftN(h, 2) == RotateLeft(RotateLeft(h));
  }

  /** One more left turn moves one step round the cycle of four. */
  lemma TurnedCycle(h: Vec, q: nat)
    requires q < 4
    ensures RotateLeft(Turned(h, q)) == Turned(h, if q == 3 then 0 else q + 1)
  {
  }

  /** None of the first k left-turn positions of h (h itself, then one
      turn, two, three) is t; past four there are no new ones. */
  predicate MissedBefore(h: Vec, t: Vec, k: nat) {
    && (k > 0 ==> Turned(h, 0) != t)
    && (k > 1 ==> Turned(h, 1) != t)
    && (k > 2 ==> Turned(h, 2) != t)
    && (k > 3 ==> Turned(h, 3) != t)
  }

  /** The four unit headings, listed. */
  lemma UnitCases(v: Vec)
    requires IsUnit(v)
    ensures v == Vec(1, 0) || v == Vec(0, 1) || v == Vec(-1, 0) || v == Vec(0, -1)
  {
  }

  /** The four headings form one cycle under left turns: each is reached
      from each other in fewer than four. */
  lemma UnitsFormOneCycle(h: Vec, t: Vec)
    requires IsUnit(h) && IsUnit(t)
    ensures !MissedBefore(h, t, 4)
  {
    UnitCases(h);
    UnitCases(t);
    var q: nat;
    if t == h {
      q := 0;
    } else if t == Vec(-h.y, h.x) {
      q := 1;
    } else if t == Vec(-h.x, -h.y) {
      q := 2;
    } else {
      q := 3;
    }
    assert Turned(h, q) == t;
  }

  /** Left turns never bring a heading outside the four onto one of them. */
  lemma NonUnitNeverAligns(h: Vec, t: Vec)
    requires !IsUnit(h) && IsUnit(t)
    ensures MissedBefore(h, t, 4)
  {
    RotationsAreInverse(h);
    RotationsAreInverse(RotateLeft(h));
  }

  /** Robot.move: one step along the heading. */
  function Advance(p: Vec, h: Vec): Vec {
    Vec(p.x + h.x, p.y + h.y)
  }

  /** The goal zone, [-2, 2] x [-2, 2]; Python's `range(L, R + 1)` holds L..R. */
  predicate InZone(p: Vec) {
    ZONE_LEFT <= p.x <= ZONE_RIGHT && ZONE_BOTTOM <= p.y <= ZONE_TOP
  }

  /** The two axes the robot travels along, one after the other. */
  datatype Axis = X | Y

  function Coord(p: Vec, a: Axis): int {
    if a == X then p.x else p.y
  }

  /** p with its coordinate on axis a replaced by g. */
  function WithCoord(p: Vec, a: Axis, g: int): (q: Vec)
    ensures Coord(q, a) == g
    ensures a == X ==> q.y == p.y
    ensures a == Y ==> q.x == p.x
  {
    if a == X then Vec(g, p.y) else Vec(p.x, g)
  }

  /** -1, 0 or 1: the direction of travel from a coordinate to a goal. */
  function Sign(d: int): int {
    if d > 0 then 1 else if d < 0 then -1 else 0
  }

  function Abs(d: int): nat {
    if d < 0 then -d else d
  }

  /** The heading that points along axis a, in direction d. */
  function AxisDir(a: Axis, d: int): Vec {
    if a == X then Vec(d, 0) else Vec(0, d)
  }

  /** The heading needed to travel from p towards coordinate g on axis a. */
  function Toward(p: Vec, a: Axis, g: int): Vec {
    AxisDir(a, Sign(g - Coord(p, a)))
  }

  /** The i-th cell (from 0) a robot at p lands on while travelling along
      axis a towards coordinate g: i + 1 steps on, the other coordinate
      untouched. */
  function LineCell(p: Vec, a: Axis, g: int, i: int): Vec {
    var c := Coord(p, a);
    WithCoord(p, a, if c < g then c + i + 1 else c - i - 1)
  }

  /** The cells a robot at p lands on, one step at a time, while travelling
      along axis a until that coordinate equals g. */
  function AxisLine(p: Vec, a: Axis, g: int): (cells: seq<Vec>)
    ensures |cells| == Abs(g - Coord(p, a))
  {
    seq(Abs(g - Coord(p, a)), i => LineCell(p, a, g, i))
  }

  /** After one step towards g, the rest of the run is the run from there. */
  lemma LineCellShift(p: Vec, a: Axis, g: int, i: int)
    requires 0 <= i && i + 1 < Abs(g - Coord(p, a))
    ensures LineCell(p, a, g, i + 1) == LineCell(Advance(p, Toward(p, a, g)), a, g, i)
  {
  }

  /** A run is its first step followed by the run from the cell that step
      lands on: the cells are those of the robot's moving loop, one MOVE
      along the heading towards g at a time. */
  lemma AxisLineStep(p: Vec, a: Axis, g: int)
    requires Coord(p, a) != g
    ensures AxisLine(p, a, g) == [Advance(p, Toward(p, a, g))] + AxisLine(Advance(p, Toward(p, a, g)), a, g)
  {
    var q := Advance(p, Toward(p, a, g));
    var whole, rest := AxisLine(p, a, g), AxisLine(q, a, g);
    assert |whole| == 1 + |rest|;
    forall i | 0 <= i < |whole|
      ensures whole[i] == ([q] + rest)[i]
    {
      if i > 0 {
        LineCellShift(p, a, g, i - 1);
      }
    }
  }

  /** A run ends on the goal coordinate, with the other coordinate untouched. */
  lemma AxisLineEnd(p: Vec, a: Axis, g: int)
    requires Coord(p, a) != g
    ensures AxisLine(p, a, g)[|AxisLine(p, a, g)| - 1] == WithCoord(p, a, g)
  {
  }

  /** The cells of a run that lie in the goal zone, in order: those where
      the robot is asked to pick up. */
  function Probed(cells: seq<Vec>): (r: seq<Vec>)
    ensures |r| <= |cells|
  {
    if cells == [] then []
    else (if InZone(cells[0]) then [cells[0]] else []) + Probed(cells[1..])
  }

  /** Exactly the zone cells of a run are probed. */
  lemma {:induction false} ProbedMembers(cells: seq<Vec>)
    ensures forall p :: p in Probed(cells) <==> p in cells && InZone(p)
  {
    if cells != [] {
      ProbedMembers(cells[1..]);
      assert cells == [cells[0]] + cells[1..];
    }
  }

  /** A run that stays in the zone is probed on every cell. */
  lemma {:induction false} ProbedAllInZone(cells: seq<Vec>)
    requires forall p :: p in cells ==> InZone(p)
    ensures Probed(cells) == cells
  {
    if cells != [] {
      assert cells[0] in cells;
      ProbedAllInZone(cells[1..]);
      assert cells == [cells[0]] + cells[1..];
    }
  }

  /** Probing a run in two parts probes each part in turn. */
  lemma {:induction false} ProbedAppend(a: seq<Vec>, b: seq<Vec>)
    ensures Probed(a + b) == Probed(a) + Probed(b)
  {
    if a == [] {
      assert a + b == b;
    } else {
      var ab, head := a + b, if InZone(a[0]) then [a[0]] else [];
      assert ab[0] == a[0] && ab[1..] == a[1..] + b;
      ProbedAppend(a[1..], b);
      calc {
        Probed(ab);
        head + Probed(a[1..] + b);
        head + (Probed(a[1..]) + Probed(b));
        (head + Probed(a[1..])) + Probed(b);
      }
    }
  }

  /** The zone cells a robot at p picks up on while travelling along axis a
      to coordinate g, one MOVE at a time: the moving loop of turn_and_move
      spelled out as a recursion. */
  function LegProbed(p: Vec, a: Axis, g: int): seq<Vec>
    decreases Abs(g - Coord(p, a))
  {
    if Coord(p, a) == g then []
    else
      var q := Advance(p, Toward(p, a, g));
      assert Abs(g - Coord(q, a)) < Abs(g - Coord(p, a));
      (if InZone(q) then [q] else []) + LegProbed(q, a, g)
  }

  /** Walking the run one step at a time picks up on exactly the zone cells
      of the run, in order. */
  lemma {:induction false} LegProbedIsProbedLine(p: Vec, a: Axis, g: int)
    ensures LegProbed(p, a, g) == Probed(AxisLine(p, a, g))
    decreases Abs(g - Coord(p, a))
  {
    if Coord(p, a) != g {
      var q := Advance(p, Toward(p, a, g));
      assert Abs(g - Coord(q, a)) < Abs(g - Coord(p, a));
      LegProbedIsProbedLine(q, a, g);
      AxisLineStep(p, a, g);
      assert ([q] + AxisLine(q, a, g))[1..] == AxisLine(q, a, g);
    }
  }
}
