/** Polyline constraints: segment lists chained head to tail, their vertices,
    the point edits of the editor and the bounding box kept for hit tests. */
module Polyline {
  import opened Constraints

  datatype Point = Point(x: real, y: real)

  function Start(l: Line): Point { Point(l.x0, l.y0) }
  function End(l: Line): Point { Point(l.x1, l.y1) }

  /** Every segment starts where the previous one ends. */
  predicate Chained(ls: seq<Line>)
  {
    forall i :: 0 <= i < |ls| - 1 ==> End(ls[i]) == Start(ls[i + 1])
  }

  /** The first start point followed by every end point. */
  function Vertices(ls: seq<Line>): (vs: seq<Point>)
    ensures |ls| == 0 ==> vs == []
    ensures |ls| > 0 ==> |vs| == |ls| + 1 && vs[0] == Start(ls[0])
    ensures forall i :: 0 <= i < |ls| ==> vs[i + 1] == End(ls[i])
  {
    if |ls| == 0 then [] else [Start(ls[0])] + seq(|ls|, i requires 0 <= i < |ls| => End(ls[i]))
  }

  /** The segments joining consecutive points. */
  function Segments(vs: seq<Point>): (ls: seq<Line>)
    ensures |ls| == if |vs| == 0 then 0 else |vs| - 1
    ensures forall i :: 0 <= i < |ls| ==> Start(ls[i]) == vs[i] && End(ls[i]) == vs[i + 1]
  {
    if |vs| == 0 then []
    else seq(|vs| - 1, i requires 0 <= i < |vs| - 1 => Line(vs[i].x, vs[i].y, vs[i + 1].x, vs[i + 1].y))
  }

  /** k >= 2 points give k-1 chained segments through exactly those points. */
  lemma {:induction false} SegmentsChained(vs: seq<Point>)
    requires |vs| >= 2
    ensures Chained(Segments(vs)) && |Segments(vs)| == |vs| - 1
    ensures Vertices(Segments(vs)) == vs
  {
    var ls := Segments(vs);
    var ws := Vertices(ls);
    assert |ws| == |vs|;
    forall i | 0 <= i < |vs| ensures ws[i] == vs[i] {
      if i > 0 { assert ws[i] == End(ls[i - 1]); }
    }
  }

  /** A chained, non-empty segment list is determined by its vertices. */
  lemma {:induction false} ChainedFromVertices(ls: seq<Line>)
    requires |ls| > 0 && Chained(ls)
    ensures Segments(Vertices(ls)) == ls
  {
    var vs := Vertices(ls);
    var ms := Segments(vs);
    assert |ms| == |ls|;
    forall i | 0 <= i < |ls| ensures ms[i] == ls[i] {
      assert Start(ms[i]) == vs[i] && End(ms[i]) == vs[i + 1];
      if i > 0 { assert vs[i] == End(ls[i - 1]) == Start(ls[i]); }
    }
  }

  /** Axis-aligned box: lo is the componentwise minimum, hi the maximum. */
  datatype Box = Box(lo: Point, hi: Point)

  /** The box grown to take in `p`, as one step of the source's `std::min`/`std::max` loops. */
  function Grow(b: Box, p: Point): Box
  {
    Box(Point(Min(b.lo.x, p.x), Min(b.lo.y, p.y)), Point(Max(b.hi.x, p.x), Max(b.hi.y, p.y)))
  }

  /** The box of a non-empty point list, folded left to right from the first point. */
  function BoundingBox(ps: seq<Point>): Box
    requires |ps| > 0
  {
    if |ps| == 1 then Box(ps[0], ps[0]) else Grow(BoundingBox(ps[..|ps| - 1]), ps[|ps| - 1])
  }

  /** The folded box is the least box holding every point: each of its four
      sides is touched by some point. */
  lemma {:induction false} BoundingBoxTight(ps: seq<Point>)
    requires |ps| > 0
    ensures forall i :: 0 <= i < |ps| ==>
              BoundingBox(ps).lo.x <= ps[i].x <= BoundingBox(ps).hi.x &&
              BoundingBox(ps).lo.y <= ps[i].y <= BoundingBox(ps).hi.y
    ensures exists i :: 0 <= i < |ps| && BoundingBox(ps).lo.x == ps[i].x
    ensures exists i :: 0 <= i < |ps| && BoundingBox(ps).lo.y == ps[i].y
    ensures exists i :: 0 <= i < |ps| && BoundingBox(ps).hi.x == ps[i].x
    ensures exists i :: 0 <= i < |ps| && BoundingBox(ps).hi.y == ps[i].y
  {
    if |ps| > 1 {
      var pre := ps[..|ps| - 1];
      BoundingBoxTight(pre);
      assert forall i :: 0 <= i < |pre| ==> pre[i] == ps[i];
    }
  }

  lemma BoundingBoxSnoc(ps: seq<Point>, p: Point)
    requires |ps| > 0
    ensures BoundingBox(ps + [p]) == Grow(BoundingBox(ps), p)
  {
    assert (ps + [p])[..|ps|] == ps;
  }

  /** addLine's loop: one segment per consecutive pair and the running box. */
  method BuildLines(points: seq<Point>) returns (lines: seq<Line>, box: Box)
    requires |points| >= 1
    ensures lines == Segments(points)
    ensures box == BoundingBox(points)
  {
    var x0, x1, y0, y1 := points[0].x, points[0].x, points[0].y, points[0].y;
    lines := [];
    var i := 0;
    while i < |points| - 1
      invariant 0 <= i <= |points| - 1
      invariant |lines| == i
      invariant forall k :: 0 <= k < i ==>
                  lines[k] == Line(points[k].x, points[k].y, points[k + 1].x, points[k + 1].y)
      invariant Box(Point(x0, y0), Point(x1, y1)) == BoundingBox(points[..i + 1])
    {
      BoundingBoxSnoc(points[..i + 1], points[i + 1]);
      assert points[..i + 2] == points[..i + 1] + [points[i + 1]];
      lines := lines + [Line(points[i].x, points[i].y, points[i + 1].x, points[i + 1].y)];
      x0 := Min(x0, points[i + 1].x);
      x1 := Max(x1, points[i + 1].x);
      y0 := Min(y0, points[i + 1].y);
      y1 := Max(y1, points[i + 1].y);
      i := i + 1;
    }
    assert points[..i + 1] == points;
    box := Box(Point(x0, y0), Point(x1, y1));
  }

  /** The record addLine appends: centre and line box from the points' box,
      unit scale, direction (1, 0), lod 1, phases not aligned. */
  function LineRecord(box: Box, id: Words.Word, lines: seq<Line>): (c: Constraint)
  {
    var cx := (box.lo.x + box.hi.x) / 2.0;
    var cy := 1.0 - (box.lo.y + box.hi.y) / 2.0;
    Constraint(cx, cy, 1.0, 1.0, 1.0, 0.0, 0.0, 0.0, 0.0,
               cx, cy, Abs(box.lo.x - box.hi.x), Abs(box.lo.y - box.hi.y), 1.0, 0.0, id, lines)
  }

  /** The placement bakeLine applies to a point of a polyline: undo the line
      box, scale, skew, rotate (by the given cosine and sine) and re-centre. */
  function Place(c: Constraint, cosR: real, sinR: real, p: Point): Point
  {
    var x := (p.x - c.lineCenterX) * c.width;
    var y := (1.0 - p.y - c.lineCenterY) * c.height;
    var sx := x - c.skewH * y;
    var sy := (1.0 + c.skewH * c.skewV) * y - c.skewV * x;
    var rx := cosR * sx + sinR * sy;
    var ry := -sinR * sx + cosR * sy;
    Point(rx + c.centerX, 1.0 - (ry + c.centerY))
  }

  function PlaceAll(c: Constraint, cosR: real, sinR: real, ps: seq<Point>): (r: seq<Point>)
    ensures |r| == |ps| && forall i :: 0 <= i < |ps| ==> r[i] == Place(c, cosR, sinR, ps[i])
  {
    seq(|ps|, i requires 0 <= i < |ps| => Place(c, cosR, sinR, ps[i]))
  }

  /** bakeLine: every end point is placed, the first start point is placed, and
      every later start point is re-chained to the previous end point. */
  method BakeLine(c: Constraint, cosR: real, sinR: real) returns (ls: seq<Line>)
    ensures |ls| == |c.lines|
    ensures Chained(ls)
    ensures Vertices(ls) == PlaceAll(c, cosR, sinR, Vertices(c.lines))
  {
    ls := c.lines;
    var i := 0;
    while i < |ls|
      invariant 0 <= i <= |ls| == |c.lines|
      invariant forall k :: 0 <= k < i ==> End(ls[k]) == Place(c, cosR, sinR, End(c.lines[k]))
      invariant i > 0 ==> Start(ls[0]) == Place(c, cosR, sinR, Start(c.lines[0]))
      invariant forall k :: 0 < k < i ==> Start(ls[k]) == End(ls[k - 1])
      invariant forall k :: i <= k < |ls| ==> ls[k] == c.lines[k]
    {
      var e := Place(c, cosR, sinR, End(ls[i]));
      if i > 0 {
        ls := ls[i := Line(ls[i - 1].x1, ls[i - 1].y1, e.x, e.y)];
      } else {
        var s := Place(c, cosR, sinR, Start(ls[i]));
        ls := ls[i := Line(s.x, s.y, e.x, e.y)];
      }
      i := i + 1;
    }
  }

  /** movePoint on baked segments: vertex `offset` becomes `p`; `offset == |ls|`
      names the final end point. */
  function MoveVertex(ls: seq<Line>, offset: nat, p: Point): (r: seq<Line>)
    requires 0 < |ls| && offset <= |ls|
    ensures |r| == |ls|
  {
    if offset == |ls| then ls[offset - 1 := ls[offset - 1].(x1 := p.x, y1 := p.y)]
    else
      var moved := ls[offset := ls[offset].(x0 := p.x, y0 := p.y)];
      if offset > 0 then moved[offset - 1 := moved[offset - 1].(x1 := p.x, y1 := p.y)] else moved
  }

  lemma {:induction false} MoveVertexChained(ls: seq<Line>, offset: nat, p: Point)
    requires 0 < |ls| && offset <= |ls| && Chained(ls)
    ensures |MoveVertex(ls, offset, p)| == |ls|
    ensures Chained(MoveVertex(ls, offset, p))
    ensures Vertices(MoveVertex(ls, offset, p)) == Vertices(ls)[offset := p]
  {
    var r := MoveVertex(ls, offset, p);
    var vs, ws := Vertices(ls), Vertices(r);
    forall i | 0 <= i < |r| - 1 ensures End(r[i]) == Start(r[i + 1]) {
      assert End(ls[i]) == Start(ls[i + 1]);
    }
    forall i | 0 <= i < |ws| ensures ws[i] == vs[offset := p][i] {
      if i > 0 { assert ws[i] == End(r[i - 1]) && vs[i] == End(ls[i - 1]); }
    }
  }

  /** addPoint on baked segments: segment `offset` is split at `p`. */
  function SplitSegment(ls: seq<Line>, offset: nat, p: Point): (r: seq<Line>)
    requires offset < |ls|
  {
    var tail := Line(p.x, p.y, ls[offset].x1, ls[offset].y1);
    var cut := ls[offset := ls[offset].(x1 := p.x, y1 := p.y)];
    cut[..offset + 1] + [tail] + cut[offset + 1..]
  }

  lemma SplitSegmentAt(ls: seq<Line>, offset: nat, p: Point, i: nat)
    requires offset < |ls| && i < |ls| + 1
    ensures |SplitSegment(ls, offset, p)| == |ls| + 1
    ensures SplitSegment(ls, offset, p)[i] ==
            if i < offset then ls[i]
            else if i == offset then ls[offset].(x1 := p.x, y1 := p.y)
            else if i == offset + 1 then Line(p.x, p.y, ls[offset].x1, ls[offset].y1)
            else ls[i - 1]
  {
  }

  lemma {:induction false} SplitSegmentKeepsChain(ls: seq<Line>, offset: nat, p: Point)
    requires offset < |ls| && Chained(ls)
    ensures Chained(SplitSegment(ls, offset, p))
  {
    var r := SplitSegment(ls, offset, p);
    forall i | 0 <= i < |r| - 1 ensures End(r[i]) == Start(r[i + 1]) {
      SplitSegmentAt(ls, offset, p, i);
      SplitSegmentAt(ls, offset, p, i + 1);
      if i < offset {
        assert End(ls[i]) == Start(ls[i + 1]);
      } else if i > offset + 1 {
        assert End(ls[i - 1]) == Start(ls[i]);
      } else if i == offset + 1 {
        assert End(ls[offset]) == Start(ls[offset + 1]);
      }
    }
  }

  lemma InsertedAt(vs: seq<Point>, k: nat, p: Point, i: nat)
    requires k <= |vs| && i <= |vs|
    ensures |vs[..k] + [p] + vs[k..]| == |vs| + 1
    ensures (vs[..k] + [p] + vs[k..])[i] == if i < k then vs[i] else if i == k then p else vs[i - 1]
  {
  }

  lemma {:induction false} SplitSegmentVertexAt(ls: seq<Line>, offset: nat, p: Point, i: nat)
    requires offset < |ls| && Chained(ls) && i < |ls| + 2
    ensures |Vertices(SplitSegment(ls, offset, p))| == |ls| + 2
    ensures Vertices(SplitSegment(ls, offset, p))[i] ==
            (Vertices(ls)[..offset + 1] + [p] + Vertices(ls)[offset + 1..])[i]
  {
    var r := SplitSegment(ls, offset, p);
    var vs := Vertices(ls);
    SplitSegmentAt(ls, offset, p, 0);
    InsertedAt(vs, offset + 1, p, i);
    if i > 0 {
      SplitSegmentAt(ls, offset, p, i - 1);
      if i <= offset {
        assert vs[i] == End(ls[i - 1]);
      } else if i > offset + 1 {
        assert vs[i - 1] == End(ls[i - 2]);
      }
    }
  }

  lemma {:induction false} SplitSegmentVertices(ls: seq<Line>, offset: nat, p: Point)
    requires offset < |ls| && Chained(ls)
    ensures Vertices(SplitSegment(ls, offset, p)) ==
            Vertices(ls)[..offset + 1] + [p] + Vertices(ls)[offset + 1..]
  {
    var ws := Vertices(SplitSegment(ls, offset, p));
    var want := Vertices(ls)[..offset + 1] + [p] + Vertices(ls)[offset + 1..];
    SplitSegmentVertexAt(ls, offset, p, 0);
    InsertedAt(Vertices(ls), offset + 1, p, 0);
    forall i | 0 <= i < |ws| ensures ws[i] == want[i] {
      SplitSegmentVertexAt(ls, offset, p, i);
    }
  }

  /** Splitting a segment of a chained list inserts `p` as a vertex after vertex
      `offset` and keeps the list chained. */
  lemma {:induction false} SplitSegmentChained(ls: seq<Line>, offset: nat, p: Point)
    requires offset < |ls| && Chained(ls)
    ensures |SplitSegment(ls, offset, p)| == |ls| + 1
    ensures Chained(SplitSegment(ls, offset, p))
    ensures Vertices(SplitSegment(ls, offset, p)) ==
            Vertices(ls)[..offset + 1] + [p] + Vertices(ls)[offset + 1..]
  {
    SplitSegmentAt(ls, offset, p, 0);
    SplitSegmentKeepsChain(ls, offset, p);
    SplitSegmentVertices(ls, offset, p);
  }

  /** recreateLineAABB's result for a list with vertex box `b`: the line box is
      `b`, the placement is reset to the identity (unit scale, no rotation, no skew,
      centre on the line box), direction, lod, phases, id and lines are kept. */
  function FitToBox(c: Constraint, b: Box): (r: Constraint)
  {
    var cx := (b.lo.x + b.hi.x) / 2.0;
    var cy := 1.0 - (b.lo.y + b.hi.y) / 2.0;
    c.(centerX := cx, centerY := cy, width := 1.0, height := 1.0, rotAngle := 0.0,
       lineCenterX := cx, lineCenterY := cy,
       lineWidth := Abs(b.lo.x - b.hi.x), lineHeight := Abs(b.lo.y - b.hi.y),
       skewH := 0.0, skewV := 0.0)
  }

  /** recreateLineAABB: fit the placement to the box of the segment points. */
  method RecreateLineAABB(c: Constraint) returns (r: Constraint)
    requires |c.lines| > 0
    ensures r == FitToBox(c, BoundingBox(Vertices(c.lines)))
    ensures r.lineWidth == BoundingBox(Vertices(c.lines)).hi.x - BoundingBox(Vertices(c.lines)).lo.x >= 0.0
    ensures r.lineHeight == BoundingBox(Vertices(c.lines)).hi.y - BoundingBox(Vertices(c.lines)).lo.y >= 0.0
  {
    var b := LineBox(c.lines);
    BoxOrdered(Vertices(c.lines));
    r := FitToBox(c, b);
  }

  /** The box loop of recreateLineAABB: the first start point, then every end point. */
  method LineBox(points: seq<Line>) returns (b: Box)
    requires |points| > 0
    ensures b == BoundingBox(Vertices(points))
  {
    ghost var vs := Vertices(points);
    var x0, x1, y0, y1 := points[0].x0, points[0].x0, points[0].y0, points[0].y0;
    var i := 0;
    assert vs[..1] == [Start(points[0])];
    while i < |points|
      invariant 0 <= i <= |points|
      invariant Box(Point(x0, y0), Point(x1, y1)) == BoundingBox(vs[..i + 1])
    {
      VertexBoxStep(points, i);
      x0 := Min(x0, points[i].x1);
      x1 := Max(x1, points[i].x1);
      y0 := Min(y0, points[i].y1);
      y1 := Max(y1, points[i].y1);
      i := i + 1;
    }
    assert vs[..i + 1] == vs;
    b := Box(Point(x0, y0), Point(x1, y1));
  }

  lemma VertexBoxStep(ls: seq<Line>, i: nat)
    requires i < |ls|
    ensures BoundingBox(Vertices(ls)[..i + 2]) == Grow(BoundingBox(Vertices(ls)[..i + 1]), End(ls[i]))
  {
    var vs := Vertices(ls);
    BoundingBoxSnoc(vs[..i + 1], End(ls[i]));
    assert vs[..i + 2] == vs[..i + 1] + [End(ls[i])];
  }

  /** The box of a non-empty point list has its low corner below its high one. */
  lemma BoxOrdered(ps: seq<Point>)
    requires |ps| > 0
    ensures BoundingBox(ps).lo.x <= BoundingBox(ps).hi.x && BoundingBox(ps).lo.y <= BoundingBox(ps).hi.y
  {
    BoundingBoxTight(ps);
    assert BoundingBox(ps).lo.x <= ps[0].x <= BoundingBox(ps).hi.x;
  }

  /** After recreateLineAABB the placement is the identity, so the next bakeLine
      (with cos 1 and sin 0 for the reset rotation) leaves every point where it is. */
  lemma {:induction false} FittedPlacementIsIdentity(c: Constraint, b: Box, p: Point)
    ensures Place(FitToBox(c, b), 1.0, 0.0, p) == p
  {
    var f := FitToBox(c, b);
    assert f.width == 1.0 && f.height == 1.0 && f.skewH == 0.0 && f.skewV == 0.0;
    assert f.centerX == f.lineCenterX && f.centerY == f.lineCenterY;
  }
}
