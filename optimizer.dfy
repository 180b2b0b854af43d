/** The optimizer object: the live constraint list, the id counter, the undo
    history, the solver settings, and every edit the editor applies to them,
    each followed by the solve and the commit the editor runs after it. The
    solve is recorded as the trace of GPU passes it issues. */
module FieldOptimizer {
  import opened Words
  import opened Constraints
  import opened Polyline
  import History
  import ProjectFormat
  import Scheduler
  import Mip
  import opened Options

  /** The solver settings the optimizer owns. */
  datatype Settings = Settings(iteration: Word, iterationOnMove: Word, smoothing: Method,
                               newPhaseMethod: bool, angleOffset: real)

  const DEFAULT_SETTINGS: Settings :=
    Settings(DEFAULT_ITERATION, DEFAULT_ITERATION_ON_MOVE, DEFAULT_METHOD,
             DEFAULT_NEW_PHASE_METHOD, DEFAULT_ANGLE_OFFSET)

  /** The coarsest level `optimize` visits: the level count of the solver's
      mip-mapped single-layer buffer minus one. An empty buffer (count 0, so
      N = -1) runs the same passes as N = 0, which is what 0 stands for here. */
  function Depth(width: Word, height: Word): nat
  {
    var levels := Mip.MipLevels(width, height, 1, false);
    if levels == 0 then 0 else levels - 1
  }

  /** The pyramid has one level per halving of the larger extent, and its
      coarsest level is a single texel wide. */
  lemma {:induction false} DepthTopLevel(width: Word, height: Word)
    requires width >= 1 || height >= 1
    ensures Depth(width, height) + 1 == Mip.MipLevels(width, height, 1, false)
    ensures Mip.Extent(Mip.Larger(width, height), Depth(width, height)) == 1
  {
    Mip.MipLevelsRange(width, height, 1, false);
    Mip.TopLevelExtent(width, height);
  }

  /** A drag too small to make a rectangle or an ellipse. */
  predicate Degenerate(x0: real, y0: real, x1: real, y1: real)
  {
    Abs(x0 - x1) < 0.001 && Abs(y0 - y1) < 0.005
  }

  /** The record addRectangle (lod 1) and addEllipse (lod 32) append for a drag
      from (x0, y0) to (x1, y1); y is flipped into texture orientation. */
  function AreaRecord(x0: real, y0: real, x1: real, y1: real, lod: real, id: Word): Constraint
  {
    Constraint((x0 + x1) / 2.0, 1.0 - (y0 + y1) / 2.0, Abs(x0 - x1), Abs(y0 - y1),
               1.0, 0.0, 0.0, 0.0, 0.0, 0.0, 0.0, 1.0, 1.0, lod, 1.0, id, [])
  }

  /** The appended record spans exactly the dragged box, points along x, aligns
      its phases, has no segments, and is listed as a rectangle (lod 1) or an
      ellipse (lod 32) by both list labellings. */
  lemma {:induction false} AreaRecordSpans(x0: real, y0: real, x1: real, y1: real, lod: real, id: Word)
    requires lod == 1.0 || lod == 32.0
    ensures var c := AreaRecord(x0, y0, x1, y1, lod, id);
            c.centerX - c.width / 2.0 == Min(x0, x1) && c.centerX + c.width / 2.0 == Max(x0, x1) &&
            1.0 - c.centerY - c.height / 2.0 == Min(y0, y1) && 1.0 - c.centerY + c.height / 2.0 == Max(y0, y1)
    ensures var c := AreaRecord(x0, y0, x1, y1, lod, id);
            c.width >= 0.0 && c.height >= 0.0 && c.dirX == 1.0 && c.dirY == 0.0 &&
            c.alignPhases == 1.0 && c.lines == [] && c.id == id
    ensures var c := AreaRecord(x0, y0, x1, y1, lod, id);
            LoadKind(c) == HistoryKind(c) &&
            LoadKind(c) == (if lod == 1.0 then RectangleKind else EllipseKind)
  {
    KindsAgree(AreaRecord(x0, y0, x1, y1, lod, id));
  }

  /** addLine's record over k >= 2 points is a chained polyline through the
      points, with k - 1 segments, its line box the points' box, and it is
      listed as a line by both labellings. */
  lemma {:induction false} LineRecordShape(points: seq<Point>, id: Word)
    requires |points| >= 2
    ensures var c := LineRecord(BoundingBox(points), id, Segments(points));
            |c.lines| == |points| - 1 && Chained(c.lines) && Vertices(c.lines) == points
    ensures var c := LineRecord(BoundingBox(points), id, Segments(points));
            LoadKind(c) == LineKind && HistoryKind(c) == LineKind && c.id == id
    ensures var c := LineRecord(BoundingBox(points), id, Segments(points));
            c.lineWidth == BoundingBox(points).hi.x - BoundingBox(points).lo.x &&
            c.lineHeight == BoundingBox(points).hi.y - BoundingBox(points).lo.y
  {
    SegmentsChained(points);
    BoundingBoxTight(points);
    var c := LineRecord(BoundingBox(points), id, Segments(points));
    KindsAgree(c);
    assert points[0] in points;
    assert BoundingBox(points).lo.x <= points[0].x <= BoundingBox(points).hi.x;
    assert BoundingBox(points).lo.y <= points[0].y <= BoundingBox(points).hi.y;
  }

  /** The scalar fields the move, scale and skew setters change. */
  datatype Field = CenterX | CenterY | Width | Height | SkewH | SkewV

  /** Where each field sits among the fifteen float fields. */
  function Index(f: Field): (i: nat)
    ensures i < SCALAR_FIELDS
  {
    match f
    case CenterX => 0
    case CenterY => 1
    case Width => 2
    case Height => 3
    case SkewH => 7
    case SkewV => 8
  }

  function Get(c: Constraint, f: Field): real
  {
    match f
    case CenterX => c.centerX
    case CenterY => c.centerY
    case Width => c.width
    case Height => c.height
    case SkewH => c.skewH
    case SkewV => c.skewV
  }

  function Set(c: Constraint, f: Field, v: real): Constraint
  {
    match f
    case CenterX => c.(centerX := v)
    case CenterY => c.(centerY := v)
    case Width => c.(width := v)
    case Height => c.(height := v)
    case SkewH => c.(skewH := v)
    case SkewV => c.(skewV := v)
  }

  /** A setter changes exactly its own float field: the other fourteen, the id
      and the segments are kept, and reading the field back gives the value. */
  lemma {:induction false} SetChangesOneField(c: Constraint, f: Field, v: real)
    ensures Get(c, f) == Scalars(c)[Index(f)]
    ensures Scalars(Set(c, f, v)) == Scalars(c)[Index(f) := v]
    ensures Get(Set(c, f, v), f) == v
    ensures Set(c, f, v).id == c.id && Set(c, f, v).lines == c.lines
  {
    match f
    case CenterX =>
    case CenterY =>
    case Width =>
    case Height =>
    case SkewH =>
    case SkewV =>
  }

  /** M_PI, the double closest to pi. */
  const PI: real := 3.141592653589793

  /** C's integer truncation toward zero. */
  function Trunc(r: real): (t: int)
    ensures r >= 0.0 ==> t == r.Floor
    ensures r < 0.0 ==> t == -((-r).Floor)
  {
    if r >= 0.0 then r.Floor else -((-r).Floor)
  }

  /** C's fmod: the remainder keeps the sign of the dividend. */
  function FMod(x: real, m: real): real
    requires m != 0.0
  {
    x - m * (Trunc(x / m) as real)
  }

  /** The rotation rotateRectangle stores for `angle`. */
  function WrapAngle(angle: real): real
  {
    angle - 2.0 * PI * (((angle + PI) / (2.0 * PI)).Floor as real)
  }

  /** rotateRectangle's guard, as written. */
  predicate RotationChanges(current: real, angle: real)
  {
    Abs(current - FMod(angle + PI, 2.0 * PI) + PI) > 0.001
  }

  /** The stored rotation lies in [-pi, pi) and differs from `angle` by whole
      turns; for angles from -pi on, rotating again to the same angle is
      rejected by the guard. */
  lemma {:induction false} WrapAngleRange(angle: real)
    ensures -PI <= WrapAngle(angle) < PI
    ensures angle - WrapAngle(angle) == 2.0 * PI * (((angle + PI) / (2.0 * PI)).Floor as real)
    ensures angle + PI >= 0.0 ==> !RotationChanges(WrapAngle(angle), angle)
  {
    var q := (angle + PI) / (2.0 * PI);
    var f := q.Floor as real;
    assert f <= q < f + 1.0;
    assert q * (2.0 * PI) == angle + PI;
    assert 2.0 * PI * f <= angle + PI < 2.0 * PI * f + 2.0 * PI by {
      assert 2.0 * PI * f <= 2.0 * PI * q;
      assert 2.0 * PI * q < 2.0 * PI * (f + 1.0);
    }
    if angle + PI >= 0.0 {
      assert q >= 0.0;
      assert FMod(angle + PI, 2.0 * PI) == angle + PI - 2.0 * PI * f;
    }
  }

  /** fillRectangle's guard, as written: both direction components are compared
      with the cosine of the new angle. */
  predicate FillChanges(c: Constraint, cosA: real)
  {
    Abs(c.dirX - cosA) > 0.001 && Abs(c.dirY - cosA) > 0.001
  }

  /** The guard ignores the sine: a direction whose x component already equals
      the new cosine is kept, whatever the new sine is. Turning (0, 1) into
      (0, -1) is one such case. */
  lemma {:induction false} FillIgnoresSine(c: Constraint, cosA: real, sinA: real)
    requires Abs(c.dirX - cosA) <= 0.001
    ensures !FillChanges(c, cosA)
    ensures c.dirX == 0.0 && c.dirY == 1.0 && cosA == 0.0 && sinA == -1.0 ==>
              !FillChanges(c, cosA) && c.dirY != sinA
  {
  }

  /** bakeLine's segments for a non-empty polyline: the placed vertices, chained. */
  function Baked(c: Constraint, cosR: real, sinR: real): (ls: seq<Line>)
    requires |c.lines| > 0
    ensures |ls| == |c.lines|
  {
    Segments(PlaceAll(c, cosR, sinR, Vertices(c.lines)))
  }

  /** The record movePoint leaves: baked, vertex `offset` moved to `p`, refitted. */
  function MovedPoint(c: Constraint, offset: nat, p: Point, cosR: real, sinR: real): Constraint
    requires 0 < |c.lines| && offset <= |c.lines|
  {
    var ls := MoveVertex(Baked(c, cosR, sinR), offset, p);
    FitToBox(c.(lines := ls), BoundingBox(Vertices(ls)))
  }

  /** The record addPoint leaves: baked, segment `offset` split at `p`, refitted. */
  function AddedPoint(c: Constraint, offset: nat, p: Point, cosR: real, sinR: real): Constraint
    requires offset < |c.lines|
  {
    var ls := SplitSegment(Baked(c, cosR, sinR), offset, p);
    FitToBox(c.(lines := ls), BoundingBox(Vertices(ls)))
  }

  lemma {:induction false} BakedChained(c: Constraint, cosR: real, sinR: real)
    requires |c.lines| > 0
    ensures Chained(Baked(c, cosR, sinR))
    ensures Vertices(Baked(c, cosR, sinR)) == PlaceAll(c, cosR, sinR, Vertices(c.lines))
  {
    SegmentsChained(PlaceAll(c, cosR, sinR, Vertices(c.lines)));
  }

  /** The placement a refitted record applies is the identity, its line box
      has nonnegative extents, and id, direction, lod and phases are kept. */
  lemma {:induction false} FitKeeps(c: Constraint, ls: seq<Line>)
    requires |ls| > 0
    ensures var r := FitToBox(c.(lines := ls), BoundingBox(Vertices(ls)));
            r.lines == ls && r.id == c.id && r.dirX == c.dirX && r.dirY == c.dirY &&
            r.tesselationLod == c.tesselationLod && r.alignPhases == c.alignPhases &&
            r.width == 1.0 && r.height == 1.0 && r.rotAngle == 0.0 && r.skewH == 0.0 && r.skewV == 0.0 &&
            r.lineWidth >= 0.0 && r.lineHeight >= 0.0
  {
    var vs := Vertices(ls);
    BoundingBoxTight(vs);
    assert BoundingBox(vs).lo.x <= vs[0].x <= BoundingBox(vs).hi.x;
    assert BoundingBox(vs).lo.y <= vs[0].y <= BoundingBox(vs).hi.y;
  }

  /** movePoint keeps the segment count and the chain, and moves exactly one
      placed vertex (the final end point when `offset` is the segment count). */
  lemma {:induction false} MovedPointShape(c: Constraint, offset: nat, p: Point, cosR: real, sinR: real)
    requires 0 < |c.lines| && offset <= |c.lines|
    ensures var r := MovedPoint(c, offset, p, cosR, sinR);
            |r.lines| == |c.lines| && Chained(r.lines) &&
            Vertices(r.lines) == PlaceAll(c, cosR, sinR, Vertices(c.lines))[offset := p]
    ensures var r := MovedPoint(c, offset, p, cosR, sinR);
            r.id == c.id && r.width == 1.0 && r.height == 1.0 && r.rotAngle == 0.0 &&
            r.skewH == 0.0 && r.skewV == 0.0 && r.lineWidth >= 0.0 && r.lineHeight >= 0.0
  {
    BakedChained(c, cosR, sinR);
    MoveVertexChained(Baked(c, cosR, sinR), offset, p);
    FitKeeps(c, MoveVertex(Baked(c, cosR, sinR), offset, p));
  }

  /** addPoint adds one segment, keeps the chain, and inserts `p` as a vertex
      right after placed vertex `offset`. */
  lemma {:induction false} AddedPointShape(c: Constraint, offset: nat, p: Point, cosR: real, sinR: real)
    requires offset < |c.lines|
    ensures var r := AddedPoint(c, offset, p, cosR, sinR);
            var placed := PlaceAll(c, cosR, sinR, Vertices(c.lines));
            |r.lines| == |c.lines| + 1 && Chained(r.lines) &&
            Vertices(r.lines) == placed[..offset + 1] + [p] + placed[offset + 1..]
    ensures var r := AddedPoint(c, offset, p, cosR, sinR);
            r.id == c.id && r.width == 1.0 && r.height == 1.0 && r.rotAngle == 0.0 &&
            r.skewH == 0.0 && r.skewV == 0.0 && r.lineWidth >= 0.0 && r.lineHeight >= 0.0
  {
    BakedChained(c, cosR, sinR);
    SplitSegmentChained(Baked(c, cosR, sinR), offset, p);
    FitKeeps(c, SplitSegment(Baked(c, cosR, sinR), offset, p));
  }

  /** The revert/redo loop that recomputes the id counter from a restored list. */
  method LargestId(cs: seq<Constraint>) returns (m: Word)
    ensures m == MaxId(cs)
  {
    m := 0;
    var i := 0;
    while i < |cs|
      invariant 0 <= i <= |cs| && m == MaxId(cs[..i])
    {
      assert cs[..i + 1][..i] == cs[..i];
      m := if cs[i].id < m then m else cs[i].id;
      i := i + 1;
    }
    assert cs[..i] == cs;
  }

  class Optimizer {
    var constraints: seq<Constraint>
    var history: seq<History.Snapshot>
    var cursor: nat
    var maxId: Word
    var settings: Settings
    /** The direction texture's extent, which the solver buffers follow. */
    var width: Word
    var height: Word
    /** Whether a direction texture was imported as the solve's starting point. */
    var directionBackup: bool
    /** Every GPU pass issued so far, in order. */
    var passes: seq<Scheduler.Pass>

    function Log(): History.Log
      reads this
    {
      History.Log(history, cursor, constraints)
    }

    predicate Valid()
      reads this
    {
      History.Valid(Log())
    }

    /** The passes optimize(it) issues in the current state. */
    function Cycle(it: Word): seq<Scheduler.Pass>
      reads this
    {
      Scheduler.VCycle(Depth(width, height), it, Scheduler.InitPass(|constraints| == 0, directionBackup))
    }

    /** What an edit does after changing the list: with `opt`, a full solve and a
        commit of the edited list; otherwise a short solve when the window
        optimizes on move, and no commit. */
    twostate predicate Settled(opt: bool, optimizeOnMove: bool)
      reads this
    {
      if opt then
        passes == old(passes) + Cycle(settings.iteration) &&
        Log() == History.Commit(History.Log(old(history), old(cursor), constraints))
      else
        history == old(history) && cursor == old(cursor) &&
        passes == old(passes) + (if optimizeOnMove then Cycle(settings.iterationOnMove) else [])
    }

    /** The constructor ends with a first commit: the history is `[[]]`. */
    constructor(width: Word, height: Word)
      ensures Valid() && History.Synced(Log())
      ensures constraints == [] && history == [[]] && cursor == 1 && maxId == 0
      ensures settings == DEFAULT_SETTINGS && passes == [] && !directionBackup
      ensures this.width == width && this.height == height
    {
      constraints := [];
      history := [];
      cursor := 0;
      maxId := 0;
      settings := DEFAULT_SETTINGS;
      this.width := width;
      this.height := height;
      directionBackup := false;
      passes := [];
      new;
      CommitChange();
      History.FirstCommit();
    }

    /** optimize(it): one V-cycle over the current pyramid. */
    method Optimize(it: Word)
      modifies this`passes
      ensures passes == old(passes) + Cycle(it)
    {
      var t := Scheduler.RunVCycle(Depth(width, height), it,
                                   Scheduler.InitPass(|constraints| == 0, directionBackup));
      passes := passes + t;
    }

    /** commitChange, step by step: drop the redo tail, drop the oldest snapshot
        when the deque is over the undo count, push the live list. */
    method CommitChange()
      modifies this`history, this`cursor
      ensures Log() == History.Commit(old(Log()))
      ensures History.Valid(old(Log())) || (old(history) == [] && old(cursor) == 0) ==>
                Valid() && History.Synced(Log()) && !History.CanRedo(Log())
    {
      ghost var before := Log();
      if cursor != |history| {
        history := History.Resize(history, cursor);
      }
      if |history| > MAX_UNDO_COUNT {
        history := history[1..];
      }
      history := history + [constraints];
      cursor := |history|;
      if History.Valid(before) || (before.history == [] && before.cursor == 0) {
        History.CommitValid(before);
      }
    }

    method Settle(opt: bool, optimizeOnMove: bool)
      requires Valid()
      modifies this`passes, this`history, this`cursor
      ensures Valid() && Settled(opt, optimizeOnMove)
    {
      if opt {
        Optimize(settings.iteration);
        CommitChange();
      } else if optimizeOnMove {
        Optimize(settings.iterationOnMove);
      }
    }

    /** revertChange: when there is something to undo, restore the previous
        snapshot, recompute the id counter from it, and solve; no commit. */
    method RevertChange()
      requires Valid()
      modifies this`constraints, this`cursor, this`maxId, this`passes
      ensures Valid()
      ensures !History.CanUndo(old(Log())) ==> unchanged(this)
      ensures History.CanUndo(old(Log())) ==>
                Log() == History.Undo(old(Log())) && History.Synced(Log()) &&
                maxId == MaxId(constraints) && passes == old(passes) + Cycle(settings.iteration)
    {
      if cursor > 1 {
        History.UndoRedoValid(Log());
        constraints := history[cursor - 2];
        cursor := cursor - 1;
        maxId := LargestId(constraints);
        Optimize(settings.iteration);
      }
    }

    /** redoChange: when there is something to redo, restore the next snapshot,
        recompute the id counter from it, and solve; no commit. */
    method RedoChange()
      requires Valid()
      modifies this`constraints, this`cursor, this`maxId, this`passes
      ensures Valid()
      ensures !History.CanRedo(old(Log())) ==> unchanged(this)
      ensures History.CanRedo(old(Log())) ==>
                Log() == History.Redo(old(Log())) && History.Synced(Log()) &&
                maxId == MaxId(constraints) && passes == old(passes) + Cycle(settings.iteration)
    {
      if cursor < |history| {
        History.UndoRedoValid(Log());
        constraints := history[cursor];
        cursor := cursor + 1;
        maxId := LargestId(constraints);
        Optimize(settings.iteration);
      }
    }

    /** addRectangle: a degenerate drag does nothing; otherwise one record with
        the next id is appended, then a full solve and a commit. */
    method AddRectangle(x0: real, y0: real, x1: real, y1: real)
      requires Valid()
      modifies this`constraints, this`maxId, this`passes, this`history, this`cursor
      ensures Valid()
      ensures Degenerate(x0, y0, x1, y1) ==> unchanged(this)
      ensures !Degenerate(x0, y0, x1, y1) ==>
                maxId == Inc(old(maxId)) &&
                constraints == old(constraints) + [AreaRecord(x0, y0, x1, y1, 1.0, maxId)] &&
                Settled(true, false)
    {
      AddArea(x0, y0, x1, y1, 1.0);
    }

    /** addEllipse: as addRectangle, with lod 32. */
    method AddEllipse(x0: real, y0: real, x1: real, y1: real)
      requires Valid()
      modifies this`constraints, this`maxId, this`passes, this`history, this`cursor
      ensures Valid()
      ensures Degenerate(x0, y0, x1, y1) ==> unchanged(this)
      ensures !Degenerate(x0, y0, x1, y1) ==>
                maxId == Inc(old(maxId)) &&
                constraints == old(constraints) + [AreaRecord(x0, y0, x1, y1, 32.0, maxId)] &&
                Settled(true, false)
    {
      AddArea(x0, y0, x1, y1, 32.0);
    }

    method AddArea(x0: real, y0: real, x1: real, y1: real, lod: real)
      requires Valid()
      modifies this`constraints, this`maxId, this`passes, this`history, this`cursor
      ensures Valid()
      ensures Degenerate(x0, y0, x1, y1) ==> unchanged(this)
      ensures !Degenerate(x0, y0, x1, y1) ==>
                maxId == Inc(old(maxId)) &&
                constraints == old(constraints) + [AreaRecord(x0, y0, x1, y1, lod, maxId)] &&
                Settled(true, false)
    {
      if Degenerate(x0, y0, x1, y1) {
        return;
      }
      maxId := Inc(maxId);
      constraints := constraints + [AreaRecord(x0, y0, x1, y1, lod, maxId)];
      Settle(true, false);
    }

    /** addLine: the segments through the points and their box become one
        record with the next id; then a full solve and a commit. */
    method AddLine(points: seq<Point>)
      requires Valid() && |points| >= 1
      modifies this`constraints, this`maxId, this`passes, this`history, this`cursor
      ensures Valid()
      ensures maxId == Inc(old(maxId))
      ensures constraints == old(constraints) + [LineRecord(BoundingBox(points), maxId, Segments(points))]
      ensures Settled(true, false)
    {
      var lines, box := BuildLines(points);
      maxId := Inc(maxId);
      constraints := constraints + [LineRecord(box, maxId, lines)];
      Settle(true, false);
    }

    /** clear: history reset, list emptied, id counter back to 0, solve, commit. */
    method Clear()
      modifies this`constraints, this`maxId, this`passes, this`history, this`cursor
      ensures Valid() && History.Synced(Log())
      ensures constraints == [] && maxId == 0 && history == [[]] && cursor == 1
      ensures passes == old(passes) + Cycle(settings.iteration)
    {
      history := [];
      cursor := 0;
      constraints := [];
      maxId := 0;
      Optimize(settings.iteration);
      CommitChange();
    }

    /** removeRectangle: on a non-empty list, erase entry `id`, step the counter
        back when it was the counter's id, then solve and commit. */
    method RemoveRectangle(id: nat)
      requires Valid() && (|constraints| > 0 ==> id < |constraints|)
      modifies this`constraints, this`maxId, this`passes, this`history, this`cursor
      ensures Valid()
      ensures old(constraints) == [] ==> unchanged(this)
      ensures old(constraints) != [] ==>
                constraints == old(constraints[..id] + constraints[id + 1..]) &&
                maxId == (if old(maxId) == old(constraints[id].id) then Dec(old(maxId)) else old(maxId)) &&
                Settled(true, false)
    {
      if |constraints| > 0 {
        if maxId == constraints[id].id {
          maxId := Dec(maxId);
        }
        constraints := constraints[..id] + constraints[id + 1..];
        Settle(true, false);
      }
    }

    /** duplicateRectangle: append a verbatim copy (same id), advance the
        counter, commit; no solve. */
    method DuplicateRectangle(id: nat)
      requires Valid() && id < |constraints|
      modifies this`constraints, this`maxId, this`history, this`cursor
      ensures Valid()
      ensures constraints == old(constraints) + [old(constraints[id])]
      ensures maxId == Inc(old(maxId))
      ensures Log() == History.Commit(History.Log(old(history), old(cursor), constraints))
    {
      constraints := constraints + [constraints[id]];
      maxId := Inc(maxId);
      CommitChange();
    }

    /** moveRectangleX/Y, scaleRectangleX/Y (with `opt`) and skewRectangleX/Y
        (which take no `opt` and always solve and commit): a change of at
        most 0.001 is ignored. */
    method SetField(id: nat, f: Field, v: real, opt: bool, optimizeOnMove: bool)
      requires Valid() && id < |constraints|
      requires (f == SkewH || f == SkewV) ==> opt
      modifies this`constraints, this`passes, this`history, this`cursor
      ensures Valid()
      ensures Abs(Get(old(constraints[id]), f) - v) <= 0.001 ==> unchanged(this)
      ensures Abs(Get(old(constraints[id]), f) - v) > 0.001 ==>
                constraints == old(constraints)[id := Set(old(constraints[id]), f, v)] &&
                Settled(opt, optimizeOnMove)
    {
      if Abs(Get(constraints[id], f) - v) > 0.001 {
        constraints := constraints[id := Set(constraints[id], f, v)];
        Settle(opt, optimizeOnMove);
      }
    }

    /** rotateRectangle: store the wrapped angle when the guard fires. */
    method RotateRectangle(id: nat, angle: real, opt: bool, optimizeOnMove: bool)
      requires Valid() && id < |constraints|
      modifies this`constraints, this`passes, this`history, this`cursor
      ensures Valid()
      ensures !RotationChanges(old(constraints[id].rotAngle), angle) ==> unchanged(this)
      ensures RotationChanges(old(constraints[id].rotAngle), angle) ==>
                constraints == old(constraints)[id := old(constraints[id]).(rotAngle := WrapAngle(angle))] &&
                Settled(opt, optimizeOnMove)
    {
      if RotationChanges(constraints[id].rotAngle, angle) {
        constraints := constraints[id := constraints[id].(rotAngle := WrapAngle(angle))];
        Settle(opt, optimizeOnMove);
      }
    }

    /** setAlignPhase: a changed flag is stored (as 1 or 0), solved and committed. */
    method SetAlignPhase(id: nat, val: bool)
      requires Valid() && id < |constraints|
      modifies this`constraints, this`passes, this`history, this`cursor
      ensures Valid()
      ensures old(constraints[id].alignPhases) == (if val then 1.0 else 0.0) ==> unchanged(this)
      ensures old(constraints[id].alignPhases) != (if val then 1.0 else 0.0) ==>
                constraints == old(constraints)[id := old(constraints[id]).(alignPhases := if val then 1.0 else 0.0)] &&
                Settled(true, false)
    {
      var flag := if val then 1.0 else 0.0;
      if constraints[id].alignPhases != flag {
        constraints := constraints[id := constraints[id].(alignPhases := flag)];
        Settle(true, false);
      }
    }

    /** fillRectangle with `cosA` and `sinA` the cosine and sine of the angle;
        the guard is the one the editor uses. */
    method FillRectangle(id: nat, cosA: real, sinA: real, opt: bool, optimizeOnMove: bool)
      requires Valid() && id < |constraints|
      modifies this`constraints, this`passes, this`history, this`cursor
      ensures Valid()
      ensures !FillChanges(old(constraints[id]), cosA) ==> unchanged(this)
      ensures FillChanges(old(constraints[id]), cosA) ==>
                constraints == old(constraints)[id := old(constraints[id]).(dirX := cosA, dirY := sinA)] &&
                Settled(opt, optimizeOnMove)
    {
      if FillChanges(constraints[id], cosA) {
        constraints := constraints[id := constraints[id].(dirX := cosA, dirY := sinA)];
        Settle(opt, optimizeOnMove);
      }
    }

    /** movePoint with `cosR` and `sinR` the cosine and sine of the record's
        rotation: bake, move one vertex, refit; a short solve when the window
        optimizes on move; no commit. */
    method MovePoint(id: nat, offset: nat, p: Point, cosR: real, sinR: real, optimizeOnMove: bool)
      requires Valid() && id < |constraints|
      requires 0 < |constraints[id].lines| && offset <= |constraints[id].lines|
      modifies this`constraints, this`passes
      ensures Valid()
      ensures constraints == old(constraints)[id := MovedPoint(old(constraints[id]), offset, p, cosR, sinR)]
      ensures passes == old(passes) + (if optimizeOnMove then Cycle(settings.iterationOnMove) else [])
    {
      var c := constraints[id];
      var ls := BakeLine(c, cosR, sinR);
      ChainedFromVertices(ls);
      var r := RecreateLineAABB(c.(lines := MoveVertex(ls, offset, p)));
      constraints := constraints[id := r];
      if optimizeOnMove {
        Optimize(settings.iterationOnMove);
      }
    }

    /** addPoint: bake, split one segment at `p`, refit, commit; no solve. */
    method AddPoint(id: nat, offset: nat, p: Point, cosR: real, sinR: real)
      requires Valid() && id < |constraints| && offset < |constraints[id].lines|
      modifies this`constraints, this`history, this`cursor
      ensures Valid()
      ensures constraints == old(constraints)[id := AddedPoint(old(constraints[id]), offset, p, cosR, sinR)]
      ensures Log() == History.Commit(History.Log(old(history), old(cursor), constraints))
    {
      var c := constraints[id];
      var ls := BakeLine(c, cosR, sinR);
      ChainedFromVertices(ls);
      var r := RecreateLineAABB(c.(lines := SplitSegment(ls, offset, p)));
      constraints := constraints[id := r];
      CommitChange();
    }

    /** save: the project stream for the direction texture's extent and the list. */
    method Save(enc: real -> Word) returns (out: seq<Byte>)
      ensures out == ProjectFormat.Encode(ProjectFormat.Project(width, height, constraints), enc)
    {
      out := ProjectFormat.Save(ProjectFormat.Project(width, height, constraints), enc);
    }

    /** load: take the extent from the header and make a new direction
        texture of that size, which stores its backup and solves with the
        list still unchanged; then reset the history, read every record
        (raising the counter to the largest id), solve, commit. */
    method Load(b: seq<Byte>, dec: Word -> real)
      requires ProjectFormat.Decode(b, dec).Some?
      modifies this`constraints, this`width, this`height, this`maxId, this`passes, this`history, this`cursor,
               this`directionBackup
      ensures Valid() && History.Synced(Log())
      ensures ProjectFormat.Decode(b, dec) == Some(ProjectFormat.Project(width, height, constraints))
      ensures maxId == ProjectFormat.Larger(old(maxId), MaxId(constraints))
      ensures history == [constraints] && cursor == 1
      ensures directionBackup
      ensures passes == old(passes) +
                        Scheduler.VCycle(Depth(width, height), settings.iteration,
                                         Scheduler.InitPass(|old(constraints)| == 0, true)) +
                        Cycle(settings.iteration)
    {
      var p, m := ProjectFormat.Load(b, dec, maxId);
      width, height := p.width, p.height;
      ghost var texture := Scheduler.VCycle(Depth(width, height), settings.iteration,
                                            Scheduler.InitPass(|constraints| == 0, true));
      SetDirectionTexture();
      assert passes == old(passes) + texture;
      constraints, maxId := p.constraints, m;
      Optimize(settings.iteration);
      assert passes == old(passes) + texture + Cycle(settings.iteration);
      ResetHistory();
    }

    /** load's `m_changesQueue.clear(); m_currChange = 0;` and its final
        commitChange: the read loop leaves the history alone, so together they
        make the loaded list the one snapshot. */
    method ResetHistory()
      modifies this`history, this`cursor
      ensures history == [constraints] && cursor == 1
    {
      history, cursor := [], 0;
      CommitChange();
      History.CommitReset(constraints);
    }

    /** setIteration, setIterationOnMove, setMethod, setNewPhaseMethod and
        setAngleOffset: store the setting, then solve with the full budget. */
    method SetIteration(val: Word)
      modifies this`settings, this`passes
      ensures settings == old(settings).(iteration := val)
      ensures passes == old(passes) + Cycle(val)
    {
      settings := settings.(iteration := val);
      Optimize(settings.iteration);
    }

    method SetIterationOnMove(val: Word)
      modifies this`settings, this`passes
      ensures settings == old(settings).(iterationOnMove := val)
      ensures passes == old(passes) + Cycle(settings.iteration)
    {
      settings := settings.(iterationOnMove := val);
      Optimize(settings.iteration);
    }

    method SetMethod(val: Method)
      modifies this`settings, this`passes
      ensures settings == old(settings).(smoothing := val)
      ensures passes == old(passes) + Cycle(settings.iteration)
    {
      settings := settings.(smoothing := val);
      Optimize(settings.iteration);
    }

    method SetNewPhaseMethod(val: bool)
      modifies this`settings, this`passes
      ensures settings == old(settings).(newPhaseMethod := val)
      ensures passes == old(passes) + Cycle(settings.iteration)
    {
      settings := settings.(newPhaseMethod := val);
      Optimize(settings.iteration);
    }

    method SetAngleOffset(val: real)
      modifies this`settings, this`passes
      ensures settings == old(settings).(angleOffset := val)
      ensures passes == old(passes) + Cycle(settings.iteration)
    {
      settings := settings.(angleOffset := val);
      Optimize(settings.iteration);
    }

    /** setDirectionTexture: keep a backup of the imported texture and solve;
        with an empty list the solve now starts from that texture. */
    method SetDirectionTexture()
      modifies this`directionBackup, this`passes
      ensures directionBackup
      ensures passes == old(passes) + Cycle(settings.iteration)
      ensures |constraints| == 0 ==> passes[|old(passes)|] == Scheduler.InitTexture
    {
      directionBackup := true;
      Optimize(settings.iteration);
    }
  }
}
