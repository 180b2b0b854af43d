/** The constraint record, the solver settings and their defaults, and the two
    ways the editor names a constraint in its list widget. */
module Constraints {
  import opened Words

  /** The smoothing method selector and the numeric code the shaders receive. */
  datatype Method = VectorAlternating | Vector | Tensor

  function MethodCode(m: Method): (r: nat)
  {
    match m
    case VectorAlternating => 0
    case Vector => 1
    case Tensor => 2
  }

  /** One polyline segment, in unit-square coordinates. */
  datatype Line = Line(x0: real, y0: real, x1: real, y1: real)

  /** A constraint: fifteen float fields, the id, then the segment list. */
  datatype Constraint = Constraint(
    centerX: real, centerY: real, width: real, height: real,
    dirX: real, dirY: real, rotAngle: real, skewH: real, skewV: real,
    lineCenterX: real, lineCenterY: real, lineWidth: real, lineHeight: real,
    tesselationLod: real, alignPhases: real,
    id: Word,
    lines: seq<Line>)

  /** Layout: fifteen 4-byte floats and a 4-byte id precede `lines`. */
  const SCALAR_FIELDS: nat := 15
  const RECORD_BYTES: nat := 4 * (SCALAR_FIELDS + 1)
  const LINE_BYTES: nat := 16

  /** Capacity and default settings of the optimizer. */
  const MAX_CONSTRAINTS: nat := 65536
  const MAX_UNDO_COUNT: nat := 256
  const DEFAULT_ITERATION: nat := 64
  const DEFAULT_ITERATION_ON_MOVE: nat := 16
  const DEFAULT_METHOD: Method := VectorAlternating
  const DEFAULT_NEW_PHASE_METHOD: bool := true
  const DEFAULT_ANGLE_OFFSET: real := 0.0

  function Abs(x: real): (r: real)
    ensures r >= 0.0 && (r == x || r == -x)
  {
    if x < 0.0 then -x else x
  }

  function Min(a: real, b: real): (r: real)
    ensures r <= a && r <= b && (r == a || r == b)
  {
    if b < a then b else a
  }

  function Max(a: real, b: real): (r: real)
    ensures r >= a && r >= b && (r == a || r == b)
  {
    if a < b then b else a
  }

  /** The fifteen float fields in declaration order. */
  function Scalars(c: Constraint): (r: seq<real>)
    ensures |r| == SCALAR_FIELDS
  {
    [c.centerX, c.centerY, c.width, c.height, c.dirX, c.dirY, c.rotAngle, c.skewH, c.skewV,
     c.lineCenterX, c.lineCenterY, c.lineWidth, c.lineHeight, c.tesselationLod, c.alignPhases]
  }

  /** The record whose float fields, in declaration order, are `s`. */
  function FromScalars(s: seq<real>, id: Word, lines: seq<Line>): (c: Constraint)
    requires |s| == SCALAR_FIELDS
  {
    Constraint(s[0], s[1], s[2], s[3], s[4], s[5], s[6], s[7], s[8],
               s[9], s[10], s[11], s[12], s[13], s[14], id, lines)
  }

  lemma ScalarsRoundTrip(c: Constraint, s: seq<real>, id: Word, lines: seq<Line>)
    requires |s| == SCALAR_FIELDS
    ensures FromScalars(Scalars(c), c.id, c.lines) == c
    ensures Scalars(FromScalars(s, id, lines)) == s
  {
  }

  /** The word a record's list entry is labelled with. */
  datatype Kind = RectangleKind | EllipseKind | LineKind

  /** Labelling used when a project is loaded: lines first, then `tesselationLod == 1`. */
  function LoadKind(c: Constraint): Kind
  {
    if |c.lines| > 0 then LineKind else if c.tesselationLod == 1.0 then RectangleKind else EllipseKind
  }

  /** Labelling used by undo, redo and duplicate: `tesselationLod > 1` first, then lines. */
  function HistoryKind(c: Constraint): Kind
  {
    if c.tesselationLod > 1.0 then EllipseKind else if |c.lines| == 0 then RectangleKind else LineKind
  }

  /** The two labellings agree exactly when a polyline has lod at most 1 and an
      area constraint has lod at least 1. */
  lemma KindsAgreeIff(c: Constraint)
    ensures LoadKind(c) == HistoryKind(c) <==>
            (|c.lines| > 0 ==> c.tesselationLod <= 1.0) && (|c.lines| == 0 ==> c.tesselationLod >= 1.0)
  {
  }

  /** Records built by the editor's add operations (lod 1 for lines and rectangles,
      32 for ellipses) are labelled the same both ways. */
  lemma {:induction false} KindsAgree(c: Constraint)
    requires |c.lines| > 0 ==> c.tesselationLod == 1.0
    requires |c.lines| == 0 ==> c.tesselationLod == 1.0 || c.tesselationLod == 32.0
    ensures LoadKind(c) == HistoryKind(c)
    ensures LoadKind(c) == LineKind <==> |c.lines| > 0
    ensures LoadKind(c) == EllipseKind <==> |c.lines| == 0 && c.tesselationLod == 32.0
  {
    KindsAgreeIff(c);
  }

  /** The largest id in a list, 0 for the empty list (folded left to right). */
  function MaxId(cs: seq<Constraint>): (r: Word)
    ensures forall i :: 0 <= i < |cs| ==> cs[i].id <= r
    ensures r == 0 || exists i :: 0 <= i < |cs| && cs[i].id == r
  {
    if |cs| == 0 then 0
    else
      var m := MaxId(cs[..|cs| - 1]);
      assert forall i :: 0 <= i < |cs| - 1 ==> cs[..|cs| - 1][i] == cs[i];
      if m < cs[|cs| - 1].id then cs[|cs| - 1].id else m
  }
}
