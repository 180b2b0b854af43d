/** The editor window's own logic: buffer alignment and memory-type search for
    the device, the rule that picks a constraint under the mouse, the
    classification of a pick into an edit action, and the tool state the mouse
    and key handlers keep (the line tool's point list above all). Everything
    geometric (the mouse-to-texture mapping, the box coordinates of a
    constraint, the handle hit tests) comes in as values or predicates. */
module Window {
  import opened Options
  import Mip

  // ------------------------------------------------------------- aligned

  const Word64: nat := 0x1_0000_0000_0000_0000

  /** A VkDeviceSize. */
  type U64 = x: nat | x < 0x1_0000_0000_0000_0000

  /** `x & ~m` on unsigned numbers, bit by bit from the lowest. */
  function AndNot(x: nat, m: nat): (r: nat)
    ensures r <= x
    decreases x
  {
    if x == 0 then 0 else 2 * AndNot(x / 2, m / 2) + (if x % 2 == 1 && m % 2 == 0 then 1 else 0)
  }

  /** aligned: `(v + a - 1) & ~(a - 1)` in 64-bit unsigned arithmetic. */
  function Aligned(v: U64, a: U64): U64
  {
    AndNot((v + a - 1) % Word64, (a - 1) % Word64)
  }

  /** With no overflow, aligning to a power of two rounds `v` up to the next
      multiple of it, and aligning again changes nothing. */
  lemma AlignedRoundsUp(v: U64, a: U64, k: nat)
    requires a == Mip.Pow2(k) && v + a - 1 < Word64
    ensures Aligned(v, a) % a == 0
    ensures v <= Aligned(v, a) < v + a
    ensures Aligned(Aligned(v, a), a) == Aligned(v, a)
  {
    AlignedValue(v, a, k);
    RoundDown(v + a - 1, a);
    MultipleFits(Aligned(v, a), a, k);
    AlignedMultiple(Aligned(v, a), a, k);
  }

  /** Without overflow, aligning takes the remainder modulo `a` off `v + a - 1`. */
  lemma AlignedValue(v: U64, a: U64, k: nat)
    requires a == Mip.Pow2(k) && v + a - 1 < Word64
    ensures Aligned(v, a) == (v + a - 1) - (v + a - 1) % a
  {
    NoWrap(v, a);
    AndNotLowBits(v + a - 1, k);
  }

  lemma {:induction false} AndNotNothing(x: nat)
    ensures AndNot(x, 0) == x
    decreases x
  {
    if x > 0 {
      AndNotNothing(x / 2);
    }
  }

  /** Masking out the `k` low bits subtracts the remainder modulo 2^k. */
  lemma {:induction false} AndNotLowBits(x: nat, k: nat)
    ensures AndNot(x, Mip.Pow2(k) - 1) == x - x % Mip.Pow2(k)
    decreases k
  {
    if k == 0 {
      AndNotNothing(x);
    } else {
      AndNotLowBits(x / 2, k - 1);
      ClearStep(x, k);
    }
  }

  /** One more low bit cleared: the step of the induction above. */
  lemma ClearStep(x: nat, k: nat)
    requires k >= 1
    requires AndNot(x / 2, Mip.Pow2(k - 1) - 1) == x / 2 - (x / 2) % Mip.Pow2(k - 1)
    ensures AndNot(x, Mip.Pow2(k) - 1) == x - x % Mip.Pow2(k)
  {
    var p := Mip.Pow2(k - 1);
    assert Mip.Pow2(k) == 2 * p;
    ClearBit(x, p, AndNot(x / 2, p - 1));
  }

  lemma ClearBit(x: nat, p: nat, h: nat)
    requires p >= 1 && h == AndNot(x / 2, p - 1) && h == x / 2 - (x / 2) % p
    ensures AndNot(x, 2 * p - 1) == x - x % (2 * p)
  {
    OddMask(p);
    if x > 0 {
      assert AndNot(x, 2 * p - 1) == 2 * h;
    }
    HalveRemainder(x, p);
  }

  lemma OddMask(p: nat)
    requires p >= 1
    ensures (2 * p - 1) / 2 == p - 1 && (2 * p - 1) % 2 == 1
  {
  }

  /** The remainder modulo `2p` in terms of the halved number's remainder modulo `p`. */
  lemma HalveRemainder(x: nat, p: nat)
    requires p >= 1
    ensures x % (2 * p) == 2 * ((x / 2) % p) + x % 2
  {
    var q := x / 2 / p;
    var s := (x / 2) % p;
    assert x / 2 == q * p + s;
    assert x == q * (2 * p) + (2 * s + x % 2);
    DivMod(x, 2 * p, q, 2 * s + x % 2);
  }

  /** Euclidean division has one quotient and one remainder. */
  lemma DivMod(n: nat, d: nat, q: nat, rem: nat)
    requires d >= 1 && n == q * d + rem && rem < d
    ensures n / d == q && n % d == rem
  {
    var q', rem' := n / d, n % d;
    assert n == q' * d + rem';
    if q' > q {
      MulAtLeast(q' - q, q, d);
      assert false;
    } else if q' < q {
      MulAtLeast(q - q', q', d);
      assert false;
    }
  }

  lemma MulAtLeast(e: nat, q: nat, d: nat)
    requires e >= 1
    ensures (q + e) * d >= q * d + d
  {
    assert (q + e) * d == q * d + (e - 1) * d + d;
  }

  /** Without overflow the sum and the mask are the plain ones. */
  lemma NoWrap(v: U64, a: U64)
    requires a >= 1 && v + a - 1 < Word64
    ensures Aligned(v, a) == AndNot(v + a - 1, a - 1)
  {
    assert (v + a - 1) % Word64 == v + a - 1;
    assert (a - 1) % Word64 == a - 1;
  }

  /** Taking away the remainder leaves a multiple within `a` below. */
  lemma RoundDown(x: nat, a: nat)
    requires a >= 1
    ensures (x - x % a) % a == 0 && x - a < x - x % a <= x
  {
    DivMod((x / a) * a, a, x / a, 0);
  }

  lemma Pow2Word()
    ensures Mip.Pow2(64) == Word64
  {
    assert Mip.Pow2(2) == 4;
    Pow2Square(2, 4);
    Pow2Square(4, 16);
    Pow2Square(8, 0x100);
    Pow2Square(16, 0x1_0000);
    Pow2Square(32, 0x1_0000_0000);
  }

  lemma Pow2Square(i: nat, p: nat)
    requires Mip.Pow2(i) == p
    ensures Mip.Pow2(i + i) == p * p
  {
    Pow2Add(i, i);
  }

  lemma {:induction false} Pow2Add(i: nat, j: nat)
    ensures Mip.Pow2(i + j) == Mip.Pow2(i) * Mip.Pow2(j)
    decreases i
  {
    if i > 0 {
      Pow2Add(i - 1, j);
    }
  }

  lemma {:induction false} Pow2Grows(i: nat, j: nat)
    requires i <= j
    ensures Mip.Pow2(i) <= Mip.Pow2(j)
    decreases j
  {
    if i < j {
      Pow2Grows(i, j - 1);
    }
  }

  /** A multiple of a power of two below 2^64 leaves room for `a - 1` more. */
  lemma MultipleFits(r: nat, a: nat, k: nat)
    requires a == Mip.Pow2(k) && a < Word64 && r < Word64 && r % a == 0
    ensures r + a - 1 < Word64
  {
    Pow2Word();
    if k >= 64 {
      Pow2Grows(64, k);
      assert false;
    }
    Pow2Add(64 - k, k);
    var c := Mip.Pow2(64 - k);
    var q := r / a;
    assert r == q * a;
    assert Word64 == c * a;
    if q >= c {
      if q > c {
        MulAtLeast(q - c, c, a);
      }
      assert false;
    }
    MulAtLeast(c - q, q, a);
  }

  /** Aligning a multiple of `a` leaves it as it is. */
  lemma AlignedMultiple(r: U64, a: U64, k: nat)
    requires a == Mip.Pow2(k) && r % a == 0 && r + a - 1 < Word64
    ensures Aligned(r, a) == r
  {
    NoWrap(r, a);
    AndNotLowBits(r + a - 1, k);
    LastBeforeNext(r, a);
  }

  lemma LastBeforeNext(r: nat, a: nat)
    requires a >= 1 && r % a == 0
    ensures (r + a - 1) % a == a - 1
  {
    var q := r / a;
    assert r == q * a;
    DivMod(r + a - 1, a, q, a - 1);
  }

  // ------------------------------------------------------- findMemoryType

  /** `1 << i` as a 32-bit mask. */
  function Bit(i: nat): bv32
    requires i < 32
  {
    (1 as bv32) << i
  }

  /** `(flags & properties) == properties`. */
  predicate HasAll(flags: bv32, properties: bv32)
  {
    flags & properties == properties
  }

  /** `typeFilter & (1 << i)`: the filter allows memory type `i`. */
  predicate Allowed(filter: bv32, i: nat)
  {
    i < 32 && filter & Bit(i) != 0
  }

  /** Whether memory type `i` is allowed by the filter and has every
      requested property flag. */
  predicate Suitable(filter: bv32, flags: seq<bv32>, properties: bv32, i: nat)
  {
    i < |flags| && Allowed(filter, i) && HasAll(flags[i], properties)
  }

  /** findMemoryType over the device's memory types (at most 32 of them).
      `found` false is the fatal `crash` path, whose return value is 0. */
  method FindMemoryType(filter: bv32, flags: seq<bv32>, properties: bv32) returns (index: nat, found: bool)
    requires |flags| <= 32
    ensures found ==> Suitable(filter, flags, properties, index)
    ensures found ==> forall j: nat :: j < index ==> !Suitable(filter, flags, properties, j)
    ensures !found ==> index == 0 && forall j: nat :: !Suitable(filter, flags, properties, j)
  {
    var i: nat := 0;
    while i < |flags|
      invariant i <= |flags|
      invariant forall j: nat :: j < i ==> !Suitable(filter, flags, properties, j)
    {
      if Allowed(filter, i) && HasAll(flags[i], properties) {
        return i, true;
      }
      i := i + 1;
    }
    return 0, false;
  }

  // -------------------------------------------------------------- tryPick

  datatype EditAction = Move | Rotate | DragPX | DragNX | DragPY | DragNY | MovePoint

  /** The mouse in a constraint's own frame: `x`, `y` scaled so that the box
      edges sit at +-1, and the box's extents `w` = width * lineWidth and
      `h` = height * lineHeight. */
  datatype Local = Local(x: real, y: real, w: real, h: real)

  function Abs(r: real): real
  {
    if r < 0.0 then -r else r
  }

  /** The hit test: at most 0.08 (on screen) outside the box on either axis. */
  predicate InBox(l: Local, scale: real)
  {
    (Abs(l.x) - 1.0) * Abs(l.w) * scale < 0.08 && (Abs(l.y) - 1.0) * Abs(l.h) * scale < 0.08
  }

  predicate InCorner(l: Local)
  {
    Abs(l.x) > 0.8 && Abs(l.y) > 0.8
  }

  /** More than 0.08 away from the edges on both axes. */
  predicate AwayFromEdges(l: Local, scale: real)
  {
    Abs(Abs(l.x) - 1.0) * Abs(l.w) * scale > 0.08 && Abs(Abs(l.y) - 1.0) * Abs(l.h) * scale > 0.08
  }

  /** On an edge band of the box, near no corner. */
  predicate OnEdge(l: Local, scale: real)
  {
    InBox(l, scale) && !InCorner(l) && !AwayFromEdges(l, scale)
  }

  /** tryPick: which edit a press at `l` starts, or None when it misses the box. */
  function TryPick(l: Local, scale: real): (r: Option<EditAction>)
    ensures r.Some? <==> InBox(l, scale)
    ensures r == Some(Rotate) <==> InBox(l, scale) && InCorner(l)
    ensures r == Some(Move) <==> InBox(l, scale) && !InCorner(l) && AwayFromEdges(l, scale)
    ensures r == Some(DragPX) <==> OnEdge(l, scale) && l.x > 0.8
    ensures r == Some(DragNX) <==> OnEdge(l, scale) && l.x < -0.8
    ensures r == Some(DragPY) <==> OnEdge(l, scale) && -0.8 <= l.x <= 0.8 && l.y > 0.8
    ensures r == Some(DragNY) <==> OnEdge(l, scale) && -0.8 <= l.x <= 0.8 && l.y <= 0.8
    ensures r != Some(MovePoint)
  {
    if !InBox(l, scale) then None
    else if Abs(l.x) > 0.8 && Abs(l.y) > 0.8 then Some(Rotate)
    else if AwayFromEdges(l, scale) then Some(Move)
    else if l.x > 0.8 then Some(DragPX)
    else if l.x < -0.8 then Some(DragNX)
    else if l.y > 0.8 then Some(DragPY)
    else Some(DragNY)
  }

  // --------------------------------------------------------- getConstraint

  /** What the picker sees of one constraint: its frame at the mouse and how
      many polyline segments it has. */
  datatype Target = Target(local: Local, segments: nat)

  /** The scene under the mouse. The handle tests are float geometry and come
      in as predicates over (constraint, segment): the double-click test for a
      point on the segment's interior, and the start and end point tests. */
  datatype Scene = Scene(targets: seq<Target>, scale: real,
                         onSegment: (nat, nat) -> bool,
                         startHit: (nat, nat) -> bool,
                         endHit: (nat, nat) -> bool,
                         dist: nat -> real)

  /** std::numeric_limits<float>::max(). */
  const MaxFloat: real := 340282346638528859811704183484516925440.0

  predicate InBoxAt(sc: Scene, k: nat)
  {
    k < |sc.targets| && InBox(sc.targets[k].local, sc.scale)
  }

  /** Whether segment `i` of constraint `k` holds a handle under the mouse:
      its interior on a double click, its start point, or, for the last
      segment, its end point. */
  predicate SegmentHit(sc: Scene, k: nat, i: nat, doubleClick: bool)
  {
    k < |sc.targets| && i < sc.targets[k].segments &&
    ((doubleClick && sc.onSegment(k, i)) || sc.startHit(k, i) ||
     (i + 1 == sc.targets[k].segments && sc.endHit(k, i)))
  }

  predicate NoHandle(sc: Scene, k: nat, doubleClick: bool)
  {
    k < |sc.targets| ==> forall i: nat :: i < sc.targets[k].segments ==> !SegmentHit(sc, k, i, doubleClick)
  }

  /** The selected line a hit on segment `i` gives, and whether it splits the
      segment: i + 1 after a split, i for a start point, the segment count
      for the final end point. */
  function HandleLine(sc: Scene, k: nat, i: nat, doubleClick: bool): (nat, bool)
    requires k < |sc.targets|
  {
    if doubleClick && sc.onSegment(k, i) then (i + 1, true)
    else if sc.startHit(k, i) then (i, false)
    else (sc.targets[k].segments, false)
  }

  datatype Pick =
    | NoPick
    | PointPick(index: nat, segment: nat, line: nat, split: bool)
    | BodyPick(index: nat)

  /** The index getConstraint returns: -1 for no pick. */
  function PickIndex(p: Pick): int
  {
    if p.NoPick? then -1 else p.index
  }

  /** The segment loop of one constraint: the first segment with a handle hit. */
  method FindHandle(sc: Scene, k: nat, doubleClick: bool) returns (found: bool, segment: nat)
    requires k < |sc.targets|
    ensures found ==> SegmentHit(sc, k, segment, doubleClick)
    ensures found ==> forall i: nat :: i < segment ==> !SegmentHit(sc, k, i, doubleClick)
    ensures !found ==> NoHandle(sc, k, doubleClick)
  {
    var n := sc.targets[k].segments;
    var i: nat := 0;
    while i < n
      invariant i <= n
      invariant forall j: nat :: j < i ==> !SegmentHit(sc, k, j, doubleClick)
    {
      if (doubleClick && sc.onSegment(k, i)) || sc.startHit(k, i) || (i == n - 1 && sc.endHit(k, i)) {
        return true, i;
      }
      i := i + 1;
    }
    return false, 0;
  }

  /** What getConstraint promises of its pick: nothing while constraints are
      hidden; else the first handle hit, in constraint then segment order;
      else the constraint whose box holds the mouse with the smallest centre
      distance, the earliest on a tie; else nothing. */
  ghost predicate Picked(show: bool, sc: Scene, doubleClick: bool, pick: Pick)
  {
    (!show ==> pick == NoPick) &&
    (show && pick.PointPick? ==>
       InBoxAt(sc, pick.index) && SegmentHit(sc, pick.index, pick.segment, doubleClick) &&
       (forall i: nat :: i < pick.segment ==> !SegmentHit(sc, pick.index, i, doubleClick)) &&
       (pick.line, pick.split) == HandleLine(sc, pick.index, pick.segment, doubleClick) &&
       forall j: nat :: j < pick.index && InBoxAt(sc, j) ==> NoHandle(sc, j, doubleClick)) &&
    (show && pick.BodyPick? ==>
       InBoxAt(sc, pick.index) && sc.dist(pick.index) < MaxFloat &&
       (forall j: nat :: InBoxAt(sc, j) ==> NoHandle(sc, j, doubleClick)) &&
       (forall j: nat :: InBoxAt(sc, j) ==> sc.dist(pick.index) <= sc.dist(j)) &&
       forall j: nat :: j < pick.index && InBoxAt(sc, j) ==> sc.dist(pick.index) < sc.dist(j)) &&
    (show && pick.NoPick? ==>
       forall j: nat :: InBoxAt(sc, j) ==> NoHandle(sc, j, doubleClick) && sc.dist(j) >= MaxFloat)
  }

  /** getConstraint (the hit tests of its loop body are the scene's). */
  method GetConstraint(show: bool, sc: Scene, doubleClick: bool) returns (pick: Pick)
    ensures Picked(show, sc, doubleClick, pick)
  {
    if !show {
      return NoPick;
    }
    var minIndex: int := -1;
    var minDist := MaxFloat;
    var index: nat := 0;
    while index < |sc.targets|
      invariant index <= |sc.targets|
      invariant -1 <= minIndex < index
      invariant forall j: nat :: j < index && InBoxAt(sc, j) ==> NoHandle(sc, j, doubleClick)
      invariant forall j: nat :: j < index && InBoxAt(sc, j) ==> minDist <= sc.dist(j)
      invariant minIndex == -1 ==> minDist == MaxFloat
      invariant minIndex >= 0 ==> InBoxAt(sc, minIndex) && minDist == sc.dist(minIndex) < MaxFloat
      invariant minIndex >= 0 ==> forall j: nat :: j < minIndex && InBoxAt(sc, j) ==> minDist < sc.dist(j)
    {
      if InBox(sc.targets[index].local, sc.scale) {
        var found, segment := FindHandle(sc, index, doubleClick);
        if found {
          var hl := HandleLine(sc, index, segment, doubleClick);
          return PointPick(index, segment, hl.0, hl.1);
        }
        var d := sc.dist(index);
        if d < minDist {
          minDist := d;
          minIndex := index;
        }
      }
      index := index + 1;
    }
    if minIndex >= 0 {
      return BodyPick(minIndex);
    }
    return NoPick;
  }

  /** The selection rule leaves no choice: at most one pick meets it. */
  lemma PickedUnique(show: bool, sc: Scene, doubleClick: bool, p: Pick, q: Pick)
    requires Picked(show, sc, doubleClick, p) && Picked(show, sc, doubleClick, q)
    ensures p == q
  {
  }

  // ----------------------------------------------------------- tool state

  datatype Tool = Select | Rectangle | Line | Ellipse | NoTool

  datatype Point = Point(x: real, y: real)

  /** The calls the window makes on the optimizer, in order. */
  datatype Request =
    | AddRectangle(corner: Point, opposite: Point)
    | AddEllipse(corner: Point, opposite: Point)
    | AddLine(points: seq<Point>)
    | AddPoint(index: nat, segment: nat, at: Point)
    | OptimizeAndCommit

  /** The mouse button of an event; `MiddleButton` stands for both Qt's middle
      button and its first extra button, which the window treats alike. */
  datatype Button = LeftButton | RightButton | MiddleButton | OtherButton

  /** Escape, Return and Enter all finish a line. */
  datatype Key = ControlKey | ShiftKey | FinishKey | OtherKey

  /** The flags of the held-keys mask (bits 0 to 4 of `m_downKeys`); the mask
      is kept as the set of flags whose bit is set. */
  datatype Held = LeftMouse | RightMouse | MiddleMouse | CtrlDown | ShiftDown

  /** Two presses closer than this many milliseconds make a double click. */
  const DoubleClickMillis: nat := 500

  /** The line tool keeps a point only this far (per coordinate) from the last one. */
  predicate Apart(p: Point, q: Point)
  {
    Abs(p.x - q.x) > 0.0005 || Abs(p.y - q.y) > 0.0005
  }

  /** Consecutive points are apart. */
  predicate Spaced(ps: seq<Point>)
  {
    forall i :: 0 < i < |ps| ==> Apart(ps[i - 1], ps[i])
  }

  /** Every polyline handed to the optimizer has at least two spaced points. */
  predicate LinesWellFormed(requests: seq<Request>)
  {
    forall r :: r in requests && r.AddLine? ==> |r.points| >= 2 && Spaced(r.points)
  }

  /** Two presses closer than 500 ms make a double click; the unsigned
      difference of an earlier reading is huge, so that is no double click. */
  predicate DoubleClick(lastPress: nat, time: nat)
  {
    time >= lastPress && time - lastPress < DoubleClickMillis
  }

  class VulkanWindow {
    var tool: Tool
    var selectedConstraint: int
    var selectedLine: int
    var editAction: EditAction
    var pointList: seq<Point>
    var downKeys: set<Held>
    var lastDown: Point
    var lastPressPosition: Point
    var lastPressTime: nat
    var optimizeOnMove: bool
    var requests: seq<Request>

    ghost predicate Valid()
      reads this
    {
      Spaced(pointList) && LinesWellFormed(requests)
    }

    /** The member initialisers of the window. */
    constructor()
      ensures Valid()
      ensures tool == Select && selectedConstraint == -1 && selectedLine == -1
      ensures editAction == Move && pointList == [] && downKeys == {}
      ensures lastPressTime == 0 && optimizeOnMove && requests == []
    {
      tool := Select;
      selectedConstraint := -1;
      selectedLine := -1;
      editAction := Move;
      pointList := [];
      downKeys := {};
      lastDown := Point(0.0, 0.0);
      lastPressPosition := Point(0.0, 0.0);
      lastPressTime := 0;
      optimizeOnMove := true;
      requests := [];
    }

    twostate predicate SelectionKept()
      reads this
    {
      selectedConstraint == old(selectedConstraint) && selectedLine == old(selectedLine) &&
      editAction == old(editAction)
    }

    twostate predicate SettingsKept()
      reads this
    {
      tool == old(tool) && lastDown == old(lastDown) && lastPressPosition == old(lastPressPosition) &&
      lastPressTime == old(lastPressTime) && optimizeOnMove == old(optimizeOnMove)
    }

    /** Only the held keys and buttons change, as `keys` says. */
    twostate predicate OnlyKeys(keys: bool)
      reads this
    {
      keys && SelectionKept() && SettingsKept() && pointList == old(pointList) && requests == old(requests)
    }

    /** switchTool: nothing while no tool is active unless forced; otherwise the
        selection and the point list are dropped and the tool set. */
    method SwitchTool(t: Tool, force: bool)
      requires Valid()
      modifies this
      ensures Valid()
      ensures old(tool) == NoTool && !force ==> unchanged(this)
      ensures !(old(tool) == NoTool && !force) ==>
                tool == t && selectedConstraint == -1 && selectedLine == -1 && pointList == [] &&
                downKeys == old(downKeys) - {LeftMouse} && editAction == old(editAction) &&
                lastDown == old(lastDown) && lastPressPosition == old(lastPressPosition) &&
                lastPressTime == old(lastPressTime) && optimizeOnMove == old(optimizeOnMove) &&
                requests == old(requests)
    {
      if tool == NoTool && !force {
        return;
      }
      downKeys := downKeys - {LeftMouse};
      selectedConstraint := -1;
      selectedLine := -1;
      pointList := [];
      tool := t;
    }

    /** The line tool's press: keep the point unless it repeats the last one. */
    method AddLinePoint(p: Point)
      requires Valid()
      modifies this
      ensures Valid()
      ensures old(pointList) == [] || Apart(old(pointList)[|old(pointList)| - 1], p) ==>
                pointList == old(pointList) + [p]
      ensures !(old(pointList) == [] || Apart(old(pointList)[|old(pointList)| - 1], p)) ==>
                pointList == old(pointList)
      ensures SelectionKept() && SettingsKept() && downKeys == old(downKeys) && requests == old(requests)
    {
      if |pointList| == 0 || Apart(pointList[|pointList| - 1], p) {
        pointList := pointList + [p];
      }
    }

    /** What a select press does with the pick: select its constraint; a
        handle starts a point move (splitting the segment on a double click
        into it), a body hit starts the edit tryPick classifies. */
    twostate predicate SelectedBy(pick: Pick, uv: Point, sc: Scene)
      reads this`selectedConstraint, this`selectedLine, this`editAction, this`requests
    {
      selectedConstraint == PickIndex(pick) &&
      (pick.PointPick? ==>
         editAction == MovePoint && selectedLine == pick.line &&
         requests == old(requests) + (if pick.split then [AddPoint(pick.index, pick.segment, uv)] else [])) &&
      (pick.BodyPick? ==>
         pick.index < |sc.targets| && selectedLine == old(selectedLine) && requests == old(requests) &&
         Some(editAction) == TryPick(sc.targets[pick.index].local, sc.scale)) &&
      (pick.NoPick? ==>
         editAction == old(editAction) && selectedLine == old(selectedLine) && requests == old(requests))
    }

    /** The select tool's press. */
    method SelectAt(uv: Point, show: bool, sc: Scene, doubleClick: bool) returns (pick: Pick)
      requires Valid()
      modifies this
      ensures Valid()
      ensures Picked(show, sc, doubleClick, pick) && SelectedBy(pick, uv, sc)
      ensures SettingsKept() && pointList == old(pointList) && downKeys == old(downKeys)
    {
      pick := GetConstraint(show, sc, doubleClick);
      match pick {
        case PointPick(index, segment, line, split) =>
          if split {
            requests := requests + [AddPoint(index, segment, uv)];
          }
          editAction := MovePoint;
          selectedLine := line;
        case BodyPick(index) =>
          editAction := TryPick(sc.targets[index].local, sc.scale).value;
        case NoPick =>
      }
      selectedConstraint := PickIndex(pick);
    }

    /** What a left press does: hold the button, remember where and when, and
        unless the middle button is held, act with the current tool at `uv`. */
    twostate predicate PressedLeft(pos: Point, uv: Point, time: nat, show: bool, sc: Scene, pick: Pick)
      reads this
    {
      downKeys == old(downKeys) + {LeftMouse} && lastPressPosition == pos && lastPressTime == time &&
      tool == old(tool) && optimizeOnMove == old(optimizeOnMove) &&
      (MiddleMouse in old(downKeys) || tool !in {Select, Line} ==>
         lastDown == (if MiddleMouse in old(downKeys) then old(lastDown) else uv) &&
         SelectionKept() && pointList == old(pointList) && requests == old(requests)) &&
      (MiddleMouse !in old(downKeys) && tool == Line ==>
         lastDown == uv && SelectionKept() && requests == old(requests) &&
         pointList == if old(pointList) == [] || Apart(old(pointList)[|old(pointList)| - 1], uv)
                      then old(pointList) + [uv] else old(pointList)) &&
      (MiddleMouse !in old(downKeys) && tool == Select ==>
         lastDown == uv && pointList == old(pointList) &&
         Picked(show, sc, DoubleClick(old(lastPressTime), time), pick) && SelectedBy(pick, uv, sc))
    }

    /** The left button's press. */
    method PressLeft(pos: Point, uv: Point, time: nat, show: bool, sc: Scene) returns (pick: Pick)
      requires Valid()
      modifies this
      ensures Valid()
      ensures PressedLeft(pos, uv, time, show, sc, pick)
    {
      pick := NoPick;
      if MiddleMouse !in downKeys {
        if tool == Select {
          pick := SelectAt(uv, show, sc, DoubleClick(lastPressTime, time));
        } else if tool == Line {
          AddLinePoint(uv);
        }
        lastDown := uv;
      }
      lastPressPosition := pos;
      downKeys := downKeys + {LeftMouse};
      lastPressTime := time;
    }

    /** mousePressEvent. `pos` is the window position, `uv` its texture
        coordinate, `time` the double-click timer's reading and `show` whether
        constraints are drawn. `pick` is the select tool's pick (NoPick otherwise). */
    method MousePress(button: Button, pos: Point, uv: Point, time: nat, show: bool, sc: Scene) returns (pick: Pick)
      requires Valid()
      modifies this
      ensures Valid()
      ensures button == LeftButton ==> PressedLeft(pos, uv, time, show, sc, pick)
      ensures button == RightButton ==> OnlyKeys(downKeys == old(downKeys) + {RightMouse})
      ensures button == MiddleButton ==> OnlyKeys(downKeys == old(downKeys) + {MiddleMouse})
      ensures button == OtherButton ==> unchanged(this)
    {
      pick := NoPick;
      match button {
        case LeftButton =>
          pick := PressLeft(pos, uv, time, show, sc);
        case RightButton =>
          downKeys := downKeys + {RightMouse};
        case MiddleButton =>
          downKeys := downKeys + {MiddleMouse};
        case OtherButton =>
      }
    }

    /** Hand the point list to addLine and start a new one. */
    method FinishLine()
      requires Valid() && |pointList| > 1
      modifies this
      ensures Valid()
      ensures requests == old(requests) + [AddLine(old(pointList))] && pointList == []
      ensures SelectionKept() && SettingsKept() && downKeys == old(downKeys)
    {
      requests := requests + [AddLine(pointList)];
      pointList := [];
    }

    /** What the left button's release does: make the rectangle or ellipse
        dragged out since the press, or end a select drag, solving and
        committing when the mouse moved (`dragged`: more than one pixel,
        Manhattan). */
    twostate predicate ReleasedLeft(uv: Point, dragged: bool)
      reads this
    {
      downKeys == old(downKeys) - {LeftMouse} && pointList == old(pointList) && SettingsKept() &&
      (tool == Rectangle ==> requests == old(requests) + [AddRectangle(uv, lastDown)] && SelectionKept()) &&
      (tool == Ellipse ==> requests == old(requests) + [AddEllipse(uv, lastDown)] && SelectionKept()) &&
      (tool == Select && old(selectedConstraint) != -1 ==>
         requests == old(requests) + (if dragged then [OptimizeAndCommit] else []) &&
         selectedConstraint == -1 && selectedLine == -1 && editAction == old(editAction)) &&
      (tool !in {Rectangle, Ellipse} && !(tool == Select && old(selectedConstraint) != -1) ==>
         requests == old(requests) && SelectionKept())
    }

    method ReleaseLeft(uv: Point, dragged: bool)
      requires Valid()
      modifies this
      ensures Valid()
      ensures ReleasedLeft(uv, dragged)
    {
      downKeys := downKeys - {LeftMouse};
      if tool == Rectangle {
        requests := requests + [AddRectangle(uv, lastDown)];
      } else if tool == Ellipse {
        requests := requests + [AddEllipse(uv, lastDown)];
      } else if tool == Select && selectedConstraint != -1 {
        if dragged {
          requests := requests + [OptimizeAndCommit];
        }
        selectedConstraint := -1;
        selectedLine := -1;
      }
    }

    /** What the right button's release does: finish the line tool's
        polyline when it has more than one point. */
    twostate predicate ReleasedRight()
      reads this
    {
      downKeys == old(downKeys) - {RightMouse} && SelectionKept() && SettingsKept() &&
      (tool == Line && old(|pointList|) > 1 ==>
         requests == old(requests) + [AddLine(old(pointList))] && pointList == []) &&
      (!(tool == Line && old(|pointList|) > 1) ==>
         requests == old(requests) && pointList == old(pointList))
    }

    method ReleaseRight()
      requires Valid()
      modifies this
      ensures Valid()
      ensures ReleasedRight()
    {
      downKeys := downKeys - {RightMouse};
      if tool == Line && |pointList| > 1 {
        FinishLine();
      }
    }

    /** mouseReleaseEvent. */
    method MouseRelease(button: Button, uv: Point, dragged: bool)
      requires Valid()
      modifies this
      ensures Valid()
      ensures button == LeftButton ==> ReleasedLeft(uv, dragged)
      ensures button == RightButton ==> ReleasedRight()
      ensures button == MiddleButton ==> OnlyKeys(downKeys == old(downKeys) - {MiddleMouse})
      ensures button == OtherButton ==> unchanged(this)
    {
      match button {
        case LeftButton =>
          ReleaseLeft(uv, dragged);
        case RightButton =>
          ReleaseRight();
        case MiddleButton =>
          downKeys := downKeys - {MiddleMouse};
        case OtherButton =>
      }
    }

    /** keyPressEvent. */
    method KeyPress(key: Key)
      requires Valid()
      modifies this
      ensures Valid()
      ensures key == ControlKey ==> OnlyKeys(downKeys == old(downKeys) + {CtrlDown})
      ensures key == ShiftKey ==> OnlyKeys(downKeys == old(downKeys) + {ShiftDown})
      ensures key == FinishKey && tool == Line && old(|pointList|) > 1 ==>
                requests == old(requests) + [AddLine(old(pointList))] && pointList == [] &&
                SelectionKept() && SettingsKept() && downKeys == old(downKeys)
      ensures key == FinishKey && !(tool == Line && old(|pointList|) > 1) ==> unchanged(this)
      ensures key == OtherKey ==> unchanged(this)
    {
      match key {
        case ControlKey =>
          downKeys := downKeys + {CtrlDown};
        case ShiftKey =>
          downKeys := downKeys + {ShiftDown};
        case FinishKey =>
          if tool == Line && |pointList| > 1 {
            FinishLine();
          }
        case OtherKey =>
      }
    }

    /** keyReleaseEvent. */
    method KeyRelease(key: Key)
      requires Valid()
      modifies this
      ensures Valid()
      ensures key == ControlKey ==> OnlyKeys(downKeys == old(downKeys) - {CtrlDown})
      ensures key == ShiftKey ==> OnlyKeys(downKeys == old(downKeys) - {ShiftDown})
      ensures key == FinishKey || key == OtherKey ==> unchanged(this)
    {
      if key == ControlKey {
        downKeys := downKeys - {CtrlDown};
      } else if key == ShiftKey {
        downKeys := downKeys - {ShiftDown};
      }
    }

    /** clearDownKeys. */
    method ClearDownKeys()
      requires Valid()
      modifies this
      ensures Valid()
      ensures OnlyKeys(downKeys == {})
    {
      downKeys := {};
    }

    /** setOptimizeOnMove. */
    method SetOptimizeOnMove(value: bool)
      requires Valid()
      modifies this
      ensures Valid()
      ensures optimizeOnMove == value && SelectionKept() && downKeys == old(downKeys)
      ensures tool == old(tool) && lastDown == old(lastDown) && lastPressPosition == old(lastPressPosition)
      ensures lastPressTime == old(lastPressTime) && pointList == old(pointList) && requests == old(requests)
    {
      optimizeOnMove := value;
    }
  }

  /** A line finished from the point list always meets addLine's demand of at
      least two points, and holds no point repeated from the one before it. */
  lemma FinishedLinesWellFormed(requests: seq<Request>, k: nat)
    requires LinesWellFormed(requests) && k < |requests| && requests[k].AddLine?
    ensures |requests[k].points| >= 2
    ensures forall i :: 0 < i < |requests[k].points| ==>
              Apart(requests[k].points[i - 1], requests[k].points[i])
  {
    assert requests[k] in requests;
  }
}
