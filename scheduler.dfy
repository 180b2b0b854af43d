/** The solver's control flow: the multigrid V-cycle `optimize` runs, and the
    per-pass uniform records it packs into the shared uniform buffer. The passes
    themselves run in shaders and appear here only as abstract steps. */
module Scheduler {
  import opened Words
  import opened Constraints

  /** One GPU pass of the solver, with the pyramid level it works on. */
  datatype Pass =
    | InitTexture
    | InitRasterize
    | Restrict(level: nat)
    | Smooth(level: nat, iterations: Word)
    | Prolong(level: nat)
    | Finalize

  /** The first pass: restore the backup direction texture when there is one and
      no constraint, rasterize the constraints otherwise. */
  function InitPass(noConstraints: bool, hasBackup: bool): (p: Pass)
    ensures p == InitTexture <==> noConstraints && hasBackup
    ensures p != InitTexture ==> p == InitRasterize
  {
    if noConstraints && hasBackup then InitTexture else InitRasterize
  }

  /** restrict(1), ..., restrict(n), in that order. */
  function Restricts(n: nat): seq<Pass>
  {
    if n == 0 then [] else Restricts(n - 1) + [Restrict(n)]
  }

  /** smooth(i) then prolong(i - 1), for i from n down to 1. */
  function Descent(n: nat, it: Word): seq<Pass>
  {
    if n == 0 then [] else [Smooth(n, it), Prolong(n - 1)] + Descent(n - 1, it)
  }

  /** The V-cycle over an n+1 level pyramid with `it` smoothing iterations per level. */
  function VCycle(n: nat, it: Word, init: Pass): seq<Pass>
  {
    [init] + Restricts(n) + Descent(n, it) + [Smooth(0, it), Finalize]
  }

  /** optimize(iteration): init, the restriction loop, the descent loop, then
      the finest smoothing and finalize. */
  method RunVCycle(n: nat, it: Word, init: Pass) returns (t: seq<Pass>)
    ensures t == VCycle(n, it, init)
  {
    t := [init];
    var i := 0;
    while i < n
      invariant 0 <= i <= n && t == [init] + Restricts(i)
    {
      t := t + [Restrict(i + 1)];
      i := i + 1;
    }
    i := n;
    while i > 0
      invariant 0 <= i <= n
      invariant t + Descent(i, it) == [init] + Restricts(n) + Descent(n, it)
    {
      assert t + Descent(i, it) == (t + [Smooth(i, it), Prolong(i - 1)]) + Descent(i - 1, it);
      t := t + [Smooth(i, it), Prolong(i - 1)];
      i := i - 1;
    }
    t := t + [Smooth(0, it), Finalize];
  }

  lemma {:induction false} RestrictsAt(n: nat)
    ensures |Restricts(n)| == n
    ensures forall k :: 0 <= k < n ==> Restricts(n)[k] == Restrict(k + 1)
  {
    if n > 0 {
      RestrictsAt(n - 1);
    }
  }

  lemma {:induction false} DescentAt(n: nat, it: Word)
    ensures |Descent(n, it)| == 2 * n
    ensures forall j :: 0 <= j < n ==> Descent(n, it)[2 * j] == Smooth(n - j, it)
    ensures forall j :: 0 <= j < n ==> Descent(n, it)[2 * j + 1] == Prolong(n - j - 1)
  {
    if n > 0 {
      DescentAt(n - 1, it);
      var d := Descent(n, it);
      forall j | 0 <= j < n
        ensures d[2 * j] == Smooth(n - j, it) && d[2 * j + 1] == Prolong(n - j - 1)
      {
        if j > 0 {
          assert d[2 * j] == Descent(n - 1, it)[2 * (j - 1)];
          assert d[2 * j + 1] == Descent(n - 1, it)[2 * (j - 1) + 1];
        }
      }
    }
  }

  /** The whole trace by position: 3n+3 passes, the restrictions ascending
      right after init, then smooth(i) directly before prolong(i - 1) for i
      from n down to 1, then smooth(0) and finalize last. */
  lemma {:induction false} VCycleAt(n: nat, it: Word, init: Pass)
    ensures |VCycle(n, it, init)| == 3 * n + 3
    ensures VCycle(n, it, init)[0] == init
    ensures forall k :: 1 <= k <= n ==> VCycle(n, it, init)[k] == Restrict(k)
    ensures forall j :: 0 <= j < n ==> VCycle(n, it, init)[n + 1 + 2 * j] == Smooth(n - j, it)
    ensures forall j :: 0 <= j < n ==> VCycle(n, it, init)[n + 2 + 2 * j] == Prolong(n - j - 1)
    ensures VCycle(n, it, init)[3 * n + 1] == Smooth(0, it)
    ensures VCycle(n, it, init)[3 * n + 2] == Finalize
  {
    RestrictsAt(n);
    DescentAt(n, it);
    var t := VCycle(n, it, init);
    var r := Restricts(n);
    var d := Descent(n, it);
    assert t == [init] + r + d + [Smooth(0, it), Finalize];
    forall k | 1 <= k <= n ensures t[k] == Restrict(k) {
      assert t[k] == r[k - 1];
    }
    forall j | 0 <= j < n
      ensures t[n + 1 + 2 * j] == Smooth(n - j, it) && t[n + 2 + 2 * j] == Prolong(n - j - 1)
    {
      assert t[n + 1 + 2 * j] == d[2 * j];
      assert t[n + 2 + 2 * j] == d[2 * j + 1];
    }
  }

  /** The levels of the smoothing passes of a trace, in trace order. */
  function SmoothLevels(t: seq<Pass>): seq<nat>
  {
    if |t| == 0 then []
    else (if t[0].Smooth? then [t[0].level] else []) + SmoothLevels(t[1..])
  }

  lemma {:induction false} SmoothLevelsAppend(a: seq<Pass>, b: seq<Pass>)
    ensures SmoothLevels(a + b) == SmoothLevels(a) + SmoothLevels(b)
    decreases |a|
  {
    if |a| == 0 {
      assert a + b == b;
    } else {
      assert (a + b)[0] == a[0] && (a + b)[1..] == a[1..] + b;
      SmoothLevelsAppend(a[1..], b);
    }
  }

  lemma {:induction false} RestrictsDoNotSmooth(n: nat)
    ensures SmoothLevels(Restricts(n)) == []
  {
    if n > 0 {
      RestrictsDoNotSmooth(n - 1);
      SmoothLevelsAppend(Restricts(n - 1), [Restrict(n)]);
    }
  }

  lemma {:induction false} DescentSmooths(n: nat, it: Word)
    ensures SmoothLevels(Descent(n, it)) == seq(n, j requires 0 <= j < n => n - j)
  {
    if n > 0 {
      DescentSmooths(n - 1, it);
      SmoothLevelsAppend([Smooth(n, it), Prolong(n - 1)], Descent(n - 1, it));
      assert SmoothLevels([Smooth(n, it), Prolong(n - 1)]) == [n];
    }
  }

  /** Each budget is the caller's: every smoothing pass runs `it` iterations. */
  lemma {:induction false} VCycleBudget(n: nat, it: Word, init: Pass, k: nat)
    requires !init.Smooth?
    requires k < |VCycle(n, it, init)|
    ensures VCycle(n, it, init)[k].Smooth? ==>
              VCycle(n, it, init)[k].iterations == it && VCycle(n, it, init)[k].level <= n
  {
    VCycleAt(n, it, init);
    if n < k < 3 * n + 1 {
      var j := (k - n - 1) / 2;
      if (k - n - 1) % 2 == 0 {
        assert k == n + 1 + 2 * j;
      } else {
        assert k == n + 2 + 2 * j;
      }
    }
  }

  /** The pyramid is smoothed once per level, from the coarsest level n down to level 0. */
  lemma {:induction false} VCycleSmoothsEveryLevelOnce(n: nat, it: Word, init: Pass)
    requires !init.Smooth?
    ensures SmoothLevels(VCycle(n, it, init)) == seq(n + 1, j requires 0 <= j <= n => n - j)
    ensures |SmoothLevels(VCycle(n, it, init))| == n + 1
  {
    var r := Restricts(n);
    var d := Descent(n, it);
    var tail := [Smooth(0, it), Finalize];
    SmoothLevelsAppend([init] + r + d, tail);
    SmoothLevelsAppend([init] + r, d);
    SmoothLevelsAppend([init], r);
    RestrictsDoNotSmooth(n);
    DescentSmooths(n, it);
    assert [init][1..] == [] && tail[1..] == [Finalize] && [Finalize][1..] == [];
    assert SmoothLevels([init]) == [];
    assert SmoothLevels(tail) == [0];
  }

  /** Floats per uniform slot: the record `optimizeInit` writes is 18 floats. */
  const SLOT_FLOATS: nat := 18

  /** One smoothing iteration as submitted: the slot its uniforms sit in, the level,
      and the two ping-pong buffers the barriers after it cover, in order. */
  datatype SmoothStep = SmoothStep(slot: nat, level: nat, firstBarrier: nat, secondBarrier: nat)

  /** The uniforms iteration `i` sets in its slot: the parity flag, the method
      code, a quarter of the texture height, the angle offset and the phase flag
      (floats 6 to 10); the others keep what the slot held. */
  function SmoothSlot(s: seq<real>, i: nat, m: Method, height: nat, angleOffset: real, newPhase: bool): (r: seq<real>)
    requires |s| == SLOT_FLOATS
    ensures |r| == SLOT_FLOATS
    ensures forall k :: 0 <= k < SLOT_FLOATS && !(6 <= k <= 10) ==> r[k] == s[k]
    ensures r[6] == (if i % 2 == 0 then 0.0 else 1.0)
    ensures r[7] == MethodCode(m) as real && r[8] == height as real / 4.0
    ensures r[9] == angleOffset && r[10] == (if newPhase then 1.0 else 0.0)
  {
    s[6 := (i % 2) as real][7 := MethodCode(m) as real][8 := height as real / 4.0]
     [9 := angleOffset][10 := if newPhase then 1.0 else 0.0]
  }

  /** optimizeSmooth's loop: iteration i fills slot i, dispatches with that slot's
      offset, and places barriers on buffer i % 2 then buffer (i + 1) % 2. The
      buffer holds MAX_CONSTRAINTS slots and the loop does not check the count. */
  method PackSmooth(buf: array<seq<real>>, iterations: nat, level: nat, m: Method, height: nat,
                    angleOffset: real, newPhase: bool) returns (steps: seq<SmoothStep>)
    requires buf.Length == MAX_CONSTRAINTS && iterations <= MAX_CONSTRAINTS
    requires forall k :: 0 <= k < iterations ==> |buf[k]| == SLOT_FLOATS
    modifies buf
    ensures |steps| == iterations
    ensures forall i :: 0 <= i < iterations ==> steps[i] == SmoothStep(i, level, i % 2, (i + 1) % 2)
    ensures forall j :: 0 <= j < iterations ==> {steps[j].firstBarrier, steps[j].secondBarrier} == {0, 1}
    ensures forall j :: 0 < j < iterations ==> steps[j].firstBarrier != steps[j - 1].firstBarrier
    ensures forall k :: 0 <= k < iterations ==>
              buf[k] == SmoothSlot(old(buf[k]), k, m, height, angleOffset, newPhase)
    ensures forall k :: iterations <= k < buf.Length ==> buf[k] == old(buf[k])
  {
    steps := [];
    var i := 0;
    while i < iterations
      invariant 0 <= i <= iterations && |steps| == i
      invariant forall j :: 0 <= j < i ==> steps[j] == SmoothStep(j, level, j % 2, (j + 1) % 2)
      invariant forall k :: 0 <= k < i ==>
                  buf[k] == SmoothSlot(old(buf[k]), k, m, height, angleOffset, newPhase)
      invariant forall k :: i <= k < buf.Length ==> buf[k] == old(buf[k])
    {
      buf[i] := SmoothSlot(buf[i], i, m, height, angleOffset, newPhase);
      steps := steps + [SmoothStep(i, level, i % 2, (i + 1) % 2)];
      i := i + 1;
    }
  }

  /** What one uniform slot of the init pass describes: an area constraint, or
      one segment of a polyline constraint. */
  datatype Packed = Area(c: Constraint) | Segment(c: Constraint, line: Line)

  /** The 18 floats of a slot. An area: the nine placement floats, five zeros,
      the -1 marker in float 14, the aspect ratio, the tesselation level and the
      phase flag. A segment: the nine placement floats, the segment midpoint
      (y flipped), its angle, the polyline centre, the segment length, then as
      for an area. */
  function Layout(p: Packed, aspect: real, atan2: (real, real) -> real, sqrt: real -> real): (r: seq<real>)
    ensures |r| == SLOT_FLOATS
  {
    var c := p.c;
    var head := [c.centerX, c.centerY, c.width, c.height, c.dirX, c.dirY, c.rotAngle, c.skewH, c.skewV];
    var foot := [aspect, c.tesselationLod, c.alignPhases];
    match p
    case Area(_) => head + [0.0, 0.0, 0.0, 0.0, 0.0, -1.0] + foot
    case Segment(_, l) =>
      head + [(l.x0 + l.x1) / 2.0, 1.0 - (l.y0 + l.y1) / 2.0, atan2(l.y0 - l.y1, l.x0 - l.x1),
              c.lineCenterX, c.lineCenterY,
              sqrt((l.x0 - l.x1) * (l.x0 - l.x1) + (l.y0 - l.y1) * (l.y0 - l.y1))] + foot
  }

  /** An area is drawn as 8 vertices from vertex 0, a segment as 2 from vertex 8. */
  function VertexCount(p: Packed): nat
  {
    if p.Area? then 8 else 2
  }

  function FirstVertex(p: Packed): nat
  {
    if p.Area? then 0 else 8
  }

  /** The slots one constraint fills: one for an area, one per segment. */
  function PacksOf(c: Constraint): (r: seq<Packed>)
    ensures |r| == if |c.lines| == 0 then 1 else |c.lines|
  {
    if |c.lines| == 0 then [Area(c)]
    else seq(|c.lines|, j requires 0 <= j < |c.lines| => Segment(c, c.lines[j]))
  }

  /** The slots of a whole list, in list order. */
  function Packs(cs: seq<Constraint>): seq<Packed>
  {
    if |cs| == 0 then [] else Packs(cs[..|cs| - 1]) + PacksOf(cs[|cs| - 1])
  }

  /** Packing a concatenation is packing each part, one after the other. */
  lemma {:induction false} PacksAppend(a: seq<Constraint>, b: seq<Constraint>)
    ensures Packs(a + b) == Packs(a) + Packs(b)
    decreases |b|
  {
    if |b| == 0 {
      assert a + b == a;
    } else {
      var front := b[..|b| - 1];
      var last := b[|b| - 1];
      assert a + b == (a + front) + [last] && b == front + [last];
      PacksSnoc(a + front, last);
      PacksSnoc(front, last);
      PacksAppend(a, front);
      Associative(Packs(a), Packs(front), PacksOf(last));
    }
  }

  lemma PacksSnoc(cs: seq<Constraint>, c: Constraint)
    ensures Packs(cs + [c]) == Packs(cs) + PacksOf(c)
  {
    assert (cs + [c])[..|cs|] == cs;
  }

  lemma Associative<T>(a: seq<T>, b: seq<T>, c: seq<T>)
    ensures a + b + c == a + (b + c)
  {
  }

  /** Each slot describes a constraint of the list or one of its segments:
      an area for a constraint without segments, its own segment otherwise. */
  lemma {:induction false} PacksFromList(cs: seq<Constraint>, k: nat)
    requires k < |Packs(cs)|
    ensures Packs(cs)[k].c in cs
    ensures Packs(cs)[k].Area? <==> |Packs(cs)[k].c.lines| == 0
    ensures Packs(cs)[k].Segment? ==> Packs(cs)[k].line in Packs(cs)[k].c.lines
    decreases |cs|
  {
    var init := cs[..|cs| - 1];
    if k < |Packs(init)| {
      PacksFromList(init, k);
      assert Packs(cs)[k] == Packs(init)[k];
      assert Packs(cs)[k].c in init;
    } else {
      assert Packs(cs)[k] == PacksOf(cs[|cs| - 1])[k - |Packs(init)|];
    }
  }

  /** The number of slots used: at least one per constraint, exactly one each
      when no constraint has segments. */
  lemma {:induction false} PacksCount(cs: seq<Constraint>)
    ensures |Packs(cs)| >= |cs|
    ensures (forall i :: 0 <= i < |cs| ==> |cs[i].lines| == 0) ==> |Packs(cs)| == |cs|
    decreases |cs|
  {
    if |cs| > 0 {
      var init := cs[..|cs| - 1];
      assert forall i :: 0 <= i < |init| ==> init[i] == cs[i];
      PacksCount(init);
    }
  }

  /** Float 14 tells the two kinds apart: it is -1 exactly in area slots, since
      a segment length is never negative. */
  lemma {:induction false} LayoutMarker(p: Packed, aspect: real, atan2: (real, real) -> real, sqrt: real -> real)
    requires forall x: real :: x >= 0.0 ==> sqrt(x) >= 0.0
    ensures Layout(p, aspect, atan2, sqrt)[14] == -1.0 <==> p.Area?
    ensures Layout(p, aspect, atan2, sqrt)[..9] == Layout(Area(p.c), aspect, atan2, sqrt)[..9]
    ensures Layout(p, aspect, atan2, sqrt)[15..] == [aspect, p.c.tesselationLod, p.c.alignPhases]
  {
    if p.Segment? {
      var l := p.line;
      var sq := (l.x0 - l.x1) * (l.x0 - l.x1) + (l.y0 - l.y1) * (l.y0 - l.y1);
      assert sq >= 0.0;
    }
  }

  /** A draw call: the uniform slot it reads and the vertex range it draws. */
  datatype Draw = Draw(slot: nat, vertexCount: nat, firstVertex: nat)

  /** The slot contents after `ps` went to slots `first + 1 ..`: each of those
      slots holds the layout of its record, every other slot what `prior` held. */
  function Fill(prior: seq<seq<real>>, first: nat, ps: seq<Packed>,
                aspect: real, atan2: (real, real) -> real, sqrt: real -> real): (r: seq<seq<real>>)
    ensures |r| == |prior|
  {
    seq(|prior|, k requires 0 <= k < |prior| =>
      if first < k <= first + |ps| then Layout(ps[k - first - 1], aspect, atan2, sqrt) else prior[k])
  }

  /** Filling `a` and then `b` right after it is filling `a + b`. */
  lemma FillAppend(prior: seq<seq<real>>, a: seq<Packed>, b: seq<Packed>,
                   aspect: real, atan2: (real, real) -> real, sqrt: real -> real)
    ensures Fill(Fill(prior, 0, a, aspect, atan2, sqrt), |a|, b, aspect, atan2, sqrt) ==
            Fill(prior, 0, a + b, aspect, atan2, sqrt)
  {
    var lhs := Fill(Fill(prior, 0, a, aspect, atan2, sqrt), |a|, b, aspect, atan2, sqrt);
    var rhs := Fill(prior, 0, a + b, aspect, atan2, sqrt);
    forall k | 0 <= k < |prior| ensures lhs[k] == rhs[k] {
      if |a| < k <= |a| + |b| {
        assert (a + b)[k - 1] == b[k - |a| - 1];
      } else if 0 < k <= |a| {
        assert (a + b)[k - 1] == a[k - 1];
      }
    }
  }

  /** One more record written into the slot after the filled ones. */
  lemma FillStep(prior: seq<seq<real>>, first: nat, ps: seq<Packed>, j: nat,
                 aspect: real, atan2: (real, real) -> real, sqrt: real -> real)
    requires j < |ps| && first + j + 1 < |prior|
    ensures Fill(prior, first, ps[..j], aspect, atan2, sqrt)[first + j + 1 := Layout(ps[j], aspect, atan2, sqrt)] ==
            Fill(prior, first, ps[..j + 1], aspect, atan2, sqrt)
  {
    var lhs := Fill(prior, first, ps[..j], aspect, atan2, sqrt)[first + j + 1 := Layout(ps[j], aspect, atan2, sqrt)];
    var rhs := Fill(prior, first, ps[..j + 1], aspect, atan2, sqrt);
    forall k | 0 <= k < |prior| ensures lhs[k] == rhs[k] {
      if first < k <= first + j {
        assert ps[..j][k - first - 1] == ps[..j + 1][k - first - 1];
      }
    }
  }

  /** optimizeInit's record loop: slot 0 is never written; the records go to
      slots 1, 2, ... in list order, each followed by its draw call. The loop
      does not check the buffer's capacity, so the caller must. */
  method PackInit(buf: array<seq<real>>, cs: seq<Constraint>, aspect: real,
                  atan2: (real, real) -> real, sqrt: real -> real) returns (draws: seq<Draw>)
    requires buf.Length == MAX_CONSTRAINTS && |Packs(cs)| < MAX_CONSTRAINTS
    modifies buf
    ensures draws == Draws(0, Packs(cs))
    ensures buf[..] == Fill(old(buf[..]), 0, Packs(cs), aspect, atan2, sqrt)
  {
    draws := [];
    var drawn: nat := 0;
    var i := 0;
    ghost var done: seq<Packed> := [];
    while i < |cs|
      invariant 0 <= i <= |cs| && done == Packs(cs[..i]) && drawn == |done|
      invariant draws == Draws(0, done)
      invariant buf[..] == Fill(old(buf[..]), 0, done, aspect, atan2, sqrt)
    {
      var ps := PacksOf(cs[i]);
      PacksPrefix(cs, i);
      var more;
      more, drawn := PackConstraint(buf, cs[i], drawn, aspect, atan2, sqrt);
      FillAppend(old(buf[..]), done, ps, aspect, atan2, sqrt);
      DrawsAppend(done, ps);
      draws := draws + more;
      done := done + ps;
      i := i + 1;
    }
    assert cs[..i] == cs;
  }

  /** The records of the first i + 1 constraints extend those of the first i,
      and fit in those of the whole list. */
  lemma PacksPrefix(cs: seq<Constraint>, i: nat)
    requires i < |cs|
    ensures Packs(cs[..i + 1]) == Packs(cs[..i]) + PacksOf(cs[i])
    ensures |Packs(cs[..i])| + |PacksOf(cs[i])| <= |Packs(cs)|
  {
    assert cs[..i + 1][..i] == cs[..i] && cs[..i + 1][i] == cs[i];
    PacksPrefixLength(cs, i + 1);
  }

  lemma {:induction false} PacksPrefixLength(cs: seq<Constraint>, i: nat)
    requires i <= |cs|
    ensures |Packs(cs[..i])| <= |Packs(cs)|
    decreases |cs|
  {
    if i < |cs| {
      var init := cs[..|cs| - 1];
      assert init[..i] == cs[..i];
      PacksPrefixLength(init, i);
    } else {
      assert cs[..i] == cs;
    }
  }

  /** The draw calls for slots `first + 1`, `first + 2`, ... holding `ps`: slot
      number, vertex count and first vertex of each. */
  function Draws(first: nat, ps: seq<Packed>): (r: seq<Draw>)
    ensures |r| == |ps|
  {
    seq(|ps|, k requires 0 <= k < |ps| => Draw(first + 1 + k, VertexCount(ps[k]), FirstVertex(ps[k])))
  }

  /** The draw calls of `a` then `b`, numbered on from slot |a| + 1. */
  lemma DrawsAppend(a: seq<Packed>, b: seq<Packed>)
    ensures Draws(0, a) + Draws(|a|, b) == Draws(0, a + b)
  {
    forall k | 0 <= k < |a + b| ensures (Draws(0, a) + Draws(|a|, b))[k] == Draws(0, a + b)[k] {
      if k >= |a| {
        assert (a + b)[k] == b[k - |a|];
      } else {
        assert (a + b)[k] == a[k];
      }
    }
  }

  lemma DrawsStep(first: nat, ps: seq<Packed>, j: nat)
    requires j < |ps|
    ensures Draws(first, ps[..j + 1]) == Draws(first, ps[..j]) + [Draw(first + 1 + j, VertexCount(ps[j]), FirstVertex(ps[j]))]
  {
  }

  /** The body of optimizeInit's loop for one constraint: its records go to the
      slots after `drawn`. */
  method PackConstraint(buf: array<seq<real>>, c: Constraint, drawn: nat, aspect: real,
                        atan2: (real, real) -> real, sqrt: real -> real)
    returns (more: seq<Draw>, next: nat)
    requires drawn + |PacksOf(c)| < buf.Length
    modifies buf
    ensures next == drawn + |PacksOf(c)| && more == Draws(drawn, PacksOf(c))
    ensures buf[..] == Fill(old(buf[..]), drawn, PacksOf(c), aspect, atan2, sqrt)
  {
    var ps := PacksOf(c);
    more := [];
    next := drawn;
    var j := 0;
    assert ps[..0] == [];
    assert Fill(old(buf[..]), drawn, [], aspect, atan2, sqrt) == old(buf[..]);
    while j < |ps|
      invariant 0 <= j <= |ps| && next == drawn + j && more == Draws(drawn, ps[..j])
      invariant buf[..] == Fill(old(buf[..]), drawn, ps[..j], aspect, atan2, sqrt)
    {
      FillStep(old(buf[..]), drawn, ps, j, aspect, atan2, sqrt);
      DrawsStep(drawn, ps, j);
      next := next + 1;
      buf[next] := Layout(ps[j], aspect, atan2, sqrt);
      more := more + [Draw(next, VertexCount(ps[j]), FirstVertex(ps[j]))];
      j := j + 1;
    }
    assert ps[..j] == ps;
  }
}
