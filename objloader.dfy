/** The Wavefront OBJ reader: the getline loop, the classification of a line
    by its first token, the face-token forms read with sscanf's rules, fan
    triangulation, and the first-seen numbering of distinct (position, normal,
    texcoord) triples through an ordered map. Float fields are read by
    functions the caller supplies. */
module ObjLoader {
  import opened Options

  datatype Vec3 = Vec3(x: real, y: real, z: real)
  datatype TexCoord = TexCoord(u: real, v: real)

  /** A face corner: 0-based position, normal and texcoord indices, -1 for an
      attribute the face does not name. */
  datatype ObjVert = ObjVert(vert: int, norm: int, coord: int)

  datatype Face = Face(a: nat, b: nat, c: nat)

  /** operator< on corners: by position, then normal, then texcoord. */
  predicate Less(l: ObjVert, r: ObjVert)
  {
    if l.vert != r.vert then l.vert < r.vert
    else if l.norm != r.norm then l.norm < r.norm
    else l.coord < r.coord
  }

  /** It is a strict total order whose equivalence is equality, so the map
      keeps one entry per distinct triple. */
  lemma {:induction false} LessIsStrictTotal(a: ObjVert, b: ObjVert, c: ObjVert)
    ensures !Less(a, a)
    ensures Less(a, b) ==> !Less(b, a)
    ensures Less(a, b) && Less(b, c) ==> Less(a, c)
    ensures !Less(a, b) && !Less(b, a) <==> a == b
    ensures Less(a, b) <==> a.vert < b.vert || (a.vert == b.vert && a.norm < b.norm) ||
                            (a.vert == b.vert && a.norm == b.norm && a.coord < b.coord)
  {
  }

  // ---------------------------------------------------------------- lines

  /** The first line break at or after `pos`. */
  function NextBreak(text: string, pos: nat): (r: Option<nat>)
    ensures r.Some? ==> pos <= r.value < |text| && text[r.value] == '\n'
    ensures r.Some? ==> forall k :: pos <= k < r.value ==> text[k] != '\n'
    ensures r.None? ==> forall k :: pos <= k < |text| ==> text[k] != '\n'
    decreases |text| - pos
  {
    if pos >= |text| then None
    else if text[pos] == '\n' then Some(pos)
    else NextBreak(text, pos + 1)
  }

  /** The lines the getline loop processes, from `pos` on: each line ended by
      a break. A read that reaches the end of the text stops the loop, so the
      characters after the last break are never processed. */
  function Lines(text: string, pos: nat): seq<string>
    decreases |text| - pos
  {
    match NextBreak(text, pos)
    case None => []
    case Some(nl) => [text[pos..nl]] + Lines(text, nl + 1)
  }

  /** Text after the last break adds no line: a last line without a break
      is never processed. */
  lemma {:induction false} UnendedLineIgnored(text: string, pos: nat, tail: string)
    requires forall k :: 0 <= k < |tail| ==> tail[k] != '\n'
    requires pos <= |text| && (pos == |text| || text[|text| - 1] == '\n')
    ensures Lines(text + tail, pos) == Lines(text, pos)
    decreases |text| - pos
  {
    var whole := text + tail;
    if pos == |text| {
      assert forall k :: pos <= k < |whole| ==> whole[k] != '\n' by {
        assert forall k :: pos <= k < |whole| ==> whole[k] == tail[k - pos];
      }
      assert NextBreak(whole, pos).None?;
    } else {
      NextBreakPrefix(text, tail, pos);
      var nl := NextBreak(text, pos).value;
      assert whole[pos..nl] == text[pos..nl];
      UnendedLineIgnored(text, nl + 1, tail);
    }
  }

  /** No line holds a break. */
  lemma {:induction false} LinesHaveNoBreak(text: string, pos: nat)
    ensures forall i, k :: 0 <= i < |Lines(text, pos)| && 0 <= k < |Lines(text, pos)[i]| ==>
              Lines(text, pos)[i][k] != '\n'
    decreases |text| - pos
  {
    if NextBreak(text, pos).Some? {
      var nl := NextBreak(text, pos).value;
      LinesHaveNoBreak(text, nl + 1);
      var ls := Lines(text, pos);
      assert ls == [text[pos..nl]] + Lines(text, nl + 1);
      forall i, k | 0 <= i < |ls| && 0 <= k < |ls[i]| ensures ls[i][k] != '\n' {
        if i > 0 {
          assert ls[i] == Lines(text, nl + 1)[i - 1];
        } else {
          assert ls[i][k] == text[pos + k];
        }
      }
    }
  }

  lemma {:induction false} NextBreakPrefix(text: string, tail: string, pos: nat)
    requires pos < |text| && text[|text| - 1] == '\n'
    ensures NextBreak(text, pos).Some?
    ensures NextBreak(text + tail, pos) == NextBreak(text, pos)
    decreases |text| - pos
  {
    var whole := text + tail;
    assert whole[pos] == text[pos];
    if text[pos] != '\n' {
      NextBreakPrefix(text, tail, pos + 1);
    }
  }

  /** getline: the line from `pos` up to the next break, and where the next
      read starts; `found` is false when the read reaches the end. */
  method GetLine(text: string, pos: nat) returns (found: bool, line: string, next: nat)
    ensures found <==> NextBreak(text, pos).Some?
    ensures found ==> next == NextBreak(text, pos).value + 1 && line == text[pos..next - 1]
    ensures found ==> Lines(text, pos) == [line] + Lines(text, next)
    ensures !found ==> Lines(text, pos) == []
  {
    line, next := [], pos;
    if pos >= |text| {
      return false, line, next;
    }
    var i := pos;
    while i < |text| && text[i] != '\n'
      invariant pos <= i <= |text|
      invariant NextBreak(text, i) == NextBreak(text, pos)
    {
      i := i + 1;
    }
    if i == |text| {
      return false, line, next;
    }
    found, line, next := true, text[pos..i], i + 1;
  }

  // ------------------------------------------------------ classification

  /** strtok's delimiters. */
  predicate Delim(c: char)
  {
    c == ' ' || c == '\n' || c == '\r'
  }

  function TokenStart(s: string, i: nat): (r: nat)
    ensures i <= |s| ==> i <= r <= |s|
    ensures r < |s| ==> !Delim(s[r])
    decreases |s| - i
  {
    if i < |s| && Delim(s[i]) then TokenStart(s, i + 1) else i
  }

  function TokenEnd(s: string, i: nat): (r: nat)
    ensures i <= |s| ==> i <= r <= |s|
    ensures r < |s| ==> Delim(s[r])
    decreases |s| - i
  {
    if i < |s| && !Delim(s[i]) then TokenEnd(s, i + 1) else i
  }

  datatype LineKind = Skipped | PositionLine | NormalLine | CoordLine | FaceLine | Ignored

  /** How the loop treats a line, by its first token: no token or a token
      starting with '#' or '$' skips it; "v", "vn", "vt" and "f" are read;
      any other keyword is ignored. */
  function Classify(line: string): LineKind
  {
    var s := TokenStart(line, 0);
    if s >= |line| || line[s] == '#' || line[s] == '$' then Skipped
    else
      var t := line[s..TokenEnd(line, s)];
      if t == "v" then PositionLine
      else if t == "vn" then NormalLine
      else if t == "vt" then CoordLine
      else if t == "f" then FaceLine
      else Ignored
  }

  /** The text from offset `k`, where the source hands the line to sscanf. */
  function Rest(line: string, k: nat): string
  {
    if k <= |line| then line[k..] else []
  }

  /** What sscanf sees from offset `k`: the text up to the terminator strtok
      wrote after the keyword when that terminator lies at or beyond `k`
      (a keyword that does not start the line), else the rest of the line. */
  function ScanText(line: string, k: nat): (r: string)
    ensures k <= |line| ==> |r| <= |line| - k && forall i :: 0 <= i < |r| ==> r[i] == line[k + i]
    ensures k > |line| ==> r == []
    ensures TokenEnd(line, TokenStart(line, 0)) < k ==> r == Rest(line, k)
    ensures TokenEnd(line, TokenStart(line, 0)) == k ==> r == []
  {
    var e := TokenEnd(line, TokenStart(line, 0));
    if k <= e then line[k..e] else Rest(line, k)
  }

  /** Where the face loop reads: two characters in, past "f" and the
      terminator strtok wrote after it. When the keyword does not start the
      line, that terminator ends the text before any reference. */
  function FaceText(line: string): string
  {
    if TokenStart(line, 0) == 0 then Rest(line, 2) else []
  }

  // -------------------------------------------------- face token parsing

  /** isspace, which sscanf's %d skips. */
  predicate Space(c: char)
  {
    c == ' ' || c == '\t' || c == '\n' || c == '\r' || c as int == 11 || c as int == 12
  }

  predicate Digit(c: char)
  {
    '0' <= c <= '9'
  }

  function SkipSpace(s: string, i: nat): (r: nat)
    ensures i <= |s| ==> i <= r <= |s|
    ensures r < |s| ==> !Space(s[r])
    decreases |s| - i
  {
    if i < |s| && Space(s[i]) then SkipSpace(s, i + 1) else i
  }

  function DigitsEnd(s: string, i: nat): (r: nat)
    ensures i <= |s| ==> i <= r <= |s|
    decreases |s| - i
  {
    if i < |s| && Digit(s[i]) then DigitsEnd(s, i + 1) else i
  }

  /** The decimal value of the digits s[i..j]. */
  function DecimalValue(s: string, i: nat, j: nat): nat
    requires i <= j <= |s|
    decreases j
  {
    if j == i then 0 else DecimalValue(s, i, j - 1) * 10 + (s[j - 1] as int - '0' as int) % 10
  }

  datatype Scan = Scan(value: int, next: nat)

  /** %d: optional white space and sign, then at least one digit. */
  function ReadInt(s: string, i: nat): (r: Option<Scan>)
    ensures r.Some? ==> i < r.value.next <= |s|
  {
    var a := SkipSpace(s, i);
    if a > |s| then None
    else
      var signed := a < |s| && (s[a] == '-' || s[a] == '+');
      var b := if signed then a + 1 else a;
      var e := DigitsEnd(s, b);
      if e == b then None
      else
        var v: int := DecimalValue(s, b, e);
        Some(Scan(if signed && s[a] == '-' then -v else v, e))
  }

  predicate Slash(s: string, i: nat)
  {
    i < |s| && s[i] == '/'
  }

  /** One face reference: the 1-based numbers read, each stored minus one. */
  datatype Ref = Ref(vert: int, coord: Option<int>, norm: Option<int>)

  /** sscanf(t, "%d/%d/%d") == 3 */
  function ScanFull(t: string): Option<Ref>
  {
    var a := ReadInt(t, 0);
    if a.None? || !Slash(t, a.value.next) then None
    else
      var b := ReadInt(t, a.value.next + 1);
      if b.None? || !Slash(t, b.value.next) then None
      else
        var c := ReadInt(t, b.value.next + 1);
        if c.None? then None
        else Some(Ref(a.value.value - 1, Some(b.value.value - 1), Some(c.value.value - 1)))
  }

  /** sscanf(t, "%d//%d") == 2 */
  function ScanNormal(t: string): Option<Ref>
  {
    var a := ReadInt(t, 0);
    if a.None? || !Slash(t, a.value.next) || !Slash(t, a.value.next + 1) then None
    else
      var n := ReadInt(t, a.value.next + 2);
      if n.None? then None else Some(Ref(a.value.value - 1, None, Some(n.value.value - 1)))
  }

  /** sscanf(t, "%d/%d") == 2 */
  function ScanCoord(t: string): Option<Ref>
  {
    var a := ReadInt(t, 0);
    if a.None? || !Slash(t, a.value.next) then None
    else
      var c := ReadInt(t, a.value.next + 1);
      if c.None? then None else Some(Ref(a.value.value - 1, Some(c.value.value - 1), None))
  }

  /** The four forms, tried in the source's order, on the text from a token on. */
  function ParseRef(t: string): Option<Ref>
  {
    if ScanFull(t).Some? then ScanFull(t)
    else if ScanNormal(t).Some? then ScanNormal(t)
    else if ScanCoord(t).Some? then ScanCoord(t)
    else
      var a := ReadInt(t, 0);
      if a.Some? then Some(Ref(a.value.value - 1, None, None)) else None
  }

  /** The decimal digits of `n`. */
  function Show(n: nat): (r: string)
    ensures |r| >= 1 && Digit(r[0])
    decreases n
  {
    var d := ['0' + ((n % 10) as char)];
    if n < 10 then d else Show(n / 10) + d
  }

  lemma {:induction false} ShowDigits(n: nat)
    ensures forall k :: 0 <= k < |Show(n)| ==> Digit(Show(n)[k])
    decreases n
  {
    if n >= 10 {
      ShowDigits(n / 10);
    }
  }

  lemma {:induction false} ShowValueAt(n: nat, s: string, i: nat)
    requires i + |Show(n)| <= |s| && s[i..i + |Show(n)|] == Show(n)
    ensures DecimalValue(s, i, i + |Show(n)|) == n
    decreases n
  {
    var w := Show(n);
    assert s[i + |w| - 1] == w[|w| - 1];
    if n >= 10 {
      var u := Show(n / 10);
      assert |w| == |u| + 1;
      assert s[i..i + |u|] == u by {
        assert forall k :: 0 <= k < |u| ==> s[i + k] == w[k] == u[k];
      }
      ShowValueAt(n / 10, s, i);
    }
  }

  lemma {:induction false} DigitsRun(s: string, i: nat, j: nat)
    requires i <= j <= |s|
    requires forall k :: i <= k < j ==> Digit(s[k])
    requires j == |s| || !Digit(s[j])
    ensures DigitsEnd(s, i) == j
    decreases j - i
  {
    if i < j {
      DigitsRun(s, i + 1, j);
    }
  }

  /** %d at offset `i` reads back a number written there in decimal, when no
      digit follows it. */
  lemma {:induction false} ReadAt(s: string, i: nat, n: nat)
    requires i + |Show(n)| <= |s| && s[i..i + |Show(n)|] == Show(n)
    requires i + |Show(n)| == |s| || !Digit(s[i + |Show(n)|])
    ensures ReadInt(s, i) == Some(Scan(n, i + |Show(n)|))
  {
    var w := Show(n);
    ShowDigits(n);
    assert forall k :: 0 <= k < |w| ==> s[i + k] == w[k];
    assert s[i] == w[0] && !Space(s[i]) && s[i] != '-' && s[i] != '+';
    DigitsRun(s, i, i + |w|);
    ShowValueAt(n, s, i);
  }

  lemma IntNotAtSlash(s: string, i: nat)
    requires ReadInt(s, i).Some?
    ensures !Slash(s, i)
  {
    if Slash(s, i) {
      NoIntAtSlash(s, i);
    }
  }

  /** %d at a '/' reads nothing. */
  lemma NoIntAtSlash(s: string, i: nat)
    requires i < |s| && s[i] == '/'
    ensures ReadInt(s, i).None?
  {
    assert SkipSpace(s, i) == i;
    assert DigitsEnd(s, i) == i;
  }

  /** The token forms. "v/t/n": three numbers, two slashes between them. */
  lemma FullForm(s: string, j: nat, k: nat, l: nat, v: int, t: int, n: int)
    requires ReadInt(s, 0) == Some(Scan(v, j)) && Slash(s, j)
    requires ReadInt(s, j + 1) == Some(Scan(t, k)) && Slash(s, k)
    requires ReadInt(s, k + 1) == Some(Scan(n, l))
    ensures ParseRef(s) == Some(Ref(v - 1, Some(t - 1), Some(n - 1)))
  {
  }

  /** "v//n": the form with a normal and no texcoord. */
  lemma NormalForm(s: string, j: nat, l: nat, v: int, n: int)
    requires ReadInt(s, 0) == Some(Scan(v, j)) && Slash(s, j) && Slash(s, j + 1)
    requires ReadInt(s, j + 2) == Some(Scan(n, l))
    ensures ParseRef(s) == Some(Ref(v - 1, None, Some(n - 1)))
  {
    NoIntAtSlash(s, j + 1);
  }

  /** "v/t": a texcoord and no normal, when no third number follows. */
  lemma CoordForm(s: string, j: nat, k: nat, v: int, t: int)
    requires ReadInt(s, 0) == Some(Scan(v, j)) && Slash(s, j)
    requires ReadInt(s, j + 1) == Some(Scan(t, k))
    requires !Slash(s, k) || ReadInt(s, k + 1).None?
    ensures ParseRef(s) == Some(Ref(v - 1, Some(t - 1), None))
  {
    IntNotAtSlash(s, j + 1);
  }

  /** "v": a position alone, when no slash follows it. */
  lemma PlainForm(s: string, j: nat, v: int)
    requires ReadInt(s, 0) == Some(Scan(v, j)) && !Slash(s, j)
    ensures ParseRef(s) == Some(Ref(v - 1, None, None))
  {
  }

  /** Text that does not start with a number is no reference. */
  lemma NoForm(s: string)
    requires ReadInt(s, 0).None?
    ensures ParseRef(s).None?
  {
  }

  /** Where each turn of the face loop reads, from offset `p` on: past the
      spaces, then on past the token. */
  function Starts(s: string, p: nat): seq<nat>
    decreases |s| - p
  {
    if p >= |s| then []
    else
      var q := SkipBlanks(s, p);
      [q] + Starts(s, SkipToken(s, q))
  }

  /** The references `parse` reads at those offsets, each from the rest of
      the text; an offset where it reads nothing adds nothing. */
  function RefsAt(s: string, qs: seq<nat>, parse: string -> Option<Ref>): seq<Ref>
  {
    if |qs| == 0 then []
    else
      var r := parse(Rest(s, qs[|qs| - 1]));
      RefsAt(s, qs[..|qs| - 1], parse) + (if r.Some? then [r.value] else [])
  }

  /** The references of a face line's text, read with the four forms. */
  function FaceRefs(s: string): seq<Ref>
  {
    RefsAt(s, Starts(s, 0), ParseRef)
  }

  function SkipBlanks(s: string, i: nat): (r: nat)
    ensures i <= |s| ==> i <= r <= |s|
    ensures r < |s| ==> s[r] != ' '
    decreases |s| - i
  {
    if i < |s| && s[i] == ' ' then SkipBlanks(s, i + 1) else i
  }

  function SkipToken(s: string, i: nat): (r: nat)
    ensures i <= |s| ==> i <= r <= |s|
    ensures i < |s| && s[i] != ' ' ==> r > i
    decreases |s| - i
  {
    if i < |s| && s[i] != ' ' then SkipToken(s, i + 1) else i
  }

  function VertIds(refs: seq<Ref>): (r: seq<int>)
    ensures |r| == |refs|
  {
    if |refs| == 0 then [] else VertIds(refs[..|refs| - 1]) + [refs[|refs| - 1].vert]
  }

  function NormIds(refs: seq<Ref>): (r: seq<int>)
    ensures |r| <= |refs|
  {
    if |refs| == 0 then []
    else
      var last := refs[|refs| - 1];
      NormIds(refs[..|refs| - 1]) + (if last.norm.Some? then [last.norm.value] else [])
  }

  function TexIds(refs: seq<Ref>): (r: seq<int>)
    ensures |r| <= |refs|
  {
    if |refs| == 0 then []
    else
      var last := refs[|refs| - 1];
      TexIds(refs[..|refs| - 1]) + (if last.coord.Some? then [last.coord.value] else [])
  }

  lemma IdsSnoc(done: seq<Ref>, r: Ref)
    ensures VertIds(done + [r]) == VertIds(done) + [r.vert]
    ensures NormIds(done + [r]) == NormIds(done) + (if r.norm.Some? then [r.norm.value] else [])
    ensures TexIds(done + [r]) == TexIds(done) + (if r.coord.Some? then [r.coord.value] else [])
  {
    assert (done + [r])[..|done|] == done;
  }

  lemma StartsStep(s: string, starts: seq<nat>, p: nat, q: nat, next: nat)
    requires p < |s| && q == SkipBlanks(s, p) && next == SkipToken(s, q)
    requires Starts(s, 0) == starts + Starts(s, p)
    ensures next > p && Starts(s, 0) == (starts + [q]) + Starts(s, next)
  {
    assert Starts(s, p) == [q] + Starts(s, next);
  }

  lemma RefsAtSnoc(s: string, qs: seq<nat>, q: nat, parse: string -> Option<Ref>, r: Option<Ref>)
    requires q <= |s| && r == parse(s[q..])
    ensures r.Some? ==> RefsAt(s, qs + [q], parse) == RefsAt(s, qs, parse) + [r.value]
    ensures r.None? ==> RefsAt(s, qs + [q], parse) == RefsAt(s, qs, parse)
  {
    assert (qs + [q])[..|qs|] == qs;
  }

  method SkipBlanksLoop(s: string, p: nat) returns (q: nat)
    requires p <= |s|
    ensures q == SkipBlanks(s, p)
  {
    q := p;
    while q < |s| && s[q] == ' '
      invariant p <= q <= |s| && SkipBlanks(s, q) == SkipBlanks(s, p)
    {
      q := q + 1;
    }
  }

  method SkipTokenLoop(s: string, q: nat) returns (next: nat)
    requires q <= |s|
    ensures next == SkipToken(s, q)
  {
    next := q;
    while next < |s| && s[next] != ' '
      invariant q <= next <= |s| && SkipToken(s, next) == SkipToken(s, q)
    {
      next := next + 1;
    }
  }

  /** The face loop: skip spaces, read a reference from the rest of the text,
      skip the token. */
  method ScanFace(s: string, parse: string -> Option<Ref>) returns (vs: seq<int>, ns: seq<int>, ts: seq<int>)
    ensures var refs := RefsAt(s, Starts(s, 0), parse);
            vs == VertIds(refs) && ns == NormIds(refs) && ts == TexIds(refs)
  {
    vs, ns, ts := [], [], [];
    ghost var starts: seq<nat> := [];
    var p: nat := 0;
    while p < |s|
      invariant p <= |s|
      invariant Starts(s, 0) == starts + Starts(s, p)
      invariant Ids(vs, ns, ts, RefsAt(s, starts, parse))
      decreases |s| - p
    {
      var q := SkipBlanksLoop(s, p);
      var r := parse(s[q..]);
      var next := SkipTokenLoop(s, q);
      StartsStep(s, starts, p, q, next);
      RefsAtSnoc(s, starts, q, parse, r);
      if r.Some? {
        vs, ns, ts := Push(vs, ns, ts, RefsAt(s, starts, parse), r.value);
      }
      starts := starts + [q];
      p := next;
    }
    assert starts + [] == starts;
  }

  ghost predicate Ids(vs: seq<int>, ns: seq<int>, ts: seq<int>, refs: seq<Ref>)
  {
    vs == VertIds(refs) && ns == NormIds(refs) && ts == TexIds(refs)
  }

  /** The three push_back calls for one reference. */
  method Push(vs: seq<int>, ns: seq<int>, ts: seq<int>, ghost refs: seq<Ref>, r: Ref)
    returns (vs': seq<int>, ns': seq<int>, ts': seq<int>)
    requires Ids(vs, ns, ts, refs)
    ensures Ids(vs', ns', ts', refs + [r])
  {
    IdsSnoc(refs, r);
    vs', ns', ts' := vs + [r.vert], ns, ts;
    if r.norm.Some? {
      ns' := ns + [r.norm.value];
    }
    if r.coord.Some? {
      ts' := ts + [r.coord.value];
    }
  }

  // ------------------------------------------------------- triangulation

  /** What the loop may index: at least one reference, and with three or
      more the normal and texcoord lists each empty or as long as the list of
      positions (a longer face reads past a shorter list). */
  predicate FanOk(vs: seq<int>, ns: seq<int>, ts: seq<int>)
  {
    |vs| >= 1 && (|vs| >= 3 ==> (|ns| == 0 || |ns| == |vs|) && (|ts| == 0 || |ts| == |vs|))
  }

  function Corner(vs: seq<int>, ns: seq<int>, ts: seq<int>, i: nat): ObjVert
    requires i < |vs| && (|ns| == 0 || i < |ns|) && (|ts| == 0 || i < |ts|)
  {
    ObjVert(vs[i], if |ns| == 0 then -1 else ns[i], if |ts| == 0 then -1 else ts[i])
  }

  /** The corners of the fan, three per triangle. */
  function FanCorners(vs: seq<int>, ns: seq<int>, ts: seq<int>): (r: seq<ObjVert>)
    requires FanOk(vs, ns, ts)
  {
    if |vs| < 3 then []
    else
      seq(3 * (|vs| - 2), j requires 0 <= j < 3 * (|vs| - 2) =>
        Corner(vs, ns, ts, if j % 3 == 0 then 0 else j / 3 + j % 3))
  }

  /** k references give max(k - 2, 0) triangles, triangle t being
      (reference 0, reference t + 1, reference t + 2). */
  lemma {:induction false} FanTriangles(vs: seq<int>, ns: seq<int>, ts: seq<int>)
    requires FanOk(vs, ns, ts)
    ensures |FanCorners(vs, ns, ts)| == if |vs| < 3 then 0 else 3 * (|vs| - 2)
    ensures forall t :: 0 <= t < |vs| - 2 ==>
              FanCorners(vs, ns, ts)[3 * t] == Corner(vs, ns, ts, 0) &&
              FanCorners(vs, ns, ts)[3 * t + 1] == Corner(vs, ns, ts, t + 1) &&
              FanCorners(vs, ns, ts)[3 * t + 2] == Corner(vs, ns, ts, t + 2)
  {
    if |vs| >= 3 {
      forall t | 0 <= t < |vs| - 2
        ensures FanCorners(vs, ns, ts)[3 * t] == Corner(vs, ns, ts, 0)
        ensures FanCorners(vs, ns, ts)[3 * t + 1] == Corner(vs, ns, ts, t + 1)
        ensures FanCorners(vs, ns, ts)[3 * t + 2] == Corner(vs, ns, ts, t + 2)
      {
        assert (3 * t) % 3 == 0 && (3 * t + 1) % 3 == 1 && (3 * t + 2) % 3 == 2;
        assert (3 * t + 1) / 3 == t && (3 * t + 2) / 3 == t;
      }
    }
  }

  // ------------------------------------------------- the parse as a fold

  /** The lists the loop has built after some lines. */
  datatype Parsed = Parsed(verts: seq<Vec3>, norms: seq<Vec3>, coords: seq<TexCoord>, corners: seq<ObjVert>)

  predicate FaceOk(line: string)
  {
    Classify(line) == FaceLine ==>
      var refs := FaceRefs(FaceText(line));
      FanOk(VertIds(refs), NormIds(refs), TexIds(refs))
  }

  function Step(p: Parsed, line: string, vertexOf: string -> Vec3, normalOf: string -> Vec3,
                coordOf: string -> TexCoord): Parsed
    requires FaceOk(line)
  {
    match Classify(line)
    case PositionLine => p.(verts := p.verts + [vertexOf(ScanText(line, 2))])
    case NormalLine => p.(norms := p.norms + [normalOf(ScanText(line, 3))])
    case CoordLine => p.(coords := p.coords + [coordOf(ScanText(line, 3))])
    case FaceLine =>
      var refs := FaceRefs(FaceText(line));
      p.(corners := p.corners + FanCorners(VertIds(refs), NormIds(refs), TexIds(refs)))
    case Skipped => p
    case Ignored => p
  }

  function ParseLines(ls: seq<string>, vertexOf: string -> Vec3, normalOf: string -> Vec3,
                      coordOf: string -> TexCoord): Parsed
    requires forall i :: 0 <= i < |ls| ==> FaceOk(ls[i])
  {
    if |ls| == 0 then Parsed([], [], [], [])
    else Step(ParseLines(ls[..|ls| - 1], vertexOf, normalOf, coordOf), ls[|ls| - 1], vertexOf, normalOf, coordOf)
  }

  lemma ParseLinesSnoc(ls: seq<string>, line: string, vertexOf: string -> Vec3, normalOf: string -> Vec3,
                       coordOf: string -> TexCoord)
    requires forall i :: 0 <= i < |ls| ==> FaceOk(ls[i])
    requires FaceOk(line)
    ensures forall i :: 0 <= i < |ls + [line]| ==> FaceOk((ls + [line])[i])
    ensures ParseLines(ls + [line], vertexOf, normalOf, coordOf) ==
            Step(ParseLines(ls, vertexOf, normalOf, coordOf), line, vertexOf, normalOf, coordOf)
  {
    assert (ls + [line])[..|ls|] == ls;
  }

  // -------------------------------------------------------- numbering

  /** The distinct triples in the order they are first seen. */
  function Distinct(cs: seq<ObjVert>): seq<ObjVert>
  {
    if |cs| == 0 then []
    else
      var d := Distinct(cs[..|cs| - 1]);
      if cs[|cs| - 1] in d then d else d + [cs[|cs| - 1]]
  }

  ghost predicate NoDup(d: seq<ObjVert>)
  {
    forall i, j :: 0 <= i < j < |d| ==> d[i] != d[j]
  }

  /** The numbering lists every triple once and nothing else. */
  lemma {:induction false} DistinctFacts(cs: seq<ObjVert>)
    ensures NoDup(Distinct(cs))
    ensures forall c :: c in Distinct(cs) <==> c in cs
    ensures |Distinct(cs)| <= |cs|
  {
    if |cs| > 0 {
      var init := cs[..|cs| - 1];
      DistinctFacts(init);
      assert cs == init + [cs[|cs| - 1]];
    }
  }

  /** Numbers given earlier are never changed: the numbering of a prefix is a
      prefix of the numbering. */
  lemma {:induction false} DistinctPrefix(cs: seq<ObjVert>, j: nat)
    requires j <= |cs|
    ensures |Distinct(cs[..j])| <= |Distinct(cs)|
    ensures Distinct(cs)[..|Distinct(cs[..j])|] == Distinct(cs[..j])
    decreases |cs| - j
  {
    if j < |cs| {
      var init := cs[..|cs| - 1];
      assert init[..j] == cs[..j];
      DistinctPrefix(init, j);
    } else {
      assert cs[..j] == cs;
    }
  }

  /** A triple seen for the first time at corner j gets the number of distinct
      triples seen before it. */
  lemma {:induction false} FirstSeenNumber(cs: seq<ObjVert>, j: nat)
    requires j < |cs| && cs[j] !in cs[..j]
    ensures |Distinct(cs[..j])| < |Distinct(cs)|
    ensures Distinct(cs)[|Distinct(cs[..j])|] == cs[j]
  {
    DistinctFacts(cs[..j]);
    assert cs[..j + 1][..j] == cs[..j];
    assert Distinct(cs[..j + 1]) == Distinct(cs[..j]) + [cs[j]];
    DistinctPrefix(cs, j + 1);
  }

  /** The map from triples to numbers agrees with the first-seen order. */
  ghost predicate Numbering(m: map<ObjVert, nat>, order: seq<ObjVert>)
  {
    (forall c :: c in m <==> c in order) &&
    (forall i :: 0 <= i < |order| ==> m[order[i]] == i)
  }

  /** Each face's numbers name its corners. */
  ghost predicate Indexed(fs: seq<Face>, d: seq<ObjVert>, cs: seq<ObjVert>)
  {
    |cs| == 3 * |fs| &&
    forall f :: 0 <= f < |fs| ==>
      fs[f].a < |d| && fs[f].b < |d| && fs[f].c < |d| &&
      d[fs[f].a] == cs[3 * f] && d[fs[f].b] == cs[3 * f + 1] && d[fs[f].c] == cs[3 * f + 2]
  }

  /** The face index built so far numbers `corners`: `m` gives each distinct
      corner its position in first-seen order, `count` is how many there are,
      and every face names its three corners. The corner list is bound through
      `x`, so a proof expands `Distinct` only where it names it. */
  ghost predicate Built(m: map<ObjVert, nat>, count: nat, fs: seq<Face>, order: seq<ObjVert>, corners: seq<ObjVert>)
  {
    Numbering(m, order) && count == |order| &&
    forall x :: x == corners ==> order == Distinct(x) && Indexed(fs, order, x)
  }

  lemma IndexedGrows(fs: seq<Face>, d: seq<ObjVert>, e: seq<ObjVert>, cs: seq<ObjVert>, more: seq<ObjVert>)
    requires Indexed(fs, d, cs) && |d| <= |e| && e[..|d|] == d
    ensures forall f :: 0 <= f < |fs| ==>
              fs[f].a < |e| && fs[f].b < |e| && fs[f].c < |e| &&
              e[fs[f].a] == (cs + more)[3 * f] && e[fs[f].b] == (cs + more)[3 * f + 1] &&
              e[fs[f].c] == (cs + more)[3 * f + 2]
  {
    forall f | 0 <= f < |fs|
      ensures e[fs[f].a] == (cs + more)[3 * f] && e[fs[f].b] == (cs + more)[3 * f + 1]
      ensures e[fs[f].c] == (cs + more)[3 * f + 2]
    {
      assert e[fs[f].a] == d[fs[f].a] && e[fs[f].b] == d[fs[f].b] && e[fs[f].c] == d[fs[f].c];
    }
  }

  /** `if (vertMap.count(c) == 0) vertMap[c] = vertCount++;` */
  method Number(m: map<ObjVert, nat>, count: nat, ghost order: seq<ObjVert>, ghost cs: seq<ObjVert>, c: ObjVert)
    returns (m': map<ObjVert, nat>, count': nat, ghost order': seq<ObjVert>)
    requires Numbering(m, order) && count == |order| && order == Distinct(cs)
    ensures Numbering(m', order') && count' == |order'| && order' == Distinct(cs + [c])
    ensures |order| <= |order'| && order'[..|order|] == order && c in m'
  {
    assert (cs + [c])[..|cs|] == cs;
    if c !in m {
      assert c !in order;
      m', count', order' := m[c := count], count + 1, order + [c];
      assert forall i :: 0 <= i < |order| ==> order[i] != c;
    } else {
      m', count', order' := m, count, order;
    }
  }

  /** One triangle of the loop: number its three corners in order, then push
      the face made of their numbers. */
  method AddTriangle(m: map<ObjVert, nat>, count: nat, fs: seq<Face>, ghost order: seq<ObjVert>,
                     ghost cs: seq<ObjVert>, c0: ObjVert, c1: ObjVert, c2: ObjVert)
    returns (m': map<ObjVert, nat>, count': nat, fs': seq<Face>, ghost order': seq<ObjVert>)
    requires Built(m, count, fs, order, cs)
    ensures Built(m', count', fs', order', cs + [c0, c1, c2])
  {
    ghost var o1, o2;
    m', count', o1 := Number(m, count, order, cs, c0);
    m', count', o2 := Number(m', count', o1, cs + [c0], c1);
    m', count', order' := Number(m', count', o2, cs + [c0] + [c1], c2);
    PrefixChain(order, o1, o2, order');
    fs' := fs + [Face(m'[c0], m'[c1], m'[c2])];
    TriangleIndexed(fs, m', order, order', cs, c0, c1, c2);
    Concat3(cs, c0, c1, c2);
  }

  lemma Concat3(cs: seq<ObjVert>, c0: ObjVert, c1: ObjVert, c2: ObjVert)
    ensures cs + [c0] + [c1] + [c2] == cs + [c0, c1, c2]
  {
  }

  lemma PrefixChain(o0: seq<ObjVert>, o1: seq<ObjVert>, o2: seq<ObjVert>, o3: seq<ObjVert>)
    requires |o0| <= |o1| <= |o2| <= |o3|
    requires o1[..|o0|] == o0 && o2[..|o1|] == o1 && o3[..|o2|] == o2
    ensures o3[..|o0|] == o0
  {
    assert o3[..|o0|] == o2[..|o0|];
  }

  lemma TriangleIndexed(fs: seq<Face>, m: map<ObjVert, nat>, d: seq<ObjVert>, e: seq<ObjVert>,
                        cs: seq<ObjVert>, c0: ObjVert, c1: ObjVert, c2: ObjVert)
    requires Indexed(fs, d, cs) && |d| <= |e| && e[..|d|] == d
    requires Numbering(m, e) && c0 in m && c1 in m && c2 in m
    ensures Indexed(fs + [Face(m[c0], m[c1], m[c2])], e, cs + [c0, c1, c2])
  {
    IndexedGrows(fs, d, e, cs, [c0, c1, c2]);
    NumberingNames(m, e, c0);
    NumberingNames(m, e, c1);
    NumberingNames(m, e, c2);
  }

  /** The triangulation loop of one face. */
  method AddFan(m: map<ObjVert, nat>, count: nat, fs: seq<Face>, ghost order: seq<ObjVert>,
                ghost cs: seq<ObjVert>, vs: seq<int>, ns: seq<int>, ts: seq<int>)
    returns (m': map<ObjVert, nat>, count': nat, fs': seq<Face>, ghost order': seq<ObjVert>)
    requires FanOk(vs, ns, ts)
    requires Built(m, count, fs, order, cs)
    ensures Built(m', count', fs', order', cs + FanCorners(vs, ns, ts))
  {
    m', count', fs', order' := m, count, fs, order;
    var i := 1;
    FanStart(cs, vs, ns, ts);
    while i + 1 < |vs|
      invariant 1 <= i && (i == 1 || i <= |vs| - 1)
      invariant Built(m', count', fs', order', FanSoFar(cs, vs, ns, ts, i))
    {
      var c0 := Corner(vs, ns, ts, 0);
      var c1 := Corner(vs, ns, ts, i);
      var c2 := Corner(vs, ns, ts, i + 1);
      FanStep(cs, vs, ns, ts, i);
      m', count', fs', order' := AddTriangle(m', count', fs', order', FanSoFar(cs, vs, ns, ts, i), c0, c1, c2);
      i := i + 1;
    }
    FanEnd(cs, vs, ns, ts, i);
  }

  /** The corners after the first i - 1 triangles of the fan. */
  ghost function FanSoFar(cs: seq<ObjVert>, vs: seq<int>, ns: seq<int>, ts: seq<int>, i: nat): seq<ObjVert>
    requires FanOk(vs, ns, ts) && 1 <= i && (i == 1 || i <= |vs| - 1)
  {
    FanTriangles(vs, ns, ts);
    cs + FanCorners(vs, ns, ts)[..3 * (i - 1)]
  }

  lemma FanStart(cs: seq<ObjVert>, vs: seq<int>, ns: seq<int>, ts: seq<int>)
    requires FanOk(vs, ns, ts)
    ensures FanSoFar(cs, vs, ns, ts, 1) == cs
  {
    assert cs + [] == cs;
  }

  lemma FanStep(cs: seq<ObjVert>, vs: seq<int>, ns: seq<int>, ts: seq<int>, i: nat)
    requires FanOk(vs, ns, ts) && 1 <= i && i + 1 < |vs|
    ensures FanSoFar(cs, vs, ns, ts, i + 1) ==
            FanSoFar(cs, vs, ns, ts, i) + [Corner(vs, ns, ts, 0), Corner(vs, ns, ts, i), Corner(vs, ns, ts, i + 1)]
  {
    FanTriangles(vs, ns, ts);
    var fan := FanCorners(vs, ns, ts);
    assert fan[..3 * i] == fan[..3 * (i - 1)] + [fan[3 * (i - 1)], fan[3 * (i - 1) + 1], fan[3 * (i - 1) + 2]];
  }

  lemma FanEnd(cs: seq<ObjVert>, vs: seq<int>, ns: seq<int>, ts: seq<int>, i: nat)
    requires FanOk(vs, ns, ts) && 1 <= i && (i == 1 || i <= |vs| - 1) && i + 1 >= |vs|
    ensures FanSoFar(cs, vs, ns, ts, i) == cs + FanCorners(vs, ns, ts)
  {
    FanTriangles(vs, ns, ts);
    assert FanCorners(vs, ns, ts)[..3 * (i - 1)] == FanCorners(vs, ns, ts);
  }

  lemma NumberingNames(m: map<ObjVert, nat>, order: seq<ObjVert>, c: ObjVert)
    requires Numbering(m, order) && c in m
    ensures m[c] < |order| && order[m[c]] == c
  {
    assert c in order;
    var i :| 0 <= i < |order| && order[i] == c;
  }

  lemma NumberingNoDup(m: map<ObjVert, nat>, order: seq<ObjVert>)
    requires Numbering(m, order)
    ensures NoDup(order)
  {
    forall i, j | 0 <= i < j < |order| ensures order[i] != order[j] {
      assert m[order[i]] == i && m[order[j]] == j;
    }
  }

  // ------------------------------------------------------ the loader

  /** What the source needs of a file: every face line can be triangulated,
      every corner names an existing position (and normal and texcoord when
      the file has any), and texcoords come with normals, which the tangent
      pass reads. */
  ghost predicate Loadable(text: string, vertexOf: string -> Vec3, normalOf: string -> Vec3, coordOf: string -> TexCoord)
  {
    var ls := Lines(text, 0);
    (forall i :: 0 <= i < |ls| ==> FaceOk(ls[i])) &&
    var p := ParseLines(ls, vertexOf, normalOf, coordOf);
    (forall c :: c in p.corners ==>
       0 <= c.vert < |p.verts| &&
       (|p.norms| > 0 ==> 0 <= c.norm < |p.norms|) &&
       (|p.coords| > 0 ==> 0 <= c.coord < |p.coords|)) &&
    (|p.coords| > 0 && |p.corners| > 0 ==> |p.norms| > 0)
  }

  /** The numbering, with the fact that it numbers only corners of the file. */
  ghost function Numbered(cs: seq<ObjVert>): (d: seq<ObjVert>)
    ensures d == Distinct(cs) && forall c :: c in d ==> c in cs
  {
    DistinctFacts(cs);
    Distinct(cs)
  }

  /** One turn of the read loop: append what a "v", "vn" or "vt" line holds,
      triangulate and number a face line, leave any other line alone. */
  method ReadLine(line: string, verts: seq<Vec3>, norms: seq<Vec3>, coords: seq<TexCoord>,
                  m: map<ObjVert, nat>, count: nat, fs: seq<Face>, ghost order: seq<ObjVert>,
                  ghost corners: seq<ObjVert>, vertexOf: string -> Vec3, normalOf: string -> Vec3,
                  coordOf: string -> TexCoord)
    returns (verts': seq<Vec3>, norms': seq<Vec3>, coords': seq<TexCoord>, m': map<ObjVert, nat>,
             count': nat, fs': seq<Face>, ghost order': seq<ObjVert>, ghost corners': seq<ObjVert>)
    requires FaceOk(line)
    requires Built(m, count, fs, order, corners)
    ensures Parsed(verts', norms', coords', corners') ==
            Step(Parsed(verts, norms, coords, corners), line, vertexOf, normalOf, coordOf)
    ensures Built(m', count', fs', order', corners')
  {
    verts', norms', coords', m', count', fs', order', corners' := verts, norms, coords, m, count, fs, order, corners;
    var kind := Classify(line);
    if kind == PositionLine {
      verts' := verts + [vertexOf(ScanText(line, 2))];
    } else if kind == NormalLine {
      norms' := norms + [normalOf(ScanText(line, 3))];
    } else if kind == CoordLine {
      coords' := coords + [coordOf(ScanText(line, 3))];
    } else if kind == FaceLine {
      var vs, ns, ts := ScanFace(FaceText(line), ParseRef);
      m', count', fs', order' := AddFan(m, count, fs, order, corners, vs, ns, ts);
      corners' := corners + FanCorners(vs, ns, ts);
    }
  }

  /** The getline loop over the whole text. */
  method ReadText(text: string, vertexOf: string -> Vec3, normalOf: string -> Vec3, coordOf: string -> TexCoord)
    returns (verts: seq<Vec3>, norms: seq<Vec3>, coords: seq<TexCoord>, m: map<ObjVert, nat>, count: nat,
             fs: seq<Face>, ghost order: seq<ObjVert>, ghost corners: seq<ObjVert>)
    requires forall i :: 0 <= i < |Lines(text, 0)| ==> FaceOk(Lines(text, 0)[i])
    ensures Parsed(verts, norms, coords, corners) == ParseLines(Lines(text, 0), vertexOf, normalOf, coordOf)
    ensures Built(m, count, fs, order, corners)
  {
    verts, norms, coords, m, count, fs, order, corners := [], [], [], map[], 0, [], [], [];
    ghost var done: seq<string> := [];
    var pos: nat := 0;
    while true
      invariant Lines(text, 0) == done + Lines(text, pos)
      invariant forall i :: 0 <= i < |done| ==> FaceOk(done[i])
      invariant Parsed(verts, norms, coords, corners) == ParseLines(done, vertexOf, normalOf, coordOf)
      invariant Built(m, count, fs, order, corners)
      decreases |text| - pos
    {
      var found, line, next := GetLine(text, pos);
      if !found {
        break;
      }
      LinesStep(text, done, pos, line, next);
      ParseLinesSnoc(done, line, vertexOf, normalOf, coordOf);
      verts, norms, coords, m, count, fs, order, corners :=
        ReadLine(line, verts, norms, coords, m, count, fs, order, corners, vertexOf, normalOf, coordOf);
      done := done + [line];
      pos := next;
    }
    assert done + [] == done;
  }

  lemma LinesStep(text: string, done: seq<string>, pos: nat, line: string, next: nat)
    requires Lines(text, 0) == done + Lines(text, pos)
    requires Lines(text, pos) == [line] + Lines(text, next)
    requires forall i :: 0 <= i < |Lines(text, 0)| ==> FaceOk(Lines(text, 0)[i])
    ensures Lines(text, 0) == (done + [line]) + Lines(text, next)
    ensures FaceOk(line)
  {
    assert Lines(text, 0)[|done|] == line;
  }

  class Loader {
    var faces: seq<Face>
    var positions: seq<Vec3>
    var normals: seq<Vec3>
    var texCoords: seq<TexCoord>
    /** The handedness of each tangent frame (the tangent's w). */
    var tangentW: seq<real>

    constructor()
      ensures faces == [] && positions == [] && normals == [] && texCoords == [] && tangentW == []
    {
      faces, positions, normals, texCoords, tangentW := [], [], [], [], [];
    }

    function IndexCount(): nat
      reads this
    {
      3 * |faces|
    }

    function VertCount(): nat
      reads this
    {
      |positions|
    }

    function HasNormals(): bool
      reads this
    {
      |normals| > 0
    }

    function HasTangents(): bool
      reads this
    {
      |tangentW| > 0
    }

    /** load: `file` is None when the file cannot be opened; `flipped(i)` is
        the handedness test on vertex i's accumulated tangent frame. */
    method Load(file: Option<string>, vertexOf: string -> Vec3, normalOf: string -> Vec3,
                coordOf: string -> TexCoord, flipped: nat -> bool)
      requires file.Some? ==> Loadable(file.value, vertexOf, normalOf, coordOf)
      modifies this
      ensures file.None? ==> unchanged(this)
      ensures file.Some? ==>
                var p := ParseLines(Lines(file.value, 0), vertexOf, normalOf, coordOf);
                var d := Numbered(p.corners);
                Indexed(faces, d, p.corners) && IndexCount() == |p.corners| && VertCount() == |d| &&
                (forall i :: 0 <= i < |d| ==> positions[i] == p.verts[d[i].vert]) &&
                (HasNormals() <==> |p.norms| > 0 && |d| > 0) &&
                (|p.norms| > 0 ==> |normals| == |d| && forall i :: 0 <= i < |d| ==> normals[i] == p.norms[d[i].norm]) &&
                (|p.coords| == 0 ==> texCoords == [] && tangentW == []) &&
                (|p.coords| > 0 ==> |texCoords| == |d| && forall i :: 0 <= i < |d| ==> texCoords[i] == p.coords[d[i].coord]) &&
                (|p.coords| > 0 ==> |tangentW| == |d| && forall i :: 0 <= i < |d| ==>
                                      tangentW[i] == if flipped(i) then -1.0 else 1.0)
    {
      if file.None? {
        return;
      }
      var verts, norms, coords, m, count, fs, order, corners := ReadText(file.value, vertexOf, normalOf, coordOf);
      ghost var d := Numbered(corners);
      NumberingNoDup(m, order);
      DistinctFacts(corners);
      faces := fs;
      positions, normals, texCoords := Gather(m, order, corners, verts, norms, coords);
      tangentW := [];
      if |coords| > 0 {
        tangentW := Handedness(count, flipped);
      }
    }
  }

  /** Positions.resize(vertCount), Normals and TexCoords likewise when the file
      has any, then the loop over the map writing each triple's attributes at
      its number. */
  method Gather(m: map<ObjVert, nat>, ghost order: seq<ObjVert>, ghost cs: seq<ObjVert>,
                verts: seq<Vec3>, norms: seq<Vec3>, coords: seq<TexCoord>)
    returns (positions: seq<Vec3>, normals: seq<Vec3>, texCoords: seq<TexCoord>)
    requires Numbering(m, order) && NoDup(order) && (forall c :: c in order <==> c in cs)
    requires forall c :: c in cs ==>
               0 <= c.vert < |verts| && (|norms| > 0 ==> 0 <= c.norm < |norms|) &&
               (|coords| > 0 ==> 0 <= c.coord < |coords|)
    ensures |positions| == |order| && forall i :: 0 <= i < |order| ==> positions[i] == verts[order[i].vert]
    ensures |norms| == 0 ==> normals == []
    ensures |norms| > 0 ==> |normals| == |order| && forall i :: 0 <= i < |order| ==> normals[i] == norms[order[i].norm]
    ensures |coords| == 0 ==> texCoords == []
    ensures |coords| > 0 ==>
              |texCoords| == |order| && forall i :: 0 <= i < |order| ==> texCoords[i] == coords[order[i].coord]
  {
    var n := |m.Keys|;
    assert n == |order| by {
      NumberingCount(m, order);
    }
    positions := seq(n, _ => Vec3(0.0, 0.0, 0.0));
    normals := if |norms| > 0 then seq(n, _ => Vec3(0.0, 0.0, 0.0)) else [];
    texCoords := if |coords| > 0 then seq(n, _ => TexCoord(0.0, 0.0)) else [];
    var keys := m.Keys;
    while keys != {}
      invariant keys <= m.Keys
      invariant |positions| == n && |normals| == (if |norms| > 0 then n else 0)
      invariant |texCoords| == (if |coords| > 0 then n else 0)
      invariant forall i :: 0 <= i < n && order[i] !in keys ==>
                  positions[i] == verts[order[i].vert] &&
                  (|norms| > 0 ==> normals[i] == norms[order[i].norm]) &&
                  (|coords| > 0 ==> texCoords[i] == coords[order[i].coord])
      decreases keys
    {
      var k :| k in keys;
      NumberingNames(m, order, k);
      var id := m[k];
      positions := positions[id := verts[k.vert]];
      if |norms| > 0 {
        normals := normals[id := norms[k.norm]];
      }
      if |coords| > 0 {
        texCoords := texCoords[id := coords[k.coord]];
      }
      keys := keys - {k};
    }
  }

  lemma {:induction false} NumberingCount(m: map<ObjVert, nat>, order: seq<ObjVert>)
    requires Numbering(m, order)
    ensures |m.Keys| == |order|
  {
    NumberingNoDup(m, order);
    var ks := set i | 0 <= i < |order| :: order[i];
    assert m.Keys == ks;
    DistinctCard(order);
  }

  lemma {:induction false} DistinctCard(order: seq<ObjVert>)
    requires NoDup(order)
    ensures |set i | 0 <= i < |order| :: order[i]| == |order|
  {
    if |order| > 0 {
      var init := order[..|order| - 1];
      DistinctCard(init);
      var a := set i | 0 <= i < |init| :: init[i];
      var b := set i | 0 <= i < |order| :: order[i];
      assert b == a + {order[|order| - 1]};
      assert order[|order| - 1] !in a;
    }
  }

  /** Tangents.resize(vertCount, {.., 1}) and the loop setting w to -1 where
      the frame is flipped. */
  method Handedness(count: nat, flipped: nat -> bool) returns (w: seq<real>)
    ensures |w| == count && forall i :: 0 <= i < count ==> w[i] == if flipped(i) then -1.0 else 1.0
  {
    w := seq(count, _ => 1.0);
    var i := 0;
    while i < count
      invariant 0 <= i <= count && |w| == count
      invariant forall k :: 0 <= k < i ==> w[k] == if flipped(k) then -1.0 else 1.0
      invariant forall k :: i <= k < count ==> w[k] == 1.0
    {
      if flipped(i) {
        w := w[i := -1.0];
      }
      i := i + 1;
    }
  }
}
