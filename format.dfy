/** The project file: a flat little-endian byte stream of a four-word header
    (a zero word, the field's width and height, the constraint count), then per
    constraint its sixteen fixed words, a segment count and four words per segment.
    Float fields are stored as their 32-bit pattern, given by `enc`/`dec`. */
module ProjectFormat {
  import opened Words
  import opened Options
  import opened Constraints

  datatype Project = Project(width: Word, height: Word, constraints: seq<Constraint>)

  const HEADER_BYTES: nat := 16

  /** Words written one after another. */
  function EncodeWords(ws: seq<Word>): (r: seq<Byte>)
    ensures |r| == 4 * |ws|
  {
    if |ws| == 0 then [] else WordBytes(ws[0]) + EncodeWords(ws[1..])
  }

  /** `n` consecutive words starting at byte `pos`. */
  function DecodeWords(b: seq<Byte>, pos: nat, n: nat): (r: seq<Word>)
    requires pos + 4 * n <= |b|
    ensures |r| == n
  {
    seq(n, i requires 0 <= i < n => WordAt(b, pos + 4 * i))
  }

  lemma {:induction false} EncodeWordsSplit(ws: seq<Word>, i: nat)
    requires i < |ws|
    ensures EncodeWords(ws) == EncodeWords(ws[..i]) + WordBytes(ws[i]) + EncodeWords(ws[i + 1..])
    decreases i
  {
    if i > 0 {
      EncodeWordsSplit(ws[1..], i - 1);
      assert ws[1..][..i - 1] == ws[1..i] && ws[1..][i - 1] == ws[i] && ws[1..][i..] == ws[i + 1..];
      assert ws[..i][1..] == ws[1..i];
    }
  }

  lemma {:induction false} WordsRoundTrip(ws: seq<Word>, pre: seq<Byte>, post: seq<Byte>)
    ensures |pre + EncodeWords(ws) + post| == |pre| + 4 * |ws| + |post|
    ensures DecodeWords(pre + EncodeWords(ws) + post, |pre|, |ws|) == ws
  {
    var b := pre + EncodeWords(ws) + post;
    forall i | 0 <= i < |ws| ensures WordAt(b, |pre| + 4 * i) == ws[i] {
      EncodeWordsSplit(ws, i);
      var front := pre + EncodeWords(ws[..i]);
      assert b == front + WordBytes(ws[i]) + (EncodeWords(ws[i + 1..]) + post);
      WordRoundTrip(ws[i], front, EncodeWords(ws[i + 1..]) + post);
    }
  }

  /** The bit patterns of a list of floats. */
  function Bits(s: seq<real>, enc: real -> Word): (r: seq<Word>)
    ensures |r| == |s| && forall i :: 0 <= i < |s| ==> r[i] == enc(s[i])
  {
    seq(|s|, i requires 0 <= i < |s| => enc(s[i]))
  }

  /** The floats a list of bit patterns stands for. */
  function Floats(ws: seq<Word>, dec: Word -> real): (r: seq<real>)
    ensures |r| == |ws|
    decreases |ws|
  {
    if |ws| == 0 then [] else [dec(ws[0])] + Floats(ws[1..], dec)
  }

  function Coordinates(l: Line): seq<real>
  {
    [l.x0, l.y0, l.x1, l.y1]
  }

  /** The sixteen words before `lines`: the fifteen floats, then the id. */
  function FixedWords(c: Constraint, enc: real -> Word): (r: seq<Word>)
    ensures |r| * 4 == RECORD_BYTES
  {
    Bits(Scalars(c), enc) + [c.id]
  }

  function EncodeLines(ls: seq<Line>, enc: real -> Word): (r: seq<Byte>)
    ensures |r| == LINE_BYTES * |ls|
  {
    if |ls| == 0 then [] else EncodeWords(Bits(Coordinates(ls[0]), enc)) + EncodeLines(ls[1..], enc)
  }

  /** One record: its fixed part, its segment count as a uint32, its segments. */
  function EncodeRecord(c: Constraint, enc: real -> Word): (r: seq<Byte>)
    ensures |r| == RECORD_BYTES + 4 + LINE_BYTES * |c.lines|
  {
    EncodeWords(FixedWords(c, enc)) + WordBytes(Truncate(|c.lines|)) + EncodeLines(c.lines, enc)
  }

  function EncodeRecords(cs: seq<Constraint>, enc: real -> Word): (r: seq<Byte>)
  {
    if |cs| == 0 then [] else EncodeRecord(cs[0], enc) + EncodeRecords(cs[1..], enc)
  }

  /** The stream `save` writes. */
  function Encode(p: Project, enc: real -> Word): (r: seq<Byte>)
    ensures |r| >= HEADER_BYTES
  {
    EncodeWords([0, p.width, p.height, Truncate(|p.constraints|)]) + EncodeRecords(p.constraints, enc)
  }

  /** A value read from the front of a stream, and the bytes after it. */
  datatype Read<T> = Read(value: T, rest: seq<Byte>)

  function DecodeLine(b: seq<Byte>, dec: Word -> real): (l: Line)
    requires LINE_BYTES <= |b|
  {
    var f := Floats(DecodeWords(b, 0, 4), dec);
    Line(f[0], f[1], f[2], f[3])
  }

  /** `n` segments from the front of `b`. */
  function DecodeLines(b: seq<Byte>, n: nat, dec: Word -> real): (r: Option<Read<seq<Line>>>)
    ensures r.Some? ==> |r.value.value| == n && |b| == LINE_BYTES * n + |r.value.rest|
    ensures r.Some? ==> r.value.rest == b[LINE_BYTES * n..]
    decreases n
  {
    if n == 0 then Some(Read([], b))
    else if |b| < LINE_BYTES then None
    else
      match DecodeLines(b[LINE_BYTES..], n - 1, dec)
      case None => None
      case Some(more) => Some(Read([DecodeLine(b, dec)] + more.value, more.rest))
  }

  /** One record from the front of `b`: sixteen fixed words, the segment count, the segments. */
  function DecodeRecord(b: seq<Byte>, dec: Word -> real): (r: Option<Read<Constraint>>)
    ensures r.Some? ==> |r.value.rest| < |b|
  {
    if |b| < RECORD_BYTES + 4 then None
    else
      var fixed := DecodeWords(b, 0, SCALAR_FIELDS + 1);
      var count := WordAt(b, RECORD_BYTES);
      match DecodeLines(b[RECORD_BYTES + 4..], count, dec)
      case None => None
      case Some(ls) => Some(Read(FromScalars(Floats(fixed[..SCALAR_FIELDS], dec), fixed[SCALAR_FIELDS], ls.value), ls.rest))
  }

  function DecodeRecords(b: seq<Byte>, n: nat, dec: Word -> real): (r: Option<Read<seq<Constraint>>>)
    ensures r.Some? ==> |r.value.value| == n && |r.value.rest| <= |b|
    decreases n
  {
    if n == 0 then Some(Read([], b))
    else
      match DecodeRecord(b, dec)
      case None => None
      case Some(c) =>
        match DecodeRecords(c.rest, n - 1, dec)
        case None => None
        case Some(more) => Some(Read([c.value] + more.value, more.rest))
  }

  /** What `load` reads: width, height and count from words 1 to 3 (word 0 is
      not looked at), then `count` records; `None` when the stream ends early.
      Bytes after the last record are ignored. */
  function Decode(b: seq<Byte>, dec: Word -> real): (r: Option<Project>)
    ensures r.Some? ==> |b| >= HEADER_BYTES && |r.value.constraints| == WordAt(b, 12)
    ensures r.Some? ==> r.value.width == WordAt(b, 4) && r.value.height == WordAt(b, 8)
  {
    if |b| < HEADER_BYTES then None
    else
      match DecodeRecords(b[HEADER_BYTES..], WordAt(b, 12), dec)
      case None => None
      case Some(cs) => Some(Project(WordAt(b, 4), WordAt(b, 8), cs.value))
  }

  /** Every float of the list survives `enc` then `dec` (it is a float32 value). */
  predicate Exact(s: seq<real>, enc: real -> Word, dec: Word -> real)
  {
    forall i :: 0 <= i < |s| ==> dec(enc(s[i])) == s[i]
  }

  /** The list can be stored without loss: counts fit a uint32 and every float is exact. */
  predicate Storable(cs: seq<Constraint>, enc: real -> Word, dec: Word -> real)
  {
    |cs| < WORD_LIMIT &&
    forall i :: 0 <= i < |cs| ==>
      |cs[i].lines| < WORD_LIMIT && Exact(Scalars(cs[i]), enc, dec) &&
      forall j :: 0 <= j < |cs[i].lines| ==> Exact(Coordinates(cs[i].lines[j]), enc, dec)
  }

  lemma {:induction false} FloatsBits(s: seq<real>, enc: real -> Word, dec: Word -> real)
    requires Exact(s, enc, dec)
    ensures Floats(Bits(s, enc), dec) == s
    decreases |s|
  {
    if |s| > 0 {
      assert Bits(s, enc)[1..] == Bits(s[1..], enc);
      assert Exact(s[1..], enc, dec) by {
        forall i | 0 <= i < |s[1..]| ensures dec(enc(s[1..][i])) == s[1..][i] {
          assert s[1..][i] == s[i + 1];
        }
      }
      FloatsBits(s[1..], enc, dec);
      assert s == [s[0]] + s[1..];
    }
  }

  /** One segment reads back from the front of the stream. */
  lemma LineRoundTrip(l: Line, more: seq<Byte>, enc: real -> Word, dec: Word -> real)
    requires Exact(Coordinates(l), enc, dec)
    ensures LINE_BYTES <= |EncodeWords(Bits(Coordinates(l), enc)) + more|
    ensures DecodeLine(EncodeWords(Bits(Coordinates(l), enc)) + more, dec) == l
  {
    var head := EncodeWords(Bits(Coordinates(l), enc));
    assert head + more == [] + head + more;
    WordsRoundTrip(Bits(Coordinates(l), enc), [], more);
    FloatsBits(Coordinates(l), enc, dec);
  }

  lemma LinesShape(ls: seq<Line>, rest: seq<Byte>, enc: real -> Word)
    requires |ls| > 0
    ensures EncodeLines(ls, enc) + rest == EncodeWords(Bits(Coordinates(ls[0]), enc)) + (EncodeLines(ls[1..], enc) + rest)
  {
  }

  lemma LinesStep(ls: seq<Line>, rest: seq<Byte>, b: seq<Byte>, dec: Word -> real)
    requires |ls| > 0 && LINE_BYTES <= |b| && DecodeLine(b, dec) == ls[0]
    requires DecodeLines(b[LINE_BYTES..], |ls| - 1, dec) == Some(Read(ls[1..], rest))
    ensures DecodeLines(b, |ls|, dec) == Some(Read(ls, rest))
  {
    assert ls == [ls[0]] + ls[1..];
  }

  lemma {:induction false} LinesRoundTrip(ls: seq<Line>, rest: seq<Byte>, enc: real -> Word, dec: Word -> real)
    requires forall j :: 0 <= j < |ls| ==> Exact(Coordinates(ls[j]), enc, dec)
    ensures DecodeLines(EncodeLines(ls, enc) + rest, |ls|, dec) == Some(Read(ls, rest))
    decreases |ls|
  {
    if |ls| > 0 {
      var b := EncodeLines(ls, enc) + rest;
      var more := EncodeLines(ls[1..], enc) + rest;
      LinesShape(ls, rest, enc);
      LineRoundTrip(ls[0], more, enc, dec);
      assert b[LINE_BYTES..] == more;
      assert forall j :: 0 <= j < |ls[1..]| ==> ls[1..][j] == ls[j + 1];
      LinesRoundTrip(ls[1..], rest, enc, dec);
      LinesStep(ls, rest, b, dec);
    } else {
      assert EncodeLines(ls, enc) + rest == rest;
    }
  }

  /** The fixed part of a record reads back as its floats and its id. */
  lemma {:induction false} FixedRoundTrip(c: Constraint, rest: seq<Byte>, enc: real -> Word, dec: Word -> real)
    requires Exact(Scalars(c), enc, dec)
    ensures |EncodeWords(FixedWords(c, enc)) + rest| >= RECORD_BYTES
    ensures var ws := DecodeWords(EncodeWords(FixedWords(c, enc)) + rest, 0, SCALAR_FIELDS + 1);
            Floats(ws[..SCALAR_FIELDS], dec) == Scalars(c) && ws[SCALAR_FIELDS] == c.id
  {
    assert EncodeWords(FixedWords(c, enc)) + rest == [] + EncodeWords(FixedWords(c, enc)) + rest;
    WordsRoundTrip(FixedWords(c, enc), [], rest);
    assert FixedWords(c, enc)[..SCALAR_FIELDS] == Bits(Scalars(c), enc);
    FloatsBits(Scalars(c), enc, dec);
  }

  /** A record is read back from whatever stream holds its parts at the right places. */
  lemma {:induction false} DecodeRecordFrom(b: seq<Byte>, c: Constraint, rest: seq<Byte>, dec: Word -> real)
    requires RECORD_BYTES + 4 <= |b|
    requires Floats(DecodeWords(b, 0, SCALAR_FIELDS + 1)[..SCALAR_FIELDS], dec) == Scalars(c)
    requires DecodeWords(b, 0, SCALAR_FIELDS + 1)[SCALAR_FIELDS] == c.id
    requires WordAt(b, RECORD_BYTES) == |c.lines|
    requires DecodeLines(b[RECORD_BYTES + 4..], |c.lines|, dec) == Some(Read(c.lines, rest))
    ensures DecodeRecord(b, dec) == Some(Read(c, rest))
  {
    ScalarsRoundTrip(c, Scalars(c), c.id, c.lines);
  }

  lemma {:induction false} RecordRoundTrip(c: Constraint, rest: seq<Byte>, enc: real -> Word, dec: Word -> real)
    requires |c.lines| < WORD_LIMIT && Exact(Scalars(c), enc, dec)
    requires forall j :: 0 <= j < |c.lines| ==> Exact(Coordinates(c.lines[j]), enc, dec)
    ensures DecodeRecord(EncodeRecord(c, enc) + rest, dec) == Some(Read(c, rest))
  {
    var fixed := EncodeWords(FixedWords(c, enc));
    var count := WordBytes(Truncate(|c.lines|));
    var lines := EncodeLines(c.lines, enc);
    var b := EncodeRecord(c, enc) + rest;
    assert b == fixed + (count + lines + rest);
    FixedRoundTrip(c, count + lines + rest, enc, dec);
    assert b == fixed + count + (lines + rest);
    WordRoundTrip(Truncate(|c.lines|), fixed, lines + rest);
    assert b[RECORD_BYTES + 4..] == lines + rest;
    LinesRoundTrip(c.lines, rest, enc, dec);
    DecodeRecordFrom(b, c, rest, dec);
  }

  lemma StorableTail(cs: seq<Constraint>, enc: real -> Word, dec: Word -> real)
    requires |cs| > 0 && Storable(cs, enc, dec)
    ensures Storable(cs[1..], enc, dec)
  {
    assert forall i :: 0 <= i < |cs[1..]| ==> cs[1..][i] == cs[i + 1];
  }

  lemma StorableParts(cs: seq<Constraint>, enc: real -> Word, dec: Word -> real)
    requires |cs| > 0 && Storable(cs, enc, dec)
    ensures |cs[0].lines| < WORD_LIMIT && Exact(Scalars(cs[0]), enc, dec)
    ensures forall j :: 0 <= j < |cs[0].lines| ==> Exact(Coordinates(cs[0].lines[j]), enc, dec)
  {
  }

  lemma RecordsShape(cs: seq<Constraint>, rest: seq<Byte>, enc: real -> Word)
    requires |cs| > 0
    ensures EncodeRecords(cs, enc) + rest == EncodeRecord(cs[0], enc) + (EncodeRecords(cs[1..], enc) + rest)
  {
  }

  lemma RecordsStep(cs: seq<Constraint>, rest: seq<Byte>, more: seq<Byte>, b: seq<Byte>, dec: Word -> real)
    requires |cs| > 0
    requires DecodeRecord(b, dec) == Some(Read(cs[0], more))
    requires DecodeRecords(more, |cs| - 1, dec) == Some(Read(cs[1..], rest))
    ensures DecodeRecords(b, |cs|, dec) == Some(Read(cs, rest))
  {
    assert cs == [cs[0]] + cs[1..];
  }

  /** The first record of a stored list reads back, leaving the encoding of the others. */
  lemma RecordsHead(cs: seq<Constraint>, rest: seq<Byte>, enc: real -> Word, dec: Word -> real)
    requires |cs| > 0 && Storable(cs, enc, dec)
    ensures DecodeRecord(EncodeRecords(cs, enc) + rest, dec) == Some(Read(cs[0], EncodeRecords(cs[1..], enc) + rest))
  {
    StorableParts(cs, enc, dec);
    RecordsShape(cs, rest, enc);
    RecordRoundTrip(cs[0], EncodeRecords(cs[1..], enc) + rest, enc, dec);
  }

  lemma {:induction false} RecordsRoundTrip(cs: seq<Constraint>, rest: seq<Byte>, enc: real -> Word, dec: Word -> real)
    requires Storable(cs, enc, dec)
    ensures DecodeRecords(EncodeRecords(cs, enc) + rest, |cs|, dec) == Some(Read(cs, rest))
    decreases |cs|
  {
    if |cs| > 0 {
      StorableTail(cs, enc, dec);
      RecordsRoundTrip(cs[1..], rest, enc, dec);
      RecordsHead(cs, rest, enc, dec);
      RecordsStep(cs, rest, EncodeRecords(cs[1..], enc) + rest, EncodeRecords(cs, enc) + rest, dec);
    } else {
      assert EncodeRecords(cs, enc) + rest == rest;
    }
  }

  /** `load(save(p))` gives back the size and every record and segment in order. */
  lemma {:induction false} RoundTrip(p: Project, enc: real -> Word, dec: Word -> real)
    requires Storable(p.constraints, enc, dec)
    ensures Decode(Encode(p, enc), dec) == Some(p)
  {
    var header := [0, p.width, p.height, Truncate(|p.constraints|)];
    var body := EncodeRecords(p.constraints, enc);
    var b := Encode(p, enc);
    assert b == [] + EncodeWords(header) + body;
    WordsRoundTrip(header, [], body);
    var ws := DecodeWords(b, 0, 4);
    assert WordAt(b, 4) == ws[1] && WordAt(b, 8) == ws[2] && WordAt(b, 12) == ws[3];
    assert b[HEADER_BYTES..] == body + [];
    RecordsRoundTrip(p.constraints, [], enc, dec);
  }

  lemma {:induction false} EncodeLinesAppend(ls: seq<Line>, l: Line, enc: real -> Word)
    ensures EncodeLines(ls + [l], enc) == EncodeLines(ls, enc) + EncodeWords(Bits(Coordinates(l), enc))
    decreases |ls|
  {
    if |ls| == 0 {
      assert [l][1..] == [];
    } else {
      assert (ls + [l])[1..] == ls[1..] + [l];
      EncodeLinesAppend(ls[1..], l, enc);
    }
  }

  lemma {:induction false} EncodeRecordsAppend(cs: seq<Constraint>, c: Constraint, enc: real -> Word)
    ensures EncodeRecords(cs + [c], enc) == EncodeRecords(cs, enc) + EncodeRecord(c, enc)
    decreases |cs|
  {
    if |cs| == 0 {
      assert [c][1..] == [];
    } else {
      assert (cs + [c])[1..] == cs[1..] + [c];
      EncodeRecordsAppend(cs[1..], c, enc);
    }
  }

  lemma EncodeFour(a: Word, b: Word, c: Word, d: Word)
    ensures EncodeWords([a, b, c, d]) == WordBytes(a) + WordBytes(b) + WordBytes(c) + WordBytes(d)
  {
    assert [a, b, c, d][1..] == [b, c, d] && [b, c, d][1..] == [c, d] && [c, d][1..] == [d];
    assert EncodeWords([d]) == WordBytes(d);
    assert EncodeWords([c, d]) == WordBytes(c) + WordBytes(d);
    assert EncodeWords([b, c, d]) == WordBytes(b) + (WordBytes(c) + WordBytes(d));
  }

  /** save: the header words, then per record its fixed bytes, its segment count
      and its segments, appended to the stream one write at a time. */
  method Save(p: Project, enc: real -> Word) returns (out: seq<Byte>)
    ensures out == Encode(p, enc)
  {
    out := WordBytes(0);
    out := out + WordBytes(p.width);
    out := out + WordBytes(p.height);
    out := out + WordBytes(Truncate(|p.constraints|));
    EncodeFour(0, p.width, p.height, Truncate(|p.constraints|));
    ghost var header := out;
    var i := 0;
    while i < |p.constraints|
      invariant 0 <= i <= |p.constraints|
      invariant out == header + EncodeRecords(p.constraints[..i], enc)
    {
      var record := WriteRecord(p.constraints[i], enc);
      SaveStep(p.constraints, i, header, out, record, enc);
      out := out + record;
      i := i + 1;
    }
    assert p.constraints[..i] == p.constraints;
  }

  lemma SaveStep(cs: seq<Constraint>, i: nat, header: seq<Byte>, out: seq<Byte>, record: seq<Byte>, enc: real -> Word)
    requires i < |cs| && out == header + EncodeRecords(cs[..i], enc) && record == EncodeRecord(cs[i], enc)
    ensures out + record == header + EncodeRecords(cs[..i + 1], enc)
  {
    assert cs[..i + 1] == cs[..i] + [cs[i]];
    EncodeRecordsAppend(cs[..i], cs[i], enc);
    AppendAssoc(header, EncodeRecords(cs[..i], enc), record);
  }

  lemma AppendAssoc(a: seq<Byte>, b: seq<Byte>, c: seq<Byte>)
    ensures a + b + c == a + (b + c)
  {
  }

  /** One record of save: the fixed bytes, the segment count, one write per segment. */
  method WriteRecord(c: Constraint, enc: real -> Word) returns (record: seq<Byte>)
    ensures record == EncodeRecord(c, enc)
  {
    record := EncodeWords(FixedWords(c, enc)) + WordBytes(Truncate(|c.lines|));
    ghost var fixed := record;
    var j := 0;
    while j < |c.lines|
      invariant 0 <= j <= |c.lines|
      invariant record == fixed + EncodeLines(c.lines[..j], enc)
    {
      EncodeLinesAppend(c.lines[..j], c.lines[j], enc);
      assert c.lines[..j + 1] == c.lines[..j] + [c.lines[j]];
      record := record + EncodeWords(Bits(Coordinates(c.lines[j]), enc));
      j := j + 1;
    }
    assert c.lines[..j] == c.lines;
  }

  /** The larger of two words, as `std::max` picks it. */
  function Larger(a: Word, b: Word): (r: Word)
    ensures r >= a && r >= b && (r == a || r == b)
  {
    if a < b then b else a
  }

  lemma WordAtShift(b: seq<Byte>, pos: nat, k: nat)
    requires pos + k + 4 <= |b|
    ensures WordAt(b[pos..], k) == WordAt(b, pos + k)
  {
  }

  lemma DecodeWordsShift(b: seq<Byte>, pos: nat, n: nat)
    requires pos + 4 * n <= |b|
    ensures DecodeWords(b[pos..], 0, n) == DecodeWords(b, pos, n)
  {
    forall i | 0 <= i < n ensures DecodeWords(b[pos..], 0, n)[i] == DecodeWords(b, pos, n)[i] {
      WordAtShift(b, pos, 4 * i);
    }
  }

  /** Segment `k` of a segment list is read from byte `16 * k` on. */
  lemma {:induction false} DecodeLinesAt(bb: seq<Byte>, n: nat, k: nat, dec: Word -> real)
    requires DecodeLines(bb, n, dec).Some? && k < n
    ensures LINE_BYTES * (k + 1) <= |bb|
    ensures DecodeLines(bb, n, dec).value.value[k] == DecodeLine(bb[LINE_BYTES * k..], dec)
    decreases k
  {
    if k > 0 {
      DecodeLinesAt(bb[LINE_BYTES..], n - 1, k - 1, dec);
      assert bb[LINE_BYTES..][LINE_BYTES * (k - 1)..] == bb[LINE_BYTES * k..];
    }
  }

  /** One step of the record walk: the first record sits at `pos`, the rest
      follows from where it ends. */
  lemma RecordsAdvanceTo(b: seq<Byte>, pos: nat, next: nat, n: nat, c: Constraint,
                         suffix: seq<Constraint>, tail: seq<Byte>, dec: Word -> real)
    requires pos <= |b| && next <= |b| && n > 0
    requires DecodeRecords(b[pos..], n, dec) == Some(Read(suffix, tail))
    requires DecodeRecord(b[pos..], dec) == Some(Read(c, b[next..]))
    ensures |suffix| == n && suffix[0] == c
    ensures DecodeRecords(b[next..], n - 1, dec) == Some(Read(suffix[1..], tail))
  {
  }

  /** `m` raised by every id of `cs` in turn, as load's `std::max` does. */
  function MaxFrom(m: Word, cs: seq<Constraint>): (r: Word)
    decreases |cs|
  {
    if |cs| == 0 then m else MaxFrom(Larger(m, cs[0].id), cs[1..])
  }

  lemma {:induction false} MaxFromBounds(m: Word, cs: seq<Constraint>)
    ensures MaxFrom(m, cs) >= m
    ensures forall i :: 0 <= i < |cs| ==> cs[i].id <= MaxFrom(m, cs)
    ensures MaxFrom(m, cs) == m || exists i :: 0 <= i < |cs| && cs[i].id == MaxFrom(m, cs)
    decreases |cs|
  {
    if |cs| > 0 {
      MaxFromBounds(Larger(m, cs[0].id), cs[1..]);
      assert forall i :: 0 <= i < |cs[1..]| ==> cs[1..][i] == cs[i + 1];
    }
  }

  lemma MaxFromStep(m: Word, cs: seq<Constraint>, i: nat)
    requires i < |cs|
    ensures MaxFrom(m, cs[i..]) == MaxFrom(Larger(m, cs[i].id), cs[i + 1..])
  {
    assert cs[i..][1..] == cs[i + 1..];
  }

  /** Raising `m` id by id ends at the larger of `m` and the list's largest id. */
  lemma MaxFromMaxId(m: Word, cs: seq<Constraint>)
    ensures MaxFrom(m, cs) == Larger(m, MaxId(cs))
  {
    MaxFromBounds(m, cs);
  }

  /** load: the header words, then the record walk. */
  method Load(b: seq<Byte>, dec: Word -> real, startId: Word) returns (p: Project, maxId: Word)
    requires Decode(b, dec).Some?
    ensures Some(p) == Decode(b, dec)
    ensures maxId == Larger(startId, MaxId(p.constraints))
  {
    var width, height, count := WordAt(b, 4), WordAt(b, 8), WordAt(b, 12);
    var cs;
    ghost var walk := DecodeRecords(b[HEADER_BYTES..], count, dec).value;
    cs, maxId := ReadRecords(b, HEADER_BYTES, count, dec, startId, walk.value, walk.rest);
    p := Project(width, height, cs);
  }

  /** load's record loop: `n` records from byte `start` on, raising `startId`
      to the largest id read. */
  method ReadRecords(b: seq<Byte>, start: nat, n: nat, dec: Word -> real, startId: Word,
                     ghost all: seq<Constraint>, ghost tail: seq<Byte>)
    returns (cs: seq<Constraint>, maxId: Word)
    requires Walk(b, start, n, all, tail, dec)
    ensures cs == all
    ensures maxId == Larger(startId, MaxId(cs))
  {
    WalkLength(b, start, n, all, tail, dec);
    cs := [];
    var pos: nat := start;
    maxId := startId;
    var i := 0;
    while i < n
      invariant 0 <= i <= n && |all| == n && cs == all[..i]
      invariant Walk(b, pos, n - i, all[i..], tail, dec)
      invariant MaxFrom(maxId, all[i..]) == MaxFrom(startId, all)
    {
      var c, next := ReadNextRecord(b, pos, all, i, n, tail, dec);
      MaxFromStep(maxId, all, i);
      cs := cs + [c];
      maxId := Larger(maxId, c.id);
      pos := next;
      i := i + 1;
    }
    assert all[..i] == all;
    MaxFromMaxId(startId, all);
  }

  /** From byte `pos` on, `k` records read as `suffix`, leaving `tail`. The
      decoding is stated for every `m` equal to `k`, so a proof expands it only
      where it names `DecodeRecords` itself. */
  ghost predicate Walk(b: seq<Byte>, pos: nat, k: nat, suffix: seq<Constraint>, tail: seq<Byte>, dec: Word -> real)
  {
    pos <= |b| && forall m :: m == k ==> DecodeRecords(b[pos..], m, dec) == Some(Read(suffix, tail))
  }

  /** A record can be read from byte `pos` on. */
  ghost predicate HasRecord(b: seq<Byte>, pos: nat, dec: Word -> real)
  {
    pos <= |b| && forall m :: m == pos ==> DecodeRecord(b[m..], dec).Some?
  }

  /** The record at byte `pos` is `c` and ends at byte `next`. */
  ghost predicate RecordAt(b: seq<Byte>, pos: nat, c: Constraint, next: nat, dec: Word -> real)
  {
    pos <= |b| && next <= |b| && forall m :: m == pos ==> DecodeRecord(b[m..], dec) == Some(Read(c, b[next..]))
  }

  lemma WalkLength(b: seq<Byte>, pos: nat, k: nat, suffix: seq<Constraint>, tail: seq<Byte>, dec: Word -> real)
    requires Walk(b, pos, k, suffix, tail, dec)
    ensures |suffix| == k && suffix[0..] == suffix
  {
    assert DecodeRecords(b[pos..], k, dec) == Some(Read(suffix, tail));
  }

  /** A walk with records left starts with a readable record. */
  lemma WalkHead(b: seq<Byte>, pos: nat, k: nat, suffix: seq<Constraint>, tail: seq<Byte>, dec: Word -> real)
    requires k > 0 && Walk(b, pos, k, suffix, tail, dec)
    ensures HasRecord(b, pos, dec)
  {
    assert DecodeRecords(b[pos..], k, dec) == Some(Read(suffix, tail));
  }

  /** Record `i` of the walk, and the walk left after it. */
  method ReadNextRecord(b: seq<Byte>, pos: nat, ghost all: seq<Constraint>, i: nat, n: nat,
                        ghost tail: seq<Byte>, dec: Word -> real) returns (c: Constraint, next: nat)
    requires i < n == |all| && Walk(b, pos, n - i, all[i..], tail, dec)
    ensures next <= |b| && c == all[i] && all[..i + 1] == all[..i] + [c]
    ensures Walk(b, next, n - (i + 1), all[i + 1..], tail, dec)
  {
    WalkHead(b, pos, n - i, all[i..], tail, dec);
    c, next := ReadRecord(b, pos, dec);
    WalkStep(b, pos, next, all, i, n, c, tail, dec);
  }

  lemma WalkStep(b: seq<Byte>, pos: nat, next: nat, all: seq<Constraint>, i: nat, n: nat,
                 c: Constraint, tail: seq<Byte>, dec: Word -> real)
    requires i < n == |all| && Walk(b, pos, n - i, all[i..], tail, dec)
    requires RecordAt(b, pos, c, next, dec)
    ensures c == all[i] && all[..i + 1] == all[..i] + [c]
    ensures Walk(b, next, n - (i + 1), all[i + 1..], tail, dec)
  {
    SuffixStep(all, i);
    assert DecodeRecords(b[pos..], n - i, dec) == Some(Read(all[i..], tail));
    assert DecodeRecord(b[pos..], dec) == Some(Read(c, b[next..]));
    RecordsAdvanceTo(b, pos, next, n - i, c, all[i..], tail, dec);
  }

  lemma SuffixStep<T>(s: seq<T>, i: nat)
    requires i < |s|
    ensures |s[i..]| == |s| - i && s[i..][0] == s[i] && s[i..][1..] == s[i + 1..]
    ensures s[..i + 1] == s[..i] + [s[i]]
  {
  }

  /** One record of load's walk: memcpy of the fixed part, the segment count,
      then one segment at a time. */
  method ReadRecord(b: seq<Byte>, pos: nat, dec: Word -> real) returns (c: Constraint, next: nat)
    requires HasRecord(b, pos, dec)
    ensures RecordAt(b, pos, c, next, dec)
  {
    assert DecodeRecord(b[pos..], dec).Some?;
    assert pos + RECORD_BYTES + 4 <= |b|;
    var fixed := DecodeWords(b, pos, SCALAR_FIELDS + 1);
    DecodeWordsShift(b, pos, SCALAR_FIELDS + 1);
    var lineCount := WordAt(b, pos + RECORD_BYTES);
    WordAtShift(b, pos, RECORD_BYTES);
    var cur: nat := pos + RECORD_BYTES + 4;
    assert b[pos..][RECORD_BYTES + 4..] == b[cur..];
    var lines;
    lines, next := ReadLines(b, cur, lineCount, dec);
    c := FromScalars(Floats(fixed[..SCALAR_FIELDS], dec), fixed[SCALAR_FIELDS], lines);
    ScalarsRoundTrip(c, Floats(fixed[..SCALAR_FIELDS], dec), fixed[SCALAR_FIELDS], lines);
    DecodeRecordFrom(b[pos..], c, b[next..], dec);
  }

  /** The segment loop of load: one 16-byte memcpy per segment. */
  method ReadLines(b: seq<Byte>, start: nat, n: nat, dec: Word -> real) returns (lines: seq<Line>, next: nat)
    requires start <= |b| && DecodeLines(b[start..], n, dec).Some?
    ensures next <= |b|
    ensures DecodeLines(b[start..], n, dec) == Some(Read(lines, b[next..]))
  {
    ghost var ls := DecodeLines(b[start..], n, dec).value;
    var cur: nat := start;
    lines := [];
    var j := 0;
    while j < n
      invariant 0 <= j <= n && cur == start + LINE_BYTES * j
      invariant |lines| == j && forall k :: 0 <= k < j ==> lines[k] == ls.value[k]
    {
      DecodeLinesAt(b[start..], n, j, dec);
      assert b[start..][LINE_BYTES * j..] == b[cur..];
      var line := DecodeLine(b[cur..], dec);
      lines := lines + [line];
      cur := cur + LINE_BYTES;
      j := j + 1;
    }
    assert lines == ls.value;
    assert ls.rest == b[start..][LINE_BYTES * n..] == b[cur..];
    next := cur;
  }
}
