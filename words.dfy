/** Machine words and bytes: the uint32 arithmetic the editor relies on and the
    little-endian layout of a word in host memory. */
module Words {

  const WORD_LIMIT: int := 0x1_0000_0000

  type Byte = b: int | 0 <= b < 256
  type Word = w: int | 0 <= w < WORD_LIMIT

  /** `++w` on a uint32: wraps from 0xFFFF_FFFF to 0. */
  function Inc(w: Word): (r: Word)
    ensures w < WORD_LIMIT - 1 ==> r == w + 1
    ensures w == WORD_LIMIT - 1 ==> r == 0
  {
    if w == WORD_LIMIT - 1 then 0 else w + 1
  }

  /** `w--` on a uint32: wraps from 0 to 0xFFFF_FFFF. */
  function Dec(w: Word): (r: Word)
    ensures w > 0 ==> r == w - 1
    ensures w == 0 ==> r == WORD_LIMIT - 1
  {
    if w == 0 then WORD_LIMIT - 1 else w - 1
  }

  lemma IncDec(w: Word)
    ensures Dec(Inc(w)) == w && Inc(Dec(w)) == w
  {
  }

  /** Truncating conversion of a size_t count to uint32. */
  function Truncate(n: nat): (r: Word)
    ensures n < WORD_LIMIT ==> r == n
  {
    n % WORD_LIMIT
  }

  /** The four bytes of a word, least significant first. */
  function WordBytes(w: Word): (r: seq<Byte>)
    ensures |r| == 4
  {
    [w % 256, (w / 256) % 256, (w / 256 / 256) % 256, w / 256 / 256 / 256]
  }

  /** The word stored little-endian at `b[pos..pos + 4]`. */
  function WordAt(b: seq<Byte>, pos: nat): (r: Word)
    requires pos + 4 <= |b|
  {
    (b[pos] as int) + 256 * (b[pos + 1] as int) + 65536 * (b[pos + 2] as int) + 16777216 * (b[pos + 3] as int)
  }

  /** Reading back a written word gives the word, wherever it sits in the stream. */
  lemma {:induction false} WordRoundTrip(w: Word, pre: seq<Byte>, post: seq<Byte>)
    ensures WordAt(pre + WordBytes(w) + post, |pre|) == w
  {
    var b := pre + WordBytes(w) + post;
    var k := |pre|;
    var q1 := w / 256;
    var q2 := q1 / 256;
    assert b[k] == w % 256 && b[k + 1] == q1 % 256;
    assert b[k + 2] == q2 % 256 && b[k + 3] == q2 / 256;
    assert w == w % 256 + 256 * q1;
    assert q1 == q1 % 256 + 256 * q2;
    assert q2 == q2 % 256 + 256 * (q2 / 256);
  }

  /** Writing back a read word gives the bytes it was read from. */
  lemma {:induction false} BytesRoundTrip(b: seq<Byte>, pos: nat)
    requires pos + 4 <= |b|
    ensures WordBytes(WordAt(b, pos)) == b[pos..pos + 4]
  {
    var w := WordAt(b, pos);
    var b0, b1, b2, b3 := b[pos] as int, b[pos + 1] as int, b[pos + 2] as int, b[pos + 3] as int;
    var q2 := b2 + 256 * b3;
    var q1 := b1 + 256 * q2;
    assert w == b0 + 256 * q1;
    assert w % 256 == b0 && w / 256 == q1;
    assert q1 % 256 == b1 && q1 / 256 == q2;
    assert q2 % 256 == b2 && q2 / 256 == b3;
    assert WordBytes(w) == [b0, b1, b2, b3];
  }
}
