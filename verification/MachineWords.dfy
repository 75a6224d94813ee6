/** Fixed-width integers as the driver's C code sees them, and the little-endian view
    of a byte buffer as an array of 32-bit words. */
module MachineWords {

  type u8 = x: int | 0 <= x < 0x100
  type u16 = x: int | 0 <= x < 0x1_0000
  type u32 = x: int | 0 <= x < 0x1_0000_0000

  datatype Option<+T> = None | Some(value: T)

  /** Conversion of a u32 to C's 32-bit int. */
  function ToInt32(w: u32): (i: int)
  {
    if w < 0x8000_0000 then w else w - 0x1_0000_0000
  }

  /** Conversion of a C int to u32. */
  function ToUint32(i: int): (w: u32)
  {
    i % 0x1_0000_0000
  }

  lemma Int32RoundTrip(w: u32, i: int)
    ensures ToUint32(ToInt32(w)) == w
    ensures -0x8000_0000 <= i < 0x8000_0000 ==> ToInt32(ToUint32(i)) == i
  {
  }

  /** A 32-bit memory cell, as its four bytes from the lowest address up. */
  datatype Word = Word(b0: u8, b1: u8, b2: u8, b3: u8)

  function Value(w: Word): (v: u32)
  {
    var (b0: int, b1: int, b2: int, b3: int) := (w.b0, w.b1, w.b2, w.b3);
    b0 + 0x100 * b1 + 0x1_0000 * b2 + 0x100_0000 * b3
  }

  function WordFor(v: u32): (w: Word)
  {
    Word(v % 0x100, v / 0x100 % 0x100, v / 0x1_0000 % 0x100, v / 0x100_0000)
  }

  lemma ValueRoundTrip(v: u32, w: Word)
    ensures Value(WordFor(v)) == v
    ensures WordFor(Value(w)) == w
  {
    assert v / 0x1_0000 == v / 0x100 / 0x100;
    assert v / 0x100_0000 == v / 0x100 / 0x100 / 0x100;
    var (b1: int, b2: int, b3: int) := (w.b1, w.b2, w.b3);
    assert Value(w) / 0x100 == b1 + 0x100 * b2 + 0x1_0000 * b3;
    assert Value(w) / 0x1_0000 == b2 + 0x100 * b3;
    assert Value(w) / 0x100_0000 == b3;
  }

  function Pack(b: seq<u8>): (w: Word)
    requires |b| == 4
  {
    Word(b[0], b[1], b[2], b[3])
  }

  function Unpack(w: Word): (b: seq<u8>)
    ensures |b| == 4
    ensures Pack(b) == w
  {
    [w.b0, w.b1, w.b2, w.b3]
  }

  /** The whole words of a byte buffer: the last |b| % 4 bytes make no word. */
  function WordsOf(b: seq<u8>): (w: seq<Word>)
    ensures |w| == |b| / 4
  {
    seq(|b| / 4, i requires 0 <= i < |b| / 4 => Pack(b[4 * i..4 * i + 4]))
  }

  function BytesOf(w: seq<Word>): (b: seq<u8>)
    ensures |b| == 4 * |w|
  {
    seq(4 * |w|, i requires 0 <= i < 4 * |w| => Unpack(w[i / 4])[i % 4])
  }

  function Zeros(n: nat): (b: seq<u8>)
    ensures |b| == n
  {
    seq(n, _ => 0 as u8)
  }

  /** What a byte buffer looks like once it went through word copies into zeroed memory. */
  function WordCopied(b: seq<u8>): (r: seq<u8>)
    ensures |r| == |b|
  {
    b[..|b| / 4 * 4] + Zeros(|b| % 4)
  }

  lemma BytesOfWordsOf(b: seq<u8>)
    ensures BytesOf(WordsOf(b)) == b[..|b| / 4 * 4]
  {
    forall i | 0 <= i < |b| / 4 * 4
      ensures BytesOf(WordsOf(b))[i] == b[i]
    {
      var k := i / 4;
      assert b[4 * k..4 * k + 4][i % 4] == b[4 * k + i % 4];
    }
  }

  lemma BytesOfAt(w: seq<Word>, i: nat)
    requires i < |w|
    ensures BytesOf(w)[4 * i..4 * i + 4] == Unpack(w[i])
  {
    var bytes := BytesOf(w);
    assert (4 * i) / 4 == (4 * i + 1) / 4 == (4 * i + 2) / 4 == (4 * i + 3) / 4 == i;
    assert bytes[4 * i] == Unpack(w[i])[0];
    assert bytes[4 * i + 1] == Unpack(w[i])[1];
    assert bytes[4 * i + 2] == Unpack(w[i])[2];
    assert bytes[4 * i + 3] == Unpack(w[i])[3];
  }

  lemma BytesOfConcat(a: seq<Word>, b: seq<Word>)
    ensures BytesOf(a + b) == BytesOf(a) + BytesOf(b)
  {
    hide Unpack;
    forall i | 4 * |a| <= i < 4 * |a + b|
      ensures BytesOf(a + b)[i] == BytesOf(b)[i - 4 * |a|]
    {
      assert (i - 4 * |a|) / 4 == i / 4 - |a| && (i - 4 * |a|) % 4 == i % 4;
    }
  }

  lemma BytesOfSnoc(a: seq<Word>, w: Word)
    ensures BytesOf(a + [w]) == BytesOf(a) + Unpack(w)
  {
    BytesOfConcat(a, [w]);
    BytesOfAt([w], 0);
  }

  /** Splitting a buffer on a word boundary splits its words. */
  lemma WordsOfConcat(a: seq<u8>, b: seq<u8>)
    requires |a| % 4 == 0
    ensures WordsOf(a + b) == WordsOf(a) + WordsOf(b)
  {
    assert |a + b| / 4 == |a| / 4 + |b| / 4;
    forall i | 0 <= i < |a + b| / 4
      ensures WordsOf(a + b)[i] == (WordsOf(a) + WordsOf(b))[i]
    {
      if i < |a| / 4 {
        assert (a + b)[4 * i..4 * i + 4] == a[4 * i..4 * i + 4];
      } else {
        var j := i - |a| / 4;
        assert (a + b)[4 * i..4 * i + 4] == b[4 * j..4 * j + 4];
      }
    }
  }

  lemma WordsOfSlices(b: seq<u8>, cut: nat)
    requires 4 * cut <= |b|
    ensures forall i :: 0 <= i < cut ==> WordsOf(b[..4 * cut])[i] == WordsOf(b)[i]
    ensures forall i :: cut <= i < |b| / 4 ==> WordsOf(b[4 * cut..])[i - cut] == WordsOf(b)[i]
    ensures |WordsOf(b[..4 * cut])| == cut && |WordsOf(b[4 * cut..])| == |b| / 4 - cut
  {
    WordsOfConcat(b[..4 * cut], b[4 * cut..]);
    assert b == b[..4 * cut] + b[4 * cut..];
  }

  /** The word copy is the identity exactly on buffers whose trailing |b| % 4 bytes are zero. */
  lemma WordCopiedIdentity(b: seq<u8>)
    ensures WordCopied(b) == b <==> forall i :: |b| / 4 * 4 <= i < |b| ==> b[i] == 0
    ensures |b| % 4 == 0 ==> WordCopied(b) == b
    ensures WordCopied(WordCopied(b)) == WordCopied(b)
    ensures WordsOf(WordCopied(b)) == WordsOf(b)
  {
    var c := WordCopied(b);
    forall i | 0 <= i < |b| / 4
      ensures WordsOf(c)[i] == WordsOf(b)[i]
    {
      assert c[4 * i..4 * i + 4] == b[4 * i..4 * i + 4];
    }
    if c == b {
      forall i | |b| / 4 * 4 <= i < |b| ensures b[i] == 0 { assert c[i] == 0; }
    }
  }
}
