/** The words of a ring, read and written circularly, and the frames they carry. */
module RingWords {
  import opened MachineWords
  import opened Mails

  function Wrap(i: nat, n: nat): (r: nat)
    requires i < 2 * n
    ensures r < n
  {
    if i < n then i else i - n
  }

  lemma QuotientBound(n: nat, q: nat)
    ensures q >= 2 ==> n * q >= 2 * n
    ensures n * 1 == n && n * 0 == 0
  {
    if q >= 2 {
      assert n * q == 2 * n + n * (q - 2);
    }
  }

  lemma WrapIsModulo(i: nat, n: nat)
    requires i < 2 * n
    ensures Wrap(i, n) == i % n
  {
    var q := i / n;
    assert i == n * q + i % n;
    QuotientBound(n, q);
  }

  /** How far ahead of `from` the index `to` lies, going round. */
  function Distance(from: nat, to: nat, n: nat): (d: nat)
    requires from < n && to < n
    ensures d < n && Wrap(from + d, n) == to
  {
    if to >= from then to - from else n + to - from
  }

  function Window(ring: seq<Word>, start: nat, len: nat): (ws: seq<Word>)
    requires start < |ring| && len <= |ring|
    ensures |ws| == len
    ensures forall i :: 0 <= i < len ==> ws[i] == ring[Wrap(start + i, |ring|)]
  {
    seq(len, i requires 0 <= i < len => ring[Wrap(start + i, |ring|)])
  }

  /** The word at index `p` after `items` were stored circularly from `start` on. */
  function Stored(ring: seq<Word>, start: nat, items: seq<Word>, p: nat): (w: Word)
    requires start < |ring| && p < |ring|
  {
    if Distance(start, p, |ring|) < |items| then items[Distance(start, p, |ring|)] else ring[p]
  }

  function Store(ring: seq<Word>, start: nat, items: seq<Word>): (r: seq<Word>)
    requires start < |ring|
    ensures |r| == |ring|
    ensures forall p :: 0 <= p < |ring| ==> r[p] == Stored(ring, start, items, p)
  {
    seq(|ring|, p requires 0 <= p < |ring| => Stored(ring, start, items, p))
  }

  /** A circular store followed by a circular load at the same index gives the words back. */
  lemma LoadAfterStore(ring: seq<Word>, start: nat, items: seq<Word>)
    requires start < |ring| && |items| <= |ring|
    ensures Window(Store(ring, start, items), start, |items|) == items
  {
    forall i | 0 <= i < |items|
      ensures Window(Store(ring, start, items), start, |items|)[i] == items[i]
    {
      assert Distance(start, Wrap(start + i, |ring|), |ring|) == i;
    }
  }

  /** A circular store outside a window leaves the window alone. */
  lemma StoreOutsideWindow(ring: seq<Word>, from: nat, len: nat, gap: nat, items: seq<Word>)
    requires from < |ring| && len <= gap < |ring| && gap + |items| <= |ring|
    ensures Window(Store(ring, Wrap(from + gap, |ring|), items), from, len) == Window(ring, from, len)
  {
    var start := Wrap(from + gap, |ring|);
    forall i | 0 <= i < len
      ensures Window(Store(ring, start, items), from, len)[i] == Window(ring, from, len)[i]
    {
      assert Distance(start, Wrap(from + i, |ring|), |ring|) == |ring| + i - gap;
    }
  }

  lemma WindowTake(ring: seq<Word>, start: nat, len: nat, k: nat)
    requires start < |ring| && k <= len <= |ring|
    ensures Window(ring, start, len)[..k] == Window(ring, start, k)
  {
  }

  lemma WindowDrop(ring: seq<Word>, start: nat, len: nat, k: nat)
    requires start < |ring| && k <= len <= |ring| && k < |ring|
    ensures Window(ring, start, len)[k..] == Window(ring, Wrap(start + k, |ring|), len - k)
  {
    var whole, right := Window(ring, start, len), Window(ring, Wrap(start + k, |ring|), len - k);
    assert forall i :: 0 <= i < len - k ==> right[i] == whole[k..][i];
  }

  lemma WindowSplit(ring: seq<Word>, start: nat, a: nat, b: nat)
    requires start < |ring| && a < |ring| && a + b <= |ring|
    ensures Window(ring, start, a + b) == Window(ring, start, a) + Window(ring, Wrap(start + a, |ring|), b)
  {
    WindowTake(ring, start, a + b, a);
    WindowDrop(ring, start, a + b, a);
  }

  lemma StoreSplit(ring: seq<Word>, start: nat, a: seq<Word>, b: seq<Word>)
    requires start < |ring| && |a| < |ring| && |a| + |b| <= |ring|
    ensures Store(Store(ring, start, a), Wrap(start + |a|, |ring|), b) == Store(ring, start, a + b)
  {
    var next := Wrap(start + |a|, |ring|);
    forall p | 0 <= p < |ring|
      ensures Store(Store(ring, start, a), next, b)[p] == Store(ring, start, a + b)[p]
    {
      var d := Distance(start, p, |ring|);
      if d < |a| {
        assert Distance(next, p, |ring|) == |ring| + d - |a|;
      } else {
        assert Distance(next, p, |ring|) == d - |a|;
      }
    }
  }

  /** A window is straight up to the ring's last word and goes on from its first. */
  lemma WindowInPieces(ring: seq<Word>, start: nat, len: nat)
    requires start < |ring| && len <= |ring|
    ensures start + len <= |ring| ==> ring[start..start + len] == Window(ring, start, len)
    ensures start + len >= |ring| ==> ring[start..|ring|] + ring[0..start + len - |ring|] == Window(ring, start, len)
  {
  }

  /** What a load of `n` bytes into zeroed memory gives. */
  function LoadBytes(ring: seq<Word>, start: nat, n: nat): (bytes: seq<u8>)
    requires start < |ring| && n <= 4 * |ring|
    ensures |bytes| == n
  {
    BytesOf(Window(ring, start, n / 4)) + Zeros(n % 4)
  }

  /** A header: body size in the low half, kind in the high half, low byte first. */
  function SerializeHeader(uid: u16, size: u16): (header: seq<u8>)
    ensures |header| == 4
  {
    [size % 0x100, size / 0x100, uid % 0x100, uid / 0x100]
  }

  function UnserializeUid(header: seq<u8>): (uid: u16)
    requires |header| == 4
  {
    var (low: int, high: int) := (header[2], header[3]);
    low + high * 0x100
  }

  function UnserializeSize(header: seq<u8>): (size: u16)
    requires |header| == 4
  {
    var (low: int, high: int) := (header[0], header[1]);
    low + high * 0x100
  }

  lemma HeaderRoundTrip(uid: u16, size: u16)
    ensures UnserializeUid(SerializeHeader(uid, size)) == uid
    ensures UnserializeSize(SerializeHeader(uid, size)) == size
    ensures Value(Pack(SerializeHeader(uid, size))) == size + 0x1_0000 * uid
  {
  }

  function HeaderOf(m: Mail): (h: Word)
    ensures UidIn(h) == m.uid && SizeIn(h) == |m.body|
  {
    HeaderRoundTrip(m.uid, |m.body|);
    Pack(SerializeHeader(m.uid, |m.body|))
  }

  function UidIn(h: Word): (uid: u16)
  {
    UnserializeUid(Unpack(h))
  }

  function SizeIn(h: Word): (size: u16)
  {
    UnserializeSize(Unpack(h))
  }

  /** Words that a body of this many bytes takes up in the ring. */
  function BodySpan(size: nat): (n: nat)
  {
    (size + 3) / 4
  }

  /** Words of the whole frame that a header announces. */
  function SpanIn(h: Word): (n: nat)
    ensures n > SizeIn(h) / 4
  {
    1 + BodySpan(SizeIn(h))
  }

  function FrameSpan(m: Mail): (n: nat)
  {
    1 + BodySpan(|m.body|)
  }

  /** The words actually stored for a mail: fewer than its span when the body ends mid-word. */
  function FrameWords(m: Mail): (ws: seq<Word>)
    ensures |ws| == 1 + |m.body| / 4 <= FrameSpan(m)
  {
    [HeaderOf(m)] + WordsOf(m.body)
  }

  /** The mail that a header and the words after it stand for. */
  function OpenFrame(h: Word, ws: seq<Word>): (m: Mail)
    requires SizeIn(h) / 4 <= |ws|
    ensures |m.body| == SizeIn(h)
  {
    RawMail(UidIn(h), BytesOf(ws[..SizeIn(h) / 4]) + Zeros(SizeIn(h) % 4))
  }

  /** The mails in a run of words, if the run splits into whole frames. */
  ghost function Parse(ws: seq<Word>): (ms: Option<seq<Mail>>)
  {
    if ws == [] then Some([])
    else if SpanIn(ws[0]) > |ws| then None
    else
      match Parse(ws[SpanIn(ws[0])..])
      case None => None
      case Some(rest) => Some([OpenFrame(ws[0], ws[1..])] + rest)
  }

  function TotalSpan(ms: seq<Mail>): (n: nat)
  {
    if ms == [] then 0 else FrameSpan(ms[0]) + TotalSpan(ms[1..])
  }

  lemma {:induction false} TotalSpanAppend(ms: seq<Mail>, m: Mail)
    ensures TotalSpan(ms + [m]) == TotalSpan(ms) + FrameSpan(m)
  {
    if ms == [] {
      assert ms + [m] == [m];
    } else {
      assert (ms + [m])[1..] == ms[1..] + [m];
      TotalSpanAppend(ms[1..], m);
    }
  }

  /** The mails tell how many words they occupy. */
  lemma {:induction false} ParseSpan(ws: seq<Word>)
    requires Parse(ws).Some?
    ensures TotalSpan(Parse(ws).value) == |ws|
    ensures ws == [] <==> Parse(ws).value == []
  {
    if ws != [] {
      ParseSpan(ws[SpanIn(ws[0])..]);
    }
  }

  /** Stored words decode to the delivered mail, whatever the ring held in the padding before. */
  lemma OpenStoredFrame(m: Mail, ws: seq<Word>)
    requires |ws| == FrameSpan(m) && ws[..|FrameWords(m)|] == FrameWords(m)
    ensures SizeIn(ws[0]) == |m.body|
    ensures OpenFrame(ws[0], ws[1..]) == Delivered(m)
  {
    BytesOfWordsOf(m.body);
    assert ws[0] == ws[..|FrameWords(m)|][0];
    assert ws[1..][..|m.body| / 4] == ws[..|FrameWords(m)|][1..];
  }

  /** The front frame of whole frames, and the frames behind it. */
  lemma ParseFront(ws: seq<Word>)
    requires Parse(ws).Some? && ws != []
    ensures SpanIn(ws[0]) <= |ws| && Parse(ws[SpanIn(ws[0])..]).Some?
    ensures Parse(ws).value == [OpenFrame(ws[0], ws[1..])] + Parse(ws[SpanIn(ws[0])..]).value
  {
  }

  lemma DropOfConcat<T>(a: seq<T>, b: seq<T>, n: nat)
    requires n <= |a|
    ensures (a + b)[n..] == a[n..] + b
  {
  }

  lemma OpenFramePrefix(h: Word, ws: seq<Word>, more: seq<Word>)
    requires SizeIn(h) / 4 <= |ws|
    ensures OpenFrame(h, ws + more) == OpenFrame(h, ws)
  {
    assert (ws + more)[..SizeIn(h) / 4] == ws[..SizeIn(h) / 4];
  }

  lemma ConcatAssociates<T>(a: seq<T>, b: seq<T>, c: seq<T>)
    ensures a + (b + c) == a + b + c
  {
  }

  lemma ParseOne(frame: seq<Word>)
    requires |frame| > 0 && |frame| == SpanIn(frame[0])
    ensures Parse(frame) == Some([OpenFrame(frame[0], frame[1..])])
  {
    var none := frame[|frame|..];
    assert none == [];
    assert Parse(none) == Some([]);
    assert [OpenFrame(frame[0], frame[1..])] + [] == [OpenFrame(frame[0], frame[1..])];
  }

  /** A frame put behind whole frames is read last, and the earlier mails are not disturbed. */
  lemma {:induction false} ParseAppend(ws: seq<Word>, frame: seq<Word>)
    requires Parse(ws).Some?
    requires |frame| > 0 && |frame| == SpanIn(frame[0])
    ensures Parse(ws + frame) == Some(Parse(ws).value + [OpenFrame(frame[0], frame[1..])])
  {
    var last := OpenFrame(frame[0], frame[1..]);
    if ws == [] {
      ParseOne(frame);
      assert ws + frame == frame;
      assert [] + [last] == [last];
    } else {
      var n, first := SpanIn(ws[0]), OpenFrame(ws[0], ws[1..]);
      ParseAppend(ws[n..], frame);
      DropOfConcat(ws, frame, n);
      DropOfConcat(ws, frame, 1);
      OpenFramePrefix(ws[0], ws[1..], frame);
      assert Parse(ws + frame) == Some([first] + Parse((ws + frame)[n..]).value);
      ConcatAssociates([first], Parse(ws[n..]).value, [last]);
    }
  }

  /** Words stored at `tail` are, once published, one whole frame standing for the mail. */
  lemma FrameLands(ring: seq<Word>, tail: nat, m: Mail)
    requires tail < |ring| && FrameSpan(m) <= |ring|
    requires Window(ring, tail, |FrameWords(m)|) == FrameWords(m)
    ensures
      var frame := Window(ring, tail, FrameSpan(m));
      |frame| == SpanIn(frame[0]) && OpenFrame(frame[0], frame[1..]) == Delivered(m)
  {
    var frame := Window(ring, tail, FrameSpan(m));
    WindowTake(ring, tail, FrameSpan(m), |FrameWords(m)|);
    OpenStoredFrame(m, frame);
  }

  /** Publishing a stored frame appends its mail to the mails already pending. */
  lemma PendingAppended(ring: seq<Word>, head: nat, used: nat, m: Mail)
    requires head < |ring| && used + FrameSpan(m) < |ring|
    requires Parse(Window(ring, head, used)).Some?
    requires Window(ring, Wrap(head + used, |ring|), |FrameWords(m)|) == FrameWords(m)
    ensures Window(ring, head, used + FrameSpan(m))
         == Window(ring, head, used) + Window(ring, Wrap(head + used, |ring|), FrameSpan(m))
    ensures Parse(Window(ring, head, used + FrameSpan(m)))
         == Some(Parse(Window(ring, head, used)).value + [Delivered(m)])
  {
    FrameLands(ring, Wrap(head + used, |ring|), m);
    WindowSplit(ring, head, used, FrameSpan(m));
    ParseAppend(Window(ring, head, used), Window(ring, Wrap(head + used, |ring|), FrameSpan(m)));
  }
}
