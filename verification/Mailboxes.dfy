/** One direction of the link to the microcontroller: a ring of words in shared memory with a
    head register moved by the consumer and a tail register moved by the producer. */
module Mailboxes {
  import opened MachineWords
  import opened Mails
  import opened McuUtils
  import opened RingWords

  const HEADER_SIZE: nat := 4

  /** A bounded FIFO of mails: what a mailbox of `size` bytes is meant to be. */
  predicate Accepts(size: nat, queue: seq<Mail>, m: Mail)
  {
    |m.body| + 8 <= size - 4 * TotalSpan(queue)
  }

  function Put(size: nat, queue: seq<Mail>, m: Mail): (after: seq<Mail>)
  {
    if Accepts(size, queue, m) then queue + [Delivered(m)] else queue
  }

  predicate NotEnoughSpace(mailboxSize: nat, usedSize: nat, dataSize: nat)
    requires usedSize <= mailboxSize
  {
    dataSize + 4 > mailboxSize - usedSize
  }

  predicate IsWrapping(mailboxSize: nat, tailValue: nat, dataSize: nat)
  {
    tailValue + dataSize > mailboxSize
  }

  /** The register value after `n` bytes, rounded up to whole words. */
  function Advance(at: nat, n: nat, size: nat): (next: nat)
    requires size > 0
  {
    (at + n + 3) / 4 * 4 % size
  }

  class Mailbox {
    const size: nat
    const data: array<Word>
    var head: nat
    var tail: nat
    var localTail: u16
    ghost var headWord: nat
    ghost var tailWord: nat

    ghost predicate Shape()
      reads this
    {
      8 <= size <= 0x1_0000 && size == 4 * data.Length
      && head == 4 * headWord && headWord < data.Length
      && tail == 4 * tailWord && tailWord < data.Length
    }

    ghost function UsedWords(): (n: nat)
      requires Shape()
      reads this
    {
      Distance(headWord, tailWord, data.Length)
    }

    function Used(): (used: nat)
      requires Shape()
      reads this
      ensures used == 4 * UsedWords() < size
    {
      if tail >= head then tail - head else size + tail - head
    }

    ghost function Pending(): (ws: seq<Word>)
      requires Shape()
      reads this, data
    {
      Window(data[..], headWord, UsedWords())
    }

    ghost predicate Valid()
      reads this, data
    {
      Shape() && Parse(Pending()).Some?
    }

    /** The mails waiting in the ring, oldest first. */
    ghost function Contents(): (ms: seq<Mail>)
      requires Valid()
      reads this, data
    {
      Parse(Pending()).value
    }

    constructor (memory: array<Word>)
      requires 2 <= memory.Length <= 0x4000
      ensures Valid() && Contents() == []
      ensures size == 4 * memory.Length && data == memory && head == tail == 0
    {
      size := 4 * memory.Length;
      data := memory;
      head, tail, localTail := 0, 0, 0;
      headWord, tailWord := 0, 0;
    }

    /** The ring holds whole frames only, and never fills up: one word always stays free. */
    lemma UsedIsSpan()
      requires Valid()
      ensures Used() == 4 * TotalSpan(Contents()) <= size - 4
      ensures head == tail <==> Contents() == []
      ensures UsedWords() == 0 <==> Contents() == []
    {
      ParseSpan(Pending());
    }

    method PullTail()
      requires Shape()
      modifies this`localTail
      ensures localTail == tail
    {
      localTail := tail;
    }

    method PushTail(ghost at: nat)
      requires localTail == 4 * at
      modifies this`tail, this`tailWord
      ensures tail == localTail && tailWord == at
    {
      tail := localTail;
      tailWord := at;
    }

    /** Copies up to the end of the ring; what is left goes to its beginning. */
    method WriteUntilWrap(bytes: seq<u8>, tailValue: nat, ghost at: nat) returns (rest: seq<u8>, tailAfter: nat)
      requires Shape() && tailValue == 4 * at && at < data.Length
      requires IsWrapping(size, tailValue, |bytes|)
      modifies data
      ensures tailAfter == 0 && rest == bytes[4 * (data.Length - at)..]
      ensures forall p :: 0 <= p < data.Length ==>
        data[p] == if at <= p then WordsOf(bytes)[p - at] else old(data[p])
    {
      var spaceLeft := size - tailValue;
      WordsOfSlices(bytes, data.Length - at);
      MemcpyToIo32(data, tailValue, bytes[..spaceLeft], at);
      tailAfter := 0;
      rest := bytes[spaceLeft..];
    }

    /** A circular store at `localTail`, which then moves on by whole words. */
    method WriteData(bytes: seq<u8>, ghost at: nat)
      requires Shape() && localTail == 4 * at && at < data.Length
      requires |bytes| <= size
      modifies this`localTail, data
      ensures data[..] == Store(old(data[..]), at, WordsOf(bytes))
      ensures localTail == 4 * Wrap(at + BodySpan(|bytes|), data.Length)
    {
      hide WordsOf, Advance, BodySpan;
      var tailValue: nat, rest, wrapping := localTail, bytes, IsWrapping(size, localTail, |bytes|);
      if wrapping {
        rest, tailValue := WriteUntilWrap(bytes, tailValue, at);
        WordsOfSlices(bytes, data.Length - at);
        MemcpyToIo32(data, tailValue, rest, 0);
      } else {
        MemcpyToIo32(data, tailValue, rest, at);
      }
      assert forall p :: 0 <= p < data.Length ==> data[p] == Stored(old(data[..]), at, WordsOf(bytes), p);
      AdvanceWraps(at, |bytes|, data.Length);
      localTail := Advance(tailValue, |rest|, size);
    }

    method ReadUntilWrap(out: array<u8>) returns (left: nat, headAfter: nat)
      requires Shape()
      requires IsWrapping(size, head, out.Length)
      modifies out
      ensures headAfter == 0 && left == out.Length - (size - head)
      ensures
        var bytes := BytesOf(data[..][headWord..data.Length]);
        forall p :: 0 <= p < out.Length ==> out[p] == if p < |bytes| then bytes[p] else old(out[p])
    {
      var spaceLeft := size - head;
      assert headWord + spaceLeft / 4 == data.Length;
      MemcpyFromIo32(out, 0, data, head, spaceLeft, headWord);
      headAfter := 0;
      left := out.Length - spaceLeft;
    }

    /** Copies `n` bytes from the head register on, and tells where that register goes next. */
    method LoadAtHead(n: nat) returns (bytes: seq<u8>, headAfter: nat)
      requires Shape() && n <= size
      ensures bytes == LoadBytes(data[..], headWord, n)
      ensures headAfter == 4 * Wrap(headWord + BodySpan(n), data.Length)
    {
      hide BytesOf, Advance, BodySpan, Window, Wrap;
      var out := new u8[n](_ => 0);
      var left, headValue := n, head;
      ghost var window := Window(data[..], headWord, n / 4);
      WindowInPieces(data[..], headWord, n / 4);
      if IsWrapping(size, head, n) {
        left, headValue := ReadUntilWrap(out);
        assert left / 4 == headWord + n / 4 - data.Length;
        BytesOfConcat(data[..][headWord..data.Length], data[..][0..left / 4]);
        MemcpyFromIo32(out, n - left, data, headValue, left, 0);
        assert forall p :: 0 <= p < n ==> out[p] == if p < |BytesOf(window)| then BytesOf(window)[p] else 0;
      } else {
        MemcpyFromIo32(out, 0, data, headValue, left, headWord);
        assert forall p :: 0 <= p < n ==> out[p] == if p < |BytesOf(window)| then BytesOf(window)[p] else 0;
      }
      bytes := out[..];
      AdvanceWraps(headWord, n, data.Length);
      headAfter := Advance(headValue, left, size);
    }

    /** A circular load at the head register, which then moves on by whole words. */
    method ReadData(n: nat) returns (bytes: seq<u8>)
      requires Shape() && n <= size
      modifies this`head, this`headWord
      ensures Shape() && data[..] == old(data[..])
      ensures bytes == LoadBytes(old(data[..]), old(headWord), n)
      ensures headWord == Wrap(old(headWord) + BodySpan(n), data.Length)
    {
      var headValue;
      bytes, headValue := LoadAtHead(n);
      head := headValue;
      headWord := Wrap(headWord + BodySpan(n), data.Length);
    }

    /** Stores a frame for which there is room, and publishes it with one move of the tail. */
    method WriteFrame(m: Mail)
      requires Valid() && UsedWords() + FrameSpan(m) < data.Length
      modifies this`tail, this`tailWord, this`localTail, data
      ensures Shape() && Parse(Pending()) == Some(old(Contents()) + [Delivered(m)])
    {
      hide Parse, Store, FrameWords, Delivered, SerializeHeader, WordsOf;
      ghost var ring, used, at, span := data[..], UsedWords(), tailWord, FrameSpan(m);
      FrameStores(ring, at, m);
      FrameStored(ring, headWord, used, m);
      DistanceAdvance(headWord, at, span, data.Length);
      var header := SerializeHeader(m.uid, |m.body|);
      PullTail();
      WriteData(header, at);
      WriteData(m.body, Wrap(at + 1, data.Length));
      assert data[..] == Store(ring, at, FrameWords(m));
      PushTail(Wrap(at + span, data.Length));
    }

    /** Appends the mail when it fits, and changes nothing in the ring when it does not. */
    method Write(m: Mail) returns (ok: bool)
      requires Valid()
      modifies this`tail, this`tailWord, this`localTail, data
      ensures Valid()
      ensures ok <==> |m.body| + 8 <= size - old(Used())
      ensures ok <==> Accepts(size, old(Contents()), m)
      ensures Contents() == Put(size, old(Contents()), m)
      ensures !ok ==> data[..] == old(data[..]) && tail == old(tail)
    {
      var headValue, tailValue := head, tail;
      var usedSize := if tailValue >= headValue then tailValue - headValue else size + tailValue - headValue;
      UsedIsSpan();
      if NotEnoughSpace(size, usedSize, |m.body| + HEADER_SIZE) {
        return false;
      }
      RoomForFrame(m, UsedWords(), data.Length);
      WriteFrame(m);
      return true;
    }

    /** Takes a header and the body it announces off the ring, moving the head twice. */
    method ReadFrame(ghost h: Word) returns (m: Mail)
      requires Shape() && LoadBytes(data[..], headWord, HEADER_SIZE) == Unpack(h) && SpanIn(h) <= UsedWords()
      modifies this`head, this`headWord
      ensures Shape()
      ensures Pending()
           == Window(old(data[..]), Wrap(old(headWord) + SpanIn(h), data.Length), old(UsedWords()) - SpanIn(h))
      ensures m == RawMail(UidIn(h), LoadBytes(old(data[..]), Wrap(old(headWord) + 1, data.Length), SizeIn(h)))
    {
      hide LoadBytes, BodySpan, SpanIn, Distance, Wrap, Window, Unpack, UnserializeUid, UnserializeSize;
      FrontSpan(headWord, tailWord, h, data.Length);
      var header := ReadData(HEADER_SIZE);
      var msgUid, bodySize := UnserializeUid(header), UnserializeSize(header);
      var body := ReadData(bodySize);
      m := RawMail(msgUid, body);
    }

    /** Removes and returns the oldest mail. */
    method Read() returns (m: Mail)
      requires Valid() && Contents() != []
      modifies this`head, this`headWord
      ensures Valid()
      ensures m == old(Contents())[0] && Contents() == old(Contents())[1..]
    {
      hide Parse, LoadBytes, BodySpan, SpanIn, Distance, Wrap, Window, Unpack, TotalSpan;
      UsedIsSpan();
      ghost var h := FrontMail(data[..], headWord, UsedWords());
      m := ReadFrame(h);
    }

    method IsEmpty() returns (empty: bool)
      requires Valid()
      ensures empty <==> Contents() == []
    {
      UsedIsSpan();
      empty := head == tail;
    }
  }

  /** The driver's rounded-up modular update moves a register by whole words, whether or not the
      copy was split at the end of the ring. */
  lemma AdvanceWraps(at: nat, n: nat, words: nat)
    requires at < words && n <= 4 * words
    ensures !IsWrapping(4 * words, 4 * at, n) ==> Advance(4 * at, n, 4 * words) == 4 * Wrap(at + BodySpan(n), words)
    ensures IsWrapping(4 * words, 4 * at, n) ==>
      Advance(0, n - (4 * words - 4 * at), 4 * words) == 4 * Wrap(at + BodySpan(n), words)
  {
    var sum := at + BodySpan(n);
    if !IsWrapping(4 * words, 4 * at, n) {
      assert (4 * at + n + 3) / 4 == sum;
      WrapIsModulo(4 * sum, 4 * words);
    } else {
      assert (0 + n - (4 * words - 4 * at) + 3) / 4 == sum - words;
      WrapIsModulo(4 * (sum - words), 4 * words);
    }
  }

  lemma DistanceAdvance(from: nat, to: nat, step: nat, words: nat)
    requires from < words && to < words && Distance(from, to, words) + step < words
    ensures Distance(from, Wrap(to + step, words), words) == Distance(from, to, words) + step
  {
  }

  lemma FrontSpan(from: nat, to: nat, h: Word, words: nat)
    requires from < words && to < words && SpanIn(h) <= Distance(from, to, words)
    ensures SizeIn(h) <= 4 * words
    ensures Wrap(Wrap(from + BodySpan(HEADER_SIZE), words) + BodySpan(SizeIn(h)), words)
         == Wrap(from + SpanIn(h), words)
    ensures Distance(Wrap(from + SpanIn(h), words), to, words) == Distance(from, to, words) - SpanIn(h)
    ensures Wrap(from + 1, words) == Wrap(from + BodySpan(HEADER_SIZE), words)
  {
  }

  /** The space test, made on the unrounded size, leaves a word free after the rounded frame. */
  lemma RoomForFrame(m: Mail, used: nat, words: nat)
    requires used <= words
    ensures |m.body| + 8 <= 4 * words - 4 * used ==> used + FrameSpan(m) < words
    ensures |m.body| + 8 > 4 * words - 4 * used ==> used + FrameSpan(m) >= words
  {
  }

  /** The two stores of a write, header and then body, are one circular store of the frame. */
  lemma FrameStores(ring: seq<Word>, tail: nat, m: Mail)
    requires tail < |ring| && FrameSpan(m) < |ring|
    ensures Store(Store(ring, tail, WordsOf(SerializeHeader(m.uid, |m.body|))), Wrap(tail + 1, |ring|), WordsOf(m.body))
         == Store(ring, tail, FrameWords(m))
  {
    assert WordsOf(SerializeHeader(m.uid, |m.body|)) == [HeaderOf(m)];
    StoreSplit(ring, tail, [HeaderOf(m)], WordsOf(m.body));
  }

  /** Storing a frame behind the pending words makes its mail pending. */
  lemma FrameStored(ring: seq<Word>, head: nat, used: nat, m: Mail)
    requires head < |ring| && used + FrameSpan(m) < |ring|
    requires Parse(Window(ring, head, used)).Some?
    ensures Parse(Window(Store(ring, Wrap(head + used, |ring|), FrameWords(m)), head, used + FrameSpan(m)))
         == Some(Parse(Window(ring, head, used)).value + [Delivered(m)])
  {
    var tail := Wrap(head + used, |ring|);
    var stored := Store(ring, tail, FrameWords(m));
    LoadAfterStore(ring, tail, FrameWords(m));
    StoreOutsideWindow(ring, head, used, used, FrameWords(m));
    PendingAppended(stored, head, used, m);
  }

  /** The first pending word is the header of the front frame. */
  lemma FrontHeader(ring: seq<Word>, head: nat, used: nat)
    requires head < |ring| && 0 < used < |ring|
    ensures LoadBytes(ring, head, 4) == Unpack(Window(ring, head, used)[0])
  {
    assert Window(ring, head, 1) == [Window(ring, head, used)[0]];
    BytesOfAt([Window(ring, head, used)[0]], 0);
  }

  lemma BodyInWindow(ring: seq<Word>, head: nat, used: nat, n: nat)
    requires head < |ring| && used < |ring| && 1 + n <= used
    ensures Window(ring, head, used)[1..][..n] == Window(ring, Wrap(head + 1, |ring|), n)
  {
    WindowDrop(ring, head, used, 1);
    WindowTake(ring, Wrap(head + 1, |ring|), used - 1, n);
  }

  /** The words after the header are the body that the front mail shows. */
  lemma FrontBody(ring: seq<Word>, head: nat, used: nat, h: Word)
    requires head < |ring| && 0 < used < |ring| && h == Window(ring, head, used)[0] && SpanIn(h) <= used
    ensures RawMail(UidIn(h), LoadBytes(ring, Wrap(head + 1, |ring|), SizeIn(h)))
         == OpenFrame(h, Window(ring, head, used)[1..])
  {
    BodyInWindow(ring, head, used, SizeIn(h) / 4);
  }

  /** Loading a header, then the body it announces, gives the front mail; moving the head past both
      leaves the other mails pending. */
  lemma FrontMail(ring: seq<Word>, head: nat, used: nat) returns (h: Word)
    requires head < |ring| && 0 < used < |ring|
    requires Parse(Window(ring, head, used)).Some?
    ensures LoadBytes(ring, head, 4) == Unpack(h)
    ensures SpanIn(h) <= used
    ensures Parse(Window(ring, head, used)).value != []
    ensures Parse(Window(ring, head, used)).value[0]
         == RawMail(UidIn(h), LoadBytes(ring, Wrap(head + 1, |ring|), SizeIn(h)))
    ensures Parse(Window(ring, Wrap(head + SpanIn(h), |ring|), used - SpanIn(h)))
         == Some(Parse(Window(ring, head, used)).value[1..])
  {
    hide Window, BodySpan, Parse;
    ParseFront(Window(ring, head, used));
    h := Window(ring, head, used)[0];
    FrontHeader(ring, head, used);
    WindowDrop(ring, head, used, SpanIn(h));
    FrontBody(ring, head, used, h);
  }
}
