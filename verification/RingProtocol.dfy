/** One ring shared by a producer and a consumer running on two processors. Every access to shared
    memory is a step of its own, and the steps of the two sides interleave freely. */
module RingProtocol {
  import opened MachineWords
  import opened Mails
  import opened RingWords
  import opened Mailboxes

  /** Where the producer stands inside a write. */
  datatype Writer =
    | Resting
    | SampledHead(m: Mail, seen: nat)
    | Storing(m: Mail, stored: nat)

  /** Where the consumer stands, from its emptiness test to the end of a read. */
  datatype Reader =
    | Asleep
    | Polling(seen: nat)
    | Awake
    | HeaderLoaded(h: Word)
    | InBody(h: Word, loaded: seq<Word>)

  /** `sent` are the mails whose tail was published, `got` the mails the consumer has built. */
  datatype State = State(ring: seq<Word>, head: nat, tail: nat, writer: Writer, reader: Reader,
                         sent: seq<Mail>, got: seq<Mail>)

  datatype Action =
    | SampleHead(m: Mail) | TestSpace | StoreWord | PublishTail
    | PollHead | PollTail | LoadHeader | PublishHeader | LoadWord | PublishBody

  predicate Initial(s: State)
  {
    2 <= |s.ring| <= 0x4000 && s.head == 0 && s.tail == 0
    && s.writer == Resting && s.reader == Asleep && s.sent == [] && s.got == []
  }

  /** The same for an index of any size. */
  function Turn(i: nat, n: nat): (r: nat)
    requires n > 0
    ensures r < n
  {
    if i < 2 * n then Wrap(i, n) else i % n
  }

  predicate Enabled(s: State, a: Action)
  {
    s.head < |s.ring| && s.tail < |s.ring| &&
    match a
    case SampleHead(_) => s.writer.Resting?
    case TestSpace => s.writer.SampledHead? && s.writer.seen < |s.ring|
    case StoreWord => s.writer.Storing? && s.writer.stored < |FrameWords(s.writer.m)|
    case PublishTail => s.writer.Storing? && s.writer.stored == |FrameWords(s.writer.m)|
    case PollHead => s.reader.Asleep?
    case PollTail => s.reader.Polling?
    case LoadHeader => s.reader.Awake?
    case PublishHeader => s.reader.HeaderLoaded?
    case LoadWord => s.reader.InBody? && |s.reader.loaded| < SizeIn(s.reader.h) / 4
    case PublishBody => s.reader.InBody? && |s.reader.loaded| == SizeIn(s.reader.h) / 4
  }

  function Step(s: State, a: Action): (t: State)
    requires Enabled(s, a)
  {
    var n := |s.ring|;
    match a
    case SampleHead(m) => s.(writer := SampledHead(m, s.head))
    case TestSpace =>
      var used := 4 * Distance(s.writer.seen, s.tail, n);
      if NotEnoughSpace(4 * n, used, |s.writer.m.body| + HEADER_SIZE) then s.(writer := Resting)
      else s.(writer := Storing(s.writer.m, 0))
    case StoreWord =>
      var k := s.writer.stored;
      s.(ring := s.ring[Turn(s.tail + k, n) := FrameWords(s.writer.m)[k]], writer := s.writer.(stored := k + 1))
    case PublishTail =>
      s.(tail := Turn(s.tail + FrameSpan(s.writer.m), n), writer := Resting, sent := s.sent + [s.writer.m])
    case PollHead => s.(reader := Polling(s.head))
    case PollTail => s.(reader := if s.reader.seen == s.tail then Asleep else Awake)
    case LoadHeader => s.(reader := HeaderLoaded(s.ring[s.head]))
    case PublishHeader => s.(head := Turn(s.head + 1, n), reader := InBody(s.reader.h, []))
    case LoadWord =>
      var k := |s.reader.loaded|;
      s.(reader := s.reader.(loaded := s.reader.loaded + [s.ring[Turn(s.head + k, n)]]))
    case PublishBody =>
      s.(head := Turn(s.head + BodySpan(SizeIn(s.reader.h)), n), reader := Asleep,
         got := s.got + [OpenFrame(s.reader.h, s.reader.loaded)])
  }

  ghost predicate Next(s: State, t: State)
  {
    exists a :: Enabled(s, a) && t == Step(s, a)
  }

  ghost predicate Path(run: seq<State>)
  {
    |run| > 0 && forall i :: 0 <= i < |run| - 1 ==> Next(run[i], run[i + 1])
  }

  /** The words between the two registers: published and not yet given back. */
  function Unread(s: State): (ws: seq<Word>)
    requires s.head < |s.ring| && s.tail < |s.ring|
  {
    Window(s.ring, s.head, Distance(s.head, s.tail, |s.ring|))
  }

  /** The frames still to be read: the header of a frame already given back counts as unread
      until its body is. */
  function View(s: State): (ws: seq<Word>)
    requires s.head < |s.ring| && s.tail < |s.ring|
  {
    if s.reader.InBody? then [s.reader.h] + Unread(s) else Unread(s)
  }

  ghost predicate WriterInvariant(s: State)
    requires s.head < |s.ring| && s.tail < |s.ring|
  {
    match s.writer
    case Resting => true
    case SampledHead(_, seen) =>
      seen < |s.ring| && |Unread(s)| <= Distance(seen, s.tail, |s.ring|)
    case Storing(m, k) =>
      |Unread(s)| + FrameSpan(m) < |s.ring| && k <= |FrameWords(m)|
      && Window(s.ring, s.tail, k) == FrameWords(m)[..k]
  }

  ghost predicate ReaderInvariant(s: State)
    requires s.head < |s.ring| && s.tail < |s.ring|
  {
    match s.reader
    case Asleep => true
    case Polling(seen) => seen == s.head
    case Awake => Unread(s) != []
    case HeaderLoaded(h) => Unread(s) != [] && h == Unread(s)[0]
    case InBody(h, loaded) =>
      |loaded| <= SizeIn(h) / 4 <= BodySpan(SizeIn(h)) <= |Unread(s)| && loaded == Unread(s)[..|loaded|]
  }

  /** Nothing is lost, duplicated or altered: the mails got, followed by the mails in the frames still
      to be read, are the mails sent. */
  ghost predicate StreamInvariant(s: State)
    requires s.head < |s.ring| && s.tail < |s.ring|
  {
    Parse(View(s)).Some? && s.got + Parse(View(s)).value == DeliveredAll(s.sent)
  }

  ghost predicate Inv(s: State)
  {
    2 <= |s.ring| <= 0x4000 && s.head < |s.ring| && s.tail < |s.ring|
    && WriterInvariant(s) && ReaderInvariant(s) && StreamInvariant(s)
  }

  lemma InitialInv(s: State)
    requires Initial(s)
    ensures Inv(s)
  {
    assert View(s) == [];
    assert s.got + Parse(View(s)).value == [];
  }

  /** A word put behind the stored ones overwrites no unread word. */
  lemma StoreWordKeeps(s: State)
    requires Inv(s) && Enabled(s, StoreWord)
    ensures
      var t := Step(s, StoreWord);
      Unread(t) == Unread(s) && WriterInvariant(t)
  {
    hide FrameWords, Parse, StreamInvariant, ReaderInvariant;
    var t := Step(s, StoreWord);
    var m, k, n := s.writer.m, s.writer.stored, |s.ring|;
    assert Window(t.ring, t.tail, k + 1) == FrameWords(m)[..k + 1] by {
      forall i | 0 <= i < k + 1
        ensures Window(t.ring, t.tail, k + 1)[i] == FrameWords(m)[i]
      {
        if i < k {
          assert Window(s.ring, s.tail, k)[i] == FrameWords(m)[..k][i];
        }
      }
    }
  }

  lemma StoreWordInv(s: State)
    requires Inv(s) && Enabled(s, StoreWord)
    ensures Inv(Step(s, StoreWord))
  {
    hide FrameWords, Parse, Window;
    StoreWordKeeps(s);
  }

  /** The space test, made with a head that the consumer may have moved meanwhile, is on the safe side. */
  lemma TestSpaceInv(s: State)
    requires Inv(s) && Enabled(s, TestSpace)
    ensures Inv(Step(s, TestSpace))
    ensures Step(s, TestSpace).writer.Storing? ==> |Unread(s)| + FrameSpan(s.writer.m) < |s.ring|
  {
    hide Parse, Window, FrameWords;
    RoomForFrame(s.writer.m, Distance(s.writer.seen, s.tail, |s.ring|), |s.ring|);
  }

  lemma PublishTailUnread(s: State)
    requires Inv(s) && Enabled(s, PublishTail)
    ensures
      var t, frame := Step(s, PublishTail), Window(s.ring, s.tail, FrameSpan(s.writer.m));
      Unread(t) == Unread(s) + frame
      && |frame| > 0 && |frame| == SpanIn(frame[0]) && OpenFrame(frame[0], frame[1..]) == Delivered(s.writer.m)
  {
    hide Parse, OpenFrame, Delivered, FrameWords, View, Window;
    var m := s.writer.m;
    assert FrameWords(m)[..|FrameWords(m)|] == FrameWords(m);
    DistanceAdvance(s.head, s.tail, FrameSpan(m), |s.ring|);
    FrameLands(s.ring, s.tail, m);
    WindowSplit(s.ring, s.head, |Unread(s)|, FrameSpan(m));
  }

  lemma PublishTailInv(s: State)
    requires Inv(s) && Enabled(s, PublishTail)
    ensures Inv(Step(s, PublishTail))
  {
    hide Parse, OpenFrame, Delivered, FrameWords, Window, DeliveredAll, FrameSpan, SpanIn, BodySpan;
    var t, m := Step(s, PublishTail), s.writer.m;
    var frame := Window(s.ring, s.tail, FrameSpan(m));
    PublishTailUnread(s);
    assert View(t) == View(s) + frame;
    ParseAppend(View(s), frame);
    DeliveredAppend(s.sent, m);
    ConcatAssociates(s.got, Parse(View(s)).value, [Delivered(m)]);
  }

  lemma DeliveredAppend(ms: seq<Mail>, m: Mail)
    ensures DeliveredAll(ms + [m]) == DeliveredAll(ms) + [Delivered(m)]
  {
  }

  /** Moving the head by `k` unread words takes exactly those words away. */
  lemma HeadMoves(ring: seq<Word>, head: nat, tail: nat, k: nat)
    requires head < |ring| && tail < |ring| && k <= Distance(head, tail, |ring|)
    ensures Distance(Turn(head + k, |ring|), tail, |ring|) == Distance(head, tail, |ring|) - k
    ensures Window(ring, Turn(head + k, |ring|), Distance(head, tail, |ring|) - k)
         == Window(ring, head, Distance(head, tail, |ring|))[k..]
  {
    hide Window;
    WindowDrop(ring, head, Distance(head, tail, |ring|), k);
  }

  lemma PollInv(s: State, a: Action)
    requires Inv(s) && Enabled(s, a) && (a.PollHead? || a.PollTail? || a.LoadHeader? || a.SampleHead?)
    ensures Inv(Step(s, a))
  {
    hide Parse;
  }

  lemma LoadWordReads(s: State)
    requires Inv(s) && Enabled(s, LoadWord)
    ensures
      var t := Step(s, LoadWord);
      Unread(t) == Unread(s) && ReaderInvariant(t)
  {
    hide Parse, WriterInvariant, StreamInvariant, FrameWords, BodySpan;
    var k := |s.reader.loaded|;
    assert Unread(s)[..k + 1] == Unread(s)[..k] + [Unread(s)[k]];
  }

  lemma LoadWordInv(s: State)
    requires Inv(s) && Enabled(s, LoadWord)
    ensures Inv(Step(s, LoadWord))
  {
    hide Parse, BodySpan, Window, ReaderInvariant, Distance;
    LoadWordReads(s);
  }

  lemma PublishHeaderInv(s: State)
    requires Inv(s) && Enabled(s, PublishHeader)
    ensures Inv(Step(s, PublishHeader))
    ensures Unread(s) != [] && Unread(Step(s, PublishHeader)) == Unread(s)[1..]
  {
    hide OpenFrame, Window, Turn, FrameWords;
    var t := Step(s, PublishHeader);
    HeadMoves(s.ring, s.head, s.tail, 1);
    assert View(t) == View(s);
  }

  lemma PublishBodyInv(s: State)
    requires Inv(s) && Enabled(s, PublishBody)
    ensures Inv(Step(s, PublishBody))
    ensures BodySpan(SizeIn(s.reader.h)) <= |Unread(s)|
    ensures Unread(Step(s, PublishBody)) == Unread(s)[BodySpan(SizeIn(s.reader.h))..]
  {
    hide Window, Turn, FrameWords, BodySpan, BytesOf, Parse;
    ParseFront(View(s));
    var t, h, loaded := Step(s, PublishBody), s.reader.h, s.reader.loaded;
    var span := BodySpan(SizeIn(h));
    HeadMoves(s.ring, s.head, s.tail, span);
    assert View(s)[1..] == Unread(s);
    assert View(s)[SpanIn(h)..] == Unread(s)[span..];
    assert OpenFrame(h, loaded) == OpenFrame(h, Unread(s)) by {
      assert loaded[..SizeIn(h) / 4] == Unread(s)[..SizeIn(h) / 4];
    }
    ConcatAssociates(s.got, [OpenFrame(h, loaded)], Parse(View(t)).value);
  }

  /** Every step of either side keeps the invariant, whatever the other side is doing. */
  lemma StepInv(s: State, a: Action)
    requires Inv(s) && Enabled(s, a)
    ensures Inv(Step(s, a))
  {
    hide Inv, Step;
    match a
    case SampleHead(_) => PollInv(s, a);
    case TestSpace => TestSpaceInv(s);
    case StoreWord => StoreWordInv(s);
    case PublishTail => PublishTailInv(s);
    case PollHead => PollInv(s, a);
    case PollTail => PollInv(s, a);
    case LoadHeader => PollInv(s, a);
    case PublishHeader => PublishHeaderInv(s);
    case LoadWord => LoadWordInv(s);
    case PublishBody => PublishBodyInv(s);
  }

  /** Every state that any interleaving reaches satisfies the invariant. */
  lemma {:induction false} EveryInterleaving(run: seq<State>, i: nat)
    requires Path(run) && Initial(run[0]) && i < |run|
    ensures Inv(run[i])
  {
    hide Inv, Step, Enabled;
    if i == 0 {
      InitialInv(run[0]);
    } else {
      EveryInterleaving(run, i - 1);
      assert Next(run[i - 1], run[i]);
      var a :| Enabled(run[i - 1], a) && run[i] == Step(run[i - 1], a);
      StepInv(run[i - 1], a);
    }
  }

  /** The mails read are, at any moment of any interleaving, a prefix of the mails written, and when
      the ring holds no word and no body is half read they are all of them. */
  lemma ReadsPrefixOfWrites(run: seq<State>, i: nat)
    requires Path(run) && Initial(run[0]) && i < |run|
    ensures run[i].got <= DeliveredAll(run[i].sent)
    ensures run[i].head < |run[i].ring| && run[i].tail < |run[i].ring|
    ensures View(run[i]) == [] <==> run[i].got == DeliveredAll(run[i].sent)
  {
    EveryInterleaving(run, i);
    ParseSpan(View(run[i]));
  }

  /** A consumer that has published the header still finds the whole body between the registers,
      and reads exactly the words the producer put there. */
  lemma BodyNeverPassesTail(run: seq<State>, i: nat)
    requires Path(run) && Initial(run[0]) && i < |run| && run[i].reader.InBody?
    ensures run[i].head < |run[i].ring| && run[i].tail < |run[i].ring|
    ensures BodySpan(SizeIn(run[i].reader.h)) <= |Unread(run[i])|
    ensures |run[i].got| < |run[i].sent|
    ensures SizeIn(run[i].reader.h) == |run[i].sent[|run[i].got|].body|
    ensures UidIn(run[i].reader.h) == run[i].sent[|run[i].got|].uid
  {
    hide BytesOf;
    EveryInterleaving(run, i);
    var s := run[i];
    var next := Parse(View(s)).value[0];
    assert (s.got + Parse(View(s)).value)[|s.got|] == next;
    assert DeliveredAll(s.sent)[|s.got|] == Delivered(s.sent[|s.got|]);
  }

  /** Unread words leave from the front only and arrive at the back only; none is ever overwritten. */
  lemma UnreadIsFifo(s: State, t: State) returns (taken: nat, added: seq<Word>)
    requires Inv(s) && Next(s, t)
    ensures t.head < |t.ring| && t.tail < |t.ring|
    ensures taken <= |Unread(s)| && (taken == 0 || added == [])
    ensures Unread(t) == Unread(s)[taken..] + added
    ensures taken > 0 ==> t.writer == s.writer && t.tail == s.tail
    ensures added != [] ==> t.reader == s.reader && t.head == s.head
  {
    hide Inv, Window, BodySpan, FrameWords, WriterInvariant, OpenFrame, Delivered;
    var a :| Enabled(s, a) && t == Step(s, a);
    StepInv(s, a);
    taken, added := 0, [];
    assert Unread(s)[0..] + [] == Unread(s);
    match a {
      case StoreWord => StoreWordKeeps(s);
      case PublishTail =>
        PublishTailUnread(s);
        added := Window(s.ring, s.tail, FrameSpan(s.writer.m));
      case PublishHeader =>
        PublishHeaderInv(s);
        taken := 1;
      case PublishBody =>
        PublishBodyInv(s);
        taken := BodySpan(SizeIn(s.reader.h));
      case _ =>
    }
  }

  /** A refusal is final only when the sampled head is current: the producer is refused exactly when the
      mail does not fit beside what was unread at the time of the sample, and then, if the consumer has
      not moved since, it does not fit now either. */
  lemma RefusalIsExact(s: State)
    requires Inv(s) && Enabled(s, TestSpace)
    ensures
      var room := 4 * |s.ring| - 4 * Distance(s.writer.seen, s.tail, |s.ring|);
      Step(s, TestSpace).writer.Storing? <==> |s.writer.m.body| + 8 <= room
    ensures
      s.writer.seen == s.head ==>
        (Step(s, TestSpace).writer.Storing? <==> |s.writer.m.body| + 8 <= 4 * |s.ring| - 4 * |Unread(s)|)
  {
    hide Parse, Window, FrameWords;
  }

  lemma PathExtends(run: seq<State>, a: Action)
    requires Path(run) && Inv(run[|run| - 1]) && Enabled(run[|run| - 1], a)
    ensures Path(run + [Step(run[|run| - 1], a)]) && Inv(Step(run[|run| - 1], a))
  {
    hide Inv, Enabled, Step;
    StepInv(run[|run| - 1], a);
    var t := Step(run[|run| - 1], a);
    assert Next(run[|run| - 1], t);
    var longer := run + [t];
    forall i | 0 <= i < |longer| - 1
      ensures Next(longer[i], longer[i + 1])
    {
      if i < |run| - 1 {
        assert Next(run[i], run[i + 1]);
      }
    }
  }

  /** A write during which the consumer rests is the write of a bounded FIFO. */
  lemma UndisturbedWrite(s: State, m: Mail) returns (run: seq<State>, t: State)
    requires Inv(s) && s.writer.Resting? && !s.reader.InBody?
    ensures Path(run) && run[0] == s && run[|run| - 1] == t
    ensures Inv(t) && t.writer.Resting? && t.reader == s.reader && t.head == s.head && t.got == s.got
    ensures Parse(View(t)).value == Put(4 * |s.ring|, Parse(View(s)).value, m)
    ensures t.sent == if Accepts(4 * |s.ring|, Parse(View(s)).value, m) then s.sent + [m] else s.sent
  {
    hide Parse, View, TotalSpan, DeliveredAll, Window, FrameWords, WriterInvariant, ReaderInvariant;
    run, t := [s], s;
    PathExtends(run, SampleHead(m));
    t := Step(t, SampleHead(m));
    run := run + [t];
    PathExtends(run, TestSpace);
    t := Step(t, TestSpace);
    run := run + [t];
    AcceptedBySpace(s, m);
    if t.writer.Storing? {
      while t.writer.stored < |FrameWords(m)|
        invariant Path(run) && run[0] == s && run[|run| - 1] == t
        invariant Inv(t) && t.writer.Storing? && t.writer.m == m && t.writer.stored <= |FrameWords(m)|
        invariant t.reader == s.reader && t.head == s.head && t.tail == s.tail && t.got == s.got && t.sent == s.sent
        decreases |FrameWords(m)| - t.writer.stored
      {
        PathExtends(run, StoreWord);
        t := Step(t, StoreWord);
        run := run + [t];
      }
      PathExtends(run, PublishTail);
      t := Step(t, PublishTail);
      run := run + [t];
    }
    SentIsPending(s, t, m);
  }

  lemma AcceptedBySpace(s: State, m: Mail)
    requires Inv(s) && !s.reader.InBody?
    ensures Accepts(4 * |s.ring|, Parse(View(s)).value, m)
      <==> !NotEnoughSpace(4 * |s.ring|, 4 * Distance(s.head, s.tail, |s.ring|), |m.body| + HEADER_SIZE)
  {
    hide Window, WriterInvariant, ReaderInvariant;
    ParseSpan(View(s));
  }

  /** With the same mails got, what became pending is what was sent. */
  lemma SentIsPending(s: State, t: State, m: Mail)
    requires Inv(s) && Inv(t) && t.got == s.got
    ensures t.sent == s.sent + [m] ==> Parse(View(t)).value == Parse(View(s)).value + [Delivered(m)]
    ensures t.sent == s.sent ==> Parse(View(t)).value == Parse(View(s)).value
  {
    hide Parse, View, Delivered, WriterInvariant, ReaderInvariant;
    var before, after := Parse(View(s)).value, Parse(View(t)).value;
    assert after == (t.got + after)[|t.got|..] && before == (s.got + before)[|s.got|..];
    if t.sent == s.sent + [m] {
      DeliveredAppend(s.sent, m);
      assert before + [Delivered(m)] == (s.got + before + [Delivered(m)])[|s.got|..];
    }
  }

  /** A consumer that finds a mail can always finish reading it on its own, and gets the oldest one. */
  lemma UndisturbedRead(s: State) returns (run: seq<State>, t: State)
    requires Inv(s) && s.reader.Asleep? && Unread(s) != []
    ensures Path(run) && run[0] == s && run[|run| - 1] == t
    ensures Inv(t) && t.reader.Asleep? && t.writer == s.writer && t.sent == s.sent
    ensures t.ring == s.ring && t.tail == s.tail
    ensures Parse(View(s)).value != [] && t.got == s.got + [Parse(View(s)).value[0]]
    ensures Parse(View(t)).value == Parse(View(s)).value[1..]
  {
    hide Parse, OpenFrame, FrameWords, WriterInvariant, ReaderInvariant, StreamInvariant, Window;
    run, t := [s], s;
    PathExtends(run, PollHead);
    t := Step(t, PollHead);
    run := run + [t];
    PathExtends(run, PollTail);
    t := Step(t, PollTail);
    run := run + [t];
    PathExtends(run, LoadHeader);
    t := Step(t, LoadHeader);
    run := run + [t];
    PathExtends(run, PublishHeader);
    t := Step(t, PublishHeader);
    run := run + [t];
    var h := t.reader.h;
    while |t.reader.loaded| < SizeIn(h) / 4
      invariant Path(run) && run[0] == s && run[|run| - 1] == t
      invariant Inv(t) && t.reader.InBody? && t.reader.h == h && |t.reader.loaded| <= SizeIn(h) / 4
      invariant t.writer == s.writer && t.sent == s.sent && t.got == s.got && t.ring == s.ring && t.tail == s.tail
      decreases SizeIn(h) / 4 - |t.reader.loaded|
    {
      PathExtends(run, LoadWord);
      t := Step(t, LoadWord);
      run := run + [t];
    }
    PathExtends(run, PublishBody);
    t := Step(t, PublishBody);
    run := run + [t];
    OneMoreGot(s, t);
  }

  lemma OneMoreGot(s: State, t: State)
    requires Inv(s) && Inv(t) && t.sent == s.sent && |t.got| == |s.got| + 1 && t.got[..|s.got|] == s.got
    ensures Parse(View(s)).value != [] && t.got == s.got + [Parse(View(s)).value[0]]
    ensures Parse(View(t)).value == Parse(View(s)).value[1..]
  {
    hide Parse, View, WriterInvariant, ReaderInvariant, DeliveredAll;
    var before, after, n := Parse(View(s)).value, Parse(View(t)).value, |s.got|;
    var all := s.got + before;
    assert all == t.got + after;
    assert all[n + 1..] == after;
    assert |before| == 1 + |after|;
    assert all[n] == before[0] == t.got[n];
    assert before[1..] == all[n + 1..];
  }
}
