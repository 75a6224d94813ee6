/** Concrete histories in which the things happen that a reader of the code might take to be impossible. */
module ChannelWitnesses {
  import opened MachineWords
  import opened Mails
  import opened MailQueues
  import opened BufferPools
  import opened Dispatch
  import opened Users
  import opened ChannelLife
  import opened ChannelRuns
  import opened Tallies
  import DeliveryRuns

  const PLENTY := AllocEnv(true, true, _ => Made(0))
  const NO_TABLE := AllocEnv(false, true, _ => Made(0))
  const NO_HANDLES := AllocEnv(true, false, _ => Made(0))
  const SMOOTH := DestroyEnv(None, true, true)
  const REFUSED := DestroyEnv(None, false, false)

  lemma GrantsWell(f: Feedback)
    ensures
      var m := RawMail(MSG_CREATE_CHANNEL, BytesOf(AnswerWords(f, 0, 0, 0, 0, 0, 0)));
      |m.body| == 44 && IsAnswer(m) && FeedbackIn(m) == f && WordAt(m, 1) == 0 && Delivered(m) == m
  {
    hide BytesOf, WordFor, WordAt, FeedbackIn, Delivered;
    var ws := AnswerWords(f, 0, 0, 0, 0, 0, 0);
    AnswerRoundTrip(f, 0, 0, 0, 0, 0, 0);
    WordInMail(ws, RawMail(MSG_CREATE_CHANNEL, BytesOf(ws)), 1, 0);
  }

  /** An answer to slot 0 that gives out this channel, with one buffer for each pool. */
  function Grants(chan: u32): (m: Mail)
    ensures IsAnswer(m) && FeedbackIn(m) == Feedback(chan, 1, 64, 1, 64)
    ensures m.uid == MSG_CREATE_CHANNEL && WordAt(m, 1) == 0 && |m.body| == 44 && Delivered(m) == m
  {
    var f := Feedback(chan, 1, 64, 1, 64);
    var bytes := BytesOf(AnswerWords(f, 0, 0, 0, 0, 0, 0));
    GrantsWell(f);
    RawMail(MSG_CREATE_CHANNEL, bytes)
  }

  /** A creation in which everything but perhaps the intermediate pool works. */
  function Asking(arrivals: seq<Mail>, pool: AllocEnv): (env: CreateEnv)
    ensures env.arrivals == arrivals
    ensures AllAnswers(arrivals) ==> AllAnswers(NEWBORN.answers + env.arrivals)
  {
    assert NEWBORN.answers + arrivals == arrivals;
    CreateEnv(false, true, arrivals, if arrivals == [] then TimedOut else Ready, pool, PLENTY, true, true)
  }

  /** A user with this channel and nothing else, and one whose channel is complete. */
  function Half(chan: int): (s: Life)
  {
    NEWBORN.(chan := chan)
  }

  function Whole(chan: int): (s: Life)
  {
    NEWBORN.(chan := chan, interm := PoolView(1, LiveTable), recon := PoolView(1, LiveTable))
  }

  lemma FailsWithoutTable()
    ensures Create(NEWBORN, Asking([Grants(3)], NO_TABLE)) == Outcome(Half(3), [Opened(3), AllocationFailed], ENOMEM)
  {
    hide Grants;
    assert NEWBORN.answers + [Grants(3)] == [Grants(3)];
    assert [Opened(3)] + [AllocationFailed] == [Opened(3), AllocationFailed];
  }

  lemma WorksSmoothly(chan: u32)
    requires chan < 0x80
    ensures Create(NEWBORN, Asking([Grants(chan)], PLENTY)).life == Whole(chan)
    ensures Create(NEWBORN, Asking([Grants(chan)], PLENTY)).err == Fine
  {
    hide Grants;
    assert NEWBORN.answers + [Grants(chan)] == [Grants(chan)];
  }

  lemma GivesUpWaiting()
    ensures Create(NEWBORN, Asking([], PLENTY)) == Outcome(NEWBORN, [], EINVAL)
  {
  }

  /** The channel looks fully created and has no buffer; the clean-up whose send is refused leaves it so, and the
      next creation is told that the channel is there. */
  lemma LooksCreated()
    ensures Create(NEWBORN, Asking([Grants(3)], NO_TABLE)).err == ENOMEM
    ensures Create(NEWBORN, Asking([Grants(3)], NO_TABLE)).life == Half(3) && FullyCreated(Half(3))
    ensures Half(3).interm == EMPTY_POOL && Half(3).recon == EMPTY_POOL
    ensures Destroy(Half(3), false, REFUSED).life == Half(3)
    ensures Create(Half(3), Asking([], PLENTY)).err == EPERM
  {
    hide Grants;
    FailsWithoutTable();
  }

  /** A clean-up that works frees the table of the intermediate pool for the second time. */
  lemma TableFreedTwice()
    ensures CreateAlone(NEWBORN, Asking([Grants(3)], NO_HANDLES), SMOOTH).life.doubleFreed
  {
    hide Grants;
  }

  /** While a failed creation of channel 3 has its clean-up still to do, the channel is destroyed and channel 4 is
      created completely; the clean-up then closes channel 4. */
  lemma CleanUpHitsAnother()
    ensures Create(NEWBORN, Asking([Grants(3)], NO_TABLE)).life == Half(3)
    ensures Create(NEWBORN, Asking([Grants(3)], NO_TABLE)).err == ENOMEM
    ensures Destroy(Half(3), true, SMOOTH) == Outcome(NEWBORN, [Closed(3)], Fine)
    ensures Create(NEWBORN, Asking([Grants(4)], PLENTY)).life == Whole(4)
    ensures Destroy(Whole(4), false, SMOOTH).events == [Closed(4)]
  {
    hide Grants, Create, Asking;
    FailsWithoutTable();
    WorksSmoothly(4);
  }

  lemma PlentyWorks()
    ensures AllocSucceeds(1, PLENTY) && TableAfter(1, PLENTY) == LiveTable
  {
  }

  /** Of two answers a creation takes the first. */
  lemma TakesTheFirst(waiting: seq<Mail>, arriving: seq<Mail>)
    requires waiting + arriving == [Grants(3), Grants(4)] && AllAnswers(waiting + arriving)
    requires arriving != []
    ensures
      var o := Create(NEWBORN.(answers := waiting), Asking(arriving, PLENTY));
      o.err == Fine && o.life == Whole(3).(answers := [Grants(4)])
  {
    hide Grants, AllAnswers, AllocSucceeds, TableAfter;
    PlentyWorks();
    assert (waiting + arriving)[1..] == [Grants(4)];
  }

  /** The first creation gives up waiting. Its answer, for channel 3, comes during the second creation and is taken
      for that one's own, which is for channel 4. */
  lemma LateAnswerAdopted(both: seq<Mail>)
    requires both == [Grants(3), Grants(4)] && AllAnswers(both)
    ensures Create(NEWBORN, Asking([], PLENTY)) == Outcome(NEWBORN, [], EINVAL)
    ensures Create(NEWBORN, Asking(both, PLENTY)).life == Whole(3).(answers := [Grants(4)])
  {
    hide Grants, AllAnswers, Create, Asking;
    GivesUpWaiting();
    assert [] + both == both;
    TakesTheFirst([], both);
    assert NEWBORN.(answers := []) == NEWBORN;
  }

  // ---- An answer to the one who sat there before ----------------------------------------------------

  function Replies(k: nat): (m: Mail)
  {
    Grants(if k == 0 then 3 else 4)
  }

  lemma Before(s: Seat, t: Turn, ts: seq<Turn>)
    requires InTurn(Replies, s, t) && s.gone <= s.arrived && History(Replies, Take(s, t), ts)
    ensures History(Replies, s, [t] + ts)
    ensures AfterTurns(Replies, s, [t] + ts) == AfterTurns(Replies, Take(s, t), ts)
    ensures GivenUp(Replies, s, [t] + ts) == (if GivesUp(s, t) then 1 else 0) + GivenUp(Replies, Take(s, t), ts)
    ensures Discarded(Replies, s, [t] + ts) == Discards(s, t) + Discarded(Replies, Take(s, t), ts)
  {
    hide InTurn, Take;
    assert ([t] + ts)[1..] == ts;
  }

  /** The user that came when the last one had left, with the answer to that one's request in its queue. */
  const HEIR := NEWBORN.(answers := [Grants(3)])

  lemma AnswerComesLate()
    ensures InTurn(Replies, Seat(Some(NEWBORN), 1, 0, 0), Act(ChannelLife.Answer(Grants(3))))
    ensures Take(Seat(Some(NEWBORN), 1, 0, 0), Act(ChannelLife.Answer(Grants(3)))) == Seat(Some(HEIR), 1, 1, 0)
  {
    hide Grants;
    assert NEWBORN.answers + [Grants(3)] == [Grants(3)];
  }

  lemma WaitsInVain()
    ensures InTurn(Replies, Seat(Some(NEWBORN), 0, 0, 0), Act(CallCreate(Asking([], PLENTY))))
    ensures GivesUp(Seat(Some(NEWBORN), 0, 0, 0), Act(CallCreate(Asking([], PLENTY))))
    ensures Take(Seat(Some(NEWBORN), 0, 0, 0), Act(CallCreate(Asking([], PLENTY)))) == Seat(Some(NEWBORN), 1, 0, 0)
  {
    hide Grants;
    GivesUpWaiting();
    assert Slice(Replies, 0, 0) == [];
  }

  /** The first user of the slot gives up waiting and leaves. Another one comes, and only then the answer. That other
      user never gave up on anything; its first creation gets channel 3 all the same, and leaves its own in the
      queue. */
  lemma AnswerToTheOneBefore() returns (ts: seq<Turn>)
    ensures ts == [Enter, Act(CallCreate(Asking([], PLENTY))), Leave, Enter, Act(ChannelLife.Answer(Grants(3)))]
    ensures History(Replies, VACANT, ts) && AfterTurns(Replies, VACANT, ts) == Seat(Some(HEIR), 1, 1, 0)
    ensures GivenUp(Replies, VACANT, ts) == 1 && Discarded(Replies, VACANT, ts) == 0
  {
    hide Grants, Asking, InTurn, Take, GivesUp;
    var nobody: seq<Turn> := [];
    AnswerComesLate();
    WaitsInVain();
    ComesAndGoes();
    Before(Seat(Some(NEWBORN), 1, 0, 0), Act(ChannelLife.Answer(Grants(3))), nobody);
    ts := [Act(ChannelLife.Answer(Grants(3)))] + nobody;
    Before(Seat(None, 1, 0, 0), Enter, ts);
    ts := [Enter] + ts;
    Before(Seat(Some(NEWBORN), 1, 0, 0), Leave, ts);
    ts := [Leave] + ts;
    Before(Seat(Some(NEWBORN), 0, 0, 0), Act(CallCreate(Asking([], PLENTY))), ts);
    ts := [Act(CallCreate(Asking([], PLENTY)))] + ts;
    Before(VACANT, Enter, ts);
    ts := [Enter] + ts;
  }

  lemma ComesAndGoes()
    ensures InTurn(Replies, VACANT, Enter) && Take(VACANT, Enter) == Seat(Some(NEWBORN), 0, 0, 0)
    ensures InTurn(Replies, Seat(None, 1, 0, 0), Enter)
    ensures Take(Seat(None, 1, 0, 0), Enter) == Seat(Some(NEWBORN), 1, 0, 0)
    ensures InTurn(Replies, Seat(Some(NEWBORN), 1, 0, 0), Leave)
    ensures Take(Seat(Some(NEWBORN), 1, 0, 0), Leave) == Seat(None, 1, 0, 0)
    ensures !GivesUp(VACANT, Enter) && !GivesUp(Seat(None, 1, 0, 0), Enter)
    ensures !GivesUp(Seat(Some(NEWBORN), 1, 0, 0), Leave)
    ensures !GivesUp(Seat(Some(NEWBORN), 1, 0, 0), Act(ChannelLife.Answer(Grants(3))))
  {
    hide Grants;
  }

  lemma HeirIsServedWrong(both: seq<Mail>)
    requires both == HEIR.answers + [Grants(4)] && AllAnswers(both)
    ensures
      var o := Create(HEIR, Asking([Grants(4)], PLENTY));
      o.err == Fine && o.life == Whole(3).(answers := [Grants(4)])
  {
    hide Grants, AllAnswers, Create, Asking;
    TakesTheFirst([Grants(3)], [Grants(4)]);
  }

  const RINGS := DeliveryRuns.Rings(0x7F8, 0x7F8)

  /** A device with one slot, taken or free, these mails on the way, and these answers in the queue for creations. */
  function Device(channel: Option<int>, inbox: seq<Mail>, answers: seq<Mail>, arrived: seq<Mail>)
    : (w: DeliveryRuns.World)
  {
    DeliveryRuns.World(inbox, View([channel], [[[], answers, [], [], [], [], []]], [], [], []), arrived, [])
  }

  const OCCUPIED := Device(Some(BAD_CHAN), [], [], [])
  const EMPTY := Device(None, [], [], [])

  lemma UserLeaves()
    ensures DeliveryRuns.Sound(OCCUPIED) && DeliveryRuns.Step(RINGS, OCCUPIED, DeliveryRuns.Release(0)) == EMPTY
  {
    assert OCCUPIED.v.rooms[0] == DeliveryRuns.NO_MAILS;
    assert Flat(DeliveryRuns.NO_MAILS) == [] by { NothingToFlatten(); }
  }

  lemma NothingToFlatten()
    ensures Flat(DeliveryRuns.NO_MAILS) == []
  {
    TallyOfEmpty(DeliveryRuns.NO_MAILS);
    FlatTally(DeliveryRuns.NO_MAILS);
    assert multiset(Flat(DeliveryRuns.NO_MAILS)) == multiset{};
  }

  lemma UserComes()
    ensures DeliveryRuns.Sound(EMPTY) && DeliveryRuns.Step(RINGS, EMPTY, DeliveryRuns.Open) == OCCUPIED
  {
    assert EMPTY.v.rooms[0] == DeliveryRuns.NO_MAILS;
  }

  lemma AnswerArrives()
    ensures DeliveryRuns.Sound(OCCUPIED)
    ensures DeliveryRuns.Step(RINGS, OCCUPIED, DeliveryRuns.Arrive(Grants(3)))
         == Device(Some(BAD_CHAN), [Grants(3)], [], [Grants(3)])
  {
    hide Grants;
    assert OCCUPIED.v.rooms[0] == DeliveryRuns.NO_MAILS;
  }

  lemma AnswerHandled()
    ensures Handle(0x7F8, OCCUPIED.v, Grants(3)) == Device(Some(BAD_CHAN), [], [Grants(3)], []).v
  {
    hide Grants;
    var m := Grants(3);
    assert Target([Some(BAD_CHAN)], m) == Some(0) by { UserMailTarget([Some(BAD_CHAN)], m, 0); }
    assert OCCUPIED.v.rooms[0][QUEUE_CREATE] + [m] == [m];
    var row := OCCUPIED.v.rooms[0];
    assert row[QUEUE_CREATE := [m]] == [[], [m], [], [], [], [], []];
    assert [row][0 := [[], [m], [], [], [], [], []]] == [[[], [m], [], [], [], [], []]];
  }

  lemma AnswerDelivered()
    ensures DeliveryRuns.Sound(Device(Some(BAD_CHAN), [Grants(3)], [], [Grants(3)]))
    ensures DeliveryRuns.Step(RINGS, Device(Some(BAD_CHAN), [Grants(3)], [], [Grants(3)]), DeliveryRuns.InterruptPass)
         == Device(Some(BAD_CHAN), [], [Grants(3)], [Grants(3)])
  {
    hide Grants, Handle;
    var m, w := Grants(3), Device(Some(BAD_CHAN), [Grants(3)], [], [Grants(3)]);
    assert w.inbox[..1] == [m] && w.inbox[1..] == [];
    assert [m][1..] == [];
    assert HandleAll(RINGS.outSize, w.v, [m]) == Handle(RINGS.outSize, w.v, m);
    AnswerHandled();
  }
}
