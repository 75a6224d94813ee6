/** The creation of an encoder channel, checkpoint by checkpoint. */
module EncoderUsers {
  import opened MachineWords
  import opened Mails
  import opened MailQueues
  import opened DmaKernel
  import opened BufferPools
  import opened Dispatch
  import opened Users
  import opened PushedBuffers
  import opened ChannelLife
  import opened UserOps

  const PAGE_SIZE: nat := 4096

  /** Room for a reconstructed picture, up to the next page; a whole page more when there is no rest. */
  function RecBufferSize(size: u32): (padded: u32)
  {
    (size + (PAGE_SIZE - size % PAGE_SIZE)) % 0x1_0000_0000
  }

  lemma RecBufferSizePads(size: u32)
    ensures RecBufferSize(size) % PAGE_SIZE == 0
    ensures size < RecBufferSize(size) <= size + PAGE_SIZE <==> size < 0xFFFF_F000
  {
  }

  /** The answers from which a creation may choose are as the firmware fills them, and a wait that is over has a
      reason. */
  ghost predicate Answerable(user: User, env: CreateEnv)
    requires |user.queues| == QUEUES
    reads user.queues`contents, user.queues`locked
  {
    var all := user.queues[QUEUE_CREATE].contents + env.arrivals;
    AllAnswers(all) && (env.wait.Ready? ==> all != [] || !user.queues[QUEUE_CREATE].locked)
  }

  datatype ChannelStatus = ChannelStatus(options: u32, numCore: u8, ppsParam: u32, errorCode: u32)

  const NO_STATUS := ChannelStatus(0, 0, 0, 0)

  function StatusIn(m: Mail): (status: ChannelStatus)
    requires IsAnswer(m)
  {
    ChannelStatus(WordAt(m, 2), WordAt(m, 3) % 0x100, WordAt(m, 4), WordAt(m, 10))
  }

  /** The status that the application gets is what the firmware put there; of the number of cores it gets the lowest
      byte. */
  lemma StatusRoundTrip(f: Feedback, user: u32, options: u32, cores: u32, pps: u32, reserved: u32, error: u32)
    ensures
      var m := RawMail(MSG_CREATE_CHANNEL, BytesOf(AnswerWords(f, user, options, cores, pps, reserved, error)));
      IsAnswer(m) && StatusIn(m) == ChannelStatus(options, cores % 0x100, pps, error)
  {
    hide BytesOf, WordFor, Value, Unpack, WordAt;
    var ws := AnswerWords(f, user, options, cores, pps, reserved, error);
    var m := RawMail(MSG_CREATE_CHANNEL, BytesOf(ws));
    WordInMail(ws, m, 2, options);
    WordInMail(ws, m, 3, cores);
    WordInMail(ws, m, 4, pps);
    WordInMail(ws, m, 10, error);
  }

  function RequestMail(uid: nat, params: seq<u8>): (m: Mail)
  {
    Addressed(ToUint32(uid), MSG_CREATE_CHANNEL, params)
  }

  /** The request names the user, and its parameters follow. */
  lemma RequestNamesUser(uid: nat, params: seq<u8>)
    ensures AsksForChannel(RequestMail(uid, params), uid, params)
  {
    hide Addressed;
  }

  /** The mails of a request for a channel, `all` being what its wait finds in the queue. */
  function RequestLog(uid: nat, params: seq<u8>, ok: bool, all: seq<Mail>): (l: Log)
    ensures Settled(l)
  {
    JoinSettled(Posted(RequestMail(uid, params), ok), Consumed(if ok then Oldest(all) else None));
    Join(Posted(RequestMail(uid, params), ok), Consumed(if ok then Oldest(all) else None))
  }

  /** Asks for a channel and takes the oldest answer in the queue. */
  method AskForAnswer(user: User, params: seq<u8>, env: CreateEnv)
    returns (err: Errno, feedback: Option<Mail>, ghost log: Log)
    requires user.Valid() && Answerable(user, env) && user.locks[LOCK_CREATE] && 4 + |params| < 0x1_0000_0000
    modifies user.queues[QUEUE_CREATE], user.queues[QUEUE_CREATE].nodes
    ensures user.Valid()
    ensures
      var all := old(user.queues[QUEUE_CREATE].contents) + env.arrivals;
      log == RequestLog(user.uid, params, env.sendCreate, all)
      && feedback == (if env.sendCreate then Oldest(all) else None)
      && err == (if !env.sendCreate then EAGAIN else if all != [] then Fine
                 else if env.wait.Interrupted? then EINTR else EINVAL)
      && user.queues[QUEUE_CREATE].contents
         == (if env.sendCreate then Rest(all) else old(user.queues[QUEUE_CREATE].contents))
    ensures forall n :: n in user.queues[QUEUE_CREATE].nodes ==> n in old(user.queues[QUEUE_CREATE].nodes) || fresh(n)
  {
    hide MailQueue.Valid, BufferPool.Valid, IsAnswer, Settled, Addressed, Rest;
    feedback := None;
    var mail := CreateClassicMail(ToUint32(user.uid), MSG_CREATE_CHANNEL, params);
    err, log := CheckAndSend(mail, env.sendCreate);
    if err == Fine {
      feedback, err := AwaitTimeoutOn(user, QUEUE_CREATE, env.arrivals, env.wait);
      ghost var used := FreeMail(feedback, Log([], [], Taken(feedback), []));
      log := Join(log, used);
    }
  }

  lemma FeedbackWords(m: Mail)
    requires IsAnswer(m)
    ensures FeedbackIn(m).chan == WordAt(m, 0)
  {
  }

  /** Adopts the channel of the answer, unless it names none. */
  method TryToCreateChannel(user: User, params: seq<u8>, env: CreateEnv)
    returns (err: Errno, f: Feedback, status: ChannelStatus, ghost events: seq<Event>, ghost log: Log)
    requires user.Valid() && Answerable(user, env) && user.locks[LOCK_CREATE] && 4 + |params| < 0x1_0000_0000
    modifies user`chanUid, user.queues[QUEUE_CREATE], user.queues[QUEUE_CREATE].nodes
    ensures user.Valid()
    ensures (Outcome(LifeOf(user), events, err), f) == TryToCreate(old(LifeOf(user)), env)
    ensures err == Fine ==>
      log.taken != [] && IsAnswer(log.taken[0]) && f == FeedbackIn(log.taken[0])
      && user.chanUid == ToInt32(WordAt(log.taken[0], 0))
    ensures err != Fine ==> user.chanUid == old(user.chanUid)
    ensures log == RequestLog(user.uid, params, env.sendCreate, old(user.queues[QUEUE_CREATE].contents) + env.arrivals)
    ensures status == if log.taken == [] then NO_STATUS else StatusIn(log.taken[0])
    ensures forall n :: n in user.queues[QUEUE_CREATE].nodes ==> n in old(user.queues[QUEUE_CREATE].nodes) || fresh(n)
  {
    hide MailQueue.Valid, BufferPool.Valid, IsAnswer, FeedbackIn, Settled, RequestMail, StatusIn;
    f, status, events := NO_FEEDBACK, NO_STATUS, [];
    var feedback;
    err, feedback, log := AskForAnswer(user, params, env);
    if err != Fine {
      return;
    }
    f, status := FeedbackIn(feedback.value), StatusIn(feedback.value);
    if f.chan == BAD_CHAN {
      return EINVAL, f, status, [], log;
    }
    user.chanUid := ToInt32(f.chan);
    FeedbackWords(feedback.value);
    events := [Opened(user.chanUid)];
  }

  method AllocatePool(pool: BufferPool, kernel: Kernel, n: int, size: nat, env: AllocEnv, ghost others: multiset<nat>)
    returns (ok: bool)
    requires Accounted(kernel.d, others)
    modifies pool, kernel
    ensures pool.Valid() && Accounted(kernel.d, others + multiset(pool.handles))
    ensures pool.doubleFreed == old(pool.doubleFreed)
    ensures PoolViewOf(pool) == AllocView(n, env) && (ok <==> AllocSucceeds(n, env))
    ensures ok ==> |pool.buffers| == n && forall b :: b in pool.buffers ==> b.size == size
    ensures kernel.d.fds == old(kernel.d.fds)
  {
    hide Accounted, AllocSucceeds, TableAfter;
    ok := pool.Allocate(kernel, n, size, env, others);
  }

  /** The pools have as many buffers as the feedback asks for, of the sizes it asks for. */
  ghost predicate Sized(user: User, f: Feedback)
    reads user.intBuffers, user.recBuffers
  {
    |user.intBuffers.buffers| == ToInt32(f.intCount) && |user.recBuffers.buffers| == ToInt32(f.recCount)
    && (forall b :: b in user.intBuffers.buffers ==> b.size == f.intSize)
    && (forall b :: b in user.recBuffers.buffers ==> b.size == RecBufferSize(f.recSize))
  }

  /** Pools that a call made have the sizes that the answer it took asks for. */
  ghost predicate PoolsSized(user: User, events: seq<Event>, taken: seq<Mail>)
    reads user.intBuffers, user.recBuffers
  {
    ReferencePool in events ==> taken != [] && IsAnswer(taken[0]) && Sized(user, FeedbackIn(taken[0]))
  }

  method AllocateChannelBuffers(user: User, kernel: Kernel, f: Feedback, env: CreateEnv, ghost others: multiset<nat>)
    returns (err: Errno, ghost events: seq<Event>)
    requires Prepared(user, kernel, others) && user.intBuffers.handles == [] && user.recBuffers.handles == []
    modifies user.intBuffers, user.recBuffers, kernel
    ensures Prepared(user, kernel, others)
    ensures (Outcome(LifeOf(user), events, err), err == Fine) == AllocateBuffers(old(LifeOf(user)), f, env)
    ensures err == Fine ==> Sized(user, f)
    ensures IntermediatePool in events ==>
      |user.intBuffers.buffers| == ToInt32(f.intCount)
      && forall b :: b in user.intBuffers.buffers ==> b.size == f.intSize
    ensures err != Fine ==> ReferencePool !in events
    ensures kernel.d.fds == old(kernel.d.fds)
  {
    hide MailQueue.Valid, BufferPool.Valid, Accounted, AllocSucceeds, AllocView, RecBufferSize;
    assert Held(user, others) == others;
    var ok := AllocatePool(user.intBuffers, kernel, ToInt32(f.intCount), f.intSize, env.intAlloc, others);
    assert Held(user, others) == others + multiset(user.intBuffers.handles);
    if !ok {
      return ENOMEM, [AllocationFailed];
    }
    ok := AllocatePool(user.recBuffers, kernel, ToInt32(f.recCount), RecBufferSize(f.recSize), env.recAlloc,
                       others + multiset(user.intBuffers.handles));
    assert Held(user, others) == others + multiset(user.intBuffers.handles) + multiset(user.recBuffers.handles);
    if !ok {
      return ENOMEM, [IntermediatePool, AllocationFailed];
    }
    return Fine, [IntermediatePool, ReferencePool];
  }

  /** The mail that stands behind an event. */
  function PushMail(e: Event, ints: seq<DmaBuffer>, recs: seq<DmaBuffer>): (ms: seq<Mail>)
  {
    match e
    case PushedIntermediate(chan) => [PoolMail(MSG_PUSH_BUFFER_INTERMEDIATE, ToUint32(chan), ints)]
    case PushedReference(chan) => [PoolMail(MSG_PUSH_BUFFER_REFERENCE, ToUint32(chan), recs)]
    case _ => []
  }

  function PushMails(es: seq<Event>, ints: seq<DmaBuffer>, recs: seq<DmaBuffer>): (ms: seq<Mail>)
    decreases |es|
  {
    if es == [] then [] else PushMail(es[0], ints, recs) + PushMails(es[1..], ints, recs)
  }

  lemma {:induction false} PushMailsConcat(a: seq<Event>, b: seq<Event>, ints: seq<DmaBuffer>, recs: seq<DmaBuffer>)
    ensures PushMails(a + b, ints, recs) == PushMails(a, ints, recs) + PushMails(b, ints, recs)
    decreases |a|
  {
    if a == [] {
      assert a + b == b;
    } else {
      assert (a + b)[1..] == a[1..] + b;
      PushMailsConcat(a[1..], b, ints, recs);
    }
  }

  lemma PushMailsNone(ints: seq<DmaBuffer>, recs: seq<DmaBuffer>)
    ensures PushMails([], ints, recs) == []
  {
  }

  lemma PushMailsOne(e: Event, ints: seq<DmaBuffer>, recs: seq<DmaBuffer>)
    ensures PushMails([e], ints, recs) == PushMail(e, ints, recs)
  {
  }

  method SendIntermediateBuffers(user: User, ok: bool) returns (err: Errno, ghost log: Log)
    requires user.Valid()
    ensures err == if ok then Fine else EAGAIN
    ensures Settled(log) && log.taken == [] && log.sent == if ok
      then PushMail(PushedIntermediate(user.chanUid), user.intBuffers.buffers, user.recBuffers.buffers) else []
  {
    hide PoolMail;
    var mail := CreateMailFromBufpool(MSG_PUSH_BUFFER_INTERMEDIATE, ToUint32(user.chanUid), user.intBuffers);
    err, log := CheckAndSend(mail, ok);
  }

  method SendReferenceBuffers(user: User, ok: bool) returns (err: Errno, ghost log: Log)
    requires user.Valid()
    ensures err == if ok then Fine else EAGAIN
    ensures Settled(log) && log.taken == [] && log.sent == if ok
      then PushMail(PushedReference(user.chanUid), user.intBuffers.buffers, user.recBuffers.buffers) else []
  {
    hide PoolMail;
    var mail := CreateMailFromBufpool(MSG_PUSH_BUFFER_REFERENCE, ToUint32(user.chanUid), user.recBuffers);
    err, log := CheckAndSend(mail, ok);
  }

  /** The second push, if it is what the creation stands at. */
  method PushReferenceBuffers(user: User, env: CreateEnv) returns (err: Errno, ghost events: seq<Event>, ghost log: Log)
    requires user.Valid()
    modifies user`checkpoint
    ensures user.Valid()
    ensures Outcome(LifeOf(user), events, err) == PushReference(old(LifeOf(user)), env)
    ensures log.sent == PushMails(events, user.intBuffers.buffers, user.recBuffers.buffers)
    ensures Settled(log) && log.taken == []
  {
    hide MailQueue.Valid, BufferPool.Valid, PushMail, PushMails, Settled;
    err, events, log := Fine, [], NO_MAIL;
    NoMailSettled(log);
    PushMailsNone(user.intBuffers.buffers, user.recBuffers.buffers);
    if user.checkpoint == CHECKPOINT_SEND_REFERENCE_BUFFERS {
      err, log := SendReferenceBuffers(user, env.sendRec);
      if err == Fine {
        events := [PushedReference(user.chanUid)];
        PushMailsOne(events[0], user.intBuffers.buffers, user.recBuffers.buffers);
        user.checkpoint := NO_CHECKPOINT;
      }
    }
  }

  /** The two pushes, from the checkpoint at which the creation stands. */
  method PushBuffers(user: User, env: CreateEnv) returns (err: Errno, ghost events: seq<Event>, ghost log: Log)
    requires user.Valid()
    modifies user`checkpoint
    ensures user.Valid()
    ensures Outcome(LifeOf(user), events, err) == Push(old(LifeOf(user)), env)
    ensures log.sent == PushMails(events, user.intBuffers.buffers, user.recBuffers.buffers)
    ensures Settled(log) && log.taken == []
  {
    hide MailQueue.Valid, BufferPool.Valid, PushMail, PushMails, PushReference, Settled;
    events, log := [], NO_MAIL;
    PushMailsNone(user.intBuffers.buffers, user.recBuffers.buffers);
    ghost var more, moreLog;
    if user.checkpoint == CHECKPOINT_SEND_INTERMEDIATE_BUFFERS {
      err, log := SendIntermediateBuffers(user, env.sendInt);
      if err != Fine {
        return;
      }
      events := [PushedIntermediate(user.chanUid)];
      PushMailsOne(events[0], user.intBuffers.buffers, user.recBuffers.buffers);
      user.checkpoint := CHECKPOINT_SEND_REFERENCE_BUFFERS;
      err, more, moreLog := PushReferenceBuffers(user, env);
      PushMailsConcat(events, more, user.intBuffers.buffers, user.recBuffers.buffers);
      JoinSettled(log, moreLog);
      events, log := events + more, Join(log, moreLog);
    } else {
      err, events, log := PushReferenceBuffers(user, env);
    }
  }

  /** A push, and no other event, stands for one mail, which lends the pool of its kind to the microcontroller. */
  lemma PushMailDescribes(e: Event, ints: seq<DmaBuffer>, recs: seq<DmaBuffer>)
    ensures !e.PushedIntermediate? && !e.PushedReference? ==> PushMail(e, ints, recs) == []
    ensures e.PushedIntermediate? ==>
      |PushMail(e, ints, recs)| == 1 && PushMail(e, ints, recs)[0].uid == MSG_PUSH_BUFFER_INTERMEDIATE
      && (4 + 12 * |ints| < 0x1_0000 ==> Describes(PushMail(e, ints, recs)[0], ToUint32(e.chan), ints))
    ensures e.PushedReference? ==>
      |PushMail(e, ints, recs)| == 1 && PushMail(e, ints, recs)[0].uid == MSG_PUSH_BUFFER_REFERENCE
      && (4 + 12 * |recs| < 0x1_0000 ==> Describes(PushMail(e, ints, recs)[0], ToUint32(e.chan), recs))
  {
    hide PoolBytes, Describes;
    match e {
      case PushedIntermediate(chan) => PoolMailDescribes(MSG_PUSH_BUFFER_INTERMEDIATE, ToUint32(chan), ints);
      case PushedReference(chan) => PoolMailDescribes(MSG_PUSH_BUFFER_REFERENCE, ToUint32(chan), recs);
      case _ =>
    }
  }

  lemma {:induction false} PushIsSent(es: seq<Event>, e: Event, ints: seq<DmaBuffer>, recs: seq<DmaBuffer>)
    requires e in es
    ensures forall m :: m in PushMail(e, ints, recs) ==> m in PushMails(es, ints, recs)
    decreases |es|
  {
    hide PushMail;
    if e != es[0] {
      PushIsSent(es[1..], e, ints, recs);
    }
  }

  /** Whatever pool the events say was pushed, one of the mails sent describes it. */
  ghost predicate PoolsPushed(user: User, events: seq<Event>, sent: seq<Mail>)
    reads user`chanUid, user.intBuffers, user.recBuffers
  {
    (PushedIntermediate(user.chanUid) in events && 4 + 12 * |user.intBuffers.buffers| < 0x1_0000 ==>
      exists m :: m in sent && m.uid == MSG_PUSH_BUFFER_INTERMEDIATE
                  && Describes(m, ToUint32(user.chanUid), user.intBuffers.buffers))
    && (PushedReference(user.chanUid) in events && 4 + 12 * |user.recBuffers.buffers| < 0x1_0000 ==>
      exists m :: m in sent && m.uid == MSG_PUSH_BUFFER_REFERENCE
                  && Describes(m, ToUint32(user.chanUid), user.recBuffers.buffers))
  }

  /** A pool that was pushed is described by one of the mails of the pushes. */
  lemma PushesDescribe(es: seq<Event>, chan: int, ints: seq<DmaBuffer>, recs: seq<DmaBuffer>)
    ensures PushedIntermediate(chan) in es && 4 + 12 * |ints| < 0x1_0000 ==>
      exists m :: m in PushMails(es, ints, recs) && m.uid == MSG_PUSH_BUFFER_INTERMEDIATE
                  && Describes(m, ToUint32(chan), ints)
    ensures PushedReference(chan) in es && 4 + 12 * |recs| < 0x1_0000 ==>
      exists m :: m in PushMails(es, ints, recs) && m.uid == MSG_PUSH_BUFFER_REFERENCE
                  && Describes(m, ToUint32(chan), recs)
  {
    hide PushMail, PushMails, Describes;
    var (a, b) := (PushedIntermediate(chan), PushedReference(chan));
    PushMailDescribes(a, ints, recs);
    PushMailDescribes(b, ints, recs);
    if a in es {
      PushIsSent(es, a, ints, recs);
      assert PushMail(a, ints, recs)[0] in PushMail(a, ints, recs);
    }
    if b in es {
      PushIsSent(es, b, ints, recs);
      assert PushMail(b, ints, recs)[0] in PushMail(b, ints, recs);
    }
  }

  lemma {:induction false} NoPushes(es: seq<Event>, ints: seq<DmaBuffer>, recs: seq<DmaBuffer>)
    requires forall e :: e in es ==> !e.PushedIntermediate? && !e.PushedReference?
    ensures PushMails(es, ints, recs) == []
    decreases |es|
  {
    if es != [] {
      assert es[0] in es;
      NoPushes(es[1..], ints, recs);
    }
  }

  lemma AllocatingPushesNothing(s: Life, f: Feedback, env: CreateEnv, ints: seq<DmaBuffer>, recs: seq<DmaBuffer>)
    ensures PushMails(AllocateBuffers(s, f, env).0.events, ints, recs) == []
  {
    NoPushes(AllocateBuffers(s, f, env).0.events, ints, recs);
  }

  lemma OpeningPushesNothing(s: Life, env: CreateEnv, ints: seq<DmaBuffer>, recs: seq<DmaBuffer>)
    requires AllAnswers(s.answers + env.arrivals)
    ensures PushMails(TryToCreate(s, env).0.events, ints, recs) == []
    ensures ReferencePool !in TryToCreate(s, env).0.events
  {
    NoPushes(TryToCreate(s, env).0.events, ints, recs);
  }

  lemma PushingAllocatesNothing(s: Life, env: CreateEnv)
    ensures ReferencePool !in Push(s, env).events
  {
  }

  /** From the allocation checkpoint on; a resumed call leaves the pools alone. */
  method FinishChannel(user: User, kernel: Kernel, f: Feedback, env: CreateEnv, ghost others: multiset<nat>)
    returns (err: Errno, ghost events: seq<Event>, ghost log: Log)
    requires Prepared(user, kernel, others)
    requires user.checkpoint == CHECKPOINT_ALLOCATE_BUFFERS ==>
      user.intBuffers.handles == [] && user.recBuffers.handles == []
    modifies user`checkpoint, user.intBuffers, user.recBuffers, kernel
    ensures Prepared(user, kernel, others)
    ensures Outcome(LifeOf(user), events, err) == Finish(old(LifeOf(user)), f, env)
    ensures log.sent == PushMails(events, user.intBuffers.buffers, user.recBuffers.buffers)
    ensures Settled(log) && log.taken == []
    ensures ReferencePool in events ==> Sized(user, f)
    ensures old(user.checkpoint) != CHECKPOINT_ALLOCATE_BUFFERS ==>
      unchanged(user.intBuffers, user.recBuffers) && ReferencePool !in events
    ensures kernel.d.fds == old(kernel.d.fds)
  {
    hide MailQueue.Valid, BufferPool.Valid, Accounted, Held, Push, AllocateBuffers, PushMails, Settled, RecBufferSize;
    events, log := [], NO_MAIL;
    NoMailSettled(log);
    PushMailsNone(user.intBuffers.buffers, user.recBuffers.buffers);
    if user.checkpoint == CHECKPOINT_ALLOCATE_BUFFERS {
      err, events := AllocateChannelBuffers(user, kernel, f, env, others);
      AllocatingPushesNothing(old(LifeOf(user)), f, env, user.intBuffers.buffers, user.recBuffers.buffers);
      if err != Fine {
        user.checkpoint := NO_CHECKPOINT;
        return;
      }
      user.checkpoint := CHECKPOINT_SEND_INTERMEDIATE_BUFFERS;
    }
    ghost var more;
    PushingAllocatesNothing(LifeOf(user), env);
    err, more, log := PushBuffers(user, env);
    PushMailsConcat(events, more, user.intBuffers.buffers, user.recBuffers.buffers);
    events := events + more;
  }

  /** The request, and the checkpoint after it. */
  method RequestStage(user: User, params: seq<u8>, env: CreateEnv)
    returns (err: Errno, f: Feedback, status: ChannelStatus, ghost events: seq<Event>, ghost log: Log)
    requires user.Valid() && Answerable(user, env) && user.locks[LOCK_CREATE] && 4 + |params| < 0x1_0000_0000
    modifies user`chanUid, user`checkpoint, user.queues[QUEUE_CREATE], user.queues[QUEUE_CREATE].nodes
    ensures user.Valid()
    ensures
      var (t, g) := TryToCreate(old(LifeOf(user)), env);
      f == g && err == t.err && events == t.events
      && LifeOf(user) == if err == Fine then t.life.(checkpoint := CHECKPOINT_ALLOCATE_BUFFERS) else t.life
    ensures err == Fine ==>
      log.taken != [] && IsAnswer(log.taken[0]) && f == FeedbackIn(log.taken[0])
      && user.chanUid == ToInt32(WordAt(log.taken[0], 0))
    ensures err != Fine ==> user.chanUid == old(user.chanUid)
    ensures log.sent == if env.sendCreate then [RequestMail(user.uid, params)] else []
    ensures Settled(log)
    ensures log.taken
         == if env.sendCreate then Taken(Oldest(old(user.queues[QUEUE_CREATE].contents) + env.arrivals)) else []
    ensures status == if log.taken == [] then NO_STATUS else StatusIn(log.taken[0])
    ensures forall n :: n in user.queues[QUEUE_CREATE].nodes ==> n in old(user.queues[QUEUE_CREATE].nodes) || fresh(n)
    ensures PushMails(events, user.intBuffers.buffers, user.recBuffers.buffers) == [] && ReferencePool !in events
  {
    hide MailQueue.Valid, BufferPool.Valid, TryToCreate, PushMails, IsAnswer, Settled, RequestMail;
    err, f, status, events, log := TryToCreateChannel(user, params, env);
    OpeningPushesNothing(old(LifeOf(user)), env, user.intBuffers.buffers, user.recBuffers.buffers);
    if err == Fine {
      user.checkpoint := CHECKPOINT_ALLOCATE_BUFFERS;
    }
  }

  /** The creation while it holds its lock, from wherever the last call stopped. */
  method CreateLocked(user: User, kernel: Kernel, params: seq<u8>, env: CreateEnv, ghost others: multiset<nat>)
    returns (err: Errno, status: ChannelStatus, ghost events: seq<Event>, ghost log: Log)
    requires Prepared(user, kernel, others) && user.checkpoint != CHECKPOINT_ALLOCATE_BUFFERS
    requires user.locks[LOCK_CREATE]
    requires !env.interrupted && !FullyCreated(LifeOf(user))
    requires user.checkpoint == NO_CHECKPOINT ==> user.intBuffers.handles == [] && user.recBuffers.handles == []
    requires Answerable(user, env) && 4 + |params| < 0x1_0000_0000
    modifies user`chanUid, user`checkpoint, user.intBuffers, user.recBuffers, kernel
    modifies user.queues[QUEUE_CREATE], user.queues[QUEUE_CREATE].nodes
    ensures Prepared(user, kernel, others)
    ensures Outcome(LifeOf(user), events, err) == Create(old(LifeOf(user)), env)
    ensures log.sent == (if Requests(old(LifeOf(user)), env) then [RequestMail(user.uid, params)] else [])
                        + PushMails(events, user.intBuffers.buffers, user.recBuffers.buffers)
    ensures Settled(log) && log.taken == TakenBy(old(LifeOf(user)), env)
    ensures status == if log.taken == [] then NO_STATUS else StatusIn(log.taken[0])
    ensures forall n :: n in user.queues[QUEUE_CREATE].nodes ==> n in old(user.queues[QUEUE_CREATE].nodes) || fresh(n)
    ensures PoolsSized(user, events, log.taken)
    ensures old(user.checkpoint) != NO_CHECKPOINT ==> unchanged(user.intBuffers, user.recBuffers)
    ensures user.chanUid != old(user.chanUid) ==>
      old(user.chanUid) == BAD_CHAN && log.taken != [] && IsAnswer(log.taken[0])
      && user.chanUid == ToInt32(WordAt(log.taken[0], 0))
    ensures kernel.d.fds == old(kernel.d.fds)
  {
    hide MailQueue.Valid, BufferPool.Valid, User.Valid, Accounted, Held, Finish, TryToCreate, PushMails, IsAnswer,
      FeedbackIn, WordAt, Sized, Settled, StatusIn, RequestMail, Oldest;
    if user.checkpoint == NO_CHECKPOINT {
      var f;
      err, f, status, events, log := RequestStage(user, params, env);
      if err == Fine {
        ghost var more, moreLog;
        err, more, moreLog := FinishChannel(user, kernel, f, env, others);
        OpeningPushesNothing(old(LifeOf(user)), env, user.intBuffers.buffers, user.recBuffers.buffers);
        PushMailsConcat(events, more, user.intBuffers.buffers, user.recBuffers.buffers);
        JoinSettled(log, moreLog);
        events, log := events + more, Join(log, moreLog);
      }
    } else {
      status := NO_STATUS;
      err, events, log := FinishChannel(user, kernel, NO_FEEDBACK, env, others);
    }
  }

  /** What a creation takes from its queue. */
  function TakenBy(s: Life, env: CreateEnv): (ms: seq<Mail>)
  {
    if Requests(s, env) then Taken(Oldest(s.answers + env.arrivals)) else []
  }

  /** The creation when it got its lock: a channel that looks fully created refuses it. */
  method CreateInTurn(user: User, kernel: Kernel, params: seq<u8>, env: CreateEnv, ghost others: multiset<nat>)
    returns (err: Errno, status: ChannelStatus, ghost events: seq<Event>, ghost log: Log)
    requires Prepared(user, kernel, others) && HoldsNone(user) && user.checkpoint != CHECKPOINT_ALLOCATE_BUFFERS
    requires user.checkpoint == NO_CHECKPOINT && !FullyCreated(LifeOf(user)) ==>
      user.intBuffers.handles == [] && user.recBuffers.handles == []
    requires !env.interrupted && Answerable(user, env) && 4 + |params| < 0x1_0000_0000
    modifies user`chanUid, user`checkpoint, user.locks, user.intBuffers, user.recBuffers, kernel
    modifies user.queues[QUEUE_CREATE], user.queues[QUEUE_CREATE].nodes
    ensures Prepared(user, kernel, others) && HoldsNone(user)
    ensures Outcome(LifeOf(user), events, err) == Create(old(LifeOf(user)), env)
    ensures log.sent == (if Requests(old(LifeOf(user)), env) then [RequestMail(user.uid, params)] else [])
                        + PushMails(events, user.intBuffers.buffers, user.recBuffers.buffers)
    ensures Settled(log) && log.taken == TakenBy(old(LifeOf(user)), env)
    ensures status == if log.taken == [] then NO_STATUS else StatusIn(log.taken[0])
    ensures PoolsSized(user, events, log.taken)
    ensures old(user.chanUid) != BAD_CHAN || old(user.checkpoint) != NO_CHECKPOINT ==>
      unchanged(user.intBuffers, user.recBuffers)
    ensures user.chanUid != old(user.chanUid) ==>
      old(user.chanUid) == BAD_CHAN && log.taken != [] && IsAnswer(log.taken[0])
      && user.chanUid == ToInt32(WordAt(log.taken[0], 0))
    ensures forall n :: n in user.queues[QUEUE_CREATE].nodes ==> n in old(user.queues[QUEUE_CREATE].nodes) || fresh(n)
    ensures kernel.d.fds == old(kernel.d.fds)
  {
    hide MailQueue.Valid, BufferPool.Valid, Accounted, Held, Create, PushMails, IsAnswer, Settled, FeedbackIn, WordAt,
      StatusIn, RequestMail, Sized;
    events, log, status := [], NO_MAIL, NO_STATUS;
    NoMailSettled(log);
    CreationRefused(LifeOf(user), env);
    PushMailsNone(user.intBuffers.buffers, user.recBuffers.buffers);
    user.locks[LOCK_CREATE] := true;
    if user.chanUid != BAD_CHAN && user.checkpoint == NO_CHECKPOINT {
      err := EPERM;
    } else {
      err, status, events, log := CreateLocked(user, kernel, params, env, others);
    }
    user.locks[LOCK_CREATE] := false;
  }

  /** One creation from its first lock to its last: what is left to do after it, if anything, is a clean-up. The channel
      and the buffers are those of the answer it took, and what it sends is its request and the pools it pushes. */
  method CreateUnderLock(user: User, kernel: Kernel, params: seq<u8>, env: CreateEnv, ghost others: multiset<nat>,
                         ghost phase: Phase)
    returns (err: Errno, status: ChannelStatus, ghost events: seq<Event>, ghost log: Log)
    requires Prepared(user, kernel, others) && HoldsNone(user) && Consistent(LifeOf(user), phase)
    requires Answerable(user, env) && 4 + |params| < 0x1_0000_0000
    modifies user`chanUid, user`checkpoint, user.locks, user.intBuffers, user.recBuffers, kernel
    modifies user.queues[QUEUE_CREATE], user.queues[QUEUE_CREATE].nodes
    ensures Prepared(user, kernel, others) && HoldsNone(user) && Consistent(LifeOf(user), WatchAll(phase, events))
    ensures Outcome(LifeOf(user), events, err) == Create(old(LifeOf(user)), env)
    ensures log.sent == (if Requests(old(LifeOf(user)), env) then [RequestMail(user.uid, params)] else [])
                        + PushMails(events, user.intBuffers.buffers, user.recBuffers.buffers)
    ensures !env.interrupted && old(user.chanUid) == BAD_CHAN && old(user.checkpoint) == NO_CHECKPOINT && env.sendCreate
      ==> log.sent != [] && AsksForChannel(log.sent[0], user.uid, params)
    ensures Settled(log) && log.taken == TakenBy(old(LifeOf(user)), env)
    ensures log.taken == [] ==>
      status == NO_STATUS && user.chanUid == old(user.chanUid) && ReferencePool !in events
    ensures log.taken != [] ==>
      var m := log.taken[0];
      IsAnswer(m) && status == StatusIn(m)
      && (user.chanUid != old(user.chanUid) ==> old(user.chanUid) == BAD_CHAN && user.chanUid == ToInt32(WordAt(m, 0)))
      && (ReferencePool in events ==>
            |user.intBuffers.buffers| == ToInt32(WordAt(m, 5)) && |user.recBuffers.buffers| == ToInt32(WordAt(m, 7))
            && (forall b :: b in user.intBuffers.buffers ==> b.size == WordAt(m, 6))
            && forall b :: b in user.recBuffers.buffers ==>
              b.size == (WordAt(m, 8) + 4096 - WordAt(m, 8) % 4096) % 0x1_0000_0000)
    ensures PoolsSized(user, events, log.taken)
    ensures old(user.chanUid) != BAD_CHAN || old(user.checkpoint) != NO_CHECKPOINT ==>
      unchanged(user.intBuffers, user.recBuffers)
    ensures PoolsPushed(user, events, log.sent)
    ensures forall n :: n in user.queues[QUEUE_CREATE].nodes ==> n in old(user.queues[QUEUE_CREATE].nodes) || fresh(n)
    ensures kernel.d.fds == old(kernel.d.fds)
  {
    hide MailQueue.Valid, BufferPool.Valid, User.Valid, Accounted, Held, Create, PushMail, PushMails, Settled,
      Consistent, WordAt, WatchAll, RequestMail, RunsOutOfMemory, Oldest, HoldsNone, Describes, StatusIn,
      AsksForChannel;
    events, log, status := [], NO_MAIL, NO_STATUS;
    NoMailSettled(log);
    RequestNamesUser(user.uid, params);
    CreateConsistent(LifeOf(user), phase, env);
    CreationStarts(LifeOf(user), phase);
    CreationRefused(LifeOf(user), env);
    PushMailsNone(user.intBuffers.buffers, user.recBuffers.buffers);
    if env.interrupted {
      err := EINTR;
      return;
    }
    err, status, events, log := CreateInTurn(user, kernel, params, env, others);
    PushesDescribe(events, user.chanUid, user.intBuffers.buffers, user.recBuffers.buffers);
  }

  lemma CreationRefused(s: Life, env: CreateEnv)
    requires AllAnswers(s.answers + env.arrivals)
    ensures env.interrupted || FullyCreated(s) ==>
      Create(s, env) == Outcome(s, [], if env.interrupted then EINTR else EPERM)
  {
  }

  lemma CreationStarts(s: Life, p: Phase)
    requires Consistent(s, p)
    ensures s.checkpoint == NO_CHECKPOINT && !FullyCreated(s) ==> s.interm == EMPTY_POOL && s.recon == EMPTY_POOL
    ensures s.checkpoint != CHECKPOINT_ALLOCATE_BUFFERS
  {
  }

  lemma QueuesDiffer(user: User)
    requires user.Valid()
    ensures |user.queues| == QUEUES && user.queues[QUEUE_CREATE] != user.queues[QUEUE_DESTROY]
  {
  }

  lemma NothingPushed(s: Life, p: Phase, env: CreateEnv)
    requires Consistent(s, p) && AllAnswers(s.answers + env.arrivals) && Create(s, env).err == ENOMEM
    ensures s.chan == BAD_CHAN && s.checkpoint == NO_CHECKPOINT
    ensures forall e :: e in Create(s, env).events ==>
      !e.ReferencePool? && !e.PushedIntermediate? && !e.PushedReference?
  {
    hide IsAnswer, AllocView, AllocSucceeds, FeedbackIn;
    CheckpointAtRest(s, p);
  }

  lemma NoPoolPushed(user: User, events: seq<Event>, sent: seq<Mail>)
    requires forall e :: e in events ==> !e.PushedIntermediate? && !e.PushedReference?
    ensures PoolsPushed(user, events, sent)
  {
    hide Describes;
  }

  lemma NothingPushedAtEnd(s: Life, quiet: bool, env: DestroyEnv)
    ensures forall e :: e in Destroy(s, quiet, env).events ==> e.Closed?
  {
  }

  /** A whole creation, when nobody comes between it and its clean-up. */
  method CreateChannel(user: User, kernel: Kernel, params: seq<u8>, env: CreateEnv, cleanUp: DestroyEnv,
                       destroyed: seq<Mail>, ghost others: multiset<nat>, ghost phase: Phase)
    returns (err: Errno, status: ChannelStatus, ghost events: seq<Event>, ghost log: Log)
    requires Prepared(user, kernel, others) && HoldsNone(user) && Consistent(LifeOf(user), phase)
    requires Answerable(user, env) && Answers(user, destroyed, cleanUp) && 4 + |params| < 0x1_0000_0000
    modifies user`chanUid, user`checkpoint, user.locks, user.intBuffers, user.recBuffers, kernel
    modifies user.queues`locked, user.queues[QUEUE_CREATE], user.queues[QUEUE_CREATE].nodes
    modifies user.queues[QUEUE_DESTROY], user.queues[QUEUE_DESTROY].nodes
    ensures Prepared(user, kernel, others) && HoldsNone(user) && Consistent(LifeOf(user), WatchAll(phase, events))
    ensures Outcome(LifeOf(user), events, err) == CreateAlone(old(LifeOf(user)), env, cleanUp)
    ensures Settled(log) && TakenBy(old(LifeOf(user)), env) <= log.taken
    ensures PoolsSized(user, events, log.taken)
    ensures old(user.chanUid) != BAD_CHAN || old(user.checkpoint) != NO_CHECKPOINT ==>
      unchanged(user.intBuffers, user.recBuffers)
    ensures PoolsPushed(user, events, log.sent)
    ensures forall n :: n in user.queues[QUEUE_CREATE].nodes ==> n in old(user.queues[QUEUE_CREATE].nodes) || fresh(n)
    ensures forall n :: n in user.queues[QUEUE_DESTROY].nodes ==> n in old(user.queues[QUEUE_DESTROY].nodes) || fresh(n)
    ensures kernel.d.fds == old(kernel.d.fds)
  {
    hide MailQueue.Valid, BufferPool.Valid, User.Valid, Accounted, Held, Create, Destroy, PushMails, IsAnswer,
      Consistent, Settled, DestroyLog, RequestMail, StatusIn, TakenBy, AfterDestroy, WatchAll, RunsOutOfMemory,
      DestroySucceeds, Sized, FeedbackIn, WordAt, PoolsPushed, HoldsNone;
    QueuesDiffer(user);
    CreateAloneConsistent(LifeOf(user), phase, env, cleanUp);
    err, status, events, log := CreateUnderLock(user, kernel, params, env, others, phase);
    if err == ENOMEM {
      NothingPushed(old(LifeOf(user)), phase, env);
      NothingPushedAtEnd(LifeOf(user), false, cleanUp);
      ghost var ignored, more, moreLog;
      ignored, more, moreLog := DestroyChannel(user, kernel, false, cleanUp, destroyed, others);
      events := events + more;
      JoinSettled(log, moreLog);
      log := Join(log, moreLog);
      NoPoolPushed(user, events, log.sent);
    }
  }
}
