/** The life of an encoder channel: creation that can stop half way and be resumed, destruction that can
    fail, and release of the user, as functions of how each outside action turns out. */
module ChannelLife {
  import opened MachineWords
  import opened Mails
  import opened MailQueues
  import opened BufferPools
  import opened Dispatch
  import opened Users

  const CHECKPOINT_ALLOCATE_BUFFERS: int := 1
  const CHECKPOINT_SEND_INTERMEDIATE_BUFFERS: int := 2
  const CHECKPOINT_SEND_REFERENCE_BUFFERS: int := 3

  const RELEASE_TRIES: nat := 10000

  datatype Errno = Fine | EINTR | EPERM | EAGAIN | EINVAL | ENOMEM

  datatype Feedback = Feedback(chan: u32, intCount: u32, intSize: u32, recCount: u32, recSize: u32)

  const NO_FEEDBACK := Feedback(0, 0, 0, 0, 0)

  /** An answer to a channel creation as the firmware sends it: all its words are there. */
  predicate IsAnswer(m: Mail)
  {
    HasWord(m, 10)
  }

  predicate AllAnswers(ms: seq<Mail>)
  {
    forall m :: m in ms ==> IsAnswer(m)
  }

  function FeedbackIn(m: Mail): (f: Feedback)
    requires IsAnswer(m)
  {
    Feedback(WordAt(m, 0), WordAt(m, 5), WordAt(m, 6), WordAt(m, 7), WordAt(m, 8))
  }

  /** The answer's words in the order of the firmware's structure. */
  function AnswerWords(f: Feedback, user: u32, options: u32, cores: u32, pps: u32, reserved: u32, error: u32)
    : (ws: seq<Word>)
  {
    [WordFor(f.chan), WordFor(user), WordFor(options), WordFor(cores), WordFor(pps),
     WordFor(f.intCount), WordFor(f.intSize), WordFor(f.recCount), WordFor(f.recSize), WordFor(reserved),
     WordFor(error)]
  }

  /** The driver reads from an answer what the firmware put there. */
  lemma AnswerRoundTrip(f: Feedback, user: u32, options: u32, cores: u32, pps: u32, reserved: u32, error: u32)
    ensures
      var m := RawMail(MSG_CREATE_CHANNEL, BytesOf(AnswerWords(f, user, options, cores, pps, reserved, error)));
      IsAnswer(m) && FeedbackIn(m) == f && Delivered(m) == m
  {
    hide BytesOf, WordFor, Value, Unpack, WordAt, Delivered;
    var ws := AnswerWords(f, user, options, cores, pps, reserved, error);
    var m := RawMail(MSG_CREATE_CHANNEL, BytesOf(ws));
    WordInMail(ws, m, 0, f.chan);
    WordInMail(ws, m, 5, f.intCount);
    WordInMail(ws, m, 6, f.intSize);
    WordInMail(ws, m, 7, f.recCount);
    WordInMail(ws, m, 8, f.recSize);
    DeliveryFidelity(m);
  }

  lemma WordInMail(ws: seq<Word>, m: Mail, k: nat, v: u32)
    requires m.body == BytesOf(ws) && k < |ws| && ws[k] == WordFor(v)
    ensures HasWord(m, k) && WordAt(m, k) == v
  {
    BytesOfAt(ws, k);
    ValueRoundTrip(v, ws[k]);
  }

  datatype PoolView = PoolView(held: nat, table: Table)

  const EMPTY_POOL := PoolView(0, NullTable)

  /** What matters of a user: its channel and checkpoint, its two pools, whether a table was freed twice, and
      the creation answers waiting in its queue. */
  datatype Life = Life(chan: int, checkpoint: int, interm: PoolView, recon: PoolView, doubleFreed: bool,
                       answers: seq<Mail>)

  const NEWBORN := Life(BAD_CHAN, NO_CHECKPOINT, EMPTY_POOL, EMPTY_POOL, false, [])

  datatype DestroyEnv = DestroyEnv(interruptAt: Option<nat>, sendOk: bool, answered: bool)

  /** `arrivals` are the answers that come in while the call sleeps. */
  datatype CreateEnv = CreateEnv(interrupted: bool, sendCreate: bool, arrivals: seq<Mail>, wait: Wait,
                                 intAlloc: AllocEnv, recAlloc: AllocEnv, sendInt: bool, sendRec: bool)

  /** What the outside sees of a channel, in order. */
  datatype Event =
    | Opened(chan: int)
    | IntermediatePool
    | ReferencePool
    | AllocationFailed
    | PushedIntermediate(chan: int)
    | PushedReference(chan: int)
    | Closed(chan: int)

  datatype Outcome = Outcome(life: Life, events: seq<Event>, err: Errno)

  predicate IsCreated(s: Life)
  {
    s.chan != BAD_CHAN
  }

  predicate FullyCreated(s: Life)
  {
    IsCreated(s) && s.checkpoint == NO_CHECKPOINT
  }

  function AllocView(n: int, env: AllocEnv): (p: PoolView)
  {
    PoolView(if AllocSucceeds(n, env) then n else 0, TableAfter(n, env))
  }

  function FreePools(s: Life): (t: Life)
  {
    s.(interm := EMPTY_POOL, recon := EMPTY_POOL,
       doubleFreed := s.doubleFreed || s.interm.table.FreedTable? || s.recon.table.FreedTable?)
  }

  /** Whether a destruction that starts on a created channel goes through. */
  predicate DestroySucceeds(quiet: bool, env: DestroyEnv)
  {
    (env.interruptAt.Some? ==> env.interruptAt.value >= OPS) && env.sendOk && (quiet || env.answered)
  }

  function Destroy(s: Life, quiet: bool, env: DestroyEnv): (o: Outcome)
  {
    if !IsCreated(s) then Outcome(s, [], EPERM)
    else if env.interruptAt.Some? && env.interruptAt.value < OPS then Outcome(s, [], EINTR)
    else if !env.sendOk then Outcome(s, [], EAGAIN)
    else if !quiet && !env.answered then Outcome(s, [], EINTR)
    else Outcome(FreePools(s.(chan := BAD_CHAN, checkpoint := NO_CHECKPOINT)), [Closed(s.chan)], Fine)
  }

  /** Sends the parameters and adopts the oldest answer in the queue. */
  function TryToCreate(s: Life, env: CreateEnv): (r: (Outcome, Feedback))
    requires AllAnswers(s.answers + env.arrivals)
  {
    var queue := s.answers + env.arrivals;
    if !env.sendCreate then (Outcome(s, [], EAGAIN), NO_FEEDBACK)
    else if queue == [] then (Outcome(s, [], if env.wait.Interrupted? then EINTR else EINVAL), NO_FEEDBACK)
    else
      var f, t := FeedbackIn(queue[0]), s.(answers := queue[1..]);
      if f.chan == BAD_CHAN then (Outcome(t, [], EINVAL), f)
      else (Outcome(t.(chan := ToInt32(f.chan)), [Opened(ToInt32(f.chan))], Fine), f)
  }

  /** The two pools of a feedback; the second is not tried when the first fails. */
  function AllocateBuffers(s: Life, f: Feedback, env: CreateEnv): (r: (Outcome, bool))
  {
    var ip := AllocView(ToInt32(f.intCount), env.intAlloc);
    if !AllocSucceeds(ToInt32(f.intCount), env.intAlloc) then
      (Outcome(s.(interm := ip), [AllocationFailed], ENOMEM), false)
    else
      var rp := AllocView(ToInt32(f.recCount), env.recAlloc);
      var t := s.(interm := ip, recon := rp);
      if !AllocSucceeds(ToInt32(f.recCount), env.recAlloc) then
        (Outcome(t, [IntermediatePool, AllocationFailed], ENOMEM), false)
      else (Outcome(t, [IntermediatePool, ReferencePool], Fine), true)
  }

  /** The pushes that are still missing, each only after the one before it. */
  function Push(s: Life, env: CreateEnv): (o: Outcome)
  {
    if s.checkpoint == CHECKPOINT_SEND_INTERMEDIATE_BUFFERS then
      if !env.sendInt then Outcome(s, [], EAGAIN)
      else
        var o := PushReference(s.(checkpoint := CHECKPOINT_SEND_REFERENCE_BUFFERS), env);
        o.(events := [PushedIntermediate(s.chan)] + o.events)
    else PushReference(s, env)
  }

  function PushReference(s: Life, env: CreateEnv): (o: Outcome)
  {
    if s.checkpoint == CHECKPOINT_SEND_REFERENCE_BUFFERS then
      if !env.sendRec then Outcome(s, [], EAGAIN)
      else Outcome(s.(checkpoint := NO_CHECKPOINT), [PushedReference(s.chan)], Fine)
    else Outcome(s, [], Fine)
  }

  /** From the allocation checkpoint on. After a failed allocation the checkpoint is cleared and the channel is left
      for the clean-up, which the call owes: it destroys the channel, but only after the lock was given back. */
  function Finish(s: Life, f: Feedback, env: CreateEnv): (o: Outcome)
  {
    if s.checkpoint == CHECKPOINT_ALLOCATE_BUFFERS then
      var (a, done) := AllocateBuffers(s, f, env);
      if !done then Outcome(a.life.(checkpoint := NO_CHECKPOINT), a.events, a.err)
      else
        var p := Push(a.life.(checkpoint := CHECKPOINT_SEND_INTERMEDIATE_BUFFERS), env);
        p.(events := a.events + p.events)
    else Push(s, env)
  }

  /** Whether a call gets as far as asking the firmware for a channel. */
  predicate Requests(s: Life, env: CreateEnv)
  {
    !env.interrupted && !FullyCreated(s) && s.checkpoint == NO_CHECKPOINT && env.sendCreate
  }

  /** A creation while it holds its lock. It owes a clean-up exactly if it ends with ENOMEM. */
  function Create(s: Life, env: CreateEnv): (o: Outcome)
    requires AllAnswers(s.answers + env.arrivals)
  {
    if env.interrupted then Outcome(s, [], EINTR)
    else if FullyCreated(s) then Outcome(s, [], EPERM)
    else if s.checkpoint == NO_CHECKPOINT then
      var (t, f) := TryToCreate(s, env);
      if t.err != Fine then t
      else
        var o := Finish(t.life.(checkpoint := CHECKPOINT_ALLOCATE_BUFFERS), f, env);
        o.(events := t.events + o.events)
    else Finish(s, NO_FEEDBACK, env)
  }

  /** A creation and its clean-up, when nobody comes between the two. */
  function CreateAlone(s: Life, env: CreateEnv, cleanUp: DestroyEnv): (o: Outcome)
    requires AllAnswers(s.answers + env.arrivals)
  {
    var o := Create(s, env);
    if o.err != ENOMEM then o
    else
      var d := Destroy(o.life, false, cleanUp);
      Outcome(d.life, o.events + d.events, ENOMEM)
  }

  /** Tries to destroy the channel until it works or the tries are used up. */
  function DestroyRetry(s: Life, envs: nat -> DestroyEnv, tries: nat): (o: Outcome)
    decreases RELEASE_TRIES - tries
  {
    if tries >= RELEASE_TRIES then Outcome(s, [], EINTR)
    else
      var o := Destroy(s, true, envs(tries));
      if o.err == Fine then o else DestroyRetry(o.life, envs, tries + 1)
  }

  /** Release: the channel's resources are freed even if the channel could not be destroyed. */
  function Release(s: Life, envs: nat -> DestroyEnv): (o: Outcome)
  {
    if IsCreated(s) then
      var o := DestroyRetry(s, envs, 0);
      o.(life := FreePools(o.life))
    else Outcome(s, [], Fine)
  }

  // ---- An independent referee of the event stream ---------------------------------------------------

  datatype Phase =
    | Absent
    | Announced(chan: int)
    | OnePool(chan: int)
    | BothPools(chan: int)
    | Half(chan: int)
    | Complete(chan: int)
    | Abandoned(chan: int)
    | Broken

  /** The only order in which a channel's events may come, each at most once per channel. */
  function Watch(p: Phase, e: Event): (q: Phase)
  {
    match (p, e)
    case (Absent, Opened(c)) => Announced(c)
    case (Announced(c), IntermediatePool) => OnePool(c)
    case (OnePool(c), ReferencePool) => BothPools(c)
    case (BothPools(c), PushedIntermediate(d)) => if c == d then Half(c) else Broken
    case (Half(c), PushedReference(d)) => if c == d then Complete(c) else Broken
    case (Announced(c), AllocationFailed) => Abandoned(c)
    case (OnePool(c), AllocationFailed) => Abandoned(c)
    case (Absent, _) => Broken
    case (Broken, _) => Broken
    case (_, Closed(d)) => if p.chan == d then Absent else Broken
    case _ => Broken
  }

  function WatchAll(p: Phase, es: seq<Event>): (q: Phase)
    decreases |es|
  {
    if es == [] then p else WatchAll(Watch(p, es[0]), es[1..])
  }

  lemma {:induction false} WatchConcat(p: Phase, a: seq<Event>, b: seq<Event>)
    ensures WatchAll(p, a + b) == WatchAll(WatchAll(p, a), b)
    decreases |a|
  {
    if a == [] {
      assert a + b == b;
    } else {
      assert (a + b)[1..] == a[1..] + b;
      WatchConcat(Watch(p, a[0]), a[1..], b);
    }
  }

  lemma WatchOne(p: Phase, e: Event)
    ensures WatchAll(p, [e]) == Watch(p, e)
  {
    assert WatchAll(Watch(p, e), [e][1..]) == Watch(p, e);
  }

  lemma WatchTwo(p: Phase, e: Event, f: Event)
    ensures WatchAll(p, [e, f]) == Watch(Watch(p, e), f)
  {
    assert [e, f] == [e] + [f];
    WatchConcat(p, [e], [f]);
    WatchOne(p, e);
    WatchOne(Watch(p, e), f);
  }

  predicate Lent(p: PoolView)
  {
    p.table.LiveTable?
  }

  /** What every call leaves behind: the state of the user says exactly how far the stream of events got. */
  ghost predicate Consistent(s: Life, p: Phase)
  {
    match p
    case Absent =>
      s.chan == BAD_CHAN && s.checkpoint == NO_CHECKPOINT && s.interm == EMPTY_POOL && s.recon == EMPTY_POOL
    case BothPools(c) =>
      s.chan == c != BAD_CHAN && s.checkpoint == CHECKPOINT_SEND_INTERMEDIATE_BUFFERS && Lent(s.interm) && Lent(s.recon)
    case Half(c) =>
      s.chan == c != BAD_CHAN && s.checkpoint == CHECKPOINT_SEND_REFERENCE_BUFFERS && Lent(s.interm) && Lent(s.recon)
    case Complete(c) => s.chan == c != BAD_CHAN && s.checkpoint == NO_CHECKPOINT && Lent(s.interm) && Lent(s.recon)
    case Abandoned(c) => s.chan == c != BAD_CHAN && s.checkpoint == NO_CHECKPOINT && !(Lent(s.interm) && Lent(s.recon))
    case _ => false
  }

  /** At every call boundary the checkpoint is none or one of the two push checkpoints. */
  lemma CheckpointAtRest(s: Life, p: Phase)
    requires Consistent(s, p)
    ensures s.checkpoint in {NO_CHECKPOINT, CHECKPOINT_SEND_INTERMEDIATE_BUFFERS, CHECKPOINT_SEND_REFERENCE_BUFFERS}
    ensures s.checkpoint != NO_CHECKPOINT <==> p.BothPools? || p.Half?
    ensures s.chan == BAD_CHAN <==> p == Absent
    ensures FullyCreated(s) <==> p.Complete? || p.Abandoned?
  {
  }

  lemma DestroyConsistent(s: Life, p: Phase, quiet: bool, env: DestroyEnv)
    requires Consistent(s, p)
    ensures
      var o := Destroy(s, quiet, env);
      Consistent(o.life, WatchAll(p, o.events))
      && (o.err == Fine <==> IsCreated(s) && DestroySucceeds(quiet, env))
      && (o.err == Fine ==> WatchAll(p, o.events) == Absent)
      && (o.err != Fine ==> o.life == s && o.events == [])
  {
    WatchOne(p, Closed(s.chan));
  }

  lemma PushConsistent(s: Life, p: Phase, env: CreateEnv)
    requires Consistent(s, p) && (p.BothPools? || p.Half?)
    ensures
      var o := Push(s, env);
      Consistent(o.life, WatchAll(p, o.events)) && !WatchAll(p, o.events).Abandoned? && o.life.chan == s.chan
      && (o.err == Fine <==> WatchAll(p, o.events).Complete?)
      && (o.err == Fine <==> (p.BothPools? ==> env.sendInt) && env.sendRec)
  {
    WatchTwo(p, PushedIntermediate(s.chan), PushedReference(s.chan));
    WatchOne(p, PushedIntermediate(s.chan));
    WatchOne(p, PushedReference(s.chan));
    assert [PushedIntermediate(s.chan)] + [] == [PushedIntermediate(s.chan)];
    assert [PushedIntermediate(s.chan)] + [PushedReference(s.chan)]
        == [PushedIntermediate(s.chan), PushedReference(s.chan)];
  }

  /** Whether both pools that a feedback asks for can be had. */
  predicate PoolsAvailable(f: Feedback, env: CreateEnv)
  {
    AllocSucceeds(ToInt32(f.intCount), env.intAlloc) && AllocSucceeds(ToInt32(f.recCount), env.recAlloc)
  }

  lemma FinishConsistent(s: Life, f: Feedback, env: CreateEnv)
    requires IsCreated(s) && s.checkpoint == CHECKPOINT_ALLOCATE_BUFFERS
    requires s.interm == EMPTY_POOL && s.recon == EMPTY_POOL
    ensures
      var o := Finish(s, f, env);
      var q := WatchAll(Announced(s.chan), o.events);
      Consistent(o.life, q)
      && (q.Abandoned? <==> !PoolsAvailable(f, env)) && (q.Abandoned? <==> o.err == ENOMEM)
      && (q.Complete? <==> PoolsAvailable(f, env) && env.sendInt && env.sendRec) && (q.Complete? <==> o.err == Fine)
  {
    hide AllocSucceeds;
    var p := Announced(s.chan);
    var (a, done) := AllocateBuffers(s, f, env);
    WatchOne(p, AllocationFailed);
    WatchTwo(p, IntermediatePool, AllocationFailed);
    WatchTwo(p, IntermediatePool, ReferencePool);
    TablesOf(ToInt32(f.intCount), env.intAlloc);
    TablesOf(ToInt32(f.recCount), env.recAlloc);
    if done {
      var t := a.life.(checkpoint := CHECKPOINT_SEND_INTERMEDIATE_BUFFERS);
      PushConsistent(t, WatchAll(p, a.events), env);
      WatchConcat(p, a.events, Push(t, env).events);
    }
  }

  lemma TablesOf(n: int, env: AllocEnv)
    ensures TableAfter(n, env).LiveTable? <==> AllocSucceeds(n, env)
  {
  }

  /** Whether this call got as far as adopting an answer that names a channel. */
  predicate Adopts(s: Life, env: CreateEnv)
    requires AllAnswers(s.answers + env.arrivals)
  {
    Requests(s, env) && s.answers + env.arrivals != [] && FeedbackIn((s.answers + env.arrivals)[0]).chan != BAD_CHAN
  }

  /** Whether this call adopted a channel whose pools cannot be had. */
  predicate RunsOutOfMemory(s: Life, env: CreateEnv)
    requires AllAnswers(s.answers + env.arrivals)
  {
    Adopts(s, env) && !PoolsAvailable(FeedbackIn((s.answers + env.arrivals)[0]), env)
  }

  /** Creation never repeats or skips a step, however often it is interrupted and resumed. When it gives its lock
      back, a channel is left half made and looking fully made exactly when the pools of the answer adopted in this
      call cannot be had, or when it already was; and then, in the former case only, the call owes a clean-up. */
  lemma CreateConsistent(s: Life, p: Phase, env: CreateEnv)
    requires Consistent(s, p)
    requires AllAnswers(s.answers + env.arrivals)
    ensures
      var o := Create(s, env);
      var q := WatchAll(p, o.events);
      Consistent(o.life, q)
      && (q.Abandoned? <==> p.Abandoned? || RunsOutOfMemory(s, env))
      && (o.err == ENOMEM <==> RunsOutOfMemory(s, env))
      && (o.err == Fine ==> q.Complete? && !p.Complete?)
  {
    hide AllocSucceeds, IsAnswer, FeedbackIn, AllAnswers;
    if !env.interrupted && !FullyCreated(s) {
      if s.checkpoint == NO_CHECKPOINT {
        var (t, f) := TryToCreate(s, env);
        if t.err == Fine {
          var u := t.life.(checkpoint := CHECKPOINT_ALLOCATE_BUFFERS);
          ChanIsReal(f.chan);
          FinishConsistent(u, f, env);
          WatchOne(p, Opened(u.chan));
          WatchConcat(p, t.events, Finish(u, f, env).events);
        }
      } else {
        PushConsistent(s, p, env);
      }
    }
  }

  /** Why a creation fails: the lock was not had or the sleep interrupted, there is a channel, no answer or no channel
      in it, a pool could not be had, or a mail that was due did not go out. */
  lemma CreateFails(s: Life, p: Phase, env: CreateEnv)
    requires Consistent(s, p)
    requires AllAnswers(s.answers + env.arrivals)
    ensures s.answers + env.arrivals != [] ==> IsAnswer((s.answers + env.arrivals)[0])
    ensures
      var err, queue := Create(s, env).err, s.answers + env.arrivals;
      var asked := !env.interrupted && s.chan == BAD_CHAN && env.sendCreate;
      var granted := asked && queue != [] && WordAt(queue[0], 0) != BAD_CHAN;
      var pools := granted && AllocSucceeds(ToInt32(WordAt(queue[0], 5)), env.intAlloc)
                   && AllocSucceeds(ToInt32(WordAt(queue[0], 7)), env.recAlloc);
      (err == EINTR <==> env.interrupted || (asked && queue == [] && env.wait.Interrupted?))
      && (err == EPERM <==> !env.interrupted && s.chan != BAD_CHAN && s.checkpoint == NO_CHECKPOINT)
      && (err == EINVAL <==> asked && if queue == [] then !env.wait.Interrupted? else !granted)
      && (err == ENOMEM <==> granted && !pools)
      && (err == EAGAIN <==>
            (!env.interrupted && s.chan == BAD_CHAN && !env.sendCreate)
            || ((pools || (!env.interrupted && s.checkpoint == CHECKPOINT_SEND_INTERMEDIATE_BUFFERS))
                && !(env.sendInt && env.sendRec))
            || (!env.interrupted && s.checkpoint == CHECKPOINT_SEND_REFERENCE_BUFFERS && !env.sendRec))
  {
    hide AllocSucceeds, WordAt;
    CheckpointAtRest(s, p);
    assert s.answers + env.arrivals != [] ==> (s.answers + env.arrivals)[0] in s.answers + env.arrivals;
  }

  lemma ChanIsReal(chan: u32)
    ensures ToInt32(chan) == BAD_CHAN <==> chan == BAD_CHAN
  {
  }

  /** Run without anybody in between, a creation leaves a half-made channel that looks fully made exactly when its
      pools cannot be had and the clean-up fails as well, or when it already was. */
  lemma CreateAloneConsistent(s: Life, p: Phase, env: CreateEnv, cleanUp: DestroyEnv)
    requires Consistent(s, p)
    requires AllAnswers(s.answers + env.arrivals)
    ensures
      var o := CreateAlone(s, env, cleanUp);
      var q := WatchAll(p, o.events);
      Consistent(o.life, q)
      && (q.Abandoned? <==> p.Abandoned? || (RunsOutOfMemory(s, env) && !DestroySucceeds(false, cleanUp)))
      && o.err == Create(s, env).err
  {
    hide Create, Destroy, RunsOutOfMemory, AllAnswers, DestroySucceeds;
    CreateConsistent(s, p, env);
    var o := Create(s, env);
    if o.err == ENOMEM {
      var q := WatchAll(p, o.events);
      CheckpointAtRest(o.life, q);
      DestroyConsistent(o.life, q, false, cleanUp);
      WatchConcat(p, o.events, Destroy(o.life, false, cleanUp).events);
      AbandonedOnlyNew(s, p, env);
    }
  }

  lemma AbandonedOnlyNew(s: Life, p: Phase, env: CreateEnv)
    requires Consistent(s, p)
    requires AllAnswers(s.answers + env.arrivals)
    ensures RunsOutOfMemory(s, env) ==> p == Absent
  {
    CheckpointAtRest(s, p);
  }

  /** Buffers are only ever allocated from an answer adopted in the same call: a resumed call, whose feedback is
      all zeros, pushes what it has. */
  lemma ResumeNeverAllocates(s: Life, p: Phase, env: CreateEnv)
    requires Consistent(s, p) && s.checkpoint != NO_CHECKPOINT
    requires AllAnswers(s.answers + env.arrivals)
    ensures IntermediatePool !in Create(s, env).events && ReferencePool !in Create(s, env).events
    ensures Create(s, env).life.interm == s.interm && Create(s, env).life.recon == s.recon
    ensures Create(s, env).life.answers == s.answers
  {
    CheckpointAtRest(s, p);
  }

  // ---- Runs -----------------------------------------------------------------------------------------

  /** What the outside sees of a user is a sequence of these. A clean-up that a creation owes is one of the
      destructions: any other calls may come before it. */
  datatype Call = CallCreate(env: CreateEnv) | CallDestroy(quiet: bool, denv: DestroyEnv) | Answer(m: Mail)

  /** The firmware's answers are well formed, and only a call that asked for one sleeps. */
  predicate Acceptable(s: Life, c: Call)
  {
    match c
    case CallCreate(env) => AllAnswers(s.answers + env.arrivals) && (!Requests(s, env) ==> env.arrivals == [])
    case CallDestroy(_, _) => true
    case Answer(m) => IsAnswer(m)
  }

  function Invoke(s: Life, c: Call): (o: Outcome)
    requires Acceptable(s, c)
  {
    match c
    case CallCreate(env) => Create(s, env)
    case CallDestroy(quiet, env) => Destroy(s, quiet, env)
    case Answer(m) => Outcome(s.(answers := s.answers + [m]), [], Fine)
  }

  ghost predicate LegalCalls(s: Life, cs: seq<Call>)
    decreases |cs|
  {
    cs == [] || (Acceptable(s, cs[0]) && LegalCalls(Invoke(s, cs[0]).life, cs[1..]))
  }

  ghost function RunCalls(s: Life, cs: seq<Call>): (r: (Life, seq<Event>))
    requires LegalCalls(s, cs)
    decreases |cs|
  {
    if cs == [] then (s, [])
    else
      var o := Invoke(s, cs[0]);
      var (t, es) := RunCalls(o.life, cs[1..]);
      (t, o.events + es)
  }

  lemma InvokeConsistent(s: Life, p: Phase, c: Call)
    requires Consistent(s, p) && Acceptable(s, c)
    ensures Consistent(Invoke(s, c).life, WatchAll(p, Invoke(s, c).events))
  {
    hide Create, Destroy, AllAnswers, IsAnswer;
    match c {
      case CallCreate(env) => CreateConsistent(s, p, env);
      case CallDestroy(quiet, env) => DestroyConsistent(s, p, quiet, env);
      case Answer(m) =>
    }
  }

  /** Over every run of create and destroy calls, with every outcome of every send, wait, allocation and
      lock, the events of each channel come in order and once, and the user's state says where they stand. */
  lemma {:induction false} EveryRunInOrder(s: Life, p: Phase, cs: seq<Call>)
    requires Consistent(s, p) && LegalCalls(s, cs)
    ensures
      var (t, es) := RunCalls(s, cs);
      Consistent(t, WatchAll(p, es)) && WatchAll(p, es) != Broken
    decreases |cs|
  {
    hide Invoke, Acceptable;
    if cs != [] {
      var o := Invoke(s, cs[0]);
      InvokeConsistent(s, p, cs[0]);
      EveryRunInOrder(o.life, WatchAll(p, o.events), cs[1..]);
      WatchConcat(p, o.events, RunCalls(o.life, cs[1..]).1);
    }
  }

  /** At every call boundary of every run no allocation is pending, and a user without a channel has neither a
      checkpoint nor a buffer. */
  lemma CheckpointInEveryRun(cs: seq<Call>)
    requires LegalCalls(NEWBORN, cs)
    ensures
      var s := RunCalls(NEWBORN, cs).0;
      s.checkpoint in {NO_CHECKPOINT, CHECKPOINT_SEND_INTERMEDIATE_BUFFERS, CHECKPOINT_SEND_REFERENCE_BUFFERS}
      && (s.chan == BAD_CHAN ==> s.checkpoint == NO_CHECKPOINT && s.interm == EMPTY_POOL && s.recon == EMPTY_POOL)
  {
    hide RunCalls, LegalCalls, WatchAll;
    EveryRunInOrder(NEWBORN, Absent, cs);
    CheckpointAtRest(RunCalls(NEWBORN, cs).0, WatchAll(Absent, RunCalls(NEWBORN, cs).1));
  }

  predicate EndsWith(es: seq<Event>, last: seq<Event>)
  {
    |last| <= |es| && es[|es| - |last|..] == last
  }

  /** The events of the current channel that a phase stands for. */
  ghost predicate Told(es: seq<Event>, p: Phase)
  {
    match p
    case Announced(c) => EndsWith(es, [Opened(c)])
    case OnePool(c) => EndsWith(es, [Opened(c), IntermediatePool])
    case BothPools(c) => EndsWith(es, [Opened(c), IntermediatePool, ReferencePool])
    case Half(c) => EndsWith(es, [Opened(c), IntermediatePool, ReferencePool, PushedIntermediate(c)])
    case Complete(c) =>
      EndsWith(es, [Opened(c), IntermediatePool, ReferencePool, PushedIntermediate(c), PushedReference(c)])
    case Abandoned(c) =>
      EndsWith(es, [Opened(c), AllocationFailed]) || EndsWith(es, [Opened(c), IntermediatePool, AllocationFailed])
    case _ => true
  }

  lemma EndsWithMore(es: seq<Event>, last: seq<Event>, e: Event)
    requires EndsWith(es, last)
    ensures EndsWith(es + [e], last + [e])
  {
  }

  lemma EndsWithOne(es: seq<Event>, e: Event)
    ensures EndsWith(es + [e], [e])
  {
  }

  lemma ToldMore(es: seq<Event>, p: Phase, e: Event)
    requires Told(es, p)
    ensures Told(es + [e], Watch(p, e))
  {
    hide EndsWith;
    match p {
      case Absent => EndsWithOne(es, e);
      case Announced(c) =>
        EndsWithMore(es, [Opened(c)], e);
        assert [Opened(c)] + [e] == [Opened(c), e];
      case OnePool(c) =>
        EndsWithMore(es, [Opened(c), IntermediatePool], e);
        assert [Opened(c), IntermediatePool] + [e] == [Opened(c), IntermediatePool, e];
      case BothPools(c) =>
        EndsWithMore(es, [Opened(c), IntermediatePool, ReferencePool], e);
        assert [Opened(c), IntermediatePool, ReferencePool] + [e] == [Opened(c), IntermediatePool, ReferencePool, e];
      case Half(c) =>
        var last := [Opened(c), IntermediatePool, ReferencePool, PushedIntermediate(c)];
        EndsWithMore(es, last, e);
        assert last + [e] == [Opened(c), IntermediatePool, ReferencePool, PushedIntermediate(c), e];
      case _ =>
    }
  }

  lemma {:induction false} PhaseTells(es: seq<Event>)
    ensures Told(es, WatchAll(Absent, es))
    decreases |es|
  {
    hide EndsWith;
    if es != [] {
      var n := |es| - 1;
      assert es == es[..n] + [es[n]];
      PhaseTells(es[..n]);
      WatchConcat(Absent, es[..n], [es[n]]);
      WatchOne(WatchAll(Absent, es[..n]), es[n]);
      ToldMore(es[..n], WatchAll(Absent, es[..n]), es[n]);
    }
  }

  /** A user whose channel looks fully created got the answer, its two pools and its two pushes, in this
      order and with nothing in between; or the pools could not be had and the channel was left as it was. */
  lemma FullyCreatedHistory(cs: seq<Call>)
    requires LegalCalls(NEWBORN, cs)
    ensures
      var (t, es) := RunCalls(NEWBORN, cs);
      FullyCreated(t) ==>
        EndsWith(es, [Opened(t.chan), IntermediatePool, ReferencePool, PushedIntermediate(t.chan),
                      PushedReference(t.chan)])
        || EndsWith(es, [Opened(t.chan), AllocationFailed])
        || EndsWith(es, [Opened(t.chan), IntermediatePool, AllocationFailed])
  {
    hide RunCalls, LegalCalls, WatchAll, EndsWith;
    EveryRunInOrder(NEWBORN, Absent, cs);
    PhaseTells(RunCalls(NEWBORN, cs).1);
  }

  lemma ReleaseEmpties(s: Life, p: Phase, envs: nat -> DestroyEnv)
    requires Consistent(s, p)
    ensures Release(s, envs).life.interm == EMPTY_POOL && Release(s, envs).life.recon == EMPTY_POOL
  {
    hide DestroyRetry;
    CheckpointAtRest(s, p);
  }

  /** A user that was never fully destroyed still leaves no buffer behind: after any run, release ends with
      both pools empty, whether or not any of its tries to destroy the channel works. */
  lemma ReleaseEmptiesPools(cs: seq<Call>, envs: nat -> DestroyEnv)
    requires LegalCalls(NEWBORN, cs)
    ensures
      var t := Release(RunCalls(NEWBORN, cs).0, envs).life;
      t.interm == EMPTY_POOL && t.recon == EMPTY_POOL
  {
    hide DestroyRetry, RunCalls, LegalCalls;
    EveryRunInOrder(NEWBORN, Absent, cs);
    ReleaseEmpties(RunCalls(NEWBORN, cs).0, WatchAll(Absent, RunCalls(NEWBORN, cs).1), envs);
  }

  /** Release destroys the channel exactly when one of its tries goes through. */
  lemma {:induction false} RetrySucceeds(s: Life, envs: nat -> DestroyEnv, tries: nat)
    requires IsCreated(s) && tries <= 10000
    ensures DestroyRetry(s, envs, tries).err == Fine
      <==> exists k: nat :: tries <= k < 10000 && DestroySucceeds(true, envs(k))
    ensures DestroyRetry(s, envs, tries).err != Fine ==>
      DestroyRetry(s, envs, tries).life == s && DestroyRetry(s, envs, tries).events == []
    ensures DestroyRetry(s, envs, tries).err == Fine ==>
      DestroyRetry(s, envs, tries).life.chan == BAD_CHAN && DestroyRetry(s, envs, tries).events == [Closed(s.chan)]
    decreases RELEASE_TRIES - tries
  {
    if tries < RELEASE_TRIES && Destroy(s, true, envs(tries)).err != Fine {
      RetrySucceeds(s, envs, tries + 1);
    }
  }
}
