/** What goes wrong over whole histories of a channel, and exactly when: tables freed twice, clean-ups that hit
    somebody else's channel, and answers that belong to an earlier request. */
module ChannelRuns {
  import opened MachineWords
  import opened Mails
  import opened MailQueues
  import opened BufferPools
  import opened Dispatch
  import opened Users
  import opened ChannelLife

  // ---- Tables freed twice ---------------------------------------------------------------------------

  /** The handle table of a pool of this size cannot be had, while its buffer table can. */
  predicate MissesHandles(n: int, env: AllocEnv)
  {
    TableFits(n) && env.buffersTable && !env.handlesTable
  }

  /** A call adopts a channel and then fails to get the handle table of a pool that it comes to. */
  predicate LosesTable(s: Life, env: CreateEnv)
    requires AllAnswers(s.answers + env.arrivals)
  {
    Adopts(s, env) &&
    var f := FeedbackIn((s.answers + env.arrivals)[0]);
    MissesHandles(ToInt32(f.intCount), env.intAlloc)
    || (AllocSucceeds(ToInt32(f.intCount), env.intAlloc) && MissesHandles(ToInt32(f.recCount), env.recAlloc))
  }

  /** Some call of the run does so. */
  ghost predicate TableLost(s: Life, cs: seq<Call>)
    requires LegalCalls(s, cs)
    decreases |cs|
  {
    cs != []
    && ((cs[0].CallCreate? && LosesTable(s, cs[0].env)) || TableLost(Invoke(s, cs[0]).life, cs[1..]))
  }

  /** A table was freed twice, or a pool keeps the address of a freed one. */
  predicate Tainted(s: Life)
  {
    s.doubleFreed || s.interm.table.FreedTable? || s.recon.table.FreedTable?
  }

  lemma FinishTaints(s: Life, f: Feedback, env: CreateEnv)
    requires IsCreated(s) && s.checkpoint == CHECKPOINT_ALLOCATE_BUFFERS
    requires s.interm == EMPTY_POOL && s.recon == EMPTY_POOL
    ensures Tainted(Finish(s, f, env).life)
      <==> s.doubleFreed || MissesHandles(ToInt32(f.intCount), env.intAlloc)
           || (AllocSucceeds(ToInt32(f.intCount), env.intAlloc) && MissesHandles(ToInt32(f.recCount), env.recAlloc))
  {
    hide SlotsMade;
  }

  lemma CreateTaints(s: Life, p: Phase, env: CreateEnv)
    requires Consistent(s, p) && AllAnswers(s.answers + env.arrivals)
    ensures Tainted(Create(s, env).life) <==> Tainted(s) || LosesTable(s, env)
  {
    hide SlotsMade, IsAnswer, FeedbackIn, AllAnswers, Finish, MissesHandles, AllocSucceeds;
    CheckpointAtRest(s, p);
    if Requests(s, env) && s.answers + env.arrivals != [] {
      var (t, f) := TryToCreate(s, env);
      if t.err == Fine {
        ChanIsReal(f.chan);
        FinishTaints(t.life.(checkpoint := CHECKPOINT_ALLOCATE_BUFFERS), f, env);
      } else {
        ChanIsReal(f.chan);
      }
    } else if !env.interrupted && s.checkpoint != NO_CHECKPOINT {
      PushKeepsPools(s, env);
    }
  }

  lemma PushKeepsPools(s: Life, env: CreateEnv)
    requires s.checkpoint != CHECKPOINT_ALLOCATE_BUFFERS
    ensures Finish(s, NO_FEEDBACK, env).life.interm == s.interm && Finish(s, NO_FEEDBACK, env).life.recon == s.recon
    ensures Finish(s, NO_FEEDBACK, env).life.doubleFreed == s.doubleFreed
  {
  }

  lemma InvokeTaints(s: Life, p: Phase, c: Call)
    requires Consistent(s, p) && Acceptable(s, c)
    ensures Tainted(Invoke(s, c).life) <==> Tainted(s) || (c.CallCreate? && LosesTable(s, c.env))
  {
    hide Create, LosesTable, AllAnswers, IsAnswer;
    if c.CallCreate? {
      CreateTaints(s, p, c.env);
    }
  }

  lemma {:induction false} RunTaints(s: Life, p: Phase, cs: seq<Call>)
    requires Consistent(s, p) && LegalCalls(s, cs)
    ensures Tainted(RunCalls(s, cs).0) <==> Tainted(s) || TableLost(s, cs)
    decreases |cs|
  {
    hide Invoke, Acceptable, Tainted, LosesTable;
    if cs != [] {
      var o := Invoke(s, cs[0]);
      InvokeTaints(s, p, cs[0]);
      InvokeConsistent(s, p, cs[0]);
      RunTaints(o.life, WatchAll(p, o.events), cs[1..]);
    }
  }

  lemma {:induction false} RetryFreesTainted(s: Life, envs: nat -> DestroyEnv, tries: nat)
    ensures FreePools(DestroyRetry(s, envs, tries).life).doubleFreed == Tainted(s)
    decreases RELEASE_TRIES - tries
  {
    if tries < RELEASE_TRIES && Destroy(s, true, envs(tries)).err != Fine {
      RetryFreesTainted(s, envs, tries + 1);
    }
  }

  lemma ReleaseFreesTainted(s: Life, p: Phase, envs: nat -> DestroyEnv)
    requires Consistent(s, p)
    ensures Release(s, envs).life.doubleFreed == Tainted(s)
  {
    hide DestroyRetry;
    CheckpointAtRest(s, p);
    RetryFreesTainted(s, envs, 0);
  }

  /** A user that is opened, used in any way and released has a table freed twice exactly when some creation adopted
      a channel and could not get the handle table of a pool. Nothing that comes later can avoid it. */
  lemma FreedTwiceExactly(cs: seq<Call>, envs: nat -> DestroyEnv)
    requires LegalCalls(NEWBORN, cs)
    ensures Release(RunCalls(NEWBORN, cs).0, envs).life.doubleFreed <==> TableLost(NEWBORN, cs)
  {
    hide RunCalls, LegalCalls, Release, WatchAll;
    EveryRunInOrder(NEWBORN, Absent, cs);
    RunTaints(NEWBORN, Absent, cs);
    ReleaseFreesTainted(RunCalls(NEWBORN, cs).0, WatchAll(Absent, RunCalls(NEWBORN, cs).1), envs);
  }

  // ---- Clean-ups that come late ---------------------------------------------------------------------

  predicate Names(p: Phase)
  {
    !p.Absent? && !p.Broken?
  }

  predicate Opens(es: seq<Event>)
  {
    exists e :: e in es && e.Opened?
  }

  predicate Closes(es: seq<Event>)
  {
    exists e :: e in es && e.Closed?
  }

  lemma FirstOrRest(es: seq<Event>)
    requires es != []
    ensures Opens(es) <==> es[0].Opened? || Opens(es[1..])
    ensures Closes(es) <==> es[0].Closed? || Closes(es[1..])
  {
    assert es == [es[0]] + es[1..];
  }

  lemma {:induction false} BrokenStays(es: seq<Event>)
    ensures WatchAll(Broken, es) == Broken
    decreases |es|
  {
    if es != [] {
      BrokenStays(es[1..]);
    }
  }

  /** From a channel on, another one is opened exactly if this one was closed and there is one at the end; from no
      channel on, there is one at the end only if one was opened. */
  lemma {:induction false} OpensBetween(p: Phase, es: seq<Event>)
    requires WatchAll(p, es) != Broken
    ensures Names(p) && !Closes(es) ==> Names(WatchAll(p, es)) && !Opens(es)
    ensures Names(p) && Names(WatchAll(p, es)) && Closes(es) ==> Opens(es)
    ensures p.Absent? && Names(WatchAll(p, es)) ==> Opens(es)
    decreases |es|
  {
    hide Opens, Closes;
    if es != [] {
      FirstOrRest(es);
      BrokenStays(es[1..]);
      OpensBetween(Watch(p, es[0]), es[1..]);
    } else {
      NothingOpens();
    }
  }

  lemma NothingOpens()
    ensures !Opens([]) && !Closes([])
  {
  }

  /** A creation that owes a clean-up gives its lock back first, and any calls may come `between`. The clean-up then
      closes the channel of its own call exactly when it goes through and no destruction went through between; and it
      closes the channel of another call exactly when it goes through, one did, and a new channel is there. */
  lemma CleanUpClosesOwn(s: Life, p: Phase, env: CreateEnv, between: seq<Call>, cleanUp: DestroyEnv)
    requires Consistent(s, p) && AllAnswers(s.answers + env.arrivals) && Create(s, env).err == ENOMEM
    requires LegalCalls(Create(s, env).life, between)
    ensures
      var (t, es) := RunCalls(Create(s, env).life, between);
      var closed := Destroy(t, false, cleanUp).err == Fine;
      (closed && !Opens(es) <==> DestroySucceeds(false, cleanUp) && !Closes(es))
      && (closed && Opens(es) <==> DestroySucceeds(false, cleanUp) && Closes(es) && IsCreated(t))
  {
    hide Create, Destroy, DestroySucceeds, RunCalls, LegalCalls, Opens, Closes, AllAnswers, RunsOutOfMemory;
    var o := Create(s, env);
    var q := WatchAll(p, o.events);
    CreateConsistent(s, p, env);
    var (t, es) := RunCalls(o.life, between);
    EveryRunInOrder(o.life, q, between);
    OpensBetween(q, es);
    CheckpointAtRest(t, WatchAll(q, es));
    DestroyConsistent(t, WatchAll(q, es), false, cleanUp);
  }

  // ---- Answers and requests -------------------------------------------------------------------------

  /** A slot of the user table, over all the users that come to sit in it. The firmware knows a user by its slot, and
      answers the requests for channels of a slot in their order: `replies(k)` answers request number k. Of the answers,
      `arrived` have come and `gone` are gone again: taken by a creation, drained when a user left, or freed because
      nobody was there. `sent` requests have been made. */
  datatype Seat = Seat(user: Option<Life>, sent: nat, arrived: nat, gone: nat)

  const VACANT := Seat(None, 0, 0, 0)

  /** A user comes, makes or sees a call, or leaves; an answer may come while nobody is there. */
  datatype Turn = Enter | Act(c: Call) | Leave | Orphan

  function Slice(replies: nat -> Mail, from: nat, to: nat): (ms: seq<Mail>)
    requires from <= to
    ensures |ms| == to - from && forall k :: 0 <= k < |ms| ==> ms[k] == replies(from + k)
  {
    seq(to - from, k requires 0 <= k < to - from => replies(from + k))
  }

  predicate Asks(s: Seat, t: Turn)
  {
    t.Act? && t.c.CallCreate? && s.user.Some? && Requests(s.user.value, t.c.env)
  }

  /** A request goes unanswered in its own call: the wait is interrupted or times out. */
  predicate GivesUp(s: Seat, t: Turn)
  {
    Asks(s, t) && s.user.value.answers + t.c.env.arrivals == []
  }

  function Came(t: Turn): (n: nat)
  {
    match t
    case Orphan => 1
    case Act(CallCreate(env)) => |env.arrivals|
    case Act(Answer(_)) => 1
    case _ => 0
  }

  predicate Possible(s: Seat, t: Turn)
  {
    match t
    case Enter => s.user.None?
    case Orphan => s.user.None?
    case Leave => s.user.Some?
    case Act(c) => s.user.Some? && Acceptable(s.user.value, c)
  }

  /** A turn in which the firmware does what it should: it answers what it was asked, in order. */
  ghost predicate InTurn(replies: nat -> Mail, s: Seat, t: Turn)
  {
    Possible(s, t)
    && s.arrived + Came(t) <= s.sent + (if Asks(s, t) then 1 else 0)
    && (t.Act? && t.c.CallCreate? ==> t.c.env.arrivals == Slice(replies, s.arrived, s.arrived + Came(t)))
    && (t.Act? && t.c.Answer? ==> t.c.m == replies(s.arrived))
  }

  /** How many answers go unread in this turn: drained with the queue of a user that leaves, or freed as orphans. */
  function Discards(s: Seat, t: Turn): (n: int)
  {
    match t
    case Leave => s.arrived - s.gone
    case Orphan => 1
    case _ => 0
  }

  function Take(s: Seat, t: Turn): (r: Seat)
    requires Possible(s, t) && s.gone <= s.arrived
  {
    match t
    case Enter => s.(user := Some(NEWBORN))
    case Leave => s.(user := None, gone := s.arrived)
    case Orphan => s.(arrived := s.arrived + 1, gone := s.gone + 1)
    case Act(c) =>
      Seat(Some(Invoke(s.user.value, c).life), s.sent + (if Asks(s, t) then 1 else 0), s.arrived + Came(t),
           s.gone + (if Asks(s, t) && !GivesUp(s, t) then 1 else 0))
  }

  ghost predicate History(replies: nat -> Mail, s: Seat, ts: seq<Turn>)
    decreases |ts|
  {
    ts == [] || (InTurn(replies, s, ts[0]) && s.gone <= s.arrived && History(replies, Take(s, ts[0]), ts[1..]))
  }

  ghost function AfterTurns(replies: nat -> Mail, s: Seat, ts: seq<Turn>): (r: Seat)
    requires History(replies, s, ts)
    decreases |ts|
  {
    if ts == [] then s else AfterTurns(replies, Take(s, ts[0]), ts[1..])
  }

  /** How many creations of the history, of whichever user of the slot, made a request and gave up waiting. */
  ghost function GivenUp(replies: nat -> Mail, s: Seat, ts: seq<Turn>): (n: nat)
    requires History(replies, s, ts)
    decreases |ts|
  {
    if ts == [] then 0
    else (if GivesUp(s, ts[0]) then 1 else 0) + GivenUp(replies, Take(s, ts[0]), ts[1..])
  }

  /** How many answers of the history nobody read. */
  ghost function Discarded(replies: nat -> Mail, s: Seat, ts: seq<Turn>): (n: int)
    requires History(replies, s, ts)
    decreases |ts|
  {
    if ts == [] then 0 else Discards(s, ts[0]) + Discarded(replies, Take(s, ts[0]), ts[1..])
  }

  /** The queue of whoever sits in the slot holds the answers that came and are not gone. */
  ghost predicate InStep(replies: nat -> Mail, s: Seat)
  {
    s.gone <= s.arrived <= s.sent
    && match s.user
       case None => s.gone == s.arrived
       case Some(life) => life.answers == Slice(replies, s.gone, s.arrived)
  }

  lemma SliceJoin(replies: nat -> Mail, a: nat, b: nat, c: nat)
    requires a <= b <= c
    ensures Slice(replies, a, b) + Slice(replies, b, c) == Slice(replies, a, c)
    ensures a < c ==> Slice(replies, a, c)[1..] == Slice(replies, a + 1, c)
  {
  }

  lemma CreateTakes(s: Life, env: CreateEnv)
    requires AllAnswers(s.answers + env.arrivals) && (!Requests(s, env) ==> env.arrivals == [])
    ensures Create(s, env).life.answers
         == if Requests(s, env) && s.answers + env.arrivals != [] then (s.answers + env.arrivals)[1..]
            else s.answers + env.arrivals
  {
    hide AllAnswers, FeedbackIn, AllocSucceeds, TableAfter;
    assert s.answers + [] == s.answers;
  }

  lemma TakeInStep(replies: nat -> Mail, s: Seat, t: Turn)
    requires InStep(replies, s) && InTurn(replies, s, t)
    ensures InStep(replies, Take(s, t))
    ensures Take(s, t).sent - Take(s, t).gone == s.sent - s.gone + (if GivesUp(s, t) then 1 else 0) - Discards(s, t)
  {
    hide Create, AllAnswers, IsAnswer, Requests;
    match t {
      case Act(CallCreate(env)) =>
        CreateTakes(s.user.value, env);
        SliceJoin(replies, s.gone, s.arrived, s.arrived + Came(t));
      case Act(Answer(m)) => SliceJoin(replies, s.gone, s.arrived, s.arrived + 1);
      case Enter => assert Slice(replies, s.gone, s.arrived) == [];
      case _ =>
    }
  }

  lemma TurnIsPossible(replies: nat -> Mail, s: Seat, t: Turn)
    requires InTurn(replies, s, t)
    ensures Possible(s, t)
  {
  }

  lemma {:induction false} RunInStep(replies: nat -> Mail, s: Seat, ts: seq<Turn>)
    requires InStep(replies, s) && History(replies, s, ts)
    ensures
      var r := AfterTurns(replies, s, ts);
      InStep(replies, r)
      && r.sent - r.gone == s.sent - s.gone + GivenUp(replies, s, ts) - Discarded(replies, s, ts)
    decreases |ts|
  {
    hide InStep, InTurn, Discards, GivesUp;
    if ts != [] {
      TurnIsPossible(replies, s, ts[0]);
      TakeInStep(replies, s, ts[0]);
      RunInStep(replies, Take(s, ts[0]), ts[1..]);
    }
  }

  /** After any history of a slot, a creation that makes a request and gets an answer gets the answer to request number
      `gone`, and its own request has number `sent`. It gets its own answer exactly when as many answers went unread as
      requests were given up on, by whichever users of the slot: when each of those had its answer out of the way. */
  lemma OwnAnswerExactly(replies: nat -> Mail, ts: seq<Turn>, env: CreateEnv)
    requires History(replies, VACANT, ts)
    requires InTurn(replies, AfterTurns(replies, VACANT, ts), Act(CallCreate(env)))
    requires Adopts(AfterTurns(replies, VACANT, ts).user.value, env)
    ensures
      var s := AfterTurns(replies, VACANT, ts);
      var o := Create(s.user.value, env);
      o.events != [] && IsAnswer(replies(s.gone))
      && o.events[0] == Opened(ToInt32(FeedbackIn(replies(s.gone)).chan))
      && (s.gone == s.sent <==> GivenUp(replies, VACANT, ts) == Discarded(replies, VACANT, ts))
      && s.sent - s.gone == GivenUp(replies, VACANT, ts) - Discarded(replies, VACANT, ts) >= 0
  {
    hide History, AfterTurns, GivenUp, Discarded, AllocSucceeds, FeedbackIn, TableAfter, Finish;
    RunInStep(replies, VACANT, ts);
    var s := AfterTurns(replies, VACANT, ts);
    SliceJoin(replies, s.gone, s.arrived, s.arrived + |env.arrivals|);
    assert (s.user.value.answers + env.arrivals)[0] == replies(s.gone);
    var (t, f) := TryToCreate(s.user.value, env);
    assert Create(s.user.value, env).events[0] == t.events[0];
  }

  lemma {:induction false} NothingUnread(replies: nat -> Mail, s: Seat, ts: seq<Turn>)
    requires History(replies, s, ts) && forall t :: t in ts ==> t.Act?
    ensures Discarded(replies, s, ts) == 0
    decreases |ts|
  {
    hide InTurn;
    if ts != [] {
      TurnIsPossible(replies, s, ts[0]);
      assert ts[0] in ts;
      NothingUnread(replies, Take(s, ts[0]), ts[1..]);
    }
  }

  /** For as long as the first user of a slot sits there, that means: exactly when no creation gave up waiting. One that
      did leaves every later one an answer behind. */
  lemma OwnAnswerOfFirstUser(replies: nat -> Mail, ts: seq<Turn>, env: CreateEnv)
    requires History(replies, VACANT.(user := Some(NEWBORN)), ts) && forall t :: t in ts ==> t.Act?
    requires InTurn(replies, AfterTurns(replies, VACANT.(user := Some(NEWBORN)), ts), Act(CallCreate(env)))
    ensures
      var s := AfterTurns(replies, VACANT.(user := Some(NEWBORN)), ts);
      s.gone == s.sent <==> GivenUp(replies, VACANT.(user := Some(NEWBORN)), ts) == 0
  {
    hide History, AfterTurns, GivenUp, Discarded;
    var start := VACANT.(user := Some(NEWBORN));
    assert Slice(replies, 0, 0) == [];
    RunInStep(replies, start, ts);
    NothingUnread(replies, start, ts);
  }
}
