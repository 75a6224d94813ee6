/** What every kind of user does: sending, sleeping, destroying its channel and leaving, step by step as the driver
    does it. How a lock, a send, a sleep or an allocation turns out is a parameter, and so are the mails that arrive
    during a sleep. */
module UserOps {
  import opened MachineWords
  import opened Mails
  import opened MailQueues
  import opened DmaKernel
  import opened BufferPools
  import opened Dispatch
  import opened Users
  import opened Tallies
  import opened ChannelLife

  ghost function PoolViewOf(pool: BufferPool): (p: PoolView)
    reads pool
  {
    PoolView(|pool.handles|, pool.table)
  }

  /** The part of a user that the life of its channel is about. */
  ghost function LifeOf(user: User): (s: Life)
    requires |user.queues| == QUEUES
    reads user`chanUid, user`checkpoint, user.queues`contents, user.intBuffers, user.recBuffers
  {
    Life(user.chanUid, user.checkpoint, PoolViewOf(user.intBuffers), PoolViewOf(user.recBuffers),
         user.intBuffers.doubleFreed || user.recBuffers.doubleFreed, user.queues[QUEUE_CREATE].contents)
  }

  /** The references of this user's pools, beside those of everyone else. */
  ghost function Held(user: User, others: multiset<nat>): (m: multiset<nat>)
    reads user.intBuffers, user.recBuffers
  {
    others + multiset(user.recBuffers.handles) + multiset(user.intBuffers.handles)
  }

  /** The user is in order, and every reference of the kernel's buffers has its owner. */
  ghost predicate Prepared(user: User, kernel: Kernel, others: multiset<nat>)
    reads user.queues`list, user.queues`nodes, user.queues`contents, user.queues`popped, user.Nodes()
    reads user.intBuffers, user.recBuffers, kernel
  {
    user.Valid() && Accounted(kernel.d, Held(user, others))
  }

  /** The caller holds none of the user's locks. */
  predicate HoldsNone(user: User)
    reads user.locks
  {
    forall i :: 0 <= i < user.locks.Length ==> !user.locks[i]
  }

  // ---- Locks and gates --------------------------------------------------------------------------------

  /** Takes the locks in ascending order; an interruption gives back exactly those that were taken. */
  method LockAll(locks: array<bool>, interruptAt: Option<nat>) returns (err: Errno)
    requires forall i :: 0 <= i < locks.Length ==> !locks[i]
    modifies locks
    ensures err == if interruptAt.Some? && interruptAt.value < locks.Length then EINTR else Fine
    ensures forall i :: 0 <= i < locks.Length ==> locks[i] == (err == Fine)
  {
    for i := 0 to locks.Length
      invariant forall k :: 0 <= k < locks.Length ==> locks[k] == (k < i)
      invariant interruptAt.Some? ==> i <= interruptAt.value
    {
      if interruptAt == Some(i) {
        UnlockFirst(locks, i);
        return EINTR;
      }
      locks[i] := true;
    }
    err := Fine;
  }

  method UnlockFirst(locks: array<bool>, n: nat)
    requires n <= locks.Length && forall i :: 0 <= i < n ==> locks[i]
    modifies locks
    ensures forall i :: 0 <= i < locks.Length ==> locks[i] == if i < n then false else old(locks[i])
  {
    for j := 0 to n
      invariant forall k :: 0 <= k < locks.Length ==> locks[k] == if k < j then false else old(locks[k])
    {
      locks[j] := false;
    }
  }

  /** Opens the gates that hold sleepers back. */
  method QueuesUnlock(user: User)
    requires user.Valid()
    modifies user.queues`locked
    ensures user.Valid()
    ensures forall q :: 0 <= q < QUEUES ==>
      user.queues[q].locked
      == if q in {QUEUE_STATUS, QUEUE_SC, QUEUE_CREATE, QUEUE_REC} then false else old(user.queues[q].locked)
  {
    hide MailQueue.Valid, BufferPool.Valid;
    user.queues[QUEUE_STATUS].Unlock();
    user.queues[QUEUE_SC].Unlock();
    user.queues[QUEUE_CREATE].Unlock();
    user.queues[QUEUE_REC].Unlock();
  }

  method QueuesLock(user: User)
    requires user.Valid()
    modifies user.queues`locked
    ensures user.Valid()
    ensures forall q :: 0 <= q < QUEUES ==>
      user.queues[q].locked
      == if q in {QUEUE_STATUS, QUEUE_SC, QUEUE_CREATE, QUEUE_REC} then true else old(user.queues[q].locked)
  {
    hide MailQueue.Valid, BufferPool.Valid;
    user.queues[QUEUE_STATUS].Lock();
    user.queues[QUEUE_SC].Lock();
    user.queues[QUEUE_CREATE].Lock();
    user.queues[QUEUE_REC].Lock();
  }

  // ---- The mails of a call --------------------------------------------------------------------------

  /** The mails that a call made, of those the ones that went out, the mails that it took from its queues, and the
      mails that it freed. */
  datatype Log = Log(made: seq<Mail>, sent: seq<Mail>, taken: seq<Mail>, freed: seq<Mail>)

  const NO_MAIL := Log([], [], [], [])

  function Join(a: Log, b: Log): (l: Log)
  {
    Log(a.made + b.made, a.sent + b.sent, a.taken + b.taken, a.freed + b.freed)
  }

  /** Nothing stays in the call's hands: it freed what it made and what it took, and nothing else. */
  predicate Settled(l: Log)
  {
    multiset(l.freed) == multiset(l.made) + multiset(l.taken) && multiset(l.sent) <= multiset(l.made)
  }

  lemma JoinSettled(a: Log, b: Log)
    requires Settled(a) && Settled(b)
    ensures Settled(Join(a, b))
  {
  }

  lemma NoMailSettled(l: Log)
    ensures Settled(NO_MAIL)
    ensures Join(l, NO_MAIL) == l && Join(NO_MAIL, l) == l
  {
  }

  /** One mail made, tried to send, and freed. */
  function Posted(mail: Mail, ok: bool): (l: Log)
    ensures Settled(l)
  {
    Log([mail], if ok then [mail] else [], [], [mail])
  }

  /** What a sleep took, freed. */
  function Consumed(mail: Option<Mail>): (l: Log)
    ensures Settled(l) && l.taken == Taken(mail)
  {
    Log([], [], Taken(mail), Taken(mail))
  }

  /** The mail is freed whether or not it could be sent. */
  method CheckAndSend(mail: Mail, ok: bool) returns (err: Errno, ghost log: Log)
    ensures err == if ok then Fine else EAGAIN
    ensures log == Posted(mail, ok) && log == Log([mail], if ok then [mail] else [], [], [mail])
  {
    log := Log([mail], [], [], []);
    if ok {
      log := log.(sent := [mail]);
    }
    log := log.(freed := [mail]);
    err := if ok then Fine else EAGAIN;
  }

  ghost method FreeMail(mail: Option<Mail>, taken: Log) returns (log: Log)
    requires taken == Log([], [], Taken(mail), [])
    ensures log == Consumed(mail) && log == Log([], [], Taken(mail), Taken(mail))
  {
    log := taken.(freed := Taken(mail));
  }

  /** A request for a channel: it names the user, and its parameters follow. */
  predicate AsksForChannel(m: Mail, uid: nat, params: seq<u8>)
  {
    m.uid == MSG_CREATE_CHANNEL
    && (4 + |params| < 0x1_0000 ==> HasWord(m, 0) && WordAt(m, 0) == ToUint32(uid) && m.body[4..] == params)
  }

  // ---- Sleeping -------------------------------------------------------------------------------------

  method Arrive(queue: MailQueue, arrivals: seq<Mail>)
    requires queue.Valid()
    modifies queue`list, queue`nodes, queue`contents, queue`popped, queue.nodes
    ensures queue.Valid() && queue.contents == old(queue.contents) + arrivals
    ensures forall n :: n in queue.nodes ==> n in old(queue.nodes) || fresh(n)
  {
    hide MailQueue.Valid;
    for k := 0 to |arrivals|
      invariant queue.Valid() && queue.contents == old(queue.contents) + arrivals[..k]
      invariant forall i :: 0 <= i < |queue.nodes| ==> queue.nodes[i] in old(queue.nodes) || fresh(queue.nodes[i])
    {
      ghost var before := queue.nodes;
      queue.Push(arrivals[k]);
      var last := |queue.nodes| - 1;
      assert queue.nodes == before + [queue.nodes[last]];
    }
  }

  function Rest(all: seq<Mail>): (rest: seq<Mail>)
  {
    if all == [] then [] else all[1..]
  }

  function Oldest(all: seq<Mail>): (mail: Option<Mail>)
    ensures mail.Some? ==> mail.value in all
  {
    if all == [] then None else Some(all[0])
  }

  lemma OldestIsTaken(all: seq<Mail>, mail: Option<Mail>, rest: seq<Mail>)
    requires all == Taken(mail) + rest && (mail.None? <==> all == [])
    ensures mail == Oldest(all) && rest == Rest(all)
  {
  }

  /** A sleep without limit; it comes back with nothing after a signal or when the gate was opened. */
  method Await(queue: MailQueue, arrivals: seq<Mail>) returns (mail: Option<Mail>)
    requires queue.Valid()
    modifies queue`list, queue`nodes, queue`contents, queue`popped, queue.nodes
    ensures queue.Valid() && queue.contents == Rest(old(queue.contents) + arrivals)
    ensures mail == Oldest(old(queue.contents) + arrivals)
    ensures forall n :: n in queue.nodes ==> n in old(queue.nodes) || fresh(n)
  {
    hide MailQueue.Valid, Oldest, Rest;
    Arrive(queue, arrivals);
    mail := queue.Pop();
    OldestIsTaken(old(queue.contents) + arrivals, mail, queue.contents);
  }

  method AwaitTimeout(queue: MailQueue, arrivals: seq<Mail>, wait: Wait) returns (mail: Option<Mail>, err: Errno)
    requires queue.Valid()
    requires wait.Ready? ==> queue.contents + arrivals != [] || !queue.locked
    modifies queue`list, queue`nodes, queue`contents, queue`popped, queue.nodes
    ensures queue.Valid() && queue.contents == Rest(old(queue.contents) + arrivals)
    ensures mail == Oldest(old(queue.contents) + arrivals)
    ensures err == if mail.Some? then Fine else if wait.Interrupted? then EINTR else EINVAL
    ensures forall n :: n in queue.nodes ==> n in old(queue.nodes) || fresh(n)
  {
    hide MailQueue.Valid, Oldest, Rest;
    Arrive(queue, arrivals);
    SomethingListed(queue);
    var e;
    mail, e := queue.PopTimeout(wait);
    err := if e.NoError? then Fine else if e.Intr? then EINTR else EINVAL;
    OldestIsTaken(old(queue.contents) + arrivals, mail, queue.contents);
  }

  lemma SomethingListed(queue: MailQueue)
    requires queue.Valid()
    ensures queue.contents != [] ==> queue.list != null
  {
  }

  /** A sleep on one of the queues of a user, whose lock the caller holds; the other queues are left alone. */
  method AwaitOn(user: User, q: nat, arrivals: seq<Mail>) returns (mail: Option<Mail>)
    requires user.Valid() && q < QUEUES && user.locks[LockFor(q)]
    modifies user.queues[q], user.queues[q].nodes
    ensures user.Valid()
    ensures user.queues[q].contents == Rest(old(user.queues[q].contents) + arrivals)
    ensures mail == Oldest(old(user.queues[q].contents) + arrivals)
    ensures forall n :: n in user.queues[q].nodes ==> n in old(user.queues[q].nodes) || fresh(n)
    ensures user.queues[q].locked == old(user.queues[q].locked)
  {
    hide BufferPool.Valid, Rest, Oldest;
    mail := Await(user.queues[q], arrivals);
  }

  method AwaitTimeoutOn(user: User, q: nat, arrivals: seq<Mail>, wait: Wait) returns (mail: Option<Mail>, err: Errno)
    requires user.Valid() && q < QUEUES && user.locks[LockFor(q)]
    requires wait.Ready? ==> user.queues[q].contents + arrivals != [] || !user.queues[q].locked
    modifies user.queues[q], user.queues[q].nodes
    ensures user.Valid()
    ensures user.queues[q].contents == Rest(old(user.queues[q].contents) + arrivals)
    ensures mail == Oldest(old(user.queues[q].contents) + arrivals)
    ensures err == if mail.Some? then Fine else if wait.Interrupted? then EINTR else EINVAL
    ensures forall n :: n in user.queues[q].nodes ==> n in old(user.queues[q].nodes) || fresh(n)
    ensures user.queues[q].locked == old(user.queues[q].locked)
  {
    hide BufferPool.Valid, Rest, Oldest;
    mail, err := AwaitTimeout(user.queues[q], arrivals, wait);
  }

  // ---- Destruction ----------------------------------------------------------------------------------

  method FreeResources(user: User, kernel: Kernel, ghost others: multiset<nat>)
    requires Prepared(user, kernel, others)
    modifies user.intBuffers, user.recBuffers, kernel
    ensures Prepared(user, kernel, others)
    ensures LifeOf(user) == FreePools(old(LifeOf(user)))
    ensures kernel.d.fds == old(kernel.d.fds) && kernel.d.next == old(kernel.d.next)
  {
    hide MailQueue.Valid, BufferPool.Valid, Accounted;
    user.intBuffers.Free(kernel, others + multiset(user.recBuffers.handles));
    user.recBuffers.Free(kernel, others);
    assert Held(user, others) == others;
  }

  predicate GetsLocks(env: DestroyEnv)
  {
    env.interruptAt.Some? ==> env.interruptAt.value >= OPS
  }

  /** Whether a mail can end the wait for the destruction's answer. */
  ghost predicate Answers(user: User, arrivals: seq<Mail>, env: DestroyEnv)
    requires |user.queues| == QUEUES
    reads user.queues`contents
  {
    env.answered <==> user.queues[QUEUE_DESTROY].contents + arrivals != []
  }

  function DestroyMail(chan: int, quiet: bool): (m: Mail)
  {
    Addressed(ToUint32(chan), if quiet then MSG_QUIET_DESTROY_CHANNEL else MSG_DESTROY_CHANNEL, [])
  }

  /** The mails of a destruction that gets its locks, `all` being what its wait finds in the queue. */
  function DestroyLog(chan: int, quiet: bool, env: DestroyEnv, all: seq<Mail>): (l: Log)
    ensures Settled(l)
  {
    var answer := if quiet || !env.sendOk then None else Oldest(all);
    JoinSettled(Posted(DestroyMail(chan, quiet), env.sendOk), Consumed(answer));
    Join(Posted(DestroyMail(chan, quiet), env.sendOk), Consumed(answer))
  }

  /** At most one request was made, loud or quiet as asked for, and it names the channel. */
  predicate Requested(log: Log, chan: int, quiet: bool, ok: bool)
  {
    |log.made| <= 1 && log.sent == (if ok then log.made else [])
    && forall m :: m in log.made ==>
      m.uid == (if quiet then MSG_QUIET_DESTROY_CHANNEL else MSG_DESTROY_CHANNEL)
      && |m.body| == 4 && WordAt(m, 0) == ToUint32(chan)
  }

  /** Every request that was made is a quiet one that names the channel. */
  predicate QuietlyRequested(log: Log, chan: int)
  {
    forall m :: m in log.made ==>
      m.uid == MSG_QUIET_DESTROY_CHANNEL && |m.body| == 4 && WordAt(m, 0) == ToUint32(chan)
  }

  /** One request, loud or quiet as asked for, that names the channel; the wait, if any, takes the oldest mail. */
  lemma DestroyMails(chan: int, quiet: bool, env: DestroyEnv, all: seq<Mail>)
    ensures
      var l := DestroyLog(chan, quiet, env, all);
      |l.made| == 1 && l.made[0].uid == (if quiet then MSG_QUIET_DESTROY_CHANNEL else MSG_DESTROY_CHANNEL)
      && |l.made[0].body| == 4 && WordAt(l.made[0], 0) == ToUint32(chan)
      && l.sent == (if env.sendOk then l.made else [])
      && l.taken == if quiet || !env.sendOk || all == [] then [] else [all[0]]
    ensures Requested(DestroyLog(chan, quiet, env, all), chan, quiet, env.sendOk)
    ensures Requested(NO_MAIL, chan, quiet, env.sendOk)
  {
  }

  function AfterDestroy(before: seq<Mail>, arrivals: seq<Mail>, quiet: bool, env: DestroyEnv): (after: seq<Mail>)
  {
    if quiet || !env.sendOk || !GetsLocks(env) then before else Rest(before + arrivals)
  }

  /** Sends the request and, unless it is quiet, waits for the answer. */
  method AskToDestroy(user: User, quiet: bool, env: DestroyEnv, arrivals: seq<Mail>)
    returns (err: Errno, ghost log: Log)
    requires user.Valid() && (quiet || Answers(user, arrivals, env)) && user.locks[LockFor(QUEUE_DESTROY)]
    modifies user.queues[QUEUE_DESTROY], user.queues[QUEUE_DESTROY].nodes
    ensures user.Valid()
    ensures err == if !env.sendOk then EAGAIN else if quiet || env.answered then Fine else EINTR
    ensures log == DestroyLog(user.chanUid, quiet, env, old(user.queues[QUEUE_DESTROY].contents) + arrivals)
    ensures user.queues[QUEUE_DESTROY].contents
         == if quiet || !env.sendOk then old(user.queues[QUEUE_DESTROY].contents)
            else Rest(old(user.queues[QUEUE_DESTROY].contents) + arrivals)
    ensures forall n :: n in user.queues[QUEUE_DESTROY].nodes ==>
      n in old(user.queues[QUEUE_DESTROY].nodes) || fresh(n)
    ensures quiet ==> user.queues[QUEUE_DESTROY].nodes == old(user.queues[QUEUE_DESTROY].nodes)
  {
    hide MailQueue.Valid, BufferPool.Valid, Addressed, Rest, Settled;
    var mail := CreateEmptyMail(ToUint32(user.chanUid),
                                if quiet then MSG_QUIET_DESTROY_CHANNEL else MSG_DESTROY_CHANNEL);
    err, log := CheckAndSend(mail, env.sendOk);
    if err == Fine && !quiet {
      var answer := AwaitOn(user, QUEUE_DESTROY, arrivals);
      ghost var used := FreeMail(answer, Log([], [], Taken(answer), []));
      log := Join(log, used);
      err := if answer.Some? then Fine else EINTR;
    }
  }

  /** What follows once all the locks are held. */
  method DestroyLocked(user: User, kernel: Kernel, quiet: bool, env: DestroyEnv, arrivals: seq<Mail>,
                       ghost others: multiset<nat>)
    returns (err: Errno, ghost events: seq<Event>, ghost log: Log)
    requires Prepared(user, kernel, others) && (quiet || Answers(user, arrivals, env))
    requires IsCreated(LifeOf(user)) && GetsLocks(env)
    requires forall l :: 0 <= l < user.locks.Length ==> user.locks[l]
    modifies user`chanUid, user`checkpoint, user.intBuffers, user.recBuffers, kernel
    modifies user.queues[QUEUE_DESTROY], user.queues[QUEUE_DESTROY].nodes
    ensures Prepared(user, kernel, others)
    ensures Outcome(LifeOf(user), events, err) == Destroy(old(LifeOf(user)), quiet, env)
    ensures log == DestroyLog(old(user.chanUid), quiet, env, old(user.queues[QUEUE_DESTROY].contents) + arrivals)
    ensures user.queues[QUEUE_DESTROY].contents
         == AfterDestroy(old(user.queues[QUEUE_DESTROY].contents), arrivals, quiet, env)
    ensures forall n :: n in user.queues[QUEUE_DESTROY].nodes ==>
      n in old(user.queues[QUEUE_DESTROY].nodes) || fresh(n)
    ensures quiet ==> user.queues[QUEUE_DESTROY].nodes == old(user.queues[QUEUE_DESTROY].nodes)
    ensures kernel.d.fds == old(kernel.d.fds) && kernel.d.next == old(kernel.d.next)
  {
    hide MailQueue.Valid, BufferPool.Valid, Accounted, Held, Rest, DestroyLog, Settled;
    events := [];
    err, log := AskToDestroy(user, quiet, env, arrivals);
    if err == Fine {
      events := [Closed(user.chanUid)];
      user.chanUid := BAD_CHAN;
      user.checkpoint := NO_CHECKPOINT;
      FreeResources(user, kernel, others);
    }
  }

  /** Takes every lock, destroys, and gives every lock back. */
  method DestroyUnderLocks(user: User, kernel: Kernel, quiet: bool, env: DestroyEnv, arrivals: seq<Mail>,
                           ghost others: multiset<nat>)
    returns (err: Errno, ghost events: seq<Event>, ghost log: Log)
    requires Prepared(user, kernel, others) && (quiet || Answers(user, arrivals, env)) && HoldsNone(user)
    requires IsCreated(LifeOf(user))
    requires forall q :: q in {QUEUE_STATUS, QUEUE_SC, QUEUE_CREATE, QUEUE_REC} ==> !user.queues[q].locked
    modifies user`chanUid, user`checkpoint, user.locks, user.intBuffers, user.recBuffers, kernel
    modifies user.queues[QUEUE_DESTROY], user.queues[QUEUE_DESTROY].nodes
    ensures Prepared(user, kernel, others) && HoldsNone(user)
    ensures Outcome(LifeOf(user), events, err) == Destroy(old(LifeOf(user)), quiet, env)
    ensures err == if env.interruptAt.Some? && env.interruptAt.value < OPS then EINTR else if !env.sendOk then EAGAIN
                   else if quiet || env.answered then Fine else EINTR
    ensures log == if !GetsLocks(env) then NO_MAIL
      else DestroyLog(old(user.chanUid), quiet, env, old(user.queues[QUEUE_DESTROY].contents) + arrivals)
    ensures user.queues[QUEUE_DESTROY].contents
         == AfterDestroy(old(user.queues[QUEUE_DESTROY].contents), arrivals, quiet, env)
    ensures forall n :: n in user.queues[QUEUE_DESTROY].nodes ==>
      n in old(user.queues[QUEUE_DESTROY].nodes) || fresh(n)
    ensures quiet ==> user.queues[QUEUE_DESTROY].nodes == old(user.queues[QUEUE_DESTROY].nodes)
    ensures kernel.d.fds == old(kernel.d.fds) && kernel.d.next == old(kernel.d.next)
  {
    hide MailQueue.Valid, BufferPool.Valid, Accounted, Held, FreePools, Rest, DestroyLog, Settled;
    events, log := [], NO_MAIL;
    err := LockAll(user.locks, env.interruptAt);
    if err == Fine {
      err, events, log := DestroyLocked(user, kernel, quiet, env, arrivals, others);
      UnlockFirst(user.locks, user.locks.Length);
    }
  }

  /** Lets every sleeper go, destroys, and closes the gates again. */
  method DestroyCreated(user: User, kernel: Kernel, quiet: bool, env: DestroyEnv, arrivals: seq<Mail>,
                        ghost others: multiset<nat>)
    returns (err: Errno, ghost events: seq<Event>, ghost log: Log)
    requires Prepared(user, kernel, others) && (quiet || Answers(user, arrivals, env)) && HoldsNone(user)
    requires IsCreated(LifeOf(user))
    modifies user`chanUid, user`checkpoint, user.locks, user.intBuffers, user.recBuffers, kernel
    modifies user.queues`locked, user.queues[QUEUE_DESTROY], user.queues[QUEUE_DESTROY].nodes
    ensures Prepared(user, kernel, others) && HoldsNone(user)
    ensures Outcome(LifeOf(user), events, err) == Destroy(old(LifeOf(user)), quiet, env)
    ensures err == if env.interruptAt.Some? && env.interruptAt.value < OPS then EINTR else if !env.sendOk then EAGAIN
                   else if quiet || env.answered then Fine else EINTR
    ensures forall q :: q in {QUEUE_STATUS, QUEUE_SC, QUEUE_CREATE, QUEUE_REC} ==> user.queues[q].locked
    ensures log == if !GetsLocks(env) then NO_MAIL
      else DestroyLog(old(user.chanUid), quiet, env, old(user.queues[QUEUE_DESTROY].contents) + arrivals)
    ensures user.queues[QUEUE_DESTROY].contents
         == AfterDestroy(old(user.queues[QUEUE_DESTROY].contents), arrivals, quiet, env)
    ensures forall n :: n in user.queues[QUEUE_DESTROY].nodes ==>
      n in old(user.queues[QUEUE_DESTROY].nodes) || fresh(n)
    ensures quiet ==> user.queues[QUEUE_DESTROY].nodes == old(user.queues[QUEUE_DESTROY].nodes)
    ensures kernel.d.fds == old(kernel.d.fds) && kernel.d.next == old(kernel.d.next)
  {
    hide MailQueue.Valid, BufferPool.Valid, Accounted, Destroy, Held, DestroyLog, AfterDestroy, Settled;
    QueuesUnlock(user);
    err, events, log := DestroyUnderLocks(user, kernel, quiet, env, arrivals, others);
    QueuesLock(user);
  }

  /** Without a channel there is nothing to do; otherwise one request goes out, unless it cannot, that is loud or quiet
      as asked for and names the channel. No lock and no mail stays with the call. */
  method DestroyChannel(user: User, kernel: Kernel, quiet: bool, env: DestroyEnv, arrivals: seq<Mail>,
                        ghost others: multiset<nat>)
    returns (err: Errno, ghost events: seq<Event>, ghost log: Log)
    requires Prepared(user, kernel, others) && (quiet || Answers(user, arrivals, env)) && HoldsNone(user)
    modifies user`chanUid, user`checkpoint, user.locks, user.intBuffers, user.recBuffers, kernel
    modifies user.queues`locked, user.queues[QUEUE_DESTROY], user.queues[QUEUE_DESTROY].nodes
    ensures Prepared(user, kernel, others) && HoldsNone(user)
    ensures Outcome(LifeOf(user), events, err) == Destroy(old(LifeOf(user)), quiet, env)
    ensures err == EPERM <==> old(user.chanUid) == BAD_CHAN
    ensures err != EPERM ==>
      err == if env.interruptAt.Some? && env.interruptAt.value < OPS then EINTR else if !env.sendOk then EAGAIN
             else if quiet || env.answered then Fine else EINTR
    ensures err != EPERM ==>
      forall q :: q in {QUEUE_STATUS, QUEUE_SC, QUEUE_CREATE, QUEUE_REC} ==> user.queues[q].locked
    ensures log == if !old(IsCreated(LifeOf(user))) || !GetsLocks(env) then NO_MAIL
      else DestroyLog(old(user.chanUid), quiet, env, old(user.queues[QUEUE_DESTROY].contents) + arrivals)
    ensures Settled(log)
    ensures log.made == [] <==> old(user.chanUid) == BAD_CHAN || (env.interruptAt.Some? && env.interruptAt.value < OPS)
    ensures log.made != [] ==>
      |log.made| == 1 && log.made[0].uid == (if quiet then MSG_QUIET_DESTROY_CHANNEL else MSG_DESTROY_CHANNEL)
      && |log.made[0].body| == 4 && WordAt(log.made[0], 0) == ToUint32(old(user.chanUid))
    ensures log.sent == if env.sendOk then log.made else []
    ensures Requested(log, old(user.chanUid), quiet, env.sendOk)
    ensures user.queues[QUEUE_DESTROY].contents == if err == EPERM then old(user.queues[QUEUE_DESTROY].contents)
      else AfterDestroy(old(user.queues[QUEUE_DESTROY].contents), arrivals, quiet, env)
    ensures forall n :: n in user.queues[QUEUE_DESTROY].nodes ==>
      n in old(user.queues[QUEUE_DESTROY].nodes) || fresh(n)
    ensures quiet ==> user.queues[QUEUE_DESTROY].nodes == old(user.queues[QUEUE_DESTROY].nodes)
    ensures kernel.d.fds == old(kernel.d.fds) && kernel.d.next == old(kernel.d.next)
  {
    hide MailQueue.Valid, BufferPool.Valid, User.Valid, Accounted, Destroy, Held, DestroyLog, AfterDestroy, Settled,
      HoldsNone, WordAt, Requested;
    log := NO_MAIL;
    NoMailSettled(log);
    DestroyMails(user.chanUid, quiet, env, user.queues[QUEUE_DESTROY].contents + arrivals);
    if user.chanUid == BAD_CHAN {
      NothingToDestroy(LifeOf(user), quiet, env);
      return EPERM, [], log;
    }
    err, events, log := DestroyCreated(user, kernel, quiet, env, arrivals, others);
  }

  lemma FailedDestroyKeeps(s: Life, quiet: bool, env: DestroyEnv)
    requires IsCreated(s)
    ensures Destroy(s, quiet, env).err == Fine <==> DestroySucceeds(quiet, env)
    ensures Destroy(s, quiet, env).err != Fine ==>
      Destroy(s, quiet, env).life == s && Destroy(s, quiet, env).events == []
  {
  }

  lemma NothingToDestroy(s: Life, quiet: bool, env: DestroyEnv)
    requires !IsCreated(s)
    ensures Destroy(s, quiet, env) == Outcome(s, [], EPERM)
  {
  }

  // ---- Release --------------------------------------------------------------------------------------

  /** One more try. */
  method DestroyQuietly(user: User, kernel: Kernel, env: DestroyEnv, ghost others: multiset<nat>, ghost before: Log)
    returns (ret: Errno, ghost events: seq<Event>, ghost log: Log)
    requires Prepared(user, kernel, others) && HoldsNone(user) && IsCreated(LifeOf(user))
    requires Settled(before) && before.taken == []
    requires forall m :: m in before.made ==>
      m.uid == MSG_QUIET_DESTROY_CHANNEL && |m.body| == 4 && WordAt(m, 0) == ToUint32(user.chanUid)
    modifies user`chanUid, user`checkpoint, user.locks, user.intBuffers, user.recBuffers, kernel
    modifies user.queues`locked, user.queues[QUEUE_DESTROY], user.queues[QUEUE_DESTROY].nodes
    ensures Prepared(user, kernel, others) && HoldsNone(user) && Settled(log) && log.taken == []
    ensures Outcome(LifeOf(user), events, ret) == Destroy(old(LifeOf(user)), true, env)
    ensures forall m :: m in log.made ==>
      m.uid == MSG_QUIET_DESTROY_CHANNEL && |m.body| == 4 && WordAt(m, 0) == ToUint32(old(user.chanUid))
    ensures ret != Fine ==> LifeOf(user) == old(LifeOf(user)) && events == []
    ensures user.queues[QUEUE_DESTROY].contents == old(user.queues[QUEUE_DESTROY].contents)
    ensures user.queues[QUEUE_DESTROY].nodes == old(user.queues[QUEUE_DESTROY].nodes)
    ensures kernel.d.fds == old(kernel.d.fds)
  {
    hide MailQueue.Valid, BufferPool.Valid, User.Valid, Accounted, Destroy, Held, Settled;
    FailedDestroyKeeps(LifeOf(user), true, env);
    ghost var more;
    ret, events, more := DestroyChannel(user, kernel, true, env, [], others);
    JoinSettled(before, more);
    log := Join(before, more);
  }

  /** Tries to destroy the channel quietly, again and again, until it works or the tries are used up. */
  method DestroyAgain(user: User, kernel: Kernel, envs: nat -> DestroyEnv, ghost others: multiset<nat>)
    returns (ret: Errno, ghost events: seq<Event>, ghost log: Log)
    requires Prepared(user, kernel, others) && HoldsNone(user) && IsCreated(LifeOf(user))
    modifies user`chanUid, user`checkpoint, user.locks, user.intBuffers, user.recBuffers, kernel
    modifies user.queues`locked, user.queues[QUEUE_DESTROY], user.queues[QUEUE_DESTROY].nodes
    ensures Prepared(user, kernel, others) && HoldsNone(user) && Settled(log) && log.taken == []
    ensures
      var o := DestroyRetry(old(LifeOf(user)), envs, 0);
      LifeOf(user) == o.life && events == o.events && (ret == Fine <==> o.err == Fine)
    ensures forall m :: m in log.made ==>
      m.uid == MSG_QUIET_DESTROY_CHANNEL && |m.body| == 4 && WordAt(m, 0) == ToUint32(old(user.chanUid))
    ensures user.queues[QUEUE_DESTROY].contents == old(user.queues[QUEUE_DESTROY].contents)
    ensures user.queues[QUEUE_DESTROY].nodes == old(user.queues[QUEUE_DESTROY].nodes)
    ensures kernel.d.fds == old(kernel.d.fds)
  {
    hide MailQueue.Valid, BufferPool.Valid, User.Valid, Accounted, Destroy, Held, Settled, HoldsNone;
    var tries := 0;
    ret, events, log := EINTR, [], NO_MAIL;
    NoMailSettled(NO_MAIL);
    while ret != Fine && tries < RELEASE_TRIES
      invariant tries <= RELEASE_TRIES
      invariant Prepared(user, kernel, others) && HoldsNone(user) && Settled(log) && log.taken == []
      invariant ret != Fine ==> LifeOf(user) == old(LifeOf(user)) && events == []
      invariant forall m :: m in log.made ==>
        m.uid == MSG_QUIET_DESTROY_CHANNEL && |m.body| == 4 && WordAt(m, 0) == ToUint32(old(user.chanUid))
      invariant DestroyRetry(old(LifeOf(user)), envs, 0)
             == if ret == Fine then Outcome(LifeOf(user), events, ret) else DestroyRetry(LifeOf(user), envs, tries)
      invariant user.queues[QUEUE_DESTROY].contents == old(user.queues[QUEUE_DESTROY].contents)
      invariant user.queues[QUEUE_DESTROY].nodes == old(user.queues[QUEUE_DESTROY].nodes)
      invariant kernel.d.fds == old(kernel.d.fds)
      decreases ret != Fine, RELEASE_TRIES - tries
    {
      ret, events, log := DestroyQuietly(user, kernel, envs(tries), others, log);
      tries := tries + 1;
    }
  }

  /** The pools go back whether or not the channel could be destroyed. */
  method ReleaseChannel(user: User, kernel: Kernel, envs: nat -> DestroyEnv, ghost others: multiset<nat>)
    returns (ghost events: seq<Event>, ghost log: Log)
    requires Prepared(user, kernel, others) && HoldsNone(user)
    modifies user`chanUid, user`checkpoint, user.locks, user.intBuffers, user.recBuffers, kernel
    modifies user.queues`locked, user.queues[QUEUE_DESTROY], user.queues[QUEUE_DESTROY].nodes
    ensures Prepared(user, kernel, others) && HoldsNone(user) && Settled(log) && log.taken == []
    ensures LifeOf(user) == Release(old(LifeOf(user)), envs).life && events == Release(old(LifeOf(user)), envs).events
    ensures forall m :: m in log.made ==>
      m.uid == MSG_QUIET_DESTROY_CHANNEL && |m.body| == 4 && WordAt(m, 0) == ToUint32(old(user.chanUid))
    ensures user.queues[QUEUE_DESTROY].contents == old(user.queues[QUEUE_DESTROY].contents)
    ensures user.queues[QUEUE_DESTROY].nodes == old(user.queues[QUEUE_DESTROY].nodes)
    ensures kernel.d.fds == old(kernel.d.fds)
  {
    hide MailQueue.Valid, BufferPool.Valid, User.Valid, Accounted, DestroyRetry, Held, Settled;
    events, log := [], NO_MAIL;
    NoMailSettled(log);
    if user.chanUid != BAD_CHAN {
      var ret;
      ret, events, log := DestroyAgain(user, kernel, envs, others);
      FreeResources(user, kernel, others);
    }
  }
}
