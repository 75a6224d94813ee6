/** A device with its users: the operations of one user, seen from the whole table. */
module Devices {
  import opened MachineWords
  import opened Mails
  import opened Mailboxes
  import opened MailQueues
  import opened DmaKernel
  import opened BufferPools
  import opened Dispatch
  import DeliveryRuns
  import opened Tallies
  import opened Users
  import opened Groups
  import opened ChannelLife
  import opened UserOps
  import opened EncoderUsers
  import opened EncoderPictures

  /** The user sits in slot `i` of a table in order, and owns its share of the kernel's buffers. */
  ghost predicate Seated(group: Group, user: User, i: nat, kernel: Kernel, others: multiset<nat>)
    reads group, group.users, group.Homes
    reads user.queues`list, user.queues`nodes, user.queues`contents, user.queues`popped, user.Nodes()
    reads user.intBuffers, user.recBuffers, kernel
  {
    group.UsersValid() && i < group.users.Length && group.users[i] == user && Prepared(user, kernel, others)
  }

  /** Of what the whole device looks like, only the user in slot `i` has changed. */
  ghost predicate Changed(group: Group, before: View, i: nat, user: User)
    requires group.Valid() && i < |before.channels| && i < |before.rooms|
    reads group, group.users, group.Homes, group.inbox, group.inbox.data
    reads group.commands, group.commands.data, group.ledger
    reads user, user.queues
  {
    group.State()
    == before.(channels := before.channels[i := Some(user.chanUid)], rooms := before.rooms[i := user.Rooms()])
  }

  lemma AllApart(group: Group, user: User, i: nat)
    requires group.UsersValid() && i < group.users.Length && group.users[i] == user
    ensures forall j :: 0 <= j < group.users.Length && group.users[j] != null && j != i ==> Apart(user, group.users[j])
  {
    hide User.Valid;
    forall j | 0 <= j < group.users.Length && group.users[j] != null && j != i
      ensures Apart(user, group.users[j])
    {
      UsersApart(user, group.users[j]);
    }
  }

  method CreateApart(group: Group, user: User, ghost i: nat, kernel: Kernel, params: seq<u8>, env: CreateEnv,
                     cleanUp: DestroyEnv, destroyed: seq<Mail>, ghost others: multiset<nat>, ghost phase: Phase)
    returns (err: Errno, status: ChannelStatus, ghost events: seq<Event>, ghost log: Log)
    requires Seated(group, user, i, kernel, others)
    requires HoldsNone(user) && Consistent(LifeOf(user), phase)
    requires Answerable(user, env) && Answers(user, destroyed, cleanUp) && 4 + |params| < 0x1_0000_0000
    modifies user`chanUid, user`checkpoint, user.locks, user.intBuffers, user.recBuffers, kernel
    modifies user.queues`locked, user.queues[QUEUE_CREATE], user.queues[QUEUE_CREATE].nodes
    modifies user.queues[QUEUE_DESTROY], user.queues[QUEUE_DESTROY].nodes
    ensures Prepared(user, kernel, others) && HoldsNone(user) && Consistent(LifeOf(user), WatchAll(phase, events))
    ensures Outcome(LifeOf(user), events, err) == CreateAlone(old(LifeOf(user)), env, cleanUp)
    ensures Settled(log)
    ensures PoolsSized(user, events, log.taken)
    ensures old(user.chanUid) != BAD_CHAN || old(user.checkpoint) != NO_CHECKPOINT ==>
      unchanged(user.intBuffers, user.recBuffers)
    ensures PoolsPushed(user, events, log.sent)
    ensures forall j :: 0 <= j < group.users.Length && group.users[j] != null && j != i ==>
      Frozen(group.users[j], old(group.users[j].Nodes()))
    ensures forall n :: n in user.Nodes() ==> n in old(user.Nodes()) || fresh(n)
  {
    hide User.Valid, Accounted, Consistent, Settled, CreateAlone, Held, LifeOf, Answers, Answerable, HoldsNone,
      User.Rooms, Group.AtHome, PoolsSized, PoolsPushed;
    AllApart(group, user, i);
    err, status, events, log := CreateChannel(user, kernel, params, env, cleanUp, destroyed, others, phase);
  }

  /** After an operation of one user that left the others alone, the table is in order again. */
  ghost method Settle(group: Group, user: User, i: nat, before: View, kernel: Kernel, others: multiset<nat>)
    requires group.RingsValid() && Prepared(user, kernel, others)
    requires i < group.users.Length && group.users[i] == user && user.uid == i
    requires group !in group.Homes && group.users !in group.Homes && group.BodyAtHome(user)
    requires |before.channels| == |before.rooms| == group.users.Length
    requires forall j :: 0 <= j < group.users.Length && j != i && group.users[j] != null ==>
      group.AtHome(group.users[j]) && group.users[j].uid == j && group.users[j].Valid()
    requires forall j :: 0 <= j < group.users.Length && j != i ==>
      group.ChannelOf(group.users[j]) == before.channels[j] && group.RoomOf(group.users[j]) == before.rooms[j]
    requires before.commands == group.commands.Contents()
    requires before.made == group.ledger.made && before.freed == group.ledger.freed
    modifies group`Homes
    ensures group.Valid() && group.Homes == old(group.Homes) + user.Nodes()
    ensures Changed(group, before, i, user) && Seated(group, user, i, kernel, others)
    ensures group.Channels() == before.channels[i := Some(user.chanUid)]
  {
    hide User.Valid, User.Nodes, User.Rooms, Mailbox.Valid, Mailbox.Contents, Accounted;
    group.Rehome(user, i, before.channels, before.rooms);
  }

  /** A creation on one user of a device: that user's life goes on as the life-cycle function says, and the table, the
      rings and everybody else stay as they are. */
  method Create(group: Group, user: User, ghost i: nat, kernel: Kernel, params: seq<u8>, env: CreateEnv,
                cleanUp: DestroyEnv, destroyed: seq<Mail>, ghost others: multiset<nat>, ghost phase: Phase)
    returns (err: Errno, status: ChannelStatus, ghost events: seq<Event>, ghost log: Log)
    requires group.Valid() && Seated(group, user, i, kernel, others)
    requires HoldsNone(user) && Consistent(LifeOf(user), phase)
    requires Answerable(user, env) && Answers(user, destroyed, cleanUp) && 4 + |params| < 0x1_0000_0000
    modifies group`Homes
    modifies user`chanUid, user`checkpoint, user.locks, user.intBuffers, user.recBuffers, kernel
    modifies user.queues`locked, user.queues[QUEUE_CREATE], user.queues[QUEUE_CREATE].nodes
    modifies user.queues[QUEUE_DESTROY], user.queues[QUEUE_DESTROY].nodes
    ensures group.Valid() && Seated(group, user, i, kernel, others)
    ensures Changed(group, old(group.State()), i, user)
    ensures i < |old(group.Channels())| && group.Channels() == old(group.Channels())[i := Some(user.chanUid)]
    ensures forall o :: o in group.Homes ==> o in old(group.Homes) || fresh(o)
    ensures HoldsNone(user) && Consistent(LifeOf(user), WatchAll(phase, events))
    ensures Outcome(LifeOf(user), events, err) == CreateAlone(old(LifeOf(user)), env, cleanUp)
    ensures Settled(log)
    ensures PoolsSized(user, events, log.taken)
    ensures old(user.chanUid) != BAD_CHAN || old(user.checkpoint) != NO_CHECKPOINT ==>
      unchanged(user.intBuffers, user.recBuffers)
    ensures PoolsPushed(user, events, log.sent)
  {
    hide User.Valid, Accounted, Consistent, Settled, Mailbox.Valid, Mailbox.Contents, User.Nodes, User.Rooms,
      CreateAlone, LifeOf, Held, Answers, Answerable, PoolsSized, PoolsPushed;
    err, status, events, log := CreateApart(group, user, i, kernel, params, env, cleanUp, destroyed, others, phase);
    group.OthersKept(i);
    Settle(group, user, i, old(group.State()), kernel, others);
  }

  method DestroyApart(group: Group, user: User, ghost i: nat, kernel: Kernel, quiet: bool, env: DestroyEnv,
                      arrivals: seq<Mail>, ghost others: multiset<nat>)
    returns (err: Errno, ghost events: seq<Event>, ghost log: Log)
    requires Seated(group, user, i, kernel, others)
    requires HoldsNone(user) && (quiet || Answers(user, arrivals, env))
    modifies user`chanUid, user`checkpoint, user.locks, user.intBuffers, user.recBuffers, kernel
    modifies user.queues`locked, user.queues[QUEUE_DESTROY], user.queues[QUEUE_DESTROY].nodes
    ensures Prepared(user, kernel, others) && HoldsNone(user)
    ensures Outcome(LifeOf(user), events, err) == Destroy(old(LifeOf(user)), quiet, env)
    ensures Settled(log)
    ensures Requested(log, old(user.chanUid), quiet, env.sendOk)
    ensures forall j :: 0 <= j < group.users.Length && group.users[j] != null && j != i ==>
      Frozen(group.users[j], old(group.users[j].Nodes()))
    ensures forall n :: n in user.Nodes() ==> n in old(user.Nodes()) || fresh(n)
  {
    hide User.Valid, Accounted, Settled, Destroy, DestroyLog, AfterDestroy, Held, LifeOf, Answers, HoldsNone,
      User.Rooms, Group.AtHome, WordAt, Requested;
    AllApart(group, user, i);
    err, events, log := DestroyChannel(user, kernel, quiet, env, arrivals, others);
  }

  /** A destruction of one user's channel, seen from the whole device. */
  method DestroyFor(group: Group, user: User, ghost i: nat, kernel: Kernel, quiet: bool, env: DestroyEnv,
                    arrivals: seq<Mail>, ghost others: multiset<nat>, ghost phase: Phase)
    returns (err: Errno, ghost events: seq<Event>, ghost log: Log)
    requires group.Valid() && Seated(group, user, i, kernel, others)
    requires HoldsNone(user) && Consistent(LifeOf(user), phase) && (quiet || Answers(user, arrivals, env))
    modifies group`Homes
    modifies user`chanUid, user`checkpoint, user.locks, user.intBuffers, user.recBuffers, kernel
    modifies user.queues`locked, user.queues[QUEUE_DESTROY], user.queues[QUEUE_DESTROY].nodes
    ensures group.Valid() && Seated(group, user, i, kernel, others)
    ensures Changed(group, old(group.State()), i, user)
    ensures i < |old(group.Channels())| && group.Channels() == old(group.Channels())[i := Some(user.chanUid)]
    ensures forall o :: o in group.Homes ==> o in old(group.Homes) || fresh(o)
    ensures HoldsNone(user) && Consistent(LifeOf(user), WatchAll(phase, events))
    ensures Outcome(LifeOf(user), events, err) == Destroy(old(LifeOf(user)), quiet, env)
    ensures Settled(log)
    ensures Requested(log, old(user.chanUid), quiet, env.sendOk)
  {
    hide User.Valid, Accounted, Consistent, Settled, Mailbox.Valid, Mailbox.Contents, User.Nodes, User.Rooms,
      Destroy, DestroyLog, LifeOf, Held, Answers, Requested, DestroySucceeds, HoldsNone, WatchAll;
    DestroyConsistent(LifeOf(user), phase, quiet, env);
    err, events, log := DestroyApart(group, user, i, kernel, quiet, env, arrivals, others);
    group.OthersKept(i);
    Settle(group, user, i, old(group.State()), kernel, others);
  }

  method StatusApart(group: Group, user: User, ghost i: nat, free: bool, arrivals: seq<Mail>)
    returns (err: Errno, status: Option<Mail>, ghost log: Log)
    requires group.UsersValid() && i < group.users.Length && group.users[i] == user && HoldsNone(user)
    modifies user.locks, user.queues[QUEUE_STATUS], user.queues[QUEUE_STATUS].nodes
    ensures user.Valid() && HoldsNone(user)
    ensures status == if free && user.chanUid != BAD_CHAN
      then Oldest(old(user.queues[QUEUE_STATUS].contents) + arrivals) else None
    ensures log == Consumed(status)
    ensures forall j :: 0 <= j < group.users.Length && group.users[j] != null && j != i ==>
      Frozen(group.users[j], old(group.users[j].Nodes()))
    ensures forall n :: n in user.Nodes() ==> n in old(user.Nodes()) || fresh(n)
  {
    hide User.Valid, Oldest, Rest;
    AllApart(group, user, i);
    err, status, log := WaitForStatus(user, free, arrivals);
  }

  /** A wait for a frame's status, seen from the whole device. */
  method StatusFor(group: Group, user: User, ghost i: nat, kernel: Kernel, free: bool, arrivals: seq<Mail>,
                   ghost others: multiset<nat>)
    returns (err: Errno, status: Option<Mail>, ghost log: Log)
    requires group.Valid() && Seated(group, user, i, kernel, others) && HoldsNone(user)
    modifies group`Homes, user.locks, user.queues[QUEUE_STATUS], user.queues[QUEUE_STATUS].nodes
    ensures group.Valid() && Seated(group, user, i, kernel, others)
    ensures Changed(group, old(group.State()), i, user)
    ensures i < |old(group.Channels())| && group.Channels() == old(group.Channels())[i := Some(user.chanUid)]
    ensures forall o :: o in group.Homes ==> o in old(group.Homes) || fresh(o)
    ensures HoldsNone(user)
    ensures status == if free && user.chanUid != BAD_CHAN
      then Oldest(old(user.queues[QUEUE_STATUS].contents) + arrivals) else None
    ensures log == Consumed(status)
  {
    hide User.Valid, Accounted, Mailbox.Valid, Mailbox.Contents, User.Nodes, User.Rooms, Oldest, Consumed, Held;
    err, status, log := StatusApart(group, user, i, free, arrivals);
    group.OthersKept(i);
    Settle(group, user, i, old(group.State()), kernel, others);
  }

  // ---- The interrupt pass between calls -------------------------------------------------------------

  lemma ConsistentWithAnswers(s: Life, p: Phase, answers: seq<Mail>)
    requires Consistent(s, p)
    ensures Consistent(s.(answers := answers), p)
  {
  }

  lemma LifeAfterPass(user: User, before: Life)
    requires user.Valid() && user.chanUid == before.chan && user.checkpoint == before.checkpoint
    requires PoolViewOf(user.intBuffers) == before.interm && PoolViewOf(user.recBuffers) == before.recon
    requires user.intBuffers.doubleFreed || user.recBuffers.doubleFreed <==> before.doubleFreed
    ensures LifeOf(user) == before.(answers := user.queues[QUEUE_CREATE].contents)
  {
  }

  /** What a pass brings to each queue of the user in slot `i`. */
  ghost function Brings(group: Group, i: nat): (gains: seq<seq<Mail>>)
    requires group.Valid() && forall k :: 0 <= k < |group.inbox.Contents()| ==> Routable(group.inbox.Contents()[k])
    reads group, group.users, group.Homes, group.inbox, group.inbox.data, group.commands, group.commands.data
  {
    Shares(group.Channels(), group.inbox.Contents()[..DeliveryRuns.Batch(group.inbox.Contents())], i)
  }

  function Shares(channels: seq<Option<int>>, ms: seq<Mail>, i: nat): (shares: seq<seq<Mail>>)
    requires forall k :: 0 <= k < |ms| ==> Routable(ms[k])
    ensures |shares| == QUEUES && forall q :: 0 <= q < QUEUES ==> shares[q] == Share(channels, ms, i, q)
  {
    seq(QUEUES, q requires 0 <= q < QUEUES => Share(channels, ms, i, q))
  }

  ghost predicate Gains(before: seq<seq<Mail>>, after: seq<seq<Mail>>, gains: seq<seq<Mail>>)
  {
    |before| == |after| == |gains| == QUEUES && forall q :: 0 <= q < QUEUES ==> after[q] == before[q] + gains[q]
  }

  ghost function ViewAfterPass(group: Group): (v: View)
    requires group.Valid() && forall k :: 0 <= k < |group.inbox.Contents()| ==> Routable(group.inbox.Contents()[k])
    reads group, group.users, group.Homes, group.inbox, group.inbox.data, group.commands, group.commands.data
    reads group.ledger
  {
    HandleAll(group.commands.size, group.State(), group.inbox.Contents()[..DeliveryRuns.Batch(group.inbox.Contents())])
  }

  method PassOver(group: Group, user: User, ghost i: nat, kernel: Kernel, ghost others: multiset<nat>,
                  ghost phase: Phase)
    requires group.Valid() && Seated(group, user, i, kernel, others)
    requires HoldsNone(user) && Consistent(LifeOf(user), phase)
    requires forall k :: 0 <= k < |group.inbox.Contents()| ==> Routable(group.inbox.Contents()[k])
    modifies group`Homes, group.Queues()`list, group.Queues()`nodes, group.Queues()`contents, group.Queues()`popped
    modifies group.Cells(), group.ledger, group.commands, group.commands.data, group.inbox
    ensures group.Valid() && Seated(group, user, i, kernel, others)
    ensures forall o :: o in group.Homes ==> o in old(group.Homes) || fresh(o)
    ensures group.inbox.Contents()
         == old(group.inbox.Contents())[DeliveryRuns.Batch(old(group.inbox.Contents()))..]
    ensures HoldsNone(user) && Consistent(LifeOf(user), phase)
    ensures LifeOf(user) == old(LifeOf(user)).(answers := user.queues[QUEUE_CREATE].contents)
    ensures group.State() == old(ViewAfterPass(group)) && group.Channels() == old(group.Channels())
  {
    hide User.Valid, Accounted, Consistent, Mailbox.Valid, Mailbox.Contents, User.Nodes, Routable, HandleAll, Held,
      DeliveryRuns.Balanced;
    group.ReadMails();
    LifeAfterPass(user, old(LifeOf(user)));
    ConsistentWithAnswers(old(LifeOf(user)), phase, user.queues[QUEUE_CREATE].contents);
  }

  /** Whatever reaches a queue comes from the ring and is of the queue's kind. */
  lemma {:induction false} ShareIsOfKind(channels: seq<Option<int>>, ms: seq<Mail>, i: nat, q: nat)
    requires forall k :: 0 <= k < |ms| ==> Routable(ms[k])
    ensures forall m :: m in Share(channels, ms, i, q) ==> m in ms && MailToQueue(m.uid) == q
  {
    hide Routable, MailToQueue;
    if ms != [] {
      ShareIsOfKind(channels, ms[1..], i, q);
    }
  }

  lemma SharesGained(size: nat, v: View, ms: seq<Mail>, i: nat)
    requires Shaped(v) && i < |v.rooms| && forall k :: 0 <= k < |ms| ==> Routable(ms[k])
    ensures |HandleAll(size, v, ms).rooms| == |v.rooms|
    ensures Gains(v.rooms[i], HandleAll(size, v, ms).rooms[i], Shares(v.channels, ms, i))
  {
    hide HandleAll, Share, Routable;
    PassDeliversShares(size, v, ms, i, 0);
    forall q | 0 <= q < QUEUES
      ensures HandleAll(size, v, ms).rooms[i][q] == v.rooms[i][q] + Share(v.channels, ms, i, q)
    {
      PassDeliversShares(size, v, ms, i, q);
    }
  }

  lemma RoomsInState(group: Group, user: User, i: nat)
    requires group.Valid() && i < group.users.Length && group.users[i] == user
    ensures i < |group.State().rooms| && group.State().rooms[i] == user.Rooms()
    ensures group.State().channels == group.Channels()
  {
    hide User.Valid, Mailbox.Valid, Mailbox.Contents, User.Nodes;
  }

  /** An interrupt pass between two calls of a user: each of its queues gains its share of the mails, in order, and
      everything else of it, its channel, checkpoint, pools, gates and locks, is as before. */
  method Pass(group: Group, user: User, ghost i: nat, kernel: Kernel, ghost others: multiset<nat>, ghost phase: Phase)
    requires group.Valid() && Seated(group, user, i, kernel, others)
    requires HoldsNone(user) && Consistent(LifeOf(user), phase)
    requires forall k :: 0 <= k < |group.inbox.Contents()| ==> Routable(group.inbox.Contents()[k])
    modifies group`Homes, group.Queues()`list, group.Queues()`nodes, group.Queues()`contents, group.Queues()`popped
    modifies group.Cells(), group.ledger, group.commands, group.commands.data, group.inbox
    ensures group.Valid() && Seated(group, user, i, kernel, others)
    ensures forall o :: o in group.Homes ==> o in old(group.Homes) || fresh(o)
    ensures group.inbox.Contents()
         == old(group.inbox.Contents())[DeliveryRuns.Batch(old(group.inbox.Contents()))..]
    ensures HoldsNone(user) && Consistent(LifeOf(user), phase)
    ensures LifeOf(user) == old(LifeOf(user)).(answers := user.queues[QUEUE_CREATE].contents)
    ensures Gains(old(user.Rooms()), user.Rooms(), old(Brings(group, i))) && group.Channels() == old(group.Channels())
  {
    hide User.Valid, Accounted, Consistent, Mailbox.Valid, Mailbox.Contents, User.Nodes, User.Rooms, Routable,
      HandleAll, Shares, Gains, Seated, Held, LifeOf, Group.State, Group.Channels;
    ghost var view, batch := group.State(), group.inbox.Contents()[..DeliveryRuns.Batch(group.inbox.Contents())];
    SeatedMeans(group, user, i, kernel, others);
    RoomsInState(group, user, i);
    PassOver(group, user, i, kernel, others, phase);
    SeatedMeans(group, user, i, kernel, others);
    RoomsInState(group, user, i);
    SharesGained(group.commands.size, view, batch, i);
  }

  lemma SeatedMeans(group: Group, user: User, i: nat, kernel: Kernel, others: multiset<nat>)
    requires Seated(group, user, i, kernel, others)
    ensures i < group.users.Length && group.users[i] == user && user.Valid()
  {
  }

  // ---- Opening and closing the device ---------------------------------------------------------------

  /** A user as it comes is at the start of its life, whatever else the kernel's buffers are in use for. */
  lemma NewIsNewborn(user: User, kernel: Kernel, others: multiset<nat>)
    requires user.Valid() && IsNew(user) && Accounted(kernel.d, others)
    ensures LifeOf(user) == NEWBORN && Consistent(LifeOf(user), Absent)
    ensures HoldsNone(user) && Prepared(user, kernel, others)
  {
    hide Accounted;
    assert Held(user, others) == others;
  }

  /** Every operation can start from an open that works. */
  method OpenDevice(group: Group, kernel: Kernel, ghost others: multiset<nat>) returns (user: User?)
    requires group.Valid() && Accounted(kernel.d, others)
    modifies group`Homes, group.users
    ensures group.Valid()
    ensures forall o :: o in group.Homes ==> o in old(group.Homes) || fresh(o)
    ensures user == null <==> DeliveryRuns.FirstFree(old(group.Channels())) == group.users.Length
    ensures user == null ==> group.Channels() == old(group.Channels())
    ensures user != null ==>
      group.Channels() == old(group.Channels())[DeliveryRuns.FirstFree(old(group.Channels())) := Some(BAD_CHAN)]
      && fresh(user) && fresh(user.intBuffers) && fresh(user.recBuffers) && fresh(user.locks)
      && (forall k :: 0 <= k < |user.queues| ==> fresh(user.queues[k])) && user.Nodes() == {}
      && Seated(group, user, DeliveryRuns.FirstFree(old(group.Channels())), kernel, others)
      && (forall j :: 0 <= j < group.users.Length && group.users[j] == user ==>
            j == DeliveryRuns.FirstFree(old(group.Channels())))
      && LifeOf(user) == NEWBORN && Consistent(LifeOf(user), Absent) && HoldsNone(user)
      && forall q :: 0 <= q < QUEUES ==> user.queues[q].locked
  {
    hide User.Valid, Mailbox.Valid, Accounted, User.Nodes, User.Rooms, Consistent;
    user := group.Open();
    if user != null {
      NewIsNewborn(user, kernel, others);
      forall j | 0 <= j < group.users.Length && group.users[j] == user
        ensures j == user.uid
      {
        group.NoUserTwice(j, j);
      }
    }
  }

  method ReleaseApart(group: Group, user: User, ghost i: nat, kernel: Kernel, envs: nat -> DestroyEnv,
                      ghost others: multiset<nat>, ghost phase: Phase)
    returns (ghost events: seq<Event>, ghost log: Log)
    requires Seated(group, user, i, kernel, others) && HoldsNone(user) && Consistent(LifeOf(user), phase)
    modifies user`chanUid, user`checkpoint, user.locks, user.intBuffers, user.recBuffers, kernel
    modifies user.queues`locked, user.queues[QUEUE_DESTROY], user.queues[QUEUE_DESTROY].nodes
    ensures user.Valid() && Released(user, kernel, others, Release(old(LifeOf(user)), envs).life.doubleFreed)
    ensures events == Release(old(LifeOf(user)), envs).events && Settled(log) && log.taken == []
    ensures QuietlyRequested(log, old(user.chanUid))
    ensures user.Rooms() == old(user.Rooms())
    ensures forall j :: 0 <= j < group.users.Length && group.users[j] != null && j != i ==>
      Frozen(group.users[j], old(group.users[j].Nodes()))
    ensures forall n :: n in user.Nodes() ==> n in old(user.Nodes()) || fresh(n)
  {
    hide User.Valid, Accounted, Settled, Release, Consistent, Group.AtHome;
    AllApart(group, user, i);
    ReleaseEmpties(LifeOf(user), phase, envs);
    events, log := ReleaseChannel(user, kernel, envs, others);
    NothingHeld(user, others);
  }

  /** The user holds no reference of a buffer any more; `twice` tells whether a table of its was freed twice. */
  ghost predicate Released(user: User, kernel: Kernel, others: multiset<nat>, twice: bool)
    reads user.intBuffers, user.recBuffers, kernel
  {
    user.intBuffers.handles == [] && user.recBuffers.handles == [] && Accounted(kernel.d, others)
    && (user.intBuffers.doubleFreed || user.recBuffers.doubleFreed <==> twice)
  }

  lemma NothingHeld(user: User, others: multiset<nat>)
    ensures user.intBuffers.handles == [] && user.recBuffers.handles == [] ==> Held(user, others) == others
  {
  }

  method ReleaseFor(group: Group, user: User, ghost i: nat, kernel: Kernel, envs: nat -> DestroyEnv,
                    ghost others: multiset<nat>, ghost phase: Phase)
    returns (ghost events: seq<Event>, ghost log: Log)
    requires group.Valid() && Seated(group, user, i, kernel, others)
    requires HoldsNone(user) && Consistent(LifeOf(user), phase)
    modifies group`Homes
    modifies user`chanUid, user`checkpoint, user.locks, user.intBuffers, user.recBuffers, kernel
    modifies user.queues`locked, user.queues[QUEUE_DESTROY], user.queues[QUEUE_DESTROY].nodes
    ensures group.Valid() && group.users[i] == user && Changed(group, old(group.State()), i, user)
    ensures Released(user, kernel, others, Release(old(LifeOf(user)), envs).life.doubleFreed)
    ensures events == Release(old(LifeOf(user)), envs).events && Settled(log) && log.taken == []
    ensures QuietlyRequested(log, old(user.chanUid))
    ensures user.Rooms() == old(user.Rooms())
  {
    hide User.Valid, Accounted, Consistent, Settled, Mailbox.Valid, Mailbox.Contents, User.Nodes, User.Rooms,
      Release, LifeOf, Released, QuietlyRequested;
    events, log := ReleaseApart(group, user, i, kernel, envs, others, phase);
    ReleasedIsPrepared(user, kernel, others, Release(old(LifeOf(user)), envs).life.doubleFreed);
    group.OthersKept(i);
    Settle(group, user, i, old(group.State()), kernel, others);
  }

  lemma ReleasedIsPrepared(user: User, kernel: Kernel, others: multiset<nat>, twice: bool)
    requires user.Valid() && Released(user, kernel, others, twice)
    ensures Prepared(user, kernel, others)
  {
    hide Accounted;
    NothingHeld(user, others);
  }

  /** Closing the device: the channel is destroyed if one of the tries works, the buffers go back in any case, every
      mail that waited is freed once, and the slot is free again. Nothing of the user is left. */
  method CloseDevice(group: Group, user: User, ghost i: nat, kernel: Kernel, envs: nat -> DestroyEnv,
                     ghost others: multiset<nat>, ghost phase: Phase)
    returns (ghost events: seq<Event>, ghost log: Log)
    requires group.Valid() && Seated(group, user, i, kernel, others)
    requires HoldsNone(user) && Consistent(LifeOf(user), phase)
    modifies group`Homes, group.users, group.ledger, user.queues
    modifies user`chanUid, user`checkpoint, user.locks, user.intBuffers, user.recBuffers, kernel
    modifies user.queues[QUEUE_DESTROY].nodes
    ensures group.Valid()
    ensures group.Channels() == old(group.Channels())[i := None]
    ensures group.Rooms() == old(group.Rooms())[i := DeliveryRuns.NO_MAILS]
    ensures group.ledger.freed == old(group.ledger.freed) + Flat(old(group.Rooms())[i])
    ensures Released(user, kernel, others, Release(old(LifeOf(user)), envs).life.doubleFreed)
    ensures events == Release(old(LifeOf(user)), envs).events && Settled(log) && log.taken == []
    ensures QuietlyRequested(log, old(user.chanUid))
  {
    hide User.Valid, Accounted, Consistent, Settled, Mailbox.Valid, Mailbox.Contents, User.Nodes, User.Rooms,
      Release, LifeOf, Flat, Held, QuietlyRequested;
    events, log := ReleaseFor(group, user, i, kernel, envs, others, phase);
    group.Leave(user, i);
  }

  // ---- From opening to closing ----------------------------------------------------------------------

  /** The ring holds mails as the firmware writes them. */
  ghost predicate WellFormed(ms: seq<Mail>)
  {
    forall k :: 0 <= k < |ms| ==> Routable(ms[k]) && (ms[k].uid == MSG_CREATE_CHANNEL ==> IsAnswer(ms[k]))
  }

  lemma AnswersFromRing(channels: seq<Option<int>>, ms: seq<Mail>, i: nat)
    requires WellFormed(ms)
    ensures AllAnswers(Share(channels, ms, i, QUEUE_CREATE))
  {
    hide IsAnswer, Routable;
    ShareIsOfKind(channels, ms, i, QUEUE_CREATE);
    forall m | m in Share(channels, ms, i, QUEUE_CREATE)
      ensures IsAnswer(m)
    {
      QueueKinds(m.uid);
    }
  }

  /** What a pass brings to a user that had no answers are answers. */
  lemma AnswersGained(before: seq<seq<Mail>>, after: seq<seq<Mail>>, channels: seq<Option<int>>, ms: seq<Mail>, i: nat)
    requires WellFormed(ms) && Gains(before, after, Shares(channels, ms, i)) && before[QUEUE_CREATE] == []
    ensures |after| == QUEUES && AllAnswers(after[QUEUE_CREATE])
  {
    hide AllAnswers, Share;
    AnswersFromRing(channels, ms, i);
    assert [] + Share(channels, ms, i, QUEUE_CREATE) == Share(channels, ms, i, QUEUE_CREATE);
  }

  lemma AnswersInRooms(user: User)
    requires user.Valid()
    ensures |user.Rooms()| == QUEUES && user.Rooms()[QUEUE_CREATE] == LifeOf(user).answers
  {
  }

  /** A pass over a user that had no answers leaves it with answers that it can use. */
  method FirstPass(group: Group, user: User, ghost i: nat, kernel: Kernel, ghost others: multiset<nat>)
    requires group.Valid() && Seated(group, user, i, kernel, others) && HoldsNone(user) && LifeOf(user) == NEWBORN
    requires WellFormed(group.inbox.Contents())
    modifies group`Homes, group.Queues()`list, group.Queues()`nodes, group.Queues()`contents, group.Queues()`popped
    modifies group.Cells(), group.ledger, group.commands, group.commands.data, group.inbox
    ensures group.Valid() && Seated(group, user, i, kernel, others)
    ensures forall o :: o in group.Homes ==> o in old(group.Homes) || fresh(o)
    ensures HoldsNone(user) && Consistent(LifeOf(user), Absent) && AllAnswers(LifeOf(user).answers)
    ensures group.Channels() == old(group.Channels()) && WellFormed(group.inbox.Contents())
  {
    hide User.Valid, Accounted, Mailbox.Valid, Mailbox.Contents, User.Nodes, User.Rooms, Routable, Held, LifeOf,
      IsAnswer, Group.Valid, Group.UsersValid, Group.RingsValid, HoldsNone, Group.Channels, AllAnswers, Shares,
      Gains;
    ghost var channels, batch := group.Channels(), group.inbox.Contents()[..DeliveryRuns.Batch(group.inbox.Contents())];
    AnswersInRooms(user);
    Pass(group, user, i, kernel, others, Absent);
    AnswersInRooms(user);
    AnswersGained(old(user.Rooms()), user.Rooms(), channels, batch, i);
  }

  /** Opens the device and lets a pass come in between. */
  method OpenAndPass(group: Group, kernel: Kernel, ghost others: multiset<nat>) returns (user: User?, ghost i: nat)
    requires group.Valid() && Accounted(kernel.d, others) && WellFormed(group.inbox.Contents())
    modifies group`Homes, group.users, group.ledger, group.commands, group.commands.data, group.inbox
    modifies group.Queues()`list, group.Queues()`nodes, group.Queues()`contents, group.Queues()`popped, group.Cells()
    ensures group.Valid()
    ensures forall o :: o in group.Homes ==> o in old(group.Homes) || fresh(o)
    ensures user == null <==> forall j :: 0 <= j < |old(group.Channels())| ==> old(group.Channels())[j].Some?
    ensures user != null ==>
      i < |old(group.Channels())| && old(group.Channels())[i] == None
      && fresh(user) && fresh(user.intBuffers) && fresh(user.recBuffers) && fresh(user.locks)
      && (forall k :: 0 <= k < |user.queues| ==> fresh(user.queues[k]))
      && Seated(group, user, i, kernel, others) && HoldsNone(user) && Consistent(LifeOf(user), Absent)
      && AllAnswers(LifeOf(user).answers) && group.Channels() == old(group.Channels())[i := Some(BAD_CHAN)]
    ensures user == null ==> group.Channels() == old(group.Channels())
    ensures WellFormed(group.inbox.Contents())
  {
    hide User.Valid, Accounted, Consistent, Mailbox.Valid, Mailbox.Contents, User.Nodes, User.Rooms, Routable, Held,
      LifeOf, IsAnswer, Brings, Gains, Group.Valid, Group.UsersValid, Group.RingsValid, Seated, HoldsNone,
      Group.Channels, Group.ObjectsOf, AllAnswers, WellFormed;
    i := DeliveryRuns.FirstFree(group.Channels());
    user := OpenDevice(group, kernel, others);
    if user != null {
      FirstPass(group, user, i, kernel, others);
    }
  }

  lemma ListsAtHome(group: Group, user: User, i: nat, kernel: Kernel, others: multiset<nat>)
    requires Seated(group, user, i, kernel, others)
    ensures |user.queues| == QUEUES && forall q :: 0 <= q < QUEUES ==> user.queues[q] in group.Homes
    ensures forall q, n :: 0 <= q < QUEUES && n in user.queues[q].nodes ==> n in group.Homes
  {
    hide User.Valid;
  }

  /** A creation, and a pass after it. */
  method CreateAndPass(group: Group, user: User, ghost i: nat, kernel: Kernel, params: seq<u8>, env: CreateEnv,
                       cleanUp: DestroyEnv, destroyed: seq<Mail>, ghost others: multiset<nat>)
    returns (err: Errno, ghost phase: Phase)
    requires group.Valid() && Seated(group, user, i, kernel, others) && HoldsNone(user)
    requires Consistent(LifeOf(user), Absent)
    requires forall k :: 0 <= k < |group.inbox.Contents()| ==> Routable(group.inbox.Contents()[k])
    requires Answerable(user, env) && Answers(user, destroyed, cleanUp) && 4 + |params| < 0x1_0000_0000
    modifies group`Homes, group.ledger, group.commands, group.commands.data, group.inbox
    modifies group.Queues()`list, group.Queues()`nodes, group.Queues()`contents, group.Queues()`popped, group.Cells()
    modifies user`chanUid, user`checkpoint, user.locks, user.intBuffers, user.recBuffers, user.queues, kernel
    ensures group.Valid() && Seated(group, user, i, kernel, others) && HoldsNone(user)
    ensures forall o :: o in group.Homes ==> o in old(group.Homes) || fresh(o)
    ensures Consistent(LifeOf(user), phase)
    ensures i < |old(group.Channels())| && group.Channels() == old(group.Channels())[i := Some(user.chanUid)]
  {
    hide User.Valid, Accounted, Consistent, Mailbox.Valid, Mailbox.Contents, User.Nodes, User.Rooms, Routable, Held,
      LifeOf, IsAnswer, Brings, Gains, Group.Valid, Group.UsersValid, Group.RingsValid, HoldsNone, Group.Channels,
      Answerable, Answers, Settled, Seated, Changed, Group.State, CreateAlone, WatchAll;
    ListsAtHome(group, user, i, kernel, others);
    SeatedMeans(group, user, i, kernel, others);
    assert i < |group.Channels()|;
    ghost var events, log;
    var status;
    err, status, events, log := Create(group, user, i, kernel, params, env, cleanUp, destroyed, others, Absent);
    phase := WatchAll(Absent, events);
    Pass(group, user, i, kernel, others, phase);
  }

  /** A quiet destruction that may fail, and the close. */
  method DestroyAndClose(group: Group, user: User, ghost i: nat, kernel: Kernel, destroy: DestroyEnv,
                         envs: nat -> DestroyEnv, ghost others: multiset<nat>, ghost phase: Phase)
    requires group.Valid() && Seated(group, user, i, kernel, others)
    requires HoldsNone(user) && Consistent(LifeOf(user), phase)
    modifies group`Homes, group.users, group.ledger, user.queues, group.Cells()
    modifies user`chanUid, user`checkpoint, user.locks, user.intBuffers, user.recBuffers, kernel
    ensures group.Valid() && Accounted(kernel.d, others)
    ensures user.intBuffers.handles == [] && user.recBuffers.handles == []
    ensures i < |old(group.Channels())| && group.Channels() == old(group.Channels())[i := None]
  {
    hide User.Valid, Accounted, Consistent, Mailbox.Valid, Mailbox.Contents, User.Nodes, User.Rooms, Routable, Held,
      LifeOf, IsAnswer, Brings, Gains, Group.Valid, Group.UsersValid, Group.RingsValid, HoldsNone, Group.Channels,
      Answerable, Answers, Settled, Seated, Changed, Group.State, CreateAlone, WatchAll,
      Requested, QuietlyRequested, Destroy, Release, Flat;
    ListsAtHome(group, user, i, kernel, others);
    ghost var events, log, after;
    var err;
    err, events, log := DestroyFor(group, user, i, kernel, true, destroy, [], others, phase);
    after := WatchAll(phase, events);
    ListsAtHome(group, user, i, kernel, others);
    events, log := CloseDevice(group, user, i, kernel, envs, others, after);
  }

  lemma CanCreate(user: User, env: CreateEnv, destroyed: seq<Mail>, cleanUp: DestroyEnv)
    requires user.Valid() && AllAnswers(LifeOf(user).answers) && AllAnswers(env.arrivals)
    requires env.wait.Ready? ==> env.arrivals != []
    requires destroyed != [] && cleanUp.answered
    ensures Answerable(user, env) && Answers(user, destroyed, cleanUp)
  {
  }

  /** From opening to closing: open, a pass, a creation, a pass, a destruction, the close. Whatever fails on the way,
      afterwards the table is in order, its slots are taken and free as before, and every reference that is left has
      its owner among the others. */
  method Session(group: Group, kernel: Kernel, params: seq<u8>, env: CreateEnv, cleanUp: DestroyEnv,
                 destroyed: seq<Mail>, destroy: DestroyEnv, envs: nat -> DestroyEnv, ghost others: multiset<nat>)
    returns (worked: bool)
    requires group.Valid() && Accounted(kernel.d, others) && WellFormed(group.inbox.Contents())
    requires AllAnswers(env.arrivals) && (env.wait.Ready? ==> env.arrivals != []) && 4 + |params| < 0x1_0000_0000
    requires destroyed != [] && cleanUp.answered
    modifies group`Homes, group.users, group.ledger, group.commands, group.commands.data, group.inbox, kernel
    modifies group.Queues()`list, group.Queues()`nodes, group.Queues()`contents, group.Queues()`popped, group.Cells()
    ensures group.Valid() && Accounted(kernel.d, others)
    ensures group.Channels() == old(group.Channels())
    ensures worked ==> exists j :: 0 <= j < |old(group.Channels())| && old(group.Channels())[j] == None
  {
    hide User.Valid, Accounted, Consistent, Mailbox.Valid, Mailbox.Contents, User.Nodes, User.Rooms, Routable, Held,
      LifeOf, IsAnswer, Brings, Gains, Group.Valid, Group.UsersValid, Group.RingsValid, HoldsNone, Group.Channels,
      Answerable, Answers, Settled, Seated, Changed, Group.State, CreateAlone, WatchAll, AllAnswers,
      Group.ObjectsOf;
    var user;
    ghost var i;
    worked := false;
    user, i := OpenAndPass(group, kernel, others);
    if user == null {
      return;
    }
    assert user.Valid() by { SeatedMeans(group, user, i, kernel, others); }
    CanCreate(user, env, destroyed, cleanUp);
    var err;
    ghost var phase;
    err, phase := CreateAndPass(group, user, i, kernel, params, env, cleanUp, destroyed, others);
    DestroyAndClose(group, user, i, kernel, destroy, envs, others, phase);
    worked := err == Fine;
  }
}
