/** The encoder's reconstructed pictures: the microcontroller names a buffer of the reference pool by its slot,
    the application gets a descriptor for it and gives it back by that descriptor. */
module EncoderPictures {
  import opened MachineWords
  import opened Mails
  import opened MailQueues
  import opened DmaKernel
  import opened BufferPools
  import opened Dispatch
  import opened Users
  import opened ChannelLife
  import opened UserOps

  /** `OutOfTable` stands for the read of the handle behind the last one. */
  datatype Picture = NoPicture(err: Errno) | OutOfTable | Picture(fd: int, picStruct: u32, poc: u32)

  /** How the outside turns out: whether the lock is free, whether the request can be sent, the answers that
      arrive, and the descriptor that the kernel gives out, or its negative error code. */
  datatype PictureEnv = PictureEnv(free: bool, sendOk: bool, arrivals: seq<Mail>, descriptor: int)

  /** An announcement of a picture has the slot, the structure and the order count behind the channel. */
  predicate IsAnnouncement(m: Mail)
  {
    HasWord(m, 3)
  }

  /** The announcement that a request takes from the queue, if it gets that far. */
  ghost function Announced(user: User, env: PictureEnv): (m: Option<Mail>)
    requires |user.queues| == QUEUES
    reads user`chanUid, user.queues`contents
  {
    if env.free && user.chanUid != BAD_CHAN && env.sendOk then Oldest(user.queues[QUEUE_REC].contents + env.arrivals)
    else None
  }

  function SlotIn(m: Mail): (id: int)
    requires IsAnnouncement(m)
  {
    ToInt32(WordAt(m, 1))
  }

  ghost predicate Announceable(user: User, env: PictureEnv)
    requires |user.queues| == QUEUES
    reads user.queues`contents
  {
    forall m :: m in user.queues[QUEUE_REC].contents + env.arrivals ==> IsAnnouncement(m)
  }

  /** What a fetch may come to, given the announcement it took and the descriptors before and after. */
  predicate Fetched(p: Picture, m: Option<Mail>, handles: seq<nat>, before: map<int, nat>, after: map<int, nat>,
                    descriptor: int)
    requires m.Some? ==> IsAnnouncement(m.value)
  {
    (p.OutOfTable? <==> m.Some? && SlotIn(m.value) == |handles|)
    && (p.Picture? <==> m.Some? && 0 <= SlotIn(m.value) < |handles| && descriptor != -1)
    && (p.Picture? ==> p == Picture(descriptor, WordAt(m.value, 2), WordAt(m.value, 3)))
    && after == if p.Picture? && p.fd >= 0 then before[p.fd := handles[SlotIn(m.value)]] else before
  }

  /** A descriptor for the slot, or -1; `past` tells that the handle behind the last one was read instead. */
  method GetUserRecBuffer(user: User, kernel: Kernel, id: int, descriptor: int, ghost others: multiset<nat>)
    returns (fd: int, past: bool)
    requires Prepared(user, kernel, others) && (descriptor >= 0 ==> descriptor !in kernel.d.fds)
    modifies kernel
    ensures Prepared(user, kernel, others)
    ensures past <==> id == user.recBuffers.count
    ensures fd == if 0 <= id < user.recBuffers.count then descriptor else -1
    ensures kernel.d.fds == if fd >= 0 then old(kernel.d.fds)[fd := user.recBuffers.handles[id]] else old(kernel.d.fds)
    ensures fd >= 0 ==>
      RefCount(kernel.d, user.recBuffers.handles[id]) == RefCount(old(kernel.d), user.recBuffers.handles[id]) + 1
    ensures kernel.d.live == old(kernel.d.live)
  {
    hide MailQueue.Valid, Accounted, RefCount;
    if !PassesTest(id, user.recBuffers.count) {
      return -1, false;
    }
    if id == user.recBuffers.count {
      return -1, true;
    }
    PoolsAreHeld(user, others);
    fd := user.recBuffers.ReserveFd(kernel, id, descriptor, Held(user, others));
    past := false;
  }

  lemma PoolsAreHeld(user: User, others: multiset<nat>)
    requires user.Valid()
    ensures multiset(user.recBuffers.handles) <= Held(user, others)
  {
  }

  /** The oldest announcement is taken in any case, even when its slot is refused; a slot within the pool opens
      one descriptor on its buffer, and exactly the slot that is the number of buffers goes past the table. */
  method GetRec(user: User, kernel: Kernel, env: PictureEnv, ghost others: multiset<nat>)
    returns (p: Picture, ghost log: Log)
    requires Prepared(user, kernel, others) && HoldsNone(user) && Announceable(user, env)
    requires env.descriptor >= 0 ==> env.descriptor !in kernel.d.fds
    modifies kernel, user.locks, user.queues[QUEUE_REC], user.queues[QUEUE_REC].nodes
    ensures Prepared(user, kernel, others) && HoldsNone(user)
    ensures Fetched(p, old(Announced(user, env)), user.recBuffers.handles, old(kernel.d.fds), kernel.d.fds,
                    env.descriptor)
    ensures p.NoPicture? ==>
      p.err == if !env.free then EINTR else if user.chanUid == BAD_CHAN then EPERM else if !env.sendOk then EAGAIN
               else if old(user.queues[QUEUE_REC].contents) + env.arrivals == [] then EINTR else EINVAL
    ensures log == if !env.free || user.chanUid == BAD_CHAN then NO_MAIL
      else FetchLog(user.chanUid, env.sendOk, old(Announced(user, env)))
    ensures Settled(log)
    ensures log.made == [] <==> !env.free || user.chanUid == BAD_CHAN
    ensures log.made != [] ==>
      |log.made| == 1 && log.made[0].uid == MSG_GET_RECONSTRUCTED_PICTURE
      && |log.made[0].body| == 4 && WordAt(log.made[0], 0) == ToUint32(user.chanUid)
    ensures log.sent == if env.sendOk then log.made else []
    ensures forall n :: n in user.queues[QUEUE_REC].nodes ==> n in old(user.queues[QUEUE_REC].nodes) || fresh(n)
    ensures user.queues[QUEUE_REC].contents
         == if env.free && user.chanUid != BAD_CHAN && env.sendOk
            then Rest(old(user.queues[QUEUE_REC].contents) + env.arrivals) else old(user.queues[QUEUE_REC].contents)
  {
    hide MailQueue.Valid, BufferPool.Valid, Accounted, Held, RefCount, WordAt, Rest, Settled, FetchLog, Oldest;
    log := NO_MAIL;
    NoMailSettled(log);
    if !env.free {
      return NoPicture(EINTR), log;
    }
    user.locks[LOCK_REC] := true;
    FetchMails(user.chanUid, env.sendOk, Announced(user, env));
    if user.chanUid == BAD_CHAN {
      p := NoPicture(EPERM);
    } else {
      p, log := RequestRec(user, kernel, env, others);
    }
    user.locks[LOCK_REC] := false;
  }

  /** The mails of a fetch: its request and the announcement that it took. */
  function FetchLog(chan: int, ok: bool, m: Option<Mail>): (l: Log)
    ensures Settled(l)
  {
    var request := Addressed(ToUint32(chan), MSG_GET_RECONSTRUCTED_PICTURE, []);
    JoinSettled(Posted(request, ok), Consumed(m));
    Join(Posted(request, ok), Consumed(m))
  }

  lemma FetchMails(chan: int, ok: bool, m: Option<Mail>)
    ensures
      var l := FetchLog(chan, ok, m);
      |l.made| == 1 && l.made[0].uid == MSG_GET_RECONSTRUCTED_PICTURE
      && |l.made[0].body| == 4 && WordAt(l.made[0], 0) == ToUint32(chan) && l.sent == if ok then l.made else []
  {
  }

  /** The fetch under its lock. */
  method RequestRec(user: User, kernel: Kernel, env: PictureEnv, ghost others: multiset<nat>)
    returns (p: Picture, ghost log: Log)
    requires Prepared(user, kernel, others) && Announceable(user, env) && env.free && user.chanUid != BAD_CHAN
    requires user.locks[LOCK_REC]
    requires env.descriptor >= 0 ==> env.descriptor !in kernel.d.fds
    modifies kernel, user.queues[QUEUE_REC], user.queues[QUEUE_REC].nodes
    ensures Prepared(user, kernel, others)
    ensures Fetched(p, old(Announced(user, env)), user.recBuffers.handles, old(kernel.d.fds), kernel.d.fds,
                    env.descriptor)
    ensures p.NoPicture? ==>
      p.err == if !env.sendOk then EAGAIN
               else if old(user.queues[QUEUE_REC].contents) + env.arrivals == [] then EINTR else EINVAL
    ensures log == FetchLog(user.chanUid, env.sendOk, old(Announced(user, env)))
    ensures forall n :: n in user.queues[QUEUE_REC].nodes ==> n in old(user.queues[QUEUE_REC].nodes) || fresh(n)
    ensures user.queues[QUEUE_REC].contents
         == if env.sendOk then Rest(old(user.queues[QUEUE_REC].contents) + env.arrivals)
            else old(user.queues[QUEUE_REC].contents)
  {
    hide MailQueue.Valid, BufferPool.Valid, Accounted, Held, RefCount, WordAt, Rest, Addressed, Settled;
    var request := CreateEmptyMail(ToUint32(user.chanUid), MSG_GET_RECONSTRUCTED_PICTURE);
    var err;
    err, log := CheckAndSend(request, env.sendOk);
    if err != Fine {
      return NoPicture(EAGAIN), Join(log, NO_MAIL);
    }
    ghost var used;
    p, used := FetchRec(user, kernel, env, others);
    log := Join(log, used);
  }

  /** The part of the fetch after the request was sent. */
  method FetchRec(user: User, kernel: Kernel, env: PictureEnv, ghost others: multiset<nat>)
    returns (p: Picture, ghost log: Log)
    requires Prepared(user, kernel, others) && Announceable(user, env) && user.locks[LOCK_REC]
    requires env.descriptor >= 0 ==> env.descriptor !in kernel.d.fds
    modifies kernel, user.queues[QUEUE_REC], user.queues[QUEUE_REC].nodes
    ensures Prepared(user, kernel, others)
    ensures
      var m := Oldest(old(user.queues[QUEUE_REC].contents) + env.arrivals);
      Fetched(p, m, user.recBuffers.handles, old(kernel.d.fds), kernel.d.fds, env.descriptor)
      && (p.NoPicture? ==> p.err == if m.None? then EINTR else EINVAL) && log == Consumed(m)
    ensures forall n :: n in user.queues[QUEUE_REC].nodes ==> n in old(user.queues[QUEUE_REC].nodes) || fresh(n)
    ensures user.queues[QUEUE_REC].contents == Rest(old(user.queues[QUEUE_REC].contents) + env.arrivals)
  {
    hide MailQueue.Valid, Accounted, Held, RefCount, WordAt;
    var feedback := AwaitOn(user, QUEUE_REC, env.arrivals);
    log := FreeMail(feedback, Log([], [], Taken(feedback), []));
    if feedback.None? {
      return NoPicture(EINTR), log;
    }
    var fd, past := GetUserRecBuffer(user, kernel, SlotIn(feedback.value), env.descriptor, others);
    p := if past then OutOfTable else if fd == -1 then NoPicture(EINVAL)
         else Picture(fd, WordAt(feedback.value, 2), WordAt(feedback.value, 3));
  }

  /** Returns the picture behind a descriptor: the mail names its slot, and is only built for a descriptor of a
      buffer of the reference pool. */
  method ReturnRec(user: User, kernel: Kernel, fd: u32, sendOk: bool, ghost others: multiset<nat>)
    returns (err: Errno, ghost slot: int, ghost log: Log)
    requires Prepared(user, kernel, others) && user.locks[LOCK_REC]
    modifies kernel
    ensures Prepared(user, kernel, others) && kernel.d == old(kernel.d)
    ensures NamesSlot(user.recBuffers.handles, kernel.d, ToInt32(fd), slot)
    ensures err == if slot == -1 then EINVAL else if sendOk then Fine else EAGAIN
    ensures log == if slot == -1 then NO_MAIL else Posted(ReturnMail(user.chanUid, slot), sendOk)
  {
    hide MailQueue.Valid, Accounted, Held, Addressed;
    var id := user.recBuffers.GetId(kernel, ToInt32(fd), Held(user, others));
    slot, log := id, NO_MAIL;
    if id < 0 {
      return EINVAL, slot, log;
    }
    var mail := CreateClassicMail(ToUint32(user.chanUid), MSG_RELEASE_RECONSTRUCTED_PICTURE, Unpack(WordFor(id)));
    err, log := CheckAndSend(mail, sendOk);
  }

  function ReturnMail(chan: int, slot: int): (m: Mail)
    requires 0 <= slot < MAX_TABLE
  {
    Addressed(ToUint32(chan), MSG_RELEASE_RECONSTRUCTED_PICTURE, Unpack(WordFor(slot)))
  }

  lemma ReturnMailNames(chan: int, slot: int)
    requires 0 <= slot < MAX_TABLE
    ensures
      var m := ReturnMail(chan, slot);
      m.uid == MSG_RELEASE_RECONSTRUCTED_PICTURE && |m.body| == 8
      && WordAt(m, 0) == ToUint32(chan) && WordAt(m, 1) == slot
  {
    hide Unpack, WordFor, Value;
    var m := ReturnMail(chan, slot);
    assert m.body[4..8] == m.body[4..] == Unpack(WordFor(slot));
    ValueRoundTrip(slot, WordFor(slot));
  }

  /** Gives back the picture behind a descriptor: the mail names the slot whose buffer the descriptor is open on. */
  method ReleaseRec(user: User, kernel: Kernel, fd: u32, free: bool, sendOk: bool, ghost others: multiset<nat>)
    returns (err: Errno, ghost slot: int, ghost log: Log)
    requires Prepared(user, kernel, others) && HoldsNone(user)
    modifies kernel, user.locks
    ensures Prepared(user, kernel, others) && HoldsNone(user) && kernel.d == old(kernel.d)
    ensures err == EINTR <==> !free
    ensures err == EPERM <==> free && user.chanUid == BAD_CHAN
    ensures err == EINVAL || err == EAGAIN || err == Fine ==>
      NamesSlot(user.recBuffers.handles, kernel.d, ToInt32(fd), slot)
      && err == if slot == -1 then EINVAL else if sendOk then Fine else EAGAIN
    ensures err == EINVAL <==>
      free && user.chanUid != BAD_CHAN
      && (ToInt32(fd) in kernel.d.fds ==> kernel.d.fds[ToInt32(fd)] !in user.recBuffers.handles)
    ensures log == if err == Fine || err == EAGAIN then Posted(ReturnMail(user.chanUid, slot), sendOk) else NO_MAIL
    ensures log.made == [] <==> err == EINTR || err == EPERM || err == EINVAL
    ensures log.made != [] ==>
      var m := log.made[0];
      |log.made| == 1 && m.uid == MSG_RELEASE_RECONSTRUCTED_PICTURE && |m.body| == 8
      && WordAt(m, 0) == ToUint32(user.chanUid) && WordAt(m, 1) < |user.recBuffers.handles|
      && ToInt32(fd) in kernel.d.fds && user.recBuffers.handles[WordAt(m, 1)] == kernel.d.fds[ToInt32(fd)]
    ensures Settled(log) && log.taken == [] && log.sent == if sendOk then log.made else []
  {
    hide MailQueue.Valid, Accounted, Held, ReturnMail;
    slot, log := -1, NO_MAIL;
    NoMailSettled(log);
    if !free {
      return EINTR, slot, log;
    }
    user.locks[LOCK_REC] := true;
    if user.chanUid == BAD_CHAN {
      err := EPERM;
    } else {
      err, slot, log := ReturnRec(user, kernel, fd, sendOk, others);
      if slot != -1 {
        ReturnMailNames(user.chanUid, slot);
      }
    }
    user.locks[LOCK_REC] := false;
  }

  /** A picture that was fetched and is given back while its descriptor is still open on it: the slot that the mail
      names is the slot that was announced. */
  lemma FetchedIsReturned(p: Picture, m: Mail, handles: seq<nat>, before: map<int, nat>, after: map<int, nat>,
                          fd: int, d: Dma, slot: nat)
    requires forall i, j :: 0 <= i < j < |handles| ==> handles[i] != handles[j]
    requires IsAnnouncement(m) && Fetched(p, Some(m), handles, before, after, fd) && p.Picture? && p.fd >= 0
    requires p.fd in d.fds && p.fd in after && d.fds[p.fd] == after[p.fd]
    requires slot < |handles| && handles[slot] == d.fds[p.fd]
    ensures slot == WordAt(m, 1)
  {
    hide WordAt;
  }

  /** An announcement as the firmware writes it, word by word. */
  function Announcement(chan: u32, slot: u32, picStruct: u32, poc: u32): (m: Mail)
    ensures IsAnnouncement(m)
  {
    RawMail(MSG_GET_RECONSTRUCTED_PICTURE, BytesOf([WordFor(chan), WordFor(slot), WordFor(picStruct), WordFor(poc)]))
  }

  /** A fetch reads from an announcement what the firmware put there: a slot of the pool becomes a descriptor on its
      buffer, and structure and order count are handed on. */
  lemma PictureRoundTrip(chan: u32, slot: u32, picStruct: u32, poc: u32, p: Picture, handles: seq<nat>,
                         before: map<int, nat>, after: map<int, nat>, fd: int)
    requires Fetched(p, Some(Announcement(chan, slot, picStruct, poc)), handles, before, after, fd)
    requires |handles| < MAX_TABLE
    ensures p.OutOfTable? <==> slot == |handles|
    ensures p.Picture? <==> slot < |handles| && fd != -1
    ensures p.Picture? ==>
      p == Picture(fd, picStruct, poc) && after == if fd >= 0 then before[fd := handles[slot]] else before
    ensures !p.Picture? ==> after == before
  {
    hide BytesOf, WordFor, WordAt;
    var ws := [WordFor(chan), WordFor(slot), WordFor(picStruct), WordFor(poc)];
    var m := Announcement(chan, slot, picStruct, poc);
    WordInMail(ws, m, 1, slot);
    WordInMail(ws, m, 2, picStruct);
    WordInMail(ws, m, 3, poc);
  }

  /** Waits for the status of a frame; a mail that was there is taken and freed. */
  method WaitForStatus(user: User, free: bool, arrivals: seq<Mail>)
    returns (err: Errno, status: Option<Mail>, ghost log: Log)
    requires user.Valid() && HoldsNone(user)
    modifies user.locks, user.queues[QUEUE_STATUS], user.queues[QUEUE_STATUS].nodes
    ensures user.Valid() && HoldsNone(user)
    ensures status == if free && user.chanUid != BAD_CHAN
      then Oldest(old(user.queues[QUEUE_STATUS].contents) + arrivals) else None
    ensures err == if free && user.chanUid == BAD_CHAN then EPERM else if status.Some? then Fine else EINTR
    ensures user.queues[QUEUE_STATUS].contents == if free && user.chanUid != BAD_CHAN
      then Rest(old(user.queues[QUEUE_STATUS].contents) + arrivals) else old(user.queues[QUEUE_STATUS].contents)
    ensures log == Consumed(status)
    ensures forall n :: n in user.queues[QUEUE_STATUS].nodes ==> n in old(user.queues[QUEUE_STATUS].nodes) || fresh(n)
  {
    hide MailQueue.Valid, BufferPool.Valid, Oldest, Rest;
    status, log := None, NO_MAIL;
    if !free {
      err := EINTR;
      return;
    }
    user.locks[LOCK_STATUS] := true;
    if user.chanUid == BAD_CHAN {
      err := EPERM;
    } else {
      status := AwaitOn(user, QUEUE_STATUS, arrivals);
      log := FreeMail(status, Log([], [], Taken(status), []));
      err := if status.Some? then Fine else EINTR;
    }
    user.locks[LOCK_STATUS] := false;
  }

  /** The slot test, which refuses only what lies below the first slot or above the number of buffers. */
  predicate PassesTest(id: int, count: nat)
  {
    !(id > count || id < 0)
  }

  /** The slots that pass the test and have no handle are exactly the one that is the number of buffers; for such an
      announcement, and for no other, a fetch reads past the table. */
  lemma OneSlotTooMany(p: Picture, m: Mail, handles: seq<nat>, before: map<int, nat>, after: map<int, nat>, fd: int)
    requires IsAnnouncement(m) && Fetched(p, Some(m), handles, before, after, fd)
    ensures PassesTest(SlotIn(m), |handles|) && !(0 <= SlotIn(m) < |handles|) <==> SlotIn(m) == |handles|
    ensures p.OutOfTable? <==> SlotIn(m) == |handles|
  {
  }

  /** With two buffers, an announcement of slot 2 on channel 3 does it. */
  lemma SlotPastTheTable()
    ensures
      var m := Announcement(3, 2, 0, 0);
      IsAnnouncement(m) && PassesTest(SlotIn(m), 2) && SlotIn(m) == 2
  {
    hide BytesOf, WordFor, WordAt;
    var ws := [WordFor(3), WordFor(2), WordFor(0), WordFor(0)];
    WordInMail(ws, Announcement(3, 2, 0, 0), 1, 2);
  }
}
