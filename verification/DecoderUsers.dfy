/** The decoder's operations on a user. Its channels have no checkpoints and no buffers, so that destruction and
    release, which it shares with the encoder, never touch a pool. */
module DecoderUsers {
  import opened MachineWords
  import opened Mails
  import opened MailQueues
  import opened DmaKernel
  import opened BufferPools
  import opened Dispatch
  import opened Users
  import opened ChannelLife
  import opened UserOps

  /** An answer to a decoder's creation: the status words are the third and the fourth. */
  predicate IsDecoderAnswer(m: Mail)
  {
    m.uid == MSG_CREATE_CHANNEL && HasWord(m, 3)
  }

  /** What a decoder's user looks like between calls. */
  predicate Bare(s: Life)
  {
    s.checkpoint == NO_CHECKPOINT && s.interm == EMPTY_POOL && s.recon == EMPTY_POOL && !s.doubleFreed
  }

  datatype DecoderStatus = DecoderStatus(numCore: u8, errorCode: u32)

  function StatusIn(m: Mail): (status: DecoderStatus)
    requires IsDecoderAnswer(m)
  {
    DecoderStatus(WordAt(m, 2) % 0x100, WordAt(m, 3))
  }

  /** The status that the application gets is what the firmware put there, word by word; of the number of cores it gets
      the lowest byte. */
  lemma StatusRoundTrip(chan: u32, user: u32, cores: u32, error: u32)
    ensures
      var m := RawMail(MSG_CREATE_CHANNEL, BytesOf([WordFor(chan), WordFor(user), WordFor(cores), WordFor(error)]));
      IsDecoderAnswer(m) && StatusIn(m) == DecoderStatus(cores % 0x100, error) && WordAt(m, 0) == chan
  {
    hide BytesOf, WordFor, Value, Unpack, WordAt;
    var ws := [WordFor(chan), WordFor(user), WordFor(cores), WordFor(error)];
    var m := RawMail(MSG_CREATE_CHANNEL, BytesOf(ws));
    WordInMail(ws, m, 0, chan);
    WordInMail(ws, m, 2, cores);
    WordInMail(ws, m, 3, error);
  }

  ghost predicate DecoderAnswers(user: User, arrivals: seq<Mail>, wait: Wait)
    requires |user.queues| == QUEUES
    reads user.queues`contents, user.queues`locked
  {
    (forall m :: m in user.queues[QUEUE_CREATE].contents + arrivals ==> IsDecoderAnswer(m))
    && (wait.Ready? ==> user.queues[QUEUE_CREATE].contents + arrivals != [] || !user.queues[QUEUE_CREATE].locked)
  }

  function DecoderRequest(uid: nat, params: seq<u8>): (m: Mail)
  {
    Addressed(ToUint32(uid), MSG_CREATE_CHANNEL, params)
  }

  /** The mails of a creation that gets as far as its request, `all` being what its wait finds in the queue. */
  function DecoderLog(uid: nat, params: seq<u8>, ok: bool, all: seq<Mail>): (l: Log)
    ensures Settled(l)
  {
    JoinSettled(Posted(DecoderRequest(uid, params), ok), Consumed(if ok then Oldest(all) else None));
    Join(Posted(DecoderRequest(uid, params), ok), Consumed(if ok then Oldest(all) else None))
  }

  /** The request names the user, and its parameters follow. */
  lemma RequestNamesUser(uid: nat, params: seq<u8>, ok: bool, all: seq<Mail>)
    ensures
      var l := DecoderLog(uid, params, ok, all);
      |l.made| == 1 && AsksForChannel(l.made[0], uid, params) && l.sent == if ok then l.made else []
  {
    hide Addressed;
  }

  /** A channel is there afterwards exactly if the call succeeded or there was one before, and it is the one that
      the oldest answer names; an answer is taken, and freed, exactly if the request was sent. */
  method CreateDecoderChannel(user: User, params: seq<u8>, interrupted: bool, sendOk: bool, arrivals: seq<Mail>,
                              wait: Wait)
    returns (err: Errno, status: Option<DecoderStatus>, ghost log: Log)
    requires user.Valid() && HoldsNone(user) && DecoderAnswers(user, arrivals, wait) && Bare(LifeOf(user))
    requires 4 + |params| < 0x1_0000_0000
    modifies user`chanUid, user.locks, user.queues[QUEUE_CREATE], user.queues[QUEUE_CREATE].nodes
    ensures user.Valid() && HoldsNone(user) && Bare(LifeOf(user))
    ensures
      var all := old(user.queues[QUEUE_CREATE].contents) + arrivals;
      err == (if interrupted then EINTR else if old(user.chanUid) != BAD_CHAN then EPERM else if !sendOk then EAGAIN
              else if all == [] then (if wait.Interrupted? then EINTR else EINVAL)
              else if WordAt(Oldest(all).value, 0) == BAD_CHAN then EINVAL else Fine)
      && (err == Fine ==> user.chanUid == ToInt32(WordAt(Oldest(all).value, 0)))
      && user.queues[QUEUE_CREATE].contents
         == (if interrupted || old(IsCreated(LifeOf(user))) || !sendOk then old(user.queues[QUEUE_CREATE].contents)
             else Rest(all))
      && log == (if interrupted || old(IsCreated(LifeOf(user))) then NO_MAIL
                 else DecoderLog(user.uid, params, sendOk, all))
    ensures status == if log.taken == [] then None else Some(StatusIn(log.taken[0]))
    ensures log.made == [] <==> interrupted || old(user.chanUid) != BAD_CHAN
    ensures forall m :: m in log.made ==> AsksForChannel(m, user.uid, params)
    ensures log.sent == if sendOk then log.made else []
    ensures IsCreated(LifeOf(user)) <==> err == Fine || old(IsCreated(LifeOf(user)))
    ensures err != Fine ==> user.chanUid == old(user.chanUid)
    ensures forall n :: n in user.queues[QUEUE_CREATE].nodes ==> n in old(user.queues[QUEUE_CREATE].nodes) || fresh(n)
  {
    hide MailQueue.Valid, BufferPool.Valid, Rest, WordAt, DecoderLog, StatusIn, Settled, Oldest, AsksForChannel;
    status, log := None, NO_MAIL;
    NoMailSettled(log);
    if interrupted {
      err := EINTR;
      return;
    }
    user.locks[LOCK_CREATE] := true;
    RequestNamesUser(user.uid, params, sendOk, user.queues[QUEUE_CREATE].contents + arrivals);
    if user.chanUid != BAD_CHAN {
      err := EPERM;
    } else {
      err, status, log := AskForChannel(user, params, sendOk, arrivals, wait);
    }
    user.locks[LOCK_CREATE] := false;
  }

  /** The creation under its lock. */
  method AskForChannel(user: User, params: seq<u8>, sendOk: bool, arrivals: seq<Mail>, wait: Wait)
    returns (err: Errno, status: Option<DecoderStatus>, ghost log: Log)
    requires user.Valid() && DecoderAnswers(user, arrivals, wait) && user.chanUid == BAD_CHAN && user.locks[LOCK_CREATE]
    requires 4 + |params| < 0x1_0000_0000
    modifies user`chanUid, user.queues[QUEUE_CREATE], user.queues[QUEUE_CREATE].nodes
    ensures user.Valid()
    ensures
      var all := old(user.queues[QUEUE_CREATE].contents) + arrivals;
      err == (if !sendOk then EAGAIN
              else if all == [] then (if wait.Interrupted? then EINTR else EINVAL)
              else if WordAt(Oldest(all).value, 0) == BAD_CHAN then EINVAL else Fine)
      && (err == Fine ==> user.chanUid == ToInt32(WordAt(Oldest(all).value, 0)))
      && user.queues[QUEUE_CREATE].contents
         == (if !sendOk then old(user.queues[QUEUE_CREATE].contents) else Rest(all))
      && log == DecoderLog(user.uid, params, sendOk, all)
    ensures status == if log.taken == [] then None else Some(StatusIn(log.taken[0]))
    ensures user.chanUid != BAD_CHAN <==> err == Fine
    ensures forall n :: n in user.queues[QUEUE_CREATE].nodes ==> n in old(user.queues[QUEUE_CREATE].nodes) || fresh(n)
  {
    hide MailQueue.Valid, BufferPool.Valid, Rest, WordAt, Addressed, Settled, StatusIn;
    status := None;
    var mail := CreateClassicMail(ToUint32(user.uid), MSG_CREATE_CHANNEL, params);
    err, log := CheckAndSend(mail, sendOk);
    if err == Fine {
      ghost var used;
      err, status, used := AdoptAnswer(user, arrivals, wait);
      log := Join(log, used);
    }
  }

  /** The part of the creation after the request was sent. */
  method AdoptAnswer(user: User, arrivals: seq<Mail>, wait: Wait)
    returns (err: Errno, status: Option<DecoderStatus>, ghost log: Log)
    requires user.Valid() && DecoderAnswers(user, arrivals, wait) && user.chanUid == BAD_CHAN && user.locks[LOCK_CREATE]
    modifies user`chanUid, user.queues[QUEUE_CREATE], user.queues[QUEUE_CREATE].nodes
    ensures user.Valid()
    ensures
      var all := old(user.queues[QUEUE_CREATE].contents) + arrivals;
      err == (if all == [] then (if wait.Interrupted? then EINTR else EINVAL)
              else if WordAt(Oldest(all).value, 0) == BAD_CHAN then EINVAL else Fine)
      && (err == Fine ==> user.chanUid == ToInt32(WordAt(Oldest(all).value, 0)))
      && user.queues[QUEUE_CREATE].contents == Rest(all) && log == Consumed(Oldest(all))
    ensures status == if log.taken == [] then None else Some(StatusIn(log.taken[0]))
    ensures user.chanUid != BAD_CHAN <==> err == Fine
    ensures forall n :: n in user.queues[QUEUE_CREATE].nodes ==> n in old(user.queues[QUEUE_CREATE].nodes) || fresh(n)
  {
    hide MailQueue.Valid, BufferPool.Valid, Rest, WordAt, StatusIn, Consumed;
    status := None;
    var feedback;
    feedback, err := AwaitTimeoutOn(user, QUEUE_CREATE, arrivals, wait);
    log := FreeMail(feedback, Log([], [], Taken(feedback), []));
    if err != Fine {
      return;
    }
    status := Some(StatusIn(feedback.value));
    user.chanUid := ToInt32(ChanUidOf(feedback.value));
    err := if user.chanUid == BAD_CHAN then EINVAL else Fine;
  }

  /** Waits for the result of a start-code search; this wait does not ask for a channel. */
  method WaitForStartCode(user: User, free: bool, arrivals: seq<Mail>)
    returns (err: Errno, result: Option<Mail>, ghost log: Log)
    requires user.Valid() && HoldsNone(user)
    modifies user.locks, user.queues[QUEUE_SC], user.queues[QUEUE_SC].nodes
    ensures user.Valid() && HoldsNone(user)
    ensures result == if free then Oldest(old(user.queues[QUEUE_SC].contents) + arrivals) else None
    ensures err == if result.Some? then Fine else EINTR
    ensures user.queues[QUEUE_SC].contents == if free
      then Rest(old(user.queues[QUEUE_SC].contents) + arrivals) else old(user.queues[QUEUE_SC].contents)
    ensures log == Consumed(result)
    ensures forall n :: n in user.queues[QUEUE_SC].nodes ==> n in old(user.queues[QUEUE_SC].nodes) || fresh(n)
  {
    hide MailQueue.Valid, BufferPool.Valid, Oldest, Rest;
    if !free {
      return EINTR, None, NO_MAIL;
    }
    user.locks[LOCK_SC] := true;
    result := AwaitOn(user, QUEUE_SC, arrivals);
    log := FreeMail(result, Log([], [], Taken(result), []));
    err := if result.Some? then Fine else EINTR;
    user.locks[LOCK_SC] := false;
  }

  /** Destruction and release of a decoder's user, however they go, leave it bare: no pool is ever touched and no
      table is freed twice. */
  lemma BareStaysBare(s: Life, quiet: bool, env: DestroyEnv, envs: nat -> DestroyEnv)
    requires Bare(s)
    ensures Bare(Destroy(s, quiet, env).life)
    ensures Bare(Release(s, envs).life)
    ensures Release(s, envs).life.chan == BAD_CHAN
      <==> !IsCreated(s) || exists k: nat :: k < RELEASE_TRIES && DestroySucceeds(true, envs(k))
  {
    if IsCreated(s) {
      RetrySucceeds(s, envs, 0);
      RetryBare(s, envs, 0);
    }
  }

  lemma {:induction false} RetryBare(s: Life, envs: nat -> DestroyEnv, tries: nat)
    requires Bare(s)
    ensures Bare(DestroyRetry(s, envs, tries).life)
    decreases RELEASE_TRIES - tries
  {
    if tries < RELEASE_TRIES && Destroy(s, true, envs(tries)).err != Fine {
      RetryBare(Destroy(s, true, envs(tries)).life, envs, tries + 1);
    }
  }
}
