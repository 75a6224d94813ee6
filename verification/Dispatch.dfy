/** Where the mails of the microcontroller go: the routing table as a value, and what one interrupt
    pass makes of a batch of mails. */
module Dispatch {
  import opened MachineWords
  import opened Mails
  import opened Mailboxes

  /** The channel id of a user that has no channel. */
  const BAD_CHAN: int := 0xff

  const QUEUES: nat := 7
  const QUEUE_INIT: nat := 0
  const QUEUE_CREATE: nat := 1
  const QUEUE_DESTROY: nat := 2
  const QUEUE_STATUS: nat := 3
  const QUEUE_SC: nat := 4
  const QUEUE_DEBUG: nat := 5
  const QUEUE_REC: nat := 6

  const MAX_MAILBOX_MSG: nat := 100

  function MailToQueue(uid: u16): (q: nat)
    ensures q < QUEUES
  {
    if uid == MSG_INIT then QUEUE_INIT
    else if uid == MSG_CREATE_CHANNEL then QUEUE_CREATE
    else if uid == MSG_DESTROY_CHANNEL then QUEUE_DESTROY
    else if uid == MSG_ENCODE_ONE_FRM || uid == MSG_DECODE_ONE_FRM then QUEUE_STATUS
    else if uid == MSG_SEARCH_START_CODE then QUEUE_SC
    else if uid == MSG_GET_RECONSTRUCTED_PICTURE || uid == MSG_RELEASE_RECONSTRUCTED_PICTURE then QUEUE_REC
    else QUEUE_DEBUG
  }

  /** Every kind for which somebody waits has a queue of its own; whatever else comes shares the last one. */
  lemma QueueKinds(uid: u16)
    ensures MailToQueue(uid) == QUEUE_CREATE <==> uid == MSG_CREATE_CHANNEL
    ensures MailToQueue(uid) == QUEUE_DESTROY <==> uid == MSG_DESTROY_CHANNEL
    ensures MailToQueue(uid) == QUEUE_STATUS <==> uid in {MSG_ENCODE_ONE_FRM, MSG_DECODE_ONE_FRM}
    ensures MailToQueue(uid) == QUEUE_SC <==> uid == MSG_SEARCH_START_CODE
    ensures MailToQueue(uid) == QUEUE_REC <==>
      uid in {MSG_GET_RECONSTRUCTED_PICTURE, MSG_RELEASE_RECONSTRUCTED_PICTURE}
    ensures MailToQueue(uid) == QUEUE_INIT <==> uid == MSG_INIT
  {
  }

  /** The mail is long enough for the word by which it is routed. */
  predicate Routable(m: Mail)
  {
    m.uid == MSG_TRACE || HasWord(m, if m.uid == MSG_CREATE_CHANNEL then 1 else 0)
  }

  predicate NamesUser(m: Mail)
  {
    m.uid == MSG_CREATE_CHANNEL || m.uid == MSG_INIT || m.uid == MSG_SEARCH_START_CODE
  }

  /** `channels[i]` is the channel of the user in slot i, if the slot is taken. */
  function SlotOfUid(channels: seq<Option<int>>, uid: int): (slot: Option<nat>)
  {
    if 0 <= uid < |channels| && channels[uid].Some? then Some(uid) else None
  }

  function SlotOfChan(channels: seq<Option<int>>, chan: int, from: nat): (slot: Option<nat>)
    requires from <= |channels|
    decreases |channels| - from
  {
    if from == |channels| then None
    else if channels[from] == Some(chan) then Some(from)
    else SlotOfChan(channels, chan, from + 1)
  }

  function Target(channels: seq<Option<int>>, m: Mail): (slot: Option<nat>)
    requires Routable(m) && m.uid != MSG_TRACE
  {
    if NamesUser(m) then SlotOfUid(channels, ToInt32(WordAt(m, if m.uid == MSG_CREATE_CHANNEL then 1 else 0)))
    else SlotOfChan(channels, ToInt32(WordAt(m, 0)), 0)
  }

  predicate DestroysOnBadFeedback(uid: u16)
  {
    uid != MSG_INIT && uid != MSG_SEARCH_START_CODE && uid != MSG_DESTROY_CHANNEL
  }

  function QuietDestroy(chan: int): (m: Mail)
  {
    Addressed(ToUint32(chan), MSG_QUIET_DESTROY_CHANNEL, [])
  }

  /** `rooms[i][q]` is queue q of the user in slot i; `commands` the ring towards the microcontroller;
      `made` and `freed` the mails created and released by the driver so far. */
  datatype View = View(channels: seq<Option<int>>, rooms: seq<seq<seq<Mail>>>, commands: seq<Mail>,
                       made: seq<Mail>, freed: seq<Mail>)

  predicate Shaped(v: View)
  {
    |v.rooms| == |v.channels| && forall i :: 0 <= i < |v.rooms| ==> |v.rooms[i]| == QUEUES
  }

  function Append(rooms: seq<seq<seq<Mail>>>, i: nat, q: nat, m: Mail): (r: seq<seq<seq<Mail>>>)
    requires i < |rooms| && q < |rooms[i]|
  {
    rooms[i := rooms[i][q := rooms[i][q] + [m]]]
  }

  /** A mail made by the driver goes out if the command ring has room, and is freed either way. */
  function Sent(size: nat, v: View, m: Mail): (w: View)
  {
    v.(commands := Put(size, v.commands, m), made := v.made + [m], freed := v.freed + [m])
  }

  /** A channel nobody owns is destroyed on the microcontroller, if the command ring has room. */
  function DestroyOrphan(size: nat, v: View, chan: int): (w: View)
  {
    Sent(size, v, QuietDestroy(chan))
  }

  function Free(v: View, m: Mail): (w: View)
  {
    v.(freed := v.freed + [m])
  }

  function Handle(size: nat, v: View, m: Mail): (w: View)
    requires Shaped(v) && Routable(m)
    ensures Shaped(w) && w.channels == v.channels
  {
    if m.uid == MSG_TRACE then Free(v, m)
    else
      match Target(v.channels, m)
      case Some(i) =>
        TargetInRange(v.channels, m);
        v.(rooms := Append(v.rooms, i, MailToQueue(m.uid), m))
      case None =>
        Free(if DestroysOnBadFeedback(m.uid) then DestroyOrphan(size, v, ToInt32(ChanUidOf(m))) else v, m)
  }

  function HandleAll(size: nat, v: View, ms: seq<Mail>): (w: View)
    requires Shaped(v) && forall i :: 0 <= i < |ms| ==> Routable(ms[i])
    ensures Shaped(w) && w.channels == v.channels
    decreases |ms|
  {
    if ms == [] then v else HandleAll(size, Handle(size, v, ms[0]), ms[1..])
  }

  lemma {:induction false} HandleAllSnoc(size: nat, v: View, ms: seq<Mail>, m: Mail)
    requires Shaped(v) && (forall i :: 0 <= i < |ms| ==> Routable(ms[i])) && Routable(m)
    ensures forall i :: 0 <= i < |ms + [m]| ==> Routable((ms + [m])[i])
    ensures HandleAll(size, v, ms + [m]) == Handle(size, HandleAll(size, v, ms), m)
    decreases |ms|
  {
    hide Handle, Routable;
    if ms == [] {
      assert ms + [m] == [m];
      assert [m][1..] == [];
    } else {
      assert (ms + [m])[1..] == ms[1..] + [m];
      HandleAllSnoc(size, Handle(size, v, ms[0]), ms[1..], m);
    }
  }

  lemma {:induction false} SlotOfChanIsLowest(channels: seq<Option<int>>, chan: int, from: nat)
    requires from <= |channels|
    ensures
      match SlotOfChan(channels, chan, from)
      case Some(i) =>
        from <= i < |channels| && channels[i] == Some(chan) && forall j :: from <= j < i ==> channels[j] != Some(chan)
      case None => forall j :: from <= j < |channels| ==> channels[j] != Some(chan)
    decreases |channels| - from
  {
    if from < |channels| && channels[from] != Some(chan) {
      SlotOfChanIsLowest(channels, chan, from + 1);
    }
  }

  lemma TargetInRange(channels: seq<Option<int>>, m: Mail)
    requires Routable(m) && m.uid != MSG_TRACE
    ensures Target(channels, m).Some? ==>
      Target(channels, m).value < |channels| && channels[Target(channels, m).value].Some?
  {
    if !NamesUser(m) {
      SlotOfChanIsLowest(channels, ToInt32(WordAt(m, 0)), 0);
    }
  }

  /** Every other mail is about a channel. It goes to the lowest slot that holds the channel id, and to no slot
      exactly when none does; when no two slots share the id, that slot is the only one. */
  lemma ChannelMailTarget(channels: seq<Option<int>>, m: Mail, i: nat)
    requires Routable(m) && m.uid !in {MSG_CREATE_CHANNEL, MSG_INIT, MSG_SEARCH_START_CODE, MSG_TRACE}
    ensures
      var chan := ToInt32(WordAt(m, 0));
      Target(channels, m) == Some(i)
      <==> i < |channels| && channels[i] == Some(chan) && forall j :: 0 <= j < i ==> channels[j] != Some(chan)
    ensures
      var chan := ToInt32(WordAt(m, 0));
      i < |channels| && channels[i] == Some(chan)
      && (forall j, k :: 0 <= j < k < |channels| && channels[j] == Some(chan) ==> channels[k] != Some(chan))
      ==> Target(channels, m) == Some(i)
    ensures Target(channels, m) == None
      <==> forall j :: 0 <= j < |channels| ==> channels[j] != Some(ToInt32(WordAt(m, 0)))
  {
    SlotOfChanIsLowest(channels, ToInt32(WordAt(m, 0)), 0);
  }

  /** The answers to a creation, to the initialisation and to a start-code search are mails about a user: they go to
      the slot of the number they name, in the second word for a creation and in the first otherwise, and to nobody
      when that number names no user. */
  lemma UserMailTarget(channels: seq<Option<int>>, m: Mail, i: nat)
    requires Routable(m) && m.uid in {MSG_CREATE_CHANNEL, MSG_INIT, MSG_SEARCH_START_CODE}
    ensures m.uid != MSG_TRACE && HasWord(m, if m.uid == MSG_CREATE_CHANNEL then 1 else 0)
    ensures Target(channels, m) == Some(i)
      <==> i < |channels| && channels[i].Some?
           && i == ToInt32(WordAt(m, if m.uid == MSG_CREATE_CHANNEL then 1 else 0))
    ensures Target(channels, m) == None
      <==> forall j :: 0 <= j < |channels| && channels[j].Some? ==>
        j != ToInt32(WordAt(m, if m.uid == MSG_CREATE_CHANNEL then 1 else 0))
  {
  }

  /** Whoever gets a mail about a channel has that channel, unless the mail carries the id that stands for
      "no channel": then, and only then, it goes to a user without one. */
  lemma ReceiverOwnsChannel(channels: seq<Option<int>>, m: Mail)
    requires Routable(m) && m.uid !in {MSG_CREATE_CHANNEL, MSG_INIT, MSG_SEARCH_START_CODE, MSG_TRACE}
    requires Target(channels, m).Some?
    ensures Target(channels, m).value < |channels|
    ensures channels[Target(channels, m).value] == Some(ToInt32(WordAt(m, 0)))
    ensures channels[Target(channels, m).value] == Some(BAD_CHAN) <==> WordAt(m, 0) == BAD_CHAN
  {
    SlotOfChanIsLowest(channels, ToInt32(WordAt(m, 0)), 0);
  }

  /** The first user without a channel receives a status mail addressed to no channel. */
  lemma BadChannelMailReachesIdleUser()
    ensures
      var m := Addressed(BAD_CHAN, MSG_ENCODE_ONE_FRM, []);
      Target([Some(3), Some(BAD_CHAN)], m) == Some(1)
  {
    var m := Addressed(BAD_CHAN, MSG_ENCODE_ONE_FRM, []);
    ChannelMailTarget([Some(3), Some(BAD_CHAN)], m, 1);
  }

  /** What one mail costs: a trace is freed, a delivered mail is not, and nothing is made for either. A mail that
      nobody claims is freed once, after the quiet destroy that was made for it, if its kind calls for one. */
  lemma HandleFrees(size: nat, v: View, m: Mail)
    requires Shaped(v) && Routable(m)
    ensures m.uid == MSG_TRACE ==> Handle(size, v, m) == v.(freed := v.freed + [m])
    ensures m.uid != MSG_TRACE && Target(v.channels, m).Some? ==>
      Handle(size, v, m) == v.(rooms := Handle(size, v, m).rooms)
    ensures m.uid != MSG_TRACE && Target(v.channels, m).None? ==>
      if m.uid in {MSG_INIT, MSG_SEARCH_START_CODE, MSG_DESTROY_CHANNEL}
      then Handle(size, v, m) == v.(freed := v.freed + [m])
      else
        var d := Addressed(WordAt(m, 0), MSG_QUIET_DESTROY_CHANNEL, []);
        Handle(size, v, m)
        == v.(commands := if Accepts(size, v.commands, d) then v.commands + [Delivered(d)] else v.commands,
              made := v.made + [d], freed := v.freed + [d, m])
  {
    hide Append, Delivered, Accepts;
    if m.uid != MSG_TRACE && HasWord(m, 0) {
      Int32RoundTrip(WordAt(m, 0), 0);
      var d := Addressed(WordAt(m, 0), MSG_QUIET_DESTROY_CHANNEL, []);
      assert v.freed + [d] + [m] == v.freed + [d, m];
    }
  }

  /** A mail that nobody claims is freed, and costs at most one command: a quiet destroy of the very channel
      that its first word names. The id that stands for "this kind names no channel" is never asked for. */
  lemma OrphanCostsOneDestroy(size: nat, v: View, m: Mail)
    requires Shaped(v) && Routable(m) && m.uid != MSG_TRACE && Target(v.channels, m).None?
    ensures
      var w := Handle(size, v, m);
      w.rooms == v.rooms && w.channels == v.channels && m in w.freed
      && (w.commands == v.commands
          || (m.uid !in {MSG_INIT, MSG_SEARCH_START_CODE, MSG_DESTROY_CHANNEL} && HasWord(m, 0)
              && w.commands == v.commands + [Delivered(Addressed(WordAt(m, 0), MSG_QUIET_DESTROY_CHANNEL, []))]))
    ensures m.uid !in {MSG_INIT, MSG_SEARCH_START_CODE, MSG_DESTROY_CHANNEL} && HasWord(m, 0) ==>
      (Handle(size, v, m).commands != v.commands
       <==> Accepts(size, v.commands, Addressed(WordAt(m, 0), MSG_QUIET_DESTROY_CHANNEL, [])))
  {
    if HasWord(m, 0) {
      Int32RoundTrip(WordAt(m, 0), 0);
    }
  }

  lemma OrphanNamesChannel(m: Mail)
    requires Routable(m) && m.uid != MSG_TRACE && DestroysOnBadFeedback(m.uid)
    ensures HasWord(m, 0) && ChanUidOf(m) == WordAt(m, 0)
  {
  }

  /** The mails of a batch that a slot's queue gets, in their order. */
  function Share(channels: seq<Option<int>>, ms: seq<Mail>, i: nat, q: nat): (r: seq<Mail>)
    requires forall k :: 0 <= k < |ms| ==> Routable(ms[k])
  {
    if ms == [] then []
    else (if RoutesTo(channels, ms[0], i, q) then [ms[0]] else []) + Share(channels, ms[1..], i, q)
  }

  predicate RoutesTo(channels: seq<Option<int>>, m: Mail, i: nat, q: nat)
    requires Routable(m)
  {
    m.uid != MSG_TRACE && Target(channels, m) == Some(i) && MailToQueue(m.uid) == q
  }

  lemma HandleOne(size: nat, v: View, m: Mail, i: nat, q: nat)
    requires Shaped(v) && Routable(m) && i < |v.rooms| && q < QUEUES
    ensures Handle(size, v, m).rooms[i][q] == v.rooms[i][q] + if RoutesTo(v.channels, m, i, q) then [m] else []
  {
    hide Target, Addressed, Put;
    assert v.rooms[i][q] + [] == v.rooms[i][q];
  }

  /** One pass appends to every queue exactly its share of the batch, in batch order, whatever the other
      mails and the orphans among them are. */
  lemma {:induction false} PassDeliversShares(size: nat, v: View, ms: seq<Mail>, i: nat, q: nat)
    requires Shaped(v) && (forall k :: 0 <= k < |ms| ==> Routable(ms[k])) && i < |v.rooms| && q < QUEUES
    ensures |HandleAll(size, v, ms).rooms| == |v.rooms|
    ensures HandleAll(size, v, ms).rooms[i][q] == v.rooms[i][q] + Share(v.channels, ms, i, q)
    decreases |ms|
  {
    hide Handle, Routable, RoutesTo;
    if ms != [] {
      HandleOne(size, v, ms[0], i, q);
      PassDeliversShares(size, Handle(size, v, ms[0]), ms[1..], i, q);
    }
  }
}
