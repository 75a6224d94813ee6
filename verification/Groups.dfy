/** The users of one device, and the interrupt pass that hands them the microcontroller's mails. */
module Groups {
  import opened MachineWords
  import opened Mails
  import opened Mailboxes
  import opened MailQueues
  import opened BufferPools
  import opened Dispatch
  import opened DeliveryRuns
  import opened Tallies
  import opened Users

  /** The mails that the driver itself created and released. */
  class Ledger {
    ghost var made: seq<Mail>
    ghost var freed: seq<Mail>

    ghost constructor ()
      ensures made == [] && freed == []
    {
      made, freed := [], [];
    }
  }

  class Group {
    const users: array<User?>
    const inbox: Mailbox
    const commands: Mailbox
    ghost const ledger: Ledger
    ghost var Homes: set<object>

    /** The rings are no part of any user. */
    ghost predicate RingsValid()
      reads this, inbox, inbox.data, commands, commands.data
    {
      inbox != commands && inbox.data != commands.data && inbox.Valid() && commands.Valid()
      && inbox !in Homes && inbox.data !in Homes && commands !in Homes && commands.data !in Homes
      && ledger !in Homes
    }

    /** Every user sits in the slot of its own number. */
    ghost predicate UsersValid()
      reads this, users, Homes
    {
      this !in Homes && users !in Homes
      && forall i :: 0 <= i < users.Length ==> users[i] != null ==>
        AtHome(users[i]) && users[i].uid == i && users[i].Valid()
    }

    /** The queues of all users, and the nodes in them: what a delivery may touch. */
    ghost function Queues(): (queues: set<MailQueue>)
      reads this
    {
      set q: MailQueue | q in Homes
    }

    ghost function Cells(): (cells: set<ListNode>)
      reads this
    {
      set n: ListNode | n in Homes
    }

    ghost predicate AtHome(u: User)
      reads this, Homes
    {
      BodyAtHome(u) && u.Nodes() <= Homes
    }

    ghost predicate Valid()
      reads this, users, Homes, inbox, inbox.data, commands, commands.data
      ensures Valid() ==> inbox.Valid() && commands.Valid() && UsersValid()
    {
      RingsValid() && UsersValid()
    }

    /** No user sits in two slots. */
    lemma NoUserTwice(i: nat, j: nat)
      requires UsersValid() && i < users.Length && j < users.Length
      requires users[i] != null && users[i] == users[j]
      ensures i == j == users[i].uid
    {
    }

    ghost function ChannelOf(u: User?): (c: Option<int>)
      reads u
    {
      if u == null then None else Some(u.chanUid)
    }

    ghost function RoomOf(u: User?): (room: seq<seq<Mail>>)
      reads u, if u == null then [] else u.queues
    {
      if u == null then NO_MAILS else u.Rooms()
    }

    ghost function Channels(): (channels: seq<Option<int>>)
      requires UsersValid()
      reads this, users, Homes
      ensures |channels| == users.Length && forall i :: 0 <= i < users.Length ==> channels[i] == ChannelOf(users[i])
    {
      seq(users.Length, i requires 0 <= i < users.Length && UsersValid() reads this, users, Homes =>
        ChannelOf(users[i]))
    }

    ghost function Rooms(): (rooms: seq<seq<seq<Mail>>>)
      requires UsersValid()
      reads this, users, Homes
      ensures |rooms| == users.Length && forall i :: 0 <= i < users.Length ==> rooms[i] == RoomOf(users[i])
    {
      seq(users.Length, i requires 0 <= i < users.Length && UsersValid() reads this, users, Homes => RoomOf(users[i]))
    }

    ghost function State(): (v: View)
      requires Valid()
      reads this, users, Homes, inbox, inbox.data, commands, commands.data, ledger
      ensures Shaped(v)
    {
      View(Channels(), Rooms(), commands.Contents(), ledger.made, ledger.freed)
    }

    constructor (maxUsers: nat, inbox: Mailbox, commands: Mailbox)
      requires inbox != commands && inbox.data != commands.data && inbox.Valid() && commands.Valid()
      ensures Valid() && this.inbox == inbox && this.commands == commands && fresh(users)
      ensures users.Length == maxUsers && forall i :: 0 <= i < maxUsers ==> users[i] == null
      ensures ledger.made == [] && ledger.freed == []
    {
      hide Mailbox.Valid;
      users := new User?[maxUsers](_ => null);
      this.inbox, this.commands := inbox, commands;
      ledger := new Ledger();
      Homes := {};
    }

    /** The user that a mail is for. */
    method RetrieveUser(mail: Mail) returns (user: User?)
      requires UsersValid() && Routable(mail) && mail.uid != MSG_TRACE
      ensures mail.uid in {MSG_CREATE_CHANNEL, MSG_INIT, MSG_SEARCH_START_CODE} ==>
        var uid := ToInt32(WordAt(mail, if mail.uid == MSG_CREATE_CHANNEL then 1 else 0));
        user == if 0 <= uid < users.Length then users[uid] else null
      ensures mail.uid !in {MSG_CREATE_CHANNEL, MSG_INIT, MSG_SEARCH_START_CODE} ==>
        if user != null then user.chanUid == ToInt32(WordAt(mail, 0))
        else forall j :: 0 <= j < users.Length && users[j] != null ==> users[j].chanUid != ToInt32(WordAt(mail, 0))
      ensures
        match Target(Channels(), mail)
        case Some(i) => i < users.Length && user == users[i] && user != null
        case None => user == null
    {
      hide Mailbox.Valid, User.Valid;
      if mail.uid == MSG_CREATE_CHANNEL {
        user := UserFromUid(ToInt32(WordAt(mail, 1)));
      } else if mail.uid == MSG_INIT || mail.uid == MSG_SEARCH_START_CODE {
        user := UserFromUid(ToInt32(WordAt(mail, 0)));
      } else {
        user := UserFromChanUid(ToInt32(WordAt(mail, 0)));
        SlotOfChanIsLowest(Channels(), ToInt32(WordAt(mail, 0)), 0);
      }
    }

    method UserFromUid(uid: int) returns (user: User?)
      requires UsersValid()
      ensures
        match SlotOfUid(Channels(), uid)
        case Some(i) => i < users.Length && user == users[i] && user != null
        case None => user == null
    {
      hide Mailbox.Valid, User.Valid;
      if uid >= users.Length || uid < 0 {
        user := null;
      } else {
        user := users[uid];
      }
    }

    method UserFromChanUid(chan: int) returns (user: User?)
      requires UsersValid()
      ensures
        match SlotOfChan(Channels(), chan, 0)
        case Some(i) => i < users.Length && user == users[i] && user != null
        case None => user == null
    {
      hide Mailbox.Valid, User.Valid;
      var i := 0;
      while i < users.Length
        invariant 0 <= i <= users.Length
        invariant SlotOfChan(Channels(), chan, 0) == SlotOfChan(Channels(), chan, i)
      {
        if users[i] != null && users[i].chanUid == chan {
          return users[i];
        }
        i := i + 1;
      }
      user := null;
    }

    /** Sends a mail that the caller has just made; the mail is freed whether or not it could be sent. */
    method CheckAndSend(mail: Mail) returns (ok: bool)
      requires Valid()
      modifies ledger, commands, commands.data
      ensures Valid() && State() == Sent(commands.size, old(State()), mail)
      ensures ok <==> Accepts(commands.size, old(commands.Contents()), mail)
      ensures inbox.Contents() == old(inbox.Contents())
    {
      hide User.Valid, Mailbox.Valid, Mailbox.Contents, Put, Accepts, UsersValid, Channels, Rooms, AtHome;
      ledger.made := ledger.made + [mail];
      ok := commands.Write(mail);
      ledger.freed := ledger.freed + [mail];
    }

    method DestroyOrphanChannel(chan: int)
      requires Valid()
      modifies ledger, commands, commands.data
      ensures Valid() && State() == DestroyOrphan(commands.size, old(State()), chan)
      ensures inbox.Contents() == old(inbox.Contents())
    {
      hide User.Valid, Mailbox.Valid, Mailbox.Contents, Put, UsersValid, Channels, Rooms, AtHome;
      var mail := CreateEmptyMail(ToUint32(chan), MSG_QUIET_DESTROY_CHANNEL);
      ledger.made := ledger.made + [mail];
      var sent := commands.Write(mail);
      ledger.freed := ledger.freed + [mail];
    }

    /** A delivery touches one queue of one user: everybody else's objects stay as they are. */
    method DeliverAlone(user: User, mail: Mail, ghost i: nat)
      requires UsersValid() && i < users.Length && users[i] == user
      modifies user.queues`list, user.queues`nodes, user.queues`contents, user.queues`popped, user.Nodes()
      ensures user.Valid() && fresh(user.Nodes() - old(user.Nodes()))
      ensures |old(user.Rooms())| == QUEUES
      ensures user.Rooms()
           == old(user.Rooms())[MailToQueue(mail.uid) := old(user.Rooms())[MailToQueue(mail.uid)] + [mail]]
      ensures forall j :: 0 <= j < users.Length && users[j] != null && j != i ==>
        Frozen(users[j], old(users[j].Nodes()))
    {
      hide User.Valid, MailToQueue, User.Nodes, User.Rooms;
      forall j | 0 <= j < users.Length && users[j] != null && j != i
        ensures Apart(user, users[j])
      {
        UsersApart(user, users[j]);
      }
      user.Deliver(mail);
    }

    method DeliverTo(user: User, mail: Mail, ghost i: nat)
      requires UsersValid() && i < users.Length && users[i] == user
      modifies this`Homes, user.queues`list, user.queues`nodes, user.queues`contents, user.queues`popped, user.Nodes()
      ensures UsersValid() && Homes >= old(Homes) && fresh(Homes - old(Homes))
      ensures Channels() == old(Channels())
      ensures Rooms() == Append(old(Rooms()), i, MailToQueue(mail.uid), mail)
    {
      hide User.Valid, MailToQueue, User.Nodes, User.Rooms, Frozen;
      DeliverAlone(user, mail, i);
      OthersKept(i);
      Rehome(user, i, old(Channels()), old(Rooms()));
    }

    /** After an operation on one user that left the others alone: its new list nodes are taken in. */
    ghost method Rehome(user: User, i: nat, channels: seq<Option<int>>, rooms: seq<seq<seq<Mail>>>)
      requires i < users.Length == |rooms| == |channels| && users[i] == user && user.uid == i && user.Valid()
      requires this !in Homes && users !in Homes && BodyAtHome(user)
      requires forall j :: 0 <= j < users.Length && j != i && users[j] != null ==>
        AtHome(users[j]) && users[j].uid == j && users[j].Valid()
      requires forall j :: 0 <= j < users.Length && j != i ==>
        ChannelOf(users[j]) == channels[j] && RoomOf(users[j]) == rooms[j]
      modifies this`Homes
      ensures UsersValid() && Homes == old(Homes) + user.Nodes()
      ensures Channels() == channels[i := Some(user.chanUid)] && Rooms() == rooms[i := user.Rooms()]
    {
      hide User.Valid, User.Nodes, User.Rooms;
      Homes := Homes + user.Nodes();
      SlotChanged(i, channels, rooms);
    }

    /** What a user consists of beside its list nodes. */
    ghost predicate BodyAtHome(u: User)
      reads this
    {
      u in Homes && (forall q :: q in u.queues ==> q in Homes) && u.intBuffers in Homes && u.recBuffers in Homes
    }

    method TryToDeliver(mail: Mail) returns (delivered: bool)
      requires Valid() && Routable(mail) && mail.uid != MSG_TRACE
      modifies this`Homes, Queues()`list, Queues()`nodes, Queues()`contents, Queues()`popped, Cells()
      ensures UsersValid() && Homes >= old(Homes) && fresh(Homes - old(Homes))
      ensures Channels() == old(Channels())
      ensures
        match Target(old(Channels()), mail)
        case Some(i) => delivered && i < |old(Rooms())| && |old(Rooms())[i]| == QUEUES
                        && Rooms() == Append(old(Rooms()), i, MailToQueue(mail.uid), mail)
        case None => !delivered && Rooms() == old(Rooms())
    {
      hide User.Valid, Mailbox.Valid, MailToQueue, Routable, Target, Append, User.Nodes;
      var user := RetrieveUser(mail);
      if user == null {
        return false;
      }
      DeliverTo(user, mail, Target(Channels(), mail).value);
      delivered := true;
    }

    method HandleMail(mail: Mail)
      requires Valid() && Routable(mail)
      modifies this`Homes, Queues()`list, Queues()`nodes, Queues()`contents, Queues()`popped, Cells()
      modifies ledger, commands, commands.data
      ensures Valid() && Homes >= old(Homes) && fresh(Homes - old(Homes))
      ensures State() == Handle(commands.size, old(State()), mail)
      ensures mail.uid != MSG_TRACE && Target(old(Channels()), mail).Some? ==>
        ledger.made == old(ledger.made) && ledger.freed == old(ledger.freed)
      ensures Balanced(old(State()), State(), [mail])
      ensures inbox.Contents() == old(inbox.Contents())
    {
      hide User.Valid, Mailbox.Valid, Mailbox.Contents, MailToQueue, Routable, Target, Append, DestroyOrphan, ChanUidOf,
        Balanced;
      HandleConserves(commands.size, State(), mail);
      if mail.uid == MSG_TRACE {
        ledger.freed := ledger.freed + [mail];
        return;
      }
      var delivered := TryToDeliver(mail);
      if !delivered {
        if DestroysOnBadFeedback(mail.uid) {
          OrphanNamesChannel(mail);
          DestroyOrphanChannel(ToInt32(ChanUidOf(mail)));
        }
        ledger.freed := ledger.freed + [mail];
      }
    }

    method ReadMail()
      requires Valid() && inbox.Contents() != [] && Routable(inbox.Contents()[0])
      modifies this`Homes, Queues()`list, Queues()`nodes, Queues()`contents, Queues()`popped, Cells()
      modifies ledger, commands, commands.data, inbox
      ensures Valid() && Homes >= old(Homes) && fresh(Homes - old(Homes))
      ensures inbox.Contents() == old(inbox.Contents())[1..]
      ensures State() == Handle(commands.size, old(State()), old(inbox.Contents())[0])
    {
      hide User.Valid, Mailbox.Valid, Mailbox.Contents, Routable, Handle, User.Nodes, User.Rooms, Balanced, Target;
      var mail := inbox.Read();
      HandleMail(mail);
    }

    /** One interrupt pass: takes mails off the ring until it is empty or the pass has taken its share. */
    method ReadMails()
      requires Valid() && forall i :: 0 <= i < |inbox.Contents()| ==> Routable(inbox.Contents()[i])
      modifies this`Homes, Queues()`list, Queues()`nodes, Queues()`contents, Queues()`popped, Cells()
      modifies ledger, commands, commands.data, inbox
      ensures Valid() && Homes >= old(Homes) && fresh(Homes - old(Homes))
      ensures |inbox.Contents()| == if |old(inbox.Contents())| <= 100 then 0 else |old(inbox.Contents())| - 100
      ensures inbox.Contents() == old(inbox.Contents())[Batch(old(inbox.Contents()))..]
      ensures Balanced(old(State()), State(), old(inbox.Contents())[..Batch(old(inbox.Contents()))])
      ensures State() == HandleAll(commands.size, old(State()), old(inbox.Contents())[..Batch(old(inbox.Contents()))])
    {
      hide Valid, Mailbox.Valid, Mailbox.Contents, Routable, Handle, HandleAll, State, Balanced;
      ghost var all, start := inbox.Contents(), State();
      NothingHandled(commands.size, start);
      assert all[..0] == [];
      var nbMsg := 0;
      var empty := InboxEmpty();
      while !empty && nbMsg < MAX_MAILBOX_MSG
        invariant Valid() && Homes >= old(Homes) && fresh(Homes - old(Homes))
        invariant nbMsg <= |all| && nbMsg <= MAX_MAILBOX_MSG && inbox.Contents() == all[nbMsg..]
        invariant empty <==> nbMsg == |all|
        invariant State() == HandleAll(commands.size, start, all[..nbMsg])
      {
        ReadMail();
        HandleAllSnoc(commands.size, start, all[..nbMsg], all[nbMsg]);
        assert all[..nbMsg] + [all[nbMsg]] == all[..nbMsg + 1];
        nbMsg := nbMsg + 1;
        empty := InboxEmpty();
      }
      PassConserves(commands.size, start, all[..nbMsg]);
    }

    method InboxEmpty() returns (empty: bool)
      requires Valid()
      ensures empty <==> inbox.Contents() == []
    {
      empty := inbox.IsEmpty();
    }

    /** Takes the first free slot, if there is one, for a new user without a channel. */
    method Open() returns (user: User?)
      requires Valid()
      modifies this`Homes, users
      ensures Valid() && Homes >= old(Homes) && fresh(Homes - old(Homes))
      ensures
        var i := FirstFree(old(Channels()));
        if i < users.Length then
          user != null && fresh(user) && fresh(user.intBuffers) && fresh(user.recBuffers) && fresh(user.locks)
          && (forall k :: 0 <= k < |user.queues| ==> fresh(user.queues[k])) && users[i] == user && user.uid == i
          && user.Valid() && user.Nodes() == {} && IsNew(user)
          && Channels() == old(Channels())[i := Some(BAD_CHAN)] && Rooms() == old(Rooms())[i := NO_MAILS]
        else user == null && Channels() == old(Channels()) && Rooms() == old(Rooms())
    {
      hide User.Valid, Mailbox.Valid, User.Nodes, User.Rooms, UsersValid, Channels, Rooms, RoomOf, ChannelOf,
        AtHome, FirstFree;
      var i := FreeSlot();
      if i == users.Length {
        return null;
      }
      user := NewUser(i);
      BindAt(user, i);
    }

    method NewUser(i: nat) returns (user: User)
      ensures fresh(user) && fresh(user.intBuffers) && fresh(user.recBuffers) && fresh(user.locks)
      ensures fresh(ObjectsOf(user)) && (forall k :: 0 <= k < |user.queues| ==> fresh(user.queues[k])) && user.uid == i
      ensures user.Valid() && user.Nodes() == {} && IsNew(user)
    {
      hide MailQueue.Valid, BufferPool.Valid;
      user := new User(i);
    }

    method BindAt(user: User, i: nat)
      requires UsersValid() && i < users.Length && user.uid == i && user.Valid() && user.Nodes() == {}
      requires IsNew(user)
      modifies this`Homes, users
      ensures UsersValid() && users[i] == user
      ensures Homes == old(Homes) + ObjectsOf(user)
      ensures Channels() == old(Channels())[i := Some(BAD_CHAN)] && Rooms() == old(Rooms())[i := NO_MAILS]
    {
      hide User.Valid, User.Nodes, User.Rooms, Channels, Rooms, UsersValid;
      GrowHomes(ObjectsOf(user));
      assert RoomOf(user) == NO_MAILS;
      SetSlot(i, user);
    }

    ghost function ObjectsOf(user: User): (objects: set<object>)
      ensures this !in objects && users !in objects && ledger !in objects
      ensures inbox !in objects && inbox.data !in objects && commands !in objects && commands.data !in objects
    {
      {user, user.intBuffers, user.recBuffers} + set q | q in user.queues
    }

    method FreeSlot() returns (i: nat)
      requires UsersValid()
      ensures i == FirstFree(Channels()) && (i < users.Length ==> users[i] == null)
    {
      hide User.Valid, Mailbox.Valid, User.Nodes, User.Rooms, RoomOf, AtHome;
      i := 0;
      while i < users.Length && users[i] != null
        invariant 0 <= i <= users.Length
        invariant forall j :: 0 <= j < i ==> users[j] != null
      {
        i := i + 1;
      }
      FirstFreeIs(Channels(), i);
    }

    ghost method GrowHomes(more: set<object>)
      requires UsersValid() && this !in more && users !in more
      modifies this`Homes
      ensures UsersValid() && Homes == old(Homes) + more
      ensures Channels() == old(Channels()) && Rooms() == old(Rooms())
    {
      hide User.Valid, User.Nodes, User.Rooms, ChannelOf, RoomOf;
      Homes := Homes + more;
    }

    method SetSlot(i: nat, user: User?)
      requires UsersValid() && i < users.Length
      requires user != null ==> AtHome(user) && user.uid == i && user.Valid()
      modifies users
      ensures UsersValid() && users[i] == user
      ensures Channels() == old(Channels())[i := ChannelOf(user)] && Rooms() == old(Rooms())[i := RoomOf(user)]
    {
      hide User.Valid, User.Nodes, User.Rooms, ChannelOf, RoomOf;
      users[i] := user;
    }

    /** Frees what is left in the user's queues and empties its slot. */
    method Leave(user: User, ghost i: nat)
      requires Valid() && i < users.Length && users[i] == user
      modifies users, user.queues, ledger
      ensures Valid()
      ensures Channels() == old(Channels())[i := None] && Rooms() == old(Rooms())[i := NO_MAILS]
      ensures ledger.freed == old(ledger.freed) + Flat(old(Rooms())[i]) && ledger.made == old(ledger.made)
    {
      hide User.Valid, Mailbox.Valid, User.Nodes, User.Rooms, Flat, Frozen, Channels, Rooms, AtHome;
      ghost var some := DrainAlone(user, i);
      ledger.freed := ledger.freed + some;
      SetSlot(user.uid, null);
    }

    method DrainAlone(user: User, ghost i: nat) returns (ghost some: seq<Mail>)
      requires UsersValid() && i < users.Length && users[i] == user
      modifies user.queues
      ensures UsersValid() && some == Flat(old(Rooms())[i])
      ensures Channels() == old(Channels()) && Rooms() == old(Rooms())[i := NO_MAILS]
    {
      hide User.Valid, User.Nodes, User.Rooms, Flat;
      forall j | 0 <= j < users.Length && users[j] != null && j != i
        ensures Apart(user, users[j])
      {
        UsersApart(user, users[j]);
      }
      some := user.RemoveResidualMessages();
      assert user.Rooms() == NO_MAILS;
      OthersKept(i);
      SlotChanged(i, old(Channels()), old(Rooms()));
    }

    twostate lemma OthersKept(i: nat)
      requires old(UsersValid()) && unchanged(users)
      requires forall j :: 0 <= j < users.Length && users[j] != null && j != i ==>
        Frozen(users[j], old(users[j].Nodes()))
      ensures forall j :: 0 <= j < users.Length && users[j] != null && j != i ==> Kept(users[j])
    {
      hide User.Valid;
      forall j | 0 <= j < users.Length && users[j] != null && j != i
        ensures Kept(users[j])
      {
        Untouched(users[j]);
      }
    }

    /** With every user in order and all slots but one as before, the table has changed in that slot. */
    lemma SlotChanged(i: nat, channels: seq<Option<int>>, rooms: seq<seq<seq<Mail>>>)
      requires i < users.Length == |rooms| == |channels|
      requires this !in Homes && users !in Homes
      requires forall j :: 0 <= j < users.Length && users[j] != null ==>
        AtHome(users[j]) && users[j].uid == j && users[j].Valid()
      requires forall j :: 0 <= j < users.Length && j != i ==>
        ChannelOf(users[j]) == channels[j] && RoomOf(users[j]) == rooms[j]
      ensures UsersValid()
      ensures Channels() == channels[i := ChannelOf(users[i])] && Rooms() == rooms[i := RoomOf(users[i])]
    {
      hide User.Valid, User.Nodes, ChannelOf, RoomOf;
    }
  }

  /** A user as it comes: no channel, no checkpoint, no buffer, no mail, every gate closed and every lock free. */
  ghost predicate IsNew(user: User)
    requires user.Valid()
    reads user, user.queues, user.Nodes(), user.intBuffers, user.recBuffers, user.locks
  {
    user.chanUid == BAD_CHAN && user.checkpoint == NO_CHECKPOINT
    && Unallocated(user.intBuffers) && Unallocated(user.recBuffers)
    && (forall q :: 0 <= q < QUEUES ==> user.queues[q].contents == [] && user.queues[q].locked)
    && (forall l :: 0 <= l < user.locks.Length ==> !user.locks[l])
  }

  twostate predicate Frozen(v: User, ns: set<ListNode>)
    reads v, v.queues, ns, v.intBuffers, v.recBuffers
  {
    unchanged(v) && unchanged(v.intBuffers) && unchanged(v.recBuffers)
    && (forall q :: q in v.queues ==> unchanged(q)) && (forall n :: n in ns ==> unchanged(n))
  }

  twostate predicate Kept(v: User)
    reads v, v.queues, v.Nodes(), v.intBuffers, v.recBuffers
  {
    v.Valid() && v.Rooms() == old(v.Rooms()) && v.Nodes() == old(v.Nodes()) && v.chanUid == old(v.chanUid)
  }

  /** A user none of whose objects changed is as it was. */
  twostate lemma Untouched(v: User)
    requires old(v.Valid()) && Frozen(v, old(v.Nodes()))
    ensures Kept(v)
  {
    hide MailQueue.Valid;
    assert forall i :: 0 <= i < |v.queues| ==> v.queues[i] in v.queues;
    forall i | 0 <= i < |v.queues|
      ensures v.queues[i].Valid()
    {
      assert v.queues[i] in v.queues;
      forall n | n in old(v.queues[i].nodes) ensures unchanged(n) {
        assert n in old(v.Nodes());
      }
      v.queues[i].Untouched();
    }
  }

  ghost predicate Apart(u: User, v: User)
    reads u, u.queues, v, v.queues
  {
    u != v && (forall q :: q in u.queues ==> q !in v.queues) && u.Nodes() !! v.Nodes()
    && {u.intBuffers, u.recBuffers} !! {v.intBuffers, v.recBuffers}
  }

  /** Users in different slots share neither queues nor list nodes nor pools. */
  lemma UsersApart(u: User, v: User)
    requires u.Valid() && v.Valid() && u.uid != v.uid
    ensures Apart(u, v)
  {
    hide MailQueue.Valid, BufferPool.Valid;
  }

  lemma {:induction false} FirstFreeIs(channels: seq<Option<int>>, i: nat)
    requires i <= |channels| && (forall j :: 0 <= j < i ==> channels[j].Some?)
    requires i < |channels| ==> channels[i].None?
    ensures FirstFree(channels) == i
  {
    if i > 0 {
      FirstFreeIs(channels[1..], i - 1);
    }
  }

  lemma NothingHandled(size: nat, v: View)
    requires Shaped(v)
    ensures HandleAll(size, v, []) == v
  {
  }
}
