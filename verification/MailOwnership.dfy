/** Every mail object of the driver from its allocation to its release, with the interrupt handler and the users'
    operations interleaved one access at a time. A mail object is known by its number, not by its contents. */
module MailOwnership {
  import opened MachineWords
  import opened Mails
  import opened Mailboxes
  import opened Dispatch
  import opened Tallies

  /** Where the interrupt handler stands, and the mail objects it holds there. */
  datatype Irq =
    | Waiting
    | Routing(mail: nat)
    | Orphaned(mail: nat)
    | Destroying(mail: nat, request: nat)
    | Destroyed(mail: nat, request: nat)
    | Dropping(mail: nat)

  /** Where an operation stands: outside, inside with nothing in hand, with a request that it made or that was
      written or refused, or with an answer. */
  datatype Hand = Outside | Inside | Made(request: nat) | Written(request: nat, ok: bool) | Got(answer: nat)

  datatype Thread = Thread(slot: nat, hand: Hand)

  /** Whom a mail object belongs to: the interrupt handler, or the user that came in as number `user`. */
  datatype Owner = Handler | Owner(user: nat)

  /** `mails[id]` is the contents of mail object `id` and `owner[id]` its owner; `users[i]` is the number of the user
      in slot i, `entered` how many came in so far, and `freed` lists the objects freed, in order. */
  datatype World = World(mails: seq<Mail>, owner: seq<Owner>, inbox: seq<Mail>, commands: seq<Mail>,
                         channels: seq<Option<int>>, users: seq<Option<nat>>, entered: nat,
                         rooms: seq<seq<seq<nat>>>, irq: Irq, threads: seq<Thread>, freed: seq<nat>)

  datatype Action =
    | Receive | Route | MakeDestroy | WriteDestroy | FreeDestroy | Drop
    | Begin(t: nat, slot: nat) | Make(t: nat, m: Mail) | Write(t: nat) | FreeRequest(t: nat)
    | TakeAnswer(t: nat, q: nat) | FreeAnswer(t: nat) | End(t: nat)
    | Arrive(m: Mail) | McuTakes | Open(slot: nat) | SetChannel(slot: nat, chan: int) | Release(slot: nat)

  const NO_ROOMS: seq<seq<nat>> := [[], [], [], [], [], [], []]

  predicate Shaped(w: World)
  {
    |w.owner| == |w.mails| && |w.rooms| == |w.channels| == |w.users|
    && (forall i :: 0 <= i < |w.rooms| ==> |w.rooms[i]| == QUEUES)
    && (forall i :: 0 <= i < |w.users| ==> (w.users[i].Some? <==> w.channels[i].Some?))
    && (forall k :: 0 <= k < |w.inbox| ==> Routable(w.inbox[k]))
    && (w.irq.Routing? || w.irq.Orphaned? ==> w.irq.mail < |w.mails| && Routable(w.mails[w.irq.mail]))
    && (w.irq.Orphaned? ==> HasWord(w.mails[w.irq.mail], 0))
    && (w.irq.Destroying? ==> w.irq.request < |w.mails|)
    && (forall t :: 0 <= t < |w.threads| && w.threads[t].hand.Made? ==> w.threads[t].hand.request < |w.mails|)
  }

  predicate At(w: World, t: nat)
  {
    t < |w.threads| && w.threads[t].slot < |w.users|
  }

  predicate Enabled(w: World, a: Action)
    requires Shaped(w)
  {
    match a
    case Receive => w.irq.Waiting? && w.inbox != []
    case Route => w.irq.Routing?
    case MakeDestroy => w.irq.Orphaned?
    case WriteDestroy => w.irq.Destroying?
    case FreeDestroy => w.irq.Destroyed?
    case Drop => w.irq.Dropping?
    case Begin(t, i) => t < |w.threads| && w.threads[t].hand.Outside? && i < |w.users| && w.users[i].Some?
    case Make(t, _) => At(w, t) && w.threads[t].hand.Inside? && w.users[w.threads[t].slot].Some?
    case Write(t) => At(w, t) && w.threads[t].hand.Made?
    case FreeRequest(t) => At(w, t) && w.threads[t].hand.Written?
    case TakeAnswer(t, q) => At(w, t) && w.threads[t].hand.Inside? && q < QUEUES && w.rooms[w.threads[t].slot][q] != []
    case FreeAnswer(t) => At(w, t) && w.threads[t].hand.Got?
    case End(t) => At(w, t) && w.threads[t].hand.Inside?
    case Arrive(m) => Routable(Delivered(m))
    case McuTakes => w.commands != []
    case Open(i) => i < |w.users| && w.users[i].None?
    case SetChannel(i, _) => i < |w.users| && w.users[i].Some?
    case Release(i) =>
      i < |w.users| && w.users[i].Some?
      && forall t :: 0 <= t < |w.threads| && w.threads[t].slot == i ==> w.threads[t].hand.Outside?
  }

  /** A new mail object, whose number is the number of objects so far. */
  function New(w: World, m: Mail, o: Owner): (x: World)
  {
    w.(mails := w.mails + [m], owner := w.owner + [o])
  }

  function Handed(w: World, t: nat, h: Hand): (x: World)
    requires t < |w.threads|
  {
    w.(threads := w.threads[t := w.threads[t].(hand := h)])
  }

  /** What the handler does with a mail that it received. */
  function RouteMail(w: World, id: nat): (x: World)
    requires Shaped(w) && id < |w.mails| && Routable(w.mails[id])
  {
    var m := w.mails[id];
    if m.uid == MSG_TRACE then w.(irq := Dropping(id))
    else
      match Target(w.channels, m)
      case Some(i) =>
        TargetInRange(w.channels, m);
        var q := MailToQueue(m.uid);
        w.(irq := Waiting, rooms := w.rooms[i := w.rooms[i][q := w.rooms[i][q] + [id]]],
           owner := w.owner[id := Owner(w.users[i].value)])
      case None => if DestroysOnBadFeedback(m.uid) then w.(irq := Orphaned(id)) else w.(irq := Dropping(id))
  }

  function Step(size: nat, w: World, a: Action): (x: World)
    requires Shaped(w) && Enabled(w, a)
  {
    match a
    case Receive => New(w, w.inbox[0], Handler).(inbox := w.inbox[1..], irq := Routing(|w.mails|))
    case Route => RouteMail(w, w.irq.mail)
    case MakeDestroy =>
      New(w, QuietDestroy(ToInt32(ChanUidOf(w.mails[w.irq.mail]))), Handler).(irq := Destroying(w.irq.mail, |w.mails|))
    case WriteDestroy =>
      w.(irq := Destroyed(w.irq.mail, w.irq.request), commands := Put(size, w.commands, w.mails[w.irq.request]))
    case FreeDestroy => w.(irq := Dropping(w.irq.mail), freed := w.freed + [w.irq.request])
    case Drop => w.(irq := Waiting, freed := w.freed + [w.irq.mail])
    case Begin(t, i) => w.(threads := w.threads[t := Thread(i, Inside)])
    case Make(t, m) => Handed(New(w, m, Owner(w.users[w.threads[t].slot].value)), t, Made(|w.mails|))
    case Write(t) =>
      var id := w.threads[t].hand.request;
      Handed(w, t, Written(id, Accepts(size, w.commands, w.mails[id]))).(commands := Put(size, w.commands, w.mails[id]))
    case FreeRequest(t) => Handed(w, t, Inside).(freed := w.freed + [w.threads[t].hand.request])
    case TakeAnswer(t, q) =>
      var i := w.threads[t].slot;
      Handed(w, t, Got(w.rooms[i][q][0])).(rooms := w.rooms[i := w.rooms[i][q := w.rooms[i][q][1..]]])
    case FreeAnswer(t) => Handed(w, t, Inside).(freed := w.freed + [w.threads[t].hand.answer])
    case End(t) => Handed(w, t, Outside)
    case Arrive(m) => if Accepts(size, w.inbox, m) then w.(inbox := w.inbox + [Delivered(m)]) else w
    case McuTakes => w.(commands := w.commands[1..])
    case Open(i) =>
      w.(channels := w.channels[i := Some(BAD_CHAN)], users := w.users[i := Some(w.entered)], entered := w.entered + 1)
    case SetChannel(i, chan) => w.(channels := w.channels[i := Some(chan)])
    case Release(i) =>
      w.(channels := w.channels[i := None], users := w.users[i := None], rooms := w.rooms[i := NO_ROOMS],
         freed := w.freed + Flat(w.rooms[i]))
  }

  // ---- One place each -------------------------------------------------------------------------------

  function HandHolds(h: Hand): (ids: seq<nat>)
  {
    match h
    case Made(id) => [id]
    case Written(id, _) => [id]
    case Got(id) => [id]
    case _ => []
  }

  function Hands(threads: seq<Thread>): (hands: seq<seq<nat>>)
    ensures |hands| == |threads| && forall t :: 0 <= t < |threads| ==> hands[t] == HandHolds(threads[t].hand)
  {
    seq(|threads|, t requires 0 <= t < |threads| => HandHolds(threads[t].hand))
  }

  function IrqHolds(irq: Irq): (ids: seq<nat>)
  {
    match irq
    case Waiting => []
    case Destroying(m, d) => [m, d]
    case Destroyed(m, d) => [m, d]
    case _ => [irq.mail]
  }

  function Times(ids: seq<nat>, id: nat): (n: nat)
  {
    multiset(ids)[id]
  }

  function InRooms(rooms: seq<seq<seq<nat>>>, id: nat): (n: nat)
  {
    Tally2(rooms)[id]
  }

  function InHands(threads: seq<Thread>, id: nat): (n: nat)
  {
    Tally(Hands(threads))[id]
  }

  /** In how many places a mail object is: in queues, in the hands of operations or of the handler, and freed. */
  function Places(w: World, id: nat): (n: nat)
  {
    InRooms(w.rooms, id) + InHands(w.threads, id) + Times(IrqHolds(w.irq), id) + Times(w.freed, id)
  }

  /** Every mail object made so far is in exactly one place, and that once; no other is in any. */
  ghost predicate OncePlaced(w: World)
  {
    forall id: nat :: Places(w, id) == if id < |w.mails| then 1 else 0
  }

  function One(x: nat, id: nat): (n: nat)
  {
    if x == id then 1 else 0
  }

  lemma TimesOfFew(x: nat, y: nat, id: nat)
    ensures Times([], id) == 0 && Times([x], id) == One(x, id) && Times([x, y], id) == One(x, id) + One(y, id)
  {
  }

  lemma TimesMore(ids: seq<nat>, x: nat, more: seq<nat>, id: nat)
    ensures Times(ids + [x], id) == Times(ids, id) + One(x, id)
    ensures Times(ids + more, id) == Times(ids, id) + Times(more, id)
  {
  }

  lemma HandChanged(threads: seq<Thread>, t: nat, th: Thread, id: nat)
    requires t < |threads|
    ensures InHands(threads[t := th], id) + Times(HandHolds(threads[t].hand), id)
         == InHands(threads, id) + Times(HandHolds(th.hand), id)
  {
    hide Tally;
    assert Hands(threads[t := th]) == Hands(threads)[t := HandHolds(th.hand)];
    TallyReplace(Hands(threads), t, HandHolds(th.hand));
    AddCounts(Tally(Hands(threads[t := th])), multiset(HandHolds(threads[t].hand)),
              Tally(Hands(threads)), multiset(HandHolds(th.hand)), id);
  }

  lemma AddCounts(a: multiset<nat>, b: multiset<nat>, c: multiset<nat>, d: multiset<nat>, id: nat)
    requires a + b == c + d
    ensures a[id] + b[id] == c[id] + d[id]
  {
    assert (a + b)[id] == (c + d)[id];
  }

  lemma RoomGrown(rooms: seq<seq<seq<nat>>>, i: nat, q: nat, x: nat, id: nat)
    requires i < |rooms| && q < |rooms[i]|
    ensures InRooms(rooms[i := rooms[i][q := rooms[i][q] + [x]]], id) == InRooms(rooms, id) + One(x, id)
  {
    hide Tally, Tally2;
    TallyGrown(rooms[i], q, x);
    Tally2Changed(rooms, i, rooms[i][q := rooms[i][q] + [x]], x);
  }

  lemma RoomShrunk(rooms: seq<seq<seq<nat>>>, i: nat, q: nat, id: nat)
    requires i < |rooms| && q < |rooms[i]| && rooms[i][q] != []
    ensures InRooms(rooms, id) == InRooms(rooms[i := rooms[i][q := rooms[i][q][1..]]], id) + One(rooms[i][q][0], id)
  {
    hide Tally, Tally2;
    TallyShrunk(rooms[i], q);
    Tally2Changed(rooms, i, rooms[i][q := rooms[i][q][1..]], rooms[i][q][0]);
  }

  lemma RoomEmptied(rooms: seq<seq<seq<nat>>>, i: nat, id: nat)
    requires i < |rooms|
    ensures InRooms(rooms, id) == InRooms(rooms[i := NO_ROOMS], id) + Times(Flat(rooms[i]), id)
  {
    hide Tally, Tally2, Flat;
    TallyOfEmpty(NO_ROOMS);
    Tally2Replace(rooms, i, NO_ROOMS);
    FlatTally(rooms[i]);
    AddCounts(Tally2(rooms[i := NO_ROOMS]), Tally(rooms[i]), Tally2(rooms), Tally(NO_ROOMS), id);
  }

  lemma HandlerPlaces(size: nat, w: World, a: Action, id: nat)
    requires Shaped(w) && Enabled(w, a)
    requires a.Receive? || a.MakeDestroy? || a.WriteDestroy? || a.FreeDestroy? || a.Drop?
    ensures
      var x := Step(size, w, a);
      Places(x, id) == Places(w, id) + (if a.Receive? || a.MakeDestroy? then One(|w.mails|, id) else 0)
      && |x.mails| == |w.mails| + (if a.Receive? || a.MakeDestroy? then 1 else 0)
  {
    hide InRooms, InHands, Times, One, Put, QuietDestroy, ChanUidOf, Routable;
    match a {
      case Receive => TimesOfFew(|w.mails|, 0, id);
      case MakeDestroy => TimesOfFew(w.irq.mail, |w.mails|, id);
      case FreeDestroy =>
        TimesOfFew(w.irq.mail, w.irq.request, id);
        TimesMore(w.freed, w.irq.request, [], id);
      case Drop =>
        TimesOfFew(w.irq.mail, 0, id);
        TimesMore(w.freed, w.irq.mail, [], id);
      case _ =>
    }
  }

  lemma RoutePlaces(size: nat, w: World, id: nat)
    requires Shaped(w) && Enabled(w, Route)
    ensures Places(Step(size, w, Route), id) == Places(w, id) && |Step(size, w, Route).mails| == |w.mails|
  {
    hide InRooms, InHands, Times, One, Target, MailToQueue, DestroysOnBadFeedback, Routable;
    var m := w.mails[w.irq.mail];
    TimesOfFew(w.irq.mail, 0, id);
    if m.uid != MSG_TRACE && Target(w.channels, m).Some? {
      TargetInRange(w.channels, m);
      RoomGrown(w.rooms, Target(w.channels, m).value, MailToQueue(m.uid), w.irq.mail, id);
    }
  }

  lemma HandPlaces(size: nat, w: World, a: Action, id: nat)
    requires Shaped(w) && Enabled(w, a)
    requires a.Begin? || a.Make? || a.Write? || a.FreeRequest? || a.FreeAnswer? || a.End?
    ensures
      var x := Step(size, w, a);
      Places(x, id) == Places(w, id) + (if a.Make? then One(|w.mails|, id) else 0)
      && |x.mails| == |w.mails| + (if a.Make? then 1 else 0)
  {
    hide InRooms, InHands, Times, One, Put, Accepts, Routable;
    var x, before := Step(size, w, a), w.threads[a.t].hand;
    HandChanged(w.threads, a.t, x.threads[a.t], id);
    match a {
      case Make(_, _) => TimesOfFew(|w.mails|, 0, id);
      case Write(_) => TimesOfFew(before.request, 0, id);
      case FreeRequest(_) =>
        TimesOfFew(before.request, 0, id);
        TimesMore(w.freed, before.request, [], id);
      case FreeAnswer(_) =>
        TimesOfFew(before.answer, 0, id);
        TimesMore(w.freed, before.answer, [], id);
      case _ =>
    }
  }

  lemma TakePlaces(size: nat, w: World, t: nat, q: nat, id: nat)
    requires Shaped(w) && Enabled(w, TakeAnswer(t, q))
    ensures
      var x := Step(size, w, TakeAnswer(t, q));
      Places(x, id) == Places(w, id) && |x.mails| == |w.mails|
  {
    hide InRooms, InHands, Times, One, Routable;
    var x, i := Step(size, w, TakeAnswer(t, q)), w.threads[t].slot;
    RoomShrunk(w.rooms, i, q, id);
    HandChanged(w.threads, t, x.threads[t], id);
    TimesOfFew(w.rooms[i][q][0], 0, id);
  }

  lemma ReleasePlaces(size: nat, w: World, i: nat, id: nat)
    requires Shaped(w) && Enabled(w, Release(i))
    ensures Places(Step(size, w, Release(i)), id) == Places(w, id) && |Step(size, w, Release(i)).mails| == |w.mails|
  {
    hide InRooms, InHands, Times, One, Flat, Routable;
    RoomEmptied(w.rooms, i, id);
    TimesMore(w.freed, 0, Flat(w.rooms[i]), id);
  }

  lemma OtherPlaces(size: nat, w: World, a: Action, id: nat)
    requires Shaped(w) && Enabled(w, a) && (a.Arrive? || a.McuTakes? || a.Open? || a.SetChannel?)
    ensures Places(Step(size, w, a), id) == Places(w, id) && |Step(size, w, a).mails| == |w.mails|
  {
    hide InRooms, InHands, Times, Routable, Accepts, Delivered;
  }

  /** A step makes at most one new object, and moves every other at most from one place to another. */
  lemma StepPlaces(size: nat, w: World, a: Action, id: nat)
    requires Shaped(w) && Enabled(w, a)
    ensures
      var x := Step(size, w, a);
      |w.mails| <= |x.mails| <= |w.mails| + 1
      && Places(x, id) == Places(w, id) + if |w.mails| <= id < |x.mails| then 1 else 0
  {
    hide Places, Step, Enabled, Shaped;
    match a {
      case Receive => HandlerPlaces(size, w, a, id);
      case Route => RoutePlaces(size, w, id);
      case MakeDestroy => HandlerPlaces(size, w, a, id);
      case WriteDestroy => HandlerPlaces(size, w, a, id);
      case FreeDestroy => HandlerPlaces(size, w, a, id);
      case Drop => HandlerPlaces(size, w, a, id);
      case TakeAnswer(t, q) => TakePlaces(size, w, t, q, id);
      case Arrive(_) => OtherPlaces(size, w, a, id);
      case McuTakes => OtherPlaces(size, w, a, id);
      case Open(_) => OtherPlaces(size, w, a, id);
      case SetChannel(_, _) => OtherPlaces(size, w, a, id);
      case Release(i) => ReleasePlaces(size, w, i, id);
      case _ => HandPlaces(size, w, a, id);
    }
  }

  lemma StepOncePlaced(size: nat, w: World, a: Action)
    requires Shaped(w) && Enabled(w, a) && OncePlaced(w)
    ensures OncePlaced(Step(size, w, a))
  {
    hide Places, Step, Enabled, Shaped;
    forall id: nat
      ensures Places(Step(size, w, a), id) == if id < |Step(size, w, a).mails| then 1 else 0
    {
      StepPlaces(size, w, a, id);
    }
  }

  // ---- Whose each mail is ---------------------------------------------------------------------------

  predicate OwnedBy(w: World, id: nat, i: nat)
  {
    id < |w.owner| && i < |w.users| && w.users[i].Some? && w.owner[id] == Owner(w.users[i].value)
  }

  /** What waits in a user's queues is the user's. */
  ghost predicate RoomsBelong(w: World)
  {
    forall i, q, k :: 0 <= i < |w.rooms| && 0 <= q < |w.rooms[i]| && 0 <= k < |w.rooms[i][q]| ==>
      OwnedBy(w, w.rooms[i][q][k], i)
  }

  /** What an operation holds is its user's, and that user is there as long as the operation is. */
  ghost predicate HandsBelong(w: World)
  {
    forall t :: 0 <= t < |w.threads| && !w.threads[t].hand.Outside? ==>
      w.threads[t].slot < |w.users| && w.users[w.threads[t].slot].Some?
      && forall id :: id in HandHolds(w.threads[t].hand) ==> OwnedBy(w, id, w.threads[t].slot)
  }

  ghost predicate IrqBelongs(w: World)
  {
    forall id :: id in IrqHolds(w.irq) ==> id < |w.owner| && w.owner[id] == Handler
  }

  ghost predicate Belong(w: World)
  {
    RoomsBelong(w) && HandsBelong(w) && IrqBelongs(w)
    && forall i :: 0 <= i < |w.users| && w.users[i].Some? ==> w.users[i].value < w.entered
  }

  lemma HandlerBelongs(size: nat, w: World, a: Action)
    requires Shaped(w) && Enabled(w, a) && Belong(w)
    requires a.Receive? || a.MakeDestroy? || a.WriteDestroy? || a.FreeDestroy? || a.Drop?
    ensures Belong(Step(size, w, a)) && Shaped(Step(size, w, a))
  {
    hide Routable, QuietDestroy, Put, ChanUidOf, HandHolds;
    IrqHoldsItsMails(w.irq);
  }

  lemma IrqHoldsItsMails(irq: Irq)
    ensures !irq.Waiting? ==> irq.mail in IrqHolds(irq)
    ensures irq.Destroying? || irq.Destroyed? ==> irq.request in IrqHolds(irq)
  {
  }

  lemma HandHoldsItsMail(h: Hand)
    ensures h.Made? || h.Written? ==> h.request in HandHolds(h)
    ensures h.Got? ==> h.answer in HandHolds(h)
  {
  }

  lemma RouteBelongs(size: nat, w: World)
    requires Shaped(w) && Enabled(w, Route) && Belong(w)
    ensures Belong(Step(size, w, Route)) && Shaped(Step(size, w, Route))
  {
    hide Routable, Target, MailToQueue, HasWord, DestroysOnBadFeedback;
    var id := w.irq.mail;
    var m := w.mails[id];
    assert id in IrqHolds(w.irq);
    if m.uid != MSG_TRACE {
      if Target(w.channels, m).Some? {
        TargetInRange(w.channels, m);
        RoutedBelongs(w, id, Target(w.channels, m).value, MailToQueue(m.uid));
      } else if DestroysOnBadFeedback(m.uid) {
        OrphanNamesChannel(m);
      }
    }
  }

  lemma RoutedBelongs(w: World, id: nat, i: nat, q: nat)
    requires Shaped(w) && Belong(w) && id in IrqHolds(w.irq) && w.irq.Routing?
    requires i < |w.users| && w.users[i].Some? && q < QUEUES
    ensures
      var x := w.(irq := Waiting, rooms := w.rooms[i := w.rooms[i][q := w.rooms[i][q] + [id]]],
                  owner := w.owner[id := Owner(w.users[i].value)]);
      Belong(x) && Shaped(x)
  {
    hide Routable, HasWord;
    var x := w.(irq := Waiting, rooms := w.rooms[i := w.rooms[i][q := w.rooms[i][q] + [id]]],
                owner := w.owner[id := Owner(w.users[i].value)]);
    assert w.owner[id] == Handler;
    forall j, p, k | 0 <= j < |x.rooms| && 0 <= p < |x.rooms[j]| && 0 <= k < |x.rooms[j][p]|
      ensures OwnedBy(x, x.rooms[j][p][k], j)
    {
      if j != i || p != q || k < |w.rooms[i][q]| {
        assert OwnedBy(w, w.rooms[j][p][k], j);
      }
    }
  }

  /** A step that changes what one operation holds, to mails of its user, and adds at most a mail. */
  lemma HandedBelongs(w: World, x: World, t: nat)
    requires Shaped(w) && Shaped(x) && Belong(w) && t < |w.threads| == |x.threads|
    requires x.rooms == w.rooms && x.irq == w.irq && x.users == w.users && x.entered == w.entered
    requires x.threads == w.threads[t := x.threads[t]] && w.owner <= x.owner
    requires !x.threads[t].hand.Outside? ==>
      x.threads[t].slot < |w.users| && w.users[x.threads[t].slot].Some?
      && forall id :: id in HandHolds(x.threads[t].hand) ==> OwnedBy(x, id, x.threads[t].slot)
    ensures Belong(x)
  {
    hide Routable, HasWord, IrqHolds, HandHolds;
    forall i, q, k | 0 <= i < |x.rooms| && 0 <= q < |x.rooms[i]| && 0 <= k < |x.rooms[i][q]|
      ensures OwnedBy(x, x.rooms[i][q][k], i)
    {
      assert OwnedBy(w, w.rooms[i][q][k], i);
    }
  }

  lemma HandBelongs(size: nat, w: World, a: Action)
    requires Shaped(w) && Enabled(w, a) && Belong(w)
    requires a.Begin? || a.Make? || a.Write? || a.FreeRequest? || a.FreeAnswer? || a.End?
    ensures Belong(Step(size, w, a)) && Shaped(Step(size, w, a))
  {
    hide Routable, Put, Accepts, HasWord, IrqHolds, RoomsBelong, IrqBelongs;
    var x := Step(size, w, a);
    HandHoldsItsMail(w.threads[a.t].hand);
    forall id | id in HandHolds(x.threads[a.t].hand)
      ensures OwnedBy(x, id, x.threads[a.t].slot)
    {
      if id < |w.mails| {
        assert OwnedBy(w, id, w.threads[a.t].slot);
      }
    }
    HandedBelongs(w, x, a.t);
  }

  lemma TakeBelongs(size: nat, w: World, t: nat, q: nat)
    requires Shaped(w) && Enabled(w, TakeAnswer(t, q)) && Belong(w)
    ensures Belong(Step(size, w, TakeAnswer(t, q))) && Shaped(Step(size, w, TakeAnswer(t, q)))
  {
    hide Routable, HasWord;
    var i := w.threads[t].slot;
    assert OwnedBy(w, w.rooms[i][q][0], i);
  }

  lemma ReleaseBelongs(size: nat, w: World, i: nat)
    requires Shaped(w) && Enabled(w, Release(i)) && Belong(w)
    ensures Belong(Step(size, w, Release(i))) && Shaped(Step(size, w, Release(i)))
  {
    hide Routable, HasWord, Flat;
  }

  lemma OtherBelongs(size: nat, w: World, a: Action)
    requires Shaped(w) && Enabled(w, a) && Belong(w) && (a.Arrive? || a.McuTakes? || a.Open? || a.SetChannel?)
    ensures Belong(Step(size, w, a)) && Shaped(Step(size, w, a))
  {
    hide Routable, HasWord, Accepts, Delivered;
  }

  lemma StepBelongs(size: nat, w: World, a: Action)
    requires Shaped(w) && Enabled(w, a) && Belong(w)
    ensures Belong(Step(size, w, a)) && Shaped(Step(size, w, a))
  {
    hide Step, Enabled, Shaped, Belong;
    match a {
      case Receive => HandlerBelongs(size, w, a);
      case Route => RouteBelongs(size, w);
      case MakeDestroy => HandlerBelongs(size, w, a);
      case WriteDestroy => HandlerBelongs(size, w, a);
      case FreeDestroy => HandlerBelongs(size, w, a);
      case Drop => HandlerBelongs(size, w, a);
      case TakeAnswer(t, q) => TakeBelongs(size, w, t, q);
      case Arrive(_) => OtherBelongs(size, w, a);
      case McuTakes => OtherBelongs(size, w, a);
      case Open(_) => OtherBelongs(size, w, a);
      case SetChannel(_, _) => OtherBelongs(size, w, a);
      case Release(i) => ReleaseBelongs(size, w, i);
      case _ => HandBelongs(size, w, a);
    }
  }

  // ---- Whole runs -----------------------------------------------------------------------------------

  ghost predicate Owned(w: World)
    ensures Owned(w) ==> Shaped(w)
  {
    Shaped(w) && OncePlaced(w) && Belong(w)
  }

  /** A device that was just started. */
  predicate Fresh(w: World)
  {
    Shaped(w) && w.mails == [] && w.freed == [] && w.irq.Waiting? && w.inbox == []
    && (forall i :: 0 <= i < |w.users| ==> w.users[i].None? && w.rooms[i] == NO_ROOMS)
    && (forall t :: 0 <= t < |w.threads| ==> w.threads[t].hand.Outside?)
  }

  ghost predicate Legal(size: nat, w: World, run: seq<Action>)
    requires Shaped(w)
    decreases |run|
  {
    run == []
    || (Enabled(w, run[0]) && Shaped(Step(size, w, run[0])) && Legal(size, Step(size, w, run[0]), run[1..]))
  }

  ghost function After(size: nat, w: World, run: seq<Action>): (x: World)
    requires Shaped(w) && Legal(size, w, run)
    decreases |run|
  {
    if run == [] then w else After(size, Step(size, w, run[0]), run[1..])
  }

  lemma {:induction false} FreshOwned(w: World)
    requires Fresh(w)
    ensures Owned(w)
  {
    hide Routable, Tally, Tally2;
    NoRooms(w.rooms);
    NoHands(w.threads);
    forall id: nat ensures Places(w, id) == 0 {
      TimesOfFew(0, 0, id);
    }
  }

  lemma {:induction false} NoRooms(rooms: seq<seq<seq<nat>>>)
    requires forall i :: 0 <= i < |rooms| ==> rooms[i] == NO_ROOMS
    ensures Tally2(rooms) == multiset{}
  {
    TallyOfEmpty(NO_ROOMS);
    if rooms != [] {
      NoRooms(rooms[1..]);
    }
  }

  lemma NoHands(threads: seq<Thread>)
    requires forall t :: 0 <= t < |threads| ==> threads[t].hand.Outside?
    ensures Tally(Hands(threads)) == multiset{}
  {
    TallyOfEmpty(Hands(threads));
  }

  /** Over every run of the handler and any number of operations, users coming and going, every mail object is in
      one queue, in one hand or freed, once, and what waits for a user or is in its hands is its own. */
  lemma {:induction false} EveryMailInOnePlace(size: nat, w: World, run: seq<Action>)
    requires Owned(w) && Legal(size, w, run)
    ensures Owned(After(size, w, run))
    decreases |run|
  {
    hide OncePlaced, Belong, Step, Enabled;
    if run != [] {
      StepOncePlaced(size, w, run[0]);
      StepBelongs(size, w, run[0]);
      EveryMailInOnePlace(size, Step(size, w, run[0]), run[1..]);
    }
  }

  lemma {:induction false} TallyMember(rows: seq<seq<nat>>, id: nat) returns (p: nat, k: nat)
    requires Tally(rows)[id] > 0
    ensures p < |rows| && k < |rows[p]| && rows[p][k] == id
  {
    if id in rows[0] {
      k :| 0 <= k < |rows[0]| && rows[0][k] == id;
      p := 0;
    } else {
      assert multiset(rows[0])[id] == 0;
      p, k := TallyMember(rows[1..], id);
      p := p + 1;
    }
  }

  lemma {:induction false} Tally2Member(tables: seq<seq<seq<nat>>>, id: nat) returns (i: nat, q: nat, k: nat)
    requires Tally2(tables)[id] > 0
    ensures i < |tables| && q < |tables[i]| && k < |tables[i][q]| && tables[i][q][k] == id
  {
    hide Tally;
    if Tally(tables[0])[id] > 0 {
      q, k := TallyMember(tables[0], id);
      i := 0;
    } else {
      assert Tally2(tables) == Tally(tables[0]) + Tally2(tables[1..]);
      i, q, k := Tally2Member(tables[1..], id);
      i := i + 1;
    }
  }

  /** A mail object that is not freed is with its owner: its user is still in a slot, or the handler holds it. */
  lemma UnfreedIsWithOwner(w: World, id: nat)
    requires Owned(w) && id < |w.mails| && Times(w.freed, id) == 0
    ensures w.owner[id].Owner? ==> exists i :: 0 <= i < |w.users| && w.users[i] == Some(w.owner[id].user)
    ensures w.owner[id].Handler? ==> id in IrqHolds(w.irq)
  {
    hide Tally, Tally2, Hands, Routable;
    assert Places(w, id) == 1;
    if InRooms(w.rooms, id) > 0 {
      var i, q, k := Tally2Member(w.rooms, id);
      assert OwnedBy(w, w.rooms[i][q][k], i);
    } else if InHands(w.threads, id) > 0 {
      var t, k := TallyMember(Hands(w.threads), id);
      assert id in HandHolds(w.threads[t].hand);
      assert OwnedBy(w, id, w.threads[t].slot);
    } else {
      assert id in IrqHolds(w.irq);
    }
  }

  /** Whenever a user has been released, every mail that it ever made or was given has been freed, exactly once. */
  lemma ReleasedUserOwnsNothing(size: nat, w: World, run: seq<Action>, u: nat, id: nat)
    requires Fresh(w) && Legal(size, w, run)
    ensures
      var x := After(size, w, run);
      |x.owner| == |x.mails|
      && (id < |x.mails| && x.owner[id] == Owner(u) && (forall i :: 0 <= i < |x.users| ==> x.users[i] != Some(u)) ==>
            Times(x.freed, id) == 1)
  {
    hide Step, Enabled, Places, Legal, After, Belong, Times;
    FreshOwned(w);
    EveryMailInOnePlace(size, w, run);
    var x := After(size, w, run);
    OncePlacedMeans(x, id);
    if id < |x.mails| && Times(x.freed, id) == 0 {
      UnfreedIsWithOwner(x, id);
    }
  }

  /** No mail object is ever freed twice, and one that was freed is nowhere else. */
  lemma OncePlacedMeans(w: World, id: nat)
    requires OncePlaced(w)
    ensures Times(w.freed, id) <= 1
    ensures Times(w.freed, id) == 1 ==>
      InRooms(w.rooms, id) == 0 && InHands(w.threads, id) == 0 && Times(IrqHolds(w.irq), id) == 0
  {
    assert Places(w, id) <= 1;
  }

  /** When all users have been released and the handler waits, every mail object ever made has been freed once. */
  lemma NothingLeaks(size: nat, w: World, run: seq<Action>, id: nat)
    requires Fresh(w) && Legal(size, w, run)
    ensures
      var x := After(size, w, run);
      x.irq.Waiting? && (forall i :: 0 <= i < |x.users| ==> x.users[i].None?) && id < |x.mails| ==>
        Times(x.freed, id) == 1
  {
    hide Step, Enabled, Places, Legal, After, Belong, Times;
    FreshOwned(w);
    EveryMailInOnePlace(size, w, run);
    var x := After(size, w, run);
    OncePlacedMeans(x, id);
    if id < |x.mails| && Times(x.freed, id) == 0 {
      UnfreedIsWithOwner(x, id);
    }
  }

  // ---- The handler undisturbed ----------------------------------------------------------------------

  /** What the handler does next. */
  function NextOf(irq: Irq): (a: Action)
    requires !irq.Waiting?
  {
    match irq
    case Routing(_) => Route
    case Orphaned(_) => MakeDestroy
    case Destroying(_, _) => WriteDestroy
    case Destroyed(_, _) => FreeDestroy
    case Dropping(_) => Drop
  }

  function StepsLeft(irq: Irq): (n: nat)
  {
    match irq
    case Waiting => 0
    case Routing(_) => 5
    case Orphaned(_) => 4
    case Destroying(_, _) => 3
    case Destroyed(_, _) => 2
    case Dropping(_) => 1
  }

  lemma HandlerGoesOn(size: nat, w: World)
    requires Shaped(w) && Belong(w) && !w.irq.Waiting?
    ensures Enabled(w, NextOf(w.irq))
    ensures Shaped(Step(size, w, NextOf(w.irq))) && Belong(Step(size, w, NextOf(w.irq)))
    ensures StepsLeft(Step(size, w, NextOf(w.irq)).irq) < StepsLeft(w.irq)
  {
    hide Belong, Routable, Put, Target, QuietDestroy, MailToQueue, ChanUidOf, DestroysOnBadFeedback;
    StepBelongs(size, w, NextOf(w.irq));
  }

  /** The world when the handler has finished with the mail it holds, nothing else having happened. */
  ghost function Handled(size: nat, w: World): (x: World)
    requires Shaped(w) && Belong(w)
    ensures Shaped(x) && Belong(x) && x.irq.Waiting?
    decreases StepsLeft(w.irq)
  {
    if w.irq.Waiting? then w
    else
      HandlerGoesOn(size, w);
      Handled(size, Step(size, w, NextOf(w.irq)))
  }

  function Contents(mails: seq<Mail>, ids: seq<nat>): (ms: seq<Mail>)
    requires forall k :: 0 <= k < |ids| ==> ids[k] < |mails|
    ensures |ms| == |ids| && forall k :: 0 <= k < |ids| ==> ms[k] == mails[ids[k]]
  {
    seq(|ids|, k requires 0 <= k < |ids| => mails[ids[k]])
  }

  /** The mails in queue `q` of slot `i`. */
  ghost function RoomMails(w: World, i: nat, q: nat): (ms: seq<Mail>)
    requires Shaped(w) && Belong(w) && i < |w.rooms| && q < QUEUES
  {
    assert forall k :: 0 <= k < |w.rooms[i][q]| ==> OwnedBy(w, w.rooms[i][q][k], i);
    Contents(w.mails, w.rooms[i][q])
  }

  ghost function AllRooms(w: World): (rooms: seq<seq<seq<Mail>>>)
    requires Shaped(w) && Belong(w)
    ensures |rooms| == |w.rooms| && forall i :: 0 <= i < |rooms| ==> |rooms[i]| == QUEUES
    ensures forall i, q :: 0 <= i < |rooms| && 0 <= q < QUEUES ==> rooms[i][q] == RoomMails(w, i, q)
  {
    seq(|w.rooms|, i requires 0 <= i < |w.rooms| => seq(QUEUES, q requires 0 <= q < QUEUES => RoomMails(w, i, q)))
  }

  /** The world as the routing functions see it. */
  ghost function Seen(w: World): (v: View)
    requires Shaped(w) && Belong(w)
    ensures Dispatch.Shaped(v)
  {
    View(w.channels, AllRooms(w), w.commands, [], [])
  }

  lemma SameRoom(w: World, x: World, i: nat, q: nat)
    requires Shaped(w) && Belong(w) && Shaped(x) && Belong(x) && x.rooms == w.rooms && w.mails <= x.mails
    requires i < |w.rooms| && q < QUEUES
    ensures RoomMails(x, i, q) == RoomMails(w, i, q)
  {
    hide HandsBelong, IrqBelongs, Routable;
    assert forall k :: 0 <= k < |w.rooms[i][q]| ==> OwnedBy(w, w.rooms[i][q][k], i);
  }

  lemma SameRooms(w: World, x: World)
    requires Shaped(w) && Belong(w) && Shaped(x) && Belong(x) && x.rooms == w.rooms && w.mails <= x.mails
    ensures AllRooms(x) == AllRooms(w)
  {
    hide Belong, Routable, RoomMails;
    forall i | 0 <= i < |w.rooms|
      ensures AllRooms(x)[i] == AllRooms(w)[i]
    {
      forall q | 0 <= q < QUEUES
        ensures AllRooms(x)[i][q] == AllRooms(w)[i][q]
      {
        SameRoom(w, x, i, q);
      }
    }
  }

  lemma DropSeen(size: nat, w: World)
    requires Shaped(w) && Belong(w) && w.irq.Dropping?
    ensures Seen(Handled(size, w)) == Seen(w) && Handled(size, w).inbox == w.inbox
    ensures Handled(size, w).freed == w.freed + [w.irq.mail]
  {
    hide Belong, Routable;
    HandlerGoesOn(size, w);
    SameRooms(w, Step(size, w, Drop));
  }

  lemma DestroySeen(size: nat, w: World)
    requires Shaped(w) && Belong(w) && w.irq.Destroying?
    ensures Handled(size, w).inbox == w.inbox
    ensures Seen(Handled(size, w)) == Seen(w).(commands := Put(size, w.commands, w.mails[w.irq.request]))
    ensures Handled(size, w).freed == w.freed + [w.irq.request, w.irq.mail]
  {
    hide Belong, Routable, Put, Seen;
    HandlerGoesOn(size, w);
    var x := Step(size, w, WriteDestroy);
    HandlerGoesOn(size, x);
    var y := Step(size, x, FreeDestroy);
    DropSeen(size, y);
    SeenMeans(w, y);
  }

  lemma SeenMeans(w: World, y: World)
    requires Shaped(w) && Belong(w) && Shaped(y) && Belong(y)
    requires y.rooms == w.rooms && w.mails <= y.mails && y.channels == w.channels
    ensures Seen(y) == Seen(w).(commands := y.commands)
  {
    SameRooms(w, y);
  }

  lemma OrphanSeen(size: nat, w: World)
    requires Shaped(w) && Belong(w) && w.irq.Orphaned?
    ensures Handled(size, w).inbox == w.inbox
    ensures Seen(Handled(size, w))
         == Seen(w).(commands := Put(size, w.commands, QuietDestroy(ToInt32(ChanUidOf(w.mails[w.irq.mail])))))
    ensures Handled(size, w).freed == w.freed + [|w.mails|, w.irq.mail]
  {
    hide Belong, Routable, Put, Seen, QuietDestroy, ChanUidOf;
    HandlerGoesOn(size, w);
    var x := Step(size, w, MakeDestroy);
    DestroySeen(size, x);
    SeenMeans(w, x);
  }

  lemma RoutedRoom(w: World, x: World, i: nat, q: nat, id: nat, j: nat, p: nat)
    requires Shaped(w) && Belong(w) && Shaped(x) && Belong(x) && x.mails == w.mails
    requires i < |w.rooms| && q < QUEUES && j < |w.rooms| && p < QUEUES && id < |w.mails|
    requires x.rooms == w.rooms[i := w.rooms[i][q := w.rooms[i][q] + [id]]]
    ensures RoomMails(x, j, p) == RoomMails(w, j, p) + if j == i && p == q then [w.mails[id]] else []
  {
    hide HandsBelong, IrqBelongs, Routable;
    assert forall k :: 0 <= k < |w.rooms[j][p]| ==> OwnedBy(w, w.rooms[j][p][k], j);
  }

  lemma RoutedRooms(w: World, x: World, i: nat, q: nat, id: nat)
    requires Shaped(w) && Belong(w) && Shaped(x) && Belong(x) && x.mails == w.mails
    requires i < |w.rooms| && q < QUEUES && id < |w.mails|
    requires x.rooms == w.rooms[i := w.rooms[i][q := w.rooms[i][q] + [id]]]
    ensures AllRooms(x) == Append(AllRooms(w), i, q, w.mails[id])
  {
    hide Belong, Routable, RoomMails;
    var after := Append(AllRooms(w), i, q, w.mails[id]);
    forall j | 0 <= j < |w.rooms|
      ensures AllRooms(x)[j] == after[j]
    {
      forall p | 0 <= p < QUEUES
        ensures AllRooms(x)[j][p] == after[j][p]
      {
        RoutedRoom(w, x, i, q, id, j, p);
      }
    }
  }

  /** The objects that a mail with number `id` costs, `next` being the number of the request made for it, if any. */
  function FreedFor(channels: seq<Option<int>>, m: Mail, id: nat, next: nat): (ids: seq<nat>)
    requires Routable(m)
  {
    if m.uid == MSG_TRACE then [id]
    else if Target(channels, m).Some? then []
    else if m.uid in {MSG_INIT, MSG_SEARCH_START_CODE, MSG_DESTROY_CHANNEL} then [id]
    else [next, id]
  }

  /** What a mail that was just received leads to. */
  lemma RouteSeen(size: nat, w: World)
    requires Shaped(w) && Belong(w) && w.irq.Routing?
    ensures Handled(size, w).inbox == w.inbox
    ensures Alike(Seen(Handled(size, w)), Handle(size, Seen(w), w.mails[w.irq.mail]))
    ensures Handled(size, w).freed == w.freed + FreedFor(w.channels, w.mails[w.irq.mail], w.irq.mail, |w.mails|)
  {
    hide Belong, Routable, Put, AllRooms, QuietDestroy, ChanUidOf, Target, MailToQueue, Append;
    HandlerGoesOn(size, w);
    var x, m := Step(size, w, Route), w.mails[w.irq.mail];
    if m.uid == MSG_TRACE {
      DropSeen(size, x);
      SeenMeans(w, x);
    } else if Target(w.channels, m).Some? {
      TargetInRange(w.channels, m);
      RoutedRooms(w, x, Target(w.channels, m).value, MailToQueue(m.uid), w.irq.mail);
    } else if DestroysOnBadFeedback(m.uid) {
      OrphanSeen(size, x);
      SeenMeans(w, x);
    } else {
      DropSeen(size, x);
      SeenMeans(w, x);
    }
  }

  /** The same users, queues and commands. */
  predicate Alike(a: View, b: View)
  {
    a.channels == b.channels && a.rooms == b.rooms && a.commands == b.commands
  }

  /** Undisturbed, the handler's small steps on one mail are the routing function that one pass is made of. A delivered
      mail is not freed; a trace and an unclaimed mail are freed once, and so is the request that the latter may lead
      to. */
  lemma UndisturbedHandling(size: nat, w: World)
    requires Shaped(w) && Belong(w) && w.irq.Waiting? && w.inbox != []
    ensures Enabled(w, Receive) && Shaped(Step(size, w, Receive)) && Belong(Step(size, w, Receive))
    ensures
      var x := Handled(size, Step(size, w, Receive));
      x.irq.Waiting? && x.inbox == w.inbox[1..] && Routable(w.inbox[0])
      && Alike(Seen(x), Handle(size, Seen(w), w.inbox[0]))
      && x.freed == w.freed + FreedFor(w.channels, w.inbox[0], |w.mails|, |w.mails| + 1)
  {
    hide Belong, Routable, Put, AllRooms, Handle, Handled, FreedFor;
    StepBelongs(size, w, Receive);
    var x := Step(size, w, Receive);
    RouteSeen(size, x);
    SeenMeans(w, x);
  }

  // ---- Operations undisturbed -----------------------------------------------------------------------

  lemma InsideHasUser(w: World, t: nat)
    requires Shaped(w) && Belong(w) && t < |w.threads| && w.threads[t].hand.Inside?
    ensures At(w, t) && w.users[w.threads[t].slot].Some?
  {
    hide RoomsBelong, IrqBelongs, Routable;
  }

  /** A request that an operation makes, writes and frees: it goes out if it fits, and is freed either way. */
  lemma UndisturbedPost(size: nat, w: World, t: nat, m: Mail)
    requires Shaped(w) && Belong(w) && t < |w.threads| && w.threads[t].hand.Inside?
    ensures Enabled(w, Make(t, m)) && Shaped(Step(size, w, Make(t, m)))
    ensures
      var x := Step(size, w, Make(t, m));
      Enabled(x, Write(t)) && Shaped(Step(size, x, Write(t)))
      && var y := Step(size, x, Write(t));
         Enabled(y, FreeRequest(t))
         && var z := Step(size, y, FreeRequest(t));
            z.threads == w.threads && z.rooms == w.rooms && z.commands == Put(size, w.commands, m)
            && z.freed == w.freed + [|w.mails|]
  {
    hide Belong, Routable, Put, Accepts;
    InsideHasUser(w, t);
    StepBelongs(size, w, Make(t, m));
    StepBelongs(size, Step(size, w, Make(t, m)), Write(t));
  }

  /** An answer that an operation takes and frees: the oldest of the queue. */
  lemma UndisturbedTake(size: nat, w: World, t: nat, q: nat)
    requires Shaped(w) && Belong(w) && t < |w.threads| && w.threads[t].hand.Inside? && q < QUEUES
    requires w.threads[t].slot < |w.rooms| && w.rooms[w.threads[t].slot][q] != []
    ensures Enabled(w, TakeAnswer(t, q)) && Shaped(Step(size, w, TakeAnswer(t, q)))
    ensures
      var i := w.threads[t].slot;
      var x := Step(size, w, TakeAnswer(t, q));
      Enabled(x, FreeAnswer(t))
      && var y := Step(size, x, FreeAnswer(t));
         y.threads == w.threads && y.commands == w.commands && y.freed == w.freed + [w.rooms[i][q][0]]
         && y.rooms == w.rooms[i := w.rooms[i][q := w.rooms[i][q][1..]]]
  {
    hide Belong, Routable;
    InsideHasUser(w, t);
    StepBelongs(size, w, TakeAnswer(t, q));
  }
}
