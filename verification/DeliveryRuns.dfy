/** Whole histories of one device: mails arrive, interrupt passes route them, users open, create and
    destroy channels, take their mails, send commands and leave. */
module DeliveryRuns {
  import opened MachineWords
  import opened Mails
  import opened Mailboxes
  import opened Dispatch
  import opened Tallies

  datatype Popped = Popped(slot: nat, queue: nat, mail: Mail)

  /** `inbox` is the ring from the microcontroller, `arrived` everything it ever carried, and `popped` the
      mails that users have taken from their queues. */
  datatype World = World(inbox: seq<Mail>, v: View, arrived: seq<Mail>, popped: seq<Popped>)

  datatype Rings = Rings(inSize: nat, outSize: nat)

  datatype Event =
    | Arrive(m: Mail)
    | InterruptPass
    | McuTakes
    | Send(m: Mail)
    | Pop(slot: nat, queue: nat)
    | Open
    | SetChannel(slot: nat, chan: int)
    | Release(slot: nat)

  const NO_MAILS: seq<seq<Mail>> := [[], [], [], [], [], [], []]

  predicate Enabled(w: World, e: Event)
  {
    Shaped(w.v) &&
    match e
    case Arrive(m) => Routable(Delivered(m))
    case InterruptPass => true
    case McuTakes => w.v.commands != []
    case Send(_) => true
    case Pop(i, q) => i < |w.v.rooms| && q < QUEUES && w.v.channels[i].Some? && w.v.rooms[i][q] != []
    case Open => true
    case SetChannel(i, _) => i < |w.v.rooms| && w.v.channels[i].Some?
    case Release(i) => i < |w.v.rooms| && w.v.channels[i].Some?
  }

  function FirstFree(channels: seq<Option<int>>): (i: nat)
    ensures i <= |channels|
    ensures i < |channels| ==> channels[i].None?
    ensures forall j :: 0 <= j < i ==> channels[j].Some?
  {
    if channels == [] || channels[0].None? then 0 else 1 + FirstFree(channels[1..])
  }

  function Batch(inbox: seq<Mail>): (k: nat)
    ensures k <= |inbox|
  {
    if |inbox| < MAX_MAILBOX_MSG then |inbox| else MAX_MAILBOX_MSG
  }

  /** A world in which every pending mail can be routed and free slots hold nothing. */
  ghost predicate Sound(w: World)
  {
    Shaped(w.v)
    && (forall k :: 0 <= k < |w.inbox| ==> Routable(w.inbox[k]))
    && (forall k :: 0 <= k < |w.arrived| ==> Routable(w.arrived[k]))
    && (forall i :: 0 <= i < |w.v.channels| ==> w.v.channels[i].None? ==> w.v.rooms[i] == NO_MAILS)
  }

  function Step(r: Rings, w: World, e: Event): (x: World)
    requires Sound(w) && Enabled(w, e)
    ensures Shaped(x.v)
  {
    var v := w.v;
    match e
    case Arrive(m) =>
      if Accepts(r.inSize, w.inbox, m) then w.(inbox := w.inbox + [Delivered(m)], arrived := w.arrived + [Delivered(m)])
      else w
    case InterruptPass =>
      var k := Batch(w.inbox);
      w.(inbox := w.inbox[k..], v := HandleAll(r.outSize, v, w.inbox[..k]))
    case McuTakes => w.(v := v.(commands := v.commands[1..]))
    case Send(m) => w.(v := Sent(r.outSize, v, m))
    case Pop(i, q) =>
      w.(v := v.(rooms := v.rooms[i := v.rooms[i][q := v.rooms[i][q][1..]]]),
         popped := w.popped + [Popped(i, q, v.rooms[i][q][0])])
    case Open =>
      var i := FirstFree(v.channels);
      if i == |v.channels| then w
      else w.(v := v.(channels := v.channels[i := Some(BAD_CHAN)], rooms := v.rooms[i := NO_MAILS]))
    case SetChannel(i, chan) => w.(v := v.(channels := v.channels[i := Some(chan)]))
    case Release(i) =>
      w.(v := v.(channels := v.channels[i := None], rooms := v.rooms[i := NO_MAILS],
                 freed := v.freed + Flat(v.rooms[i])))
  }

  lemma {:induction false} HandleAllKeepsIdle(size: nat, v: View, ms: seq<Mail>, i: nat)
    requires Shaped(v) && (forall k :: 0 <= k < |ms| ==> Routable(ms[k]))
    requires i < |v.channels| && v.channels[i].None? && v.rooms[i] == NO_MAILS
    ensures HandleAll(size, v, ms).rooms[i] == NO_MAILS
    decreases |ms|
  {
    hide DestroyOrphan, Routable, MailToQueue;
    if ms != [] {
      if ms[0].uid != MSG_TRACE {
        TargetInRange(v.channels, ms[0]);
      }
      var w := Handle(size, v, ms[0]);
      assert w.rooms[i] == NO_MAILS by { HandleKeepsIdle(size, v, ms[0], i); }
      HandleAllKeepsIdle(size, w, ms[1..], i);
    }
  }

  lemma HandleKeepsIdle(size: nat, v: View, m: Mail, i: nat)
    requires Shaped(v) && Routable(m) && i < |v.channels| && v.channels[i].None?
    ensures Handle(size, v, m).rooms[i] == v.rooms[i]
  {
    hide Routable, Put, Target, Addressed;
    if m.uid != MSG_TRACE {
      TargetInRange(v.channels, m);
    }
  }

  lemma StepSound(r: Rings, w: World, e: Event)
    requires Sound(w) && Enabled(w, e)
    ensures Sound(Step(r, w, e))
  {
    hide HandleAll, Put, Accepts, Routable, Delivered, Flat;
    if e.InterruptPass? {
      var k := Batch(w.inbox);
      forall i | 0 <= i < |w.v.channels| && w.v.channels[i].None?
        ensures HandleAll(r.outSize, w.v, w.inbox[..k]).rooms[i] == NO_MAILS
      {
        HandleAllKeepsIdle(r.outSize, w.v, w.inbox[..k], i);
      }
    }
  }

  // ---- Conservation: a pass loses no mail and frees none that it delivered ---------------------

  lemma AppendTally(rooms: seq<seq<seq<Mail>>>, i: nat, q: nat, m: Mail)
    requires i < |rooms| && q < |rooms[i]|
    ensures Tally2(Append(rooms, i, q, m)) == Tally2(rooms) + multiset{m}
  {
    hide Tally, Tally2;
    TallyGrown(rooms[i], q, m);
    Tally2Changed(rooms, i, rooms[i][q := rooms[i][q] + [m]], m);
  }

  /** What was handled, made, waiting and freed before is waiting or freed afterwards, as often as it was there. */
  ghost predicate Balanced(v: View, w: View, ms: seq<Mail>)
  {
    Tally2(w.rooms) + multiset(w.freed) + multiset(v.made)
    == Tally2(v.rooms) + multiset(v.freed) + multiset(w.made) + multiset(ms)
  }

  /** Handling a mail puts it into one queue or frees it, and frees whatever else it makes. */
  lemma HandleConserves(size: nat, v: View, m: Mail)
    requires Shaped(v) && Routable(m)
    ensures Balanced(v, Handle(size, v, m), [m])
  {
    hide Tally2, Routable, Put, Target, Append, Addressed;
    if m.uid != MSG_TRACE && Target(v.channels, m).Some? {
      TargetInRange(v.channels, m);
      AppendTally(v.rooms, Target(v.channels, m).value, MailToQueue(m.uid), m);
    }
  }

  /** A pass loses no mail, frees none that it delivered, and frees every other mail once. */
  lemma {:induction false} PassConserves(size: nat, v: View, ms: seq<Mail>)
    requires Shaped(v) && (forall k :: 0 <= k < |ms| ==> Routable(ms[k]))
    ensures Balanced(v, HandleAll(size, v, ms), ms)
    decreases |ms|
  {
    hide Tally2, Routable, Handle;
    if ms != [] {
      var u := Handle(size, v, ms[0]);
      HandleConserves(size, v, ms[0]);
      PassConserves(size, u, ms[1..]);
      assert ms == [ms[0]] + ms[1..];
      assert multiset(ms) == multiset{ms[0]} + multiset(ms[1..]);
      var w := HandleAll(size, u, ms[1..]);
      Chain(Tally2(v.rooms) + multiset(v.freed), Tally2(u.rooms) + multiset(u.freed),
            Tally2(w.rooms) + multiset(w.freed), multiset(v.made), multiset(u.made), multiset(w.made),
            multiset{ms[0]}, multiset(ms[1..]));
    }
  }

  /** Two balanced steps make a balanced step. */
  lemma Chain<T>(a: multiset<T>, b: multiset<T>, c: multiset<T>,
                 p: multiset<T>, q: multiset<T>, s: multiset<T>, x: multiset<T>, y: multiset<T>)
    requires b + p == a + q + x && c + q == b + s + y
    ensures c + p == a + s + (x + y)
  {
    assert c + p + q == b + s + y + p == a + q + x + s + y;
    Cancel(c + p, q, a + s + (x + y));
  }

  // ---- Order: each queue sees its share of the stream, in stream order ----------------------------

  /** Whether a mail is meant for queue `q` of the user in slot `i` when that user owns channel `chan`. */
  predicate Mine(m: Mail, i: nat, chan: int, q: nat)
    requires Routable(m)
  {
    m.uid != MSG_TRACE && MailToQueue(m.uid) == q
    && (if m.uid == MSG_CREATE_CHANNEL then ToInt32(WordAt(m, 1)) == i
        else if m.uid == MSG_INIT || m.uid == MSG_SEARCH_START_CODE then ToInt32(WordAt(m, 0)) == i
        else ToInt32(WordAt(m, 0)) == chan)
  }

  function MineOf(ms: seq<Mail>, i: nat, chan: int, q: nat): (r: seq<Mail>)
    requires forall k :: 0 <= k < |ms| ==> Routable(ms[k])
  {
    if ms == [] then []
    else (if Mine(ms[0], i, chan, q) then [ms[0]] else []) + MineOf(ms[1..], i, chan, q)
  }

  function PoppedFrom(ps: seq<Popped>, i: nat, q: nat): (ms: seq<Mail>)
  {
    if ps == [] then []
    else PoppedFrom(ps[..|ps| - 1], i, q)
         + if ps[|ps| - 1].slot == i && ps[|ps| - 1].queue == q then [ps[|ps| - 1].mail] else []
  }

  /** Slot `i` owns `chan`, and no lower slot claims the same id. */
  predicate Owns(channels: seq<Option<int>>, i: nat, chan: int)
  {
    i < |channels| && channels[i] == Some(chan) && forall j :: 0 <= j < i ==> channels[j] != Some(chan)
  }

  lemma OwnerRoute(channels: seq<Option<int>>, m: Mail, i: nat, chan: int, q: nat)
    requires Owns(channels, i, chan) && Routable(m)
    ensures RoutesTo(channels, m, i, q) <==> Mine(m, i, chan, q)
  {
    if m.uid != MSG_TRACE && !NamesUser(m) {
      ChannelMailTarget(channels, m, i);
      SlotOfChanIsLowest(channels, ToInt32(WordAt(m, 0)), 0);
    }
  }

  lemma {:induction false} ShareIsMine(channels: seq<Option<int>>, ms: seq<Mail>, i: nat, chan: int, q: nat)
    requires Owns(channels, i, chan) && forall k :: 0 <= k < |ms| ==> Routable(ms[k])
    ensures Share(channels, ms, i, q) == MineOf(ms, i, chan, q)
  {
    hide Routable, RoutesTo, Mine, Owns;
    if ms != [] {
      OwnerRoute(channels, ms[0], i, chan, q);
      ShareIsMine(channels, ms[1..], i, chan, q);
    }
  }

  lemma {:induction false} MineOfConcat(a: seq<Mail>, b: seq<Mail>, i: nat, chan: int, q: nat)
    requires (forall k :: 0 <= k < |a| ==> Routable(a[k])) && (forall k :: 0 <= k < |b| ==> Routable(b[k]))
    ensures forall k :: 0 <= k < |a + b| ==> Routable((a + b)[k])
    ensures MineOf(a + b, i, chan, q) == MineOf(a, i, chan, q) + MineOf(b, i, chan, q)
    decreases |a|
  {
    hide Routable, Mine;
    if a == [] {
      assert a + b == b;
    } else {
      assert (a + b)[1..] == a[1..] + b;
      MineOfConcat(a[1..], b, i, chan, q);
    }
  }

  /** What the user of queue `q` in slot `i` has taken, what waits in the queue, and what is still in the
      ring for it. */
  ghost function Ledger(w: World, i: nat, chan: int, q: nat): (ms: seq<Mail>)
    requires Sound(w) && i < |w.v.rooms| && q < QUEUES
  {
    PoppedFrom(w.popped, i, q) + w.v.rooms[i][q] + MineOf(w.inbox, i, chan, q)
  }

  /** Events that leave the binding of slot `i` and its channel alone; everybody else may come and go, but
      may not take `chan` on a lower slot. */
  predicate Respects(w: World, e: Event, i: nat, chan: int)
  {
    match e
    case SetChannel(j, c) => j != i && (j < i ==> c != chan)
    case Release(j) => j != i
    case Open => chan != BAD_CHAN || i < FirstFree(w.v.channels)
    case _ => true
  }

  lemma RespectKeepsOwner(r: Rings, w: World, e: Event, i: nat, chan: int)
    requires Sound(w) && Enabled(w, e) && Owns(w.v.channels, i, chan) && Respects(w, e, i, chan)
    ensures Owns(Step(r, w, e).v.channels, i, chan)
  {
    hide HandleAll, Put, Accepts, Routable, Flat;
  }

  lemma ArriveLedger(r: Rings, w: World, m: Mail, i: nat, chan: int, q: nat)
    requires Sound(w) && Enabled(w, Arrive(m)) && i < |w.v.rooms| && q < QUEUES
    ensures
      var x := Step(r, w, Arrive(m));
      Sound(x) && w.arrived <= x.arrived
      && Ledger(x, i, chan, q) == Ledger(w, i, chan, q) + MineOf(x.arrived[|w.arrived|..], i, chan, q)
  {
    hide MineOf, Routable, Accepts, Delivered, PoppedFrom;
    StepSound(r, w, Arrive(m));
    var x := Step(r, w, Arrive(m));
    if x != w {
      assert x.arrived[|w.arrived|..] == [Delivered(m)];
      MineOfConcat(w.inbox, [Delivered(m)], i, chan, q);
    } else {
      assert x.arrived[|w.arrived|..] == [];
      NothingIsMine(i, chan, q);
    }
  }

  lemma NothingIsMine(i: nat, chan: int, q: nat)
    ensures MineOf([], i, chan, q) == []
  {
  }

  lemma InterruptLedger(r: Rings, w: World, i: nat, chan: int, q: nat)
    requires Sound(w) && Owns(w.v.channels, i, chan) && q < QUEUES
    ensures
      var x := Step(r, w, InterruptPass);
      Sound(x) && Ledger(x, i, chan, q) == Ledger(w, i, chan, q)
  {
    hide MineOf, Routable, HandleAll, PoppedFrom, Owns;
    StepSound(r, w, InterruptPass);
    var k, x := Batch(w.inbox), Step(r, w, InterruptPass);
    OwnerInRange(w.v.channels, i, chan);
    PassDeliversShares(r.outSize, w.v, w.inbox[..k], i, q);
    ShareIsMine(w.v.channels, w.inbox[..k], i, chan, q);
    assert w.inbox == w.inbox[..k] + w.inbox[k..];
    MineOfConcat(w.inbox[..k], w.inbox[k..], i, chan, q);
  }

  lemma OwnerInRange(channels: seq<Option<int>>, i: nat, chan: int)
    requires Owns(channels, i, chan)
    ensures i < |channels|
  {
  }

  lemma PopLedger(r: Rings, w: World, j: nat, p: nat, i: nat, chan: int, q: nat)
    requires Sound(w) && Enabled(w, Pop(j, p)) && i < |w.v.rooms| && q < QUEUES
    ensures
      var x := Step(r, w, Pop(j, p));
      Sound(x) && Ledger(x, i, chan, q) == Ledger(w, i, chan, q)
  {
    hide MineOf, Routable;
    StepSound(r, w, Pop(j, p));
    var x, room := Step(r, w, Pop(j, p)), w.v.rooms[j][p];
    assert x.popped[..|x.popped| - 1] == w.popped;
    if j == i && p == q {
      assert room == [room[0]] + room[1..];
    } else {
      assert x.v.rooms[i][q] == w.v.rooms[i][q];
    }
  }

  /** One event changes the ledger by exactly what it brings in for this queue. */
  lemma StepLedger(r: Rings, w: World, e: Event, i: nat, chan: int, q: nat)
    requires Sound(w) && Enabled(w, e) && Owns(w.v.channels, i, chan) && Respects(w, e, i, chan) && q < QUEUES
    ensures
      var x := Step(r, w, e);
      Sound(x) && Owns(x.v.channels, i, chan) && w.arrived <= x.arrived
      && Ledger(x, i, chan, q) == Ledger(w, i, chan, q) + MineOf(x.arrived[|w.arrived|..], i, chan, q)
  {
    hide MineOf, Routable, HandleAll, Put, Accepts, Flat, PoppedFrom;
    var x := Step(r, w, e);
    RespectKeepsOwner(r, w, e, i, chan);
    NothingIsMine(i, chan, q);
    match e {
      case Arrive(m) => ArriveLedger(r, w, m, i, chan, q);
      case InterruptPass => InterruptLedger(r, w, i, chan, q);
      case Pop(j, p) => PopLedger(r, w, j, p, i, chan, q);
      case _ =>
        StepSound(r, w, e);
        assert x.v.rooms[i] == w.v.rooms[i];
    }
    if !e.Arrive? {
      assert x.arrived[|w.arrived|..] == [];
    }
  }

  // ---- Whole runs ---------------------------------------------------------------------------------

  ghost predicate Legal(r: Rings, w: World, es: seq<Event>)
    requires Sound(w)
    decreases |es|
  {
    es == [] || (Enabled(w, es[0]) && Sound(Step(r, w, es[0])) && Legal(r, Step(r, w, es[0]), es[1..]))
  }

  ghost function Run(r: Rings, w: World, es: seq<Event>): (x: World)
    requires Sound(w) && Legal(r, w, es)
    decreases |es|
  {
    if es == [] then w else Run(r, Step(r, w, es[0]), es[1..])
  }

  ghost predicate RunRespects(r: Rings, w: World, es: seq<Event>, i: nat, chan: int)
    requires Sound(w) && Legal(r, w, es)
    decreases |es|
  {
    es == [] || (Respects(w, es[0], i, chan) && RunRespects(r, Step(r, w, es[0]), es[1..], i, chan))
  }

  /** End to end: what a user has popped from a queue, then what waits there, then what the ring still
      holds for it, is what was there at first followed by its share of everything that arrived since, in the
      order of arrival. */
  lemma {:induction false} OrderedDelivery(r: Rings, w: World, es: seq<Event>, i: nat, chan: int, q: nat)
    requires Sound(w) && Legal(r, w, es) && RunRespects(r, w, es, i, chan)
    requires Owns(w.v.channels, i, chan) && q < QUEUES
    ensures
      var x := Run(r, w, es);
      Sound(x) && Owns(x.v.channels, i, chan) && w.arrived <= x.arrived
      && Ledger(x, i, chan, q) == Ledger(w, i, chan, q) + MineOf(x.arrived[|w.arrived|..], i, chan, q)
    decreases |es|
  {
    hide Step, Enabled, Ledger, MineOf, Routable, Respects;
    if es == [] {
      assert w.arrived[|w.arrived|..] == [];
      NothingIsMine(i, chan, q);
    } else {
      var u := Step(r, w, es[0]);
      StepLedger(r, w, es[0], i, chan, q);
      OrderedDelivery(r, u, es[1..], i, chan, q);
      var x := Run(r, u, es[1..]);
      var (first, rest) := (u.arrived[|w.arrived|..], x.arrived[|u.arrived|..]);
      assert x.arrived[|w.arrived|..] == first + rest;
      MineOfConcat(first, rest, i, chan, q);
    }
  }
}
