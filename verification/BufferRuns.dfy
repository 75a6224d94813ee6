/** Every history of pools, descriptors and calls in progress, seen from the reference counts. */
module BufferRuns {
  import opened DmaKernel
  import opened Tallies

  /** A call that hands out a descriptor has opened `fd` on slot `id` and not yet taken its reference. */
  datatype Loan = NoLoan | Loan(id: nat, fd: int)

  /** `pools` are the handle tables of all pools, `loans[p]` the hand-out in progress on pool p, of which there is at
      most one because its user's lock is held, and `borrowed` the references of look-ups in progress. */
  datatype System = System(d: Dma, pools: seq<seq<nat>>, loans: seq<Loan>, borrowed: seq<nat>)

  datatype Action =
    | MakeInto(pool: nat, buffer: DmaBuffer)
    | MakeAndDrop(buffer: DmaBuffer)
    | FreePool(pool: nat)
    | OpenOn(pool: nat, id: nat, fd: int)
    | Reference(pool: nat)
    | Borrow(fd: int)
    | GiveBack
    | CloseFd(fd: int)

  predicate Sound(s: System)
  {
    |s.loans| == |s.pools| && forall p :: 0 <= p < |s.pools| && s.loans[p].Loan? ==> s.loans[p].id < |s.pools[p]|
  }

  predicate Enabled(s: System, a: Action)
    requires Sound(s)
  {
    match a
    case MakeInto(p, _) => p < |s.pools|
    case MakeAndDrop(_) => true
    case FreePool(p) => p < |s.pools| && s.loans[p].NoLoan?
    case OpenOn(p, id, fd) => p < |s.pools| && s.loans[p].NoLoan? && id < |s.pools[p]| && fd >= 0 && fd !in s.d.fds
    case Reference(p) => p < |s.pools| && s.loans[p].Loan?
    case Borrow(fd) => fd in s.d.fds
    case GiveBack => s.borrowed != []
    case CloseFd(fd) => fd in s.d.fds
  }

  function PutAll(d: Dma, hs: seq<nat>): (r: Dma)
    decreases |hs|
  {
    if hs == [] || hs[0] !in d.refs then d else PutAll(Put(d, hs[0]), hs[1..])
  }

  function TryGet(d: Dma, fd: int): (r: Dma)
  {
    if fd in d.fds && d.fds[fd] in d.refs then Get(d, fd) else d
  }

  function Do(s: System, a: Action): (t: System)
    requires Sound(s) && Enabled(s, a)
    ensures Sound(t)
  {
    match a
    case MakeInto(p, b) =>
      s.(d := WrapHandle(Alloc(s.d, b), s.d.next), pools := s.pools[p := s.pools[p] + [s.d.next]])
    case MakeAndDrop(b) => s.(d := FreeRaw(Alloc(s.d, b), s.d.next))
    case FreePool(p) => s.(d := PutAll(s.d, s.pools[p]), pools := s.pools[p := []])
    case OpenOn(p, id, fd) => s.(d := Install(s.d, fd, s.pools[p][id]), loans := s.loans[p := Loan(id, fd)])
    case Reference(p) => s.(d := TryGet(s.d, s.loans[p].fd), loans := s.loans[p := NoLoan])
    case Borrow(fd) =>
      if s.d.fds[fd] in s.d.refs then s.(d := Get(s.d, fd), borrowed := [s.d.fds[fd]] + s.borrowed) else s
    case GiveBack =>
      if s.borrowed[0] in s.d.refs then s.(d := Put(s.d, s.borrowed[0]), borrowed := s.borrowed[1..]) else s
    case CloseFd(fd) => if s.d.fds[fd] in s.d.refs then s.(d := Close(s.d, fd)) else s
  }

  /** The references that a pool holds: while a hand-out is in progress the new descriptor has one of them. */
  function Holding(pool: seq<nat>, loan: Loan): (hs: seq<nat>)
  {
    if loan.Loan? && loan.id < |pool| then pool[..loan.id] + pool[loan.id + 1..] else pool
  }

  function Holdings(s: System): (rows: seq<seq<nat>>)
    requires Sound(s)
    ensures |rows| == |s.pools| && forall p :: 0 <= p < |rows| ==> rows[p] == Holding(s.pools[p], s.loans[p])
  {
    seq(|s.pools|, p requires 0 <= p < |s.pools| => Holding(s.pools[p], s.loans[p]))
  }

  function Owned(s: System): (m: multiset<nat>)
    requires Sound(s)
  {
    Tally(Holdings(s)) + multiset(s.borrowed)
  }

  lemma HoldingsUpdate(s: System, t: System, p: nat)
    requires Sound(s) && Sound(t) && p < |s.pools| == |t.pools|
    requires t.pools == s.pools[p := t.pools[p]] && t.loans == s.loans[p := t.loans[p]]
    ensures Holdings(t) == Holdings(s)[p := Holding(t.pools[p], t.loans[p])]
  {
  }

  /** One handle less, or more, among those of a pool. */
  lemma HoldingChanged(s: System, t: System, p: nat, h: nat)
    requires Sound(s) && Sound(t) && p < |s.pools| == |t.pools| && t.borrowed == s.borrowed
    requires t.pools == s.pools[p := t.pools[p]] && t.loans == s.loans[p := t.loans[p]]
    requires multiset(Holding(t.pools[p], t.loans[p])) == multiset(Holding(s.pools[p], s.loans[p])) + multiset{h}
    ensures Owned(t) == Owned(s) + multiset{h}
  {
    hide Tally;
    HoldingsUpdate(s, t, p);
    TallyReplace(Holdings(s), p, Holding(t.pools[p], t.loans[p]));
    var (old', new', more) := (Tally(Holdings(s)), Tally(Holdings(t)), multiset(Holding(s.pools[p], s.loans[p])));
    assert new' + more == old' + multiset{h} + more;
    Cancel(new', more, old' + multiset{h});
  }

  lemma {:induction false} PutAllAccounted(d: Dma, others: multiset<nat>, hs: seq<nat>)
    requires Accounted(d, others + multiset(hs))
    ensures Accounted(PutAll(d, hs), others) && PutAll(d, hs).fds == d.fds
    decreases |hs|
  {
    hide Accounted;
    if hs == [] {
      assert others + multiset(hs) == others;
    } else {
      assert hs == [hs[0]] + hs[1..];
      assert others + multiset(hs) == others + multiset(hs[1..]) + multiset{hs[0]};
      PutAccounted(d, others + multiset(hs[1..]), hs[0]);
      PutAllAccounted(Put(d, hs[0]), others, hs[1..]);
    }
  }

  lemma LoanTaken(pool: seq<nat>, id: nat)
    requires id < |pool|
    ensures multiset(pool) == multiset(pool[..id] + pool[id + 1..]) + multiset{pool[id]}
  {
    assert pool == pool[..id] + [pool[id]] + pool[id + 1..];
  }

  lemma MakeStep(s: System, p: nat, b: DmaBuffer)
    requires Sound(s) && Accounted(s.d, Owned(s)) && p < |s.pools|
    ensures Accounted(Do(s, MakeInto(p, b)).d, Owned(Do(s, MakeInto(p, b))))
  {
    hide Accounted, Alloc, WrapHandle, Tally, Owned;
    var t, loan := Do(s, MakeInto(p, b)), s.loans[p];
    MadeAccounted(s.d, Owned(s), b);
    if loan.Loan? {
      assert t.pools[p][loan.id + 1..] == s.pools[p][loan.id + 1..] + [s.d.next];
      assert Holding(t.pools[p], loan) == Holding(s.pools[p], loan) + [s.d.next];
    }
    HoldingChanged(s, t, p, s.d.next);
  }

  lemma FreePoolStep(s: System, p: nat)
    requires Sound(s) && Accounted(s.d, Owned(s)) && Enabled(s, FreePool(p))
    ensures Accounted(Do(s, FreePool(p)).d, Owned(Do(s, FreePool(p))))
  {
    hide Accounted, Tally, PutAll;
    var t := Do(s, FreePool(p));
    HoldingsUpdate(s, t, p);
    TallyEmptied(Holdings(s), p);
    assert Owned(s) == Owned(t) + multiset(s.pools[p]);
    PutAllAccounted(s.d, Owned(t), s.pools[p]);
  }

  lemma OpenStep(s: System, p: nat, id: nat, fd: int)
    requires Sound(s) && Accounted(s.d, Owned(s)) && Enabled(s, OpenOn(p, id, fd))
    ensures Accounted(Do(s, OpenOn(p, id, fd)).d, Owned(Do(s, OpenOn(p, id, fd))))
  {
    hide Accounted, Tally, Install, Owned;
    var t, h := Do(s, OpenOn(p, id, fd)), s.pools[p][id];
    LoanTaken(s.pools[p], id);
    HoldingChanged(t, s, p, h);
    InstallAccounted(s.d, Owned(t), fd, h);
  }

  /** Whether the descriptor of a hand-out in progress still names the buffer for which it was opened. */
  predicate StillNames(s: System, p: nat)
    requires Sound(s) && p < |s.loans| && s.loans[p].Loan?
  {
    s.loans[p].fd in s.d.fds && s.d.fds[s.loans[p].fd] == s.pools[p][s.loans[p].id]
  }

  /** Taking the reference of a hand-out keeps every reference owned exactly if nobody has closed the descriptor in the
      meantime, or at least it names the same buffer again. */
  lemma ReferenceStep(s: System, p: nat)
    requires Sound(s) && Accounted(s.d, Owned(s)) && Enabled(s, Reference(p))
    ensures Accounted(Do(s, Reference(p)).d, Owned(Do(s, Reference(p)))) <==> StillNames(s, p)
  {
    hide Accounted, Tally, Get, Owned;
    var t, fd, h := Do(s, Reference(p)), s.loans[p].fd, s.pools[p][s.loans[p].id];
    LoanTaken(s.pools[p], s.loans[p].id);
    HoldingChanged(s, t, p, h);
    if fd in s.d.fds {
      GetAccounted(s.d, Owned(s), fd);
      if !StillNames(s, p) {
        OtherOwned(t.d, Owned(s), s.d.fds[fd], h);
      }
    } else {
      OwnedOnce(s.d, Owned(s), h);
    }
  }

  lemma OtherOwned(d: Dma, held: multiset<nat>, h: nat, other: nat)
    requires Accounted(d, held + multiset{h}) && h != other
    ensures !Accounted(d, held + multiset{other})
  {
    hide FdsOf;
    assert RefCount(d, h) == (held + multiset{h})[h] + |FdsOf(d, h)|;
    assert RefCount(d, h) != (held + multiset{other})[h] + |FdsOf(d, h)|;
  }

  lemma BorrowStep(s: System, a: Action)
    requires Sound(s) && Accounted(s.d, Owned(s)) && Enabled(s, a) && (a.Borrow? || a.GiveBack?)
    ensures Accounted(Do(s, a).d, Owned(Do(s, a)))
  {
    hide Accounted, Tally, Get, Put;
    if a.Borrow? {
      GetAccounted(s.d, Owned(s), a.fd);
      assert Holdings(Do(s, a)) == Holdings(s);
      assert Owned(Do(s, a)) == Owned(s) + multiset{s.d.fds[a.fd]};
    } else {
      assert s.borrowed == [s.borrowed[0]] + s.borrowed[1..];
      var rest := Tally(Holdings(s)) + multiset(s.borrowed[1..]);
      assert Owned(s) == rest + multiset{s.borrowed[0]};
      PutAccounted(s.d, rest, s.borrowed[0]);
      assert Holdings(Do(s, a)) == Holdings(s);
    }
  }

  lemma OtherStep(s: System, a: Action)
    requires Sound(s) && Accounted(s.d, Owned(s)) && Enabled(s, a) && (a.MakeAndDrop? || a.CloseFd?)
    ensures Accounted(Do(s, a).d, Owned(Do(s, a)))
  {
    hide Accounted, Tally, Close, FreeRaw, Alloc;
    assert Holdings(Do(s, a)) == Holdings(s);
    if a.CloseFd? {
      CloseAccounted(s.d, Owned(s), a.fd);
    } else {
      DroppedAccounted(s.d, Owned(s), a.buffer);
    }
  }

  /** Every action leaves every reference with exactly one owner, but for one: taking the reference of a hand-out does
      so exactly if the descriptor still names its buffer. */
  lemma StepAccounted(s: System, a: Action)
    requires Sound(s) && Accounted(s.d, Owned(s)) && Enabled(s, a)
    ensures Accounted(Do(s, a).d, Owned(Do(s, a))) <==> (a.Reference? ==> StillNames(s, a.pool))
  {
    hide Accounted, Owned, Do, StillNames;
    match a {
      case MakeInto(p, b) => MakeStep(s, p, b);
      case FreePool(p) => FreePoolStep(s, p);
      case OpenOn(p, id, fd) => OpenStep(s, p, id, fd);
      case Reference(p) => ReferenceStep(s, p);
      case Borrow(fd) => BorrowStep(s, a);
      case GiveBack => BorrowStep(s, a);
      case _ => OtherStep(s, a);
    }
  }

  ghost predicate Legal(s: System, actions: seq<Action>)
    requires Sound(s)
    decreases |actions|
  {
    actions == [] || (Enabled(s, actions[0]) && Legal(Do(s, actions[0]), actions[1..]))
  }

  function Run(s: System, actions: seq<Action>): (t: System)
    requires Sound(s)
    ensures Sound(t)
    decreases |actions|
  {
    if actions == [] || !Enabled(s, actions[0]) then s else Run(Do(s, actions[0]), actions[1..])
  }

  /** In the whole history, whenever a hand-out takes its reference its descriptor still names its buffer. */
  ghost predicate NeverClosedEarly(s: System, actions: seq<Action>)
    requires Sound(s) && Legal(s, actions)
    decreases |actions|
  {
    actions == []
    || ((actions[0].Reference? ==> StillNames(s, actions[0].pool)) && NeverClosedEarly(Do(s, actions[0]), actions[1..]))
  }

  lemma {:induction false} RunAccounted(s: System, actions: seq<Action>)
    requires Sound(s) && Accounted(s.d, Owned(s)) && Legal(s, actions) && NeverClosedEarly(s, actions)
    ensures Accounted(Run(s, actions).d, Owned(Run(s, actions)))
    decreases |actions|
  {
    hide Accounted, Do, Enabled, Owned, StillNames;
    if actions != [] {
      StepAccounted(s, actions[0]);
      RunAccounted(Do(s, actions[0]), actions[1..]);
    }
  }

  /** The first hand-out of a history whose descriptor no longer names its buffer when the reference is taken leaves a
      reference without its owner, so that up to there the condition is exact. */
  lemma FirstClosedEarly(s: System, actions: seq<Action>, p: nat)
    requires Sound(s) && Accounted(s.d, Owned(s)) && Legal(s, actions) && NeverClosedEarly(s, actions)
    requires Enabled(Run(s, actions), Reference(p))
    ensures
      var t := Do(Run(s, actions), Reference(p));
      Accounted(t.d, Owned(t)) <==> StillNames(Run(s, actions), p)
  {
    hide Accounted, Do, Enabled, Owned, StillNames;
    RunAccounted(s, actions);
    StepAccounted(Run(s, actions), Reference(p));
  }

  predicate Blank(s: System)
  {
    Sound(s) && s.d == NOTHING_YET && s.borrowed == []
    && forall p :: 0 <= p < |s.pools| ==> s.pools[p] == [] && s.loans[p].NoLoan?
  }

  lemma BlankAccounted(s: System)
    requires Blank(s)
    ensures Accounted(s.d, Owned(s))
  {
    NothingAccounted();
    TallyOfEmpty(Holdings(s));
    assert Owned(s) == multiset{};
  }

  /** After any such history, a buffer has been freed exactly once if no pool holds it, no look-up borrows it and no
      descriptor names it, and is still there, never freed, otherwise. */
  lemma FreedExactlyWhenUnowned(s: System, actions: seq<Action>, id: nat)
    requires Blank(s) && Legal(s, actions) && NeverClosedEarly(s, actions)
    ensures
      var t := Run(s, actions);
      id < t.d.next ==>
        (multiset(t.d.freed)[id] == if id in Owned(t) || FdsOf(t.d, id) != {} then 0 else 1)
        && (id in t.d.live <==> id in Owned(t) || FdsOf(t.d, id) != {})
  {
    hide Do, Enabled, Owned, Run, Legal, StillNames, NeverClosedEarly;
    BlankAccounted(s);
    RunAccounted(s, actions);
    var t := Run(s, actions);
    assert RefCount(t.d, id) == Owned(t)[id] + |FdsOf(t.d, id)|;
  }

  const START := System(NOTHING_YET, [[]], [NoLoan], [])

  function One(b: DmaBuffer, fds: map<int, nat>, loan: Loan): (s: System)
  {
    System(Dma(1, map[0 := b], {0}, map[0 := 1], fds, []), [[0]], [loan], [])
  }

  function None(b: DmaBuffer, loan: Loan): (s: System)
  {
    System(Dma(1, map[0 := b], {}, map[], map[], [0]), [[0]], [loan], [])
  }

  lemma MadeOne(b: DmaBuffer)
    ensures Do(START, MakeInto(0, b)) == One(b, map[], NoLoan)
    ensures Do(One(b, map[], NoLoan), OpenOn(0, 0, 5)) == One(b, map[5 := 0], Loan(0, 5))
  {
    var none: seq<nat>, one: seq<nat> := [], [0];
    assert START.pools == [none] && none + [0] == one;
    assert [none][0 := one] == [one];
    assert {} + {0} == {0};
    assert [NoLoan][0 := Loan(0, 5)] == [Loan(0, 5)];
  }

  lemma ClosedEarly(b: DmaBuffer)
    ensures Do(One(b, map[5 := 0], Loan(0, 5)), CloseFd(5)) == None(b, Loan(0, 5))
    ensures Do(None(b, Loan(0, 5)), Reference(0)) == None(b, NoLoan)
  {
    var d := One(b, map[5 := 0], Loan(0, 5)).d;
    assert d.fds - {5} == map[];
    assert d.refs - {0} == map[] && d.live - {0} == {} && d.freed + [0] == [0];
    assert [Loan(0, 5)][0 := NoLoan] == [NoLoan];
  }

  /** A pool with one buffer hands out descriptor 5, another thread closes it at once, and the buffer is gone while
      the pool still has its handle. */
  lemma BufferLost(b: DmaBuffer)
    ensures Blank(START)
    ensures
      var s := Do(START, MakeInto(0, b));
      Enabled(s, OpenOn(0, 0, 5))
      && var t := Do(s, OpenOn(0, 0, 5));
         Enabled(t, CloseFd(5))
         && var u := Do(t, CloseFd(5));
            Enabled(u, Reference(0)) && Do(u, Reference(0)) == None(b, NoLoan)
  {
    hide Do;
    MadeOne(b);
    ClosedEarly(b);
  }
}
