/** The locks of one user as a small-step protocol: operations that hold one lock each, perhaps asleep behind a
    gate, and destroyers that open the gates, take every lock in ascending order, and close the gates again. */
module DestroyLocks {
  import opened MachineWords
  import Dispatch
  import opened Users

  // ---- The operations -------------------------------------------------------------------------------

  /** What an application may be doing; the last lets a picture go without waiting for an answer. */
  datatype Op = CreateOp | XcodeOp | StatusOp | StartCodeOp | FetchOp | GiveBackOp

  function LockOf(op: Op): (l: nat)
    ensures l < OPS
  {
    match op
    case CreateOp => LOCK_CREATE
    case XcodeOp => LOCK_XCODE
    case StatusOp => LOCK_STATUS
    case StartCodeOp => LOCK_SC
    case FetchOp => LOCK_REC
    case GiveBackOp => LOCK_REC
  }

  const GATES: nat := 4

  /** The gate behind which an operation sleeps, in the order in which a destroyer opens them. */
  function GateOf(op: Op): (g: Option<nat>)
    ensures g.Some? ==> g.value < GATES
  {
    match op
    case StatusOp => Some(0)
    case StartCodeOp => Some(1)
    case CreateOp => Some(2)
    case FetchOp => Some(3)
    case _ => None
  }

  /** The queues behind the gates, in the order of the gates. */
  const GATED: seq<nat> := [Dispatch.QUEUE_STATUS, Dispatch.QUEUE_SC, Dispatch.QUEUE_CREATE, Dispatch.QUEUE_REC]

  /** An operation that sleeps behind a gate holds the lock of the queue in which it looks. */
  lemma SleeperHoldsItsLock(op: Op)
    ensures GateOf(op).Some? ==> LockOf(op) == LockFor(GATED[GateOf(op).value])
  {
  }

  datatype Thread = Idle | Wanting(op: Op) | Working(op: Op) | Sleeping(op: Op) | Leaving(op: Op)

  function LockHeld(t: Thread): (l: Option<nat>)
  {
    match t
    case Idle => None
    case Wanting(_) => None
    case _ => Some(LockOf(t.op))
  }

  // ---- The destroyers -------------------------------------------------------------------------------

  datatype Pc =
    | AtRest
    | Opening(gate: nat)
    | Acquiring(lock: nat)
    | BackingOut(next: nat, reached: nat)
    | Sending
    | Awaiting
    | Releasing(next: nat)
    | Closing(gate: nat)

  predicate InRange(p: Pc)
  {
    match p
    case Opening(g) => g < GATES
    case Acquiring(l) => l < OPS
    case BackingOut(n, r) => n <= r < OPS
    case Releasing(n) => n < OPS
    case Closing(g) => g < GATES
    case _ => true
  }

  /** Whether a destroyer at this point holds a lock. */
  predicate Holds(p: Pc, l: nat)
  {
    match p
    case Acquiring(i) => l < i
    case BackingOut(n, r) => n <= l < r
    case Sending => true
    case Awaiting => true
    case Releasing(n) => n <= l
    case _ => false
  }

  /** Whether a destroyer at this point, if it is the only one, keeps a gate open. */
  predicate KeepsOpen(p: Pc, g: nat)
  {
    match p
    case AtRest => false
    case Opening(k) => g < k
    case Closing(k) => k <= g
    case _ => true
  }

  // ---- States and steps -----------------------------------------------------------------------------

  datatype Owner = Nobody | OpHolds(t: nat) | DestroyerHolds(d: nat)

  datatype State = State(threads: seq<Thread>, destroyers: seq<Pc>, owner: seq<Owner>, open: seq<bool>,
                         pending: seq<nat>, answers: nat)

  /** `Give` ends an attempt to take a lock; `Skip` is an error before the sleep; `Kill` is a signal or a timeout. */
  datatype Move = Ask(op: Op) | Take | Give | Sleep | Skip | Wake | Kill | Leave

  /** `Send` tells whether an answer is awaited, which it is not after a failure. */
  datatype Stride =
    | Begin | Open | Acquire | Interrupt | BackOut | Send(wait: bool) | Answered | KillWait | Release | Close

  datatype Action = ByThread(t: nat, m: Move) | ByDestroyer(d: nat, n: Stride) | Arrive(g: nat) | ArriveAnswer

  predicate Sound(s: State)
  {
    |s.owner| == OPS && |s.open| == GATES && |s.pending| == GATES
    && (forall t :: 0 <= t < |s.threads| && s.threads[t].Sleeping? ==> GateOf(s.threads[t].op).Some?)
    && forall d :: 0 <= d < |s.destroyers| ==> InRange(s.destroyers[d])
  }

  predicate MailIsAvailable(s: State, op: Op)
    requires Sound(s)
  {
    GateOf(op).Some? && (s.open[GateOf(op).value] || s.pending[GateOf(op).value] > 0)
  }

  predicate CanMove(s: State, t: nat, m: Move)
    requires Sound(s)
  {
    t < |s.threads| &&
    match m
    case Ask(_) => s.threads[t].Idle?
    case Take => s.threads[t].Wanting? && s.owner[LockOf(s.threads[t].op)].Nobody?
    case Give => s.threads[t].Wanting?
    case Sleep => s.threads[t].Working? && GateOf(s.threads[t].op).Some?
    case Skip => s.threads[t].Working?
    case Wake => s.threads[t].Sleeping? && MailIsAvailable(s, s.threads[t].op)
    case Kill => s.threads[t].Sleeping?
    case Leave => s.threads[t].Leaving?
  }

  /** Whether a destroyer at this point may be about to do this. */
  predicate Fits(p: Pc, n: Stride)
  {
    match n
    case Begin => p.AtRest?
    case Open => p.Opening?
    case Acquire => p.Acquiring?
    case Interrupt => p.Acquiring?
    case BackOut => p.BackingOut?
    case Send(_) => p.Sending?
    case Answered => p.Awaiting?
    case KillWait => p.Awaiting?
    case Release => p.Releasing?
    case Close => p.Closing?
  }

  predicate CanStride(s: State, d: nat, n: Stride)
    requires Sound(s)
  {
    d < |s.destroyers| && Fits(s.destroyers[d], n)
    && (n.Acquire? ==> s.owner[s.destroyers[d].lock].Nobody?)
    && (n.Answered? ==> s.answers > 0)
  }

  predicate Enabled(s: State, a: Action)
    requires Sound(s)
  {
    match a
    case ByThread(t, m) => CanMove(s, t, m)
    case ByDestroyer(d, n) => CanStride(s, d, n)
    case Arrive(g) => g < GATES
    case ArriveAnswer => true
  }

  function Drawn(s: State, op: Op): (pending: seq<nat>)
    requires Sound(s)
    ensures |pending| == GATES
  {
    if GateOf(op).Some? && s.pending[GateOf(op).value] > 0 then
      s.pending[GateOf(op).value := s.pending[GateOf(op).value] - 1]
    else s.pending
  }

  function MoveBy(s: State, t: nat, m: Move): (r: State)
    requires Sound(s) && CanMove(s, t, m)
  {
    var h := s.threads[t];
    match m
    case Ask(op) => s.(threads := s.threads[t := Wanting(op)])
    case Take => s.(threads := s.threads[t := Working(h.op)], owner := s.owner[LockOf(h.op) := OpHolds(t)])
    case Give => s.(threads := s.threads[t := Idle])
    case Sleep => s.(threads := s.threads[t := Sleeping(h.op)])
    case Skip => s.(threads := s.threads[t := Leaving(h.op)])
    case Wake => s.(threads := s.threads[t := Leaving(h.op)], pending := Drawn(s, h.op))
    case Kill => s.(threads := s.threads[t := Leaving(h.op)])
    case Leave => s.(threads := s.threads[t := Idle], owner := s.owner[LockOf(h.op) := Nobody])
  }

  function Advance(p: Pc, n: Stride): (q: Pc)
    requires Fits(p, n)
    ensures InRange(p) ==> InRange(q)
  {
    match n
    case Begin => Opening(0)
    case Open => if p.gate + 1 < GATES then Opening(p.gate + 1) else Acquiring(0)
    case Acquire => if p.lock + 1 < OPS then Acquiring(p.lock + 1) else Sending
    case Interrupt => BackingOut(0, p.lock)
    case BackOut => if p.next < p.reached then BackingOut(p.next + 1, p.reached) else Closing(0)
    case Send(wait) => if wait then Awaiting else Releasing(0)
    case Answered => Releasing(0)
    case KillWait => Releasing(0)
    case Release => if p.next + 1 < OPS then Releasing(p.next + 1) else Closing(0)
    case Close => if p.gate + 1 < GATES then Closing(p.gate + 1) else AtRest
  }

  predicate GivesBack(p: Pc, n: Stride)
  {
    Fits(p, n) && (n.Release? || (n.BackOut? && p.next < p.reached))
  }

  function StrideBy(s: State, d: nat, n: Stride): (r: State)
    requires Sound(s) && CanStride(s, d, n)
  {
    var p := s.destroyers[d];
    var q := s.(destroyers := s.destroyers[d := Advance(p, n)]);
    match n
    case Open => q.(open := s.open[p.gate := true])
    case Acquire => q.(owner := s.owner[p.lock := DestroyerHolds(d)])
    case BackOut => if GivesBack(p, n) then q.(owner := s.owner[p.next := Nobody]) else q
    case Answered => q.(answers := s.answers - 1)
    case Release => q.(owner := s.owner[p.next := Nobody])
    case Close => q.(open := s.open[p.gate := false])
    case _ => q
  }

  function Step(s: State, a: Action): (r: State)
    requires Sound(s) && Enabled(s, a)
    ensures Sound(r)
  {
    match a
    case ByThread(t, m) => MoveBy(s, t, m)
    case ByDestroyer(d, n) => StrideBy(s, d, n)
    case Arrive(g) => s.(pending := s.pending[g := s.pending[g] + 1])
    case ArriveAnswer => s.(answers := s.answers + 1)
  }

  // ---- Locks ----------------------------------------------------------------------------------------

  predicate Claims(s: State, o: Owner, l: nat)
  {
    match o
    case Nobody => true
    case OpHolds(t) => t < |s.threads| && LockHeld(s.threads[t]) == Some(l)
    case DestroyerHolds(d) => d < |s.destroyers| && Holds(s.destroyers[d], l)
  }

  /** Every lock has the one owner whose program point says that it holds it, if there is one. */
  ghost predicate LocksOwned(s: State)
    ensures LocksOwned(s) ==> Sound(s)
  {
    Sound(s)
    && (forall l :: 0 <= l < OPS ==> Claims(s, s.owner[l], l))
    && (forall o: Owner, l :: 0 <= l < OPS && !o.Nobody? && Claims(s, o, l) ==> s.owner[l] == o)
  }

  /** A step hands lock `l` over from `was` to `now`, and changes no other claim. */
  lemma Handover(s: State, r: State, l: nat, was: Owner, now: Owner)
    requires LocksOwned(s) && Sound(r) && l < OPS && s.owner[l] == was && r.owner == s.owner[l := now]
    requires forall o: Owner, k :: 0 <= k < OPS && k != l ==> Claims(r, o, k) == Claims(s, o, k)
    requires forall o: Owner :: !o.Nobody? ==> Claims(r, o, l) == (o == now)
    ensures LocksOwned(r)
  {
  }

  /** A step after which everyone claims what it claimed before keeps every owner. */
  lemma NoHandover(s: State, r: State)
    requires LocksOwned(s) && Sound(r) && r.owner == s.owner
    requires forall o: Owner, k :: 0 <= k < OPS ==> Claims(r, o, k) == Claims(s, o, k)
    ensures LocksOwned(r)
  {
  }

  lemma ClaimsMoved(s: State, t: nat, m: Move, o: Owner, l: nat)
    requires Sound(s) && CanMove(s, t, m) && l < OPS
    ensures
      Claims(MoveBy(s, t, m), o, l) <==>
        (o == OpHolds(t) && m.Take? && l == LockOf(s.threads[t].op))
        || (Claims(s, o, l) && !(o == OpHolds(t) && m.Leave? && l == LockOf(s.threads[t].op)))
  {
  }

  lemma TakeOwned(s: State, t: nat)
    requires LocksOwned(s) && CanMove(s, t, Take)
    ensures LocksOwned(MoveBy(s, t, Take))
  {
    hide Claims;
    forall o: Owner, l | 0 <= l < OPS
      ensures Claims(MoveBy(s, t, Take), o, l) <==> (o == OpHolds(t) && l == LockOf(s.threads[t].op)) || Claims(s, o, l)
    {
      ClaimsMoved(s, t, Take, o, l);
    }
    Handover(s, MoveBy(s, t, Take), LockOf(s.threads[t].op), Nobody, OpHolds(t));
  }

  lemma OpOwns(s: State, t: nat, l: nat)
    requires LocksOwned(s) && t < |s.threads| && l < OPS
    ensures s.owner[l] == OpHolds(t) <==> LockHeld(s.threads[t]) == Some(l)
  {
    assert Claims(s, OpHolds(t), l) <==> LockHeld(s.threads[t]) == Some(l);
  }

  lemma LeaveOwned(s: State, t: nat)
    requires LocksOwned(s) && CanMove(s, t, Leave)
    ensures LocksOwned(MoveBy(s, t, Leave))
  {
    hide Claims;
    forall o: Owner, l | 0 <= l < OPS
      ensures Claims(MoveBy(s, t, Leave), o, l)
        <==> Claims(s, o, l) && !(o == OpHolds(t) && l == LockOf(s.threads[t].op))
    {
      ClaimsMoved(s, t, Leave, o, l);
    }
    OpOwns(s, t, LockOf(s.threads[t].op));
    Handover(s, MoveBy(s, t, Leave), LockOf(s.threads[t].op), OpHolds(t), Nobody);
  }

  lemma MoveOwned(s: State, t: nat, m: Move)
    requires LocksOwned(s) && CanMove(s, t, m)
    ensures LocksOwned(MoveBy(s, t, m))
  {
    hide Claims;
    if m.Take? {
      TakeOwned(s, t);
    } else if m.Leave? {
      LeaveOwned(s, t);
    } else {
      forall o: Owner, l | 0 <= l < OPS
        ensures Claims(MoveBy(s, t, m), o, l) <==> Claims(s, o, l)
      {
        ClaimsMoved(s, t, m, o, l);
      }
      NoHandover(s, MoveBy(s, t, m));
    }
  }

  /** What a destroyer holds changes by the lock that it takes or gives back. */
  lemma AdvanceHolds(p: Pc, n: Stride, l: nat)
    requires InRange(p) && Fits(p, n) && l < OPS
    ensures Holds(Advance(p, n), l)
      <==> (n.Acquire? && l == p.lock) || (Holds(p, l) && !(GivesBack(p, n) && l == p.next))
    ensures n.Acquire? && l == p.lock ==> !Holds(p, l)
    ensures GivesBack(p, n) && l == p.next ==> Holds(p, l)
  {
  }

  lemma ClaimsAfter(s: State, d: nat, n: Stride, o: Owner, l: nat)
    requires Sound(s) && CanStride(s, d, n) && l < OPS
    ensures
      var p := s.destroyers[d];
      Claims(StrideBy(s, d, n), o, l) <==>
        (o == DestroyerHolds(d) && n.Acquire? && l == p.lock)
        || (Claims(s, o, l) && !(o == DestroyerHolds(d) && GivesBack(p, n) && l == p.next))
  {
    AdvanceHolds(s.destroyers[d], n, l);
  }

  lemma AllClaimsAfter(s: State, d: nat, n: Stride)
    requires Sound(s) && CanStride(s, d, n)
    ensures
      var p := s.destroyers[d];
      forall o: Owner, l :: 0 <= l < OPS ==> (Claims(StrideBy(s, d, n), o, l) <==>
        (o == DestroyerHolds(d) && n.Acquire? && l == p.lock)
        || (Claims(s, o, l) && !(o == DestroyerHolds(d) && GivesBack(p, n) && l == p.next)))
  {
    hide Claims, Holds, StrideBy, Advance;
    forall o: Owner, l | 0 <= l < OPS
      ensures
        var p := s.destroyers[d];
        Claims(StrideBy(s, d, n), o, l) <==>
          (o == DestroyerHolds(d) && n.Acquire? && l == p.lock)
          || (Claims(s, o, l) && !(o == DestroyerHolds(d) && GivesBack(p, n) && l == p.next))
    {
      ClaimsAfter(s, d, n, o, l);
    }
  }

  lemma AcquireOwned(s: State, d: nat)
    requires LocksOwned(s) && CanStride(s, d, Acquire)
    ensures LocksOwned(StrideBy(s, d, Acquire))
  {
    hide Holds, Claims;
    AllClaimsAfter(s, d, Acquire);
    Handover(s, StrideBy(s, d, Acquire), s.destroyers[d].lock, Nobody, DestroyerHolds(d));
  }

  lemma GiveBackOwned(s: State, d: nat, n: Stride)
    requires LocksOwned(s) && CanStride(s, d, n) && GivesBack(s.destroyers[d], n)
    ensures LocksOwned(StrideBy(s, d, n))
  {
    hide Holds, Claims;
    AllClaimsAfter(s, d, n);
    AdvanceHolds(s.destroyers[d], n, s.destroyers[d].next);
    DestroyerOwns(s, d, s.destroyers[d].next);
    Handover(s, StrideBy(s, d, n), s.destroyers[d].next, DestroyerHolds(d), Nobody);
  }

  lemma DestroyerOwns(s: State, d: nat, l: nat)
    requires LocksOwned(s) && d < |s.destroyers| && l < OPS
    ensures s.owner[l] == DestroyerHolds(d) <==> Holds(s.destroyers[d], l)
  {
    assert Claims(s, DestroyerHolds(d), l) <==> Holds(s.destroyers[d], l);
  }

  lemma StrideOwned(s: State, d: nat, n: Stride)
    requires LocksOwned(s) && CanStride(s, d, n)
    ensures LocksOwned(StrideBy(s, d, n))
  {
    hide Holds, Claims;
    if n.Acquire? {
      AcquireOwned(s, d);
    } else if GivesBack(s.destroyers[d], n) {
      GiveBackOwned(s, d, n);
    } else {
      AllClaimsAfter(s, d, n);
      NoHandover(s, StrideBy(s, d, n));
    }
  }

  // ---- Runs -----------------------------------------------------------------------------------------

  ghost predicate Legal(s: State, run: seq<Action>)
    requires Sound(s)
    decreases |run|
  {
    run == [] || (Enabled(s, run[0]) && Legal(Step(s, run[0]), run[1..]))
  }

  ghost function After(s: State, run: seq<Action>): (r: State)
    requires Sound(s) && Legal(s, run)
    ensures Sound(r)
    decreases |run|
  {
    if run == [] then s else After(Step(s, run[0]), run[1..])
  }

  lemma StepOwned(s: State, a: Action)
    requires LocksOwned(s) && Enabled(s, a)
    ensures LocksOwned(Step(s, a))
  {
    match a {
      case ByThread(t, m) => MoveOwned(s, t, m);
      case ByDestroyer(d, n) => StrideOwned(s, d, n);
      case _ => NoHandover(s, Step(s, a));
    }
  }

  predicate Quiet(s: State)
  {
    Sound(s)
    && (forall t :: 0 <= t < |s.threads| ==> s.threads[t].Idle?)
    && (forall d :: 0 <= d < |s.destroyers| ==> s.destroyers[d].AtRest?)
    && (forall l :: 0 <= l < OPS ==> s.owner[l].Nobody?)
    && (forall g :: 0 <= g < GATES ==> !s.open[g])
  }

  /** Mutual exclusion over every run of any number of operations and destroyers: every lock has at most one
      holder, and its recorded owner is that holder. */
  lemma {:induction false} EveryRunOwned(s: State, run: seq<Action>)
    requires LocksOwned(s) && Legal(s, run)
    ensures LocksOwned(After(s, run))
    decreases |run|
  {
    hide LocksOwned, Step, Enabled;
    if run != [] {
      StepOwned(s, run[0]);
      EveryRunOwned(Step(s, run[0]), run[1..]);
    }
  }

  /** Among destroyers, whoever waits for a lock waits for one that is further on: no circle of waiting. */
  lemma WaitsAscend(s: State, d: nat, e: nat)
    requires LocksOwned(s) && d < |s.destroyers| && e < |s.destroyers|
    requires s.destroyers[d].Acquiring? && s.owner[s.destroyers[d].lock] == DestroyerHolds(e)
    ensures s.destroyers[e].Acquiring? ==> s.destroyers[d].lock < s.destroyers[e].lock
    ensures e != d
  {
    DestroyerOwns(s, e, s.destroyers[d].lock);
  }

  /** Back at rest, whether it was interrupted at some lock or went all the way, a destroyer holds no lock; and
      while it backs out it holds exactly those it took and has not given back yet. */
  lemma HeldExactly(s: State, d: nat, l: nat)
    requires LocksOwned(s) && d < |s.destroyers| && l < OPS
    ensures s.destroyers[d].AtRest? ==> s.owner[l] != DestroyerHolds(d)
    ensures s.destroyers[d].BackingOut? ==>
      (s.owner[l] == DestroyerHolds(d) <==> s.destroyers[d].next <= l < s.destroyers[d].reached)
    ensures s.destroyers[d].Sending? ==> s.owner[l] == DestroyerHolds(d)
  {
    DestroyerOwns(s, d, l);
  }

  // ---- One destroyer at a time ----------------------------------------------------------------------

  /** At most this destroyer is at work, and the gates are as its program point says. */
  ghost predicate Sole(s: State, d: nat)
    ensures Sole(s, d) ==> LocksOwned(s) && d < |s.destroyers|
  {
    LocksOwned(s) && d < |s.destroyers|
    && (forall e :: 0 <= e < |s.destroyers| && e != d ==> s.destroyers[e].AtRest?)
    && (forall g :: 0 <= g < GATES ==> s.open[g] == KeepsOpen(s.destroyers[d], g))
  }

  lemma GatesFollow(p: Pc, n: Stride, g: nat)
    requires InRange(p) && Fits(p, n) && g < GATES
    ensures KeepsOpen(Advance(p, n), g)
      <==> (n.Open? && g == p.gate) || (KeepsOpen(p, g) && !(n.Close? && g == p.gate))
  {
  }

  lemma SoleStep(s: State, d: nat, a: Action)
    requires Sole(s, d) && Enabled(s, a) && (a.ByDestroyer? ==> a.d == d)
    ensures Sole(Step(s, a), d)
  {
    hide LocksOwned, Drawn, KeepsOpen, Advance;
    StepOwned(s, a);
    if a.ByDestroyer? {
      forall g | 0 <= g < GATES
        ensures Step(s, a).open[g] == KeepsOpen(Advance(s.destroyers[d], a.n), g)
      {
        GatesFollow(s.destroyers[d], a.n, g);
      }
    }
  }

  predicate AllRest(s: State)
  {
    forall d :: 0 <= d < |s.destroyers| ==> s.destroyers[d].AtRest?
  }

  /** Destroyers come one at a time: one begins only when all of them rest. */
  ghost predicate OneAtATime(s: State, run: seq<Action>)
    requires Sound(s) && Legal(s, run)
    decreases |run|
  {
    run == []
    || ((run[0].ByDestroyer? && run[0].n.Begin? ==> AllRest(s)) && OneAtATime(Step(s, run[0]), run[1..]))
  }

  /** The destroyer that is at work after a step, if any is: the one that just began, or the same as before. */
  function Successor(d: nat, a: Action): (e: nat)
  {
    if a.ByDestroyer? && a.n.Begin? then a.d else d
  }

  lemma SoleSuccessor(s: State, d: nat, a: Action)
    requires Sole(s, d) && Enabled(s, a) && (a.ByDestroyer? && a.n.Begin? ==> AllRest(s))
    ensures Sole(Step(s, a), Successor(d, a))
  {
    hide LocksOwned, Drawn;
    SoleStep(s, Successor(d, a), a);
  }

  /** Over every run in which destroyers come one at a time, whoever they are, at most one is at work in every state,
      and the gates are open from its last opening to its first closing. */
  lemma {:induction false} SoleRun(s: State, d: nat, run: seq<Action>) returns (e: nat)
    requires Sole(s, d) && Legal(s, run) && OneAtATime(s, run)
    ensures Sole(After(s, run), e)
    decreases |run|
  {
    hide Sole, Step, Enabled, AllRest;
    e := d;
    if run != [] {
      SoleSuccessor(s, d, run[0]);
      e := SoleRun(Step(s, run[0]), Successor(d, run[0]), run[1..]);
    }
  }

  /** The runs of a device start with nobody at work. */
  lemma QuietIsSole(s: State, d: nat)
    requires Quiet(s) && d < |s.destroyers|
    ensures Sole(s, d)
  {
  }

  // ---- Progress -------------------------------------------------------------------------------------

  /** What an operation that holds a lock does next when nothing goes wrong. */
  function NextMove(h: Thread): (m: Move)
  {
    match h
    case Working(op) => if GateOf(op).Some? then Sleep else Skip
    case Sleeping(_) => Wake
    case _ => Leave
  }

  function NextStride(p: Pc, wait: bool): (n: Stride)
  {
    match p
    case AtRest => Begin
    case Opening(_) => Open
    case Acquiring(_) => Acquire
    case BackingOut(_, _) => BackOut
    case Sending => Send(wait)
    case Awaiting => Answered
    case Releasing(_) => Release
    case Closing(_) => Close
  }

  /** The operation that holds the lock a destroyer is waiting for. */
  function Blocker(s: State, d: nat): (t: Option<nat>)
    requires Sound(s) && d < |s.destroyers|
  {
    if s.destroyers[d].Acquiring? && s.owner[s.destroyers[d].lock].OpHolds? then Some(s.owner[s.destroyers[d].lock].t)
    else None
  }

  function Plan(s: State, d: nat, wait: bool): (a: Action)
    requires Sound(s) && d < |s.destroyers|
    ensures a.ByDestroyer? ==> a.d == d
  {
    match Blocker(s, d)
    case Some(t) => ByThread(t, if t < |s.threads| then NextMove(s.threads[t]) else Leave)
    case None => ByDestroyer(d, NextStride(s.destroyers[d], wait))
  }

  predicate Undisturbed(a: Action)
  {
    (a.ByThread? ==> a.m in {Sleep, Skip, Wake, Leave}) && (a.ByDestroyer? ==> !a.n.Interrupt? && !a.n.KillWait?)
    && !a.Arrive? && !a.ArriveAnswer?
  }

  function Ahead(p: Pc): (n: nat)
    requires InRange(p)
  {
    match p
    case AtRest => 0
    case Closing(g) => GATES - g
    case Releasing(n) => GATES + OPS - n
    case BackingOut(n, r) => GATES + 1 + r - n
    case Awaiting => GATES + OPS + 1
    case Sending => GATES + OPS + 2
    case Acquiring(l) => GATES + OPS + 2 + OPS - l
    case Opening(g) => GATES + OPS + 2 + OPS + GATES - g
  }

  function Stages(h: Thread): (n: nat)
  {
    match h
    case Working(_) => 3
    case Sleeping(_) => 2
    case Leaving(_) => 1
    case _ => 0
  }

  /** How many undisturbed steps are left before the destroyer is back at rest, at most. */
  function Measure(s: State, d: nat): (n: nat)
    requires Sound(s) && d < |s.destroyers|
  {
    4 * Ahead(s.destroyers[d])
    + match Blocker(s, d)
      case Some(t) => if t < |s.threads| then Stages(s.threads[t]) else 0
      case None => 0
  }

  lemma AheadShrinks(p: Pc, wait: bool)
    requires InRange(p) && !p.AtRest?
    ensures Fits(p, NextStride(p, wait)) && Ahead(Advance(p, NextStride(p, wait))) < Ahead(p)
  {
  }

  /** Behind open gates no holder of a lock can be stuck: its next move is enabled, and needs no mail. */
  lemma HolderCanMove(s: State, d: nat, t: nat)
    requires Sole(s, d) && Blocker(s, d) == Some(t)
    ensures t < |s.threads| && Stages(s.threads[t]) > 0 && CanMove(s, t, NextMove(s.threads[t]))
  {
    var l := s.destroyers[d].lock;
    assert Claims(s, s.owner[l], l);
    OpOwns(s, t, l);
    if s.threads[t].Sleeping? {
      assert s.open[GateOf(s.threads[t].op).value] == KeepsOpen(s.destroyers[d], GateOf(s.threads[t].op).value);
    }
  }

  /** No other step, of whomever, can stop a holder for whom the destroyer waits from making its next move. */
  lemma HolderStaysEnabled(s: State, d: nat, t: nat, a: Action)
    requires Sole(s, d) && Blocker(s, d) == Some(t) && Enabled(s, a)
    requires a.ByThread? ==> a.t != t
    requires a.ByDestroyer? ==> a.d == d
    ensures CanMove(s, t, NextMove(s.threads[t])) && CanMove(Step(s, a), t, NextMove(s.threads[t]))
  {
    hide LocksOwned;
    HolderCanMove(s, d, t);
    SoleStep(s, d, a);
  }

  /** The destroyer is not waiting for an answer that is not there, and will not come to do so. */
  predicate AnswerComes(s: State, d: nat, wait: bool)
    requires Sound(s) && d < |s.destroyers|
  {
    s.answers > 0 || Ahead(s.destroyers[d]) < Ahead(Awaiting) || (!wait && !s.destroyers[d].Awaiting?)
  }

  lemma BlockedPlan(s: State, d: nat, wait: bool)
    requires Sole(s, d) && Blocker(s, d).Some?
    ensures Enabled(s, Plan(s, d, wait)) && Undisturbed(Plan(s, d, wait))
    ensures Measure(Step(s, Plan(s, d, wait)), d) < Measure(s, d)
    ensures Step(s, Plan(s, d, wait)).answers == s.answers && Step(s, Plan(s, d, wait)).destroyers == s.destroyers
  {
    hide LocksOwned, Drawn;
    HolderCanMove(s, d, Blocker(s, d).value);
  }

  lemma FreePlan(s: State, d: nat, wait: bool)
    requires Sole(s, d) && Blocker(s, d).None? && !s.destroyers[d].AtRest? && AnswerComes(s, d, wait)
    ensures Enabled(s, Plan(s, d, wait)) && Undisturbed(Plan(s, d, wait))
    ensures Measure(Step(s, Plan(s, d, wait)), d) < Measure(s, d)
    ensures !Step(s, Plan(s, d, wait)).destroyers[d].AtRest? ==> AnswerComes(Step(s, Plan(s, d, wait)), d, wait)
  {
    AheadShrinks(s.destroyers[d], wait);
    if s.destroyers[d].Acquiring? {
      NobodyElse(s, d);
    }
  }

  lemma NobodyElse(s: State, d: nat)
    requires Sole(s, d) && Blocker(s, d).None? && s.destroyers[d].Acquiring?
    ensures s.owner[s.destroyers[d].lock].Nobody?
  {
    var l := s.destroyers[d].lock;
    assert Claims(s, s.owner[l], l);
  }

  /** A sole destroyer always gets through, with no signal, timeout or mail but its own answer: from every state
      the holders in its way can leave one by one, and it takes every lock and gives it back. */
  lemma {:induction false} DestroyerCanFinish(s: State, d: nat, wait: bool) returns (run: seq<Action>)
    requires Sole(s, d) && (s.destroyers[d].AtRest? || AnswerComes(s, d, wait))
    ensures Legal(s, run) && |run| <= Measure(s, d)
    ensures forall a :: a in run ==> Undisturbed(a)
    ensures Sole(After(s, run), d) && After(s, run).destroyers[d].AtRest?
    decreases Measure(s, d)
  {
    hide Sole, Step, Enabled, Plan, Measure, Undisturbed;
    if s.destroyers[d].AtRest? {
      return [];
    }
    var a := Plan(s, d, wait);
    if Blocker(s, d).Some? {
      BlockedPlan(s, d, wait);
    } else {
      FreePlan(s, d, wait);
    }
    SoleStep(s, d, a);
    var rest := DestroyerCanFinish(Step(s, a), d, wait);
    run := [a] + rest;
  }
}
