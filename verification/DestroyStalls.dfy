/** Any number of destroyers of one user at once: exactly when one of them can get through. */
module DestroyStalls {
  import opened MachineWords
  import opened Users
  import opened DestroyLocks

  // ---- What cannot go on ----------------------------------------------------------------------------

  /** A gate that is shut, with no mail behind it, and with no destroyer that still comes to open it. */
  predicate StaysShut(s: State, g: nat)
    requires Sound(s) && g < GATES
  {
    !s.open[g] && s.pending[g] == 0
    && forall e :: 0 <= e < |s.destroyers| && s.destroyers[e].Opening? ==> s.destroyers[e].gate > g
  }

  /** An operation that sleeps, or is about to, behind such a gate, with its lock in hand. */
  predicate Doomed(s: State, t: nat)
    requires Sound(s)
  {
    t < |s.threads| && (s.threads[t].Working? || s.threads[t].Sleeping?)
    && GateOf(s.threads[t].op).Some? && StaysShut(s, GateOf(s.threads[t].op).value)
  }

  predicate StillToTake(p: Pc, l: nat)
  {
    p.Opening? || (p.Acquiring? && p.lock <= l)
  }

  /** A destroyer that waits for an answer that is not there. */
  predicate Unanswered(s: State, e: nat)
  {
    e < |s.destroyers| && s.destroyers[e].Awaiting? && s.answers == 0
  }

  /** A destroyer cannot get through: it waits for an answer that is not there, or it has locks still to take and a
      destroyer that holds them all waits so, or one of them is in the hand of a doomed operation. */
  ghost predicate Blocked(s: State, d: nat)
    requires Sound(s) && d < |s.destroyers|
  {
    Unanswered(s, d)
    || ((s.destroyers[d].Opening? || s.destroyers[d].Acquiring?) && exists e: nat :: Unanswered(s, e))
    || exists t: nat :: Doomed(s, t) && StillToTake(s.destroyers[d], LockOf(s.threads[t].op))
  }

  /** A step that brings nothing from outside: no signal, no timeout, no mail, no error before a sleep, no destruction
      that begins or asks for one more answer. Other operations may come and go. */
  predicate Inner(s: State, a: Action)
  {
    match a
    case ByThread(t, m) =>
      !m.Kill? && (m.Skip? ==> t < |s.threads| && s.threads[t].Working? && GateOf(s.threads[t].op).None?)
    case ByDestroyer(_, n) => !n.Interrupt? && !n.KillWait? && !n.Begin? && n != Send(true)
    case Arrive(_) => false
    case ArriveAnswer => false
  }

  ghost predicate InnerRun(s: State, run: seq<Action>)
    requires Sound(s)
    decreases |run|
  {
    run == [] || (Enabled(s, run[0]) && Inner(s, run[0]) && InnerRun(Step(s, run[0]), run[1..]))
  }

  ghost function End(s: State, run: seq<Action>): (r: State)
    requires Sound(s) && InnerRun(s, run)
    ensures Sound(r)
    decreases |run|
  {
    if run == [] then s else End(Step(s, run[0]), run[1..])
  }

  // ---- Blocked is for good --------------------------------------------------------------------------

  lemma UnansweredStays(s: State, e: nat, a: Action)
    requires Sound(s) && Unanswered(s, e) && Enabled(s, a) && Inner(s, a)
    ensures Unanswered(Step(s, a), e)
  {
    hide Drawn;
  }

  lemma ShutStays(s: State, g: nat, a: Action)
    requires Sound(s) && g < GATES && StaysShut(s, g) && Enabled(s, a) && Inner(s, a)
    ensures StaysShut(Step(s, a), g)
  {
  }

  lemma DoomedStays(s: State, t: nat, a: Action)
    requires Sound(s) && Doomed(s, t) && Enabled(s, a) && Inner(s, a)
    ensures Doomed(Step(s, a), t) && Step(s, a).threads[t].op == s.threads[t].op
  {
    hide StaysShut;
    ShutStays(s, GateOf(s.threads[t].op).value, a);
    ShutMeans(s, GateOf(s.threads[t].op).value);
  }

  lemma ShutMeans(s: State, g: nat)
    requires Sound(s) && g < GATES && StaysShut(s, g)
    ensures !s.open[g] && s.pending[g] == 0
  {
  }

  lemma TakesOn(s: State, d: nat, a: Action, l: nat)
    requires LocksOwned(s) && d < |s.destroyers| && Enabled(s, a) && Inner(s, a)
    requires StillToTake(s.destroyers[d], l) && l < OPS && !s.owner[l].Nobody?
    ensures d < |Step(s, a).destroyers| && StillToTake(Step(s, a).destroyers[d], l)
  {
    hide LocksOwned, Drawn;
  }

  lemma HoldsItsLock(s: State, t: nat)
    requires LocksOwned(s) && t < |s.threads| && LockHeld(s.threads[t]).Some?
    ensures s.owner[LockHeld(s.threads[t]).value] == OpHolds(t)
  {
    OpOwns(s, t, LockHeld(s.threads[t]).value);
  }

  lemma HoldsThemAll(s: State, e: nat, l: nat)
    requires LocksOwned(s) && e < |s.destroyers| && s.destroyers[e].Awaiting? && l < OPS
    ensures s.owner[l] == DestroyerHolds(e)
  {
    DestroyerOwns(s, e, l);
  }

  /** Nothing that happens inside unblocks a blocked destroyer. */
  lemma BlockedStays(s: State, d: nat, a: Action)
    requires LocksOwned(s) && d < |s.destroyers| && Blocked(s, d) && Enabled(s, a) && Inner(s, a)
    ensures d < |Step(s, a).destroyers| && Blocked(Step(s, a), d)
  {
    hide LocksOwned, Step, Enabled, Inner, StaysShut, Unanswered, Drawn;
    StepKeepsCount(s, a);
    if Unanswered(s, d) {
      UnansweredStays(s, d, a);
    } else if exists t: nat :: Doomed(s, t) && StillToTake(s.destroyers[d], LockOf(s.threads[t].op)) {
      var t: nat :| Doomed(s, t) && StillToTake(s.destroyers[d], LockOf(s.threads[t].op));
      DoomedStays(s, t, a);
      DoomedHolds(s, t);
      HoldsItsLock(s, t);
      TakesOn(s, d, a, LockOf(s.threads[t].op));
    } else {
      var e: nat :| Unanswered(s, e);
      UnansweredStays(s, e, a);
      UnansweredAwaits(s, e);
      HoldsThemAll(s, e, OPS - 1);
      TakesOn(s, d, a, OPS - 1);
    }
  }

  lemma StepKeepsCount(s: State, a: Action)
    requires Sound(s) && Enabled(s, a)
    ensures |Step(s, a).destroyers| == |s.destroyers|
  {
  }

  lemma DoomedHolds(s: State, t: nat)
    requires Sound(s) && Doomed(s, t)
    ensures t < |s.threads| && LockHeld(s.threads[t]) == Some(LockOf(s.threads[t].op))
  {
  }

  lemma UnansweredAwaits(s: State, e: nat)
    requires Unanswered(s, e)
    ensures e < |s.destroyers| && s.destroyers[e].Awaiting?
  {
  }

  lemma BlockedIsAtWork(s: State, d: nat)
    requires Sound(s) && d < |s.destroyers| && Blocked(s, d)
    ensures !s.destroyers[d].AtRest?
  {
  }

  /** However long things go on inside, a blocked destroyer does not come to rest. */
  lemma {:induction false} BlockedForGood(s: State, d: nat, run: seq<Action>)
    requires LocksOwned(s) && d < |s.destroyers| && Blocked(s, d) && InnerRun(s, run)
    ensures d < |End(s, run).destroyers| && !End(s, run).destroyers[d].AtRest?
    decreases |run|
  {
    hide Blocked, Step, Enabled, Inner, LocksOwned;
    if run == [] {
      BlockedIsAtWork(s, d);
    } else {
      StepOwned(s, run[0]);
      BlockedStays(s, d, run[0]);
      BlockedForGood(Step(s, run[0]), d, run[1..]);
    }
  }

  // ---- Everybody else gets through ------------------------------------------------------------------

  function StagesLeft(threads: seq<Thread>): (n: nat)
  {
    if threads == [] then 0 else Stages(threads[0]) + StagesLeft(threads[1..])
  }

  predicate AllInRange(ps: seq<Pc>)
  {
    forall d :: 0 <= d < |ps| ==> InRange(ps[d])
  }

  function WayLeft(ps: seq<Pc>): (n: nat)
    requires AllInRange(ps)
  {
    if ps == [] then 0 else Ahead(ps[0]) + WayLeft(ps[1..])
  }

  lemma {:induction false} StagesLeftUpdate(threads: seq<Thread>, t: nat, h: Thread)
    requires t < |threads|
    ensures StagesLeft(threads[t := h]) + Stages(threads[t]) == StagesLeft(threads) + Stages(h)
  {
    if t > 0 {
      assert threads[t := h][1..] == threads[1..][t - 1 := h];
      StagesLeftUpdate(threads[1..], t - 1, h);
    } else {
      assert threads[t := h][1..] == threads[1..];
    }
  }

  lemma {:induction false} WayLeftUpdate(ps: seq<Pc>, d: nat, p: Pc)
    requires AllInRange(ps) && d < |ps| && InRange(p)
    ensures AllInRange(ps[d := p])
    ensures WayLeft(ps[d := p]) + Ahead(ps[d]) == WayLeft(ps) + Ahead(p)
  {
    hide InRange, Ahead;
    if d > 0 {
      assert ps[d := p][1..] == ps[1..][d - 1 := p];
      WayLeftUpdate(ps[1..], d - 1, p);
    } else {
      assert ps[d := p][1..] == ps[1..];
    }
  }

  /** How many steps are left, at most, until everybody is where the steps below bring them. */
  function Work(s: State): (n: nat)
    requires Sound(s)
  {
    StagesLeft(s.threads) + WayLeft(s.destroyers)
  }

  /** A step that helps destroyer `d` on: an operation goes on with what it is doing, a destroyer goes on without
      closing a gate, or `d` itself closes one. */
  predicate Helps(s: State, d: nat, a: Action)
    requires Sound(s)
  {
    Enabled(s, a)
    && match a
       case ByThread(t, m) =>
         m.Sleep? || m.Wake? || m.Leave? || (m.Skip? && GateOf(s.threads[t].op).None?)
       case ByDestroyer(e, n) =>
         n.Open? || n.Acquire? || n.BackOut? || n == Send(false) || n.Answered? || n.Release? || (n.Close? && e == d)
       case _ => false
  }

  lemma HelpIsInner(s: State, d: nat, a: Action)
    requires Sound(s) && Helps(s, d, a)
    ensures Enabled(s, a) && Inner(s, a)
  {
  }

  lemma HelpShrinks(s: State, d: nat, a: Action)
    requires Sound(s) && Helps(s, d, a)
    ensures Work(Step(s, a)) < Work(s)
  {
    hide Drawn, StagesLeft, WayLeft;
    match a {
      case ByThread(t, m) => StagesLeftUpdate(s.threads, t, Step(s, a).threads[t]);
      case ByDestroyer(e, n) =>
        StrideShrinks(s.destroyers[e], n);
        WayLeftUpdate(s.destroyers, e, Advance(s.destroyers[e], n));
    }
  }

  lemma StrideShrinks(p: Pc, n: Stride)
    requires InRange(p) && Fits(p, n) && !n.Begin? && !n.Interrupt?
    ensures Ahead(Advance(p, n)) < Ahead(p)
  {
  }

  /** Which operation an operation is, is told by the gate behind which it sleeps. */
  lemma GateTellsLock(a: Op, b: Op)
    requires GateOf(a).Some? && GateOf(a) == GateOf(b)
    ensures LockOf(a) == LockOf(b)
  {
  }

  lemma ThreadTellsLock(s: State, t: nat, u: nat)
    requires LocksOwned(s) && t < |s.threads| && u < |s.threads|
    requires LockHeld(s.threads[t]).Some? && LockHeld(s.threads[t]) == LockHeld(s.threads[u])
    ensures t == u
  {
    HoldsItsLock(s, t);
    HoldsItsLock(s, u);
  }

  lemma OneAwaits(s: State, d: nat, e: nat)
    requires LocksOwned(s) && d < |s.destroyers| && e < |s.destroyers|
    requires s.destroyers[d].Awaiting? && s.destroyers[e].Awaiting?
    ensures d == e
  {
    HoldsThemAll(s, d, 0);
    HoldsThemAll(s, e, 0);
  }

  /** A step that helps makes no gate stay shut that did not before, while `d` itself closes none. */
  lemma ShutBefore(s: State, d: nat, a: Action, g: nat)
    requires Sound(s) && Helps(s, d, a) && g < GATES && StaysShut(Step(s, a), g)
    requires a.ByDestroyer? ==> !a.n.Close?
    requires Step(s, a).pending[g] == s.pending[g]
    ensures StaysShut(s, g)
  {
    hide Drawn;
    var r := Step(s, a);
    forall e | 0 <= e < |s.destroyers| && s.destroyers[e].Opening?
      ensures s.destroyers[e].gate > g
    {
      assert r.destroyers[e].Opening? ==> r.destroyers[e].gate > g;
    }
  }

  lemma DoomedBefore(s: State, d: nat, a: Action, t: nat)
    requires LocksOwned(s) && Helps(s, d, a) && Doomed(Step(s, a), t)
    requires a.ByDestroyer? ==> !a.n.Close?
    ensures Doomed(s, t) && s.threads[t].op == Step(s, a).threads[t].op
  {
    hide LocksOwned, StaysShut;
    var g := GateOf(Step(s, a).threads[t].op).value;
    if a.ByThread? && a.m.Wake? {
      DrawnMeans(s, s.threads[a.t].op);
      if GateOf(s.threads[a.t].op) == Some(g) {
        GateTellsLock(s.threads[a.t].op, s.threads[t].op);
        ThreadTellsLock(s, a.t, t);
      }
    }
    ShutBefore(s, d, a, g);
  }

  lemma DrawnMeans(s: State, op: Op)
    requires Sound(s)
    ensures forall g :: 0 <= g < GATES && GateOf(op) != Some(g) ==> Drawn(s, op)[g] == s.pending[g]
  {
  }

  lemma UnansweredBefore(s: State, d: nat, a: Action, e: nat)
    requires LocksOwned(s) && Helps(s, d, a) && Unanswered(Step(s, a), e)
    ensures Unanswered(s, e)
  {
    hide LocksOwned, Drawn;
    if a.ByDestroyer? && a.n.Answered? {
      OneAwaits(s, a.d, e);
    }
  }

  /** A step that helps a destroyer that is not blocked does not block it. */
  lemma FreeStays(s: State, d: nat, a: Action)
    requires LocksOwned(s) && d < |s.destroyers| && !Blocked(s, d) && Helps(s, d, a)
    requires a.ByDestroyer? && a.n.Close? ==> a.d == d
    ensures d < |Step(s, a).destroyers| && !Blocked(Step(s, a), d)
  {
    hide LocksOwned, StaysShut, Drawn;
    StepKeepsCount(s, a);
    var r := Step(s, a);
    StillBefore(s, d, a);
    if r.destroyers[d].Opening? || r.destroyers[d].Acquiring? || r.destroyers[d].Awaiting? {
      forall e: nat | Unanswered(r, e)
        ensures Unanswered(s, e)
      {
        UnansweredBefore(s, d, a, e);
      }
      forall t: nat | Doomed(r, t)
        ensures Doomed(s, t) && s.threads[t].op == r.threads[t].op
      {
        DoomedBefore(s, d, a, t);
      }
    }
  }

  lemma StillBefore(s: State, d: nat, a: Action)
    requires Sound(s) && d < |s.destroyers| && Helps(s, d, a)
    ensures d < |Step(s, a).destroyers|
    ensures forall l :: StillToTake(Step(s, a).destroyers[d], l) ==> StillToTake(s.destroyers[d], l)
    ensures Step(s, a).destroyers[d].Awaiting? ==> s.destroyers[d].Awaiting?
    ensures a.ByDestroyer? && a.n.Close? ==>
      !Step(s, a).destroyers[a.d].Opening? && !Step(s, a).destroyers[a.d].Acquiring?
      && !Step(s, a).destroyers[a.d].Awaiting?
  {
    hide Drawn;
  }

  /** The holder of a lock that is still to be taken, if it is an operation, can go on or is let go on by a step that
      helps. */
  lemma HolderGoesOn(s: State, d: nat, t: nat) returns (a: Action)
    requires LocksOwned(s) && d < |s.destroyers| && !Blocked(s, d)
    requires t < |s.threads| && LockHeld(s.threads[t]).Some?
    requires StillToTake(s.destroyers[d], LockHeld(s.threads[t]).value)
    ensures Helps(s, d, a) && !(a.ByDestroyer? && a.n.Close?)
  {
    hide LocksOwned;
    var h := s.threads[t];
    match h {
      case Leaving(_) => a := ByThread(t, Leave);
      case Working(op) => a := ByThread(t, if GateOf(op).Some? then Sleep else Skip);
      case Sleeping(op) =>
        if MailIsAvailable(s, op) {
          a := ByThread(t, Wake);
        } else {
          var g := GateOf(op).value;
          assert !Doomed(s, t);
          var e :| 0 <= e < |s.destroyers| && s.destroyers[e].Opening? && s.destroyers[e].gate <= g;
          a := ByDestroyer(e, Open);
        }
      case _ =>
    }
  }

  /** Behind a destroyer that is not blocked, nobody is. */
  lemma FreeAhead(s: State, d: nat, e: nat)
    requires LocksOwned(s) && d < |s.destroyers| && e < |s.destroyers| && !Blocked(s, d) && s.destroyers[d].Acquiring?
    requires s.owner[s.destroyers[d].lock] == DestroyerHolds(e)
    ensures Holds(s.destroyers[e], s.destroyers[d].lock) && !Blocked(s, e)
    ensures s.destroyers[e].Acquiring? ==> s.destroyers[d].lock < s.destroyers[e].lock
  {
    hide LocksOwned, Doomed;
    DestroyerOwns(s, e, s.destroyers[d].lock);
  }

  lemma OwnerExists(s: State, l: nat)
    requires LocksOwned(s) && l < OPS
    ensures s.owner[l].OpHolds? ==> s.owner[l].t < |s.threads| && LockHeld(s.threads[s.owner[l].t]) == Some(l)
    ensures s.owner[l].DestroyerHolds? ==> s.owner[l].d < |s.destroyers|
  {
    assert Claims(s, s.owner[l], l);
  }

  /** As long as a destroyer at work is not blocked, some step helps it on: its own, or one of whoever is at the end of
      the chain of those who wait for each other's locks. */
  lemma {:induction false} SomeStepHelps(s: State, d: nat) returns (a: Action)
    requires LocksOwned(s) && d < |s.destroyers| && !Blocked(s, d) && !s.destroyers[d].AtRest?
    ensures Helps(s, d, a)
    ensures !s.destroyers[d].Closing? ==> !(a.ByDestroyer? && a.n.Close?)
    decreases if s.destroyers[d].Acquiring? then OPS - s.destroyers[d].lock else 0
  {
    hide LocksOwned, Doomed, Helps, Blocked;
    var p := s.destroyers[d];
    if !p.Acquiring? || s.owner[p.lock].Nobody? {
      a := ByDestroyer(d, NextStride(p, false));
      OwnStrideHelps(s, d);
      return;
    }
    OwnerExists(s, p.lock);
    match s.owner[p.lock] {
      case OpHolds(t) => a := HolderGoesOn(s, d, t);
      case DestroyerHolds(e) =>
        FreeAhead(s, d, e);
        if s.destroyers[e].Acquiring? {
          a := SomeStepHelps(s, e);
          HelpsAnother(s, d, e, a);
        } else {
          a := ByDestroyer(e, NextStride(s.destroyers[e], false));
          OwnStrideHelps(s, e);
          HelpsAnother(s, d, e, a);
        }
      case Nobody =>
    }
  }

  lemma OwnStrideHelps(s: State, d: nat)
    requires LocksOwned(s) && d < |s.destroyers| && !Blocked(s, d) && !s.destroyers[d].AtRest?
    requires s.destroyers[d].Acquiring? ==> s.owner[s.destroyers[d].lock].Nobody?
    ensures Helps(s, d, ByDestroyer(d, NextStride(s.destroyers[d], false)))
    ensures !s.destroyers[d].Closing? ==> !NextStride(s.destroyers[d], false).Close?
  {
    hide LocksOwned, Doomed;
  }

  lemma HelpsAnother(s: State, d: nat, e: nat, a: Action)
    requires Sound(s) && Helps(s, e, a) && !(a.ByDestroyer? && a.n.Close?)
    ensures Helps(s, d, a)
  {
  }

  /** A destroyer that is not blocked can get back to rest by steps from inside alone. */
  lemma {:induction false} FreeCanFinish(s: State, d: nat) returns (run: seq<Action>)
    requires LocksOwned(s) && d < |s.destroyers| && !Blocked(s, d)
    ensures InnerRun(s, run) && |run| <= Work(s)
    ensures d < |End(s, run).destroyers| && End(s, run).destroyers[d].AtRest?
    decreases Work(s)
  {
    hide Blocked, Step, Enabled, Inner, LocksOwned, Helps, Work;
    if s.destroyers[d].AtRest? {
      return [];
    }
    var a := SomeStepHelps(s, d);
    HelpCloses(s, d, a);
    HelpIsInner(s, d, a);
    HelpShrinks(s, d, a);
    FreeStays(s, d, a);
    StepOwned(s, a);
    var rest := FreeCanFinish(Step(s, a), d);
    run := [a] + rest;
  }

  lemma HelpCloses(s: State, d: nat, a: Action)
    requires Sound(s) && Helps(s, d, a)
    ensures a.ByDestroyer? && a.n.Close? ==> a.d == d
  {
  }

  /** In every state of every run of any number of operations and destroyers, a destroyer can get back to rest without
      anything from outside exactly if it is not blocked: if it and whoever holds all the locks have their answers, and
      no operation with one of the locks still to take sleeps, or is about to sleep, behind a gate that stays shut. */
  lemma StalledExactly(start: State, before: seq<Action>, d: nat)
    requires LocksOwned(start) && Legal(start, before) && d < |After(start, before).destroyers|
    ensures
      var s := After(start, before);
      Blocked(s, d) <==> !exists run :: InnerRun(s, run) && FinishesIn(s, run, d)
  {
    hide Blocked, LocksOwned, InnerRun, End, Legal, After;
    EveryRunOwned(start, before);
    var s := After(start, before);
    if Blocked(s, d) {
      forall run | InnerRun(s, run)
        ensures !FinishesIn(s, run, d)
      {
        BlockedForGood(s, d, run);
      }
    } else {
      var run := FreeCanFinish(s, d);
      assert FinishesIn(s, run, d);
    }
  }

  ghost predicate FinishesIn(s: State, run: seq<Action>, d: nat)
    requires Sound(s) && InnerRun(s, run)
  {
    d < |End(s, run).destroyers| && End(s, run).destroyers[d].AtRest?
  }

  /** With one destroyer at a time only its own answer can keep it. */
  lemma SoleIsFree(s: State, d: nat)
    requires Sole(s, d)
    ensures Blocked(s, d) <==> Unanswered(s, d)
  {
    hide LocksOwned;
    forall t: nat | Doomed(s, t)
      ensures !StillToTake(s.destroyers[d], LockOf(s.threads[t].op))
    {
      var g := GateOf(s.threads[t].op).value;
      assert s.open[g] == KeepsOpen(s.destroyers[d], g);
    }
  }

  // ---- Two destroyers -------------------------------------------------------------------------------

  ghost predicate Reaches(s: State, r: State)
  {
    Sound(s) && exists run :: Legal(s, run) && After(s, run) == r
  }

  lemma {:induction false} RunsJoin(s: State, a: seq<Action>, b: seq<Action>)
    requires Sound(s) && Legal(s, a) && Legal(After(s, a), b)
    ensures Legal(s, a + b) && After(s, a + b) == After(After(s, a), b)
    decreases |a|
  {
    hide Enabled, Step, Sound;
    if a == [] {
      assert a + b == b;
    } else {
      assert (a + b)[1..] == a[1..] + b;
      RunsJoin(Step(s, a[0]), a[1..], b);
    }
  }

  lemma ReachesMore(s: State, r: State, a: Action, q: State)
    requires Reaches(s, r) && Sound(r) && Enabled(r, a)
    requires Step(r, a).threads == q.threads && Step(r, a).destroyers == q.destroyers
    requires Step(r, a).owner == q.owner && Step(r, a).open == q.open
    requires Step(r, a).pending == q.pending && Step(r, a).answers == q.answers
    ensures Reaches(s, q)
  {
    hide Enabled, Sound;
    var run :| Legal(s, run) && After(s, run) == r;
    assert [a][1..] == [];
    assert Step(r, a) == q;
    assert Legal(r, [a]) && After(r, [a]) == q;
    RunsJoin(s, run, [a]);
  }

  /** One thread and two destroyers; the first destroyer has `taken` locks, the gates from `lo` up to `hi` are open. */
  function Scene(h: Thread, a: Pc, b: Pc, taken: nat, lo: nat, hi: nat): (s: State)
  {
    var held := LockHeld(h);
    State([h], [a, b],
          seq(OPS, l => if l < taken then DestroyerHolds(0) else if held == Some(l) then OpHolds(0) else Nobody),
          seq(GATES, g => lo <= g < hi), [0, 0, 0, 0], 0)
  }

  const CALM := Scene(Idle, AtRest, AtRest, 0, 0, 0)

  lemma StartsCalm()
    ensures Quiet(CALM) && Reaches(CALM, CALM)
  {
    assert Legal(CALM, []) && After(CALM, []) == CALM;
  }

  lemma TakesLock()
    ensures Reaches(CALM, Scene(Working(StatusOp), AtRest, AtRest, 0, 0, 0))
  {
    hide Reaches;
    StartsCalm();
    ReachesMore(CALM, CALM, ByThread(0, Ask(StatusOp)), Scene(Wanting(StatusOp), AtRest, AtRest, 0, 0, 0));
    ReachesMore(CALM, Scene(Wanting(StatusOp), AtRest, AtRest, 0, 0, 0), ByThread(0, Take),
                Scene(Working(StatusOp), AtRest, AtRest, 0, 0, 0));
  }

  lemma FallsAsleep()
    ensures Reaches(CALM, Scene(Sleeping(StatusOp), AtRest, AtRest, 0, 0, 0))
  {
    hide Reaches;
    TakesLock();
    ReachesMore(CALM, Scene(Working(StatusOp), AtRest, AtRest, 0, 0, 0), ByThread(0, Sleep),
                Scene(Sleeping(StatusOp), AtRest, AtRest, 0, 0, 0));
  }

  lemma {:induction false} FirstOpens(k: nat)
    requires k <= GATES
    ensures Reaches(CALM, Scene(Sleeping(StatusOp), if k < GATES then Opening(k) else Acquiring(0), AtRest, 0, 0, k))
  {
    hide Reaches;
    var h := Sleeping(StatusOp);
    if k == 0 {
      FallsAsleep();
      ReachesMore(CALM, Scene(h, AtRest, AtRest, 0, 0, 0), ByDestroyer(0, Begin),
                  Scene(h, Opening(0), AtRest, 0, 0, 0));
    } else {
      FirstOpens(k - 1);
      ReachesMore(CALM, Scene(h, Opening(k - 1), AtRest, 0, 0, k - 1), ByDestroyer(0, Open),
                  Scene(h, if k < GATES then Opening(k) else Acquiring(0), AtRest, 0, 0, k));
    }
  }

  lemma {:induction false} FirstTakes(l: nat)
    requires l <= LockOf(StatusOp)
    ensures Reaches(CALM, Scene(Sleeping(StatusOp), Acquiring(l), AtRest, l, 0, GATES))
  {
    hide Reaches;
    var h := Sleeping(StatusOp);
    if l == 0 {
      FirstOpens(GATES);
    } else {
      FirstTakes(l - 1);
      ReachesMore(CALM, Scene(h, Acquiring(l - 1), AtRest, l - 1, 0, GATES), ByDestroyer(0, Acquire),
                  Scene(h, Acquiring(l), AtRest, l, 0, GATES));
    }
  }

  /** A second destroyer comes in while the first waits. */
  function Second(b: Pc, lo: nat): (s: State)
  {
    Scene(Sleeping(StatusOp), Acquiring(4), b, 4, lo, GATES)
  }

  lemma {:induction false} SecondOpens(k: nat)
    requires k <= GATES
    ensures Reaches(CALM, Second(if k < GATES then Opening(k) else Acquiring(0), 0))
  {
    hide Reaches;
    if k == 0 {
      FirstTakes(4);
      ReachesMore(CALM, Second(AtRest, 0), ByDestroyer(1, Begin), Second(Opening(0), 0));
    } else {
      SecondOpens(k - 1);
      ReachesMore(CALM, Second(Opening(k - 1), 0), ByDestroyer(1, Open),
                  Second(if k < GATES then Opening(k) else Acquiring(0), 0));
    }
  }

  lemma {:induction false} SecondCloses(k: nat)
    requires k <= GATES
    ensures Reaches(CALM, Second(if k < GATES then Closing(k) else AtRest, k))
  {
    hide Reaches;
    if k == 0 {
      SecondOpens(GATES);
      ReachesMore(CALM, Second(Acquiring(0), 0), ByDestroyer(1, Interrupt), Second(BackingOut(0, 0), 0));
      ReachesMore(CALM, Second(BackingOut(0, 0), 0), ByDestroyer(1, BackOut), Second(Closing(0), 0));
    } else {
      SecondCloses(k - 1);
      ReachesMore(CALM, Second(Closing(k - 1), k - 1), ByDestroyer(1, Close),
                  Second(if k < GATES then Closing(k) else AtRest, k));
    }
  }

  /** Two destroyers of one user can stop the first: the second, interrupted at its first lock, closes the gates
      again while a sleeper has not yet looked. What is left to happen is a signal, a mail, a third call, or
      another destruction. */
  lemma TwoDestroyersStall()
    ensures Quiet(CALM) && Reaches(CALM, Second(AtRest, GATES))
    ensures
      var s := Second(AtRest, GATES);
      Blocked(s, 0) && s.destroyers[0] == Acquiring(4) && s.threads[0] == Sleeping(StatusOp)
      && forall a :: Enabled(s, a) ==>
        a == ByThread(0, Kill) || a == ByDestroyer(0, Interrupt) || a == ByDestroyer(1, Begin)
        || a.Arrive? || a.ArriveAnswer?
  {
    hide Reaches;
    StartsCalm();
    SecondCloses(GATES);
    assert Doomed(Second(AtRest, GATES), 0);
  }
}
