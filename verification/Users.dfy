/** One opening of the device: seven queues of answers, a channel, and the channel's buffers. */
module Users {
  import opened MachineWords
  import opened Mails
  import opened MailQueues
  import opened BufferPools
  import opened Dispatch
  import opened Tallies
  import opened RingWords

  const NO_CHECKPOINT: int := -1

  /** One lock for each kind of operation. */
  const OPS: nat := 8
  const LOCK_CREATE: nat := 1
  const LOCK_XCODE: nat := 3
  const LOCK_STATUS: nat := 4
  const LOCK_SC: nat := 5
  const LOCK_REC: nat := 7

  /** The lock under which a call sleeps on a queue: the locks are those of the queues, and one for commands in their
      midst. */
  function LockFor(q: nat): (l: nat)
    requires q < QUEUES
    ensures l < OPS
  {
    if q < QUEUE_STATUS then q else q + 1
  }

  method NewQueues(home: nat) returns (qs: seq<MailQueue>)
    ensures |qs| == QUEUES && fresh(qs)
    ensures forall i :: 0 <= i < QUEUES ==> qs[i].Valid() && qs[i].nodes == [] && qs[i].contents == []
    ensures forall i :: 0 <= i < QUEUES ==> qs[i].home == home && qs[i].locked
    ensures forall i, j :: 0 <= i < j < QUEUES ==> qs[i] != qs[j]
  {
    hide MailQueue.Valid;
    qs := [];
    for k := 0 to QUEUES
      invariant |qs| == k && fresh(qs)
      invariant forall i :: 0 <= i < k ==> qs[i].Valid() && qs[i].nodes == [] && qs[i].contents == []
      invariant forall i :: 0 <= i < k ==> qs[i].home == home && qs[i].locked
      invariant forall i, j :: 0 <= i < j < k ==> qs[i] != qs[j]
    {
      var q := new MailQueue(home);
      qs := qs + [q];
    }
  }

  /** A pool without buffers or table, that was never freed twice. */
  ghost predicate Unallocated(pool: BufferPool)
    reads pool
  {
    pool.handles == [] && pool.table == NullTable && !pool.doubleFreed
  }

  class User {
    const uid: nat
    var chanUid: int
    var checkpoint: int
    const queues: seq<MailQueue>
    /** Which locks the call in progress holds. It waits for a lock that another call holds. */
    const locks: array<bool>
    const intBuffers: BufferPool
    const recBuffers: BufferPool

    /** The list nodes of all queues. */
    ghost function Nodes(): (ns: set<ListNode>)
      reads queues`nodes
      ensures forall i, n :: 0 <= i < |queues| && n in queues[i].nodes ==> n in ns
    {
      set i, n | 0 <= i < |queues| && n in queues[i].nodes :: n
    }

    ghost predicate Valid()
      reads queues`list, queues`nodes, queues`contents, queues`popped, Nodes(), intBuffers, recBuffers
      ensures Valid() ==> |queues| == QUEUES
    {
      |queues| == QUEUES && locks.Length == OPS && intBuffers != recBuffers
      && intBuffers.Valid() && recBuffers.Valid() && intBuffers.home == recBuffers.home == uid
      && (forall i :: 0 <= i < QUEUES ==> queues[i].Valid() && queues[i].home == uid)
      && (forall i, j :: 0 <= i < j < QUEUES ==> queues[i] != queues[j])
    }

    /** The mails waiting in each queue. */
    ghost function Rooms(): (rooms: seq<seq<Mail>>)
      reads queues
      ensures |rooms| == |queues| && forall i :: 0 <= i < |rooms| ==> rooms[i] == queues[i].contents
    {
      seq(|queues|, i requires 0 <= i < |queues| reads queues => queues[i].contents)
    }

    constructor (uid: nat)
      ensures Valid() && Nodes() == {} && fresh(queues) && fresh(intBuffers) && fresh(recBuffers) && fresh(locks)
      ensures this.uid == uid && chanUid == BAD_CHAN && checkpoint == NO_CHECKPOINT
      ensures forall q :: 0 <= q < QUEUES ==> Rooms()[q] == [] && queues[q].locked
      ensures Unallocated(intBuffers) && Unallocated(recBuffers)
      ensures forall i :: 0 <= i < OPS ==> !locks[i]
    {
      hide MailQueue.Valid, BufferPool.Valid;
      this.uid := uid;
      chanUid := BAD_CHAN;
      checkpoint := NO_CHECKPOINT;
      locks := new bool[OPS](_ => false);
      var qs := NewQueues(uid);
      queues := qs;
      intBuffers := new BufferPool(uid);
      recBuffers := new BufferPool(uid);
    }

    function QueueFor(uid: u16): (q: MailQueue)
      requires |queues| == QUEUES
    {
      queues[MailToQueue(uid)]
    }

    method Deliver(mail: Mail)
      requires Valid()
      modifies QueueFor(mail.uid)`list, QueueFor(mail.uid)`nodes, QueueFor(mail.uid)`contents
      modifies QueueFor(mail.uid)`popped, QueueFor(mail.uid).nodes
      ensures Valid() && fresh(Nodes() - old(Nodes()))
      ensures Rooms() == old(Rooms())[MailToQueue(mail.uid) := old(Rooms())[MailToQueue(mail.uid)] + [mail]]
    {
      hide MailToQueue, MailQueue.Valid, BufferPool.Valid;
      QueueFor(mail.uid).Push(mail);
    }

    /** Opens every queue and frees what is in it. */
    method RemoveResidualMessages() returns (ghost freed: seq<Mail>)
      requires Valid()
      modifies queues
      ensures Valid() && Nodes() == {}
      ensures forall q :: 0 <= q < QUEUES ==> Rooms()[q] == [] && !queues[q].locked
      ensures freed == Flat(old(Rooms()))
    {
      hide MailQueue.Valid, BufferPool.Valid, Flat;
      freed := [];
      ghost var rooms := Rooms();
      assert rooms[0..] == rooms;
      for q := 0 to QUEUES
        invariant Valid()
        invariant forall i :: 0 <= i < q ==> queues[i].nodes == [] && queues[i].contents == [] && !queues[i].locked
        invariant forall i :: q <= i < QUEUES ==> queues[i].contents == rooms[i]
        invariant freed + Flat(rooms[q..]) == Flat(rooms)
      {
        queues[q].Unlock();
        ghost var some := queues[q].Drain();
        FlatFront(rooms, q);
        ConcatAssociates(freed, some, Flat(rooms[q + 1..]));
        freed := freed + some;
      }
      assert rooms[QUEUES..] == [];
      FlatNothing<Mail>();
    }
  }
}
