/** The pools of DMA buffers that an encoder channel lends to the microcontroller. */
module BufferPools {
  import opened MachineWords
  import opened DmaKernel

  class Kernel {
    var d: Dma
    constructor ()
      ensures d == NOTHING_YET
    {
      d := NOTHING_YET;
    }
  }

  /** What the pool's `buffers` pointer is: null, a table, or the address of a freed table. */
  datatype Table = NullTable | LiveTable | FreedTable

  datatype Slot = NoMemory | NoWrap(lost: nat) | Made(address: nat)

  /** How the allocations of one call turn out. */
  datatype AllocEnv = AllocEnv(buffersTable: bool, handlesTable: bool, slots: nat -> Slot)

  predicate SlotsMade(env: AllocEnv, n: nat)
  {
    forall i: nat :: i < n ==> env.slots(i).Made?
  }

  /** No kernel allocation is as large as a table of this many pointers. */
  const MAX_TABLE: nat := 0x1000_0000

  /** A negative count turns into an impossible table size. */
  predicate TableFits(count: int)
  {
    0 <= count < MAX_TABLE
  }

  predicate AllocSucceeds(count: int, env: AllocEnv)
  {
    TableFits(count) && env.buffersTable && env.handlesTable && SlotsMade(env, count)
  }

  function TableAfter(count: int, env: AllocEnv): (t: Table)
  {
    if !TableFits(count) || !env.buffersTable then NullTable
    else if !env.handlesTable then FreedTable
    else if SlotsMade(env, count) then LiveTable
    else NullTable
  }

  lemma HeldFront(others: multiset<nat>, handles: seq<nat>, i: nat)
    requires i < |handles|
    ensures others + multiset(handles[i..]) == others + multiset(handles[i + 1..]) + multiset{handles[i]}
  {
    assert handles[i..] == [handles[i]] + handles[i + 1..];
  }

  lemma HeldMore(others: multiset<nat>, handles: seq<nat>, id: nat)
    ensures others + multiset(handles) + multiset{id} == others + multiset(handles + [id])
  {
  }

  /** `id` is the slot of the buffer that the descriptor names, or -1 if it names none of the pool. */
  predicate NamesSlot(handles: seq<nat>, d: Dma, fd: int, id: int)
  {
    if id == -1 then fd in d.fds ==> d.fds[fd] !in handles
    else 0 <= id < |handles| && fd in d.fds && handles[id] == d.fds[fd]
  }

  /** A descriptor opened on slot `id` leads back to `id` and to nothing else, whatever other descriptors are
      opened or closed. */
  lemma DescriptorLeadsBack(handles: seq<nat>, d: Dma, fd: int, id: nat, found: int)
    requires forall i, j :: 0 <= i < j < |handles| ==> handles[i] != handles[j]
    requires id < |handles| && fd in d.fds && d.fds[fd] == handles[id]
    ensures NamesSlot(handles, d, fd, found) <==> found == id
  {
    assert handles[id] in handles;
  }

  lemma PutKeepsFds(d: Dma, h: nat)
    requires h in d.refs
    ensures Put(d, h).fds == d.fds && Put(d, h).next == d.next
  {
  }

  class BufferPool {
    var count: nat
    var buffers: seq<DmaBuffer>
    var handles: seq<nat>
    var table: Table
    ghost var doubleFreed: bool
    ghost const home: nat

    ghost predicate Valid()
      reads this
    {
      count == |handles| == |buffers| && TableFits(count)
      && (forall i, j :: 0 <= i < j < count ==> handles[i] != handles[j])
      && (table.LiveTable? || count == 0)
    }

    constructor (ghost home: nat)
      ensures Valid() && handles == [] && table == NullTable && !doubleFreed && this.home == home
    {
      this.home := home;
      count, buffers, handles, table, doubleFreed := 0, [], [], NullTable, false;
    }

    /** Gives every handle back once; freeing the table of a pool whose handle table could not be
        allocated frees that table a second time. */
    method Free(kernel: Kernel, ghost others: multiset<nat>)
      requires Valid() && Accounted(kernel.d, others + multiset(handles))
      modifies this, kernel
      ensures Valid() && handles == [] && table == NullTable
      ensures doubleFreed == (old(doubleFreed) || old(table).FreedTable?)
      ensures Accounted(kernel.d, others)
      ensures kernel.d.fds == old(kernel.d.fds) && kernel.d.next == old(kernel.d.next)
    {
      hide Accounted, Put;
      assert handles[0..] == handles;
      for i := 0 to count
        invariant Valid() && unchanged(this)
        invariant Accounted(kernel.d, others + multiset(handles[i..]))
        invariant kernel.d.fds == old(kernel.d.fds) && kernel.d.next == old(kernel.d.next)
      {
        HeldFront(others, handles, i);
        PutAccounted(kernel.d, others + multiset(handles[i + 1..]), handles[i]);
        PutKeepsFds(kernel.d, handles[i]);
        kernel.d := Put(kernel.d, handles[i]);
      }
      assert others + multiset(handles[count..]) == others;
      doubleFreed := doubleFreed || table.FreedTable?;
      count, buffers, handles, table := 0, [], [], NullTable;
    }

    /** All or nothing: either `n` new buffers under distinct handles, or the buffers that were live
        before and no others. */
    method Allocate(kernel: Kernel, n: int, size: nat, env: AllocEnv, ghost others: multiset<nat>) returns (ok: bool)
      requires Accounted(kernel.d, others)
      modifies this, kernel
      ensures Valid() && doubleFreed == old(doubleFreed)
      ensures ok <==> AllocSucceeds(n, env)
      ensures ok <==> 0 <= n < 0x1000_0000 && env.buffersTable && env.handlesTable
                      && forall i: nat :: i < n ==> env.slots(i).Made?
      ensures table == TableAfter(n, env)
      ensures table.FreedTable? <==> 0 <= n < 0x1000_0000 && env.buffersTable && !env.handlesTable
      ensures table.LiveTable? <==> ok
      ensures Accounted(kernel.d, others + multiset(handles))
      ensures kernel.d.fds == old(kernel.d.fds)
      ensures ok ==> count == n && forall i :: 0 <= i < n ==>
        handles[i] == old(kernel.d.next) + i && buffers[i] == DmaBuffer(env.slots(i).address, size)
      ensures !ok ==> handles == [] && kernel.d.live == old(kernel.d.live) && kernel.d.refs == old(kernel.d.refs)
    {
      hide Accounted;
      count, buffers, handles := 0, [], [];
      if !TableFits(n) || !env.buffersTable {
        table := NullTable;
        assert others + multiset(handles) == others;
        return false;
      }
      if !env.handlesTable {
        table := FreedTable;
        assert others + multiset(handles) == others;
        return false;
      }
      table := LiveTable;
      ok := Fill(kernel, n, size, env, others);
      if !ok {
        Free(kernel, others);
        assert others + multiset(handles) == others;
        OwnersDetermineCounts(old(kernel.d), kernel.d, others);
      }
    }

    /** The allocation loop: stops at the first buffer that cannot be made or wrapped. */
    method Fill(kernel: Kernel, n: nat, size: nat, env: AllocEnv, ghost others: multiset<nat>) returns (ok: bool)
      requires Valid() && TableFits(n) && count == 0 && table.LiveTable? && Accounted(kernel.d, others)
      modifies this`count, this`buffers, this`handles, kernel
      ensures Valid() && (ok <==> SlotsMade(env, n))
      ensures Accounted(kernel.d, others + multiset(handles)) && kernel.d.fds == old(kernel.d.fds)
      ensures ok ==> count == n && forall i :: 0 <= i < n ==>
        handles[i] == old(kernel.d.next) + i && buffers[i] == DmaBuffer(env.slots(i).address, size)
    {
      hide Accounted;
      assert others + multiset(handles) == others;
      ghost var start := kernel.d.next;
      var i := 0;
      while i < n
        invariant 0 <= i <= n && count == i == |handles| == |buffers| && SlotsMade(env, i)
        invariant forall k :: 0 <= k < i ==> handles[k] == start + k
        invariant forall k :: 0 <= k < i ==> buffers[k] == DmaBuffer(env.slots(k).address, size)
        invariant kernel.d.next == start + i && kernel.d.fds == old(kernel.d.fds)
        invariant Accounted(kernel.d, others + multiset(handles))
      {
        var made := MakeOne(kernel, size, env.slots(i), others);
        if !made {
          return false;
        }
        i := i + 1;
      }
      ok := true;
    }

    /** One turn of the loop: allocate, then wrap, undoing the allocation when the wrapping fails. */
    method MakeOne(kernel: Kernel, size: nat, slot: Slot, ghost others: multiset<nat>) returns (made: bool)
      requires count == |handles| == |buffers| && Accounted(kernel.d, others + multiset(handles))
      modifies this`count, this`buffers, this`handles, kernel
      ensures made <==> slot.Made?
      ensures made ==> handles == old(handles) + [old(kernel.d.next)] && kernel.d.next == old(kernel.d.next) + 1
      ensures made ==> buffers == old(buffers) + [DmaBuffer(slot.address, size)]
      ensures !made ==> handles == old(handles) && buffers == old(buffers)
      ensures count == |handles| && kernel.d.fds == old(kernel.d.fds)
      ensures Accounted(kernel.d, others + multiset(handles))
    {
      hide Accounted;
      made := slot.Made?;
      if slot.NoMemory? {
        return;
      }
      var id, buffer := kernel.d.next, DmaBuffer(if slot.NoWrap? then slot.lost else slot.address, size);
      ghost var before, held := kernel.d, others + multiset(handles);
      kernel.d := Alloc(kernel.d, buffer);
      if slot.NoWrap? {
        DroppedAccounted(before, held, buffer);
        kernel.d := FreeRaw(kernel.d, id);
        return;
      }
      MadeAccounted(before, held, buffer);
      kernel.d := WrapHandle(kernel.d, id);
      HeldMore(others, handles, id);
      buffers, handles := buffers + [buffer], handles + [id];
      count := count + 1;
    }

    /** The slot whose handle the descriptor names, or -1. */
    method GetId(kernel: Kernel, fd: int, ghost held: multiset<nat>) returns (id: int)
      requires Valid() && Accounted(kernel.d, held)
      modifies kernel
      ensures kernel.d == old(kernel.d)
      ensures NamesSlot(handles, kernel.d, fd, id)
    {
      if fd !in kernel.d.fds {
        return -1;
      }
      OpenIsLive(kernel.d, held, fd);
      GetThenPut(kernel.d, fd);
      var handle := kernel.d.fds[fd];
      kernel.d := Get(kernel.d, fd);
      id := -1;
      var i := 0;
      while i < count
        invariant 0 <= i <= count && handle !in handles[..i]
        invariant id == -1 && kernel.d == Get(old(kernel.d), fd)
      {
        if handle == handles[i] {
          id := i;
          break;
        }
        i := i + 1;
      }
      kernel.d := Put(kernel.d, handle);
    }

    /** Opens a descriptor on a buffer of the pool, in one step with regard to a close of it; `outcome` is the
        kernel's unused descriptor number, or its negative error code. */
    method ReserveFd(kernel: Kernel, id: nat, outcome: int, ghost held: multiset<nat>) returns (fd: int)
      requires Valid() && id < count && multiset(handles) <= held && Accounted(kernel.d, held)
      requires outcome >= 0 ==> outcome !in kernel.d.fds
      modifies kernel
      ensures fd == outcome && Accounted(kernel.d, held)
      ensures kernel.d.fds == if fd >= 0 then old(kernel.d.fds)[fd := handles[id]] else old(kernel.d.fds)
      ensures kernel.d.live == old(kernel.d.live)
      ensures fd >= 0 ==>
        RefCount(kernel.d, handles[id]) == RefCount(old(kernel.d), handles[id]) + 1
    {
      var h := handles[id];
      assert h in multiset(handles);
      HeldIsLive(kernel.d, held, h);
      fd := outcome;
      if outcome >= 0 {
        assert held == held - multiset{h} + multiset{h};
        InstallAccounted(kernel.d, held - multiset{h}, fd, h);
        kernel.d := Install(kernel.d, fd, h);
        GetAccounted(kernel.d, held - multiset{h}, fd);
        kernel.d := Get(kernel.d, fd);
      }
    }
  }
}
