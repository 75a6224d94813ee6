/** The part of the kernel's buffer sharing that the driver relies on: DMA buffers, each wrapped in
    at most one reference-counted handle, and the file descriptors that keep handles alive. */
module DmaKernel {
  import opened MachineWords

  datatype DmaBuffer = DmaBuffer(address: nat, size: nat)

  /** A buffer and its handle share one identity. `freed` lists the identities given back, in order. */
  datatype Dma = Dma(next: nat, info: map<nat, DmaBuffer>, live: set<nat>, refs: map<nat, nat>,
                     fds: map<int, nat>, freed: seq<nat>)

  function Alloc(d: Dma, b: DmaBuffer): (r: Dma)
  {
    d.(next := d.next + 1, info := d.info[d.next := b], live := d.live + {d.next})
  }

  function FreeRaw(d: Dma, id: nat): (r: Dma)
  {
    d.(live := d.live - {id}, freed := d.freed + [id])
  }

  function WrapHandle(d: Dma, id: nat): (r: Dma)
  {
    d.(refs := d.refs[id := 1])
  }

  /** dma_buf_put: the last reference frees the buffer. */
  function Put(d: Dma, h: nat): (r: Dma)
    requires h in d.refs
  {
    if d.refs[h] > 1 then d.(refs := d.refs[h := d.refs[h] - 1])
    else FreeRaw(d.(refs := d.refs - {h}), h)
  }

  /** dma_buf_get: one more reference to what an open descriptor names. */
  function Get(d: Dma, fd: int): (r: Dma)
    requires fd in d.fds && d.fds[fd] in d.refs
  {
    d.(refs := d.refs[d.fds[fd] := d.refs[d.fds[fd]] + 1])
  }

  /** dma_buf_fd: a new descriptor takes over one reference of its caller. */
  function Install(d: Dma, fd: int, h: nat): (r: Dma)
  {
    d.(fds := d.fds[fd := h])
  }

  function Close(d: Dma, fd: int): (r: Dma)
    requires fd in d.fds && d.fds[fd] in d.refs
  {
    Put(d.(fds := d.fds - {fd}), d.fds[fd])
  }

  function RefCount(d: Dma, h: nat): (n: nat)
  {
    if h in d.refs then d.refs[h] else 0
  }

  function FdsOf(d: Dma, h: nat): (s: set<int>)
  {
    set fd | fd in d.fds && d.fds[fd] == h
  }

  /** Every reference has an owner: `held` counts those of pools and of calls in progress, the others are
      open descriptors. A buffer is live exactly while it is referenced, and is freed once, afterwards. */
  ghost predicate Accounted(d: Dma, held: multiset<nat>)
  {
    (forall h: nat :: RefCount(d, h) == held[h] + |FdsOf(d, h)|)
    && d.live == d.refs.Keys
    && (forall h :: h in d.refs ==> d.refs[h] > 0 && h < d.next)
    && (forall h: nat :: multiset(d.freed)[h] == if h < d.next && h !in d.live then 1 else 0)
  }

  const NOTHING_YET := Dma(0, map[], {}, map[], map[], [])

  lemma NothingAccounted()
    ensures Accounted(NOTHING_YET, multiset{})
  {
    forall h: nat
      ensures |FdsOf(NOTHING_YET, h)| == 0
    {
      assert FdsOf(NOTHING_YET, h) == {};
    }
  }

  lemma FdsOfInstall(d: Dma, fd: int, h: nat, k: nat)
    requires fd !in d.fds
    ensures |FdsOf(Install(d, fd, h), k)| == |FdsOf(d, k)| + (if k == h then 1 else 0)
  {
    if k == h {
      assert FdsOf(Install(d, fd, h), k) == FdsOf(d, k) + {fd};
    } else {
      assert FdsOf(Install(d, fd, h), k) == FdsOf(d, k);
    }
  }

  lemma FdsOfRemove(d: Dma, fd: int, k: nat)
    requires fd in d.fds
    ensures |FdsOf(d.(fds := d.fds - {fd}), k)| == |FdsOf(d, k)| - (if k == d.fds[fd] then 1 else 0)
  {
    if k == d.fds[fd] {
      assert FdsOf(d.(fds := d.fds - {fd}), k) == FdsOf(d, k) - {fd};
    } else {
      assert FdsOf(d.(fds := d.fds - {fd}), k) == FdsOf(d, k);
    }
  }

  lemma SameFds(d: Dma, e: Dma)
    requires d.fds == e.fds
    ensures forall h: nat :: |FdsOf(d, h)| == |FdsOf(e, h)|
  {
    forall h: nat ensures FdsOf(d, h) == FdsOf(e, h) {}
  }

  lemma HeldIsLive(d: Dma, held: multiset<nat>, h: nat)
    requires Accounted(d, held) && h in held
    ensures h in d.refs && h in d.live
  {
    assert RefCount(d, h) > 0;
  }

  lemma OpenIsLive(d: Dma, held: multiset<nat>, fd: int)
    requires Accounted(d, held) && fd in d.fds
    ensures d.fds[fd] in d.refs
  {
    assert fd in FdsOf(d, d.fds[fd]);
    assert RefCount(d, d.fds[fd]) > 0;
  }

  lemma FreedAppend(freed: seq<nat>, h: nat, k: nat)
    ensures multiset(freed + [h])[k] == multiset(freed)[k] + (if k == h then 1 else 0)
  {
  }

  /** A buffer made and wrapped is owned by whoever made it. */
  lemma MadeAccounted(d: Dma, held: multiset<nat>, b: DmaBuffer)
    requires Accounted(d, held)
    ensures d.next !in held && d.next !in d.refs
    ensures Accounted(WrapHandle(Alloc(d, b), d.next), held + multiset{d.next})
  {
    var e := WrapHandle(Alloc(d, b), d.next);
    SameFds(d, e);
    assert RefCount(d, d.next) == 0;
    assert e.refs.Keys == d.refs.Keys + {d.next};
    forall h: nat
      ensures RefCount(e, h) == (held + multiset{d.next})[h] + |FdsOf(e, h)|
    {
      assert RefCount(d, h) == held[h] + |FdsOf(d, h)|;
    }
  }

  /** A buffer whose wrapping failed leaves no trace but its release. */
  lemma DroppedAccounted(d: Dma, held: multiset<nat>, b: DmaBuffer)
    requires Accounted(d, held)
    ensures Accounted(FreeRaw(Alloc(d, b), d.next), held)
  {
    var e := FreeRaw(Alloc(d, b), d.next);
    SameFds(d, e);
    assert d.next !in d.live;
    assert e.live == d.live;
    forall h: nat
      ensures multiset(e.freed)[h] == if h < e.next && h !in e.live then 1 else 0
      ensures RefCount(e, h) == held[h] + |FdsOf(e, h)|
    {
      FreedAppend(d.freed, d.next, h);
      assert RefCount(e, h) == RefCount(d, h);
    }
  }

  lemma PutOneOfMany(d: Dma, held: multiset<nat>, h: nat)
    requires Accounted(d, held + multiset{h}) && h in d.refs && d.refs[h] > 1
    ensures Accounted(Put(d, h), held)
  {
    hide FdsOf;
    var e := Put(d, h);
    SameFds(d, e);
    assert e.refs.Keys == d.refs.Keys;
    forall k: nat
      ensures RefCount(e, k) == held[k] + |FdsOf(e, k)|
    {
      assert RefCount(d, k) == (held + multiset{h})[k] + |FdsOf(d, k)|;
    }
  }

  lemma PutLast(d: Dma, held: multiset<nat>, h: nat)
    requires Accounted(d, held + multiset{h}) && h in d.refs && d.refs[h] == 1
    ensures Accounted(Put(d, h), held)
  {
    hide FdsOf;
    var e := Put(d, h);
    SameFds(d, e);
    forall k: nat
      ensures RefCount(e, k) == held[k] + |FdsOf(e, k)|
    {
      assert RefCount(d, k) == (held + multiset{h})[k] + |FdsOf(d, k)|;
    }
    forall k: nat
      ensures multiset(e.freed)[k] == if k < e.next && k !in e.live then 1 else 0
    {
      FreedAppend(d.freed, h, k);
    }
  }

  lemma PutAccounted(d: Dma, held: multiset<nat>, h: nat)
    requires Accounted(d, held + multiset{h})
    ensures h in d.refs && Accounted(Put(d, h), held)
  {
    HeldIsLive(d, held + multiset{h}, h);
    if d.refs[h] > 1 {
      PutOneOfMany(d, held, h);
    } else {
      PutLast(d, held, h);
    }
  }

  lemma GetAccounted(d: Dma, held: multiset<nat>, fd: int)
    requires Accounted(d, held) && fd in d.fds
    ensures d.fds[fd] in d.refs && Accounted(Get(d, fd), held + multiset{d.fds[fd]})
  {
    OpenIsLive(d, held, fd);
    var e, h := Get(d, fd), d.fds[fd];
    SameFds(d, e);
    assert e.refs.Keys == d.refs.Keys;
    forall k: nat
      ensures RefCount(e, k) == (held + multiset{h})[k] + |FdsOf(e, k)|
    {
      assert RefCount(d, k) == held[k] + |FdsOf(d, k)|;
    }
  }

  lemma InstallAccounted(d: Dma, held: multiset<nat>, fd: int, h: nat)
    requires Accounted(d, held + multiset{h}) && fd !in d.fds
    ensures Accounted(Install(d, fd, h), held)
  {
    var e := Install(d, fd, h);
    forall k: nat
      ensures RefCount(e, k) == held[k] + |FdsOf(e, k)|
    {
      assert RefCount(d, k) == (held + multiset{h})[k] + |FdsOf(d, k)|;
      FdsOfInstall(d, fd, h, k);
    }
  }

  lemma CloseAccounted(d: Dma, held: multiset<nat>, fd: int)
    requires Accounted(d, held) && fd in d.fds
    ensures d.fds[fd] in d.refs && Accounted(Close(d, fd), held)
  {
    OpenIsLive(d, held, fd);
    var e, h := d.(fds := d.fds - {fd}), d.fds[fd];
    forall k: nat
      ensures RefCount(e, k) == (held + multiset{h})[k] + |FdsOf(e, k)|
    {
      assert RefCount(d, k) == held[k] + |FdsOf(d, k)|;
      FdsOfRemove(d, fd, k);
    }
    PutAccounted(e, held, h);
  }

  /** The owners determine the counts: with the same owners and descriptors, the same buffers are live
      and have the same counts, whatever was made and given back in between. */
  lemma OwnersDetermineCounts(d: Dma, e: Dma, held: multiset<nat>)
    requires Accounted(d, held) && Accounted(e, held) && d.fds == e.fds
    ensures d.refs == e.refs && d.live == e.live
  {
    hide FdsOf;
    SameFds(d, e);
    forall h: nat
      ensures RefCount(d, h) == RefCount(e, h)
    {
    }
    forall h | h in d.refs || h in e.refs
      ensures h in d.refs && h in e.refs && d.refs[h] == e.refs[h]
    {
      assert RefCount(d, h) == RefCount(e, h);
    }
  }

  /** Taking a reference through a descriptor and giving it back changes nothing. */
  lemma GetThenPut(d: Dma, fd: int)
    requires fd in d.fds && d.fds[fd] in d.refs && d.refs[d.fds[fd]] > 0
    ensures Put(Get(d, fd), d.fds[fd]) == d
  {
    var h := d.fds[fd];
    assert d.refs[h := d.refs[h] + 1][h := d.refs[h]] == d.refs;
  }

  /** The two steps of handing out a descriptor on a held buffer, with or without a close of that descriptor by
      another thread between them. */
  function HandOut(d: Dma, fd: int, h: nat, closedBetween: bool): (r: Dma)
    requires h in d.refs
  {
    var e := Install(d, fd, h);
    var f := if closedBetween then Close(e, fd) else e;
    if fd in f.fds && f.fds[fd] in f.refs then Get(f, fd) else f
  }

  lemma OwnedOnce(d: Dma, held: multiset<nat>, h: nat)
    requires Accounted(d, held)
    ensures !Accounted(d, held + multiset{h})
    ensures held[h] == 0 && FdsOf(d, h) == {} ==> h !in d.live
  {
    hide FdsOf;
    assert RefCount(d, h) == held[h] + |FdsOf(d, h)|;
    assert RefCount(d, h) != (held + multiset{h})[h] + |FdsOf(d, h)|;
  }

  lemma InstallThenClose(d: Dma, fd: int, h: nat)
    requires fd !in d.fds && h in d.refs
    ensures fd !in Close(Install(d, fd, h), fd).fds && Close(Install(d, fd, h), fd).fds == d.fds
  {
  }

  /** Handing out a descriptor keeps every reference owned exactly when nobody closes the descriptor between its two
      steps. Otherwise the reference of the buffer's holder is gone, and the buffer with it if that was the last. */
  lemma HandOutExactly(d: Dma, held: multiset<nat>, fd: int, h: nat, closedBetween: bool)
    requires Accounted(d, held) && h in held && fd !in d.fds
    ensures h in d.refs
    ensures Accounted(HandOut(d, fd, h, closedBetween), held) <==> !closedBetween
    ensures closedBetween && held[h] == 1 && FdsOf(d, h) == {} ==> h !in HandOut(d, fd, h, closedBetween).live
  {
    hide Accounted, Put, Get, Close;
    HeldIsLive(d, held, h);
    var others, e := held - multiset{h}, Install(d, fd, h);
    assert held == others + multiset{h};
    InstallAccounted(d, others, fd, h);
    if closedBetween {
      CloseAccounted(e, others, fd);
      InstallThenClose(d, fd, h);
      OwnedOnce(Close(e, fd), others, h);
    } else {
      GetAccounted(e, others, fd);
    }
  }
}
