/** The mails that lend a pool's buffers to the microcontroller, from the loop that builds them to what the
    other end of the ring reads. */
module PushedBuffers {
  import opened MachineWords
  import opened Mails
  import opened RingWords
  import opened Mailboxes
  import opened DmaKernel
  import opened BufferPools

  const MCU_CACHE_OFFSET: u32 := 0x8000_0000

  /** Where the microcontroller sees a physical address; the sum wraps around. */
  function VirtualAddress(physical: u32): (v: u32)
  {
    (physical + MCU_CACHE_OFFSET) % 0x1_0000_0000
  }

  /** An address or a size is cut to 32 bits. */
  function Low32(n: nat): (w: u32)
  {
    n % 0x1_0000_0000
  }

  /** Cutting an address first makes no difference to where the microcontroller sees it. */
  lemma VirtualOfLow(n: nat)
    ensures VirtualAddress(Low32(n)) == (n + 0x8000_0000) % 0x1_0000_0000
  {
    var q := n / 0x1_0000_0000;
    assert n + 0x8000_0000 == 0x1_0000_0000 * q + (Low32(n) + 0x8000_0000);
  }

  function Entry(b: DmaBuffer): (ws: seq<Word>)
    ensures |ws| == 3
  {
    [WordFor(Low32(b.address)), WordFor(VirtualAddress(Low32(b.address))), WordFor(Low32(b.size))]
  }

  function Entries(bs: seq<DmaBuffer>): (ws: seq<Word>)
    ensures |ws| == 3 * |bs|
    decreases |bs|
  {
    if bs == [] then [] else Entries(bs[..|bs| - 1]) + Entry(bs[|bs| - 1])
  }

  lemma {:induction false} EntryAt(bs: seq<DmaBuffer>, i: nat)
    requires i < |bs|
    ensures Entries(bs)[3 * i..3 * i + 3] == Entry(bs[i])
    decreases |bs|
  {
    var n := |bs| - 1;
    if i < n {
      EntryAt(bs[..n], i);
      assert Entries(bs)[3 * i..3 * i + 3] == Entries(bs[..n])[3 * i..3 * i + 3];
    }
  }

  /** Everything the builder writes. */
  function PoolBytes(chan: u32, bs: seq<DmaBuffer>): (b: seq<u8>)
    ensures |b| == 4 + 12 * |bs|
  {
    BytesOf([WordFor(chan)] + Entries(bs))
  }

  /** The finished mail: the size field keeps only 16 bits of the size. */
  function PoolMail(uid: u16, chan: u32, bs: seq<DmaBuffer>): (m: Mail)
  {
    Shown(uid, PoolBytes(chan, bs))
  }

  lemma EntryBytes(chan: u32, bs: seq<DmaBuffer>, i: nat)
    requires i < |bs|
    ensures PoolBytes(chan, bs[..i + 1])
         == PoolBytes(chan, bs[..i]) + Unpack(Entry(bs[i])[0]) + Unpack(Entry(bs[i])[1]) + Unpack(Entry(bs[i])[2])
  {
    hide BytesOf, Unpack, WordFor, Low32, VirtualAddress;
    var before, e := [WordFor(chan)] + Entries(bs[..i]), Entry(bs[i]);
    assert bs[..i + 1][..i] == bs[..i];
    assert [WordFor(chan)] + Entries(bs[..i + 1]) == before + [e[0]] + [e[1]] + [e[2]];
    BytesOfSnoc(before, e[0]);
    BytesOfSnoc(before + [e[0]], e[1]);
    BytesOfSnoc(before + [e[0]] + [e[1]], e[2]);
  }

  /** The builder fills the storage it asked for to the last byte. */
  method CreateMailFromBufpool(uid: u32, chan: u32, pool: BufferPool) returns (m: Mail)
    requires pool.Valid()
    ensures m == PoolMail(uid % 0x1_0000, chan, pool.buffers)
  {
    hide BytesOf, Unpack, WordFor, Low32, VirtualAddress, Entries, PoolBytes;
    var sizePerBuffer: u32 := 12;
    var contentSize: u32 := pool.count * sizePerBuffer;
    var mail := new MailBuffer(uid, 4 + contentSize);
    mail.WriteWord(chan);
    ghost var bs := pool.buffers;
    ChannelBytes(chan, bs);
    var i := 0;
    while i < pool.count
      invariant 0 <= i <= pool.count && mail.Valid()
      invariant mail.bodyOffset == 4 + 12 * i
      invariant mail.Written() == PoolBytes(chan, bs[..i])
    {
      var buffer := pool.buffers[i];
      var address := Low32(buffer.address);
      var mcuVaddr := VirtualAddress(address);
      EntryBytes(chan, bs, i);
      mail.WriteWord(address);
      mail.WriteWord(mcuVaddr);
      mail.WriteWord(Low32(buffer.size));
      i := i + 1;
    }
    assert bs[..i] == bs;
    assert mail.body[..] == mail.Written();
    m := mail.Seal();
  }

  lemma ChannelBytes(chan: u32, bs: seq<DmaBuffer>)
    ensures PoolBytes(chan, bs[..0]) == Unpack(WordFor(chan))
  {
    BytesOfSnoc([], WordFor(chan));
    assert [WordFor(chan)] + Entries(bs[..0]) == [] + [WordFor(chan)];
  }

  /** What a reader of the mail finds: the channel, then for each buffer its address, where the microcontroller
      sees it, and its size. */
  predicate Describes(m: Mail, chan: u32, bs: seq<DmaBuffer>)
  {
    |m.body| == 4 + 12 * |bs| && WordAt(m, 0) == chan
    && forall i: nat :: i < |bs| ==> DescribesBuffer(m, i, bs[i])
  }

  predicate DescribesBuffer(m: Mail, i: nat, b: DmaBuffer)
  {
    HasWord(m, 3 * i + 3)
    && WordAt(m, 3 * i + 1) == Low32(b.address)
    && WordAt(m, 3 * i + 2) == (b.address + 0x8000_0000) % 0x1_0000_0000
    && WordAt(m, 3 * i + 3) == Low32(b.size)
  }

  lemma WordOfPool(uid: u16, chan: u32, bs: seq<DmaBuffer>, k: nat)
    requires 4 + 12 * |bs| < 0x1_0000 && k < 1 + 3 * |bs|
    ensures HasWord(PoolMail(uid, chan, bs), k)
    ensures WordFor(WordAt(PoolMail(uid, chan, bs), k)) == ([WordFor(chan)] + Entries(bs))[k]
  {
    hide BytesOf, WordFor, Value, Unpack, Entries;
    var ws := [WordFor(chan)] + Entries(bs);
    var m := PoolMail(uid, chan, bs);
    assert m.body == BytesOf(ws);
    BytesOfAt(ws, k);
    ValueRoundTrip(chan, ws[k]);
  }

  lemma SameWord(v: u32, w: u32)
    requires WordFor(v) == WordFor(w)
    ensures v == w
  {
    ValueRoundTrip(v, WordFor(v));
    ValueRoundTrip(w, WordFor(w));
  }

  lemma BufferDescribed(uid: u16, chan: u32, bs: seq<DmaBuffer>, i: nat)
    requires 4 + 12 * |bs| < 0x1_0000 && i < |bs|
    ensures DescribesBuffer(PoolMail(uid, chan, bs), i, bs[i])
  {
    hide WordFor, WordAt, PoolMail, Low32, VirtualAddress;
    var ws, m, e := [WordFor(chan)] + Entries(bs), PoolMail(uid, chan, bs), Entry(bs[i]);
    EntryAt(bs, i);
    WordOfPool(uid, chan, bs, 3 * i + 1);
    WordOfPool(uid, chan, bs, 3 * i + 2);
    WordOfPool(uid, chan, bs, 3 * i + 3);
    assert ws[3 * i + 1] == Entries(bs)[3 * i..3 * i + 3][0];
    assert ws[3 * i + 2] == Entries(bs)[3 * i..3 * i + 3][1];
    assert ws[3 * i + 3] == Entries(bs)[3 * i..3 * i + 3][2];
    SameWord(WordAt(m, 3 * i + 1), Low32(bs[i].address));
    SameWord(WordAt(m, 3 * i + 2), VirtualAddress(Low32(bs[i].address)));
    VirtualOfLow(bs[i].address);
    SameWord(WordAt(m, 3 * i + 3), Low32(bs[i].size));
  }

  /** A pool's mail describes the whole pool exactly when its size fits the 16-bit size field. */
  lemma PoolMailDescribes(uid: u16, chan: u32, bs: seq<DmaBuffer>)
    ensures Describes(PoolMail(uid, chan, bs), chan, bs) <==> 4 + 12 * |bs| < 0x1_0000
  {
    hide WordFor, WordAt, Low32, VirtualAddress, DescribesBuffer, PoolBytes;
    if 4 + 12 * |bs| < 0x1_0000 {
      WordOfPool(uid, chan, bs, 0);
      SameWord(WordAt(PoolMail(uid, chan, bs), 0), chan);
      forall i: nat | i < |bs|
        ensures DescribesBuffer(PoolMail(uid, chan, bs), i, bs[i])
      {
        BufferDescribed(uid, chan, bs, i);
      }
    }
  }

  lemma PoolMailArrives(uid: u16, chan: u32, bs: seq<DmaBuffer>)
    requires 4 + 12 * |bs| < 0x1_0000
    ensures |PoolMail(uid, chan, bs).body| == 4 + 12 * |bs| && PoolMail(uid, chan, bs).uid == uid
    ensures Delivered(PoolMail(uid, chan, bs)) == PoolMail(uid, chan, bs)
  {
    hide PoolBytes, Delivered, HasWord, WordAt;
    var m := PoolMail(uid, chan, bs);
    assert |m.body| == 4 * (1 + 3 * |bs|);
    DeliveryFidelity(m);
  }

  /** The mail survives the ring: whatever waits before it, if it is accepted then it comes out describing the
      pool. */
  lemma PoolSurvivesTheWire(size: nat, queue: seq<Mail>, uid: u16, chan: u32, bs: seq<DmaBuffer>)
    requires size <= 0x1_0000 && 4 + 12 * |bs| + 8 <= size - 4 * TotalSpan(queue)
    ensures
      var after := Mailboxes.Put(size, queue, PoolMail(uid, chan, bs));
      |after| == |queue| + 1 && after[..|queue|] == queue
      && after[|queue|].uid == uid && Describes(after[|queue|], chan, bs)
  {
    hide Describes, PoolMail, Delivered;
    PoolMailArrives(uid, chan, bs);
    PoolMailDescribes(uid, chan, bs);
  }

  /** Some state of the ring accepts a pool's mail exactly when it fits the empty ring; a pool for which none does
      is never pushed, and the creation of its channel stays half way whenever it is resumed. */
  lemma PushableExactly(size: nat, uid: u16, chan: u32, bs: seq<DmaBuffer>)
    ensures (exists queue :: Accepts(size, queue, PoolMail(uid, chan, bs))) <==> (4 + 12 * |bs|) % 0x1_0000 + 8 <= size
  {
    hide PoolBytes;
    if (4 + 12 * |bs|) % 0x1_0000 + 8 <= size {
      assert Accepts(size, [], PoolMail(uid, chan, bs));
    }
  }

  /** At the ring's real size that is the case for every pool of 170 to 5460 buffers. */
  lemma TooManyBuffers(uid: u16, chan: u32, bs: seq<DmaBuffer>, queue: seq<Mail>)
    requires 170 <= |bs| <= 5460
    ensures !Accepts(0x7F8, queue, PoolMail(uid, chan, bs))
  {
    hide PoolBytes;
    PushableExactly(0x7F8, uid, chan, bs);
  }
}
