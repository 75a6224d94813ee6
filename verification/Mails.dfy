/** The mail object exchanged with the microcontroller: a 16-bit kind and a byte body. */
module Mails {
  import opened MachineWords

  /** The kinds of mail that the driver itself tells apart. */
  const MSG_INIT: u16 := 0
  const MSG_CREATE_CHANNEL: u16 := 5
  const MSG_DESTROY_CHANNEL: u16 := 6
  const MSG_ENCODE_ONE_FRM: u16 := 7
  const MSG_DECODE_ONE_FRM: u16 := 8
  const MSG_SEARCH_START_CODE: u16 := 9
  const MSG_QUIET_DESTROY_CHANNEL: u16 := 10
  const MSG_PUSH_BUFFER_INTERMEDIATE: u16 := 14
  const MSG_PUSH_BUFFER_REFERENCE: u16 := 15
  const MSG_GET_RECONSTRUCTED_PICTURE: u16 := 16
  const MSG_RELEASE_RECONSTRUCTED_PICTURE: u16 := 17
  const MSG_TRACE: u16 := 19

  datatype RawMail = RawMail(uid: u16, body: seq<u8>)

  /** The body size is a 16-bit field. */
  type Mail = m: RawMail | |m.body| < 0x1_0000 witness RawMail(0, [])

  predicate HasWord(m: Mail, i: nat)
  {
    4 * i + 4 <= |m.body|
  }

  function WordAt(m: Mail, i: nat): (w: u32)
    requires HasWord(m, i)
  {
    Value(Pack(m.body[4 * i..4 * i + 4]))
  }

  /** The mail at the far end of a ring: trailing bytes that make no word arrive as zeros. */
  function Delivered(m: Mail): (d: Mail)
  {
    RawMail(m.uid, WordCopied(m.body))
  }

  function DeliveredAll(ms: seq<Mail>): (ds: seq<Mail>)
    ensures |ds| == |ms|
  {
    seq(|ms|, i requires 0 <= i < |ms| => Delivered(ms[i]))
  }

  /** A mail survives the trip unchanged exactly when the bytes after its last whole word are zero;
      whole words always survive. */
  lemma DeliveryFidelity(m: Mail)
    ensures Delivered(m) == m <==> forall i :: |m.body| / 4 * 4 <= i < |m.body| ==> m.body[i] == 0
    ensures |m.body| % 4 == 0 ==> Delivered(m) == m
    ensures Delivered(Delivered(m)) == Delivered(m)
    ensures forall i: nat :: HasWord(m, i) ==> HasWord(Delivered(m), i) && WordAt(Delivered(m), i) == WordAt(m, i)
  {
    WordCopiedIdentity(m.body);
    forall i: nat | HasWord(m, i)
      ensures WordAt(Delivered(m), i) == WordAt(m, i)
    {
      assert Delivered(m).body[4 * i..4 * i + 4] == m.body[4 * i..4 * i + 4];
    }
  }

  /** The channel a mail speaks of, or all ones for the kinds that name no channel. */
  function ChanUidOf(m: Mail): (chan: u32)
    requires m.uid !in {MSG_INIT, MSG_SEARCH_START_CODE, MSG_TRACE} ==> HasWord(m, 0)
  {
    if m.uid == MSG_INIT || m.uid == MSG_SEARCH_START_CODE || m.uid == MSG_TRACE then 0xFFFF_FFFF
    else WordAt(m, 0)
  }

  /** The mail under construction: a body filled from front to back. */
  class MailBuffer {
    var bodyOffset: nat
    const msgUid: u16
    const bodySize: u16
    const body: array<u8>

    ghost predicate Valid()
      reads this
    {
      bodySize <= body.Length && bodyOffset <= body.Length
    }

    ghost function Written(): seq<u8>
      requires Valid()
      reads this, body
    {
      body[..bodyOffset]
    }

    /** Both the kind and the size are cut to 16 bits, the storage is not. */
    constructor (uid: u32, contentSize: u32)
      ensures Valid() && fresh(body)
      ensures msgUid == uid % 0x1_0000 && bodySize == contentSize % 0x1_0000
      ensures body.Length == contentSize && bodyOffset == 0
    {
      bodyOffset := 0;
      msgUid := uid % 0x1_0000;
      bodySize := contentSize % 0x1_0000;
      body := new u8[contentSize];
    }

    method Write(content: seq<u8>)
      requires Valid()
      requires bodyOffset + |content| <= body.Length
      modifies this, body
      ensures Valid()
      ensures Written() == old(Written()) + content
      ensures bodyOffset == old(bodyOffset) + |content|
    {
      forall i | 0 <= i < |content| {
        body[bodyOffset + i] := content[i];
      }
      bodyOffset := bodyOffset + |content|;
    }

    method WriteWord(word: u32)
      requires Valid()
      requires bodyOffset + 4 <= body.Length
      modifies this, body
      ensures Valid()
      ensures Written() == old(Written()) + Unpack(WordFor(word))
      ensures Written()
           == old(Written()) + [word % 0x100, word / 0x100 % 0x100, word / 0x1_0000 % 0x100, word / 0x100_0000]
      ensures bodyOffset == old(bodyOffset) + 4
    {
      Write(Unpack(WordFor(word)));
    }

    /** The mail that a reader of this object sees. */
    method Seal() returns (m: Mail)
      requires Valid()
      ensures m == RawMail(msgUid, body[..bodySize])
      ensures bodySize == body.Length % 0x1_0000 ==> m == Shown(msgUid, body[..])
    {
      m := RawMail(msgUid, body[..bodySize]);
    }
  }

  /** The mail that a full storage shows: no more of it than the 16-bit size says. */
  function Shown(uid: u16, storage: seq<u8>): (m: Mail)
    ensures |storage| < 0x1_0000 ==> m.body == storage
  {
    RawMail(uid, storage[..|storage| % 0x1_0000])
  }

  /** The mail built from a channel or user id followed by a payload. */
  function Addressed(sender: u32, uid: u16, payload: seq<u8>): (m: Mail)
    ensures m.uid == uid
    ensures 4 + |payload| < 0x1_0000 ==>
      HasWord(m, 0) && WordAt(m, 0) == sender && m.body[4..] == payload
  {
    ValueRoundTrip(sender, WordFor(sender));
    var bytes := Unpack(WordFor(sender)) + payload;
    assert bytes[0..4] == Unpack(WordFor(sender));
    Shown(uid, bytes)
  }

  method CreateClassicMail(sender: u32, uid: u16, payload: seq<u8>) returns (m: Mail)
    requires 4 + |payload| < 0x1_0000_0000
    ensures m == Addressed(sender, uid, payload)
    ensures |m.body| == (4 + |payload|) % 0x1_0000
    ensures m.body <= Unpack(WordFor(sender)) + payload
  {
    var buffer := new MailBuffer(uid, 4 + |payload|);
    buffer.WriteWord(sender);
    buffer.Write(payload);
    assert buffer.body[..] == buffer.Written();
    m := buffer.Seal();
  }

  method CreateEmptyMail(sender: u32, uid: u16) returns (m: Mail)
    ensures m == Addressed(sender, uid, [])
  {
    var buffer := new MailBuffer(uid, 4);
    buffer.WriteWord(sender);
    assert buffer.body[..] == buffer.Written();
    m := buffer.Seal();
  }
}
