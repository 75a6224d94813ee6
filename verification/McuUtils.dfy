/** Copies between byte buffers and the microcontroller's memory, which only answers
    aligned 32-bit accesses. */
module McuUtils {
  import opened MachineWords

  /** Stores the whole words of `src` from byte `offset` on, that is from word `at` on. */
  method MemcpyToIo32(dst: array<Word>, offset: nat, src: seq<u8>, ghost at: nat)
    requires offset == 4 * at && at + |WordsOf(src)| <= dst.Length
    modifies dst
    ensures forall p :: 0 <= p < dst.Length ==>
      dst[p] == if at <= p < at + |WordsOf(src)| then WordsOf(src)[p - at] else old(dst[p])
  {
    var i := 0;
    while i < |src| / 4
      invariant 0 <= i <= |WordsOf(src)|
      invariant forall p :: 0 <= p < dst.Length ==>
        dst[p] == if at <= p < at + i then WordsOf(src)[p - at] else old(dst[p])
    {
      dst[offset / 4 + i] := Pack(src[4 * i..4 * i + 4]);
      i := i + 1;
    }
  }

  /** Loads `size` bytes' worth of whole words from byte `srcOffset`, that is from word `srcAt`, on;
      the last size % 4 bytes of `dst` are left alone. */
  method MemcpyFromIo32(dst: array<u8>, at: nat, src: array<Word>, srcOffset: nat, size: nat, ghost srcAt: nat)
    requires srcOffset == 4 * srcAt && srcAt + size / 4 <= src.Length
    requires at + size <= dst.Length
    modifies dst
    ensures
      var bytes := BytesOf(src[..][srcAt..srcAt + size / 4]);
      forall p :: 0 <= p < dst.Length ==> dst[p] == if at <= p < at + |bytes| then bytes[p - at] else old(dst[p])
  {
    ghost var bytes := BytesOf(src[..][srcAt..srcAt + size / 4]);
    var i := 0;
    while i < size / 4
      invariant 0 <= i <= size / 4
      invariant forall p :: 0 <= p < dst.Length ==>
        dst[p] == if at <= p < at + 4 * i then bytes[p - at] else old(dst[p])
    {
      StoreWord(dst, at + 4 * i, src[srcOffset / 4 + i]);
      i := i + 1;
    }
  }

  method StoreWord(dst: array<u8>, at: nat, w: Word)
    requires at + 4 <= dst.Length
    modifies dst
    ensures forall p :: 0 <= p < dst.Length ==>
      dst[p] == if at <= p < at + 4 then Unpack(w)[p - at] else old(dst[p])
  {
    dst[at], dst[at + 1], dst[at + 2], dst[at + 3] := w.b0, w.b1, w.b2, w.b3;
  }
}
