/**
 * The little-endian byte encodings the save files use: the halves of the
 * write and read routines that turn a 16-, 32- or 64-bit integer into
 * bytes and back.  The file transfer itself is left out: a write routine
 * returns the bytes it would hand to the file, a read routine receives
 * the bytes the file delivered.
 */
module Binario {
  /** Byte `i` of `x`, counting from the least significant: `(x >> 8i) & 0xFF`. */
  function ByteOf32(x: bv32, i: nat): bv8
    requires i < 4
  {
    if i == 0 then (x & 0xFF) as bv8
    else if i == 1 then ((x >> 8) & 0xFF) as bv8
    else if i == 2 then ((x >> 16) & 0xFF) as bv8
    else ((x >> 24) & 0xFF) as bv8
  }

  function ByteOf64(x: bv64, i: nat): bv8
    requires i < 8
  {
    if i == 0 then (x & 0xFF) as bv8
    else if i == 1 then ((x >> 8) & 0xFF) as bv8
    else if i == 2 then ((x >> 16) & 0xFF) as bv8
    else if i == 3 then ((x >> 24) & 0xFF) as bv8
    else if i == 4 then ((x >> 32) & 0xFF) as bv8
    else if i == 5 then ((x >> 40) & 0xFF) as bv8
    else if i == 6 then ((x >> 48) & 0xFF) as bv8
    else ((x >> 56) & 0xFF) as bv8
  }

  /** Byte `b` moved to byte place `i`: `b << 8i`. */
  function Place32(b: bv8, i: nat): bv32
    requires i < 4
  {
    if i == 0 then b as bv32
    else if i == 1 then b as bv32 << 8
    else if i == 2 then b as bv32 << 16
    else b as bv32 << 24
  }

  function Place64(b: bv8, i: nat): bv64
    requires i < 8
  {
    if i == 0 then b as bv64
    else if i == 1 then b as bv64 << 8
    else if i == 2 then b as bv64 << 16
    else if i == 3 then b as bv64 << 24
    else if i == 4 then b as bv64 << 32
    else if i == 5 then b as bv64 << 40
    else if i == 6 then b as bv64 << 48
    else b as bv64 << 56
  }

  /** The little-endian encodings. */
  function Encode16(x: bv16): (b: seq<bv8>)
    ensures |b| == 2
  {
    [(x & 0xFF) as bv8, (x >> 8) as bv8]
  }

  function Encode32(x: bv32): (b: seq<bv8>)
    ensures |b| == 4
  {
    [ByteOf32(x, 0), ByteOf32(x, 1), ByteOf32(x, 2), ByteOf32(x, 3)]
  }

  function Encode64(x: bv64): (b: seq<bv8>)
    ensures |b| == 8
  {
    [ByteOf64(x, 0), ByteOf64(x, 1), ByteOf64(x, 2), ByteOf64(x, 3),
     ByteOf64(x, 4), ByteOf64(x, 5), ByteOf64(x, 6), ByteOf64(x, 7)]
  }

  function Decode16(b: seq<bv8>): bv16
    requires |b| == 2
  {
    b[0] as bv16 | (b[1] as bv16 << 8)
  }

  /** Four bytes, least significant first, joined into one value: byte i is worth 256^i. */
  function Join32(b0: bv8, b1: bv8, b2: bv8, b3: bv8): bv32
  {
    b0 as bv32 | (b1 as bv32 << 8) | (b2 as bv32 << 16) | (b3 as bv32 << 24)
  }

  function Join64(b0: bv8, b1: bv8, b2: bv8, b3: bv8, b4: bv8, b5: bv8, b6: bv8, b7: bv8): bv64
  {
    b0 as bv64 | (b1 as bv64 << 8) | (b2 as bv64 << 16) | (b3 as bv64 << 24) |
    (b4 as bv64 << 32) | (b5 as bv64 << 40) | (b6 as bv64 << 48) | (b7 as bv64 << 56)
  }

  function Decode32(b: seq<bv8>): bv32
    requires |b| == 4
  {
    Join32(b[0], b[1], b[2], b[3])
  }

  function Decode64(b: seq<bv8>): bv64
    requires |b| == 8
  {
    Join64(b[0], b[1], b[2], b[3], b[4], b[5], b[6], b[7])
  }

  /** `acc` with bytes 0 to n-1 of `b` ORed in at their little-endian places, as the read loops accumulate them. */
  function OrBytes32(acc: bv32, b: seq<bv8>, n: nat): bv32
    requires n <= |b| && n <= 4
  {
    if n == 0 then acc else OrBytes32(acc, b, n - 1) | Place32(b[n - 1], n - 1)
  }

  function OrBytes64(acc: bv64, b: seq<bv8>, n: nat): bv64
    requires n <= |b| && n <= 8
  {
    if n == 0 then acc else OrBytes64(acc, b, n - 1) | Place64(b[n - 1], n - 1)
  }

  /** The u16 encoding decodes to its value, and every pair of bytes is the encoding of its decoding. */
  lemma RoundTrip16(x: bv16, b: seq<bv8>)
    requires |b| == 2
    ensures Decode16(Encode16(x)) == x
    ensures Encode16(Decode16(b)) == b
  {
  }

  /** The u32 encoding and decoding are inverse. */
  lemma DecodeEncode32(x: bv32)
    ensures Decode32(Encode32(x)) == x
  {
  }

  lemma EncodeDecode32(b: seq<bv8>)
    requires |b| == 4
    ensures Encode32(Decode32(b)) == b
  {
  }

  /** The u64 encoding and decoding are inverse. */
  lemma DecodeEncode64(x: bv64)
    ensures Decode64(Encode64(x)) == x
  {
  }

  lemma EncodeDecode64(b: seq<bv8>)
    requires |b| == 8
    ensures Encode64(Decode64(b)) == b
  {
    JoinSplits64(b[0], b[1], b[2], b[3], b[4], b[5], b[6], b[7]);
  }

  /** Each byte of a joined value is the byte that was joined in at its place. */
  lemma JoinSplits64(b0: bv8, b1: bv8, b2: bv8, b3: bv8, b4: bv8, b5: bv8, b6: bv8, b7: bv8)
    ensures var x := Join64(b0, b1, b2, b3, b4, b5, b6, b7);
      ByteOf64(x, 0) == b0 && ByteOf64(x, 1) == b1 && ByteOf64(x, 2) == b2 && ByteOf64(x, 3) == b3 &&
      ByteOf64(x, 4) == b4 && ByteOf64(x, 5) == b5 && ByteOf64(x, 6) == b6 && ByteOf64(x, 7) == b7
  {
  }

  /** One step of the accumulation. */
  lemma OrBytes32Step(acc: bv32, b: seq<bv8>, n: nat)
    requires 0 < n <= |b| && n <= 4
    ensures OrBytes32(acc, b, n) == OrBytes32(acc, b, n - 1) | Place32(b[n - 1], n - 1)
  {
  }

  lemma OrBytes64Step(acc: bv64, b: seq<bv8>, n: nat)
    requires 0 < n <= |b| && n <= 8
    ensures OrBytes64(acc, b, n) == OrBytes64(acc, b, n - 1) | Place64(b[n - 1], n - 1)
  {
  }

  /** ORing the placed bytes in one by one is ORing in their join. */
  lemma Assoc32(acc: bv32, c0: bv8, c1: bv8, c2: bv8, c3: bv8)
    ensures (((acc | Place32(c0, 0)) | Place32(c1, 1)) | Place32(c2, 2)) | Place32(c3, 3) == acc | Join32(c0, c1, c2, c3)
  {
  }

  lemma Assoc64(acc: bv64, c0: bv8, c1: bv8, c2: bv8, c3: bv8, c4: bv8, c5: bv8, c6: bv8, c7: bv8)
    ensures (((((((acc | Place64(c0, 0)) | Place64(c1, 1)) | Place64(c2, 2)) | Place64(c3, 3)) |
      Place64(c4, 4)) | Place64(c5, 5)) | Place64(c6, 6)) | Place64(c7, 7) == acc | Join64(c0, c1, c2, c3, c4, c5, c6, c7)
  {
  }

  /** Accumulating all four bytes into `acc` is ORing `acc` with the decoded value. */
  lemma OrBytes32Decodes(acc: bv32, b: seq<bv8>)
    requires |b| == 4
    ensures OrBytes32(acc, b, 4) == acc | Decode32(b)
  {
    OrBytes32Step(acc, b, 1);
    OrBytes32Step(acc, b, 2);
    OrBytes32Step(acc, b, 3);
    OrBytes32Step(acc, b, 4);
    Assoc32(acc, b[0], b[1], b[2], b[3]);
  }

  lemma OrBytes64Low(acc: bv64, b: seq<bv8>)
    requires |b| == 8
    ensures OrBytes64(acc, b, 4) == (((acc | Place64(b[0], 0)) | Place64(b[1], 1)) | Place64(b[2], 2)) | Place64(b[3], 3)
  {
    OrBytes64Step(acc, b, 1);
    OrBytes64Step(acc, b, 2);
    OrBytes64Step(acc, b, 3);
    OrBytes64Step(acc, b, 4);
  }

  lemma OrBytes64High(acc: bv64, b: seq<bv8>)
    requires |b| == 8
    ensures OrBytes64(acc, b, 8) ==
      (((OrBytes64(acc, b, 4) | Place64(b[4], 4)) | Place64(b[5], 5)) | Place64(b[6], 6)) | Place64(b[7], 7)
  {
    OrBytes64Step(acc, b, 5);
    OrBytes64Step(acc, b, 6);
    OrBytes64Step(acc, b, 7);
    OrBytes64Step(acc, b, 8);
  }

  /** Accumulating all eight bytes into `acc` is ORing `acc` with the decoded value. */
  lemma OrBytes64Decodes(acc: bv64, b: seq<bv8>)
    requires |b| == 8
    ensures OrBytes64(acc, b, 8) == acc | Decode64(b)
  {
    OrBytes64Low(acc, b);
    OrBytes64High(acc, b);
    Assoc64(acc, b[0], b[1], b[2], b[3], b[4], b[5], b[6], b[7]);
  }

  /** The u16 write: the value's low byte first. */
  method Write16(x: bv16) returns (bytes: seq<bv8>)
    ensures bytes == Encode16(x)
  {
    var buf := new bv8[2];
    buf[0] := ((x >> 0) & 0xFF) as bv8;
    buf[1] := ((x >> 8) & 0xFF) as bv8;
    bytes := buf[..];
  }

  method Write32(x: bv32) returns (bytes: seq<bv8>)
    ensures bytes == Encode32(x)
  {
    var buf := new bv8[4];
    for i := 0 to 4
      invariant forall k :: 0 <= k < i ==> buf[k] == ByteOf32(x, k)
    {
      buf[i] := ByteOf32(x, i);
    }
    bytes := buf[..];
  }

  /**
   * The u64 write as the program does it: the loop fills only the first
   * four of the eight bytes handed to the file; the other four are whatever
   * the buffer held before, given here as `stale`.
   */
  method Write64AsWritten(x: bv64, stale: seq<bv8>) returns (bytes: seq<bv8>)
    requires |stale| == 8
    ensures bytes == Encode64(x)[..4] + stale[4..]
  {
    var buf := new bv8[8](i requires 0 <= i < 8 => stale[i]);
    for i := 0 to 4
      invariant forall k :: 0 <= k < i ==> buf[k] == ByteOf64(x, k)
      invariant forall k :: 4 <= k < 8 ==> buf[k] == stale[k]
    {
      buf[i] := ByteOf64(x, i);
    }
    bytes := buf[..];
  }

  /** The u64 write with all eight bytes filled. */
  method Write64(x: bv64) returns (bytes: seq<bv8>)
    ensures bytes == Encode64(x)
  {
    var buf := new bv8[8];
    for i := 0 to 8
      invariant forall k :: 0 <= k < i ==> buf[k] == ByteOf64(x, k)
    {
      buf[i] := ByteOf64(x, i);
    }
    bytes := buf[..];
  }

  method Read16(bytes: seq<bv8>) returns (x: bv16)
    requires |bytes| == 2
    ensures x == Decode16(bytes)
  {
    x := (bytes[0] as bv16 << 0) | (bytes[1] as bv16 << 8);
  }

  /**
   * The u32 read as the program does it: the bytes are ORed into the
   * destination, which still holds its previous value `init`.
   */
  method Read32AsWritten(init: bv32, bytes: seq<bv8>) returns (x: bv32)
    requires |bytes| == 4
    ensures x == init | Decode32(bytes)
  {
    x := init;
    for i := 0 to 4
      invariant x == OrBytes32(init, bytes, i)
    {
      x := x | Place32(bytes[i], i);
    }
    OrBytes32Decodes(init, bytes);
  }

  /** The u32 read with the destination cleared first. */
  method Read32(bytes: seq<bv8>) returns (x: bv32)
    requires |bytes| == 4
    ensures x == Decode32(bytes)
  {
    x := 0;
    for i := 0 to 4
      invariant x == OrBytes32(0, bytes, i)
    {
      x := x | Place32(bytes[i], i);
    }
    OrBytes32Decodes(0, bytes);
  }

  /** The u64 read as the program does it, ORing into the previous value `init`. */
  method Read64AsWritten(init: bv64, bytes: seq<bv8>) returns (x: bv64)
    requires |bytes| == 8
    ensures x == init | Decode64(bytes)
  {
    x := init;
    for i := 0 to 8
      invariant x == OrBytes64(init, bytes, i)
    {
      x := x | Place64(bytes[i], i);
    }
    OrBytes64Decodes(init, bytes);
  }

  method Read64(bytes: seq<bv8>) returns (x: bv64)
    requires |bytes| == 8
    ensures x == Decode64(bytes)
  {
    x := 0;
    for i := 0 to 8
      invariant x == OrBytes64(0, bytes, i)
    {
      x := x | Place64(bytes[i], i);
    }
    OrBytes64Decodes(0, bytes);
  }

  /**
   * The u32 read the program does, given the encoding of `x`, returns `x`
   * ORed with the old value of the destination, so it is `x` only when the
   * destination started without bits outside `x` (in particular when zero).
   */
  lemma ReadAsWrittenKeepsOld(init: bv32, x: bv32)
    ensures init | Decode32(Encode32(x)) == init | x
  {
    DecodeEncode32(x);
  }

  lemma ReadAsWrittenKeepsOld64(init: bv64, x: bv64)
    ensures init | Decode64(Encode64(x)) == init | x
  {
    DecodeEncode64(x);
  }

  /** A destination holding 1 reading the encoding of 2 ends up holding 3. */
  lemma ReadAsWrittenExample()
    ensures 1 | Decode32(Encode32(2)) == 3
  {
  }

  /**
   * The u64 write the program does, with zero stale bytes and read back,
   * keeps only the low 32 bits: 2^32 comes back as 0.
   */
  lemma Write64AsWrittenTruncates(x: bv64)
    ensures Decode64(Encode64(x)[..4] + [0, 0, 0, 0]) == x & 0xFFFF_FFFF
    ensures Decode64(Encode64(0x1_0000_0000)[..4] + [0, 0, 0, 0]) == 0 != 0x1_0000_0000
  {
    var b := Encode64(x)[..4] + [0, 0, 0, 0];
    assert b[0] == ByteOf64(x, 0) && b[1] == ByteOf64(x, 1) && b[2] == ByteOf64(x, 2) && b[3] == ByteOf64(x, 3);
    assert b[4] == 0 && b[5] == 0 && b[6] == 0 && b[7] == 0;
    var b2 := Encode64(0x1_0000_0000)[..4] + [0, 0, 0, 0];
    assert b2[0] == 0 && b2[1] == 0 && b2[2] == 0 && b2[3] == 0;
    assert b2[4] == 0 && b2[5] == 0 && b2[6] == 0 && b2[7] == 0;
  }
}
