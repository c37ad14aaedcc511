/**
 * The growable string: a character buffer `ptr` of capacity `cap` whose
 * first `len` characters are the contents, followed by a terminating NUL.
 * The program passes the string by value and reassigns the result of
 * every call, so the model is an object whose buffer and length the
 * operations update; `StrVal` is its value, on which the functions say
 * what each operation does.
 */
module Strings {
  const Nul: char := '\0'

  /** A C string's characters: no NUL among them. */
  predicate NoNul(s: seq<char>)
  {
    forall i :: 0 <= i < |s| ==> s[i] != Nul
  }

  /** The whole buffer, whose length is the capacity, and the length of the contents. */
  datatype StrVal = StrVal(bytes: seq<char>, len: nat)

  /** The representation invariant: the contents fit and are terminated. */
  predicate Valid(v: StrVal)
  {
    v.len < |v.bytes| && v.bytes[v.len] == Nul
  }

  function Contents(v: StrVal): seq<char>
    requires v.len <= |v.bytes|
  {
    v.bytes[..v.len]
  }

  function Zeros(n: nat): (z: seq<char>)
    ensures |z| == n
  {
    seq(n, _ => Nul)
  }

  /**
   * Room for `newlen` characters and the terminator.  The reallocation
   * keeps the old buffer as the prefix of the new one; the added bytes are
   * taken to be zero.
   */
  function GrowSpec(v: StrVal, newlen: nat): (r: StrVal)
    ensures r.len == v.len && |r.bytes| >= newlen + 1 && |r.bytes| >= |v.bytes|
  {
    if newlen + 1 <= |v.bytes| then v else StrVal(v.bytes + Zeros(newlen + 1 - |v.bytes|), v.len)
  }

  function NewSizeSpec(size: nat): StrVal
  {
    StrVal(Zeros(size + 1), 0)
  }

  function NewFromSpec(from: seq<char>): StrVal
  {
    StrVal(from + [Nul], |from|)
  }

  function FreeSpec(): StrVal
  {
    StrVal([], 0)
  }

  /** The clone as the program makes it: the bytes are copied but the length is left 0. */
  function CloneAsWrittenSpec(v: StrVal): StrVal
    requires Valid(v)
  {
    StrVal(v.bytes[..v.len + 1], 0)
  }

  /** The clone as intended: a buffer of exactly `len + 1` bytes with the same contents and length. */
  function CloneSpec(v: StrVal): StrVal
    requires Valid(v)
  {
    StrVal(v.bytes[..v.len + 1], v.len)
  }

  /** A text padded on the right with `c` to at least `n` characters. */
  function PadText(s: seq<char>, n: nat, c: char): (r: seq<char>)
    ensures |r| == if |s| < n then n else |s|
    ensures r[..|s|] == s
    ensures forall i :: |s| <= i < |r| ==> r[i] == c
  {
    if |s| < n then s + seq(n - |s|, _ => c) else s
  }

  function PadSpec(v: StrVal, n: nat, pad: char): StrVal
    requires Valid(v)
  {
    if v.len < n then
      var g := GrowSpec(v, n);
      StrVal(g.bytes[..v.len] + seq(n - v.len, _ => pad) + [Nul] + g.bytes[n + 1..], n)
    else v
  }

  function AddSpec(v: StrVal, add: seq<char>): StrVal
    requires Valid(v)
  {
    var newlen := v.len + |add|;
    var g := GrowSpec(v, newlen);
    StrVal(g.bytes[..v.len] + add + [Nul] + g.bytes[newlen + 1..], newlen)
  }

  function AddcSpec(v: StrVal, c: char): StrVal
    requires Valid(v)
  {
    var g := GrowSpec(v, v.len + 1);
    StrVal(g.bytes[v.len := c][v.len + 1 := Nul], v.len + 1)
  }

  function TruncSpec(v: StrVal, n: nat): StrVal
    requires Valid(v)
  {
    if v.len > n then StrVal(v.bytes[n := Nul], n) else v
  }

  /** Growing keeps the contents and the invariant, and does nothing when the capacity suffices. */
  lemma GrowKeepsContents(v: StrVal, newlen: nat)
    requires Valid(v)
    ensures Valid(GrowSpec(v, newlen)) && Contents(GrowSpec(v, newlen)) == Contents(v)
    ensures GrowSpec(v, newlen).bytes[..|v.bytes|] == v.bytes
    ensures newlen + 1 <= |v.bytes| ==> GrowSpec(v, newlen) == v
  {
    var r := GrowSpec(v, newlen);
    if newlen + 1 > |v.bytes| {
      assert r.bytes[..|v.bytes|] == v.bytes;
      assert r.bytes[v.len] == v.bytes[v.len];
      assert r.bytes[..v.len] == r.bytes[..|v.bytes|][..v.len];
    }
  }

  /** A new string is empty with room for `size` characters. */
  lemma NewSizeEmpty(size: nat)
    ensures Valid(NewSizeSpec(size)) && Contents(NewSizeSpec(size)) == []
    ensures |NewSizeSpec(size).bytes| == size + 1
  {
  }

  /** A string made from a C string holds exactly its characters. */
  lemma NewFromContents(from: seq<char>)
    ensures Valid(NewFromSpec(from)) && Contents(NewFromSpec(from)) == from
    ensures |NewFromSpec(from).bytes| == |from| + 1
  {
    assert (from + [Nul])[..|from|] == from;
  }

  /** The clone the program makes is empty whenever the original is not. */
  lemma CloneAsWrittenLosesContents(v: StrVal)
    requires Valid(v) && v.len > 0
    ensures Contents(CloneAsWrittenSpec(v)) == [] != Contents(v)
  {
  }

  lemma CloneAsWrittenExample()
    ensures Contents(CloneAsWrittenSpec(StrVal(['a', Nul], 1))) != ['a']
  {
  }

  /** The intended clone has the same contents, is valid, and is exactly as large as it needs to be. */
  lemma CloneKeepsContents(v: StrVal)
    requires Valid(v)
    ensures Valid(CloneSpec(v)) && Contents(CloneSpec(v)) == Contents(v)
    ensures |CloneSpec(v).bytes| == v.len + 1
  {
    assert v.bytes[..v.len + 1][..v.len] == v.bytes[..v.len];
  }

  /** Padding to `n` appends `n - len` pad characters when the string is shorter, and is idempotent. */
  lemma PadContents(v: StrVal, n: nat, pad: char)
    requires Valid(v)
    ensures Valid(PadSpec(v, n, pad))
    ensures v.len < n ==> Contents(PadSpec(v, n, pad)) == Contents(v) + seq(n - v.len, _ => pad)
    ensures Contents(PadSpec(v, n, pad)) == PadText(Contents(v), n, pad)
    ensures v.len >= n ==> PadSpec(v, n, pad) == v
    ensures PadSpec(PadSpec(v, n, pad), n, pad) == PadSpec(v, n, pad)
  {
    if v.len < n {
      var g := GrowSpec(v, n);
      GrowKeepsContents(v, n);
      var r := PadSpec(v, n, pad);
      var fill := seq(n - v.len, _ => pad);
      assert r.bytes == g.bytes[..v.len] + fill + [Nul] + g.bytes[n + 1..];
      assert r.bytes[..n] == g.bytes[..v.len] + fill;
      assert g.bytes[..v.len] == Contents(v);
      assert r.bytes[n] == Nul;
    }
  }

  /** Appending a C string extends the contents by exactly its characters. */
  lemma AddContents(v: StrVal, add: seq<char>)
    requires Valid(v)
    ensures Valid(AddSpec(v, add)) && Contents(AddSpec(v, add)) == Contents(v) + add
    ensures AddSpec(v, add).len == v.len + |add|
  {
    var newlen := v.len + |add|;
    var g := GrowSpec(v, newlen);
    GrowKeepsContents(v, newlen);
    var r := AddSpec(v, add);
    assert r.bytes == g.bytes[..v.len] + add + [Nul] + g.bytes[newlen + 1..];
    assert r.bytes[..newlen] == g.bytes[..v.len] + add;
    assert r.bytes[newlen] == Nul;
  }

  /** Appending a character extends the contents by exactly that character. */
  lemma AddcContents(v: StrVal, c: char)
    requires Valid(v)
    ensures Valid(AddcSpec(v, c)) && Contents(AddcSpec(v, c)) == Contents(v) + [c]
  {
    var g := GrowSpec(v, v.len + 1);
    GrowKeepsContents(v, v.len + 1);
    var r := AddcSpec(v, c);
    assert r.bytes[..v.len + 1] == g.bytes[..v.len] + [c];
  }

  /** Truncation keeps the first min(len, n) characters. */
  lemma TruncContents(v: StrVal, n: nat)
    requires Valid(v)
    ensures Valid(TruncSpec(v, n))
    ensures Contents(TruncSpec(v, n)) == Contents(v)[..if v.len < n then v.len else n]
  {
    if v.len > n {
      assert v.bytes[n := Nul][..n] == v.bytes[..n];
    }
  }

  /** `memcpy` of `src` into `dst` at offset `at`. */
  method CopyInto(dst: array<char>, at: nat, src: seq<char>)
    requires at + |src| <= dst.Length
    modifies dst
    ensures dst[..] == old(dst[..])[..at] + src + old(dst[..])[at + |src|..]
  {
    var i := 0;
    while i < |src|
      invariant 0 <= i <= |src|
      invariant forall k :: 0 <= k < dst.Length ==> dst[k] == if at <= k < at + i then src[k - at] else old(dst[k])
    {
      dst[at + i] := src[i];
      i := i + 1;
    }
    assert dst[..] == old(dst[..])[..at] + src + old(dst[..])[at + |src|..];
  }

  /** `memset` of `dst[from..to]` to `c`. */
  method FillRange(dst: array<char>, from: nat, to: nat, c: char)
    requires from <= to <= dst.Length
    modifies dst
    ensures dst[..] == old(dst[..])[..from] + seq(to - from, _ => c) + old(dst[..])[to..]
  {
    var i := from;
    while i < to
      invariant from <= i <= to
      invariant forall k :: 0 <= k < dst.Length ==> dst[k] == if from <= k < i then c else old(dst[k])
    {
      dst[i] := c;
      i := i + 1;
    }
    assert dst[..] == old(dst[..])[..from] + seq(to - from, _ => c) + old(dst[..])[to..];
  }

  class Str {
    var buf: array<char>
    var len: nat

    function Value(): StrVal
      reads this, buf
    {
      StrVal(buf[..], len)
    }

    constructor NewSize(size: nat)
      ensures fresh(buf) && Value() == NewSizeSpec(size)
    {
      buf := new char[size + 1](_ => Nul);
      len := 0;
    }

    /** A string holding the C string `from`. */
    constructor NewFrom(from: seq<char>)
      ensures fresh(buf) && Value() == NewFromSpec(from)
    {
      buf := new char[|from| + 1](_ => Nul);
      len := 0;
      new;
      CopyInto(buf, 0, from + [Nul]);
      len := |from|;
    }

    /** Releases the buffer: no capacity and no contents. */
    method Free()
      modifies this
      ensures Value() == FreeSpec()
    {
      buf := new char[0];
      len := 0;
    }

    method Grow(newlen: nat)
      modifies this
      ensures Value() == GrowSpec(old(Value()), newlen)
      ensures newlen + 1 <= old(buf.Length) ==> buf == old(buf)
      ensures newlen + 1 > old(buf.Length) ==> fresh(buf)
    {
      var newcap := newlen + 1;
      if newcap <= buf.Length {
        return;
      }
      var grown := new char[newcap](_ => Nul);
      CopyInto(grown, 0, buf[..]);
      assert grown[..] == buf[..] + Zeros(newcap - buf.Length);
      buf := grown;
    }

    /** The clone as the program makes it, with its length left 0. */
    method CloneAsWritten() returns (c: Str)
      requires Valid(Value())
      ensures fresh(c) && fresh(c.buf) && c.Value() == CloneAsWrittenSpec(Value())
    {
      c := new Str.NewSize(len);
      CopyInto(c.buf, 0, buf[..len + 1]);
    }

    /** The clone with its length set. */
    method Clone() returns (c: Str)
      requires Valid(Value())
      ensures fresh(c) && fresh(c.buf) && c.Value() == CloneSpec(Value())
    {
      c := new Str.NewSize(len);
      CopyInto(c.buf, 0, buf[..len + 1]);
      c.len := len;
    }

    method Pad(n: nat, pad: char)
      requires Valid(Value())
      modifies this, buf
      ensures Value() == PadSpec(old(Value()), n, pad)
    {
      if len < n {
        Grow(n);
        FillRange(buf, len, n, pad);
        buf[n] := Nul;
        ghost var g := GrowSpec(old(Value()), n);
        assert buf[..] == g.bytes[..len] + seq(n - len, _ => pad) + [Nul] + g.bytes[n + 1..];
        len := n;
      }
    }

    /** Appends the C string `add`. */
    method Add(add: seq<char>)
      requires Valid(Value())
      modifies this, buf
      ensures Value() == AddSpec(old(Value()), add)
    {
      var newlen := len + |add|;
      Grow(newlen);
      CopyInto(buf, len, add + [Nul]);
      len := newlen;
    }

    method Addc(c: char)
      requires Valid(Value())
      modifies this, buf
      ensures Value() == AddcSpec(old(Value()), c)
    {
      var newlen := len + 1;
      Grow(newlen);
      buf[len] := c;
      buf[len + 1] := Nul;
      len := newlen;
    }

    method Trunc(n: nat)
      requires Valid(Value())
      modifies this, buf
      ensures Value() == TruncSpec(old(Value()), n)
    {
      if len > n {
        buf[n] := Nul;
        len := n;
      }
    }
  }
}
