/**
 * Turning a counted run of characters into a NUL-terminated C string:
 * the bounded copy `strncpy`, the panicking allocator and the two
 * conversion routines, the emulator's own (which reads one byte past the
 * run) and the one the shared code uses (which does not).
 */
module CStrings {
  import opened Wrappers
  import Strings

  /** `strncpy(dst, src, n)` only reads `src` up to its first NUL or its `n`-th byte. */
  predicate Readable(src: seq<char>, n: nat)
  {
    n <= |src| || Strings.Nul in src
  }

  /** How many characters `strncpy(dst, src, n)` copies before it starts zero-filling. */
  function CopyLen(src: seq<char>, n: nat): (k: nat)
    requires Readable(src, n)
    ensures k <= n && k <= |src|
    ensures Strings.NoNul(src[..k])
    ensures k < n ==> src[k] == Strings.Nul
    decreases n
  {
    if n == 0 || src[0] == Strings.Nul then 0
    else
      assert Readable(src[1..], n - 1) by {
        if n > |src| {
          var j :| 0 <= j < |src| && src[j] == Strings.Nul;
          assert src[1..][j - 1] == Strings.Nul;
        }
      }
      var k := CopyLen(src[1..], n - 1);
      assert src[..k + 1] == [src[0]] + src[1..][..k];
      1 + k
  }

  /** The `n` bytes `strncpy` stores: the characters before the first NUL, then zeros up to `n`. */
  function Strncpy(src: seq<char>, n: nat): (r: seq<char>)
    requires Readable(src, n)
    ensures |r| == n
  {
    var k := CopyLen(src, n);
    src[..k] + Strings.Zeros(n - k)
  }

  /** The text a C reader finds in a buffer: everything before its first NUL, or nothing without one. */
  function CText(a: seq<char>): (r: Option<seq<char>>)
    ensures r.Some? <==> Strings.Nul in a
    ensures r.Some? ==> |r.value| < |a| && Strings.NoNul(r.value) && a[|r.value|] == Strings.Nul && a[..|r.value|] == r.value
  {
    if |a| == 0 then None
    else if a[0] == Strings.Nul then Some([])
    else
      var t := CText(a[1..]);
      if t.None? then None
      else
        assert a[..1 + |t.value|] == [a[0]] + t.value;
        Some([a[0]] + t.value)
  }

  /** The conversion as the emulator writes it: no room is left for the terminator when the byte after the run is NUL. */
  function ToCStringAsWrittenSpec(data: seq<char>, size: nat): seq<char>
    requires size < |data|
  {
    if data[size] == Strings.Nul then Strncpy(data, size) else Strncpy(data, size) + [Strings.Nul]
  }

  /** The conversion as intended, and as the shared code does it: `size` copied bytes and a terminator. */
  function ToCStringSpec(data: seq<char>, size: nat): seq<char>
    requires Readable(data, size)
  {
    Strncpy(data, size) + [Strings.Nul]
  }

  /**
   * The copy takes the characters of `src` before its first NUL, at most
   * `n` of them, and pads with zeros: the copy reads as that text exactly
   * when it stopped at a NUL before `n`.
   */
  lemma StrncpyCopies(src: seq<char>, n: nat)
    requires Readable(src, n)
    ensures var k := CopyLen(src, n);
      Strncpy(src, n)[..k] == src[..k] && (forall i :: k <= i < n ==> Strncpy(src, n)[i] == Strings.Nul)
    ensures CopyLen(src, n) < n ==> CText(Strncpy(src, n)) == Some(src[..CopyLen(src, n)])
    ensures CopyLen(src, n) == n ==> CText(Strncpy(src, n)) == None
  {
    var k := CopyLen(src, n);
    var r := Strncpy(src, n);
    assert r[..k] == src[..k];
    if k < n {
      assert r[k] == Strings.Nul;
      CTextOf(r, k);
    } else {
      assert r == src[..n];
      assert Strings.Nul !in r by {
        assert Strings.NoNul(r);
      }
    }
  }

  /** A buffer whose first NUL is at `k` reads as its first `k` characters. */
  lemma {:induction false} CTextOf(a: seq<char>, k: nat)
    requires k < |a| && a[k] == Strings.Nul && Strings.NoNul(a[..k])
    ensures CText(a) == Some(a[..k])
    decreases k
  {
    if k > 0 {
      assert a[0] == a[..k][0];
      assert Strings.NoNul(a[1..][..k - 1]) by {
        assert a[1..][..k - 1] == a[..k][1..];
      }
      CTextOf(a[1..], k - 1);
      assert a[..k] == [a[0]] + a[1..][..k - 1];
    }
  }

  /**
   * The intended conversion gives `size + 1` bytes whose last one is the
   * terminator, and reads back as `data` up to its first NUL, cut at `size`.
   */
  lemma ToCStringTerminated(data: seq<char>, size: nat)
    requires Readable(data, size)
    ensures |ToCStringSpec(data, size)| == size + 1 && ToCStringSpec(data, size)[size] == Strings.Nul
    ensures ToCStringSpec(data, size)[..size] == Strncpy(data, size)
    ensures CText(ToCStringSpec(data, size)) == Some(data[..CopyLen(data, size)])
  {
    var r := ToCStringSpec(data, size);
    var k := CopyLen(data, size);
    StrncpyCopies(data, size);
    assert r[..size] == Strncpy(data, size);
    assert r[..k] == data[..k];
    assert r[k] == Strings.Nul;
    CTextOf(r, k);
  }

  /**
   * The emulator's conversion agrees with the intended one when the byte
   * after the run is not NUL, and otherwise drops the terminator.
   */
  lemma ToCStringAsWrittenDiffers(data: seq<char>, size: nat)
    requires size < |data|
    ensures data[size] != Strings.Nul ==> ToCStringAsWrittenSpec(data, size) == ToCStringSpec(data, size)
    ensures data[size] == Strings.Nul ==> ToCStringAsWrittenSpec(data, size) == ToCStringSpec(data, size)[..size]
  {
  }

  /** "ab" followed by a NUL, converted with size 2, gives the two bytes "ab" and no terminator. */
  lemma ToCStringAsWrittenUnterminated()
    ensures ToCStringAsWrittenSpec("ab\0", 2) == "ab"
    ensures CText(ToCStringAsWrittenSpec("ab\0", 2)) == None
  {
    var data := "ab\0";
    assert data[..2] == "ab";
    assert Strings.NoNul("ab");
    assert Strncpy(data, 2) == "ab";
  }

  /** The failure of the allocator: `size` bytes could not be had. */
  datatype Panic = OutOfMemory(size: nat)

  /**
   * `must_alloc`: zeroed memory of `size` bytes, or a panic. Whether the
   * allocator has the memory is not decided here: `available` says.
   */
  method MustAlloc(size: nat, available: bool) returns (res: Result<array<char>, Panic>)
    ensures res.Ok? <==> available
    ensures res.Err? ==> res.error == OutOfMemory(size)
    ensures res.Ok? ==> fresh(res.value) && res.value[..] == Strings.Zeros(size)
  {
    if !available {
      return Err(OutOfMemory(size));
    }
    var ptr := new char[size](_ => Strings.Nul);
    return Ok(ptr);
  }

  /** `strncpy(dst, src, n)`: the first `n` bytes of `dst` become the bounded copy, the rest is kept. */
  method StrncpyInto(dst: array<char>, src: seq<char>, n: nat)
    requires n <= dst.Length && Readable(src, n)
    modifies dst
    ensures dst[..] == Strncpy(src, n) + old(dst[..])[n..]
  {
    var k := CopyLen(src, n);
    assert forall j :: 0 <= j < k ==> src[j] != Strings.Nul by {
      forall j | 0 <= j < k
        ensures src[j] != Strings.Nul
      {
        assert src[..k][j] == src[j];
      }
    }
    var i := 0;
    while i < n && src[i] != Strings.Nul
      invariant 0 <= i <= k
      invariant forall j :: 0 <= j < i ==> dst[j] == src[j]
      invariant forall j :: i <= j < dst.Length ==> dst[j] == old(dst[j])
    {
      dst[i] := src[i];
      i := i + 1;
    }
    while i < n
      invariant k <= i <= n
      invariant forall j :: 0 <= j < k ==> dst[j] == src[j]
      invariant forall j :: k <= j < i ==> dst[j] == Strings.Nul
      invariant forall j :: i <= j < dst.Length ==> dst[j] == old(dst[j])
    {
      dst[i] := Strings.Nul;
      i := i + 1;
    }
    assert dst[..] == Strncpy(src, n) + old(dst[..])[n..] by {
      var r := Strncpy(src, n) + old(dst[..])[n..];
      assert forall j :: 0 <= j < k ==> r[j] == src[j];
      assert forall j :: k <= j < n ==> r[j] == Strings.Nul;
      assert forall j :: n <= j < dst.Length ==> r[j] == old(dst[j]);
    }
  }

  /**
   * The emulator's conversion: it looks at the byte after the run, then
   * allocates either `size` or `size + 1` bytes and copies into them.
   */
  method ToCStringAsWritten(data: seq<char>, size: nat, available: bool) returns (res: Result<array<char>, Panic>)
    requires size < |data|
    ensures res.Ok? <==> available
    ensures res.Ok? ==> fresh(res.value) && res.value[..] == ToCStringAsWrittenSpec(data, size)
  {
    if data[size] == Strings.Nul {
      res := MustAlloc(size, available);
      if res.Err? {
        return;
      }
      StrncpyInto(res.value, data, size);
    } else {
      res := MustAlloc(size + 1, available);
      if res.Err? {
        return;
      }
      StrncpyInto(res.value, data, size);
      res.value[size] := Strings.Nul;
    }
  }

  /** The conversion with room for the terminator in both cases. */
  method ToCString(data: seq<char>, size: nat, available: bool) returns (res: Result<array<char>, Panic>)
    requires Readable(data, size)
    ensures res.Ok? <==> available
    ensures res.Ok? ==> fresh(res.value) && res.value[..] == ToCStringSpec(data, size)
  {
    res := MustAlloc(size + 1, available);
    if res.Err? {
      return;
    }
    StrncpyInto(res.value, data, size);
  }

  /**
   * The shared code's conversion: `size + 1` fresh bytes, the bounded
   * copy and a terminator; it never looks at the byte after the run.
   */
  method SharedToCString(data: seq<char>, size: nat) returns (str: array<char>)
    requires Readable(data, size)
    ensures fresh(str) && str[..] == ToCStringSpec(data, size)
  {
    str := new char[size + 1];
    StrncpyInto(str, data, size);
    str[size] := Strings.Nul;
  }
}
