/**
 * The fixed-size string buffer: a character buffer `str` of capacity `cap`
 * (its length) and a write position `pos`.  Unlike the growable string it
 * never reallocates: an operation that would not leave room for the
 * terminator panics.  `StrbufVal` is the buffer's value, on which the
 * functions say what each operation does; a panic is an `Err`.
 */
module Strbufs {
  import opened Wrappers
  import Strings

  /** The whole buffer, whose length is the capacity, and the write position. */
  datatype StrbufVal = StrbufVal(bytes: seq<char>, pos: nat)

  /** The panic of the capacity check: `need` bytes were needed, `cap` are there. */
  datatype Fault = TooShort(need: nat, cap: nat)

  /** The representation invariant: the text up to `pos` is terminated. */
  predicate Valid(v: StrbufVal)
  {
    v.pos < |v.bytes| && v.bytes[v.pos] == Strings.Nul
  }

  function Contents(v: StrbufVal): seq<char>
    requires v.pos <= |v.bytes|
  {
    v.bytes[..v.pos]
  }

  /** The capacity check: a position is acceptable only with room for it and one byte more after the terminator. */
  function CheckSpec(v: StrbufVal, newpos: nat): (res: Result<(), Fault>)
    ensures res.Ok? <==> newpos + 1 < |v.bytes|
    ensures res.Err? ==> res.error == TooShort(newpos + 1, |v.bytes|)
  {
    if newpos + 1 >= |v.bytes| then Err(TooShort(newpos + 1, |v.bytes|)) else Ok(())
  }

  /** A new buffer of `size` bytes, taken to be zeroed by the allocator. */
  function NewSpec(size: nat): StrbufVal
  {
    StrbufVal(Strings.Zeros(size), 0)
  }

  function FreeSpec(): StrbufVal
  {
    StrbufVal([], 0)
  }

  /** The bytes after `memset(str + pos, pad, len - pos)`. */
  function Filled(v: StrbufVal, len: nat, pad: char): (r: seq<char>)
    requires v.pos <= len <= |v.bytes|
    ensures |r| == |v.bytes|
  {
    v.bytes[..v.pos] + seq(len - v.pos, _ => pad) + v.bytes[len..]
  }

  /** Padding as the program does it: the terminator is stored one byte past the padding. */
  function PadAsWrittenSpec(v: StrbufVal, len: nat, pad: char): Result<StrbufVal, Fault>
  {
    if v.pos < len then
      var _ :- CheckSpec(v, len);
      Ok(StrbufVal(Filled(v, len, pad)[len + 1 := Strings.Nul], len))
    else Ok(v)
  }

  /** Padding as intended: the terminator is stored right after the padding. */
  function PadSpec(v: StrbufVal, len: nat, pad: char): Result<StrbufVal, Fault>
  {
    if v.pos < len then
      var _ :- CheckSpec(v, len);
      Ok(StrbufVal(Filled(v, len, pad)[len := Strings.Nul], len))
    else Ok(v)
  }

  /** Appending the C string `s`, with its terminator. */
  function AddSpec(v: StrbufVal, s: seq<char>): Result<StrbufVal, Fault>
  {
    var newpos := v.pos + |s|;
    var _ :- CheckSpec(v, newpos);
    Ok(StrbufVal(v.bytes[..v.pos] + s + [Strings.Nul] + v.bytes[newpos + 1..], newpos))
  }

  /** Emptying the buffer; it must have a first byte to store the terminator in. */
  function ClearSpec(v: StrbufVal): StrbufVal
    requires |v.bytes| > 0
  {
    StrbufVal(v.bytes[0 := Strings.Nul], 0)
  }

  /** A new buffer has its capacity and writes from the start. */
  lemma NewEmpty(size: nat)
    ensures |NewSpec(size).bytes| == size && Contents(NewSpec(size)) == []
    ensures size > 0 ==> Valid(NewSpec(size))
  {
  }

  /**
   * Appending panics exactly when the text and its terminator would not
   * leave a spare byte; otherwise the text is extended by `s`, the
   * invariant holds, the capacity is kept and the position stays below
   * the capacity with a byte to spare.
   */
  lemma AddContents(v: StrbufVal, s: seq<char>)
    ensures AddSpec(v, s).Err? <==> v.pos + |s| + 1 >= |v.bytes|
    ensures AddSpec(v, s).Ok? ==>
      var r := AddSpec(v, s).value;
      Valid(r) && Contents(r) == Contents(v) + s && r.pos == v.pos + |s| &&
      r.pos + 1 < |r.bytes| && |r.bytes| == |v.bytes|
  {
    var newpos := v.pos + |s|;
    if newpos + 1 < |v.bytes| {
      var r := AddSpec(v, s).value;
      assert r.bytes == v.bytes[..v.pos] + s + [Strings.Nul] + v.bytes[newpos + 1..];
      assert r.bytes[..newpos] == v.bytes[..v.pos] + s;
      assert r.bytes[newpos] == Strings.Nul;
    }
  }

  /**
   * Padding a shorter text fills it with `len - pos` pad characters, keeps
   * it terminated and leaves a spare byte; a text already `len` long is
   * left alone.  Padding twice is padding once.
   */
  lemma PadContents(v: StrbufVal, len: nat, pad: char)
    requires Valid(v)
    ensures v.pos >= len ==> PadSpec(v, len, pad) == Ok(v)
    ensures v.pos < len ==> (PadSpec(v, len, pad).Err? <==> len + 1 >= |v.bytes|)
    ensures PadSpec(v, len, pad).Ok? ==>
      var r := PadSpec(v, len, pad).value;
      Valid(r) && Contents(r) == Strings.PadText(Contents(v), len, pad) && |r.bytes| == |v.bytes| &&
      (v.pos < len ==> r.pos == len && r.pos + 1 < |r.bytes|) &&
      PadSpec(r, len, pad) == Ok(r)
  {
    if v.pos < len && len + 1 < |v.bytes| {
      var f := Filled(v, len, pad);
      var r := PadSpec(v, len, pad).value;
      assert r.bytes == f[len := Strings.Nul];
      assert r.bytes[..len] == f[..len];
      assert f[..len] == v.bytes[..v.pos] + seq(len - v.pos, _ => pad);
    }
  }

  /** The padding the program does keeps the text and the position; only the terminator is misplaced. */
  lemma PadAsWrittenContents(v: StrbufVal, len: nat, pad: char)
    requires Valid(v)
    ensures PadAsWrittenSpec(v, len, pad).Ok? <==> PadSpec(v, len, pad).Ok?
    ensures PadAsWrittenSpec(v, len, pad).Ok? ==>
      var r := PadAsWrittenSpec(v, len, pad).value;
      Contents(r) == Strings.PadText(Contents(v), len, pad) && r.pos == PadSpec(v, len, pad).value.pos
  {
    PadContents(v, len, pad);
    if v.pos < len && len + 1 < |v.bytes| {
      var f := Filled(v, len, pad);
      var r := PadAsWrittenSpec(v, len, pad).value;
      assert r.bytes[..len] == f[..len];
      assert f[..len] == v.bytes[..v.pos] + seq(len - v.pos, _ => pad);
    }
  }

  /**
   * A buffer of five bytes that held "abc" and was cleared, padded to two
   * spaces: the byte after the padding still holds 'c', so the text read
   * up to its terminator is "  c" and the invariant is lost.
   */
  lemma PadAsWrittenLosesTerminator()
    ensures var v := ClearSpec(AddSpec(NewSpec(5), "abc").value);
      Valid(v) && AddSpec(NewSpec(5), "abc").Ok? &&
      PadAsWrittenSpec(v, 2, ' ').Ok? &&
      PadAsWrittenSpec(v, 2, ' ').value.bytes[2] == 'c' &&
      !Valid(PadAsWrittenSpec(v, 2, ' ').value)
  {
    var a := AddSpec(NewSpec(5), "abc").value;
    assert a.bytes == ['a', 'b', 'c', Strings.Nul, Strings.Nul];
    var v := ClearSpec(a);
    assert v.bytes == [Strings.Nul, 'b', 'c', Strings.Nul, Strings.Nul];
    var r := PadAsWrittenSpec(v, 2, ' ').value;
    assert r.bytes == [' ', ' ', 'c', Strings.Nul, Strings.Nul];
  }

  /** Clearing empties a valid-sized buffer and keeps its capacity. */
  lemma ClearEmpties(v: StrbufVal)
    requires |v.bytes| > 0
    ensures Valid(ClearSpec(v)) && Contents(ClearSpec(v)) == [] && |ClearSpec(v).bytes| == |v.bytes|
  {
  }

  class Strbuf {
    var str: array<char>
    var pos: nat

    function Value(): StrbufVal
      reads this, str
    {
      StrbufVal(str[..], pos)
    }

    constructor New(size: nat)
      ensures fresh(str) && Value() == NewSpec(size)
    {
      str := new char[size](_ => Strings.Nul);
      pos := 0;
    }

    /** Releases the buffer: no capacity and position 0. */
    method Free()
      modifies this
      ensures Value() == FreeSpec()
    {
      str := new char[0];
      pos := 0;
    }

    method Check(newpos: nat) returns (res: Result<(), Fault>)
      ensures res == CheckSpec(Value(), newpos)
    {
      if newpos + 1 >= str.Length {
        return Err(TooShort(newpos + 1, str.Length));
      }
      return Ok(());
    }

    /** The padding the program does; a panic leaves the buffer as it was. */
    method PadAsWritten(len: nat, pad: char) returns (res: Result<(), Fault>)
      modifies this, str
      ensures var r := PadAsWrittenSpec(old(Value()), len, pad);
        res.Ok? == r.Ok? && Value() == (if r.Ok? then r.value else old(Value())) &&
        (r.Err? ==> res.error == r.error)
    {
      if pos < len {
        res := Check(len);
        if res.Err? {
          return;
        }
        Strings.FillRange(str, pos, len, pad);
        str[len + 1] := Strings.Nul;
        pos := len;
      }
      return Ok(());
    }

    /** The padding with the terminator right after the padding. */
    method Pad(len: nat, pad: char) returns (res: Result<(), Fault>)
      modifies this, str
      ensures var r := PadSpec(old(Value()), len, pad);
        res.Ok? == r.Ok? && Value() == (if r.Ok? then r.value else old(Value())) &&
        (r.Err? ==> res.error == r.error)
    {
      if pos < len {
        res := Check(len);
        if res.Err? {
          return;
        }
        Strings.FillRange(str, pos, len, pad);
        str[len] := Strings.Nul;
        pos := len;
      }
      return Ok(());
    }

    /** Appends the C string `s`; a panic leaves the buffer as it was. */
    method Add(s: seq<char>) returns (res: Result<(), Fault>)
      modifies this, str
      ensures var r := AddSpec(old(Value()), s);
        res.Ok? == r.Ok? && Value() == (if r.Ok? then r.value else old(Value())) &&
        (r.Err? ==> res.error == r.error)
    {
      var newpos := pos + |s|;
      res := Check(newpos);
      if res.Err? {
        return;
      }
      Strings.CopyInto(str, pos, s + [Strings.Nul]);
      pos := newpos;
    }

    method Clear()
      requires str.Length > 0
      modifies this, str
      ensures Value() == ClearSpec(old(Value()))
    {
      pos := 0;
      str[0] := Strings.Nul;
    }
  }
}
