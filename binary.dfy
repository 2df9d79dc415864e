// BinaryWriter / BinaryReader as the toolkit uses them: little-endian
// integers and floats, one-byte booleans, strings one byte per character.
module Binary {
  import opened Wrappers
  import opened Machine
  import opened Float32
  import opened Text

  // ---------------------------------------------------------------- encoders

  /** The four little-endian bytes of a `uint`. */
  function U32Bytes(x: u32): (r: seq<byte>)
    ensures |r| == 4
  {
    var q1 := x / 0x100;
    var q2 := q1 / 0x100;
    var q3 := q2 / 0x100;
    [x % 0x100, q1 % 0x100, q2 % 0x100, q3]
  }

  /** BinaryWriter.Write(int): the two's-complement pattern of `x`. */
  function I32Bytes(x: int): (r: seq<byte>)
    ensures |r| == 4
  {
    U32Bytes(AsUInt32(x))
  }

  /** BinaryWriter.Write(long): the eight bytes of the two's-complement pattern. */
  function I64Bytes(x: int): (r: seq<byte>)
    ensures |r| == 8
  {
    var u := x % 0x1_0000_0000_0000_0000;
    U32Bytes(u % 0x1_0000_0000) + U32Bytes(u / 0x1_0000_0000)
  }

  /** BinaryWriter.Write(ushort). */
  function U16Bytes(x: u16): (r: seq<byte>)
    ensures |r| == 2
  {
    [x % 0x100, x / 0x100]
  }

  /** BinaryWriter.Write(float). */
  function FloatBytes(f: F32): (r: seq<byte>)
    ensures |r| == 4
  {
    U32Bytes(f.bits)
  }

  /** BinaryWriter.Write(bool): one byte, 1 for true. */
  function BoolBytes(b: bool): (r: seq<byte>)
    ensures |r| == 1
  {
    [if b then 1 else 0]
  }

  /** Encoding.Default.GetBytes for the character range the model covers: one byte per char. */
  function CharByte(c: char): byte
  {
    if (c as int) < 0x80 then c as int else '?' as int
  }

  function StringBytes(s: string): (r: seq<byte>)
    ensures |r| == |s|
  {
    if |s| == 0 then [] else StringBytes(s[..|s| - 1]) + [CharByte(s[|s| - 1])]
  }

  /** The length written as an int, then the characters. */
  function LengthPrefixed(s: string): (r: seq<byte>)
    ensures |r| == 4 + |s|
  {
    I32Bytes(|s|) + StringBytes(s)
  }

  /** A sequence of encoded items laid end to end. */
  function Concat<T>(xs: seq<T>, enc: T -> seq<byte>): seq<byte>
  {
    if |xs| == 0 then [] else Concat(xs[..|xs| - 1], enc) + enc(xs[|xs| - 1])
  }

  lemma ConcatSnoc<T>(xs: seq<T>, x: T, enc: T -> seq<byte>)
    ensures Concat(xs + [x], enc) == Concat(xs, enc) + enc(x)
  {
    assert (xs + [x])[..|xs|] == xs;
  }

  lemma {:induction false} ConcatCons<T>(x: T, xs: seq<T>, enc: T -> seq<byte>)
    ensures Concat([x] + xs, enc) == enc(x) + Concat(xs, enc)
    decreases |xs|
  {
    if |xs| > 0 {
      var init := xs[..|xs| - 1];
      ConcatCons(x, init, enc);
      assert ([x] + xs)[..|xs|] == [x] + init;
    }
  }

  /**
   * What a loop of reads leaves: the items read, the stream after them, and
   * whether every read succeeded (when not, the read of item |items| failed).
   */
  datatype Run<T> = Run(items: seq<T>, rest: seq<byte>, complete: bool)

  /** Up to `n` items read one after another by `read`, stopping at the first failure. */
  function ReadRun<T>(read: seq<byte> -> Option<(T, seq<byte>)>, s: seq<byte>, n: nat): (r: Run<T>)
    ensures |r.items| <= n
    ensures r.complete ==> |r.items| == n
  {
    if n == 0 then Run([], s, true)
    else
      var run := ReadRun(read, s, n - 1);
      if !run.complete then run
      else
        match read(run.rest)
        case None => Run(run.items, run.rest, false)
        case Some((x, r)) => Run(run.items + [x], r, true)
  }

  /** All `n` items, or None when one of the reads fails. */
  function ReadAll<T>(read: seq<byte> -> Option<(T, seq<byte>)>, s: seq<byte>, n: nat): Option<(seq<T>, seq<byte>)>
  {
    var run := ReadRun(read, s, n);
    if run.complete then Some((run.items, run.rest)) else None
  }

  /** Once a read fails, asking for more items changes nothing. */
  lemma {:induction false} ReadRunStops<T>(read: seq<byte> -> Option<(T, seq<byte>)>, s: seq<byte>, k: nat, n: nat)
    requires k <= n && !ReadRun(read, s, k).complete
    ensures ReadRun(read, s, n) == ReadRun(read, s, k)
    decreases n
  {
    if n > k {
      ReadRunStops(read, s, k, n - 1);
    }
  }

  /**
   * Encoded items laid end to end read back item by item, whatever follows
   * them, when each item's encoding reads back as its view.
   */
  lemma {:induction false} ConcatRead<T, U>(read: seq<byte> -> Option<(U, seq<byte>)>, enc: T -> seq<byte>,
                                           xs: seq<T>, ys: seq<U>, rest: seq<byte>)
    requires |ys| == |xs|
    requires forall i, r :: 0 <= i < |xs| ==> read(enc(xs[i]) + r) == Some((ys[i], r))
    ensures ReadRun(read, Concat(xs, enc) + rest, |xs|) == Run(ys, rest, true)
  {
    if |xs| == 0 {
      assert ys == [] && Concat(xs, enc) + rest == rest;
    } else {
      var n := |xs| - 1;
      var last := enc(xs[n]) + rest;
      assert Concat(xs, enc) + rest == Concat(xs[..n], enc) + last;
      ConcatRead(read, enc, xs[..n], ys[..n], last);
      assert read(last) == Some((ys[n], rest));
      assert ys[..n] + [ys[n]] == ys;
    }
  }

  /** Every item of the same encoded width gives a block of |xs| times that width. */
  lemma {:induction false} ConcatLength<T>(xs: seq<T>, enc: T -> seq<byte>, width: nat)
    requires forall x :: x in xs ==> |enc(x)| == width
    ensures |Concat(xs, enc)| == |xs| * width
  {
    if |xs| > 0 {
      ConcatLength(xs[..|xs| - 1], enc, width);
    }
  }

  // ---------------------------------------------------------------- decoders
  // A reader is the part of the stream not yet read; a read that runs past the
  // end fails (EndOfStreamException) and a seek past the end leaves nothing.

  function U32Of(b0: byte, b1: byte, b2: byte, b3: byte): u32
  {
    b0 + 0x100 * (b1 + 0x100 * (b2 + 0x100 * b3))
  }

  function ReadU32(s: seq<byte>): Option<(u32, seq<byte>)>
  {
    if |s| < 4 then None else Some((U32Of(s[0], s[1], s[2], s[3]), s[4..]))
  }

  function ReadI32(s: seq<byte>): Option<(int, seq<byte>)>
  {
    match ReadU32(s)
    case None => None
    case Some((x, rest)) => Some((AsInt32(x), rest))
  }

  function ReadU16(s: seq<byte>): Option<(u16, seq<byte>)>
  {
    if |s| < 2 then None
    else
      var lo: int := s[0];
      var hi: int := s[1];
      var v := lo + 0x100 * hi;
      Some((v, s[2..]))
  }

  function ReadFloat(s: seq<byte>): Option<(F32, seq<byte>)>
  {
    match ReadU32(s)
    case None => None
    case Some((x, rest)) => Some((F32(x), rest))
  }

  /** BinaryReader.ReadBoolean: any non-zero byte is true. */
  function ReadBool(s: seq<byte>): Option<(bool, seq<byte>)>
  {
    if |s| < 1 then None else Some((s[0] != 0, s[1..]))
  }

  /** BinaryReader.ReadChars(n): up to n characters; fewer when the stream ends first. */
  function ReadChars(s: seq<byte>, n: nat): (r: (string, seq<byte>))
    ensures |r.0| == if n <= |s| then n else |s|
  {
    var k := if n <= |s| then n else |s|;
    (Chars(s[..k]), s[k..])
  }

  /** Each byte read as the character with that code. */
  function Chars(b: seq<byte>): (r: string)
    ensures |r| == |b|
  {
    if |b| == 0 then [] else Chars(b[..|b| - 1]) + [b[|b| - 1] as char]
  }

  /** Stream.Seek(n, SeekOrigin.Current) for n >= 0. */
  function Skip(s: seq<byte>, n: nat): (r: seq<byte>)
    ensures |r| == if n <= |s| then |s| - n else 0
  {
    if n <= |s| then s[n..] else []
  }

  // ---------------------------------------------------------------- round trips

  lemma U32RoundTrip(x: u32, rest: seq<byte>)
    ensures ReadU32(U32Bytes(x) + rest) == Some((x, rest))
  {
    var b := U32Bytes(x) + rest;
    assert b[4..] == rest;
  }

  lemma I32RoundTrip(x: int, rest: seq<byte>)
    requires IsInt32(x)
    ensures ReadI32(I32Bytes(x) + rest) == Some((x, rest))
  {
    U32RoundTrip(AsUInt32(x), rest);
  }

  lemma U16RoundTrip(x: u16, rest: seq<byte>)
    ensures ReadU16(U16Bytes(x) + rest) == Some((x, rest))
  {
    assert (U16Bytes(x) + rest)[2..] == rest;
  }

  lemma FloatRoundTrip(f: F32, rest: seq<byte>)
    ensures ReadFloat(FloatBytes(f) + rest) == Some((f, rest))
  {
    U32RoundTrip(f.bits, rest);
  }

  lemma BoolRoundTrip(b: bool, rest: seq<byte>)
    ensures ReadBool(BoolBytes(b) + rest) == Some((b, rest))
  {
    assert (BoolBytes(b) + rest)[1..] == rest;
  }

  predicate IsAscii(s: string) { forall i :: 0 <= i < |s| ==> (s[i] as int) < 0x80 }

  lemma {:induction false} CharsOfStringBytes(s: string)
    requires IsAscii(s)
    ensures Chars(StringBytes(s)) == s
  {
    if |s| > 0 {
      CharsOfStringBytes(s[..|s| - 1]);
      assert s == s[..|s| - 1] + [s[|s| - 1]];
    }
  }

  /** ASCII text written one byte per character reads back unchanged. */
  lemma CharsRoundTrip(s: string, rest: seq<byte>)
    requires IsAscii(s)
    ensures ReadChars(StringBytes(s) + rest, |s|) == (s, rest)
  {
    var b := StringBytes(s) + rest;
    assert b[..|s|] == StringBytes(s);
    assert b[|s|..] == rest;
    CharsOfStringBytes(s);
  }

  lemma SkipPrefix(prefix: seq<byte>, rest: seq<byte>)
    ensures Skip(prefix + rest, |prefix|) == rest
  {
    assert (prefix + rest)[|prefix|..] == rest;
  }

  // ---------------------------------------------------------------- BinaryWriter

  function Zeros(n: nat): (r: seq<byte>)
    ensures |r| == n && forall i :: 0 <= i < n ==> r[i] == 0
  {
    seq(n, i => 0)
  }

  /** One byte stored at position p; a stream shorter than p is first filled with zeros. */
  function Put(data: seq<byte>, p: nat, b: byte): (r: seq<byte>)
    ensures |r| == if p < |data| then |data| else p + 1
  {
    if p < |data| then data[p := b] else data + Zeros(p - |data|) + [b]
  }

  /**
   * The stream after writing `chunk` at position p, byte by byte: bytes
   * already there are replaced, the stream grows past its end.
   */
  function Overwrite(data: seq<byte>, p: nat, chunk: seq<byte>): (r: seq<byte>)
    ensures |r| == if p + |chunk| <= |data| then |data| else p + |chunk|
    decreases |chunk|
  {
    if |chunk| == 0 then (if p <= |data| then data else data + Zeros(p - |data|))
    else Overwrite(Put(data, p, chunk[0]), p + 1, chunk[1..])
  }

  /** Writing at the end appends. */
  lemma {:induction false} OverwriteAtEnd(data: seq<byte>, chunk: seq<byte>)
    ensures Overwrite(data, |data|, chunk) == data + chunk
    decreases |chunk|
  {
    if |chunk| > 0 {
      assert Put(data, |data|, chunk[0]) == data + [chunk[0]];
      OverwriteAtEnd(data + [chunk[0]], chunk[1..]);
      assert data + [chunk[0]] + chunk[1..] == data + chunk;
    }
  }

  /** Back-patching a 4-byte field that was written as a placeholder. */
  lemma {:induction false} OverwriteField(before: seq<byte>, field: seq<byte>, after: seq<byte>, value: seq<byte>)
    requires |field| == |value|
    ensures Overwrite(before + field + after, |before|, value) == before + value + after
    decreases |value|
  {
    if |value| == 0 {
      assert field == value;
    } else {
      var before' := before + [value[0]];
      calc {
        Overwrite(before + field + after, |before|, value);
        Overwrite(Put(before + field + after, |before|, value[0]), |before'|, value[1..]);
        { PutFirst(before, field, after, value[0]); }
        Overwrite(before' + field[1..] + after, |before'|, value[1..]);
        { OverwriteField(before', field[1..], after, value[1..]); }
        before' + value[1..] + after;
        { Assoc(before, [value[0]], value[1..]); assert [value[0]] + value[1..] == value; }
        before + value + after;
      }
    }
  }

  /** Storing a byte over the first byte of a field. */
  lemma PutFirst(before: seq<byte>, field: seq<byte>, after: seq<byte>, b: byte)
    requires |field| > 0
    ensures Put(before + field + after, |before|, b) == before + [b] + field[1..] + after
  {
    var d := before + field + after;
    var e := before + [b] + field[1..] + after;
    assert |d| == |e|;
    forall k | 0 <= k < |d|
      ensures d[|before| := b][k] == e[k]
    {
      if k < |before| {
      } else if k == |before| {
      } else if k < |before| + |field| {
        assert d[k] == field[k - |before|] && e[k] == field[1..][k - |before| - 1];
      } else {
        assert d[k] == after[k - |before| - |field|] && e[k] == after[k - |before| - |field|];
      }
    }
  }


  /**
   * A block written as a length placeholder, three parts, a count
   * placeholder and a tail, both placeholders then patched and a trailer
   * appended.
   */
  lemma PatchBlock(start: seq<byte>, f0: seq<byte>, a: seq<byte>, b: seq<byte>, c: seq<byte>, f1: seq<byte>,
                   tail: seq<byte>, trailer: seq<byte>, v0: seq<byte>, v1: seq<byte>, at: nat)
    requires |f0| == |v0| && |f1| == |v1| && at == |start| + |f0| + |a| + |b| + |c|
    ensures Overwrite(Overwrite(start + f0 + a + b + c + f1 + tail, at, v1), |start|, v0) + trailer
         == start + (v0 + (a + (b + (c + (v1 + (tail + trailer))))))
  {
    var x := start + f0 + a + b + c;
    var y := x + v1 + tail;
    var rest := a + (b + (c + (v1 + tail)));
    assert Overwrite(x + f1 + tail, at, v1) == y by {
      OverwriteField(x, f1, tail, v1);
    }
    assert y == start + f0 + rest by {
      Assoc(start + f0 + a + b, c, v1);
      Assoc(start + f0 + a + b, c + v1, tail);
      Assoc(c, v1, tail);
      Assoc(start + f0 + a, b, c + (v1 + tail));
      Assoc(start + f0, a, b + (c + (v1 + tail)));
    }
    assert Overwrite(y, |start|, v0) == start + v0 + rest by {
      OverwriteField(start, f0, rest, v0);
    }
    assert start + v0 + rest + trailer == start + (v0 + (a + (b + (c + (v1 + (tail + trailer)))))) by {
      Assoc(start, v0, rest);
      Assoc(start, v0 + rest, trailer);
      Assoc(v0, rest, trailer);
      Assoc(a, b + (c + (v1 + tail)), trailer);
      Assoc(b, c + (v1 + tail), trailer);
      Assoc(c, v1 + tail, trailer);
      Assoc(v1, tail, trailer);
    }
  }

  class Writer {
    /** The bytes of the underlying stream. */
    var data: seq<byte>
    /** The stream position. */
    var pos: nat

    constructor ()
      ensures data == [] && pos == 0
    {
      data := [];
      pos := 0;
    }

    /** Write(...) of any value: its encoded bytes at the current position. */
    method Write(chunk: seq<byte>)
      modifies this
      ensures data == Overwrite(old(data), old(pos), chunk)
      ensures pos == old(pos) + |chunk|
    {
      data := Overwrite(data, pos, chunk);
      pos := pos + |chunk|;
    }

    /** Write(...) with the position at the end of the stream: the bytes are appended. */
    method Append(chunk: seq<byte>)
      requires pos == |data|
      modifies this
      ensures data == old(data) + chunk && pos == |data|
    {
      OverwriteAtEnd(data, chunk);
      Write(chunk);
    }

    /**
     * Append(chunk) as one step of writing a block that goes on with
     * `tail`: the stream followed by the tail is unchanged.
     */
    method AppendThen(chunk: seq<byte>, ghost tail: seq<byte>)
      requires pos == |data|
      modifies this
      ensures data == old(data) + chunk && pos == |data|
      ensures data + tail == old(data) + (chunk + tail)
    {
      Assoc(data, chunk, tail);
      Append(chunk);
    }

    /** Seek(p, SeekOrigin.Begin). */
    method Seek(p: nat)
      modifies this
      ensures data == old(data) && pos == p
    {
      pos := p;
    }

    /** Seek(0, SeekOrigin.End). */
    method SeekEnd()
      modifies this
      ensures data == old(data) && pos == |data|
    {
      pos := |data|;
    }

    /**
     * The back-patch the toolkit performs after each block: seek to a length
     * placeholder, write the value, and return to the end.
     */
    method Patch(at: nat, value: seq<byte>)
      modifies this
      ensures data == Overwrite(old(data), at, value)
      ensures pos == |data|
    {
      Seek(at);
      Write(value);
      SeekEnd();
    }
  }
}
