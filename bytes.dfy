/** Byte-level reading shared by the MAP and RSB decoders: little-endian
    scalars, the length-prefixed string, booleans, Latin-1 text, UTF-8
    validity and counted repetition.

    Every reader exists twice: as a pure function of the buffer and a start
    position (`U32At`, `CStringAt`, ...) that says what the bytes mean, and
    as a method of `Cursor` (`ReadU32`, `ReadCString`, ...) that advances a
    mutable position the way the decoders do, proved to agree with the
    function through `Matches`. */
module Bytes {

  newtype byte = x: int | 0 <= x < 0x100
  newtype u16 = x: int | 0 <= x < 0x1_0000
  newtype u32 = x: int | 0 <= x < 0x1_0000_0000

  /** A 32-bit float that the decoders copy but never compute with: kept as
      its bit pattern. */
  datatype F32 = F32(bits: u32)

  /** The ways a decode can fail. Context labels are not modelled. */
  datatype Error =
    | UnexpectedEof
    | EmptyString
    | MagicMismatch(found: seq<byte>)
    | MissingEnd
    | UnknownTextureAddressMode(mode: u32)
    | UnknownId(id: u32)
    | InvalidUtf8
    | UnsupportedVersion(version: u32)
    | UnhandledPalette(palette: u32)
    | ArithmeticOverflow

  datatype Result<+T> = Ok(value: T) | Err(error: Error) {
    predicate IsFailure() { Err? }
    function PropagateFailure<U>(): Result<U> requires Err? { Err(error) }
    function Extract(): T requires Ok? { value }
  }

  datatype Option<+T> = None | Some(value: T)

  /** A value decoded from the buffer and the position just after it. */
  datatype Parsed<+T> = Parsed(value: T, next: nat)

  type Parser<T> = (seq<byte>, nat) -> Result<Parsed<T>>

  /** The outcome `r` of a cursor method, with the cursor left at `pos`,
      is the outcome `spec` of the corresponding parser. After a failure
      the position is irrelevant: no partial result is ever used. */
  predicate Matches<T(==)>(spec: Result<Parsed<T>>, r: Result<T>, pos: nat) {
    match spec
    case Ok(p) => r == Ok(p.value) && pos == p.next
    case Err(e) => r == Err(e)
  }

  // ---------------------------------------------------------------------
  // Scalars

  /** The `k` bytes at `p`, as `read_exact` takes them. */
  function ExactAt(d: seq<byte>, p: nat, k: nat): Result<Parsed<seq<byte>>> {
    if p + k <= |d| then Ok(Parsed(d[p..p + k], p + k)) else Err(UnexpectedEof)
  }

  function U8At(d: seq<byte>, p: nat): Result<Parsed<byte>> {
    if p + 1 <= |d| then Ok(Parsed(d[p], p + 1)) else Err(UnexpectedEof)
  }

  function U16At(d: seq<byte>, p: nat): Result<Parsed<u16>> {
    if p + 2 <= |d| then Ok(Parsed((d[p] as int + 0x100 * d[p + 1] as int) as u16, p + 2))
    else Err(UnexpectedEof)
  }

  function U32At(d: seq<byte>, p: nat): Result<Parsed<u32>> {
    if p + 4 <= |d| then
      Ok(Parsed((d[p] as int + 0x100 * d[p + 1] as int + 0x1_0000 * d[p + 2] as int
                 + 0x100_0000 * d[p + 3] as int) as u32, p + 4))
    else Err(UnexpectedEof)
  }

  function F32At(d: seq<byte>, p: nat): Result<Parsed<F32>> {
    var w :- U32At(d, p);
    Ok(Parsed(F32(w.value), w.next))
  }

  /** `read_bool`: the byte 1 is true, every other byte is false. */
  function BoolAt(d: seq<byte>, p: nat): Result<Parsed<bool>> {
    var b :- U8At(d, p);
    Ok(Parsed(b.value == 1, b.next))
  }

  /** `read_cstring`: a u32 length L, rejected when 0, then L bytes of
      which the last (the terminator) is dropped. */
  function CStringAt(d: seq<byte>, p: nat): Result<Parsed<seq<byte>>> {
    var len :- U32At(d, p);
    if len.value < 1 then Err(EmptyString)
    else
      var bytes :- ExactAt(d, len.next, len.value as nat);
      Ok(Parsed(bytes.value[..len.value - 1], bytes.next))
  }

  function F32XyAt(d: seq<byte>, p: nat): Result<Parsed<(F32, F32)>> {
    var x :- F32At(d, p);
    var y :- F32At(d, x.next);
    Ok(Parsed((x.value, y.value), y.next))
  }

  function F32XyzAt(d: seq<byte>, p: nat): Result<Parsed<(F32, F32, F32)>> {
    var xy :- F32XyAt(d, p);
    var z :- F32At(d, xy.next);
    Ok(Parsed((xy.value.0, xy.value.1, z.value), z.next))
  }

  // ---------------------------------------------------------------------
  // Text

  /** `latin1_to_utf8`: every byte becomes the character with the same code
      point. */
  function Latin1ToUtf8(s: seq<byte>): (r: string)
    ensures |r| == |s|
    ensures forall i :: 0 <= i < |s| ==> r[i] as int == s[i] as int
  {
    seq(|s|, i requires 0 <= i < |s| => s[i] as char)
  }

  /** A length-prefixed string converted from Latin-1, the commonest field. */
  function Latin1At(d: seq<byte>, p: nat): Result<Parsed<string>> {
    var s :- CStringAt(d, p);
    Ok(Parsed(Latin1ToUtf8(s.value), s.next))
  }

  predicate InRange(b: byte, lo: int, hi: int) { lo <= b as int <= hi }

  /** The length of the well-formed UTF-8 sequence that starts `s`, or 0
      when `s` does not start with one (Table 3-7 of the Unicode Standard:
      no overlong forms, no surrogates, nothing above U+10FFFF). */
  function Utf8SequenceLength(s: seq<byte>): (n: nat)
    requires |s| > 0
    ensures n <= 4 && n <= |s|
  {
    var b := s[0];
    if b < 0x80 then 1
    else if InRange(b, 0xC2, 0xDF) then
      if |s| >= 2 && InRange(s[1], 0x80, 0xBF) then 2 else 0
    else if InRange(b, 0xE0, 0xEF) then
      var lo := if b == 0xE0 then 0xA0 else 0x80;
      var hi := if b == 0xED then 0x9F else 0xBF;
      if |s| >= 3 && InRange(s[1], lo, hi) && InRange(s[2], 0x80, 0xBF) then 3 else 0
    else if InRange(b, 0xF0, 0xF4) then
      var lo := if b == 0xF0 then 0x90 else 0x80;
      var hi := if b == 0xF4 then 0x8F else 0xBF;
      if |s| >= 4 && InRange(s[1], lo, hi) && InRange(s[2], 0x80, 0xBF)
         && InRange(s[3], 0x80, 0xBF) then 4 else 0
    else 0
  }

  /** The bytes are well-formed UTF-8, which is what `String::from_utf8`
      accepts. */
  predicate IsUtf8(s: seq<byte>)
    decreases |s|
  {
    |s| == 0 || (Utf8SequenceLength(s) > 0 && IsUtf8(s[Utf8SequenceLength(s)..]))
  }

  // ---------------------------------------------------------------------
  // Counted repetition

  /** `n` values read one after another by `p`, starting at `pos`: the
      `for _ in 0..n { v.push(read(buf)?) }` of the decoders. */
  function ParseCount<T>(p: Parser<T>, d: seq<byte>, pos: nat, n: nat): Result<Parsed<seq<T>>>
    decreases n
  {
    if n == 0 then Ok(Parsed([], pos))
    else
      var prefix :- ParseCount(p, d, pos, n - 1);
      var last :- p(d, prefix.next);
      Ok(Parsed(prefix.value + [last.value], last.next))
  }

  /** A failure part-way through a counted list is the failure of the whole
      list. */
  lemma {:induction false} CountFailure<T>(p: Parser<T>, d: seq<byte>, pos: nat, m: nat, n: nat)
    requires m <= n
    requires ParseCount(p, d, pos, m).Err?
    ensures ParseCount(p, d, pos, n) == Err(ParseCount(p, d, pos, m).error)
    decreases n
  {
    if m < n {
      CountFailure(p, d, pos, m, n - 1);
    }
  }

  /** Every decoded counted list has exactly the declared number of elements. */
  lemma {:induction false} CountLength<T>(p: Parser<T>, d: seq<byte>, pos: nat, n: nat)
    requires ParseCount(p, d, pos, n).Ok?
    ensures |ParseCount(p, d, pos, n).value.value| == n
    decreases n
  {
    if n > 0 {
      CountLength(p, d, pos, n - 1);
    }
  }

  /** `p` reads exactly `k` bytes of `d` whenever it succeeds. */
  ghost predicate FixedWidth<T>(p: Parser<T>, d: seq<byte>, k: nat) {
    forall q: nat :: p(d, q).Ok? ==> p(d, q).value.next == q + k
  }

  /** A decoded list of fixed-width values: element i is the value read at
      `pos + k * i`, and the list ends `k * n` bytes after its start. */
  lemma {:induction false} CountFixed<T>(p: Parser<T>, d: seq<byte>, pos: nat, n: nat, k: nat)
    requires FixedWidth(p, d, k)
    requires ParseCount(p, d, pos, n).Ok?
    ensures ParseCount(p, d, pos, n).value.next == pos + k * n
    ensures |ParseCount(p, d, pos, n).value.value| == n
    ensures forall i :: 0 <= i < n ==>
              p(d, pos + k * i).Ok? && ParseCount(p, d, pos, n).value.value[i] == p(d, pos + k * i).value.value
    decreases n
  {
    if n > 0 {
      CountFixed(p, d, pos, n - 1, k);
      assert pos + k * (n - 1) + k == pos + k * n;
    }
  }

  /** `k` 32-bit floats take exactly 4k bytes and fail only when fewer remain. */
  lemma {:induction false} F32sConsume(d: seq<byte>, pos: nat, k: nat)
    requires pos <= |d|
    ensures ParseCount(F32At, d, pos, k).Ok? <==> pos + 4 * k <= |d|
    ensures ParseCount(F32At, d, pos, k).Ok? ==> ParseCount(F32At, d, pos, k).value.next == pos + 4 * k
    ensures ParseCount(F32At, d, pos, k).Err? ==> ParseCount(F32At, d, pos, k).error == UnexpectedEof
    decreases k
  {
    if k > 0 {
      F32sConsume(d, pos, k - 1);
    }
  }

  // ---------------------------------------------------------------------
  // The cursor

  /** `Cursor<Vec<u8>>`: an immutable buffer and a read position that every
      read advances. */
  class Cursor {
    const data: seq<byte>
    var pos: nat

    constructor (data: seq<byte>)
      ensures this.data == data && pos == 0
    {
      this.data := data;
      pos := 0;
    }

    method ReadExact(k: nat) returns (r: Result<seq<byte>>)
      modifies this
      ensures Matches(ExactAt(data, old(pos), k), r, pos)
    {
      if pos + k <= |data| {
        r := Ok(data[pos..pos + k]);
        pos := pos + k;
      } else {
        r := Err(UnexpectedEof);
      }
    }

    method ReadU8() returns (r: Result<byte>)
      modifies this
      ensures Matches(U8At(data, old(pos)), r, pos)
    {
      var b :- ReadExact(1);
      return Ok(b[0]);
    }

    method ReadU16() returns (r: Result<u16>)
      modifies this
      ensures Matches(U16At(data, old(pos)), r, pos)
    {
      var b :- ReadExact(2);
      return Ok((b[0] as int + 0x100 * b[1] as int) as u16);
    }

    method ReadU32() returns (r: Result<u32>)
      modifies this
      ensures Matches(U32At(data, old(pos)), r, pos)
    {
      var b :- ReadExact(4);
      return Ok((b[0] as int + 0x100 * b[1] as int + 0x1_0000 * b[2] as int
                 + 0x100_0000 * b[3] as int) as u32);
    }

    method ReadF32() returns (r: Result<F32>)
      modifies this
      ensures Matches(F32At(data, old(pos)), r, pos)
    {
      var w :- ReadU32();
      return Ok(F32(w));
    }

    method ReadBool() returns (r: Result<bool>)
      modifies this
      ensures Matches(BoolAt(data, old(pos)), r, pos)
    {
      var b :- ReadU8();
      return Ok(b == 1);
    }

    method ReadCString() returns (r: Result<seq<byte>>)
      modifies this
      ensures Matches(CStringAt(data, old(pos)), r, pos)
    {
      var len :- ReadU32();
      if len < 1 {
        return Err(EmptyString);
      }
      var buf :- ReadExact(len as nat);
      return Ok(buf[..len - 1]);
    }

    method ReadF32Xy() returns (r: Result<(F32, F32)>)
      modifies this
      ensures Matches(F32XyAt(data, old(pos)), r, pos)
    {
      var x :- ReadF32();
      var y :- ReadF32();
      return Ok((x, y));
    }

    method ReadF32Xyz() returns (r: Result<(F32, F32, F32)>)
      modifies this
      ensures Matches(F32XyzAt(data, old(pos)), r, pos)
    {
      var xy :- ReadF32Xy();
      var z :- ReadF32();
      return Ok((xy.0, xy.1, z));
    }

    method ReadLatin1() returns (r: Result<string>)
      modifies this
      ensures Matches(Latin1At(data, old(pos)), r, pos)
    {
      var s :- ReadCString();
      return Ok(Latin1ToUtf8(s));
    }
  }

  // ---------------------------------------------------------------------
  // Loops over the cursor shared by many records

  /** A fixed-size `[f32; k]` filled in place, element by element. */
  method ReadF32Array(c: Cursor, k: nat) returns (r: Result<seq<F32>>)
    modifies c
    ensures Matches(ParseCount(F32At, c.data, old(c.pos), k), r, c.pos)
  {
    var start := c.pos;
    var a := new F32[k](_ => F32(0));
    for i := 0 to k
      invariant ParseCount(F32At, c.data, start, i) == Ok(Parsed(a[..i], c.pos))
    {
      var x := c.ReadF32();
      if x.Err? {
        CountFailure(F32At, c.data, start, i + 1, k);
        return Err(x.error);
      }
      a[i] := x.value;
      assert a[..i + 1] == a[..i] + [x.value];
    }
    assert a[..k] == a[..];
    return Ok(a[..]);
  }

  /** A fixed-size `[u32; k]` filled in place, element by element. */
  method ReadU32Array(c: Cursor, k: nat) returns (r: Result<seq<u32>>)
    modifies c
    ensures Matches(ParseCount(U32At, c.data, old(c.pos), k), r, c.pos)
  {
    var start := c.pos;
    var a := new u32[k];
    for i := 0 to k
      invariant ParseCount(U32At, c.data, start, i) == Ok(Parsed(a[..i], c.pos))
    {
      var x := c.ReadU32();
      if x.Err? {
        CountFailure(U32At, c.data, start, i + 1, k);
        return Err(x.error);
      }
      a[i] := x.value;
      assert a[..i + 1] == a[..i] + [x.value];
    }
    assert a[..k] == a[..];
    return Ok(a[..]);
  }

  /** `n` 32-bit floats pushed onto a list. */
  method ReadF32List(c: Cursor, n: nat) returns (r: Result<seq<F32>>)
    modifies c
    ensures Matches(ParseCount(F32At, c.data, old(c.pos), n), r, c.pos)
  {
    var start := c.pos;
    var items: seq<F32> := [];
    for i := 0 to n
      invariant ParseCount(F32At, c.data, start, i) == Ok(Parsed(items, c.pos))
    {
      var x := c.ReadF32();
      if x.Err? {
        CountFailure(F32At, c.data, start, i + 1, n);
        return Err(x.error);
      }
      items := items + [x.value];
    }
    return Ok(items);
  }

  /** `n` 16-bit words pushed onto a list. */
  method ReadU16List(c: Cursor, n: nat) returns (r: Result<seq<u16>>)
    modifies c
    ensures Matches(ParseCount(U16At, c.data, old(c.pos), n), r, c.pos)
  {
    var start := c.pos;
    var items: seq<u16> := [];
    for i := 0 to n
      invariant ParseCount(U16At, c.data, start, i) == Ok(Parsed(items, c.pos))
    {
      var x := c.ReadU16();
      if x.Err? {
        CountFailure(U16At, c.data, start, i + 1, n);
        return Err(x.error);
      }
      items := items + [x.value];
    }
    return Ok(items);
  }

  /** `n` Latin-1 strings pushed onto a list. */
  method ReadLatin1List(c: Cursor, n: nat) returns (r: Result<seq<string>>)
    modifies c
    ensures Matches(ParseCount(Latin1At, c.data, old(c.pos), n), r, c.pos)
  {
    var start := c.pos;
    var items: seq<string> := [];
    for i := 0 to n
      invariant ParseCount(Latin1At, c.data, start, i) == Ok(Parsed(items, c.pos))
    {
      var x := c.ReadLatin1();
      if x.Err? {
        CountFailure(Latin1At, c.data, start, i + 1, n);
        return Err(x.error);
      }
      items := items + [x.value];
    }
    return Ok(items);
  }
}
