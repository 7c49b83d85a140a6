/** Encoders for the byte-level formats and the facts that tie them to the
    readers in `Bytes`: little-endian words and length-prefixed strings
    round-trip in both directions, and the readers of booleans, Latin-1 and
    UTF-8 text behave as the decoders rely on. */
module ByteFacts {
  import opened Bytes

  /** `e` occurs in `d` at position `p`. */
  predicate At(d: seq<byte>, p: nat, e: seq<byte>) {
    p + |e| <= |d| && d[p..p + |e|] == e
  }

  lemma AtSplit(d: seq<byte>, p: nat, a: seq<byte>, b: seq<byte>)
    requires At(d, p, a + b)
    ensures At(d, p, a) && At(d, p + |a|, b)
  {
    assert d[p..p + |a|] == (a + b)[..|a|];
    assert d[p + |a|..p + |a| + |b|] == (a + b)[|a|..];
  }

  // ---------------------------------------------------------------------
  // Little-endian words

  function LE16(v: u16): (r: seq<byte>)
    ensures |r| == 2
  {
    [(v % 0x100) as byte, (v / 0x100) as byte]
  }

  function LE32(v: u32): (r: seq<byte>)
    ensures |r| == 4
  {
    [(v % 0x100) as byte, (v / 0x100 % 0x100) as byte,
     (v / 0x1_0000 % 0x100) as byte, (v / 0x100_0000) as byte]
  }

  /** Reading the encoding of `v` gives `v` back and consumes two bytes. */
  lemma U16Decode(d: seq<byte>, p: nat, v: u16)
    requires At(d, p, LE16(v))
    ensures U16At(d, p) == Ok(Parsed(v, p + 2))
  {
    assert d[p] == LE16(v)[0] && d[p + 1] == LE16(v)[1];
  }

  /** Re-encoding a decoded u16 gives back the two bytes it came from. */
  lemma U16Encode(d: seq<byte>, p: nat)
    requires U16At(d, p).Ok?
    ensures At(d, p, LE16(U16At(d, p).value.value))
  {
    var v := U16At(d, p).value.value;
    var b0, b1 := d[p] as int, d[p + 1] as int;
    assert v as int == b0 + 0x100 * b1;
    assert v as int % 0x100 == b0 && v as int / 0x100 == b1;
    assert d[p..p + 2] == [d[p], d[p + 1]];
  }

  /** Reading the encoding of `v` gives `v` back and consumes four bytes. */
  lemma U32Decode(d: seq<byte>, p: nat, v: u32)
    requires At(d, p, LE32(v))
    ensures U32At(d, p) == Ok(Parsed(v, p + 4))
  {
    var x := v as int;
    assert d[p] as int == x % 0x100;
    assert d[p + 1] as int == x / 0x100 % 0x100;
    assert d[p + 2] as int == x / 0x1_0000 % 0x100;
    assert d[p + 3] as int == x / 0x100_0000;
    assert x / 0x100 == x / 0x100 % 0x100 + 0x100 * (x / 0x1_0000);
    assert x / 0x1_0000 == x / 0x1_0000 % 0x100 + 0x100 * (x / 0x100_0000);
  }

  /** Re-encoding a decoded u32 gives back the four bytes it came from. */
  lemma U32Encode(d: seq<byte>, p: nat)
    requires U32At(d, p).Ok?
    ensures At(d, p, LE32(U32At(d, p).value.value))
  {
    var v := U32At(d, p).value.value as int;
    var b0, b1, b2, b3 := d[p] as int, d[p + 1] as int, d[p + 2] as int, d[p + 3] as int;
    assert v == b0 + 0x100 * (b1 + 0x100 * (b2 + 0x100 * b3));
    assert v % 0x100 == b0 && v / 0x100 == b1 + 0x100 * (b2 + 0x100 * b3);
    assert v / 0x1_0000 == (v / 0x100) / 0x100;
    assert v / 0x100_0000 == (v / 0x1_0000) / 0x100;
    assert d[p..p + 4] == [d[p], d[p + 1], d[p + 2], d[p + 3]];
  }

  // ---------------------------------------------------------------------
  // Length-prefixed strings

  /** The on-disk form of a string: its length plus one, its bytes and a
      terminator byte `t`. */
  function CStringBytes(s: seq<byte>, t: byte): (r: seq<byte>)
    requires |s| + 1 < 0x1_0000_0000
    ensures |r| == 4 + |s| + 1
  {
    LE32((|s| + 1) as u32) + s + [t]
  }

  /** Reading an encoded string returns its content whatever the
      terminator byte is, and stops right after the terminator. */
  lemma CStringDecode(d: seq<byte>, p: nat, s: seq<byte>, t: byte)
    requires |s| + 1 < 0x1_0000_0000
    requires At(d, p, CStringBytes(s, t))
    ensures CStringAt(d, p) == Ok(Parsed(s, p + 4 + |s| + 1))
  {
    AtSplit(d, p, LE32((|s| + 1) as u32), s + [t]);
    U32Decode(d, p, (|s| + 1) as u32);
    assert d[p + 4..p + 4 + |s| + 1] == s + [t];
    assert (s + [t])[..|s|] == s;
  }

  /** What `read_cstring` does with the declared length L: refuse L = 0,
      fail when fewer than L bytes remain, and otherwise take L bytes and
      return all but the last, so that exactly 4 + L bytes are consumed. */
  lemma CStringShape(d: seq<byte>, p: nat)
    requires U32At(d, p).Ok?
    ensures var len := U32At(d, p).value.value as nat;
            var r := CStringAt(d, p);
            && (len == 0 ==> r == Err(EmptyString))
            && (len > 0 && p + 4 + len > |d| ==> r == Err(UnexpectedEof))
            && (len > 0 && p + 4 + len <= |d| ==>
                  r == Ok(Parsed(d[p + 4..p + 4 + len - 1], p + 4 + len))
                  && |r.value.value| == len - 1)
  {
    var len := U32At(d, p).value.value as nat;
    if len > 0 && p + 4 + len <= |d| {
      assert d[p + 4..p + 4 + len][..len - 1] == d[p + 4..p + 4 + len - 1];
    }
  }

  /** A successful string read is always the encoding of its result: the
      length word says |s| + 1 and the content follows it. */
  lemma CStringEncode(d: seq<byte>, p: nat)
    requires CStringAt(d, p).Ok?
    ensures var s := CStringAt(d, p).value.value;
            && |s| + 1 < 0x1_0000_0000
            && At(d, p, CStringBytes(s, d[p + 4 + |s|]))
            && CStringAt(d, p).value.next == p + 4 + |s| + 1
  {
    var s := CStringAt(d, p).value.value;
    var len := U32At(d, p).value.value;
    U32Encode(d, p);
    assert |s| + 1 == len as int;
    var e := CStringBytes(s, d[p + 4 + |s|]);
    assert d[p..p + 4] == e[..4];
    assert d[p + 4..p + 4 + |s|] == s == e[4..4 + |s|];
    assert d[p..p + |e|] == d[p..p + 4] + d[p + 4..p + 4 + |s|] + [d[p + 4 + |s|]];
  }

  // ---------------------------------------------------------------------
  // Booleans, Latin-1 and UTF-8

  /** `read_bool` fails only at the end of the buffer; any byte other than
      1 reads as false. */
  lemma BoolTotal(d: seq<byte>, p: nat)
    ensures BoolAt(d, p).Ok? <==> p < |d|
    ensures BoolAt(d, p).Ok? ==> BoolAt(d, p).value == Parsed(d[p] == 1, p + 1)
    ensures BoolAt(d, p).Err? ==> BoolAt(d, p).error == UnexpectedEof
  {
  }

  /** Different Latin-1 byte strings never convert to the same text. */
  lemma Latin1Injective(s: seq<byte>, t: seq<byte>)
    requires Latin1ToUtf8(s) == Latin1ToUtf8(t)
    ensures s == t
  {
    assert |s| == |t|;
    forall i | 0 <= i < |s| ensures s[i] == t[i] {
      assert s[i] as int == Latin1ToUtf8(s)[i] as int == t[i] as int;
    }
  }

  /** Text made of ASCII bytes only is valid UTF-8. */
  lemma {:induction false} AsciiIsUtf8(s: seq<byte>)
    requires forall i :: 0 <= i < |s| ==> s[i] < 0x80
    ensures IsUtf8(s)
    decreases |s|
  {
    if |s| > 0 {
      assert Utf8SequenceLength(s) == 1;
      AsciiIsUtf8(s[1..]);
    }
  }

  /** A lone continuation byte, an overlong two-byte form and an encoded
      surrogate are each rejected. */
  lemma Utf8Rejects()
    ensures !IsUtf8([0x80])
    ensures !IsUtf8([0xC0, 0x80])
    ensures !IsUtf8([0xED, 0xA0, 0x80])
    ensures IsUtf8([0xC3, 0xA9])
  {
    assert Utf8SequenceLength([0xC3, 0xA9]) == 2;
    assert [0xC3, 0xA9][2..] == [];
  }
}
