/** The RSB decoder reads a prefix of its input and nothing after it. Cut a
    decodable file before the last byte the decoder reads and the decode
    fails; cut it at that byte or later and the decode is unchanged. */
module RsbTruncation {
  import opened Bytes
  import opened Pixels
  import opened RsbFormat

  /** How a read at `p` of `d` behaves on `d[..k]`: a successful read ends
      at or after `p`; it is unchanged when it ends by `k`, and fails when
      it starts by `k` and ends after it. (A read of nothing that starts
      after `k` succeeds on both.) */
  ghost predicate Truncates<T>(r: Result<Parsed<T>>, rk: Result<Parsed<T>>, p: nat, k: nat) {
    r.Ok? ==> p <= r.value.next && (r.value.next <= k ==> rk == r) && (p <= k < r.value.next ==> rk.Err?)
  }

  // ---------------------------------------------------------------------
  // Single fields

  lemma ExactTruncates(d: seq<byte>, p: nat, n: nat, k: nat)
    requires k <= |d|
    ensures Truncates(ExactAt(d, p, n), ExactAt(d[..k], p, n), p, k)
  {
    if p + n <= k {
      assert d[..k][p..p + n] == d[p..p + n];
    }
  }

  lemma U16Truncates(d: seq<byte>, p: nat, k: nat)
    requires k <= |d|
    ensures Truncates(U16At(d, p), U16At(d[..k], p), p, k)
  {
  }

  lemma U32Truncates(d: seq<byte>, p: nat, k: nat)
    requires k <= |d|
    ensures Truncates(U32At(d, p), U32At(d[..k], p), p, k)
  {
  }

  lemma BitMaskTruncates(d: seq<byte>, p: nat, k: nat)
    requires k <= |d|
    ensures Truncates(ParseBitMask(d, p), ParseBitMask(d[..k], p), p, k)
  {
    U32Truncates(d, p, k);
    U32Truncates(d, p + 4, k);
    U32Truncates(d, p + 8, k);
    U32Truncates(d, p + 12, k);
  }

  lemma SectionTruncates(d: seq<byte>, p: nat, version: u32, k: nat)
    requires k <= |d|
    ensures Truncates(ParsePaletteSection(d, p, version), ParsePaletteSection(d[..k], p, version), p, k)
  {
    U32Truncates(d, p, k);
    BitMaskTruncates(d, p, k);
    BitMaskTruncates(d, p + 4, k);
    ExactTruncates(d, p + 4, PaletteBytes, k);
  }

  lemma PixelTruncates(d: seq<byte>, p: nat, palettized: bool, mask: BitMask, k: nat)
    requires k <= |d|
    ensures Truncates(PixelParser(palettized, mask)(d, p), PixelParser(palettized, mask)(d[..k], p), p, k)
  {
    ExactTruncates(d, p, 1, k);
    U16Truncates(d, p, k);
  }

  lemma MaskedPixelTruncates(d: seq<byte>, p: nat, k: nat)
    requires k <= |d|
    ensures Truncates(MaskedPixelAt(d, p), MaskedPixelAt(d[..k], p), p, k)
  {
    U16Truncates(d, p, k);
  }

  // ---------------------------------------------------------------------
  // Counted lists

  /** A counted list of reads that each behave this way behaves this way. */
  lemma {:induction false} CountTruncates<T>(parser: Parser<T>, d: seq<byte>, pos: nat, n: nat, k: nat)
    requires k <= |d|
    requires forall q :: Truncates(parser(d, q), parser(d[..k], q), q, k)
    ensures Truncates(ParseCount(parser, d, pos, n), ParseCount(parser, d[..k], pos, n), pos, k)
  {
    if n > 0 {
      CountTruncates(parser, d, pos, n - 1, k);
      var prefix := ParseCount(parser, d, pos, n - 1);
      if prefix.Ok? {
        var q := prefix.value.next;
        assert Truncates(parser(d, q), parser(d[..k], q), q, k);
        if q <= k {
          assert ParseCount(parser, d[..k], pos, n - 1) == prefix;
        }
      }
    }
  }

  lemma PixelsTruncate(d: seq<byte>, pos: nat, n: nat, palettized: bool, mask: BitMask, k: nat)
    requires k <= |d|
    ensures var parser := PixelParser(palettized, mask);
      Truncates(ParseCount(parser, d, pos, n), ParseCount(parser, d[..k], pos, n), pos, k)
  {
    var parser := PixelParser(palettized, mask);
    forall q ensures Truncates(parser(d, q), parser(d[..k], q), q, k) {
      PixelTruncates(d, q, palettized, mask, k);
    }
    CountTruncates(parser, d, pos, n, k);
  }

  lemma MaskedPixelsTruncate(d: seq<byte>, pos: nat, n: nat, k: nat)
    requires k <= |d|
    ensures Truncates(ParseCount(MaskedPixelAt, d, pos, n), ParseCount(MaskedPixelAt, d[..k], pos, n), pos, k)
  {
    forall q ensures Truncates(MaskedPixelAt(d, q), MaskedPixelAt(d[..k], q), q, k) {
      MaskedPixelTruncates(d, q, k);
    }
    CountTruncates(MaskedPixelAt, d, pos, n, k);
  }

  // ---------------------------------------------------------------------
  // The whole file

  /** The offset just after the last byte a successful decode reads: the
      end of the masked copy in a palettized file, of the pixels otherwise. */
  ghost function ReadEnd(d: seq<byte>): nat
    requires DecodeRsb(d).Ok?
  {
    var version := U32At(d, 0).value;
    var width := U32At(d, version.next).value;
    var height := U32At(d, width.next).value;
    var section := ParsePaletteSection(d, height.next, version.value).value;
    var size := Area(width.value, height.value);
    var palettized := Palettized(version.value, section.value.palette);
    var pixels := ParseCount(PixelParser(palettized, section.value.bitmask), d, section.next, size).value;
    if palettized then
      var mask := ParseBitMask(d, pixels.next).value;
      ParseCount(MaskedPixelAt, d, mask.next, size).value.next
    else pixels.next
  }

  /** Cutting a decodable file before the last byte read makes it fail;
      cutting it at that byte or later leaves the texture unchanged. */
  lemma TruncatedRsb(d: seq<byte>, k: nat)
    requires DecodeRsb(d).Ok? && k <= |d|
    ensures k < ReadEnd(d) ==> DecodeRsb(d[..k]).Err?
    ensures ReadEnd(d) <= k ==> DecodeRsb(d[..k]) == DecodeRsb(d)
  {
    var version := U32At(d, 0).value;
    var width := U32At(d, version.next).value;
    var height := U32At(d, width.next).value;
    var section := ParsePaletteSection(d, height.next, version.value).value;
    var size := Area(width.value, height.value);
    var palettized := Palettized(version.value, section.value.palette);
    var pixels := ParseCount(PixelParser(palettized, section.value.bitmask), d, section.next, size).value;
    U32Truncates(d, 0, k);
    U32Truncates(d, 4, k);
    U32Truncates(d, 8, k);
    SectionTruncates(d, 12, version.value, k);
    PixelsTruncate(d, section.next, size, palettized, section.value.bitmask, k);
    if palettized {
      var mask := ParseBitMask(d, pixels.next).value;
      BitMaskTruncates(d, pixels.next, k);
      MaskedPixelsTruncate(d, mask.next, size, k);
    }
  }

  /** Every byte a successful decode reads lies inside the file. */
  lemma ReadWithinFile(d: seq<byte>)
    requires DecodeRsb(d).Ok?
    ensures ReadEnd(d) <= |d|
  {
    assert d[..|d|] == d;
    TruncatedRsb(d, |d|);
  }
}
