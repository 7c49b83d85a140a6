/** What `DecodeRsb` promises about a texture it accepts: which fields exist
    for which version and palette, where in the file each part lies, that
    the image has one pixel per texel and that all pixels carry the same
    tag, and which inputs it rejects with which error. */
module RsbFacts {
  import opened Bytes
  import opened Pixels
  import opened RsbFormat
  import opened PixelFacts

  /** The bytes after the dimensions taken by the palette word, colour
      table and first bit mask. */
  function SectionBytes(version: u32, palette: Option<u32>): nat {
    if version != 0 then 16
    else if palette == Some(1) then 4 + PaletteBytes
    else 4 + 16
  }

  /** Bytes per pixel of the main image. */
  function PixelBytes(palettized: bool): nat {
    if palettized then 1 else 2
  }

  /** Where the main image starts. */
  function PixelStart(r: Rsb): nat {
    12 + SectionBytes(r.version, r.palette)
  }

  // ---------------------------------------------------------------------
  // The pieces

  /** A bit mask is four words: it needs sixteen bytes and takes them all. */
  lemma BitMaskWords(d: seq<byte>, p: nat)
    ensures ParseBitMask(d, p).Ok? <==> p + 16 <= |d|
    ensures p + 16 <= |d| ==>
              ParseBitMask(d, p) == Ok(Parsed(BitMask(Bv32(U32At(d, p).value.value),
                                                      Bv32(U32At(d, p + 4).value.value),
                                                      Bv32(U32At(d, p + 8).value.value),
                                                      Bv32(U32At(d, p + 12).value.value)), p + 16))
    ensures p + 16 > |d| ==> ParseBitMask(d, p) == Err(UnexpectedEof)
  {
  }

  /** The colour table keeps every 4-byte window of the 1024 bytes read, so
      it has 1021 entries. */
  lemma PaletteWindows(tmp: seq<byte>)
    requires |tmp| == PaletteBytes
    ensures |Windows4(tmp)| == 1021
    ensures forall i :: 0 <= i < 1021 ==>
              Windows4(tmp)[i] == PaletteColor(tmp[i], tmp[i + 1], tmp[i + 2], tmp[i + 3])
  {
  }

  /** Consecutive colours overlap: the table is not 256 separate entries. */
  lemma PaletteOverlap(tmp: seq<byte>)
    requires |tmp| == PaletteBytes
    ensures forall i :: 0 <= i < 1020 ==>
              Windows4(tmp)[i + 1].b == Windows4(tmp)[i].g
              && Windows4(tmp)[i + 1].g == Windows4(tmp)[i].r
              && Windows4(tmp)[i + 1].r == Windows4(tmp)[i].a
  {
    forall i | 0 <= i < 1020
      ensures Windows4(tmp)[i + 1].b == Windows4(tmp)[i].g
      ensures Windows4(tmp)[i + 1].g == Windows4(tmp)[i].r
      ensures Windows4(tmp)[i + 1].r == Windows4(tmp)[i].a
    {
      assert Windows4(tmp)[i] == PaletteColor(tmp[i], tmp[i + 1], tmp[i + 2], tmp[i + 3]);
      assert Windows4(tmp)[i + 1] == PaletteColor(tmp[i + 1], tmp[i + 2], tmp[i + 3], tmp[i + 4]);
    }
  }

  /** The palette section: a palette word exactly for version 0, which is
      0 or 1; a colour table exactly for palette 1; a bit mask read from the
      last sixteen bytes otherwise. */
  lemma SectionShape(d: seq<byte>, p: nat, version: u32)
    requires ParsePaletteSection(d, p, version).Ok?
    ensures var s := ParsePaletteSection(d, p, version).value;
      && (s.value.palette.Some? <==> version == 0)
      && (s.value.palette.Some? ==> s.value.palette.value == 0 || s.value.palette.value == 1)
      && (s.value.paletteColors.Some? <==> s.value.palette == Some(1))
      && s.next == p + SectionBytes(version, s.value.palette)
      && (s.value.paletteColors.Some? ==>
            s.value.paletteColors.value == Windows4(d[p + 4..p + 4 + PaletteBytes])
            && s.value.bitmask == BitMask(0, 0, 0, 0))
      && (s.value.paletteColors.None? ==> ParseBitMask(d, s.next - 16) == Ok(Parsed(s.value.bitmask, s.next)))
  {
    if version == 0 {
      var palette := U32At(d, p).value;
      assert palette.next == p + 4;
      if palette.value == 0 {
        assert ParsePaletteSection(d, p, version)
            == Ok(Parsed(PaletteSection(Some(0), None, ParseBitMask(d, p + 4).value.value), p + 20));
      } else {
        assert ParsePaletteSection(d, p, version)
            == Ok(Parsed(PaletteSection(Some(1), Some(Windows4(d[p + 4..p + 4 + PaletteBytes])), DefaultRsb.bitmask),
                         p + 4 + PaletteBytes));
      }
    }
  }

  /** Every pixel parser reads a fixed number of bytes. */
  lemma PixelWidth(d: seq<byte>, palettized: bool, mask: BitMask)
    ensures FixedWidth(PixelParser(palettized, mask), d, PixelBytes(palettized))
  {
    forall q: nat | PixelParser(palettized, mask)(d, q).Ok?
      ensures PixelParser(palettized, mask)(d, q).value.next == q + PixelBytes(palettized)
    {
      assert PixelParser(palettized, mask)(d, q) == ParsePixel(d, q, palettized, mask);
    }
  }

  lemma MaskedPixelWidth(d: seq<byte>)
    ensures FixedWidth(MaskedPixelAt, d, 2)
  {
  }

  /** A widened 16-bit word stays below 2^16. */
  lemma WidenBound(x: u16)
    ensures Widen(x) < 0x1_0000
  {
  }

  // ---------------------------------------------------------------------
  // Pixel lists

  /** The tag a pixel of the main image carries: a palette index in a
      palettized file; otherwise a 16-bit word, ARGB exactly when the
      mask's depth is 32 and BGRA when it is not, and that depth is
      computed without overflow. */
  predicate TaggedBy(p: Pixel, palettized: bool, mask: BitMask) {
    if palettized then p.PaletteColorIndex?
    else BitsFit(mask) && !p.PaletteColorIndex? && (p.Argb? <==> IsArgb(mask)) && p.value < 0x1_0000
  }

  lemma WordTagged(w: u16, mask: BitMask)
    requires PixelFromWord(w, mask).Ok?
    ensures TaggedBy(PixelFromWord(w, mask).value, false, mask)
  {
    WidenBound(w);
  }

  /** `n` palette indices from `start`: one byte each. */
  lemma IndexPixelsAt(d: seq<byte>, start: nat, n: nat, mask: BitMask)
    requires ParseCount(PixelParser(true, mask), d, start, n).Ok?
    ensures var pixels := ParseCount(PixelParser(true, mask), d, start, n).value;
      && pixels.next == start + n && |pixels.value| == n
      && forall i :: 0 <= i < n ==> start + i < |d| && pixels.value[i] == PaletteColorIndex(d[start + i])
  {
    var parser := PixelParser(true, mask);
    PixelWidth(d, true, mask);
    CountFixed(parser, d, start, n, 1);
    forall i | 0 <= i < n
      ensures start + i < |d|
      ensures ParseCount(parser, d, start, n).value.value[i] == PaletteColorIndex(d[start + i])
    {
      assert parser(d, start + 1 * i) == ParsePixel(d, start + i, true, mask);
    }
  }

  /** `n` 16-bit pixels from `start`: two bytes each, tagged by the mask. */
  lemma WordPixelsAt(d: seq<byte>, start: nat, n: nat, mask: BitMask)
    requires ParseCount(PixelParser(false, mask), d, start, n).Ok?
    ensures var pixels := ParseCount(PixelParser(false, mask), d, start, n).value;
      && pixels.next == start + 2 * n && |pixels.value| == n
      && forall i :: 0 <= i < n ==>
           U16At(d, start + 2 * i).Ok?
           && PixelFromWord(U16At(d, start + 2 * i).value.value, mask) == Ok(pixels.value[i])
  {
    var parser := PixelParser(false, mask);
    PixelWidth(d, false, mask);
    CountFixed(parser, d, start, n, 2);
    forall i | 0 <= i < n
      ensures U16At(d, start + 2 * i).Ok?
      ensures PixelFromWord(U16At(d, start + 2 * i).value.value, mask)
                == Ok(ParseCount(parser, d, start, n).value.value[i])
    {
      assert parser(d, start + 2 * i) == ParsePixel(d, start + 2 * i, false, mask);
    }
  }

  /** Every pixel of a decoded image carries the tag its file calls for. */
  lemma PixelsTaggedAt(d: seq<byte>, start: nat, n: nat, palettized: bool, mask: BitMask)
    requires ParseCount(PixelParser(palettized, mask), d, start, n).Ok?
    ensures var pixels := ParseCount(PixelParser(palettized, mask), d, start, n).value.value;
      forall i :: 0 <= i < |pixels| ==> TaggedBy(pixels[i], palettized, mask)
  {
    CountLength(PixelParser(palettized, mask), d, start, n);
    if palettized {
      IndexPixelsAt(d, start, n, mask);
    } else {
      WordPixelsAt(d, start, n, mask);
      var pixels := ParseCount(PixelParser(palettized, mask), d, start, n).value.value;
      forall i | 0 <= i < n
        ensures TaggedBy(pixels[i], palettized, mask)
      {
        WordTagged(U16At(d, start + 2 * i).value.value, mask);
      }
    }
  }

  /** `n` masked pixels from `start`: one 16-bit word each. */
  lemma MaskedPixelsAt(d: seq<byte>, start: nat, n: nat)
    requires ParseCount(MaskedPixelAt, d, start, n).Ok?
    ensures var masked := ParseCount(MaskedPixelAt, d, start, n).value;
      && masked.next == start + 2 * n && |masked.value| == n
      && forall i :: 0 <= i < n ==>
           U16At(d, start + 2 * i).Ok? && masked.value[i] == MaskedPixel(Bv16(U16At(d, start + 2 * i).value.value))
  {
    MaskedPixelWidth(d);
    CountFixed(MaskedPixelAt, d, start, n, 2);
  }

  // ---------------------------------------------------------------------
  // A decoded texture

  /** The parts a successful decode read: the header words, the palette
      section right after them, the image right after that, and for a
      palettized file the second mask and the masked copy. */
  ghost predicate HeaderAt(d: seq<byte>, r: Rsb) {
    && U32At(d, 0) == Ok(Parsed(r.version, 4)) && r.version < 2
    && U32At(d, 4) == Ok(Parsed(r.width, 8))
    && U32At(d, 8) == Ok(Parsed(r.height, 12))
  }

  ghost predicate SectionAt(d: seq<byte>, r: Rsb, s: PaletteSection) {
    && ParsePaletteSection(d, 12, r.version) == Ok(Parsed(s, PixelStart(r)))
    && s.palette == r.palette && s.paletteColors == r.paletteColors
  }

  ghost predicate ImageAt(d: seq<byte>, r: Rsb, s: PaletteSection, pixelsEnd: nat) {
    && SizeFits(r.width, r.height)
    && ParseCount(PixelParser(Palettized(r.version, r.palette), s.bitmask), d, PixelStart(r), Size(r))
         == Ok(Parsed(r.pixels, pixelsEnd))
  }

  ghost predicate TailAt(d: seq<byte>, r: Rsb, s: PaletteSection, pixelsEnd: nat)
    requires SizeFits(r.width, r.height)
  {
    && (Palettized(r.version, r.palette) ==>
          && ParseBitMask(d, pixelsEnd) == Ok(Parsed(r.bitmask, pixelsEnd + 16))
          && r.maskedPixels.Some?
          && ParseCount(MaskedPixelAt, d, pixelsEnd + 16, Size(r)).Ok?
          && ParseCount(MaskedPixelAt, d, pixelsEnd + 16, Size(r)).value.value == r.maskedPixels.value)
    && (!Palettized(r.version, r.palette) ==> r.bitmask == s.bitmask && r.maskedPixels.None?)
  }

  ghost predicate Decoded(d: seq<byte>, r: Rsb, s: PaletteSection, pixelsEnd: nat) {
    HeaderAt(d, r) && SectionAt(d, r, s) && ImageAt(d, r, s, pixelsEnd) && TailAt(d, r, s, pixelsEnd)
  }

  lemma DecodeSteps(d: seq<byte>) returns (s: PaletteSection, pixelsEnd: nat)
    requires DecodeRsb(d).Ok?
    ensures Decoded(d, DecodeRsb(d).value, s, pixelsEnd)
  {
    var version := U32At(d, 0).value.value;
    var width := U32At(d, 4).value.value;
    var height := U32At(d, 8).value.value;
    var section := ParsePaletteSection(d, 12, version).value;
    SectionShape(d, 12, version);
    s := section.value;
    var size := Area(width, height);
    var palettized := Palettized(version, s.palette);
    var pixels := ParseCount(PixelParser(palettized, s.bitmask), d, section.next, size).value;
    pixelsEnd := pixels.next;
    if palettized {
      var mask := ParseBitMask(d, pixelsEnd).value;
      var masked := ParseCount(MaskedPixelAt, d, mask.next, size).value;
      assert DecodeRsb(d) == Ok(Rsb(version, width, height, s.palette, s.paletteColors,
                                    mask.value, pixels.value, Some(masked.value)));
    } else {
      assert DecodeRsb(d) == Ok(Rsb(version, width, height, s.palette, s.paletteColors,
                                    s.bitmask, pixels.value, None));
    }
  }

  /** Only the versions of Rainbow Six and Rogue Spear are accepted, and the
      header words are the texture's version and dimensions. */
  lemma HeaderDecoded(d: seq<byte>)
    requires DecodeRsb(d).Ok?
    ensures var r := DecodeRsb(d).value;
      && r.version < 2
      && U32At(d, 0) == Ok(Parsed(r.version, 4))
      && U32At(d, 4) == Ok(Parsed(r.width, 8))
      && U32At(d, 8) == Ok(Parsed(r.height, 12))
  {
  }

  /** Which fields exist: a palette word exactly in version 0 files, always
      0 or 1; a colour table exactly for palette 1, holding the 1021
      windows of the 1024 bytes after the palette word. */
  ghost predicate PaletteFieldsOf(d: seq<byte>, r: Rsb) {
    && (r.palette.Some? <==> r.version == 0)
    && (r.palette.Some? ==> r.palette.value == 0 || r.palette.value == 1)
    && (r.paletteColors.Some? <==> r.palette == Some(1))
    && (r.paletteColors.Some? ==>
          && |r.paletteColors.value| == 1021
          && 16 + PaletteBytes <= |d|
          && forall i :: 0 <= i < 1021 ==>
               r.paletteColors.value[i] == PaletteColor(d[16 + i], d[17 + i], d[18 + i], d[19 + i]))
  }

  lemma PaletteFieldsFromParts(d: seq<byte>, r: Rsb, s: PaletteSection)
    requires SectionAt(d, r, s)
    ensures PaletteFieldsOf(d, r)
  {
    SectionShape(d, 12, r.version);
    if r.paletteColors.Some? {
      var tmp := d[16..16 + PaletteBytes];
      assert r.paletteColors.value == Windows4(tmp);
      PaletteWindows(tmp);
      forall i | 0 <= i < 1021
        ensures r.paletteColors.value[i] == PaletteColor(d[16 + i], d[17 + i], d[18 + i], d[19 + i])
      {
        assert tmp[i] == d[16 + i] && tmp[i + 1] == d[17 + i] && tmp[i + 2] == d[18 + i] && tmp[i + 3] == d[19 + i];
      }
    }
  }

  lemma PaletteFields(d: seq<byte>)
    requires DecodeRsb(d).Ok?
    ensures PaletteFieldsOf(d, DecodeRsb(d).value)
  {
    var s, pixelsEnd := DecodeSteps(d);
    PaletteFieldsFromParts(d, DecodeRsb(d).value, s);
  }

  /** One pixel per texel, all with the same tag. */
  ghost predicate UniformPixelsOf(r: Rsb) {
    && SizeFits(r.width, r.height) && |r.pixels| == Size(r)
    && forall i :: 0 <= i < |r.pixels| ==> TaggedBy(r.pixels[i], Palettized(r.version, r.palette), r.bitmask)
  }

  lemma UniformPixelsFromParts(d: seq<byte>, r: Rsb, s: PaletteSection, pixelsEnd: nat)
    requires ImageAt(d, r, s, pixelsEnd) && TailAt(d, r, s, pixelsEnd)
    ensures UniformPixelsOf(r)
  {
    var palettized := Palettized(r.version, r.palette);
    CountLength(PixelParser(palettized, s.bitmask), d, PixelStart(r), Size(r));
    PixelsTaggedAt(d, PixelStart(r), Size(r), palettized, s.bitmask);
    if palettized {
      forall i | 0 <= i < |r.pixels|
        ensures TaggedBy(r.pixels[i], palettized, r.bitmask)
      {
        assert TaggedBy(r.pixels[i], palettized, s.bitmask);
      }
    }
  }

  lemma UniformPixels(d: seq<byte>)
    requires DecodeRsb(d).Ok?
    ensures UniformPixelsOf(DecodeRsb(d).value)
  {
    var s, pixelsEnd := DecodeSteps(d);
    UniformPixelsFromParts(d, DecodeRsb(d).value, s, pixelsEnd);
  }

  /** Where the pixels come from: in a palettized file the bytes right after
      the colour table, otherwise the words right after the mask, tagged by
      the mask the texture keeps. */
  ghost predicate PixelsFrom(d: seq<byte>, r: Rsb) {
    && (Palettized(r.version, r.palette) ==>
          forall i :: 0 <= i < |r.pixels| ==> 1040 + i < |d| && r.pixels[i] == PaletteColorIndex(d[1040 + i]))
    && (!Palettized(r.version, r.palette) ==>
          forall i :: 0 <= i < |r.pixels| ==>
            U16At(d, PixelStart(r) + 2 * i).Ok?
            && PixelFromWord(U16At(d, PixelStart(r) + 2 * i).value.value, r.bitmask) == Ok(r.pixels[i]))
  }

  lemma PixelsFromParts(d: seq<byte>, r: Rsb, s: PaletteSection, pixelsEnd: nat)
    requires ImageAt(d, r, s, pixelsEnd) && TailAt(d, r, s, pixelsEnd)
    ensures PixelsFrom(d, r)
  {
    CountLength(PixelParser(Palettized(r.version, r.palette), s.bitmask), d, PixelStart(r), Size(r));
    if Palettized(r.version, r.palette) {
      IndexPixelsAt(d, PixelStart(r), Size(r), s.bitmask);
    } else {
      WordPixelsAt(d, PixelStart(r), Size(r), s.bitmask);
    }
  }

  lemma PixelsDecoded(d: seq<byte>)
    requires DecodeRsb(d).Ok?
    ensures PixelsFrom(d, DecodeRsb(d).value)
  {
    var s, pixelsEnd := DecodeSteps(d);
    PixelsFromParts(d, DecodeRsb(d).value, s, pixelsEnd);
  }

  /** A masked copy exactly for palettized files: the second bit mask
      follows the one-byte pixels and is the one the texture keeps, and one
      16-bit masked pixel per texel follows it. */
  ghost predicate MaskedCopyOf(d: seq<byte>, r: Rsb) {
    && (r.maskedPixels.Some? <==> Palettized(r.version, r.palette))
    && (r.maskedPixels.Some? ==>
          SizeFits(r.width, r.height) && MaskedTailAt(d, Size(r), r.bitmask, r.maskedPixels.value))
  }

  /** The tail of a palettized file with `size` texels: the second mask
      right after the one-byte pixels, then one word per masked pixel. */
  ghost predicate MaskedTailAt(d: seq<byte>, size: nat, mask: BitMask, masked: seq<MaskedPixel>) {
    && ParseBitMask(d, 1040 + size) == Ok(Parsed(mask, 1056 + size))
    && |masked| == size
    && forall i :: 0 <= i < size ==>
         U16At(d, 1056 + size + 2 * i).Ok?
         && masked[i] == MaskedPixel(Bv16(U16At(d, 1056 + size + 2 * i).value.value))
  }

  lemma MaskedTail(d: seq<byte>, size: nat, mask: BitMask, masked: seq<MaskedPixel>)
    requires ParseBitMask(d, 1040 + size) == Ok(Parsed(mask, 1040 + size + 16))
    requires ParseCount(MaskedPixelAt, d, 1040 + size + 16, size).Ok?
    requires ParseCount(MaskedPixelAt, d, 1040 + size + 16, size).value.value == masked
    ensures MaskedTailAt(d, size, mask, masked)
  {
    assert 1040 + size + 16 == 1056 + size;
    MaskedPixelsAt(d, 1056 + size, size);
  }

  lemma MaskedCopyFromParts(d: seq<byte>, r: Rsb, s: PaletteSection, pixelsEnd: nat)
    requires ImageAt(d, r, s, pixelsEnd) && TailAt(d, r, s, pixelsEnd)
    ensures MaskedCopyOf(d, r)
  {
    if Palettized(r.version, r.palette) {
      var size := Size(r);
      IndexPixelsAt(d, 1040, size, s.bitmask);
      MaskedTail(d, size, r.bitmask, r.maskedPixels.value);
    }
  }

  lemma MaskedPixelsDecoded(d: seq<byte>)
    requires DecodeRsb(d).Ok?
    ensures MaskedCopyOf(d, DecodeRsb(d).value)
  {
    var s, pixelsEnd := DecodeSteps(d);
    MaskedCopyFromParts(d, DecodeRsb(d).value, s, pixelsEnd);
  }

  /** Without a palette the texture keeps the bit mask read right after the
      dimensions (version 1) or after the palette word (version 0). */
  ghost predicate FirstMaskKeptOf(d: seq<byte>, r: Rsb) {
    && (r.version == 1 ==> ParseBitMask(d, 12) == Ok(Parsed(r.bitmask, 28)))
    && (r.palette == Some(0) ==> ParseBitMask(d, 16) == Ok(Parsed(r.bitmask, 32)))
  }

  lemma FirstMaskFromParts(d: seq<byte>, r: Rsb, s: PaletteSection, pixelsEnd: nat)
    requires SectionAt(d, r, s) && ImageAt(d, r, s, pixelsEnd) && TailAt(d, r, s, pixelsEnd)
    ensures FirstMaskKeptOf(d, r)
  {
    SectionShape(d, 12, r.version);
  }

  lemma FirstBitMaskKept(d: seq<byte>)
    requires DecodeRsb(d).Ok?
    ensures FirstMaskKeptOf(d, DecodeRsb(d).value)
  {
    var s, pixelsEnd := DecodeSteps(d);
    FirstMaskFromParts(d, DecodeRsb(d).value, s, pixelsEnd);
  }

  // ---------------------------------------------------------------------
  // Rejected files

  /** A version word of 2 or more is refused before anything else is read. */
  lemma UnsupportedVersionRejected(d: seq<byte>)
    requires U32At(d, 0).Ok? && U32At(d, 0).value.value >= 2
    ensures DecodeRsb(d) == Err(UnsupportedVersion(U32At(d, 0).value.value))
  {
  }

  /** A version 0 file whose palette word is neither 0 nor 1 is refused. */
  lemma UnhandledPaletteRejected(d: seq<byte>)
    requires 16 <= |d|
    requires U32At(d, 0).value.value == 0 && U32At(d, 12).value.value > 1
    ensures DecodeRsb(d) == Err(UnhandledPalette(U32At(d, 12).value.value))
  {
  }

  /** `width * height` beyond 32 bits is refused once the palette section
      has been read. */
  lemma SizeOverflowRejected(d: seq<byte>)
    requires 12 <= |d| && U32At(d, 0).value.value < 2
    requires ParsePaletteSection(d, 12, U32At(d, 0).value.value).Ok?
    requires !SizeFits(U32At(d, 4).value.value, U32At(d, 8).value.value)
    ensures DecodeRsb(d) == Err(ArithmeticOverflow)
  {
  }

  /** A 16-bit pixel under a mask whose depth overflows fails to decode,
      once its word has been read. */
  lemma WordFails(d: seq<byte>, p: nat, mask: BitMask)
    requires p + 2 <= |d| && !BitsFit(mask)
    ensures ParsePixel(d, p, false, mask) == Err(ArithmeticOverflow)
  {
    var w := U16At(d, p).value;
    assert PixelFromWord(w.value, mask) == Err(ArithmeticOverflow);
  }

  /** A failing first element fails a one-element list. */
  lemma FirstFails<T>(parser: Parser<T>, d: seq<byte>, p: nat)
    requires parser(d, p).Err?
    ensures ParseCount(parser, d, p, 1) == Err(parser(d, p).error)
  {
    assert ParseCount(parser, d, p, 0) == Ok(Parsed([], p));
  }

  lemma FirstWordFails(d: seq<byte>, p: nat, mask: BitMask)
    requires p + 2 <= |d| && !BitsFit(mask)
    ensures ParseCount(PixelParser(false, mask), d, p, 1) == Err(ArithmeticOverflow)
  {
    WordFails(d, p, mask);
    assert PixelParser(false, mask)(d, p) == ParsePixel(d, p, false, mask);
    FirstFails(PixelParser(false, mask), d, p);
  }

  /** When the mask's depth overflows, the first 16-bit pixel read fails
      the whole decode of a version 1 file. */
  lemma DepthOverflowRejected(d: seq<byte>, width: u32, height: u32, mask: BitMask)
    requires U32At(d, 0) == Ok(Parsed(1, 4))
    requires U32At(d, 4) == Ok(Parsed(width, 8)) && U32At(d, 8) == Ok(Parsed(height, 12))
    requires ParseBitMask(d, 12) == Ok(Parsed(mask, 28)) && !BitsFit(mask)
    requires SizeFits(width, height) && Area(width, height) > 0 && 30 <= |d|
    ensures DecodeRsb(d) == Err(ArithmeticOverflow)
  {
    var size := Area(width, height);
    var section := PaletteSection(None, None, mask);
    assert ParsePaletteSection(d, 12, 1) == Ok(Parsed(section, 28));
    var parser := PixelParser(false, mask);
    FirstWordFails(d, 28, mask);
    CountFailure(parser, d, 28, 1, size);
    assert !Palettized(1, section.palette);
  }

  /** Palette word 0 at 12 and a mask at 16 make a section that ends at 32. */
  lemma Palette0Section(d: seq<byte>, mask: BitMask)
    requires U32At(d, 12) == Ok(Parsed(0, 16)) && ParseBitMask(d, 16) == Ok(Parsed(mask, 32))
    ensures ParsePaletteSection(d, 12, 0) == Ok(Parsed(PaletteSection(Some(0), None, mask), 32))
  {
  }

  /** A section without a colour table whose mask overflows fails the
      decode at the first pixel. */
  lemma DepthOverflowAfterSection(d: seq<byte>, version: u32, width: u32, height: u32,
                                  section: PaletteSection, next: nat)
    requires U32At(d, 0) == Ok(Parsed(version, 4)) && version < 2
    requires U32At(d, 4) == Ok(Parsed(width, 8)) && U32At(d, 8) == Ok(Parsed(height, 12))
    requires ParsePaletteSection(d, 12, version) == Ok(Parsed(section, next))
    requires !Palettized(version, section.palette) && !BitsFit(section.bitmask)
    requires SizeFits(width, height) && Area(width, height) > 0 && next + 2 <= |d|
    ensures DecodeRsb(d) == Err(ArithmeticOverflow)
  {
    var parser := PixelParser(false, section.bitmask);
    FirstWordFails(d, next, section.bitmask);
    CountFailure(parser, d, next, 1, Area(width, height));
  }

  /** The same for a version 0 file with palette 0, whose mask follows the
      palette word. */
  lemma DepthOverflowRejectedVersion0(d: seq<byte>, width: u32, height: u32, mask: BitMask)
    requires U32At(d, 0) == Ok(Parsed(0, 4))
    requires U32At(d, 4) == Ok(Parsed(width, 8)) && U32At(d, 8) == Ok(Parsed(height, 12))
    requires U32At(d, 12) == Ok(Parsed(0, 16))
    requires ParseBitMask(d, 16) == Ok(Parsed(mask, 32)) && !BitsFit(mask)
    requires SizeFits(width, height) && Area(width, height) > 0 && 34 <= |d|
    ensures DecodeRsb(d) == Err(ArithmeticOverflow)
  {
    Palette0Section(d, mask);
    DepthOverflowAfterSection(d, 0, width, height, PaletteSection(Some(0), None, mask), 32);
  }

  // ---------------------------------------------------------------------
  // A whole file

  /** A version 1 file two texels wide and one high, with the 5-6-5 mask. */
  const TinyFile: seq<byte> := [1, 0, 0, 0,  2, 0, 0, 0,  1, 0, 0, 0,
                                5, 0, 0, 0,  6, 0, 0, 0,  5, 0, 0, 0,  0, 0, 0, 0,
                                0x08, 0x42,  0x62, 0x10]

  lemma TinyFileHeader()
    ensures U32At(TinyFile, 0) == Ok(Parsed(1, 4))
    ensures U32At(TinyFile, 4) == Ok(Parsed(2, 8))
    ensures U32At(TinyFile, 8) == Ok(Parsed(1, 12))
  {
  }

  lemma TinyFileMask()
    ensures ParseBitMask(TinyFile, 12) == Ok(Parsed(Mask565, 28))
  {
    assert U32At(TinyFile, 12) == Ok(Parsed(5, 16));
    assert U32At(TinyFile, 16) == Ok(Parsed(6, 20));
    assert U32At(TinyFile, 20) == Ok(Parsed(5, 24));
    assert U32At(TinyFile, 24) == Ok(Parsed(0, 28));
    assert Bv32(5) == 5 && Bv32(6) == 6 && Bv32(0) == 0;
  }

  lemma TinyFileSection()
    ensures ParsePaletteSection(TinyFile, 12, 1) == Ok(Parsed(PaletteSection(None, None, Mask565), 28))
  {
    TinyFileMask();
  }

  /** The two words read as BGRA pixels, one after the other. */
  lemma TinyFilePixels()
    ensures ParseCount(PixelParser(false, Mask565), TinyFile, 28, 2)
            == Ok(Parsed([Bgra(0x4208), Bgra(0x1062)], 32))
  {
    Mask565Depth();
    var parser := PixelParser(false, Mask565);
    assert U16At(TinyFile, 28) == Ok(Parsed(0x4208, 30));
    assert U16At(TinyFile, 30) == Ok(Parsed(0x1062, 32));
    assert PixelFromWord(0x4208, Mask565) == Ok(Bgra(0x4208));
    assert PixelFromWord(0x1062, Mask565) == Ok(Bgra(0x1062));
    assert parser(TinyFile, 28) == Ok(Parsed(Bgra(0x4208), 30));
    assert parser(TinyFile, 30) == Ok(Parsed(Bgra(0x1062), 32));
    assert ParseCount(parser, TinyFile, 28, 0) == Ok(Parsed([], 28));
    assert [] + [Bgra(0x4208)] == [Bgra(0x4208)];
    assert ParseCount(parser, TinyFile, 28, 1) == Ok(Parsed([Bgra(0x4208)], 30));
    assert [Bgra(0x4208)] + [Bgra(0x1062)] == [Bgra(0x4208), Bgra(0x1062)];
  }

  /** It decodes to two BGRA pixels and no palette or masked copy; the
      first has blue 8, green 16 and red 8, the second blue 2, green 3 and
      red 2. */
  lemma TinyFileDecodes()
    ensures DecodeRsb(TinyFile)
            == Ok(Rsb(1, 2, 1, None, None, Mask565, [Bgra(0x4208), Bgra(0x1062)], None))
    ensures BgraIs(0x4208, 8, 16, 8) && BgraIs(0x1062, 2, 3, 2)
  {
    TinyFileHeader();
    TinyFileSection();
    TinyFilePixels();
    assert Area(2, 1) == 2;
    BgraSample0();
    BgraSample1();
  }
}
