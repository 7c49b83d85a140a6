/** The RSB texture format as a function of the file's bytes.

    An RSB file starts with a version word (only 0 and 1, the versions of
    Rainbow Six and Rogue Spear, are read), the width and the height. A
    version 0 file then has a palette word: 0 means a bit mask follows,
    1 means a 1024-byte colour table follows. A version 1 file has the bit
    mask directly. Then come width * height pixels: one byte each (a
    palette index) when the file is version 0 with palette 1, a 16-bit word
    each otherwise. A palettized file ends with a second bit mask and
    width * height 16-bit masked pixels.

    The source computes `width * height` and the depth of the mask in
    32-bit arithmetic, which panics on overflow in a debug build; the model
    reports these as `ArithmeticOverflow` at the point where the source
    would panic. */
module RsbFormat {
  import opened Bytes
  import opened Pixels

  /** One entry of the colour table, in file order. */
  datatype PaletteColor = PaletteColor(b: byte, g: byte, r: byte, a: byte)

  /** A decoded texture. The file name the source also keeps is not part
      of the bytes and not modelled. */
  datatype Rsb = Rsb(
    version: u32,
    width: u32,
    height: u32,
    palette: Option<u32>,
    paletteColors: Option<seq<PaletteColor>>,
    bitmask: BitMask,
    pixels: seq<Pixel>,
    maskedPixels: Option<seq<MaskedPixel>>)

  /** `Rsb::default()`: the value the decoder starts from. */
  const DefaultRsb: Rsb := Rsb(0, 0, 0, None, None, BitMask(0, 0, 0, 0), [], None)

  /** The size of the colour table in bytes: 256 four-byte entries. */
  const PaletteBytes: nat := 256 * 4

  /** The exact product `width * height`. */
  function Area(width: u32, height: u32): nat {
    width as nat * height as nat
  }

  /** `width * height` does not overflow 32 bits. */
  predicate SizeFits(width: u32, height: u32) {
    Area(width, height) < 0x1_0000_0000
  }

  /** `Rsb::size`: the number of pixels. */
  function Size(rsb: Rsb): (n: nat)
    requires SizeFits(rsb.width, rsb.height)
    ensures n < 0x1_0000_0000
  {
    Area(rsb.width, rsb.height)
  }

  /** The file carries a palette and so one-byte pixels and a masked copy. */
  predicate Palettized(version: u32, palette: Option<u32>) {
    version == 0 && palette == Some(1)
  }

  // ---------------------------------------------------------------------
  // Pieces

  /** A little-endian word as the bit-vector the channel arithmetic uses. */
  function Bv32(x: u32): bv32 {
    x as bv32
  }

  function Bv16(x: u16): bv16 {
    x as bv16
  }

  /** A 16-bit pixel word widened to the 32 bits `Pixel` holds. */
  function Widen(x: u16): bv32 {
    x as bv32
  }

  /** `BitMask::try_new`: four little-endian words r, g, b, a. */
  function ParseBitMask(d: seq<byte>, p: nat): Result<Parsed<BitMask>> {
    var r :- U32At(d, p);
    var g :- U32At(d, r.next);
    var b :- U32At(d, g.next);
    var a :- U32At(d, b.next);
    Ok(Parsed(BitMask(Bv32(r.value), Bv32(g.value), Bv32(b.value), Bv32(a.value)), a.next))
  }

  /** `tmp.windows(4)`: one colour per starting offset, so consecutive
      entries overlap in three bytes. */
  function Windows4(tmp: seq<byte>): seq<PaletteColor> {
    if |tmp| < 4 then []
    else seq(|tmp| - 3, i requires 0 <= i < |tmp| - 3 =>
               PaletteColor(tmp[i], tmp[i + 1], tmp[i + 2], tmp[i + 3]))
  }

  /** What follows the dimensions: the palette word, the colour table and
      the first bit mask, as far as the version and palette call for them. */
  datatype PaletteSection = PaletteSection(
    palette: Option<u32>,
    paletteColors: Option<seq<PaletteColor>>,
    bitmask: BitMask)

  function ParsePaletteSection(d: seq<byte>, p: nat, version: u32): Result<Parsed<PaletteSection>> {
    if version == 0 then
      var palette :- U32At(d, p);
      if palette.value == 0 then
        var mask :- ParseBitMask(d, palette.next);
        Ok(Parsed(PaletteSection(Some(0), None, mask.value), mask.next))
      else if palette.value == 1 then
        var tmp :- ExactAt(d, palette.next, PaletteBytes);
        Ok(Parsed(PaletteSection(Some(1), Some(Windows4(tmp.value)), DefaultRsb.bitmask), tmp.next))
      else Err(UnhandledPalette(palette.value))
    else
      var mask :- ParseBitMask(d, p);
      Ok(Parsed(PaletteSection(None, None, mask.value), mask.next))
  }

  /** One pixel of the main image: a palette index byte, or a 16-bit word
      tagged ARGB when the mask is 32 bits deep and BGRA otherwise. The
      depth is computed after the word is read, and overflows there. */
  function ParsePixel(d: seq<byte>, p: nat, palettized: bool, mask: BitMask): Result<Parsed<Pixel>> {
    if palettized then
      var tmp :- ExactAt(d, p, 1);
      Ok(Parsed(PaletteColorIndex(tmp.value[0]), tmp.next))
    else
      var w :- U16At(d, p);
      var pixel :- PixelFromWord(w.value, mask);
      Ok(Parsed(pixel, w.next))
  }

  /** The tag a 16-bit word gets from the mask's depth. */
  function PixelFromWord(w: u16, mask: BitMask): Result<Pixel> {
    if !BitsFit(mask) then Err(ArithmeticOverflow)
    else if IsArgb(mask) then Ok(Argb(Widen(w)))
    else Ok(Bgra(Widen(w)))
  }

  function PixelParser(palettized: bool, mask: BitMask): Parser<Pixel> {
    (d: seq<byte>, p: nat) => ParsePixel(d, p, palettized, mask)
  }

  /** One pixel of the masked copy: a 16-bit word. */
  function MaskedPixelAt(d: seq<byte>, p: nat): Result<Parsed<MaskedPixel>> {
    var w :- U16At(d, p);
    Ok(Parsed(MaskedPixel(Bv16(w.value)), w.next))
  }

  // ---------------------------------------------------------------------
  // The whole file

  /** `rsb::read` after the file has been loaded: decode `d` from offset 0.
      Bytes after the last pixel are ignored. */
  function DecodeRsb(d: seq<byte>): Result<Rsb> {
    var version :- U32At(d, 0);
    if version.value >= 2 then Err(UnsupportedVersion(version.value))
    else
      var width :- U32At(d, version.next);
      var height :- U32At(d, width.next);
      var section :- ParsePaletteSection(d, height.next, version.value);
      var s := section.value;
      if !SizeFits(width.value, height.value) then Err(ArithmeticOverflow)
      else
        var size := Area(width.value, height.value);
        var palettized := Palettized(version.value, s.palette);
        var pixels :- ParseCount(PixelParser(palettized, s.bitmask), d, section.next, size);
        if palettized then
          var mask :- ParseBitMask(d, pixels.next);
          var masked :- ParseCount(MaskedPixelAt, d, mask.next, size);
          Ok(Rsb(version.value, width.value, height.value, s.palette, s.paletteColors,
                 mask.value, pixels.value, Some(masked.value)))
        else
          Ok(Rsb(version.value, width.value, height.value, s.palette, s.paletteColors,
                 s.bitmask, pixels.value, None))
  }
}
