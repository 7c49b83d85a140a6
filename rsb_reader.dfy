/** The RSB decoder as the source runs it: it starts from the default
    texture, advances one cursor over the bytes, assigns the texture's
    fields one after another and fills the pixel lists by pushing in loops.
    `ReadRsb` is proved to compute exactly `DecodeRsb`. */
module RsbReader {
  import opened Bytes
  import opened Pixels
  import opened RsbFormat

  method ReadBitMask(c: Cursor) returns (r: Result<BitMask>)
    modifies c
    ensures Matches(ParseBitMask(c.data, old(c.pos)), r, c.pos)
  {
    var red :- c.ReadU32();
    var green :- c.ReadU32();
    var blue :- c.ReadU32();
    var alpha :- c.ReadU32();
    return Ok(BitMask(Bv32(red), Bv32(green), Bv32(blue), Bv32(alpha)));
  }

  /** The colour table: one entry pushed per 4-byte window of `tmp`. */
  method ReadPaletteColors(tmp: seq<byte>) returns (colors: seq<PaletteColor>)
    ensures colors == Windows4(tmp)
  {
    colors := [];
    if |tmp| < 4 {
      return;
    }
    ghost var windows := Windows4(tmp);
    for i := 0 to |tmp| - 3
      invariant colors == windows[..i]
    {
      assert windows[..i + 1] == windows[..i] + [windows[i]];
      colors := colors + [PaletteColor(tmp[i], tmp[i + 1], tmp[i + 2], tmp[i + 3])];
    }
    assert windows[..|tmp| - 3] == windows;
  }

  /** One pixel of the main image. */
  method ReadPixel(c: Cursor, palettized: bool, mask: BitMask) returns (r: Result<Pixel>)
    modifies c
    ensures Matches(ParsePixel(c.data, old(c.pos), palettized, mask), r, c.pos)
  {
    if palettized {
      var tmp :- c.ReadExact(1);
      return Ok(PaletteColorIndex(tmp[0]));
    }
    var value :- c.ReadU16();
    r := PixelFromWord(value, mask);
  }

  /** The main image: `size` pixels pushed one after another. */
  method ReadPixels(c: Cursor, size: nat, palettized: bool, mask: BitMask) returns (r: Result<seq<Pixel>>)
    modifies c
    ensures Matches(ParseCount(PixelParser(palettized, mask), c.data, old(c.pos), size), r, c.pos)
  {
    var start := c.pos;
    ghost var parser := PixelParser(palettized, mask);
    var pixels: seq<Pixel> := [];
    for i := 0 to size
      invariant ParseCount(parser, c.data, start, i) == Ok(Parsed(pixels, c.pos))
    {
      var pixel := ReadPixel(c, palettized, mask);
      if pixel.Err? {
        CountFailure(parser, c.data, start, i + 1, size);
        return Err(pixel.error);
      }
      pixels := pixels + [pixel.value];
    }
    return Ok(pixels);
  }

  /** The masked copy: `size` 16-bit words. */
  method ReadMaskedPixels(c: Cursor, size: nat) returns (r: Result<seq<MaskedPixel>>)
    modifies c
    ensures Matches(ParseCount(MaskedPixelAt, c.data, old(c.pos), size), r, c.pos)
  {
    var start := c.pos;
    var masked: seq<MaskedPixel> := [];
    for i := 0 to size
      invariant ParseCount(MaskedPixelAt, c.data, start, i) == Ok(Parsed(masked, c.pos))
    {
      var value := c.ReadU16();
      if value.Err? {
        CountFailure(MaskedPixelAt, c.data, start, i + 1, size);
        return Err(value.error);
      }
      masked := masked + [MaskedPixel(Bv16(value.value))];
    }
    return Ok(masked);
  }

  /** `rsb::read` on the loaded bytes. */
  method ReadRsb(data: seq<byte>) returns (r: Result<Rsb>)
    ensures r == DecodeRsb(data)
  {
    var c := new Cursor(data);
    var rsb := DefaultRsb;

    var version :- c.ReadU32();
    rsb := rsb.(version := version);
    if rsb.version >= 2 {
      return Err(UnsupportedVersion(rsb.version));
    }

    var width :- c.ReadU32();
    rsb := rsb.(width := width);
    var height :- c.ReadU32();
    rsb := rsb.(height := height);

    ghost var sectionStart := c.pos;
    var palette: Option<u32>;
    if rsb.version == 0 {
      var p :- c.ReadU32();
      if p == 0 {
        var mask :- ReadBitMask(c);
        rsb := rsb.(bitmask := mask);
      } else if p == 1 {
        var tmp :- c.ReadExact(PaletteBytes);
        var colors := ReadPaletteColors(tmp);
        rsb := rsb.(paletteColors := Some(colors));
      } else {
        return Err(UnhandledPalette(p));
      }
      palette := Some(p);
    } else {
      var mask :- ReadBitMask(c);
      rsb := rsb.(bitmask := mask);
      palette := None;
    }
    rsb := rsb.(palette := palette);
    assert ParsePaletteSection(data, sectionStart, rsb.version)
        == Ok(Parsed(PaletteSection(rsb.palette, rsb.paletteColors, rsb.bitmask), c.pos));

    if !SizeFits(rsb.width, rsb.height) {
      return Err(ArithmeticOverflow);
    }
    var size := Size(rsb);

    var palettized := Palettized(rsb.version, rsb.palette);
    var pixels :- ReadPixels(c, size, palettized, rsb.bitmask);
    rsb := rsb.(pixels := pixels);

    if palettized {
      var mask :- ReadBitMask(c);
      rsb := rsb.(bitmask := mask);
      var masked :- ReadMaskedPixels(c, size);
      rsb := rsb.(maskedPixels := Some(masked));
    }
    return Ok(rsb);
  }
}
