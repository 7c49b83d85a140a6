/** Channel extraction for RSB pixel data. A `BitMask` gives the width in
    bits of the red, green, blue and alpha channels; a pixel word is cut
    into those fields in one of three layouts:

      layout        r shift   g shift   b shift   a shift
      Argb          a         a+r       a+r+g     0
      Bgra          b+g       b         0         b+g+r
      MaskedPixel   0         r         r+g       r+g+b

    Widths and words are bit-vectors, as in the source's `u32`/`u16`
    arithmetic. Where the source would panic in a debug build (an addition
    of widths that leaves 32 bits, a shift by at least the word size, a
    channel of a palette index) the accessors carry a precondition. */
module Pixels {
  import opened Bytes

  /** The channel widths of the pixel data. */
  datatype BitMask = BitMask(r: bv32, g: bv32, b: bv32, a: bv32)

  /** `x + y` does not wrap around in 32 bits. */
  predicate AddFits(x: bv32, y: bv32) {
    y <= 0xFFFF_FFFF - x
  }

  /** `bits()` adds r, g, b and a left to right in `u32`; no step may wrap. */
  predicate BitsFit(m: BitMask) {
    AddFits(m.r, m.g) && AddFits(m.r + m.g, m.b) && AddFits(m.r + m.g + m.b, m.a)
  }

  /** The bit depth: the sum of the four widths. */
  function Bits(m: BitMask): bv32
    requires BitsFit(m)
  {
    m.r + m.g + m.b + m.a
  }

  /** Pixel data is in ARGB order exactly when the depth is 32 bits. */
  predicate IsArgb(m: BitMask)
    requires BitsFit(m)
  {
    Bits(m) == 32
  }

  // ---------------------------------------------------------------------
  // Bit fields

  /** `w` low bits set. */
  function Ones32(w: bv32): bv32
    requires w < 32
  {
    ((1 as bv32) << w) - 1
  }

  /** The `w`-bit field of `v` that starts at bit `s`: shift first, mask second. */
  function Field32(v: bv32, w: bv32, s: bv32): bv32
    requires w < 32 && s < 32
  {
    (v >> s) & Ones32(w)
  }

  /** Masking in place and then shifting down picks out the same field. */
  lemma MaskThenShift32(value: bv32, channel: bv32, shift: bv32)
    requires 0 < channel < 32 && shift < 32
    ensures (value & (Ones32(channel) << shift)) >> shift == Field32(value, channel, shift)
  {
  }

  /** A `w`-bit field is below 2^w. */
  lemma FieldBound32(value: bv32, channel: bv32, shift: bv32)
    requires channel < 32 && shift < 32
    ensures Field32(value, channel, shift) < (1 as bv32) << channel
  {
  }

  /** The shifts `masked` performs stay below the word size. */
  predicate ChannelFits32(channel: bv32, shift: bv32) {
    channel > 0 ==> channel < 32 && shift < 32
  }

  /** `Pixel::masked`: nothing for a zero-width channel, otherwise the
      `channel`-bit field at `shift`. */
  function Masked32(value: bv32, channel: bv32, shift: bv32): (r: Option<bv32>)
    requires ChannelFits32(channel, shift)
    ensures r.None? <==> channel == 0
    ensures r.Some? ==> r.value == Field32(value, channel, shift)
  {
    if channel > 0 then
      MaskThenShift32(value, channel, shift);
      Some((value & (Ones32(channel) << shift)) >> shift)
    else None
  }

  /** A channel read from a 32-bit word fits in its width. */
  lemma MaskedBound32(value: bv32, channel: bv32, shift: bv32)
    requires ChannelFits32(channel, shift)
    ensures Masked32(value, channel, shift).Some? ==>
              Masked32(value, channel, shift).value < (1 as bv32) << channel
  {
    if channel > 0 {
      FieldBound32(value, channel, shift);
    }
  }

  function Ones16(w: bv16): bv16
    requires w < 16
  {
    ((1 as bv16) << w) - 1
  }

  function Field16(v: bv16, w: bv16, s: bv16): bv16
    requires w < 16 && s < 16
  {
    (v >> s) & Ones16(w)
  }

  lemma MaskThenShift16(value: bv16, channel: bv16, shift: bv16)
    requires 0 < channel < 16 && shift < 16
    ensures (value & (Ones16(channel) << shift)) >> shift == Field16(value, channel, shift)
  {
  }

  lemma FieldBound16(value: bv16, channel: bv16, shift: bv16)
    requires channel < 16 && shift < 16
    ensures Field16(value, channel, shift) < (1 as bv16) << channel
  {
  }

  predicate ChannelFits16(channel: bv32, shift: bv32) {
    channel > 0 ==> channel < 16 && shift < 16
  }

  /** `MaskedPixel::masked`: the same extraction on a 16-bit word. */
  function Masked16(value: bv16, channel: bv32, shift: bv32): (r: Option<bv16>)
    requires ChannelFits16(channel, shift)
    ensures r.None? <==> channel == 0
    ensures r.Some? ==> r.value == Field16(value, channel as bv16, shift as bv16)
  {
    if channel > 0 then
      var c, s := channel as bv16, shift as bv16;
      MaskThenShift16(value, c, s);
      Some((value & (Ones16(c) << s)) >> s)
    else None
  }

  /** A channel read from a 16-bit word fits in its width. */
  lemma MaskedBound16(value: bv16, channel: bv32, shift: bv32)
    requires ChannelFits16(channel, shift)
    ensures Masked16(value, channel, shift).Some? ==>
              Masked16(value, channel, shift).value < (1 as bv16) << (channel as bv16)
  {
    if channel > 0 {
      FieldBound16(value, channel as bv16, shift as bv16);
    }
  }

  // ---------------------------------------------------------------------
  // Pixels

  /** A texel of the main image: a palette index, or a word whose layout
      the bit mask gives. */
  datatype Pixel = PaletteColorIndex(index: byte) | Argb(value: bv32) | Bgra(value: bv32)
  {
    /** Red: the r-bit field at bit a in ARGB order, at bit b + g in BGRA order. */
    function R(m: BitMask): (r: Option<bv32>)
      requires !PaletteColorIndex?
      requires Argb? ==> ChannelFits32(m.r, m.a)
      requires Bgra? ==> AddFits(m.b, m.g) && ChannelFits32(m.r, m.b + m.g)
      ensures r.None? <==> m.r == 0
      ensures r.Some? ==> r.value < (1 as bv32) << m.r
    {
      var shift := if Argb? then m.a else m.b + m.g;
      MaskedBound32(value, m.r, shift);
      Masked32(value, m.r, shift)
    }

    /** Green: the g-bit field at bit a + r in ARGB order, at bit b in BGRA order. */
    function G(m: BitMask): (r: Option<bv32>)
      requires !PaletteColorIndex?
      requires Argb? ==> AddFits(m.a, m.r) && ChannelFits32(m.g, m.a + m.r)
      requires Bgra? ==> ChannelFits32(m.g, m.b)
      ensures r.None? <==> m.g == 0
      ensures r.Some? ==> r.value < (1 as bv32) << m.g
    {
      var shift := if Argb? then m.a + m.r else m.b;
      MaskedBound32(value, m.g, shift);
      Masked32(value, m.g, shift)
    }

    /** Blue: the b-bit field at bit a + r + g in ARGB order, at bit 0 in BGRA order. */
    function B(m: BitMask): (r: Option<bv32>)
      requires !PaletteColorIndex?
      requires Argb? ==> AddFits(m.a, m.r) && AddFits(m.a + m.r, m.g)
                         && ChannelFits32(m.b, m.a + m.r + m.g)
      requires Bgra? ==> ChannelFits32(m.b, 0)
      ensures r.None? <==> m.b == 0
      ensures r.Some? ==> r.value < (1 as bv32) << m.b
    {
      var shift := if Argb? then m.a + m.r + m.g else 0;
      MaskedBound32(value, m.b, shift);
      Masked32(value, m.b, shift)
    }

    /** Alpha: the a-bit field at bit 0 in ARGB order, at bit b + g + r in BGRA order. */
    function A(m: BitMask): (r: Option<bv32>)
      requires !PaletteColorIndex?
      requires Argb? ==> ChannelFits32(m.a, 0)
      requires Bgra? ==> AddFits(m.b, m.g) && AddFits(m.b + m.g, m.r)
                         && ChannelFits32(m.a, m.b + m.g + m.r)
      ensures r.None? <==> m.a == 0
      ensures r.Some? ==> r.value < (1 as bv32) << m.a
    {
      var shift := if Argb? then 0 else m.b + m.g + m.r;
      MaskedBound32(value, m.a, shift);
      Masked32(value, m.a, shift)
    }
  }

  /** A texel of the masked copy that follows a palettized image: a 16-bit
      word with red in the low bits, then green, blue and alpha. */
  datatype MaskedPixel = MaskedPixel(value: bv16)
  {
    function R(m: BitMask): (r: Option<bv16>)
      requires ChannelFits16(m.r, 0)
      ensures r.None? <==> m.r == 0
      ensures r.Some? ==> r.value < (1 as bv16) << (m.r as bv16)
    {
      MaskedBound16(value, m.r, 0);
      Masked16(value, m.r, 0)
    }

    function G(m: BitMask): (r: Option<bv16>)
      requires ChannelFits16(m.g, m.r)
      ensures r.None? <==> m.g == 0
      ensures r.Some? ==> r.value < (1 as bv16) << (m.g as bv16)
    {
      MaskedBound16(value, m.g, m.r);
      Masked16(value, m.g, m.r)
    }

    function B(m: BitMask): (r: Option<bv16>)
      requires AddFits(m.g, m.r) && ChannelFits16(m.b, m.g + m.r)
      ensures r.None? <==> m.b == 0
      ensures r.Some? ==> r.value < (1 as bv16) << (m.b as bv16)
    {
      MaskedBound16(value, m.b, m.g + m.r);
      Masked16(value, m.b, m.g + m.r)
    }

    function A(m: BitMask): (r: Option<bv16>)
      requires AddFits(m.b, m.g) && AddFits(m.b + m.g, m.r)
      requires ChannelFits16(m.a, m.b + m.g + m.r)
      ensures r.None? <==> m.a == 0
      ensures r.Some? ==> r.value < (1 as bv16) << (m.a as bv16)
    {
      MaskedBound16(value, m.a, m.b + m.g + m.r);
      Masked16(value, m.a, m.b + m.g + m.r)
    }
  }
}
