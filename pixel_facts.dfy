/** What the channel accessors promise together: under the 5-6-5 mask of
    the game's 16-bit textures the channels put back together give the
    word, and the sample texels decode to the expected channels. */
module PixelFacts {
  import opened Bytes
  import opened Pixels

  /** Five bits of red, six of green, five of blue, no alpha. */
  const Mask565: BitMask := BitMask(5, 6, 5, 0)

  /** The mask is 16 bits deep and not ARGB. */
  lemma Mask565Depth()
    ensures BitsFit(Mask565) && Bits(Mask565) == 16 && !IsArgb(Mask565)
  {
  }

  // ---------------------------------------------------------------------
  // The 5-6-5 layout loses nothing

  /** Under the 5-6-5 mask the three channels of any masked pixel, shifted
      back to their places, give the pixel back: no bit is lost and no two
      channels overlap. */
  lemma MaskedPixel565(p: MaskedPixel)
    ensures p.A(Mask565) == None
    ensures p.R(Mask565).value | (p.G(Mask565).value << 5) | (p.B(Mask565).value << 11) == p.value
  {
    assert p.R(Mask565) == Some(Field16(p.value, 5, 0));
    assert p.G(Mask565) == Some(Field16(p.value, 6, 5));
    assert p.B(Mask565) == Some(Field16(p.value, 5, 11));
  }

  /** The same for a BGRA pixel that holds a 16-bit word, with blue low and
      red high. */
  lemma Bgra565(v: bv32)
    requires v < 0x1_0000
    ensures Bgra(v).A(Mask565) == None
    ensures Bgra(v).B(Mask565).value | (Bgra(v).G(Mask565).value << 5)
              | (Bgra(v).R(Mask565).value << 11) == v
  {
    assert Bgra(v).B(Mask565) == Some(Field32(v, 5, 0));
    assert Bgra(v).G(Mask565) == Some(Field32(v, 6, 5));
    assert Bgra(v).R(Mask565) == Some(Field32(v, 5, 11));
  }

  // ---------------------------------------------------------------------
  // Sample texels

  /** A texel of a night-sky texture read as a masked pixel with the 5-6-5
      mask: red comes from the low five bits, green from the next six, blue
      from the top five, and there is no alpha. */
  predicate MaskedPixelIs(v: bv16, r: bv16, g: bv16, b: bv16) {
    var p := MaskedPixel(v);
    p.R(Mask565) == Some(r) && p.G(Mask565) == Some(g) && p.B(Mask565) == Some(b) && p.A(Mask565) == None
  }

  lemma MaskedPixelSample0()
    ensures MaskedPixelIs(0x2946, 6, 10, 5)
  {
  }

  lemma MaskedPixelSample1()
    ensures MaskedPixelIs(0x2966, 6, 11, 5)
  {
  }

  lemma MaskedPixelSample2()
    ensures MaskedPixelIs(0x2145, 5, 10, 4)
  {
  }

  lemma MaskedPixelSample3()
    ensures MaskedPixelIs(0x2125, 5, 9, 4)
  {
  }

  lemma MaskedPixelSample4()
    ensures MaskedPixelIs(0x2105, 5, 8, 4)
  {
  }

  /** A texel of a weapon texture read as BGRA with the same mask: blue
      from the low five bits, green from the next six, red from the top
      five, and no alpha. */
  predicate BgraIs(v: bv32, b: bv32, g: bv32, r: bv32) {
    var p := Bgra(v);
    p.B(Mask565) == Some(b) && p.G(Mask565) == Some(g) && p.R(Mask565) == Some(r) && p.A(Mask565) == None
  }

  lemma BgraSample0()
    ensures BgraIs(0x4208, 8, 16, 8)
  {
  }

  lemma BgraSample1()
    ensures BgraIs(0x1062, 2, 3, 2)
  {
  }

  lemma BgraSample2()
    ensures BgraIs(0x10a3, 3, 5, 2)
  {
  }

  lemma BgraSample3()
    ensures BgraIs(0x2104, 4, 8, 4)
  {
  }
}
