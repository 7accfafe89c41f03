/**
 * The integer part of TextDrawerUWP::DrawString
 * (ext/native/gfx_es2/draw_text_uwp.cpp): bitmap sizes, the texture format
 * choice, and the conversion of an 8-bit coverage byte into a white texel,
 * plus the nested loops that fill a texture from the mapped bitmap.
 */
module TextBitmap {

  // ---------------------------------------------------------------------
  // Bitmap dimensions
  // ---------------------------------------------------------------------

  /** A measured size of 0 becomes 1, so that no texture is zero-sized. */
  function ClampToOne(n: int): (r: int)
    ensures n == 0 ==> r == 1
    ensures n != 0 ==> r == n
  {
    if n == 0 then 1 else n
  }

  /**
   * `(n + 3) & ~3`. Clearing the two low bits of a two's-complement
   * integer rounds it down to a multiple of 4, which on mathematical
   * integers is subtracting the Euclidean remainder.
   */
  function AlignUp4(n: int): (r: int)
    ensures r % 4 == 0
    ensures n <= r < n + 4
  {
    (n + 3) - (n + 3) % 4
  }

  /** AlignUp4 is the least multiple of 4 not below its argument. */
  lemma AlignUp4IsLeast(n: int, m: int)
    requires m % 4 == 0 && n <= m
    ensures AlignUp4(n) <= m
  {
  }

  /** The texture side length for a measured side length (the string's size plus one, truncated). */
  function BitmapSide(measured: nat): (r: nat)
    ensures r % 4 == 0 && 1 <= r
    ensures measured <= r < measured + 4 || (measured == 0 && r == 4)
  {
    AlignUp4(ClampToOne(measured))
  }

  // ---------------------------------------------------------------------
  // Texture formats
  // ---------------------------------------------------------------------

  datatype DataFormat = R8G8B8A8_UNORM | B8G8R8A8_UNORM | B4G4R4A4_UNORM_PACK16 | A4R4G4B4_UNORM_PACK16

  /** `supportsTexture(f)` is GetDataFormatSupport(f) & FMT_TEXTURE != 0. */
  function ChooseTextureFormat(supportsTexture: DataFormat -> bool): (f: DataFormat)
    ensures f == A4R4G4B4_UNORM_PACK16 <==> supportsTexture(A4R4G4B4_UNORM_PACK16)
    ensures f == B4G4R4A4_UNORM_PACK16 <==>
              !supportsTexture(A4R4G4B4_UNORM_PACK16) && supportsTexture(B4G4R4A4_UNORM_PACK16)
    ensures f == R8G8B8A8_UNORM <==>
              !supportsTexture(A4R4G4B4_UNORM_PACK16) && !supportsTexture(B4G4R4A4_UNORM_PACK16)
    ensures f != B8G8R8A8_UNORM
  {
    if supportsTexture(A4R4G4B4_UNORM_PACK16) then A4R4G4B4_UNORM_PACK16
    else if supportsTexture(B4G4R4A4_UNORM_PACK16) then B4G4R4A4_UNORM_PACK16
    else R8G8B8A8_UNORM
  }

  // ---------------------------------------------------------------------
  // Texels
  // ---------------------------------------------------------------------

  /** 32-bit white texel: alpha in the top byte, the three colour bytes all ones. */
  function Rgba8Texel(alpha: bv8): (t: bv32)
    ensures t & 0x00ff_ffff == 0x00ff_ffff
    ensures (t >> 24) as bv8 == alpha
  {
    ((alpha as bv32) << 24) | 0x00ff_ffff
  }

  /** 16-bit B4G4R4A4 white texel: the high nibble of alpha in the low nibble, colour nibbles all ones. */
  function Bgra4444Texel(alpha: bv8): (t: bv16)
    ensures t & 0xfff0 == 0xfff0
    ensures t & 0x000f == (alpha >> 4) as bv16
  {
    ((alpha >> 4) as bv16) | 0xfff0
  }

  /** 16-bit A4R4G4B4 white texel: the high nibble of alpha in the top nibble, colour nibbles all ones. */
  function Argb4444Texel(alpha: bv8): (t: bv16)
    ensures t & 0x0fff == 0x0fff
    ensures t >> 12 == (alpha >> 4) as bv16
  {
    (((alpha >> 4) as bv16) << 12) | 0x0fff
  }

  /** The two 16-bit formats carry the same alpha nibble; the 32-bit one carries the whole byte. */
  lemma TexelFormatsAgree(alpha: bv8)
    ensures Argb4444Texel(alpha) >> 12 == Bgra4444Texel(alpha) & 0x000f
    ensures ((Rgba8Texel(alpha) >> 28) as bv16) == Argb4444Texel(alpha) >> 12
  {
  }

  // ---------------------------------------------------------------------
  // Filling a texture from the mapped bitmap
  // ---------------------------------------------------------------------

  /**
   * The mapped B8G8R8A8 bitmap has rows `pitch` bytes apart and 4 bytes per
   * pixel; the first byte of pixel (x, y) is the coverage the loops read.
   */
  predicate CoversBitmap(size: nat, pitch: nat, width: nat, height: nat) {
    width == 0 || height == 0 || pitch * (height - 1) + 4 * (width - 1) < size
  }

  function AlphaAt(bits: seq<bv8>, pitch: nat, x: nat, y: nat): bv8 {
    if pitch * y + 4 * x < |bits| then bits[pitch * y + 4 * x] else 0
  }

  lemma {:induction false} PixelInBounds(size: nat, pitch: nat, width: nat, height: nat, x: nat, y: nat)
    requires CoversBitmap(size, pitch, width, height)
    requires x < width && y < height
    ensures pitch * y + 4 * x < size
  {
    assert pitch * y <= pitch * (height - 1) by {
      MulMonotone(pitch, y, height - 1);
    }
  }

  /** The height of the mirror bitmap DrawString copies into and maps (MAX_TEXT_HEIGHT). */
  const MaxTextHeight: nat := 512

  /**
   * Nothing bounds a string's measured height by the surface's: when it
   * exceeds MaxTextHeight, the mapped surface (MaxTextHeight rows `pitch`
   * bytes apart) does not cover the bitmap the loops read, so its last
   * rows lie past the mapped bytes.
   */
  lemma {:induction false} TallStringOverrunsSurface(pitch: nat, width: nat, measuredHeight: nat)
    requires width > 0 && measuredHeight > MaxTextHeight
    ensures !CoversBitmap(pitch * MaxTextHeight, pitch, width, BitmapSide(measuredHeight))
  {
    MulMonotone(pitch, MaxTextHeight, BitmapSide(measuredHeight) - 1);
  }

  lemma MulMonotone(a: nat, b: nat, c: nat)
    requires b <= c
    ensures a * b <= a * c
  {
  }

  /** Where DrawString stores texel (x, y): `bmWidth * y + x`. */
  function Index(width: int, x: int, y: int): int {
    width * y + x
  }

  /** Row-major indices: (x, y) lies inside the texture, above every index of an earlier row. */
  lemma RowMajor(width: nat, height: nat, x: nat, y: nat)
    requires x < width && y < height
    ensures Index(width, x, y) < width * height
    ensures forall yy, xx :: 0 <= yy < y && 0 <= xx < width ==> Index(width, xx, yy) < width * y
  {
    MulMonotone(width, y + 1, height);
    assert width * (y + 1) == width * y + width;
    forall yy, xx | 0 <= yy < y && 0 <= xx < width
      ensures Index(width, xx, yy) < width * y
    {
      MulMonotone(width, yy + 1, y);
      assert width * (yy + 1) == width * yy + width;
    }
  }

  lemma EarlierRowBelow(width: nat, y: nat, q: nat)
    requires y < q
    ensures width * y + width <= width * q
  {
    MulMonotone(width, y + 1, q);
    assert width * (y + 1) == width * y + width;
  }

  /** Euclidean division by the row width splits an index into its row and column. */
  lemma DivideIndex(width: nat, i: int)
    requires width > 0 && 0 <= i
    ensures Index(width, i % width, i / width) == i
    ensures 0 <= i % width < width && 0 <= i / width
  {
  }

  /** An index below width * height lies in one of the first `height` rows. */
  lemma {:induction false} RowBelowHeight(width: nat, height: nat, i: int)
    requires width > 0 && 0 <= i < width * height
    ensures i / width < height
  {
    DivideIndex(width, i);
    var q := i / width;
    if height <= q {
      MulMonotone(width, height, q);
    }
  }

  /** Two pixels of the same texture with the same index are the same pixel. */
  lemma {:induction false} SameIndexSamePixel(width: nat, x: nat, y: nat, x2: nat, y2: nat)
    requires x < width && x2 < width
    requires Index(width, x, y) == Index(width, x2, y2)
    ensures x == x2 && y == y2
  {
    if y < y2 {
      EarlierRowBelow(width, y, y2);
    } else if y2 < y {
      EarlierRowBelow(width, y2, y);
    }
  }

  /** Every slot of a width x height texture is the row-major index of exactly one pixel. */
  lemma {:induction false} EverySlotIsAPixel(width: nat, height: nat, i: int)
    requires 0 <= i < width * height
    ensures width > 0 && 0 <= i / width < height && 0 <= i % width < width
    ensures Index(width, i % width, i / width) == i
    ensures forall x, y :: 0 <= x < width && 0 <= y < height && Index(width, x, y) == i ==>
              x == i % width && y == i / width
  {
    assert width > 0;
    DivideIndex(width, i);
    RowBelowHeight(width, height, i);
    forall x, y | 0 <= x < width && 0 <= y < height && Index(width, x, y) == i
      ensures x == i % width && y == i / width
    {
      SameIndexSamePixel(width, x, y, i % width, i / width);
    }
  }

  /** Index(width, ·, ·) is one-to-one on the pixels of a width x height texture: division recovers the pixel. */
  lemma IndexInverse(width: nat, height: nat)
    ensures forall y, x :: 0 <= y < height && 0 <= x < width ==>
              0 <= Index(width, x, y) < width * height &&
              Index(width, x, y) % width == x && Index(width, x, y) / width == y
  {
    forall y, x | 0 <= y < height && 0 <= x < width
      ensures 0 <= Index(width, x, y) < width * height
      ensures Index(width, x, y) % width == x && Index(width, x, y) / width == y
    {
      SlotOfPixel(width, height, x, y);
    }
  }

  /**
   * The texture DrawString builds, as a value: slot i holds `texel` of the
   * coverage byte of pixel (i % width, i / width).
   */
  function Raster<T>(bits: seq<bv8>, pitch: nat, width: nat, height: nat, texel: bv8 -> T): (r: seq<T>)
    ensures |r| == width * height
  {
    seq(width * height, i requires 0 <= i < width * height => texel(AlphaAt(bits, pitch, i % width, i / width)))
  }

  /** Each pixel's slot of the raster holds the texel of that pixel's coverage byte. */
  lemma RasterPixels<T>(bits: seq<bv8>, pitch: nat, width: nat, height: nat, texel: bv8 -> T)
    ensures forall y, x :: 0 <= y < height && 0 <= x < width ==>
              0 <= Index(width, x, y) < width * height &&
              Raster(bits, pitch, width, height, texel)[Index(width, x, y)] == texel(AlphaAt(bits, pitch, x, y))
  {
    IndexInverse(width, height);
  }

  /**
   * The nested loops of DrawString for one format: texel (x, y) goes to
   * index `Index(width, x, y)` and is `texel` of the coverage byte at (x, y).
   */
  method PackTexels<T(0)>(bits: seq<bv8>, pitch: nat, width: nat, height: nat, texel: bv8 -> T)
    returns (data: array<T>)
    requires CoversBitmap(|bits|, pitch, width, height)
    ensures fresh(data)
    ensures data.Length == width * height
    ensures forall y: nat, x: nat :: y < height && x < width ==>
              pitch * y + 4 * x < |bits| && 0 <= Index(width, x, y) < data.Length &&
              data[Index(width, x, y)] == texel(AlphaAt(bits, pitch, x, y))
    ensures data[..] == Raster(bits, pitch, width, height, texel)
  {
    data := new T[width * height];
    ghost var want := Raster(bits, pitch, width, height, texel);
    var y := 0;
    while y < height
      invariant 0 <= y <= height && width * y <= width * height
      invariant forall j :: 0 <= j < width * y ==> data[j] == want[j]
    {
      assert width * y + width == width * (y + 1);
      MulMonotone(width, y + 1, height);
      PackRow(data, bits, pitch, width, height, texel, y, want);
      y := y + 1;
    }
    assert data[..] == want;
    AllPixelsInBounds(|bits|, pitch, width, height);
    RasterPixels(bits, pitch, width, height, texel);
  }

  /** The inner loop of PackTexels: fills row y, keeping the rows above it. */
  method PackRow<T>(data: array<T>, bits: seq<bv8>, pitch: nat, width: nat, height: nat, texel: bv8 -> T,
                    y: nat, ghost want: seq<T>)
    requires CoversBitmap(|bits|, pitch, width, height) && y < height
    requires data.Length == width * height && want == Raster(bits, pitch, width, height, texel)
    requires width * y + width <= width * height
    requires forall j :: 0 <= j < width * y ==> data[j] == want[j]
    modifies data
    ensures forall j :: 0 <= j < width * y + width ==> data[j] == want[j]
    ensures forall j :: width * y + width <= j < data.Length ==> data[j] == old(data[j])
  {
    var x, k := 0, Index(width, 0, y);
    while x < width
      invariant 0 <= x <= width && k == Index(width, x, y)
      invariant forall j :: 0 <= j < k ==> data[j] == want[j]
      invariant forall j :: k <= j < data.Length ==> data[j] == old(data[j])
    {
      RasterAt(bits, pitch, width, height, texel, x, y);
      data[k] := texel(bits[pitch * y + 4 * x]);
      x, k := x + 1, k + 1;
    }
  }

  /** Slot Index(width, x, y) of the raster exists and holds the texel of the byte at (x, y). */
  lemma RasterAt<T>(bits: seq<bv8>, pitch: nat, width: nat, height: nat, texel: bv8 -> T, x: nat, y: nat)
    requires CoversBitmap(|bits|, pitch, width, height) && x < width && y < height
    ensures pitch * y + 4 * x < |bits| && 0 <= Index(width, x, y) < width * height
    ensures Raster(bits, pitch, width, height, texel)[Index(width, x, y)] == texel(bits[pitch * y + 4 * x])
  {
    PixelInBounds(|bits|, pitch, width, height, x, y);
    SlotOfPixel(width, height, x, y);
    var i := Index(width, x, y);
    assert i % width == x && i / width == y;
    assert Raster(bits, pitch, width, height, texel)[i] == texel(AlphaAt(bits, pitch, i % width, i / width));
  }

  lemma AllPixelsInBounds(size: nat, pitch: nat, width: nat, height: nat)
    requires CoversBitmap(size, pitch, width, height)
    ensures forall y: nat, x: nat :: y < height && x < width ==> pitch * y + 4 * x < size
  {
    forall y: nat, x: nat | y < height && x < width
      ensures pitch * y + 4 * x < size
    {
      PixelInBounds(size, pitch, width, height, x, y);
    }
  }

  /** The slot of pixel (x, y) lies inside the texture, and division by the width recovers the pixel. */
  lemma SlotOfPixel(width: nat, height: nat, x: nat, y: nat)
    requires x < width && y < height
    ensures 0 <= Index(width, x, y) < width * height
    ensures Index(width, x, y) % width == x && Index(width, x, y) / width == y
  {
    RowMajor(width, height, x, y);
    EverySlotIsAPixel(width, height, Index(width, x, y));
  }

}
