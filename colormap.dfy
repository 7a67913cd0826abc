/**
  The `colormap` class: a palette read from the first pixel row of a decoded
  RGBA image, and the lookup that maps a weight in
  [weight_min, weight_max) to one of its colours.
 */
module Colormaps {
  import opened CTypes

  /** The `color` struct: one RGBA entry, one byte per channel. */
  datatype Color = Color(R: uint8, G: uint8, B: uint8, A: uint8)

  /**
    The colours `analyze` takes from a decoded RGBA image (4 bytes per pixel,
    row-major): one per pixel of the first row, red, green and blue copied and
    alpha forced to 255 whatever the image holds there.
   */
  function RowColors(image: seq<uint8>, width: nat): (row: seq<Color>)
    requires 4 * width <= |image|
    ensures |row| == width
    ensures forall k :: 0 <= k < width ==>
      row[k] == Color(image[4 * k], image[4 * k + 1], image[4 * k + 2], 255)
  {
    if width == 0 then []
    else
      var k := width - 1;
      RowColors(image, k) + [Color(image[4 * k], image[4 * k + 1], image[4 * k + 2], 255)]
  }

  /** Every palette colour is fully opaque. */
  lemma RowColorsOpaque(image: seq<uint8>, width: nat)
    requires 4 * width <= |image|
    ensures forall c :: c in RowColors(image, width) ==> c.A == 255
  {
  }

  /**
    The palette depends on the red, green and blue bytes of the first `width`
    pixels only: two images that agree there, whatever their alpha bytes and
    whatever follows the first row, give the same palette.
   */
  lemma RowColorsReadRgbOnly(image: seq<uint8>, other: seq<uint8>, width: nat)
    requires 4 * width <= |image| && 4 * width <= |other|
    requires forall j :: 0 <= j < 4 * width && j % 4 != 3 ==> image[j] == other[j]
    ensures RowColors(image, width) == RowColors(other, width)
  {
  }

  /**
    The C++ conversion of a double to `int`: the fractional part is dropped,
    that is, the value is truncated toward zero (not floored).
   */
  function TruncateToInt(x: real): (n: int)
    ensures 0.0 <= x ==> n as real <= x < n as real + 1.0
    ensures x < 0.0 ==> n as real - 1.0 < x <= n as real
  {
    if x < 0.0 then -((-x).Floor) else x.Floor
  }

  /** Truncation toward zero never reverses the order of two values. */
  lemma TruncateMonotone(x: real, y: real)
    requires x <= y
    ensures TruncateToInt(x) <= TruncateToInt(y)
  {
  }

  /**
    The index `grayscale_to_color` reads: the weight's position in the
    domain, scaled by the palette size and converted to `int`. The domain
    must not be empty, or the division has no value. The scaled position
    is truncated toward zero: rounded down when it is not negative, up when
    it is.
   */
  function ColorIndex(weight: real, weightMin: real, weightMax: real, size: nat): (i: int)
    requires weightMin != weightMax
    ensures var scaled := (weight - weightMin) / (weightMax - weightMin) * size as real;
      && (0.0 <= scaled ==> i as real <= scaled < i as real + 1.0)
      && (scaled < 0.0 ==> i as real - 1.0 < scaled <= i as real)
  {
    TruncateToInt((weight - weightMin) / (weightMax - weightMin) * size as real)
  }

  /** Inside the half-open domain [weightMin, weightMax) the index is in bounds. */
  lemma IndexInRange(weight: real, weightMin: real, weightMax: real, size: nat)
    requires weightMin < weightMax && 0 < size
    requires weightMin <= weight < weightMax
    ensures 0 <= ColorIndex(weight, weightMin, weightMax, size) < size
  {
    var span := weightMax - weightMin;
    var q := (weight - weightMin) / span;
    assert q * span == weight - weightMin;
    assert 0.0 <= q < 1.0;
    var scaled := q * size as real;
    assert 0.0 <= scaled < size as real;
  }

  /** The lower end of the domain reads the first entry. */
  lemma IndexAtMin(weightMin: real, weightMax: real, size: nat)
    requires weightMin != weightMax
    ensures ColorIndex(weightMin, weightMin, weightMax, size) == 0
  {
  }

  /**
    The upper end of the domain reads index `size`, one past the last entry:
    nothing clamps it.
   */
  lemma IndexAtMax(weightMin: real, weightMax: real, size: nat)
    requires weightMin != weightMax
    ensures ColorIndex(weightMax, weightMin, weightMax, size) == size
  {
    SelfQuotient(weightMax - weightMin);
  }

  lemma SelfQuotient(x: real)
    requires x != 0.0
    ensures x / x == 1.0
  {
  }

  /** Above the domain the index only moves further out of bounds. */
  lemma IndexPastMax(weight: real, weightMin: real, weightMax: real, size: nat)
    requires weightMin < weightMax && weightMax <= weight
    ensures ColorIndex(weight, weightMin, weightMax, size) >= size
  {
    IndexAtMax(weightMin, weightMax, size);
    IndexMonotone(weightMax, weight, weightMin, weightMax, size);
  }

  /**
    Because the conversion truncates toward zero, a weight less than one
    palette step below weightMin still reads entry 0, where a floor would
    give -1.
   */
  lemma IndexTruncatesTowardZero(weight: real, weightMin: real, weightMax: real, size: nat)
    requires weightMin < weightMax && 0 < size
    requires weightMin - (weightMax - weightMin) / size as real < weight <= weightMin
    ensures ColorIndex(weight, weightMin, weightMax, size) == 0
  {
    var span := weightMax - weightMin;
    var step := span / size as real;
    assert step * size as real == span;
    var q := (weight - weightMin) / span;
    assert q * span == weight - weightMin;
    var scaled := q * size as real;
    assert scaled * span == (weight - weightMin) * size as real;
    assert -step * size as real == -span;
    assert -span < (weight - weightMin) * size as real;
    assert (scaled + 1.0) * span == scaled * span + span;
    assert (scaled + 1.0) * span > 0.0;
    assert -1.0 < scaled <= 0.0;
  }

  /** A larger weight never reads an earlier entry. */
  lemma IndexMonotone(weight: real, other: real, weightMin: real, weightMax: real, size: nat)
    requires weightMin < weightMax && weight <= other
    ensures ColorIndex(weight, weightMin, weightMax, size) <= ColorIndex(other, weightMin, weightMax, size)
  {
    var x := (weight - weightMin) / (weightMax - weightMin) * size as real;
    var y := (other - weightMin) / (weightMax - weightMin) * size as real;
    QuotientMonotone(weight - weightMin, other - weightMin, weightMax - weightMin);
    ScaleMonotone((weight - weightMin) / (weightMax - weightMin), (other - weightMin) / (weightMax - weightMin), size as real);
    TruncateMonotone(x, y);
    assert ColorIndex(weight, weightMin, weightMax, size) == TruncateToInt(x);
    assert ColorIndex(other, weightMin, weightMax, size) == TruncateToInt(y);
  }

  lemma QuotientMonotone(a: real, b: real, d: real)
    requires a <= b && 0.0 < d
    ensures a / d <= b / d
  {
  }

  lemma ScaleMonotone(a: real, b: real, f: real)
    requires a <= b && 0.0 <= f
    ensures a * f <= b * f
  {
  }

  /** `n` moved into [0, size - 1], when it lies outside. */
  function Clamp(n: int, size: nat): (c: int)
    requires 0 < size
    ensures 0 <= c < size
    ensures 0 <= n < size ==> c == n
    ensures n < 0 ==> c == 0
    ensures size <= n ==> c == size - 1
  {
    if n < 0 then 0 else if n >= size then size - 1 else n
  }

  /**
    The index with the clamp the lookup evidently needs: kept within
    [0, size - 1], and equal to the unclamped index wherever that one is in
    bounds.
   */
  function ClampedIndex(weight: real, weightMin: real, weightMax: real, size: nat): (i: int)
    requires weightMin != weightMax && 0 < size
    ensures 0 <= i < size
    ensures 0 <= ColorIndex(weight, weightMin, weightMax, size) < size ==> i == ColorIndex(weight, weightMin, weightMax, size)
    ensures weight == weightMin ==> i == 0
  {
    Clamp(ColorIndex(weight, weightMin, weightMax, size), size)
  }

  /**
    Once clamped, truncation toward zero and floor give the same index: the
    corrected lookup is the floor-and-clamp formula.
   */
  lemma ClampedIndexIsClampedFloor(weight: real, weightMin: real, weightMax: real, size: nat)
    requires weightMin != weightMax && 0 < size
    ensures ClampedIndex(weight, weightMin, weightMax, size)
      == Clamp(((weight - weightMin) / (weightMax - weightMin) * size as real).Floor, size)
  {
  }

  /** With the clamp, the upper end of the domain reads the last entry. */
  lemma ClampedIndexAtMax(weightMin: real, weightMax: real, size: nat)
    requires weightMin != weightMax && 0 < size
    ensures ClampedIndex(weightMax, weightMin, weightMax, size) == size - 1
  {
    IndexAtMax(weightMin, weightMax, size);
  }

  /** Four entries over the domain [0, 1]: the weight 0.5 reads entry 2. */
  lemma IndexOfHalfInFour()
    ensures ColorIndex(0.5, 0.0, 1.0, 4) == 2
  {
  }

  /**
    A palette image whose first row is red, green, blue, black, over the
    domain [0, 1]: the weight 0.5 reads blue.
   */
  lemma HalfWeightInFourColorsIsBlue()
    ensures var image: seq<uint8> := [255, 0, 0, 255, 0, 255, 0, 255, 0, 0, 255, 255, 0, 0, 0, 255];
      RowColors(image, 4)[ColorIndex(0.5, 0.0, 1.0, 4)] == Color(0, 0, 255, 255)
  {
  }

  /** The `colormap` object: its palette file, its colours and its weight domain. */
  class Colormap {
    var filename: string
    var cmap: seq<Color>
    var weightMin: real
    var weightMax: real

    /** Stores the file name and the domain as given; the palette starts empty. */
    constructor (filenameInit: string, weightMinInit: real, weightMaxInit: real)
      ensures filename == filenameInit && cmap == []
      ensures weightMin == weightMinInit && weightMax == weightMaxInit
    {
      filename := filenameInit;
      weightMin := weightMinInit;
      weightMax := weightMaxInit;
      cmap := [];
    }

    /**
      Appends one colour per pixel of the first row of `image`, the decoded
      contents of `filename`. `decodeError` is the decoder's status, which
      the source receives and never looks at. Nothing clears `cmap` first, so
      a second call appends a second copy.
     */
    method Analyze(image: seq<uint8>, width: nat, decodeError: nat)
      requires 4 * width <= |image|
      modifies this`cmap
      ensures cmap == old(cmap) + RowColors(image, width)
    {
      var i := 0;
      while i < width
        invariant 0 <= i <= width
        invariant cmap == old(cmap) + RowColors(image, i)
      {
        var c := Color(image[i * 4 + 0], image[i * 4 + 1], image[i * 4 + 2], 255);
        cmap := cmap + [c];
        i := i + 1;
      }
    }

    /**
      The colour for `weight`. There is no clamp: the caller must keep the
      index in bounds, which excludes weightMax itself (see IndexAtMax).
      Being a function, it changes neither `cmap` nor the domain.
     */
    function GrayscaleToColor(weight: real): (c: Color)
      reads this
      requires weightMin != weightMax
      requires 0 <= ColorIndex(weight, weightMin, weightMax, |cmap|) < |cmap|
      ensures c in cmap
      ensures weight == weightMin ==> c == cmap[0]
    {
      cmap[ColorIndex(weight, weightMin, weightMax, |cmap|)]
    }

    /**
      The lookup as evidently intended: any weight reads a colour of the
      palette, weightMin the first and weightMax the last, and wherever the
      unclamped index is in bounds both lookups agree.
     */
    function ClampedColor(weight: real): (c: Color)
      reads this
      requires weightMin != weightMax && 0 < |cmap|
      ensures c in cmap
      ensures weight == weightMin ==> c == cmap[0]
      ensures weight == weightMax ==> c == cmap[|cmap| - 1]
      ensures 0 <= ColorIndex(weight, weightMin, weightMax, |cmap|) < |cmap| ==> c == GrayscaleToColor(weight)
    {
      ClampedIndexAtMax(weightMin, weightMax, |cmap|);
      cmap[ClampedIndex(weight, weightMin, weightMax, |cmap|)]
    }
  }

  /**
    With a non-empty palette and an increasing domain, every weight in
    [weightMin, weightMax) can be looked up and yields one of the palette's colours.
   */
  lemma LookupWithinDomain(m: Colormap, weight: real)
    requires m.weightMin < m.weightMax && 0 < |m.cmap|
    requires m.weightMin <= weight < m.weightMax
    ensures 0 <= ColorIndex(weight, m.weightMin, m.weightMax, |m.cmap|) < |m.cmap|
    ensures m.GrayscaleToColor(weight) in m.cmap
  {
    IndexInRange(weight, m.weightMin, m.weightMax, |m.cmap|);
  }
}
