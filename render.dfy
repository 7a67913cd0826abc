/**
  The host-side helpers of the renderer: the free function `colormap()` that
  turns a palette image into the `cl_uint4` array uploaded to the device,
  the loop that copies the read-back image into the encoder's buffer, and
  the platform and device choice.
 */
module Render {
  import opened CTypes
  import Colormaps

  /** OpenCL's `cl_uint4`: four 32-bit unsigned components. */
  datatype ClUint4 = ClUint4(x: uint32, y: uint32, z: uint32, w: uint32)

  /**
    A palette colour widened to `cl_uint4`, channel by channel: every value
    is kept, and every component stays below 256.
   */
  function Widen(c: Colormaps.Color): (w: ClUint4)
    ensures w.x as int == c.R as int && w.y as int == c.G as int
    ensures w.z as int == c.B as int && w.w as int == c.A as int
    ensures w.x < 0x100 && w.y < 0x100 && w.z < 0x100 && w.w < 0x100
  {
    ClUint4(c.R as uint32, c.G as uint32, c.B as uint32, c.A as uint32)
  }

  /**
    The entries `colormap()` builds, as a value: the palette of the
    `colormap` class, widened. The two copies of the palette code agree.
   */
  function ColormapEntries(image: seq<uint8>, width: nat): (entries: seq<ClUint4>)
    requires 4 * width <= |image|
    ensures |entries| == width
    ensures forall i :: 0 <= i < width ==>
      entries[i] == ClUint4(image[4 * i] as uint32, image[4 * i + 1] as uint32, image[4 * i + 2] as uint32, 255)
  {
    var row := Colormaps.RowColors(image, width);
    seq(width, i requires 0 <= i < width => Widen(row[i]))
  }

  /**
    `colormap()`: given the decoded palette image, a fresh array with one
    entry per pixel of the first row (R, G and B copied, alpha 255), and its
    length, which the source hands back through `*size`.
   */
  method Colormap(image: seq<uint8>, width: nat) returns (cmap: array<ClUint4>, size: nat)
    requires 4 * width <= |image|
    ensures fresh(cmap)
    ensures size == width && cmap.Length == width
    ensures forall i :: 0 <= i < width ==>
      cmap[i] == ClUint4(image[4 * i] as uint32, image[4 * i + 1] as uint32, image[4 * i + 2] as uint32, 255)
    ensures cmap[..] == ColormapEntries(image, width)
  {
    cmap := new ClUint4[width];
    var i := 0;
    while i < width
      invariant 0 <= i <= width
      invariant forall k :: 0 <= k < i ==>
        cmap[k] == ClUint4(image[4 * k] as uint32, image[4 * k + 1] as uint32, image[4 * k + 2] as uint32, 255)
    {
      cmap[i] := ClUint4(image[i * 4 + 0] as uint32, image[i * 4 + 1] as uint32, image[i * 4 + 2] as uint32, 255);
      i := i + 1;
    }
    size := width;
  }

  /**
    The copy of the read-back image into the vector handed to the PNG
    encoder: `size * size * 4` bytes, element by element. The loop counter is
    an `unsigned int`, so the byte count must stay below 2^32 or the loop
    would never end. The output is a new buffer, and `result` is only read
    (the method modifies nothing).
   */
  method CopyToOutput(result: array<uint8>, size: nat) returns (output: array<uint8>)
    requires result.Length == size * size * 4
    requires size * size * 4 < 0x1_0000_0000
    ensures fresh(output)
    ensures output.Length == size * size * 4
    ensures output[..] == result[..]
  {
    output := new uint8[size * size * 4];
    var i := 0;
    while i < size * size * 4
      invariant 0 <= i <= size * size * 4 == output.Length
      invariant forall k :: 0 <= k < i ==> output[k] == result[k]
    {
      output[i] := result[i];
      i := i + 1;
    }
  }

  /** What a selection helper does: end the process, or use an index. */
  datatype Selection = ExitProcess | Use(index: nat)

  /**
    `get_platform`: an empty platform list ends the process with
    EXIT_FAILURE; otherwise the first platform is used, however many there are.
   */
  function GetPlatform(platformCount: nat): (s: Selection)
    ensures s.ExitProcess? <==> platformCount == 0
    ensures s.Use? ==> s.index == 0 && s.index < platformCount
  {
    if platformCount == 0 then ExitProcess else Use(0)
  }

  /**
    `get_device`: an empty device list ends the process with EXIT_FAILURE;
    a single device is used without asking; with several, the number typed
    at the prompt is used as the index, unchecked.
   */
  function GetDevice(deviceCount: nat, typed: nat): (s: Selection)
    ensures s.ExitProcess? <==> deviceCount == 0
    ensures deviceCount == 1 ==> s == Use(0)
    ensures deviceCount > 1 ==> s == Use(typed)
    ensures s.Use? ==> (s.index < deviceCount <==> deviceCount == 1 || typed < deviceCount)
  {
    if deviceCount == 0 then ExitProcess
    else if deviceCount > 1 then Use(typed)
    else Use(0)
  }
}
