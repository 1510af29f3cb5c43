/** The off-screen render target of gl-framebuffer.c: a framebuffer object
    with one floating-point colour texture, whose cached width, height and
    channel count decide when the texture's storage must be reallocated. */
module GlFramebuffer {
  import opened Wrappers

  // ---------------------------------------------------------------------------
  // OpenGL enumerants used by the format tables

  // Sized 32-bit float internal formats.
  const R32F: int := 0x822E
  const RG32F: int := 0x8230
  const RGB32F: int := 0x8815
  const RGBA32F: int := 0x8814

  // Pixel-transfer formats.
  const Red: int := 0x1903
  const RG: int := 0x8227
  const RGB: int := 0x1907
  const RGBA: int := 0x1908

  /** GL_R: the texture-coordinate name used by glTexGen, not a pixel format. */
  const TexCoordR: int := 0x2002

  /** Channels stored by a 32-bit float colour internal format; 0 for any
      other value. */
  function InternalChannels(f: int): nat
  {
    if f == R32F then 1 else if f == RG32F then 2 else if f == RGB32F then 3 else if f == RGBA32F then 4 else 0
  }

  /** Channels carried by a colour pixel-transfer format accepted by
      glTexImage2D and glReadPixels; 0 for any value that is not one. */
  function PixelChannels(f: int): nat
  {
    if f == Red then 1 else if f == RG then 2 else if f == RGB then 3 else if f == RGBA then 4 else 0
  }

  // ---------------------------------------------------------------------------
  // The in/ex tables (gl-framebuffer.c:48-58), indexed by channel count

  const InternalTable: seq<int> := [0, R32F, RG32F, RGB32F, RGBA32F]
  const ExternalTableAsWritten: seq<int> := [0, TexCoordR, RG, RGB, RGBA]
  const ExternalTable: seq<int> := [0, Red, RG, RGB, RGBA]

  /** in(c): the internal format for c channels; entry 0 is 0, no format. */
  function InternalFormat(c: int): (f: int)
    requires 0 <= c < |InternalTable|
    ensures InternalChannels(f) == c
    ensures f == 0 <==> c == 0
  {
    InternalTable[c]
  }

  /** ex(c) as written: entry 1 is GL_R, which no pixel transfer accepts. */
  function ExternalFormatAsWritten(c: int): (f: int)
    requires 0 <= c < |ExternalTableAsWritten|
    ensures c != 1 ==> PixelChannels(f) == c
    ensures f == 0 <==> c == 0
  {
    ExternalTableAsWritten[c]
  }

  /** ex(c) as intended: the pixel format with c channels (GL_RED for one). */
  function ExternalFormat(c: int): (f: int)
    requires 0 <= c < |ExternalTable|
    ensures PixelChannels(f) == c
    ensures f == 0 <==> c == 0
  {
    ExternalTable[c]
  }

  /** The table as written gives one-channel targets a value that is not a
      pixel format at all, while its other entries match the intended table. */
  lemma ExternalFormatAsWrittenOneChannel()
    ensures ExternalFormatAsWritten(1) == TexCoordR
    ensures PixelChannels(ExternalFormatAsWritten(1)) == 0
    ensures forall c | 0 <= c < |ExternalTable| && c != 1 :: ExternalFormatAsWritten(c) == ExternalFormat(c)
  {
  }

  /** For every channel count a target may have, the internal format and the
      pixel format describe the same number of channels. */
  lemma FormatsAgree(c: int)
    requires 1 <= c <= 4
    ensures InternalChannels(InternalFormat(c)) == PixelChannels(ExternalFormat(c)) == c
    ensures InternalFormat(c) != 0 && ExternalFormat(c) != 0
  {
  }

  // ---------------------------------------------------------------------------
  // The render target

  /** The arguments of the last glTexImage2D call on the colour texture, or
      NoImage if it was never given storage. */
  datatype TexImage = NoImage | TexImage(internal: int, width: int, height: int, format: int)

  /** gl_framebuffer: cached dimensions w, h, c and the GL names of the
      framebuffer object and its colour texture. */
  class Framebuffer {
    var w: int
    var h: int
    var c: int
    var frame: nat
    var color: nat
    var colorImage: TexImage
    ghost var colorAllocations: nat

    /** The arguments of the last glTexImage2D call match the cached
        dimensions: before any allocation they are all zero, afterwards the
        last call was made for exactly (w, h, c). */
    ghost predicate Valid()
      reads this
    {
      0 <= c < |InternalTable| &&
      (colorAllocations == 0 ==> w == 0 && h == 0 && c == 0 && colorImage == NoImage) &&
      (colorAllocations > 0 ==> colorImage == TexImage(InternalFormat(c), w, h, ExternalFormat(c)))
    }

    /** gl_init_framebuffer (gl-framebuffer.c:114-125). The names handed out
        by glGenFramebuffers and glGenTextures are parameters. */
    constructor Init(w1: int, h1: int, c1: int, frameName: nat, colorName: nat)
      requires w1 != 0 && h1 != 0 && c1 != 0 ==> 0 <= c1 < |InternalTable|
      ensures Valid() && frame == frameName && color == colorName
      ensures w1 != 0 && h1 != 0 && c1 != 0 ==> w == w1 && h == h1 && c == c1 && colorAllocations == 1
      ensures !(w1 != 0 && h1 != 0 && c1 != 0) ==> w == 0 && h == 0 && c == 0 && colorAllocations == 0
    {
      frame, color := frameName, colorName;
      colorImage := NoImage;
      colorAllocations := 0;
      w, h, c := 0, 0, 0;
      new;
      if w1 != 0 && h1 != 0 && c1 != 0 {
        Size(w1, h1, c1);
      }
    }

    /** size_color (gl-framebuffer.c:60-71): give the colour texture storage
        for w1 x h1 texels of c1 float channels. */
    method SizeColor(w1: int, h1: int, c1: int)
      requires 0 <= c1 < |InternalTable|
      modifies this`colorImage, this`colorAllocations
      ensures colorImage == TexImage(InternalFormat(c1), w1, h1, ExternalFormat(c1))
      ensures colorAllocations == old(colorAllocations) + 1
    {
      colorImage := TexImage(InternalTable[c1], w1, h1, ExternalTable[c1]);
      colorAllocations := colorAllocations + 1;
    }

    /** gl_size_framebuffer (gl-framebuffer.c:89-112): afterwards the cached
        dimensions are the requested ones; the colour texture is reallocated
        once if any of them differs and left alone otherwise; the framebuffer
        and texture names never change. */
    method Size(w1: int, h1: int, c1: int)
      requires Valid() && 0 <= c1 < |InternalTable|
      modifies this
      ensures Valid()
      ensures w == w1 && h == h1 && c == c1
      ensures frame == old(frame) && color == old(color)
      ensures old(w) == w1 && old(h) == h1 && old(c) == c1 ==> unchanged(this)
      ensures !(old(w) == w1 && old(h) == h1 && old(c) == c1) ==>
        colorAllocations == old(colorAllocations) + 1 &&
        colorImage == TexImage(InternalFormat(c1), w1, h1, ExternalFormat(c1))
    {
      if w != w1 || h != h1 || c != c1 {
        SizeColor(w1, h1, c1);
        w := w1;
        h := h1;
        c := c1;
      }
    }

    /** gl_copy_framebuffer (gl-framebuffer.c:134-149): a fresh buffer of
        w * h * c1 floats, or none when malloc fails. `mallocOk` is whether
        malloc succeeds; a negative size converts to an unsatisfiable request.
        The table lookup ex(c1) happens only after a successful malloc. */
    method Copy(c1: int, mallocOk: bool) returns (p: Option<array<real>>)
      requires mallocOk && w * h * c1 >= 0 ==> 0 <= c1 < |ExternalTable|
      ensures p.Some? <==> mallocOk && w * h * c1 >= 0
      ensures p.Some? ==> fresh(p.value) && p.value.Length == w * h * c1
    {
      var n := w * h * c1;
      if mallocOk && n >= 0 {
        var buf := new real[n];
        p := Some(buf);
      } else {
        p := None;
      }
    }
  }
}
