/**
 Texture maps as the shader sees them: a possibly-null pointer to an image
 of width x height texels, sampled nearest-neighbour at wrapped texture
 coordinates. A texel's four bytes are named by the index the shader uses
 (`color[0]` .. `color[3]`); the TGA storage itself is not part of this model.
 */
module Textures {
  import opened Numerics
  import opened Geometry

  datatype Texel = Texel(c0: Byte, c1: Byte, c2: Byte, c3: Byte)

  /** Rows of texels: `texels[y][x]` is the texel at column x, row y. */
  datatype Image = Image(width: int, height: int, texels: seq<seq<Texel>>)

  /** The storage agrees with the reported dimensions. */
  predicate WellFormed(img: Image) {
    && img.width >= 0
    && img.height >= 0
    && |img.texels| == img.height
    && forall y :: 0 <= y < |img.texels| ==> |img.texels[y]| == img.width
  }

  /** A texture pointer of the shader, which may be null. */
  datatype TextureRef = Null | Ref(image: Image)

  /** The shader's guard `map && map->get_width() > 0 && map->get_height() > 0`. */
  predicate Usable(t: TextureRef) {
    t.Ref? && t.image.width > 0 && t.image.height > 0
  }

  /** A usable map that agrees with its dimensions has a texel to read in every row. */
  lemma UsableHasTexel(t: TextureRef)
    requires Valid(t)
    ensures Usable(t) <==> t.Ref? && |t.image.texels| > 0 && |t.image.texels[0]| > 0
  {
  }

  /** A non-null pointer refers to a well-formed image. */
  predicate Valid(t: TextureRef) {
    t.Ref? ==> WellFormed(t.image)
  }

  /** `get(x, y)`: only in-range reads are expressible. */
  function Get(img: Image, x: int, y: int): Texel
    requires WellFormed(img)
    requires 0 <= x < img.width && 0 <= y < img.height
  {
    img.texels[y][x]
  }

  /** `std::max(0, std::min(size - 1, i))`: an index clamped into 0 .. size-1. */
  function ClampIndex(i: int, size: int): (r: int)
    requires size > 0
    ensures 0 <= r <= size - 1
    ensures 0 <= i <= size - 1 ==> r == i
    ensures i < 0 ==> r == 0
    ensures i > size - 1 ==> r == size - 1
  {
    var upper := if size - 1 < i then size - 1 else i;
    if upper < 0 then 0 else upper
  }

  /**
   The texel index along one axis of extent `size`: the coordinate is
   wrapped to its fractional part, scaled, truncated and clamped.
   */
  function TexelIndex(coord: real, size: int): (r: int)
    requires size > 0
    ensures 0 <= r <= size - 1
  {
    ClampIndex(Trunc(Frac(coord) * size as real), size)
  }

  /**
   Over exact reals the clamp never binds: the index is the floor of the
   wrapped coordinate scaled by the extent.
   */
  lemma TexelIndexIsFloor(coord: real, size: int)
    requires size > 0
    ensures TexelIndex(coord, size) == (Frac(coord) * size as real).Floor
  {
    var f := Frac(coord);
    assert f * size as real < size as real by {
      assert (1.0 - f) * size as real > 0.0;
    }
  }

  /** Wrapping makes sampling periodic: whole-number shifts give the same index. */
  lemma TexelIndexWraps(coord: real, k: int, size: int)
    requires size > 0
    ensures TexelIndex(coord + k as real, size) == TexelIndex(coord, size)
  {
    FracShift(coord, k);
  }

  /** The texel the shader reads for texture coordinate `uv`. */
  function Sample(img: Image, uv: Vec2): (t: Texel)
    requires WellFormed(img) && img.width > 0 && img.height > 0
    ensures t == img.texels[TexelIndex(uv.y, img.height)][TexelIndex(uv.x, img.width)]
  {
    var x := TexelIndex(uv.x, img.width);
    var y := TexelIndex(uv.y, img.height);
    assert 0 <= x < img.width && 0 <= y < img.height && Get(img, x, y) == img.texels[y][x];
    Get(img, x, y)
  }

  /** Shifting both texture coordinates by whole numbers samples the same texel. */
  lemma SampleWraps(img: Image, uv: Vec2, i: int, j: int)
    requires WellFormed(img) && img.width > 0 && img.height > 0
    ensures Sample(img, Vec2(uv.x + i as real, uv.y + j as real)) == Sample(img, uv)
  {
    TexelIndexWraps(uv.x, i, img.width);
    TexelIndexWraps(uv.y, j, img.height);
  }
}
