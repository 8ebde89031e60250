/**
 The procedural texture generator: a colour for every pixel, each channel
 clamped to [0, 1] and truncated to a byte, written into the RGB buffer in
 row-major order. The colour formulas themselves (sines, cosines, atan2 and
 a square root over rotated coordinates) are a parameter of the model.
 */
module Generator {
  import opened Layout

  type byte = b: int | 0 <= b < 256

  /** Three unclamped colour channels. */
  datatype Rgb = Rgb(r: real, g: real, b: real)

  function Channel(colour: Rgb, c: nat): real
    requires c < 3
  {
    if c == 0 then colour.r else if c == 1 then colour.g else colour.b
  }

  /** The state fields the colour formulas read. */
  datatype Inputs = Inputs(time: real, angle: real, frameCounter: int)

  /**
   The colour of pixel (x, y) for the given inputs, before clamping,
   noise included. It is a pure function, so equal inputs give equal colours.
   */
  type Shader = (Inputs, nat, nat) -> Rgb

  /** fmax(0, fmin(1, v)). */
  function Clamp01(v: real): (r: real)
    ensures 0.0 <= r <= 1.0
    ensures 0.0 <= v <= 1.0 ==> r == v
    ensures v < 0.0 ==> r == 0.0
    ensures 1.0 < v ==> r == 1.0
  {
    if v < 0.0 then 0.0 else if v > 1.0 then 1.0 else v
  }

  /** A channel clamped and converted to a byte by truncating v * 255. */
  function Quantise(v: real): (q: int)
    ensures 0 <= q <= 255
    ensures q as real <= Clamp01(v) * 255.0 < q as real + 1.0
  {
    (Clamp01(v) * 255.0).Floor
  }

  /** Only channels at or above full intensity reach 255. */
  lemma QuantiseTop(v: real)
    ensures Quantise(v) == 255 <==> v >= 1.0
  {
  }

  /** Channels below one step of 1/255 (negative ones included) become 0. */
  lemma QuantiseBottom(v: real)
    ensures Quantise(v) == 0 <==> v < 1.0 / 255.0
  {
  }

  /** Brighter channels never give smaller bytes. */
  lemma QuantiseMonotone(v: real, w: real)
    requires v <= w
    ensures Quantise(v) <= Quantise(w)
  {
  }

  /** The byte stored for one position. */
  function ByteAt(sh: Shader, inp: Inputs, p: Pos): byte
    requires p.c < 3
  {
    Quantise(Channel(sh(inp, p.x, p.y), p.c))
  }

  /** The buffer the generator produces, described offset by offset. */
  function Texture(d: Dims, sh: Shader, inp: Inputs): (t: seq<byte>)
    ensures |t| == Size(d)
  {
    seq(Size(d), i requires 0 <= i < Size(d) => ByteAt(sh, inp, PosOf(d, i)))
  }

  /** The byte at a pixel's channel offset is that pixel's quantised channel. */
  lemma {:induction false} TexturePixel(d: Dims, sh: Shader, inp: Inputs, p: Pos)
    requires InRange(d, p)
    ensures Index(d, p) < Size(d)
    ensures Texture(d, sh, inp)[Index(d, p)] == ByteAt(sh, inp, p)
  {
    PosOfIndex(d, p);
  }

  /** The first `|writes|` offsets were written in order and hold the texture `t`. */
  ghost predicate FilledUpTo(data: seq<byte>, writes: seq<nat>, t: seq<byte>) {
    && |data| == |t|
    && |writes| <= |data|
    && (forall k :: 0 <= k < |writes| ==> writes[k] == k)
    && (forall k :: 0 <= k < |writes| ==> data[k] == t[k])
  }

  /** Writing the three channels of the next pixel extends the filled prefix by three offsets. */
  lemma {:induction false} PixelStep(d: Dims, sh: Shader, inp: Inputs, data: seq<byte>, writes: seq<nat>, x: nat, y: nat)
    requires x < d.width && y < d.height
    requires |writes| == Index(d, Pos(x, y, 0))
    requires FilledUpTo(data, writes, Texture(d, sh, inp))
    ensures var index := (y * d.width + x) * 3;
            var colour := sh(inp, x, y);
            && index + 2 < |data|
            && FilledUpTo(data[index := Quantise(colour.r)][index + 1 := Quantise(colour.g)][index + 2 := Quantise(colour.b)],
                          writes + [index, index + 1, index + 2], Texture(d, sh, inp))
            && |writes| + 3 == Index(d, Pos(x + 1, y, 0))
  {
    TexturePixel(d, sh, inp, Pos(x, y, 0));
    TexturePixel(d, sh, inp, Pos(x, y, 1));
    TexturePixel(d, sh, inp, Pos(x, y, 2));
    NextInRowMajorOrder(d, x, y);
  }

  /**
   The nested loops of the generator, overwriting the previous buffer in place. `writes` logs the
   offsets in the order they are assigned; it shows that every byte of the
   buffer is written exactly once, in increasing order, and never outside it.
   */
  method GenerateTextureData(d: Dims, sh: Shader, inp: Inputs, previous: seq<byte>) returns (data: seq<byte>, ghost writes: seq<nat>)
    requires |previous| == Size(d)
    ensures data == Texture(d, sh, inp)
    ensures |writes| == Size(d)
    ensures forall k :: 0 <= k < |writes| ==> writes[k] == k
  {
    ghost var t := Texture(d, sh, inp);
    data := previous;
    writes := [];
    var y := 0;
    while y < d.height
      invariant 0 <= y <= d.height
      invariant |writes| == Index(d, Pos(0, y, 0))
      invariant FilledUpTo(data, writes, t)
    {
      var x := 0;
      while x < d.width
        invariant 0 <= x <= d.width
        invariant |writes| == Index(d, Pos(x, y, 0))
        invariant FilledUpTo(data, writes, t)
      {
        var index := (y * d.width + x) * 3;
        var colour := sh(inp, x, y);
        PixelStep(d, sh, inp, data, writes, x, y);
        data := data[index + 0 := Quantise(colour.r)];
        data := data[index + 1 := Quantise(colour.g)];
        data := data[index + 2 := Quantise(colour.b)];
        writes := writes + [index + 0, index + 1, index + 2];
        x := x + 1;
      }
      y := y + 1;
    }
    EndOfRows(d);
  }
}
