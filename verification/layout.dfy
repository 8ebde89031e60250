/**
 The byte layout of the RGB texture buffer: pixel (x, y) keeps its three
 colour channels at positions (y * width + x) * 3 + c, row after row.
 */
module Layout {

  /** Texture dimensions, fixed at build time and shared by every node. */
  datatype Dims = Dims(width: nat, height: nat)

  /** Number of bytes in an RGB buffer of the given dimensions: three per pixel. */
  function Size(d: Dims): (n: nat)
    ensures n % 3 == 0 && n / 3 == d.width * d.height
  {
    d.width * d.height * 3
  }

  /** A byte of the buffer named by pixel column, pixel row and channel (0 red, 1 green, 2 blue). */
  datatype Pos = Pos(x: nat, y: nat, c: nat)

  predicate InRange(d: Dims, p: Pos) {
    p.x < d.width && p.y < d.height && p.c < 3
  }

  /**
   The buffer offset the generator writes for a position: the offset divided
   by three is the row-major pixel number, the remainder is the channel.
   */
  function Index(d: Dims, p: Pos): (i: nat)
    ensures p.c < 3 ==> i / 3 == p.y * d.width + p.x && i % 3 == p.c
  {
    (p.y * d.width + p.x) * 3 + p.c
  }

  /** The position a buffer offset belongs to: the inverse of Index. */
  function PosOf(d: Dims, i: nat): (p: Pos)
    requires i < Size(d)
    ensures InRange(d, p)
  {
    var pixel := i / 3;
    PixelsFit(d, i);
    Pos(pixel % d.width, pixel / d.width, i % 3)
  }

  /** Every offset below Size belongs to a pixel of the grid. */
  lemma PixelsFit(d: Dims, i: nat)
    requires i < Size(d)
    ensures d.width > 0
    ensures i / 3 < d.width * d.height
    ensures (i / 3) / d.width < d.height
  {
    var pixels := d.width * d.height;
    assert Size(d) == pixels * 3;
    PositiveFactor(d.height, d.width);
    var pixel := i / 3;
    var q := pixel / d.width;
    assert pixel == q * d.width + pixel % d.width;
    assert (d.height - q) * d.width == pixels - q * d.width;
    PositiveFactor(d.height - q, d.width);
  }

  /** A product with a non-negative factor is positive only when both factors are. */
  lemma PositiveFactor(k: int, w: int)
    requires w >= 0 && k * w > 0
    ensures k > 0 && w > 0
  {
  }

  /** Division by a positive divisor is determined by any quotient/remainder pair. */
  lemma DivModUnique(a: int, w: int, q: int, r: int)
    requires w > 0 && 0 <= r < w && a == q * w + r
    ensures a / w == q && a % w == r
  {
    var k := a / w - q;
    assert k * w == r - a % w;
    MulBelowDivisor(k, w);
  }

  /** A multiple of w strictly between -w and w is zero. */
  lemma MulBelowDivisor(k: int, w: int)
    requires w > 0 && -w < k * w < w
    ensures k == 0
  {
  }

  /** Every written offset lies inside the buffer. */
  lemma IndexInBounds(d: Dims, p: Pos)
    requires InRange(d, p)
    ensures Index(d, p) < Size(d)
  {
    assert p.y * d.width + p.x < (p.y + 1) * d.width;
    assert (p.y + 1) * d.width <= d.height * d.width;
  }

  /** Decoding an encoded position gives it back. */
  lemma {:induction false} PosOfIndex(d: Dims, p: Pos)
    requires InRange(d, p)
    ensures Index(d, p) < Size(d) && PosOf(d, Index(d, p)) == p
  {
    IndexInBounds(d, p);
    var i := Index(d, p);
    var pixel := p.y * d.width + p.x;
    DivModUnique(i, 3, pixel, p.c);
    DivModUnique(pixel, d.width, p.y, p.x);
  }

  /** Encoding a decoded offset gives it back: every offset is written by some position. */
  lemma {:induction false} IndexOfPosOf(d: Dims, i: nat)
    requires i < Size(d)
    ensures Index(d, PosOf(d, i)) == i
  {
    var p := PosOf(d, i);
    var pixel := i / 3;
    assert pixel == (pixel / d.width) * d.width + pixel % d.width;
    assert i == pixel * 3 + i % 3;
  }

  /** Distinct in-range positions are written at distinct offsets. */
  lemma {:induction false} IndexInjective(d: Dims, p: Pos, q: Pos)
    requires InRange(d, p) && InRange(d, q)
    requires Index(d, p) == Index(d, q)
    ensures p == q
  {
    PosOfIndex(d, p);
    PosOfIndex(d, q);
  }

  /** Within a row, the last channel of one pixel is followed by the first channel of the next. */
  lemma NextInRowMajorOrder(d: Dims, x: nat, y: nat)
    ensures Index(d, Pos(x, y, 2)) + 1 == Index(d, Pos(x + 1, y, 0))
  {
  }

  /** The first offset past the last row is the buffer size. */
  lemma EndOfRows(d: Dims)
    ensures Index(d, Pos(0, d.height, 0)) == Size(d)
  {
  }
}
