/**
 Box scaling of a square RGBA image and the centre crop before it. A pixel's four channels are
 consecutive bytes; a row of a `side` wide image is 4 * side bytes.
 */
module BoxScale {

  type Byte = x: int | 0 <= x < 256

  // ---------------------------------------------------------------- which source pixels an output pixel covers

  function Lo(i: int, side: int, n: int): int
    requires 0 < n
  {
    i * side / n
  }

  function Hi(i: int, side: int, n: int): int
    requires 0 < n
  {
    var h := (i + 1) * side / n;
    if h > Lo(i, side, n) then h else Lo(i, side, n) + 1
  }

  lemma DivBounds(a: int, n: int)
    requires 0 < n
    ensures n * (a / n) <= a < n * (a / n) + n
  {}

  lemma DivMonotone(a: int, b: int, n: int)
    requires 0 < n && a <= b
    ensures a / n <= b / n
  {
    DivBounds(a, n);
    DivBounds(b, n);
    if a / n >= b / n + 1 { MulMonotone(n, b / n + 1, a / n); }
  }

  lemma MulMonotone(k: int, a: int, b: int)
    requires 0 <= k && a <= b
    ensures k * a <= k * b
  {}

  lemma DivExact(k: int, n: int)
    requires 0 < n
    ensures (n * k) / n == k
  {
    DivBounds(n * k, n);
    var q := (n * k) / n;
    if q >= k + 1 { MulMonotone(n, k + 1, q); }
    if q <= k - 1 { MulMonotone(n, q, k - 1); }
  }

  lemma DivPlusOne(a: int, n: int)
    requires 0 < n
    ensures (a + n) / n == a / n + 1
  {
    DivBounds(a, n);
    DivBounds(a + n, n);
    var p, q := a / n, (a + n) / n;
    if q >= p + 2 { MulMonotone(n, p + 2, q); }
    if q <= p { MulMonotone(n, q, p); }
  }

  /** No block is empty and none reaches outside the source. */
  lemma SpanInside(i: int, side: int, n: int)
    requires 1 <= side && 0 <= i < n
    ensures 0 <= Lo(i, side, n) < Hi(i, side, n) <= side
  {
    MulMonotone(side, 0, i);
    MulMonotone(side, i + 1, n);
    DivMonotone(0, i * side, n);
    DivMonotone((i + 1) * side, n * side, n);
    DivExact(side, n);
    DivMonotone(i * side, n * side - 1, n);
    DivBounds(n * side - 1, n);
    if (n * side - 1) / n >= side { MulMonotone(n, side, (n * side - 1) / n); }
  }

  /** Shrinking: the spans tile the source side. Enlarging: each span is a single source pixel. */
  lemma SpansTile(i: int, side: int, n: int)
    requires 1 <= side && 0 <= i < n
    ensures Lo(0, side, n) == 0
    ensures n <= side ==> Hi(i, side, n) == Lo(i + 1, side, n) && Lo(n, side, n) == side
    ensures side <= n ==> Hi(i, side, n) == Lo(i, side, n) + 1
  {
    DivExact(0, n);
    DivExact(side, n);
    DivPlusOne(i * side, n);
    if n <= side {
      DivMonotone(i * side + n, (i + 1) * side, n);
    } else {
      DivMonotone((i + 1) * side, i * side + n, n);
    }
  }

  /** Where a span starts: the share of the side before output pixel i, rounded down. */
  lemma SpanStarts(i: int, side: int, n: int)
    requires 0 < n
    ensures n * Lo(i, side, n) <= i * side < n * Lo(i, side, n) + n
  {
    DivBounds(i * side, n);
  }

  /** When shrinking, no output pixel covers more than one source pixel more than another. */
  lemma SpansAreEven(i: int, side: int, n: int)
    requires 1 <= n <= side && 0 <= i < n
    ensures side / n <= Hi(i, side, n) - Lo(i, side, n) <= side / n + 1
  {
    SpansTile(i, side, n);
    DivBounds(i * side, n);
    DivBounds((i + 1) * side, n);
    DivBounds(side, n);
    var w, q := Lo(i + 1, side, n) - Lo(i, side, n), side / n;
    assert (i + 1) * side == i * side + side;
    EvenWidth(n, i * side, side, Lo(i, side, n), Lo(i + 1, side, n), q);
  }

  lemma EvenWidth(n: int, a: int, side: int, lo: int, hi: int, q: int)
    requires 0 < n && n * lo <= a < n * lo + n && n * hi <= a + side < n * hi + n && n * q <= side < n * q + n
    ensures q <= hi - lo <= q + 1
  {
    Difference(n, lo, hi);
    BetweenMultiples(n, hi - lo, n * (hi - lo), q, n * q);
  }

  lemma Difference(n: int, lo: int, hi: int)
    ensures n * (hi - lo) == n * hi - n * lo
  {}

  lemma BetweenMultiples(n: int, d: int, nd: int, q: int, nq: int)
    requires 0 < n && nd == n * d && nq == n * q && nq - n < nd < nq + 2 * n
    ensures q <= d <= q + 1
  {
    if d < q { MulMonotone(n, d, q - 1); }
    if d > q + 1 { MulMonotone(n, q + 2, d); }
  }

  predicate InSpan(x: int, i: int, side: int, n: int)
    requires 0 < n
  {
    Lo(i, side, n) <= x < Hi(i, side, n)
  }

  lemma LoMonotone(i: int, j: int, side: int, n: int)
    requires 1 <= side && 0 < n && i <= j
    ensures Lo(i, side, n) <= Lo(j, side, n)
  {
    MulMonotone(side, i, j);
    DivMonotone(i * side, j * side, n);
  }

  /** When shrinking, every source coordinate lies in exactly one span. */
  lemma SpansPartition(x: int, side: int, n: int) returns (i: int)
    requires 1 <= n <= side && 0 <= x < side
    ensures 0 <= i < n && InSpan(x, i, side, n)
    ensures forall j :: 0 <= j < n && InSpan(x, j, side, n) ==> j == i
  {
    i := 0;
    SpansTile(0, side, n);
    while x >= Hi(i, side, n)
      invariant 0 <= i < n && Lo(i, side, n) <= x
      decreases n - i
    {
      SpansTile(i, side, n);
      i := i + 1;
    }
    forall j | 0 <= j < n && InSpan(x, j, side, n) ensures j == i {
      SpansTile(i, side, n);
      SpansTile(j, side, n);
      if j < i { LoMonotone(j + 1, i, side, n); }
      if i < j { LoMonotone(i + 1, j, side, n); }
    }
  }

  // ---------------------------------------------------------------- sums over blocks

  /** Where row y of an n wide image starts. */
  ghost function RowStart(n: int, y: int): int
    requires 0 <= y
  {
    if y == 0 then 0 else RowStart(n, y - 1) + 4 * n
  }

  lemma {:induction false} RowStartIs(n: int, y: int)
    requires 0 <= y
    ensures RowStart(n, y) == y * (4 * n)
  {
    if y > 0 {
      RowStartIs(n, y - 1);
      MulStep(4 * n, y);
    }
  }

  lemma {:induction false} RowInside(n: int, y: int, m: int)
    requires 1 <= n && 0 <= y < m
    ensures 0 <= RowStart(n, y) && RowStart(n, y) + 4 * n <= RowStart(n, m)
  {
    if y + 1 < m {
      RowInside(n, y, m - 1);
    } else if 0 < y {
      RowInside(n, y - 1, y);
    }
  }

  ghost predicate Square(pix: seq<Byte>, side: int) { 1 <= side && |pix| == RowStart(side, side) }

  ghost function Channel(pix: seq<Byte>, side: int, x: int, y: int, c: int): Byte
    requires Square(pix, side) && 0 <= x < side && 0 <= y < side && 0 <= c < 4
  {
    RowInside(side, y, side);
    pix[RowStart(side, y) + x * 4 + c]
  }

  ghost function RowSum(pix: seq<Byte>, side: int, c: int, y: int, x0: int, x1: int): int
    requires Square(pix, side) && 0 <= c < 4 && 0 <= y < side && 0 <= x0 && x1 <= side
    decreases x1 - x0
  {
    if x1 <= x0 then 0 else RowSum(pix, side, c, y, x0, x1 - 1) + Channel(pix, side, x1 - 1, y, c)
  }

  ghost function BlockSum(pix: seq<Byte>, side: int, c: int, x0: int, x1: int, y0: int, y1: int): int
    requires Square(pix, side) && 0 <= c < 4 && 0 <= x0 && x1 <= side && 0 <= y0 && y1 <= side
    decreases y1 - y0
  {
    if y1 <= y0 then 0
    else BlockSum(pix, side, c, x0, x1, y0, y1 - 1) + RowSum(pix, side, c, y1 - 1, x0, x1)
  }

  ghost predicate Within(pix: seq<Byte>, side: int, c: int, x0: int, x1: int, y0: int, y1: int, least: int, most: int)
    requires Square(pix, side) && 0 <= c < 4 && 0 <= x0 && x1 <= side && 0 <= y0 && y1 <= side
  {
    forall x, y :: x0 <= x < x1 && y0 <= y < y1 ==> least <= Channel(pix, side, x, y, c) <= most
  }

  lemma {:induction false} RowSumWithin(pix: seq<Byte>, side: int, c: int, y: int, x0: int, x1: int, least: int, most: int)
    requires Square(pix, side) && 0 <= c < 4 && 0 <= y < side && 0 <= x0 <= x1 <= side
    requires forall x :: x0 <= x < x1 ==> least <= Channel(pix, side, x, y, c) <= most
    ensures least * (x1 - x0) <= RowSum(pix, side, c, y, x0, x1) <= most * (x1 - x0)
    decreases x1 - x0
  {
    if x0 < x1 {
      RowSumWithin(pix, side, c, y, x0, x1 - 1, least, most);
      MulStep(least, x1 - x0);
      MulStep(most, x1 - x0);
    }
  }

  lemma MulStep(k: int, a: int)
    ensures k * a == k * (a - 1) + k
  {}

  lemma Distribute(k: int, a: int, b: int)
    ensures k * (a * b) == k * (a * (b - 1)) + k * a
  {
    MulStep(a, b);
  }

  lemma {:induction false} BlockSumWithin(pix: seq<Byte>, side: int, c: int, x0: int, x1: int, y0: int, y1: int,
                                          w: int, h: int, least: int, most: int)
    requires Square(pix, side) && 0 <= c < 4 && 0 <= x0 <= x1 <= side && 0 <= y0 <= y1 <= side
    requires w == x1 - x0 && h == y1 - y0
    requires Within(pix, side, c, x0, x1, y0, y1, least, most)
    ensures least * (w * h) <= BlockSum(pix, side, c, x0, x1, y0, y1) <= most * (w * h)
    decreases h
  {
    if y0 < y1 {
      BlockSumWithin(pix, side, c, x0, x1, y0, y1 - 1, w, h - 1, least, most);
      RowSumWithin(pix, side, c, y1 - 1, x0, x1, least, most);
      Stack(least, most, w, h, BlockSum(pix, side, c, x0, x1, y0, y1 - 1), RowSum(pix, side, c, y1 - 1, x0, x1));
    }
  }

  lemma Stack(least: int, most: int, w: int, h: int, above: int, row: int)
    requires least * (w * (h - 1)) <= above <= most * (w * (h - 1))
    requires least * w <= row <= most * w
    ensures least * (w * h) <= above + row <= most * (w * h)
  {
    Distribute(least, w, h);
    Distribute(most, w, h);
  }

  lemma MeanOf(sum: int, count: int, least: int, most: int)
    requires 0 < count && least * count <= sum <= most * count
    ensures least <= sum / count <= most
  {
    DivBounds(sum, count);
    if sum / count < least { MulMonotone(count, sum / count + 1, least); }
    if sum / count > most { MulMonotone(count, most + 1, sum / count); }
  }

  ghost function BlockMean(pix: seq<Byte>, side: int, c: int, x0: int, x1: int, y0: int, y1: int): (m: Byte)
    requires Square(pix, side) && 0 <= c < 4 && 0 <= x0 < x1 <= side && 0 <= y0 < y1 <= side
  {
    MulMonotone(x1 - x0, 1, y1 - y0);
    assert Within(pix, side, c, x0, x1, y0, y1, 0, 255);
    BlockSumWithin(pix, side, c, x0, x1, y0, y1, x1 - x0, y1 - y0, 0, 255);
    MeanOf(BlockSum(pix, side, c, x0, x1, y0, y1), (x1 - x0) * (y1 - y0), 0, 255);
    BlockSum(pix, side, c, x0, x1, y0, y1) / ((x1 - x0) * (y1 - y0))
  }

  /** Channel c of output pixel (dx, dy). */
  ghost function OutputMean(pix: seq<Byte>, side: int, n: int, dx: int, dy: int, c: int): Byte
    requires Square(pix, side) && 0 <= dx < n && 0 <= dy < n && 0 <= c < 4
  {
    SpanInside(dx, side, n);
    SpanInside(dy, side, n);
    BlockMean(pix, side, c, Lo(dx, side, n), Hi(dx, side, n), Lo(dy, side, n), Hi(dy, side, n))
  }

  /** The mean is the block's sum divided by its pixel count, rounded down. */
  lemma OutputIsMean(pix: seq<Byte>, side: int, n: int, dx: int, dy: int, c: int)
    requires Square(pix, side) && 0 <= dx < n && 0 <= dy < n && 0 <= c < 4
    ensures 0 <= Lo(dx, side, n) < Hi(dx, side, n) <= side && 0 <= Lo(dy, side, n) < Hi(dy, side, n) <= side
    ensures var x0, x1, y0, y1 := Lo(dx, side, n), Hi(dx, side, n), Lo(dy, side, n), Hi(dy, side, n);
            var count, mean := (x1 - x0) * (y1 - y0), OutputMean(pix, side, n, dx, dy, c);
            0 < count && count * mean <= BlockSum(pix, side, c, x0, x1, y0, y1) < count * mean + count
  {
    SpanInside(dx, side, n);
    SpanInside(dy, side, n);
    var x0, x1, y0, y1 := Lo(dx, side, n), Hi(dx, side, n), Lo(dy, side, n), Hi(dy, side, n);
    MulMonotone(x1 - x0, 1, y1 - y0);
    DivBounds(BlockSum(pix, side, c, x0, x1, y0, y1), (x1 - x0) * (y1 - y0));
  }

  /** The sum over a block of one pixel is that pixel's byte, where the image format puts it. */
  lemma OnePixelBlock(pix: seq<Byte>, side: int, c: int, x: int, y: int)
    requires Square(pix, side) && 0 <= c < 4 && 0 <= x < side && 0 <= y < side
    ensures 0 <= y * (4 * side) + x * 4 + c < |pix|
    ensures BlockSum(pix, side, c, x, x + 1, y, y + 1) == pix[y * (4 * side) + x * 4 + c]
  {
    RowInside(side, y, side);
    RowStartIs(side, y);
    OnePixelRow(pix, side, c, x, y);
    assert BlockSum(pix, side, c, x, x + 1, y, y) == 0;
  }

  lemma OnePixelRow(pix: seq<Byte>, side: int, c: int, x: int, y: int)
    requires Square(pix, side) && 0 <= c < 4 && 0 <= x < side && 0 <= y < side
    ensures RowSum(pix, side, c, y, x, x + 1) == Channel(pix, side, x, y, c)
  {
    assert RowSum(pix, side, c, y, x, x) == 0;
  }

  /** A fair mean: between any bounds on the source values of its block, so between the least and the greatest. */
  lemma OutputWithinBlock(pix: seq<Byte>, side: int, n: int, dx: int, dy: int, c: int, least: int, most: int)
    requires Square(pix, side) && 0 <= dx < n && 0 <= dy < n && 0 <= c < 4
    requires forall x, y :: 0 <= x < side && 0 <= y < side && InSpan(x, dx, side, n) && InSpan(y, dy, side, n)
                            ==> least <= Channel(pix, side, x, y, c) <= most
    ensures least <= OutputMean(pix, side, n, dx, dy, c) <= most
  {
    SpanInside(dx, side, n);
    SpanInside(dy, side, n);
    var x0, x1, y0, y1 := Lo(dx, side, n), Hi(dx, side, n), Lo(dy, side, n), Hi(dy, side, n);
    forall x, y | x0 <= x < x1 && y0 <= y < y1 ensures least <= Channel(pix, side, x, y, c) <= most {
      assert InSpan(x, dx, side, n) && InSpan(y, dy, side, n);
    }
    MulMonotone(x1 - x0, 1, y1 - y0);
    BlockSumWithin(pix, side, c, x0, x1, y0, y1, x1 - x0, y1 - y0, least, most);
    MeanOf(BlockSum(pix, side, c, x0, x1, y0, y1), (x1 - x0) * (y1 - y0), least, most);
  }

  // ---------------------------------------------------------------- the loops

  ghost function OutputPixel(pix: seq<Byte>, side: int, n: int, dx: int, dy: int): (p: seq<Byte>)
    requires Square(pix, side) && 0 <= dx < n && 0 <= dy < n
    ensures |p| == 4
  {
    [OutputMean(pix, side, n, dx, dy, 0), OutputMean(pix, side, n, dx, dy, 1), OutputMean(pix, side, n, dx, dy, 2), 255]
  }

  /** The first k pixels of output row dy. */
  ghost function OutputRow(pix: seq<Byte>, side: int, n: int, dy: int, k: int): (row: seq<Byte>)
    requires Square(pix, side) && 0 <= k <= n && 0 <= dy < n
    ensures |row| == 4 * k
    decreases k
  {
    if k == 0 then [] else OutputRow(pix, side, n, dy, k - 1) + OutputPixel(pix, side, n, k - 1, dy)
  }

  /** The first m rows of the output. */
  ghost function OutputRows(pix: seq<Byte>, side: int, n: int, m: int): (rows: seq<Byte>)
    requires Square(pix, side) && 1 <= n && 0 <= m <= n
    ensures |rows| == RowStart(n, m)
    decreases m
  {
    if m == 0 then [] else OutputRows(pix, side, n, m - 1) + OutputRow(pix, side, n, m - 1, n)
  }

  /** The two inner loops: one block's channel sums and pixel count. */
  method SumBlock(src: array<Byte>, side: int, x0: int, x1: int, y0: int, y1: int) returns (r: int, g: int, b: int, count: int)
    requires Square(src[..], side) && 0 <= x0 <= x1 <= side && 0 <= y0 <= y1 <= side
    ensures r == BlockSum(src[..], side, 0, x0, x1, y0, y1)
    ensures g == BlockSum(src[..], side, 1, x0, x1, y0, y1)
    ensures b == BlockSum(src[..], side, 2, x0, x1, y0, y1)
    ensures count == (x1 - x0) * (y1 - y0)
  {
    r, g, b, count := 0, 0, 0, 0;
    for y := y0 to y1
      invariant r == BlockSum(src[..], side, 0, x0, x1, y0, y)
      invariant g == BlockSum(src[..], side, 1, x0, x1, y0, y)
      invariant b == BlockSum(src[..], side, 2, x0, x1, y0, y)
      invariant count == (x1 - x0) * (y - y0)
    {
      var rr, gg, bb := SumRow(src, side, y, x0, x1);
      MulStep(x1 - x0, y + 1 - y0);
      r, g, b, count := r + rr, g + gg, b + bb, count + (x1 - x0);
    }
  }

  method SumRow(src: array<Byte>, side: int, y: int, x0: int, x1: int) returns (r: int, g: int, b: int)
    requires Square(src[..], side) && 0 <= x0 <= x1 <= side && 0 <= y < side
    ensures r == RowSum(src[..], side, 0, y, x0, x1)
    ensures g == RowSum(src[..], side, 1, y, x0, x1)
    ensures b == RowSum(src[..], side, 2, y, x0, x1)
  {
    r, g, b := 0, 0, 0;
    for x := x0 to x1
      invariant r == RowSum(src[..], side, 0, y, x0, x)
      invariant g == RowSum(src[..], side, 1, y, x0, x)
      invariant b == RowSum(src[..], side, 2, y, x0, x)
    {
      RowInside(side, y, side);
      RowStartIs(side, y);
      var p := y * (4 * side) + x * 4;
      r, g, b := r + src[p], g + src[p + 1], b + src[p + 2];
    }
  }

  method WritePixel(src: array<Byte>, side: int, n: int, dx: int, dy: int, dst: array<Byte>)
    requires Square(src[..], side) && 0 <= dx < n && 0 <= dy < n && dst != src
    requires 0 <= RowStart(n, dy) && RowStart(n, dy) + 4 * n <= dst.Length
    modifies dst
    ensures dst[..RowStart(n, dy) + dx * 4 + 4] ==
              old(dst[..])[..RowStart(n, dy) + dx * 4] + OutputPixel(src[..], side, n, dx, dy)
    ensures forall k :: RowStart(n, dy) + dx * 4 + 4 <= k < dst.Length ==> dst[k] == old(dst[k])
  {
    SpanInside(dx, side, n);
    SpanInside(dy, side, n);
    var x0, x1, y0, y1 := Lo(dx, side, n), Hi(dx, side, n), Lo(dy, side, n), Hi(dy, side, n);
    MulMonotone(x1 - x0, 1, y1 - y0);
    var r, g, b, count := SumBlock(src, side, x0, x1, y0, y1);
    assert r / count == OutputMean(src[..], side, n, dx, dy, 0);
    assert g / count == OutputMean(src[..], side, n, dx, dy, 1);
    assert b / count == OutputMean(src[..], side, n, dx, dy, 2);
    RowStartIs(n, dy);
    var o := dy * (4 * n) + dx * 4;
    dst[o] := r / count;
    dst[o + 1] := g / count;
    dst[o + 2] := b / count;
    dst[o + 3] := 0xff;
  }

  /** The loop over one output row. */
  method WriteRow(src: array<Byte>, side: int, n: int, dy: int, dst: array<Byte>)
    requires Square(src[..], side) && 0 <= dy < n && dst != src
    requires 0 <= RowStart(n, dy) && RowStart(n, dy) + 4 * n <= dst.Length
    modifies dst
    ensures dst[..RowStart(n, dy) + 4 * n] == old(dst[..])[..RowStart(n, dy)] + OutputRow(src[..], side, n, dy, n)
  {
    ghost var at := RowStart(n, dy);
    ghost var done := dst[..at];
    for dx := 0 to n
      invariant dst[..at + dx * 4] == done + OutputRow(src[..], side, n, dy, dx)
    {
      WritePixel(src, side, n, dx, dy, dst);
      assert dst[..at + dx * 4 + 4] == (done + OutputRow(src[..], side, n, dy, dx)) + OutputPixel(src[..], side, n, dx, dy);
    }
  }

  /** The whole loop nest: an n x n image whose pixels are the means of their blocks. */
  method ScaleBox(src: array<Byte>, side: int, n: int) returns (dst: array<Byte>)
    requires 1 <= side && src.Length == 4 * side * side && 1 <= n
    ensures fresh(dst) && Square(src[..], side)
    ensures dst[..] == OutputRows(src[..], side, n, n)
  {
    RowStartIs(side, side);
    RowStartIs(n, n);
    MulMonotone(4 * n, 0, n);
    dst := new Byte[4 * n * n];
    WriteRows(src, side, n, dst);
  }

  /** The loop over the output rows. */
  method WriteRows(src: array<Byte>, side: int, n: int, dst: array<Byte>)
    requires Square(src[..], side) && 1 <= n && dst.Length == RowStart(n, n) && dst != src
    modifies dst
    ensures dst[..] == OutputRows(src[..], side, n, n)
  {
    for dy := 0 to n
      invariant 0 <= RowStart(n, dy) <= dst.Length
      invariant dst[..RowStart(n, dy)] == OutputRows(src[..], side, n, dy)
    {
      RowInside(n, dy, n);
      WriteRow(src, side, n, dy, dst);
      assert RowStart(n, dy + 1) == RowStart(n, dy) + 4 * n;
    }
  }

  lemma {:induction false} RowHolds(pix: seq<Byte>, side: int, n: int, dy: int, k: int, dx: int, c: int)
    requires Square(pix, side) && 0 <= dx < k <= n && 0 <= dy < n && 0 <= c < 4
    ensures OutputRow(pix, side, n, dy, k)[dx * 4 + c] == OutputPixel(pix, side, n, dx, dy)[c]
    decreases k
  {
    if dx < k - 1 { RowHolds(pix, side, n, dy, k - 1, dx, c); }
  }

  /** Byte c of output pixel (dx, dy), where the image format puts it. */
  lemma OutputHolds(pix: seq<Byte>, side: int, n: int, m: int, dx: int, dy: int, c: int)
    requires Square(pix, side) && 0 <= dx < n && 0 <= dy < m <= n && 0 <= c < 4
    ensures 0 <= RowStart(n, dy) && RowStart(n, dy) + dx * 4 + c < RowStart(n, m)
    ensures OutputRows(pix, side, n, m)[RowStart(n, dy) + dx * 4 + c] ==
              if c == 3 then 255 else OutputMean(pix, side, n, dx, dy, c)
  {
    RowsHold(pix, side, n, m, dx, dy, c);
  }

  lemma {:induction false} RowsHold(pix: seq<Byte>, side: int, n: int, m: int, dx: int, dy: int, c: int)
    requires Square(pix, side) && 0 <= dx < n && 0 <= dy < m <= n && 0 <= c < 4
    ensures var at := RowStart(n, dy) + dx * 4 + c;
            0 <= RowStart(n, dy) && at < RowStart(n, m) && OutputRows(pix, side, n, m)[at] == OutputPixel(pix, side, n, dx, dy)[c]
    decreases m
  {
    RowInside(n, dy, dy + 1);
    if dy < m - 1 {
      RowsHold(pix, side, n, m - 1, dx, dy, c);
      RowsGrow(pix, side, n, m - 1, RowStart(n, dy) + dx * 4 + c);
    } else {
      LastRowHolds(pix, side, n, dx, dy, c);
    }
  }

  lemma RowsGrow(pix: seq<Byte>, side: int, n: int, m: int, at: int)
    requires Square(pix, side) && 0 <= m < n && 0 <= at < RowStart(n, m)
    ensures at < RowStart(n, m + 1) && OutputRows(pix, side, n, m + 1)[at] == OutputRows(pix, side, n, m)[at]
  {}

  lemma LastRowHolds(pix: seq<Byte>, side: int, n: int, dx: int, dy: int, c: int)
    requires Square(pix, side) && 0 <= dx < n && 0 <= dy < n && 0 <= c < 4
    ensures var at := RowStart(n, dy) + dx * 4 + c;
            0 <= at < RowStart(n, dy + 1) && OutputRows(pix, side, n, dy + 1)[at] == OutputPixel(pix, side, n, dx, dy)[c]
  {
    var rows, row := OutputRows(pix, side, n, dy), OutputRow(pix, side, n, dy, n);
    RowHolds(pix, side, n, dy, n, dx, c);
    assert (rows + row)[|rows| + (dx * 4 + c)] == row[dx * 4 + c];
  }

  // ---------------------------------------------------------------- conservation when shrinking

  lemma {:induction false} RowSumSplits(pix: seq<Byte>, side: int, c: int, y: int, x0: int, xm: int, x1: int)
    requires Square(pix, side) && 0 <= c < 4 && 0 <= y < side && 0 <= x0 <= xm <= x1 <= side
    ensures RowSum(pix, side, c, y, x0, x1) == RowSum(pix, side, c, y, x0, xm) + RowSum(pix, side, c, y, xm, x1)
    decreases x1 - xm
  {
    if xm < x1 { RowSumSplits(pix, side, c, y, x0, xm, x1 - 1); }
  }

  lemma {:induction false} BlockSumSplits(pix: seq<Byte>, side: int, c: int, x0: int, xm: int, x1: int, y0: int, y1: int)
    requires Square(pix, side) && 0 <= c < 4 && 0 <= x0 <= xm <= x1 <= side && 0 <= y0 <= y1 <= side
    ensures BlockSum(pix, side, c, x0, x1, y0, y1) == BlockSum(pix, side, c, x0, xm, y0, y1) + BlockSum(pix, side, c, xm, x1, y0, y1)
    decreases y1 - y0
  {
    if y0 < y1 {
      BlockSumSplits(pix, side, c, x0, xm, x1, y0, y1 - 1);
      RowSumSplits(pix, side, c, y1 - 1, x0, xm, x1);
    }
  }

  lemma {:induction false} BlockSumStacks(pix: seq<Byte>, side: int, c: int, x0: int, x1: int, y0: int, ym: int, y1: int)
    requires Square(pix, side) && 0 <= c < 4 && 0 <= x0 <= x1 <= side && 0 <= y0 <= ym <= y1 <= side
    ensures BlockSum(pix, side, c, x0, x1, y0, y1) == BlockSum(pix, side, c, x0, x1, y0, ym) + BlockSum(pix, side, c, x0, x1, ym, y1)
    decreases y1 - ym
  {
    if ym < y1 { BlockSumStacks(pix, side, c, x0, x1, y0, ym, y1 - 1); }
  }

  /** The sums of the first k blocks of output row dy. */
  ghost function RowOfBlocks(pix: seq<Byte>, side: int, n: int, c: int, dy: int, k: int): int
    requires Square(pix, side) && 0 <= c < 4 && 0 <= dy < n && 0 <= k <= n
    decreases k
  {
    if k == 0 then 0
    else
      SpanInside(k - 1, side, n);
      SpanInside(dy, side, n);
      RowOfBlocks(pix, side, n, c, dy, k - 1)
      + BlockSum(pix, side, c, Lo(k - 1, side, n), Hi(k - 1, side, n), Lo(dy, side, n), Hi(dy, side, n))
  }

  ghost function AllBlocks(pix: seq<Byte>, side: int, n: int, c: int, m: int): int
    requires Square(pix, side) && 0 <= c < 4 && 1 <= n && 0 <= m <= n
    decreases m
  {
    if m == 0 then 0 else AllBlocks(pix, side, n, c, m - 1) + RowOfBlocks(pix, side, n, c, m - 1, n)
  }

  lemma LoInside(k: int, side: int, n: int)
    requires 1 <= n <= side && 0 <= k <= n
    ensures 0 <= Lo(k, side, n) <= side
  {
    SpansTile(0, side, n);
    LoMonotone(0, k, side, n);
    LoMonotone(k, n, side, n);
  }

  lemma {:induction false} RowOfBlocksIs(pix: seq<Byte>, side: int, n: int, c: int, dy: int, k: int)
    requires Square(pix, side) && 0 <= c < 4 && 0 <= dy < n <= side && 0 <= k <= n
    ensures 0 <= Lo(k, side, n) <= side && 0 <= Lo(dy, side, n) < Hi(dy, side, n) <= side
    ensures RowOfBlocks(pix, side, n, c, dy, k) == BlockSum(pix, side, c, 0, Lo(k, side, n), Lo(dy, side, n), Hi(dy, side, n))
    decreases k
  {
    LoInside(k, side, n);
    SpanInside(dy, side, n);
    SpansTile(0, side, n);
    if k == 0 {
      EmptyBlock(pix, side, c, Lo(dy, side, n), Hi(dy, side, n));
    } else {
      LoInside(k - 1, side, n);
      RowOfBlocksIs(pix, side, n, c, dy, k - 1);
      SpansTile(k - 1, side, n);
      SpanInside(k - 1, side, n);
      BlockSumSplits(pix, side, c, 0, Lo(k - 1, side, n), Lo(k, side, n), Lo(dy, side, n), Hi(dy, side, n));
    }
  }

  lemma {:induction false} EmptyBlock(pix: seq<Byte>, side: int, c: int, y0: int, y1: int)
    requires Square(pix, side) && 0 <= c < 4 && 0 <= y0 <= y1 <= side
    ensures BlockSum(pix, side, c, 0, 0, y0, y1) == 0
    decreases y1 - y0
  {
    if y0 < y1 { EmptyBlock(pix, side, c, y0, y1 - 1); }
  }

  lemma {:induction false} BlocksCoverUpTo(pix: seq<Byte>, side: int, n: int, c: int, m: int)
    requires Square(pix, side) && 0 <= c < 4 && 1 <= n <= side && 0 <= m <= n
    ensures 0 <= Lo(m, side, n) <= side
    ensures AllBlocks(pix, side, n, c, m) == BlockSum(pix, side, c, 0, side, 0, Lo(m, side, n))
    decreases m
  {
    LoInside(m, side, n);
    SpansTile(0, side, n);
    if m > 0 {
      LoInside(m - 1, side, n);
      BlocksCoverUpTo(pix, side, n, c, m - 1);
      SpansTile(m - 1, side, n);
      RowOfBlocksIs(pix, side, n, c, m - 1, n);
      BlockSumStacks(pix, side, c, 0, side, 0, Lo(m - 1, side, n), Lo(m, side, n));
    }
  }

  /** Shrinking uses every source pixel exactly once: the block sums add up to the whole image. */
  lemma BlocksCoverImage(pix: seq<Byte>, side: int, n: int, c: int)
    requires Square(pix, side) && 0 <= c < 4 && 1 <= n <= side
    ensures AllBlocks(pix, side, n, c, n) == BlockSum(pix, side, c, 0, side, 0, side)
  {
    BlocksCoverUpTo(pix, side, n, c, n);
    SpansTile(0, side, n);
  }

  // ---------------------------------------------------------------- the centre crop

  /** The offset of the centred square of width `side` in an extent. */
  function CropOffset(extent: int, side: int): int { (extent - side) / 2 }

  /** The crop is the largest square, lies inside the image, and is centred to within one pixel. */
  lemma CropIsCentred(dx: int, dy: int)
    requires 1 <= dx && 1 <= dy
    ensures var side := if dx < dy then dx else dy;
            var ox, oy := CropOffset(dx, side), CropOffset(dy, side);
            && 1 <= side && 0 <= ox && ox + side <= dx && 0 <= oy && oy + side <= dy
            && (side == dx || side == dy)
            && 0 <= (dx - side - ox) - ox <= 1 && 0 <= (dy - side - oy) - oy <= 1
  {}
}
