/** The synthetic feature image of pretraining: a canvas whose every pixel
    takes three successive draws of `random.randint(0, 255)`, visiting
    columns `x` in the outer loop and rows `y` in the inner one. The random
    generator is replaced by the stream of draws it would return. */
module Noise {
  import opened Arithmetic

  /** An RGB pixel, as PIL stores it. */
  type Pixel = (int, int, int)

  /** Values `random.randint(0, 255)` can return. */
  predicate IsChannel(v: int)
  {
    0 <= v <= 255
  }

  predicate InRange(p: Pixel)
  {
    IsChannel(p.0) && IsChannel(p.1) && IsChannel(p.2)
  }

  /** A stream of draws long enough for a `w` by `h` canvas, each one a value of `randint(0, 255)`. */
  predicate DrawsFor(draws: seq<int>, w: nat, h: nat)
  {
    |draws| == 3 * (w * h) && forall i :: 0 <= i < |draws| ==> IsChannel(draws[i])
  }

  /** The position in the stream of the draw that gives channel `c` of pixel `(x, y)`. */
  function DrawIndex(h: nat, x: nat, y: nat, c: nat): nat
  {
    3 * (x * h + y) + c
  }

  lemma DrawIndexBound(w: nat, h: nat, x: nat, y: nat, c: nat)
    requires x < w && y < h && c < 3
    ensures DrawIndex(h, x, y, c) < 3 * (w * h)
  {
    assert x * h + y < (x + 1) * h by {
      assert (x + 1) * h == x * h + h;
    }
    assert (x + 1) * h <= w * h by {
      MulMonotone(x + 1, w, h);
    }
  }

  /** The pixel the source writes at `(x, y)` of a `w` by `h` canvas. */
  function DrawnPixel(draws: seq<int>, w: nat, h: nat, x: nat, y: nat): Pixel
    requires |draws| == 3 * (w * h) && x < w && y < h
  {
    DrawIndexBound(w, h, x, y, 2);
    var k := DrawIndex(h, x, y, 0);
    (draws[k], draws[k + 1], draws[k + 2])
  }

  /** Every pixel of a canvas drawn from values of `randint(0, 255)` is a valid RGB pixel. */
  lemma DrawnPixelInRange(draws: seq<int>, w: nat, h: nat, x: nat, y: nat)
    requires DrawsFor(draws, w, h) && x < w && y < h
    ensures InRange(DrawnPixel(draws, w, h, x, y))
  {
    DrawIndexBound(w, h, x, y, 2);
  }

  /** Every draw of the stream lands in exactly one channel of one pixel. */
  lemma {:induction false} DrawPosition(w: nat, h: nat, k: nat) returns (x: nat, y: nat, c: nat)
    requires k < 3 * (w * h)
    ensures x < w && y < h && c < 3
    ensures DrawIndex(h, x, y, c) == k
  {
    var p := k / 3;
    c := k % 3;
    assert p < w * h;
    assert h > 0;
    x := p / h;
    y := p % h;
    assert p == x * h + y;
    if x >= w {
      MulMonotone(w, x, h);
      assert false;
    }
  }

  /** Different channels or pixels never share a draw. */
  lemma DrawIndexInjective(h: nat, x1: nat, y1: nat, c1: nat, x2: nat, y2: nat, c2: nat)
    requires y1 < h && c1 < 3 && y2 < h && c2 < 3
    requires DrawIndex(h, x1, y1, c1) == DrawIndex(h, x2, y2, c2)
    ensures x1 == x2 && y1 == y2 && c1 == c2
  {
    var p1, p2 := x1 * h + y1, x2 * h + y2;
    assert c1 == c2 && p1 == p2;
    assert (x1 - x2) * h == y2 - y1 by {
      assert (x1 - x2) * h == x1 * h - x2 * h;
    }
    SmallMultipleIsZero(x1 - x2, h);
  }

  /** The canvas determines the stream it was drawn from: two streams that
      paint the same picture are the same stream. */
  lemma CanvasDeterminesDraws(d1: seq<int>, d2: seq<int>, w: nat, h: nat)
    requires |d1| == 3 * (w * h) && |d2| == 3 * (w * h)
    requires forall x: nat, y: nat :: x < w && y < h ==> DrawnPixel(d1, w, h, x, y) == DrawnPixel(d2, w, h, x, y)
    ensures d1 == d2
  {
    forall k | 0 <= k < |d1|
      ensures d1[k] == d2[k]
    {
      var x, y, c := DrawPosition(w, h, k);
      assert DrawnPixel(d1, w, h, x, y) == DrawnPixel(d2, w, h, x, y);
    }
  }

  /** The nested loop of the pretraining branch: writes pixel `(x, y)` from the
      next three draws, for every column `x` and, within it, every row `y`. */
  method FillNoise(pixels: array2<Pixel>, draws: seq<int>)
    requires DrawsFor(draws, pixels.Length0, pixels.Length1)
    modifies pixels
    ensures forall x, y :: 0 <= x < pixels.Length0 && 0 <= y < pixels.Length1 ==>
      pixels[x, y] == DrawnPixel(draws, pixels.Length0, pixels.Length1, x, y)
    ensures forall x, y :: 0 <= x < pixels.Length0 && 0 <= y < pixels.Length1 ==> InRange(pixels[x, y])
  {
    var w, h := pixels.Length0, pixels.Length1;
    var next := 0;  // the position of the next draw in the stream
    for x := 0 to w
      invariant next == 3 * (x * h)
      invariant forall i, j :: 0 <= i < x && 0 <= j < h ==>
        pixels[i, j] == DrawnPixel(draws, w, h, i, j) && InRange(pixels[i, j])
    {
      for y := 0 to h
        invariant next == DrawIndex(h, x, y, 0)
        invariant forall i, j :: 0 <= i < x && 0 <= j < h ==>
          pixels[i, j] == DrawnPixel(draws, w, h, i, j) && InRange(pixels[i, j])
        invariant forall j :: 0 <= j < y ==>
          pixels[x, j] == DrawnPixel(draws, w, h, x, j) && InRange(pixels[x, j])
      {
        DrawIndexBound(w, h, x, y, 2);
        DrawnPixelInRange(draws, w, h, x, y);
        pixels[x, y] := (draws[next], draws[next + 1], draws[next + 2]);
        next := next + 3;
      }
      assert next == 3 * ((x + 1) * h) by {
        assert (x + 1) * h == x * h + h;
      }
    }
  }
}
