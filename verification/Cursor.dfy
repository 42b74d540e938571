/** Drawing the cursor over a screenshot (src/streamer/X11IOController.cpp). */
module Cursor {
  import opened Messages

  datatype Pixel = Pixel(b: byte, g: byte, r: byte, a: byte)

  /** The image the X server gives: 32-bit ARGB values, row by row, in the low bits of longs. */
  datatype CursorImage = CursorImage(x: int, y: int, xhot: nat, yhot: nat, width: nat, height: nat, pixels: seq<nat>)

  ghost predicate Whole(c: CursorImage) {
    |c.pixels| == c.width * c.height
  }

  function Channel(pixel: nat, shift: nat): byte
    requires shift > 0
  {
    (pixel / shift) % 256
  }

  function Alpha(pixel: nat): byte { Channel(pixel, 0x100_0000) }
  function Red(pixel: nat): byte { Channel(pixel, 0x1_0000) }
  function Green(pixel: nat): byte { Channel(pixel, 0x100) }
  function Blue(pixel: nat): byte { Channel(pixel, 1) }

  lemma ProductBound(a: int, b: int, c: int)
    requires 0 <= a <= b && 0 <= c
    ensures 0 <= a * c <= b * c
  {
  }

  /** One colour channel: the store never overflows, and the result lies between the source and the
      background. */
  function Mix(source: byte, background: byte, alpha: byte): (m: byte)
    ensures source <= m <= background || background <= m <= source
    ensures alpha == 255 ==> m == source
    ensures alpha == 0 ==> m == background
    ensures 255 * m <= source * alpha + background * (255 - alpha) < 255 * m + 255
  {
    var low := if source <= background then source else background;
    var high := if source <= background then background else source;
    ProductBound(low, source, alpha);
    ProductBound(source, high, alpha);
    ProductBound(low, background, 255 - alpha);
    ProductBound(background, high, 255 - alpha);
    assert low * alpha + low * (255 - alpha) == low * 255;
    assert high * alpha + high * (255 - alpha) == high * 255;
    (source * alpha + background * (255 - alpha)) / 255
  }

  function MixAlpha(background: byte, alpha: byte): (m: byte)
    ensures alpha <= m && (alpha == 255 ==> m == 255) && (alpha == 0 ==> m == background)
    ensures 255 * (m - alpha) <= background * (255 - alpha) < 255 * (m - alpha) + 255
  {
    ProductBound(background, 255, 255 - alpha);
    assert background * (255 - alpha) / 255 <= 255 - alpha;
    alpha + background * (255 - alpha) / 255
  }

  /** The channels of a pixel given as the low 32 bits of a long, whatever its high bits are. */
  lemma Channels(high: nat, a: byte, r: byte, g: byte, b: byte)
    ensures var pixel := (((high * 256 + a) * 256 + r) * 256 + g) * 256 + b;
            Alpha(pixel) == a && Red(pixel) == r && Green(pixel) == g && Blue(pixel) == b
  {
    var p1 := high * 256 + a;
    var p2 := p1 * 256 + r;
    var p3 := p2 * 256 + g;
    var pixel := p3 * 256 + b;
    assert pixel / 0x100 == p3;
    assert pixel / 0x1_0000 == p2;
    assert pixel / 0x100_0000 == p1;
  }

  /** The blending formula, for any alpha. */
  function Blend(pixel: nat, background: Pixel): Pixel {
    var alpha := Alpha(pixel);
    Pixel(Mix(Blue(pixel), background.b, alpha), Mix(Green(pixel), background.g, alpha),
          Mix(Red(pixel), background.r, alpha), MixAlpha(background.a, alpha))
  }

  /** Every channel is mixed with the same channel of the background. */
  lemma BlendByChannel(high: nat, a: byte, r: byte, g: byte, b: byte, background: Pixel)
    ensures var pixel := (((high * 256 + a) * 256 + r) * 256 + g) * 256 + b;
            Blend(pixel, background) == Pixel(Mix(b, background.b, a), Mix(g, background.g, a),
                                              Mix(r, background.r, a), MixAlpha(background.a, a))
  {
    Channels(high, a, r, g, b);
  }

  lemma TransparentBlend(pixel: nat, background: Pixel)
    requires Alpha(pixel) == 0
    ensures Blend(pixel, background) == background
  {
  }

  lemma OpaqueBlend(pixel: nat, background: Pixel)
    requires Alpha(pixel) == 255
    ensures Blend(pixel, background) == Pixel(Blue(pixel), Green(pixel), Red(pixel), 255)
  {
  }

  // ---------------------------------------------------------------- the pointwise picture

  /** Where the cursor pixel (x, y) lands on the screenshot. */
  function ColumnOf(c: CursorImage, x: int): int { c.x + x - c.xhot }
  function RowOf(c: CursorImage, y: int): int { c.y + y - c.yhot }

  predicate Covers(c: CursorImage, row: int, col: int) {
    0 <= col - ColumnOf(c, 0) < c.width && 0 <= row - RowOf(c, 0) < c.height
  }

  lemma IndexInRange(y: nat, x: nat, width: nat, height: nat)
    requires x < width && y < height
    ensures 0 <= y * width + x < width * height
  {
    ProductBound(y, height - 1, width);
    assert (height - 1) * width + width == width * height;
  }

  function PixelAt(c: CursorImage, x: nat, y: nat): nat
    requires Whole(c) && x < c.width && y < c.height
  {
    IndexInRange(y, x, c.width, c.height);
    c.pixels[y * c.width + x]
  }

  /** The picture with the cursor: outside the cursor's rectangle the background, inside it one blend. */
  function Composite(c: CursorImage, background: Pixel, row: int, col: int): Pixel
    requires Whole(c)
  {
    if Covers(c, row, col) then Blend(PixelAt(c, col - ColumnOf(c, 0), row - RowOf(c, 0)), background) else background
  }

  /** The cursor pixel (x, y) lands where the cursor is, shifted back by its hot spot. */
  predicate Lands(c: CursorImage, x: nat, y: nat, row: int, col: int) {
    x < c.width && y < c.height && row == c.y + y - c.yhot && col == c.x + x - c.xhot
  }

  /** Where a cursor pixel lands the picture is its blend, and where none lands it is the background. */
  lemma CursorPlaced(c: CursorImage, background: Pixel, row: int, col: int)
    requires Whole(c)
    ensures forall x: nat, y: nat :: Lands(c, x, y, row, col) ==>
              && 0 <= y * c.width + x < |c.pixels|
              && Composite(c, background, row, col) == Blend(c.pixels[y * c.width + x], background)
    ensures (forall x: nat, y: nat :: !Lands(c, x, y, row, col)) ==> Composite(c, background, row, col) == background
  {
    forall x: nat, y: nat | Lands(c, x, y, row, col) ensures 0 <= y * c.width + x < |c.pixels| {
      IndexInRange(y, x, c.width, c.height);
    }
    if Covers(c, row, col) {
      assert Lands(c, col - ColumnOf(c, 0), row - RowOf(c, 0), row, col);
    }
  }

  // the cursor pixels the loops have been at when they stand at (x, y)
  predicate Before(c: CursorImage, x: int, y: int, row: int, col: int) {
    row - RowOf(c, 0) < y || (row - RowOf(c, 0) == y && col - ColumnOf(c, 0) < x)
  }

  /** Draws in place, cell by cell. The result is the pointwise picture, for any cursor size and
      position and any screenshot, also when the cursor is partly or wholly outside it. */
  method CaptureCursor(screenshot: array2<Pixel>, c: CursorImage)
    requires Whole(c)
    modifies screenshot
    ensures forall row, col :: 0 <= row < screenshot.Length0 && 0 <= col < screenshot.Length1 ==>
              screenshot[row, col] == Composite(c, old(screenshot[row, col]), row, col)
  {
    var y := 0;
    while y < c.height
      invariant 0 <= y <= c.height
      invariant forall row, col :: 0 <= row < screenshot.Length0 && 0 <= col < screenshot.Length1 ==>
        var was := old(screenshot[row, col]);
        screenshot[row, col] == if Before(c, 0, y, row, col) then Composite(c, was, row, col) else was
    {
      var x := 0;
      while x < c.width
        invariant 0 <= x <= c.width
        invariant forall row, col :: 0 <= row < screenshot.Length0 && 0 <= col < screenshot.Length1 ==>
          var was := old(screenshot[row, col]);
          screenshot[row, col] == if Before(c, x, y, row, col) then Composite(c, was, row, col) else was
      {
        var dstX := c.x + x - c.xhot;
        var dstY := c.y + y - c.yhot;
        if 0 <= dstX < screenshot.Length1 && 0 <= dstY < screenshot.Length0 {
          var pixel := PixelAt(c, x, y);
          if Alpha(pixel) > 0 {
            screenshot[dstY, dstX] := Blend(pixel, screenshot[dstY, dstX]);
          } else {
            TransparentBlend(pixel, screenshot[dstY, dstX]);
          }
        }
        x := x + 1;
      }
      y := y + 1;
    }
  }
}
