/** The rounded screen: one visible span per row against a circle test per pixel, and the mask applied to every flush. */
module DisplayRounding {
  import opened Bytes

  const LCD_WIDTH := 240
  const LCD_HEIGHT := 320
  const SCREEN_RADIUS := 30

  function ClampRadius(width: int, height: int, radius: int): (r: int)
    ensures r >= 0 && (width > 0 && height > 0 ==> 2 * r <= width && 2 * r <= height)
  {
    if radius <= 0 || width <= 0 || height <= 0 then 0
    else
      var most := (if width < height then width else height) / 2;
      if radius > most then most else radius
  }

  /** How far inside a corner's square a coordinate lies, counted from the square's inner edge; zero between the corners. */
  function Depth(v: int, size: int, radius: int): int {
    if v < radius then radius - v else if v >= size - radius then v - (size - 1 - radius) else 0
  }

  predicate Outside(x: int, y: int, width: int, height: int, radius: int) {
    if x < 0 || y < 0 || x >= width || y >= height then true
    else if radius <= 0 || width <= 0 || height <= 0 then false
    else
      var r := ClampRadius(width, height, radius);
      if !(x < r || x >= width - r) then false
      else if !(y < r || y >= height - r) then false
      else
        PixelSum(x, y, width, height, r) > r * r
  }

  lemma SquareGrows(a: nat, b: nat)
    ensures a <= b <==> a * a <= b * b
  {
    if a <= b { assert a * a <= a * b <= b * b; } else { assert b * b <= b * a < a * a; }
  }

  lemma SquareNext(a: nat)
    ensures (a + 1) * (a + 1) == a * a + 2 * a + 1
  {
  }

  /** The inset of an edge row: the largest whole distance still inside the circle. */
  predicate IsInset(inset: nat, edge: nat, r: nat) {
    inset * inset + edge * edge <= r * r && (inset + 1) * (inset + 1) + edge * edge > r * r
  }

  lemma InsetDecides(inset: nat, edge: nat, r: nat, d: nat)
    requires IsInset(inset, edge, r)
    ensures d * d + edge * edge <= r * r <==> d <= inset
  {
    SquareGrows(d, inset);
    SquareGrows(inset + 1, d);
  }

  lemma InsetBelow(inset: nat, edge: nat, r: nat)
    requires inset * inset + edge * edge <= r * r && edge > 0
    ensures inset < r
  {
    SquareGrows(r, inset);
    assert edge * edge > 0;
  }

  /** The incremental search for the inset. Every comparison it makes is of one of the tested sums. */
  method FindInset(edge: nat, r: nat) returns (inset: nat)
    requires 0 < edge <= r
    ensures IsInset(inset, edge, r) && inset < r
    ensures forall i | 0 <= i <= inset :: Tested(i, edge, r)
  {
    inset := 0;
    SquareGrows(edge, r);
    while (inset + 1) * (inset + 1) + edge * edge <= r * r
      invariant forall i | 0 <= i <= inset :: Tested(i, edge, r)
      invariant inset * inset + edge * edge <= r * r && inset < r
      decreases r - inset
    {
      InsetBelow(inset + 1, edge, r);
      inset := inset + 1;
    }
  }

  /** The visible pixels of a row are exactly those of its span; no span means none is visible. */
  method RowSpan(y: int, width: int, height: int, radius: int) returns (some: bool, x1: int, x2: int)
    ensures some ==> 0 <= x1 <= x2 < width && 0 <= y < height
    ensures forall x :: (some && x1 <= x <= x2) <==> !Outside(x, y, width, height, radius)
  {
    x1, x2 := 0, 0;
    if width <= 0 || height <= 0 || y < 0 || y >= height { return false, 0, 0; }
    var r := ClampRadius(width, height, radius);
    if r <= 0 || (y >= r && y < height - r) { return true, 0, width - 1; }
    var edge := if y < r then r - y else y - (height - 1 - r);
    var inset := FindInset(edge, r);
    x1 := r - inset;
    x2 := width - r + inset - 1;
    forall x ensures (x1 <= x <= x2) <==> !Outside(x, y, width, height, radius) {
      if 0 <= x < width { EdgeRow(x, y, width, height, radius, inset); }
    }
    if x1 < 0 { x1 := 0; }
    if x2 >= width { x2 := width - 1; }
    some := x1 <= x2;
  }

  lemma EdgeRow(x: int, y: int, width: int, height: int, radius: int, inset: nat)
    requires 0 <= x < width && 0 <= y < height
    requires var r := ClampRadius(width, height, radius);
             r > 0 && (y < r || y >= height - r) && IsInset(inset, Depth(y, height, r), r) && inset < r
    ensures var r := ClampRadius(width, height, radius);
            (r - inset <= x <= width - r + inset - 1) <==> !Outside(x, y, width, height, radius)
  {
    hide IsInset;
    var r := ClampRadius(width, height, radius);
    if x < r || x >= width - r {
      InsetDecides(inset, Depth(y, height, r), r, Depth(x, width, r));
    }
  }

  const INT32_MAX := 0x7fff_ffff

  /** The sums the row search compares for an edge row: one for every inset that is still inside the circle. */
  predicate Tested(inset: nat, edge: nat, r: nat) { 0 < edge <= r && inset * inset + edge * edge <= r * r }

  /** No product or sum of the row search leaves the signed 32-bit range exactly up to a (clamped) radius of 46339. */
  lemma RowSearchFits(r: nat)
    ensures r <= 46339 <==>
            r * r <= INT32_MAX && forall i: nat, e: nat :: Tested(i, e, r) ==> (i + 1) * (i + 1) + e * e <= INT32_MAX
  {
    if r <= 46339 {
      SquareGrows(r, 46339);
      forall i: nat, e: nat | Tested(i, e, r) ensures (i + 1) * (i + 1) + e * e <= INT32_MAX {
        InsetBelow(i, e, r);
        SquareNext(i);
      }
    } else if r == 46340 {
      assert Tested(46339, 304, r);
    } else {
      SquareGrows(46341, r);
    }
  }

  /** No product or sum of the pixel test leaves it, over all pixels of the rectangle, exactly up to a radius of 32767. */
  lemma PixelTestFits(width: int, height: int, radius: int)
    requires width > 0 && height > 0
    ensures var r := ClampRadius(width, height, radius);
            r <= 32767 <==>
            r * r <= INT32_MAX && forall x, y | 0 <= x < width && 0 <= y < height :: PixelSum(x, y, width, height, r) <= INT32_MAX
  {
    var r := ClampRadius(width, height, radius);
    if r <= 32767 {
      SquareGrows(r, 32767);
      forall x, y | 0 <= x < width && 0 <= y < height ensures PixelSum(x, y, width, height, r) <= INT32_MAX {
        SquareGrows(Depth(x, width, r), r);
        SquareGrows(Depth(y, height, r), r);
      }
    } else {
      SquareGrows(32768, r);
      assert PixelSum(0, 0, width, height, r) == r * r + r * r;
    }
  }

  /** What the pixel test of a corner compares with the squared radius. */
  function PixelSum(x: int, y: int, width: int, height: int, r: int): int {
    Depth(x, width, r) * Depth(x, width, r) + Depth(y, height, r) * Depth(y, height, r)
  }

  /** The flush callback: rows[i] is the buffer row of screen line y1 + i. Exactly the outside pixels of the area turn black. */
  method MaskFlush(rows: array2<u16>, x1: int, y1: int, x2: int, y2: int, rgb565: bool)
    requires x1 <= x2 && y1 <= y2 && rows.Length0 == y2 - y1 + 1
    modifies rows
    ensures !rgb565 || rows.Length1 < x2 - x1 + 1 ==>
              forall i, j | 0 <= i < rows.Length0 && 0 <= j < rows.Length1 :: rows[i, j] == old(rows[i, j])
    ensures rgb565 && rows.Length1 >= x2 - x1 + 1 ==>
              forall i, j | 0 <= i < rows.Length0 && 0 <= j < rows.Length1 :: rows[i, j] == Masked(old(rows[i, j]), x1, y1, x2, i, j)
  {
    hide Masked;
    if !rgb565 || rows.Length1 < x2 - x1 + 1 { return; }
    var y := y1;
    while y <= y2
      invariant y1 <= y <= y2 + 1
      invariant forall i, j | 0 <= i < y - y1 && 0 <= j < rows.Length1 :: rows[i, j] == Masked(old(rows[i, j]), x1, y1, x2, i, j)
      invariant forall i, j | y - y1 <= i < rows.Length0 && 0 <= j < rows.Length1 :: rows[i, j] == old(rows[i, j])
    {
      MaskRow(rows, x1, y1, x2, y - y1);
      y := y + 1;
    }
  }

  function Masked(pixel: u16, x1: int, y1: int, x2: int, i: nat, j: nat): u16 {
    if x1 + j <= x2 && Outside(x1 + j, y1 + i, LCD_WIDTH, LCD_HEIGHT, SCREEN_RADIUS) then 0 else pixel
  }

  method ClearSpan(rows: array2<u16>, i: nat, from: nat, to: nat)
    requires i < rows.Length0 && from <= to <= rows.Length1
    modifies rows
    ensures forall k, j | 0 <= k < rows.Length0 && 0 <= j < rows.Length1 ::
              rows[k, j] == if k == i && from <= j < to then 0 else old(rows[k, j])
  {
    var j := from;
    while j < to
      invariant from <= j <= to
      invariant forall k, m | 0 <= k < rows.Length0 && 0 <= m < rows.Length1 ::
                  rows[k, m] == if k == i && from <= m < j then 0 else old(rows[k, m])
    {
      rows[i, j] := 0;
      j := j + 1;
    }
  }

  method MaskRow(rows: array2<u16>, x1: int, y1: int, x2: int, i: nat)
    requires x1 <= x2 && i < rows.Length0 && rows.Length1 >= x2 - x1 + 1
    modifies rows
    ensures forall k, j | 0 <= k < rows.Length0 && 0 <= j < rows.Length1 ::
              rows[k, j] == if k == i then Masked(old(rows[k, j]), x1, y1, x2, k, j) else old(rows[k, j])
  {
    hide Outside;
    var width := x2 - x1 + 1;
    var some, visible1, visible2 := RowSpan(y1 + i, LCD_WIDTH, LCD_HEIGHT, SCREEN_RADIUS);
    if !some {
      ClearSpan(rows, i, 0, width);
      return;
    }
    var leftEnd := if visible1 > x2 then x2 else visible1 - 1;
    var rightStart := if visible2 < x1 then x1 else visible2 + 1;
    if leftEnd >= x1 { ClearSpan(rows, i, 0, leftEnd - x1 + 1); }
    if rightStart <= x2 { ClearSpan(rows, i, rightStart - x1, width); }
  }

  /** Corner by corner: with the radius cut to half the shorter side, a pixel of the screen is outside exactly if it lies in one of
      the four corner squares and farther than the radius from that square's inner corner. */
  lemma CornersCut(x: int, y: int, width: int, height: int, radius: int, r: int)
    requires 0 <= x < width && 0 <= y < height && radius > 0
    requires r == (if radius <= width / 2 && radius <= height / 2 then radius else if width <= height then width / 2 else height / 2)
    ensures var left, top, right, bottom := r - x, r - y, x - (width - 1 - r), y - (height - 1 - r);
            Outside(x, y, width, height, radius) <==>
              (left > 0 && top > 0 && left * left + top * top > r * r) ||
              (right > 0 && top > 0 && right * right + top * top > r * r) ||
              (left > 0 && bottom > 0 && left * left + bottom * bottom > r * r) ||
              (right > 0 && bottom > 0 && right * right + bottom * bottom > r * r)
  {
  }
}
