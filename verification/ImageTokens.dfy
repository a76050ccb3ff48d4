/** Token price of an image (relay/adaptor/openai/token.go), with exact rational scaling:
    int(x * ratio) is the integer part of the exact product. */
module ImageTokens {
  import opened Wrappers

  datatype Size = Size(width: nat, height: nat)

  const LOW_DETAIL := 85
  const HIGH_PER_TILE := 170
  const ADDITIONAL := 85
  const MINI_LOW_DETAIL := 2833
  const MINI_HIGH_PER_TILE := 5667
  const MINI_ADDITIONAL := 2833

  function Max(a: nat, b: nat): nat { if a > b then a else b }
  function Min(a: nat, b: nat): nat { if a < b then a else b }

  /** ceil(n / 512) */
  function TilesAcross(n: nat): nat { (n + 511) / 512 }

  /** As many tiles as cover n pixels, and not one more. */
  lemma TilesCover(n: nat)
    ensures 512 * TilesAcross(n) - 512 < n <= 512 * TilesAcross(n)
  {
  }

  /** int(n * (to / from)) */
  function Scaled(n: nat, to: nat, from: nat): nat
    requires from > 0
  {
    n * to / from
  }

  lemma MulMonotone(m: nat, a: nat, b: nat)
    requires a <= b
    ensures m * a <= m * b
  {
  }

  lemma DivUpper(a: nat, m: nat, q: nat)
    requires m > 0 && a <= m * q
    ensures a / m <= q
  {
    var d := a / m;
    assert a == m * d + a % m;
    assert m * (q + 1) == m * q + m;
    if d > q {
      MulMonotone(m, q + 1, d);
      assert false;
    }
  }

  /** The truncated product is the one integer between two multiples. */
  lemma ScaledIsFloor(n: nat, to: nat, from: nat)
    requires from > 0
    ensures Scaled(n, to, from) * from <= n * to < (Scaled(n, to, from) + 1) * from
  {
    var q := n * to / from;
    assert n * to == from * q + n * to % from;
    assert (q + 1) * from == from * q + from;
  }

  /** A side no longer than `from` scales to at most `to`, and never grows. */
  lemma ScaleBounds(n: nat, to: nat, from: nat)
    requires from > 0
    ensures n <= from ==> Scaled(n, to, from) <= to
    ensures to <= from ==> Scaled(n, to, from) <= n
  {
    if n <= from {
      MulMonotone(to, n, from);
      DivUpper(n * to, from, to);
    }
    if to <= from {
      MulMonotone(n, to, from);
      DivUpper(n * to, from, n);
    }
  }

  /** The side that sets the ratio scales to the target exactly, and a side keeps at least
      one pixel just when its scaled length is at least one. */
  lemma ScaleExact(n: nat, to: nat, from: nat)
    requires from > 0
    ensures n == from ==> Scaled(n, to, from) == to
    ensures Scaled(n, to, from) == 0 <==> n * to < from
  {
    ScaledIsFloor(n, to, from);
    if n == from {
      ScaleBounds(n, to, from);
      if Scaled(n, to, from) + 1 <= to { MulMonotone(from, Scaled(n, to, from) + 1, to); }
    }
    if Scaled(n, to, from) >= 1 { MulMonotone(from, 1, Scaled(n, to, from)); }
  }

  /** Both sides times to / from. */
  function Resized(size: Size, to: nat, from: nat): Size
    requires from > 0
  {
    Size(Scaled(size.width, to, from), Scaled(size.height, to, from))
  }

  /** Long side into 2048. */
  function FitLong(size: Size): (r: Size)
    ensures Max(r.width, r.height) <= 2048
  {
    var long := Max(size.width, size.height);
    if long > 2048 then
      ScaleBounds(size.width, 2048, long);
      ScaleBounds(size.height, 2048, long);
      Resized(size, 2048, long)
    else
      size
  }

  /** Short side into 768. */
  function FitShort(size: Size): (r: Size)
    ensures Min(r.width, r.height) <= 768
    ensures r.width <= size.width && r.height <= size.height
  {
    var short := Min(size.width, size.height);
    if short > 768 then
      ScaleBounds(size.width, 768, short);
      ScaleBounds(size.height, 768, short);
      Resized(size, 768, short)
    else
      size
  }

  /** r is the integer part of n * (to / from). */
  ghost predicate IsScaled(n: nat, to: nat, from: nat, r: nat) {
    r * from <= n * to < (r + 1) * from
  }

  /** A picture that fits stays; of any other the longer side becomes 2048, and both sides
      shrink in that ratio, truncated. */
  lemma FitLongMeans(size: Size)
    ensures size.width <= 2048 && size.height <= 2048 ==> FitLong(size) == size
    ensures size.width > 2048 || size.height > 2048 ==>
      var long, r := if size.width > size.height then size.width else size.height, FitLong(size);
      && IsScaled(size.width, 2048, long, r.width) && IsScaled(size.height, 2048, long, r.height)
      && (r.width == 2048 || r.height == 2048)
  {
    var long := Max(size.width, size.height);
    if long > 2048 {
      ScaledIsFloor(size.width, 2048, long);
      ScaledIsFloor(size.height, 2048, long);
      ScaleExact(size.width, 2048, long);
      ScaleExact(size.height, 2048, long);
    }
  }

  /** The same with the shorter side, when both are over 768. */
  lemma FitShortMeans(size: Size)
    ensures size.width <= 768 || size.height <= 768 ==> FitShort(size) == size
    ensures size.width > 768 && size.height > 768 ==>
      var short, r := if size.width < size.height then size.width else size.height, FitShort(size);
      && IsScaled(size.width, 768, short, r.width) && IsScaled(size.height, 768, short, r.height)
      && (r.width == 768 || r.height == 768)
  {
    var short := Min(size.width, size.height);
    if short > 768 {
      ScaledIsFloor(size.width, 768, short);
      ScaledIsFloor(size.height, 768, short);
      ScaleExact(size.width, 768, short);
      ScaleExact(size.height, 768, short);
    }
  }

  /** Nothing left to scale. */
  predicate Fits(size: Size) { Max(size.width, size.height) <= 2048 && Min(size.width, size.height) <= 768 }

  /** Such a picture has at most 4 x 2 tiles. */
  lemma EightTiles(size: Size)
    requires Fits(size)
    ensures TilesAcross(size.width) * TilesAcross(size.height) <= 8
  {
    var a, b := TilesAcross(size.width), TilesAcross(size.height);
    assert (a <= 4 && b <= 2) || (a <= 2 && b <= 4);
    if a <= 4 && b <= 2 { Product(a, b, 4, 2); } else { Product(a, b, 2, 4); }
  }

  lemma Product(a: nat, b: nat, x: nat, y: nat)
    requires a <= x && b <= y
    ensures a * b <= x * y
  {
    MulMonotone(b, a, x);
    MulMonotone(x, b, y);
  }

  /** The 512-tiles of the picture after both fits. */
  function Tiles(size: Size): nat {
    var fitted := FitShort(FitLong(size));
    TilesAcross(fitted.width) * TilesAcross(fitted.height)
  }

  /** A side is empty, or the picture is over 2048 long and more than 2048 times as long as
      it is wide. */
  predicate Strip(size: Size) {
    || Min(size.width, size.height) == 0
    || (Max(size.width, size.height) > 2048 && Min(size.width, size.height) * 2048 < Max(size.width, size.height))
  }

  /** A fitted picture keeps both sides unless it is a strip. */
  lemma VanishesIff(size: Size)
    ensures FitShort(FitLong(size)).width == 0 || FitShort(FitLong(size)).height == 0
      <==> Strip(size)
  {
    var long := Max(size.width, size.height);
    var mid := FitLong(size);
    if long > 2048 {
      ScaleExact(size.width, 2048, long);
      ScaleExact(size.height, 2048, long);
    }
    var short := Min(mid.width, mid.height);
    if short > 768 {
      ScaleExact(mid.width, 768, short);
      ScaleExact(mid.height, 768, short);
    }
  }

  /** For every picture the two truncating stages leave at most eight tiles, and none
      exactly when a side vanishes: a long enough strip is priced like no picture. */
  lemma TileBounds(size: Size)
    ensures Tiles(size) <= 8
    ensures Tiles(size) == 0 <==> Strip(size)
  {
    var fitted := FitShort(FitLong(size));
    EightTiles(fitted);
    VanishesIff(size);
    var a, b := TilesAcross(fitted.width), TilesAcross(fitted.height);
    if a > 0 && b > 0 { MulMonotone(a, 1, b); }
  }

  /** Both ends are reached, the upper one by a picture that still needs scaling. */
  lemma BoundsAreReached()
    ensures Tiles(Size(1, 2049)) == 0
    ensures Tiles(Size(4096, 1536)) == 8
  {
    TileBounds(Size(1, 2049));
    assert FitLong(Size(4096, 1536)) == Size(2048, 768);
  }

  // ------------------------------------------------------------------ a ratio that was rounded

  /** A rounded ratio can bring a product that is a whole number out just below it, and
      the truncation then loses one pixel. */
  predicate Rounding(n: nat, to: nat, from: nat, r: nat)
    requires from > 0
  {
    r == Scaled(n, to, from) || (r + 1 == Scaled(n, to, from) && n * to % from == 0)
  }

  predicate RoundedLong(size: Size, r: Size) {
    var long := Max(size.width, size.height);
    if long > 2048 then Rounding(size.width, 2048, long, r.width) && Rounding(size.height, 2048, long, r.height)
    else r == size
  }

  predicate RoundedShort(size: Size, r: Size) {
    var short := Min(size.width, size.height);
    if short > 768 then Rounding(size.width, 768, short, r.width) && Rounding(size.height, 768, short, r.height)
    else r == size
  }

  lemma OnePixel(n: nat, to: nat, from: nat)
    requires from > 0 && Scaled(n, to, from) == 1 && n * to % from == 0
    ensures n * to == from
  {
    var q := n * to / from;
    assert n * to == from * q + n * to % from;
  }

  /** However the two ratios are rounded there are at most eight tiles; a strip has none;
      and a picture that is no strip has none only if its short side is exactly one pixel
      after the first stage. */
  lemma RoundedTiles(size: Size, mid: Size, fitted: Size)
    requires RoundedLong(size, mid) && RoundedShort(mid, fitted)
    ensures TilesAcross(fitted.width) * TilesAcross(fitted.height) <= 8
    ensures Strip(size) ==> fitted.width == 0 || fitted.height == 0
    ensures (fitted.width == 0 || fitted.height == 0) && !Strip(size) ==>
      Max(size.width, size.height) > 2048 && Min(size.width, size.height) * 2048 == Max(size.width, size.height)
  {
    RoundedLongFits(size, mid);
    RoundedShortFits(mid, fitted);
    EightTiles(fitted);
  }

  /** 49 by 100352 is no strip, and may still lose its short side to the rounding. */
  lemma OnePixelPicture()
    ensures !Strip(Size(49, 100352)) && Tiles(Size(49, 100352)) > 0
    ensures RoundedLong(Size(49, 100352), Size(0, 2048))
  {
    TileBounds(Size(49, 100352));
  }

  lemma RoundedLongFits(size: Size, mid: Size)
    requires RoundedLong(size, mid)
    ensures Max(mid.width, mid.height) <= 2048
    ensures Strip(size) ==> mid.width == 0 || mid.height == 0
    ensures (mid.width == 0 || mid.height == 0) && !Strip(size) ==>
      Max(size.width, size.height) > 2048 && Min(size.width, size.height) * 2048 == Max(size.width, size.height)
  {
    var long := Max(size.width, size.height);
    if long > 2048 {
      ScaleBounds(size.width, 2048, long);
      ScaleBounds(size.height, 2048, long);
      ScaleExact(size.width, 2048, long);
      ScaleExact(size.height, 2048, long);
      if mid.width == 0 && Scaled(size.width, 2048, long) == 1 { OnePixel(size.width, 2048, long); }
      if mid.height == 0 && Scaled(size.height, 2048, long) == 1 { OnePixel(size.height, 2048, long); }
    }
  }

  lemma RoundedShortFits(mid: Size, fitted: Size)
    requires RoundedShort(mid, fitted) && Max(mid.width, mid.height) <= 2048
    ensures Fits(fitted)
    ensures fitted.width == 0 || fitted.height == 0 <==> mid.width == 0 || mid.height == 0
  {
    var short := Min(mid.width, mid.height);
    if short > 768 {
      ScaleBounds(mid.width, 768, short);
      ScaleBounds(mid.height, 768, short);
      ScaleExact(mid.width, 768, short);
      ScaleExact(mid.height, 768, short);
      LongerScalesMore(mid.width, mid.height, 768, short);
      LongerScalesMore(mid.height, mid.width, 768, short);
    }
  }

  lemma LongerScalesMore(a: nat, b: nat, to: nat, from: nat)
    requires from > 0
    ensures a <= b ==> Scaled(a, to, from) <= Scaled(b, to, from)
  {
    if a <= b {
      ScaledIsFloor(b, to, from);
      ScaledIsFloor(a, to, from);
      MulMonotone(to, a, b);
      if Scaled(a, to, from) > Scaled(b, to, from) {
        MulMonotone(from, Scaled(b, to, from) + 1, Scaled(a, to, from));
      }
    }
  }

  predicate IsMini(model: string) { "gpt-4o-mini" <= model }

  /** `size` is what fetching the image says. An unknown detail level, or a size that
      cannot be fetched when it is needed, is an error. */
  method CountImageTokens(size: Option<Size>, detail: string, model: string) returns (tokens: Option<int>)
    ensures tokens.Some? <==> detail == "low" || (detail in {"", "auto", "high"} && size.Some?)
    ensures tokens.Some? && detail == "low" ==> tokens.value == if "gpt-4o-mini" <= model then 2833 else 85
    ensures tokens.Some? && detail != "low" ==>
      var n := Tiles(size.value);
      tokens.value == if "gpt-4o-mini" <= model then 5667 * n + 2833 else 170 * n + 85
    ensures tokens.Some? && detail != "low" ==>
      if "gpt-4o-mini" <= model then 2833 <= tokens.value <= 48169 else 85 <= tokens.value <= 1445
  {
    var level := if detail == "" || detail == "auto" then "high" else detail;
    if level == "low" {
      return Some(if IsMini(model) then MINI_LOW_DETAIL else LOW_DETAIL);
    }
    if level != "high" { return None; }
    if size.None? { return None; }
    var width, height := size.value.width, size.value.height;
    if width > 2048 || height > 2048 {
      var long := Max(width, height);
      width, height := Scaled(width, 2048, long), Scaled(height, 2048, long);
    }
    assert Size(width, height) == FitLong(size.value);
    if width > 768 && height > 768 {
      var short := Min(width, height);
      width, height := Scaled(width, 768, short), Scaled(height, 768, short);
    }
    assert Size(width, height) == FitShort(FitLong(size.value));
    var numSquares := TilesAcross(width) * TilesAcross(height);
    TileBounds(size.value);
    if IsMini(model) {
      return Some(numSquares * MINI_HIGH_PER_TILE + MINI_ADDITIONAL);
    }
    return Some(numSquares * HIGH_PER_TILE + ADDITIONAL);
  }
}
