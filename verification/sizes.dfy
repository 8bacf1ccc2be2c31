/** The downscale-only sizing policy of `Size.scaleTo`.
    Floating-point aspect ratios become exact integer comparisons:
    for positive edges, w/h >= 1 is w >= h, w/h >= cw/ch is w*ch >= cw*h,
    cw/w >= 1 is cw >= w, and truncating cw*h/w + 0.5 is (2*cw*h + w) / (2*w). */
module Sizes {

  /** The data class `Size`; datatype equality is structural on (w, h),
      which is what the skip check `outSize == info.size` compares. */
  datatype Size = Size(w: int, h: int)

  /** An edge below 1: the aspect ratio is undefined. */
  predicate Degenerate(s: Size) {
    s.w < 1 || s.h < 1
  }

  /** Both edges of `s` are within the edges of `box`. */
  predicate Fits(s: Size, box: Size) {
    s.w <= box.w && s.h <= box.h
  }

  /** The cap box matched to the input's orientation: landscape or square
      inputs get (longer, shorter) as (width, height), portrait inputs the
      transposed box. */
  function CapBox(s: Size, limitLonger: int, limitShorter: int): (b: Size) {
    if s.w >= s.h then Size(limitLonger, limitShorter) else Size(limitShorter, limitLonger)
  }

  /** The input is at least as wide, relative to its height, as the cap box:
      the width is the binding edge. */
  predicate WidthBinds(s: Size, cap: Size) {
    s.w * cap.h >= cap.w * s.h
  }

  function Min(a: int, b: int): (m: int)
    ensures m <= a && m <= b && (m == a || m == b)
  {
    if a <= b then a else b
  }

  /** n/d rounded half up: the integer nearest to n/d, ties going up. */
  function RoundHalfUp(n: int, d: int): (r: int)
    requires n >= 0 && d > 0
    ensures r >= 0
    ensures 2 * d * r <= 2 * n + d < 2 * d * r + 2 * d
  {
    (2 * n + d) / (2 * d)
  }

  /** `Size.scaleTo(limitLonger, limitShorter)`: the size to encode to.
      The callers pass positive constant caps only. */
  function ScaleTo(s: Size, limitLonger: int, limitShorter: int): (r: Size)
    requires limitLonger > 0 && limitShorter > 0
    // degenerate fallback
    ensures Degenerate(s) ==> r == Size(limitLonger, limitShorter)
    // never upscales
    ensures !Degenerate(s) ==> r.w <= s.w && r.h <= s.h
    // never exceeds the orientation-matched cap box
    ensures !Degenerate(s) ==> Fits(r, CapBox(s, limitLonger, limitShorter))
    // unchanged exactly when the input already fits the box
    ensures !Degenerate(s) ==> (r == s <==> Fits(s, CapBox(s, limitLonger, limitShorter)))
  {
    if s.w < 1 || s.h < 1 then
      Size(limitLonger, limitShorter)
    else
      var cap := CapBox(s, limitLonger, limitShorter);
      if WidthBinds(s, cap) then
        if cap.w >= s.w then
          FitsWhenWidthBinds(s, cap);
          s
        else
          ScaledEdgeBounds(s.h, s.w, cap.w);
          Size(cap.w, Min(cap.h, RoundHalfUp(cap.w * s.h, s.w)))
      else
        if cap.h >= s.h then
          FitsWhenHeightBinds(s, cap);
          s
        else
          ScaledEdgeBounds(s.w, s.h, cap.h);
          Size(Min(cap.w, RoundHalfUp(cap.h * s.w, s.h)), cap.h)
  }

  /** Scaling an edge `e` by c/b < 1 and rounding half up never grows it. */
  lemma ScaledEdgeBounds(e: int, b: int, c: int)
    requires e >= 1 && b > c > 0
    ensures RoundHalfUp(c * e, b) <= e
  {
    var r := RoundHalfUp(c * e, b);
    assert c * e < b * e;
    assert b * (2 * r - 2 * e - 1) == 2 * b * r - 2 * b * e - b;
    NegativeCofactor(b, 2 * r - 2 * e - 1);
  }

  /** A negative product with a positive factor has a negative cofactor. */
  lemma NegativeCofactor(b: int, x: int)
    requires b > 0 && b * x < 0
    ensures x < 0
  {
  }

  lemma FitsWhenWidthBinds(s: Size, cap: Size)
    requires s.w >= 1 && s.h >= 1 && cap.w > 0 && cap.h > 0
    requires WidthBinds(s, cap) && cap.w >= s.w
    ensures Fits(s, cap)
  {
    assert cap.w * s.h <= s.w * cap.h <= cap.w * cap.h;
  }

  lemma FitsWhenHeightBinds(s: Size, cap: Size)
    requires s.w >= 1 && s.h >= 1 && cap.w > 0 && cap.h > 0
    requires !WidthBinds(s, cap) && cap.h >= s.h
    ensures Fits(s, cap)
  {
    assert s.w * cap.h < cap.w * s.h <= cap.w * cap.h;
  }

  /** The min(...) that guards against rounding overshoot in `scaleTo` never
      binds in exact arithmetic: the rounded free edge is within its cap. */
  lemma ClampInactive(e: int, b: int, c: int, cap: int)
    requires e >= 1 && b >= 1 && c > 0 && cap > 0
    requires c * e <= b * cap
    ensures RoundHalfUp(c * e, b) <= cap
  {
    var r := RoundHalfUp(c * e, b);
    assert b * (2 * r - 2 * cap - 2) == 2 * b * r - 2 * b * cap - 2 * b;
    NegativeCofactor(b, 2 * r - 2 * cap - 2);
  }

  /** When `scaleTo` scales, the binding edge equals its cap and the other
      edge is the input edge scaled by the same factor and rounded half up,
      so the aspect ratio is kept within half a pixel. */
  lemma {:induction false} ScaleToBindingEdge(s: Size, limitLonger: int, limitShorter: int)
    requires limitLonger > 0 && limitShorter > 0
    requires !Degenerate(s) && !Fits(s, CapBox(s, limitLonger, limitShorter))
    ensures var cap, r := CapBox(s, limitLonger, limitShorter), ScaleTo(s, limitLonger, limitShorter);
      if WidthBinds(s, cap) then
        r == Size(cap.w, RoundHalfUp(cap.w * s.h, s.w)) &&
        -s.w < 2 * s.w * r.h - 2 * r.w * s.h <= s.w
      else
        r == Size(RoundHalfUp(cap.h * s.w, s.h), cap.h) &&
        -s.h < 2 * s.h * r.w - 2 * r.h * s.w <= s.h
  {
    var cap := CapBox(s, limitLonger, limitShorter);
    if WidthBinds(s, cap) {
      FitsWhenWidthBindsContra(s, cap);
      ClampInactive(s.h, s.w, cap.w, cap.h);
    } else {
      FitsWhenHeightBindsContra(s, cap);
      assert cap.h * s.w <= s.h * cap.w;
      ClampInactive(s.w, s.h, cap.h, cap.w);
    }
  }

  lemma FitsWhenWidthBindsContra(s: Size, cap: Size)
    requires s.w >= 1 && s.h >= 1 && cap.w > 0 && cap.h > 0
    requires WidthBinds(s, cap) && !Fits(s, cap)
    ensures cap.w < s.w
  {
    if cap.w >= s.w {
      FitsWhenWidthBinds(s, cap);
    }
  }

  lemma FitsWhenHeightBindsContra(s: Size, cap: Size)
    requires s.w >= 1 && s.h >= 1 && cap.w > 0 && cap.h > 0
    requires !WidthBinds(s, cap) && !Fits(s, cap)
    ensures cap.h < s.h
  {
    if cap.h >= s.h {
      FitsWhenHeightBinds(s, cap);
    }
  }

  /** With longer >= shorter, a size that fits either orientation of the box
      fits the box matched to its own orientation. */
  lemma FitsOwnBox(x: Size, limitLonger: int, limitShorter: int)
    requires limitLonger >= limitShorter > 0
    requires Fits(x, Size(limitLonger, limitShorter)) || Fits(x, Size(limitShorter, limitLonger))
    ensures Fits(x, CapBox(x, limitLonger, limitShorter))
  {
  }

  /** A second `scaleTo` leaves a non-degenerate result unchanged. */
  lemma {:induction false} ScaleToIdempotent(s: Size, limitLonger: int, limitShorter: int)
    requires limitLonger >= limitShorter > 0
    requires !Degenerate(ScaleTo(s, limitLonger, limitShorter))
    ensures var r := ScaleTo(s, limitLonger, limitShorter);
      ScaleTo(r, limitLonger, limitShorter) == r
  {
    var r := ScaleTo(s, limitLonger, limitShorter);
    if !Degenerate(s) {
      FitsOwnBox(r, limitLonger, limitShorter);
    } else {
      assert r == Size(limitLonger, limitShorter);
    }
  }

  /** `scaleTo` is not idempotent: a very wide strip rounds its height to 0,
      and the degenerate result is then replaced by the whole cap box. */
  lemma ScaleToNotIdempotent()
    ensures ScaleTo(Size(10000, 1), 960, 540) == Size(960, 0)
    ensures ScaleTo(Size(960, 0), 960, 540) == Size(960, 540)
  {
    assert WidthBinds(Size(10000, 1), Size(960, 540));
    assert RoundHalfUp(960, 10000) == 0;
  }

  /** Applying `scaleTo` a third time never changes anything: every result
      is a fixed point after at most two applications. */
  lemma {:induction false} ScaleToSettles(s: Size, limitLonger: int, limitShorter: int)
    requires limitLonger >= limitShorter > 0
    ensures var r2 := ScaleTo(ScaleTo(s, limitLonger, limitShorter), limitLonger, limitShorter);
      ScaleTo(r2, limitLonger, limitShorter) == r2
  {
    var r1 := ScaleTo(s, limitLonger, limitShorter);
    if Degenerate(r1) {
      ScaleToIdempotent(r1, limitLonger, limitShorter);
    } else {
      ScaleToIdempotent(s, limitLonger, limitShorter);
    }
  }
}
