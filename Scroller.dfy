/**
 * The horizontal scroller: vertical scrolling of the wrapper is turned into
 * a horizontal translation of the content strip. The scroll progress, a
 * fraction in [0, 1], is applied to how far the strip sticks out of its
 * container.
 */
module Scroller {
  import opened Wrappers
  import opened JsMath

  /** `Math.max(0, Math.min(1, scrollTop / maxScroll))`. */
  function Progress(scrollTop: real, maxScroll: real): (p: real)
    requires maxScroll > 0.0
    ensures 0.0 <= p <= 1.0
    ensures scrollTop <= 0.0 ==> p == 0.0
    ensures scrollTop >= maxScroll ==> p == 1.0
    ensures 0.0 <= scrollTop <= maxScroll ==> p == scrollTop / maxScroll
  {
    if scrollTop >= maxScroll then DivAtLeastOne(scrollTop, maxScroll); Max(0.0, Min(1.0, scrollTop / maxScroll))
    else Max(0.0, Min(1.0, scrollTop / maxScroll))
  }

  lemma DivAtLeastOne(a: real, m: real)
    requires m > 0.0 && a >= m
    ensures a / m >= 1.0
  {
    var inv := 1.0 / m;
    assert inv * m == 1.0;
    assert inv > 0.0;
    MulNonneg(a - m, inv);
    assert (a - m) * inv == a * inv - m * inv;
    assert a / m == a * inv;
  }

  /** How far the strip can move: `Math.max(0, contentWidth - containerWidth)`. */
  function MaxTranslate(contentWidth: real, containerWidth: real): (m: real)
    ensures m >= 0.0
    ensures contentWidth <= containerWidth ==> m == 0.0
    ensures contentWidth >= containerWidth ==> m == contentWidth - containerWidth
  {
    Max(0.0, contentWidth - containerWidth)
  }

  /**
   * `handleScroll`: the `translateX` it writes, or None when the wrapper
   * cannot scroll (`maxScroll <= 0`) and nothing is written.
   */
  function TranslateX(scrollTop: real, scrollHeight: real, clientHeight: real,
                      contentWidth: real, containerWidth: real): (t: Option<real>)
    ensures t.None? <==> scrollHeight - clientHeight <= 0.0
  {
    var maxScroll := scrollHeight - clientHeight;
    if maxScroll <= 0.0 then None
    else Some(-Progress(scrollTop, maxScroll) * MaxTranslate(contentWidth, containerWidth))
  }

  /** The translation lies in [-maxTranslate, 0]: the strip never leaves its track. */
  lemma TranslateRange(scrollTop: real, scrollHeight: real, clientHeight: real,
                       contentWidth: real, containerWidth: real)
    requires scrollHeight - clientHeight > 0.0
    ensures var t := TranslateX(scrollTop, scrollHeight, clientHeight, contentWidth, containerWidth).value;
      -MaxTranslate(contentWidth, containerWidth) <= t <= 0.0
  {
    var p := Progress(scrollTop, scrollHeight - clientHeight);
    var m := MaxTranslate(contentWidth, containerWidth);
    MulNonneg(p, m);
    MulNonneg(1.0 - p, m);
    assert p * m <= m by { assert m - p * m == (1.0 - p) * m; }
  }

  /** At the top the strip is at its start; at or past the bottom it is fully shifted. */
  lemma TranslateEnds(scrollTop: real, scrollHeight: real, clientHeight: real,
                      contentWidth: real, containerWidth: real)
    requires scrollHeight - clientHeight > 0.0
    ensures scrollTop <= 0.0 ==>
      TranslateX(scrollTop, scrollHeight, clientHeight, contentWidth, containerWidth) == Some(0.0)
    ensures scrollTop >= scrollHeight - clientHeight ==>
      TranslateX(scrollTop, scrollHeight, clientHeight, contentWidth, containerWidth) ==
      Some(-MaxTranslate(contentWidth, containerWidth))
  {
  }

  /** Scrolling further down never moves the strip back. */
  lemma TranslateMonotone(top1: real, top2: real, scrollHeight: real, clientHeight: real,
                          contentWidth: real, containerWidth: real)
    requires scrollHeight - clientHeight > 0.0 && top1 <= top2
    ensures TranslateX(top2, scrollHeight, clientHeight, contentWidth, containerWidth).value <=
            TranslateX(top1, scrollHeight, clientHeight, contentWidth, containerWidth).value
  {
    var ms := scrollHeight - clientHeight;
    var m := MaxTranslate(contentWidth, containerWidth);
    var p1, p2 := Progress(top1, ms), Progress(top2, ms);
    assert top1 / ms <= top2 / ms by { MulNonneg(top2 - top1, 1.0 / ms); }
    assert p1 <= p2;
    MulNonneg(p2 - p1, m);
    assert p2 * m - p1 * m == (p2 - p1) * m;
  }
}
