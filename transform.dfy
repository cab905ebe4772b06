/**
 * The scroll-offset to visual-transform mapping applied on every scroll tick.
 *
 * The scroll offset `l` runs from 0 (menu fully open) to `menuWidth` (menu
 * fully closed). From the normalised progress `t = l / menuWidth` the widget
 * derives four visual values: the uniform scale of the content panel, the
 * opacity and horizontal translation of the menu panel, and the opacity of
 * the shadow overlay that darkens the content. The source computes them in
 * single-precision floats; here they are exact reals.
 */
module Transform {

  /** The four visual values one scroll tick applies, all together. */
  datatype Appearance = Appearance(
    contentScale: real,
    menuAlpha: real,
    menuTranslationX: real,
    shadowAlpha: real)

  /** Normalised position: 1 when closed (l == menuWidth), 0 when open (l == 0). */
  function Progress(l: int, menuWidth: int): (t: real)
    requires menuWidth > 0
    ensures 0 <= l <= menuWidth ==> 0.0 <= t <= 1.0
    ensures t == 0.0 <==> l == 0
    ensures t == 1.0 <==> l == menuWidth
  {
    l as real / menuWidth as real
  }

  /** Content panel scale: 0.7 when open, growing to 1 when closed. */
  function ContentScale(l: int, menuWidth: int): (r: real)
    requires menuWidth > 0
    ensures 0 <= l <= menuWidth ==> 0.7 <= r <= 1.0
  {
    0.7 + 0.3 * Progress(l, menuWidth)
  }

  /** Menu panel opacity: 1 when open, fading to 0.3 when closed. */
  function MenuAlpha(l: int, menuWidth: int): (r: real)
    requires menuWidth > 0
    ensures 0 <= l <= menuWidth ==> 0.3 <= r <= 1.0
  {
    0.3 + (1.0 - Progress(l, menuWidth)) * 0.7
  }

  /**
   * Menu panel translation. The source multiplies 0.25 by the literal 1
   * rather than by the progress, so the value does not depend on the offset.
   */
  function MenuTranslationX(l: int, menuWidth: int): real
    requires menuWidth > 0
  {
    0.25 * 1.0
  }

  /** Shadow overlay opacity: 1 when open, 0 when closed. */
  function ShadowAlpha(l: int, menuWidth: int): (r: real)
    requires menuWidth > 0
    ensures 0 <= l <= menuWidth ==> 0.0 <= r <= 1.0
  {
    1.0 - Progress(l, menuWidth)
  }

  /** Everything one call of the scroll callback computes for offset `l`. */
  function AppearanceAt(l: int, menuWidth: int): (a: Appearance)
    requires menuWidth > 0
    ensures 0 <= l <= menuWidth ==>
      0.7 <= a.contentScale <= 1.0 &&
      0.3 <= a.menuAlpha <= 1.0 &&
      0.0 <= a.shadowAlpha <= 1.0
  {
    Appearance(
      ContentScale(l, menuWidth),
      MenuAlpha(l, menuWidth),
      MenuTranslationX(l, menuWidth),
      ShadowAlpha(l, menuWidth))
  }

  /** Progress grows with the offset, strictly. */
  lemma ProgressMonotone(l1: int, l2: int, menuWidth: int)
    requires menuWidth > 0 && l1 <= l2
    ensures Progress(l1, menuWidth) <= Progress(l2, menuWidth)
    ensures l1 < l2 ==> Progress(l1, menuWidth) < Progress(l2, menuWidth)
  {
    var w := menuWidth as real;
    assert Progress(l2, menuWidth) - Progress(l1, menuWidth) == (l2 - l1) as real / w;
  }

  /**
   * As the offset grows (the menu closes) the content scale does not shrink,
   * while the menu opacity and the shadow opacity do not grow.
   */
  lemma AppearanceMonotone(l1: int, l2: int, menuWidth: int)
    requires menuWidth > 0 && l1 <= l2
    ensures ContentScale(l1, menuWidth) <= ContentScale(l2, menuWidth)
    ensures MenuAlpha(l1, menuWidth) >= MenuAlpha(l2, menuWidth)
    ensures ShadowAlpha(l1, menuWidth) >= ShadowAlpha(l2, menuWidth)
  {
    ProgressMonotone(l1, l2, menuWidth);
  }

  /** The menu translation is the same for every pair of offsets. */
  lemma MenuTranslationIsStatic(l1: int, l2: int, menuWidth: int)
    requires menuWidth > 0
    ensures MenuTranslationX(l1, menuWidth) == MenuTranslationX(l2, menuWidth) == 0.25
  {
  }

  /** The fully closed look: full-size content, dim menu, no shadow. */
  lemma ClosedAppearance(menuWidth: int)
    requires menuWidth > 0
    ensures AppearanceAt(menuWidth, menuWidth) == Appearance(1.0, 0.3, 0.25, 0.0)
  {
  }

  /** The fully open look: content shrunk to 0.7, opaque menu, full shadow. */
  lemma OpenAppearance(menuWidth: int)
    requires menuWidth > 0
    ensures AppearanceAt(0, menuWidth) == Appearance(0.7, 1.0, 0.25, 1.0)
  {
  }

  /**
   * The three moving values are tied to each other: the menu opacity is an
   * affine image of the shadow opacity, and the content scale of its complement.
   */
  lemma AppearanceCoupling(l: int, menuWidth: int)
    requires menuWidth > 0
    ensures MenuAlpha(l, menuWidth) == 0.3 + 0.7 * ShadowAlpha(l, menuWidth)
    ensures ContentScale(l, menuWidth) == 1.0 - 0.3 * ShadowAlpha(l, menuWidth)
  {
  }
}
