/**
 * SpacingAdjustmentAPI: a bottom margin derived from the font size, and the
 * mobile spacing class chosen from the viewport width.
 */
module SpacingAdjustment {
  import opened Wrappers
  import opened Dom
  import ClassList

  const MobileSpacing := "mobile-spacing"

  /** Widths below this many pixels count as mobile. */
  const MobileWidthLimit := 600

  /**
   * Half of a whole-pixel font size, exactly: a whole number of pixels for an
   * even size and a whole number plus one half for an odd one.
   */
  function HalfPx(fontSizePx: int): (margin: real)
    ensures 2.0 * margin == fontSizePx as real
    ensures fontSizePx % 2 == 0 ==> margin == (fontSizePx / 2) as real
    ensures fontSizePx % 2 == 1 ==> margin == (fontSizePx / 2) as real + 0.5
  {
    fontSizePx as real / 2.0
  }

  /** `autoSpacing`: each element's bottom margin becomes half its own font size. */
  method AutoSpacing(elements: seq<Element>)
    modifies elements`marginBottom
    ensures forall e :: e in elements ==> e.marginBottom == Some(HalfPx(e.computedFontSizePx))
  {
    var i := 0;
    while i < |elements|
      invariant 0 <= i <= |elements|
      invariant forall e :: e in elements[..i] ==> e.marginBottom == Some(HalfPx(e.computedFontSizePx))
    {
      var e := elements[i];
      e.marginBottom := Some(HalfPx(e.computedFontSizePx));
      assert elements[..i + 1] == elements[..i] + [e];
      i := i + 1;
    }
    assert elements[..i] == elements;
  }

  /**
   * `optimizeSpacingForResponsive`, with the `.spacing` elements passed as
   * `elements` and `window.innerWidth` as `width`.
   */
  method OptimizeSpacingForResponsive(width: int, elements: seq<Element>)
    modifies elements`classes
    ensures forall e :: e in elements ==> e.classes == ClassList.Toggle(old(e.classes), MobileSpacing, width < MobileWidthLimit)
    ensures forall e :: e in elements ==> (MobileSpacing in e.classes <==> width < MobileWidthLimit)
    ensures forall e, x :: e in elements && x != MobileSpacing ==> (x in e.classes <==> x in old(e.classes))
    ensures forall e :: e in elements && (MobileSpacing in old(e.classes) <==> width < MobileWidthLimit) ==> e.classes == old(e.classes)
  {
    var i := 0;
    while i < |elements|
      invariant 0 <= i <= |elements|
      invariant forall e :: e in elements[..i] ==> e.classes == ClassList.Toggle(old(e.classes), MobileSpacing, width < MobileWidthLimit)
      invariant forall e :: e in elements[i..] && e !in elements[..i] ==> e.classes == old(e.classes)
    {
      var e := elements[i];
      ClassList.ToggleOverrides(old(e.classes), MobileSpacing, width < MobileWidthLimit, width < MobileWidthLimit);
      if width < MobileWidthLimit {
        e.classes := e.classes + {MobileSpacing};
      } else {
        e.classes := e.classes - {MobileSpacing};
      }
      assert elements[..i + 1] == elements[..i] + [e];
      i := i + 1;
    }
    assert elements[..i] == elements;
  }
}
