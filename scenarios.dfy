/**
 * Callers of the class-updating operations: what a caller can conclude from
 * their contracts alone about calling them again.
 */
module Scenarios {
  import opened Wrappers
  import opened Dom
  import ClassList
  import ResponsiveDesign
  import SpacingAdjustment
  import DynamicLayout
  import SemanticStyling

  /** Adjusting the layout twice for the same width is the same as adjusting it once. */
  method AdjustLayoutTwice(body: Element, width: int)
    modifies body`classes
    ensures body.classes == ClassList.Toggle(old(body.classes), ResponsiveDesign.MobileLayout, width < ResponsiveDesign.MobileWidthLimit)
  {
    ResponsiveDesign.AdjustLayoutBasedOnContent(body, width);
    ghost var once := body.classes;
    ResponsiveDesign.AdjustLayoutBasedOnContent(body, width);
    assert body.classes == once;
  }

  /** Optimising the spacing twice for the same width is the same as optimising it once. */
  method OptimizeSpacingTwice(width: int, elements: seq<Element>)
    modifies elements`classes
    ensures forall e :: e in elements ==>
      e.classes == ClassList.Toggle(old(e.classes), SpacingAdjustment.MobileSpacing, width < SpacingAdjustment.MobileWidthLimit)
  {
    SpacingAdjustment.OptimizeSpacingForResponsive(width, elements);
    SpacingAdjustment.OptimizeSpacingForResponsive(width, elements);
  }

  /** A call on a "4g" connection followed by one without connection information leaves both layout classes. */
  method SwitchFastThenUnknown(body: Element)
    modifies body`classes
    ensures DynamicLayout.HighSpeedLayout in body.classes && DynamicLayout.LowSpeedLayout in body.classes
    ensures old(body.classes) <= body.classes
  {
    DynamicLayout.SwitchLayoutBasedOnConditions(body, Some(DynamicLayout.FastConnection));
    DynamicLayout.SwitchLayoutBasedOnConditions(body, None);
  }

  /** Applying the semantic styles twice adds nothing beyond the first application. */
  method ApplySemanticStylesTwice(headers: seq<Element>, footers: seq<Element>)
    modifies headers`classes, footers`classes
    ensures forall e :: e in headers && e !in footers ==> e.classes == old(e.classes) + {SemanticStyling.SemanticHeader}
    ensures forall e :: e in footers && e !in headers ==> e.classes == old(e.classes) + {SemanticStyling.SemanticFooter}
    ensures forall e :: e in headers && e in footers ==>
      e.classes == old(e.classes) + {SemanticStyling.SemanticHeader, SemanticStyling.SemanticFooter}
  {
    SemanticStyling.ApplySemanticStyles(headers, footers);
    SemanticStyling.ApplySemanticStyles(headers, footers);
  }

  /** Adjusting the layout once per observed width, in order, yields the series of toggles. */
  method AdjustLayoutForEachWidth(body: Element, widths: seq<int>)
    modifies body`classes
    ensures body.classes == ClassList.ToggleSeries(old(body.classes), ResponsiveDesign.MobileLayout,
      seq(|widths|, i requires 0 <= i < |widths| => widths[i] < ResponsiveDesign.MobileWidthLimit))
  {
    ghost var ons := seq(|widths|, i requires 0 <= i < |widths| => widths[i] < ResponsiveDesign.MobileWidthLimit);
    var i := 0;
    while i < |widths|
      invariant 0 <= i <= |widths|
      invariant ClassList.ToggleSeries(old(body.classes), ResponsiveDesign.MobileLayout, ons) ==
        ClassList.ToggleSeries(body.classes, ResponsiveDesign.MobileLayout, ons[i..])
    {
      assert ons[i..][1..] == ons[i + 1..];
      ResponsiveDesign.AdjustLayoutBasedOnContent(body, widths[i]);
      i := i + 1;
    }
  }

  /** Switching the layout once per observed connection, in order, yields the series of additions. */
  method SwitchLayoutForEachConnection(body: Element, connections: seq<Option<string>>)
    modifies body`classes
    ensures body.classes == DynamicLayout.SwitchSeries(old(body.classes), connections)
  {
    var i := 0;
    while i < |connections|
      invariant 0 <= i <= |connections|
      invariant DynamicLayout.SwitchSeries(old(body.classes), connections) ==
        DynamicLayout.SwitchSeries(body.classes, connections[i..])
    {
      assert connections[i..][1..] == connections[i + 1..];
      DynamicLayout.SwitchLayoutBasedOnConditions(body, connections[i]);
      i := i + 1;
    }
  }
}
