/** ContextualAnimationAPI: inline transitions per user action, and a marker class on animated elements. */
module ContextualAnimation {
  import opened Dom

  const OptimizedAnimation := "optimized-animation"

  const ClickTransition := "transform 0.3s ease-in-out"
  const ClickTransform := "scale(1.1)"
  const HoverTransition := "background-color 0.3s ease"
  const HoverBackground := "rgba(0, 0, 0, 0.1)"

  /**
   * `animateOnAction`: a click scales the element, a hover tints its
   * background, and any other action leaves it alone.
   */
  method AnimateOnAction(element: Element, action: string)
    modifies element`transition, element`transform, element`backgroundColor
    ensures action == "click" ==>
      element.transition == ClickTransition && element.transform == ClickTransform &&
      element.backgroundColor == old(element.backgroundColor)
    ensures action == "hover" ==>
      element.transition == HoverTransition && element.backgroundColor == HoverBackground &&
      element.transform == old(element.transform)
    ensures action != "click" && action != "hover" ==>
      element.transition == old(element.transition) && element.transform == old(element.transform) &&
      element.backgroundColor == old(element.backgroundColor)
  {
    if action == "click" {
      element.transition := ClickTransition;
      element.transform := ClickTransform;
    } else if action == "hover" {
      element.transition := HoverTransition;
      element.backgroundColor := HoverBackground;
    }
  }

  /** `optimizeAnimationForContext`, with the `.animate` elements passed as `elements`. */
  method OptimizeAnimationForContext(elements: seq<Element>)
    modifies elements`classes
    ensures forall e :: e in elements ==> e.classes == old(e.classes) + {OptimizedAnimation}
    ensures forall e :: e in elements && OptimizedAnimation in old(e.classes) ==> e.classes == old(e.classes)
  {
    AddToEach(elements, OptimizedAnimation);
  }
}
